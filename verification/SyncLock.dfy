/**
 * Many configuration syncs at once on one connection pool, kept apart by a session-level
 * advisory lock. A connection that goes back to the pool keeps whatever its session holds;
 * it is rolled back and stripped of its locks when the pool hands it out again.
 */
module SyncLock {
  import opened SyncTables
  import opened SyncSettled
  import opened SyncSteps

  datatype User = Nobody | Other | Sync(job: nat)

  /** `locks` counts how often the session holds the sync lock: taking it again nests. */
  datatype Session = Session(locks: nat, inTransaction: bool, user: User)

  datatype Phase = Waiting | Holding(stage: Stage)

  datatype Job = Job(conn: nat, task: Task, phase: Phase)

  datatype Status = Running | Stopped | Finished

  /** What one holder of the lock wrote, from the tables it found. */
  datatype Block = Block(task: Task, start: Tables, ops: seq<Op>, status: Status)

  datatype State = State(tables: Tables, sessions: map<nat, Session>, jobs: map<nat, Job>, history: seq<Block>)

  datatype Event =
    | CheckOut(conn: nat)
    | BeginTransaction(conn: nat)
    | GiveBack(conn: nat)
    | Close(conn: nat)
    | Start(job: nat, conn: nat, task: Task)
    | Acquire(job: nat)
    | Advance(job: nat)
    | Fail(job: nat)
    | Finish(job: nat, unlocked: bool)

  function Amend(h: seq<Block>, status: Status): seq<Block> {
    if h == [] then h else h[..|h| - 1] + [h[|h| - 1].(status := status)]
  }

  function Wrote(h: seq<Block>, ops: seq<Op>): seq<Block> {
    if h == [] then h else h[..|h| - 1] + [h[|h| - 1].(ops := h[|h| - 1].ops + ops)]
  }

  predicate Free(s: State, conn: nat) {
    conn in s.sessions ==> s.sessions[conn].user.Nobody?
  }

  /** The lock can be taken on `conn`: no other session has it. */
  predicate Available(s: State, conn: nat) {
    forall c :: c in s.sessions && c != conn ==> s.sessions[c].locks == 0
  }

  /** The job is over; its connection goes back as it is. */
  function Leave(s: State, j: nat, locks: nat, status: Status): State
    requires j in s.jobs && s.jobs[j].conn in s.sessions
  {
    var conn := s.jobs[j].conn;
    s.(jobs := s.jobs - {j},
       sessions := s.sessions[conn := s.sessions[conn].(user := Nobody, locks := locks)],
       history := if s.jobs[j].phase.Holding? then Amend(s.history, status) else s.history)
  }

  ghost function Step(s: State, e: Event): State {
    match e
    case CheckOut(conn) =>
      if Free(s, conn) then s.(sessions := s.sessions[conn := Session(0, false, Other)]) else s
    case BeginTransaction(conn) =>
      if conn in s.sessions && s.sessions[conn].user.Other?
      then s.(sessions := s.sessions[conn := s.sessions[conn].(inTransaction := true)]) else s
    case GiveBack(conn) =>
      if conn in s.sessions && s.sessions[conn].user.Other?
      then s.(sessions := s.sessions[conn := s.sessions[conn].(user := Nobody)]) else s
    case Close(conn) =>
      if conn !in s.sessions then s
      else
        var user := s.sessions[conn].user;
        var t := if user.Sync? && user.job in s.jobs && s.jobs[user.job].conn == conn
                 then Leave(s, user.job, s.sessions[conn].locks, Stopped) else s;
        t.(sessions := t.sessions - {conn})
    case Start(j, conn, task) =>
      if Free(s, conn) && j !in s.jobs then
        s.(sessions := s.sessions[conn := Session(0, false, Sync(j))], jobs := s.jobs[j := Job(conn, task, Waiting)])
      else s
    case Acquire(j) =>
      if j in s.jobs && s.jobs[j].phase.Waiting? && s.jobs[j].conn in s.sessions && Available(s, s.jobs[j].conn) then
        var conn := s.jobs[j].conn;
        s.(sessions := s.sessions[conn := s.sessions[conn].(locks := s.sessions[conn].locks + 1)],
           jobs := s.jobs[j := s.jobs[j].(phase := Holding(Listing))],
           history := s.history + [Block(s.jobs[j].task, s.tables, [], Running)])
      else s
    case Advance(j) =>
      if j in s.jobs && s.jobs[j].phase.Holding? && s.jobs[j].conn in s.sessions
      then AdvanceJob(s, j, Next(s.tables, s.jobs[j].task, s.jobs[j].phase.stage)) else s
    case Fail(j) =>
      if j in s.jobs && s.jobs[j].conn in s.sessions
      then Leave(s, j, s.sessions[s.jobs[j].conn].locks, Stopped) else s
    case Finish(j, unlocked) =>
      if j in s.jobs && s.jobs[j].phase == Holding(Releasing) && s.jobs[j].conn in s.sessions then
        var locks := s.sessions[s.jobs[j].conn].locks;
        Leave(s, j, if unlocked && locks > 0 then locks - 1 else locks, Finished)
      else s
  }

  function AdvanceJob(s: State, j: nat, move: Move): State
    requires j in s.jobs && s.jobs[j].conn in s.sessions
  {
    match move
    case Fault => Leave(s, j, s.sessions[s.jobs[j].conn].locks, Stopped)
    case Go(stage, writes) =>
      s.(tables := Run(s.tables, writes),
         jobs := s.jobs[j := s.jobs[j].(phase := Holding(stage))],
         history := Wrote(s.history, writes))
  }

  ghost function RunAll(first: Tables, events: seq<Event>): State {
    if events == [] then State(first, map[], map[], [])
    else Step(RunAll(first, events[..|events| - 1]), events[|events| - 1])
  }

  // Sessions

  ghost predicate JobOk(s: State, j: nat)
    requires j in s.jobs
  {
    var conn := s.jobs[j].conn;
    && conn in s.sessions
    && s.sessions[conn].user == Sync(j)
    && !s.sessions[conn].inTransaction
    && s.sessions[conn].locks == if s.jobs[j].phase.Holding? then 1 else 0
  }

  ghost predicate SessionOk(s: State, c: nat)
    requires c in s.sessions
  {
    var session := s.sessions[c];
    && session.locks <= 1
    && (session.user.Other? ==> session.locks == 0)
    && (session.user.Sync? ==> session.user.job in s.jobs && s.jobs[session.user.job].conn == c)
  }

  ghost predicate SessionsOk(s: State) {
    && (forall j :: j in s.jobs ==> JobOk(s, j))
    && (forall c :: c in s.sessions ==> SessionOk(s, c))
    && (forall c, d :: c in s.sessions && d in s.sessions && s.sessions[c].locks > 0 && s.sessions[d].locks > 0 ==> c == d)
  }

  lemma LeaveKeepsSessions(s: State, j: nat, locks: nat, status: Status)
    requires SessionsOk(s) && j in s.jobs && s.jobs[j].conn in s.sessions && locks <= s.sessions[s.jobs[j].conn].locks
    ensures SessionsOk(Leave(s, j, locks, status))
  {
    var t := Leave(s, j, locks, status);
    assert JobOk(s, j);
    forall i | i in t.jobs ensures JobOk(t, i) { assert JobOk(s, i); }
    forall c | c in t.sessions ensures SessionOk(t, c) { assert SessionOk(s, c); }
  }

  lemma CloseKeepsSessions(s: State, conn: nat)
    requires SessionsOk(s)
    ensures SessionsOk(Step(s, Close(conn)))
  {
    if conn in s.sessions {
      assert SessionOk(s, conn);
      var user := s.sessions[conn].user;
      var t := if user.Sync? then Leave(s, user.job, s.sessions[conn].locks, Stopped) else s;
      if user.Sync? { LeaveKeepsSessions(s, user.job, s.sessions[conn].locks, Stopped); }
      var u := Step(s, Close(conn));
      forall i | i in u.jobs ensures JobOk(u, i) { assert JobOk(t, i); }
      forall c | c in u.sessions ensures SessionOk(u, c) { assert SessionOk(t, c); }
    }
  }

  /** A session that no job uses changes hands or state. */
  lemma ReplaceKeepsSessions(s: State, conn: nat, after: Session)
    requires SessionsOk(s) && (conn in s.sessions ==> !s.sessions[conn].user.Sync?)
    requires !after.user.Sync? && (after.user.Other? ==> after.locks == 0)
    requires after.locks <= if conn in s.sessions then s.sessions[conn].locks else 0
    ensures SessionsOk(s.(sessions := s.sessions[conn := after]))
  {
    var t := s.(sessions := s.sessions[conn := after]);
    forall i | i in t.jobs ensures JobOk(t, i) { assert JobOk(s, i); }
    forall c | c in t.sessions ensures SessionOk(t, c) {
      assert c in s.sessions ==> SessionOk(s, c);
    }
  }

  lemma StartKeepsSessions(s: State, j: nat, conn: nat, task: Task)
    requires SessionsOk(s) && Free(s, conn) && j !in s.jobs
    ensures SessionsOk(Step(s, Start(j, conn, task)))
  {
    var t := Step(s, Start(j, conn, task));
    forall i | i in t.jobs ensures JobOk(t, i) {
      assert i in s.jobs ==> JobOk(s, i);
    }
    forall c | c in t.sessions ensures SessionOk(t, c) {
      assert c in s.sessions ==> SessionOk(s, c);
    }
  }

  lemma PoolKeepsSessions(s: State, e: Event)
    requires SessionsOk(s) && (e.CheckOut? || e.BeginTransaction? || e.GiveBack?)
    ensures SessionsOk(Step(s, e))
  {
    assert e.conn in s.sessions ==> SessionOk(s, e.conn);
    if e.CheckOut? {
      if Free(s, e.conn) { ReplaceKeepsSessions(s, e.conn, Session(0, false, Other)); }
    } else if e.conn in s.sessions && s.sessions[e.conn].user.Other? {
      var session := s.sessions[e.conn];
      ReplaceKeepsSessions(
        s, e.conn, if e.BeginTransaction? then session.(inTransaction := true) else session.(user := Nobody));
    }
  }

  lemma AcquireKeepsSessions(s: State, j: nat)
    requires SessionsOk(s)
    ensures SessionsOk(Step(s, Acquire(j)))
  {
    var t := Step(s, Acquire(j));
    if j in s.jobs {
      assert JobOk(s, j);
      forall i | i in t.jobs ensures JobOk(t, i) { assert JobOk(s, i); }
      forall c | c in t.sessions ensures SessionOk(t, c) { assert SessionOk(s, c); }
    }
  }

  lemma AdvanceKeepsSessions(s: State, j: nat, move: Move)
    requires SessionsOk(s) && j in s.jobs && s.jobs[j].phase.Holding? && s.jobs[j].conn in s.sessions
    ensures SessionsOk(AdvanceJob(s, j, move))
  {
    if move.Fault? {
      LeaveKeepsSessions(s, j, s.sessions[s.jobs[j].conn].locks, Stopped);
    } else {
      var t := AdvanceJob(s, j, move);
      forall i | i in t.jobs ensures JobOk(t, i) { assert JobOk(s, i); }
      forall c | c in t.sessions ensures SessionOk(t, c) { assert SessionOk(s, c); }
    }
  }

  lemma StepKeepsSessions(s: State, e: Event)
    requires SessionsOk(s)
    ensures SessionsOk(Step(s, e))
  {
    match e
    case Close(conn) => CloseKeepsSessions(s, conn);
    case Acquire(j) => AcquireKeepsSessions(s, j);
    case Advance(j) =>
      if j in s.jobs && s.jobs[j].phase.Holding? && s.jobs[j].conn in s.sessions {
        AdvanceKeepsSessions(s, j, Next(s.tables, s.jobs[j].task, s.jobs[j].phase.stage));
      }
    case Fail(j) =>
      if j in s.jobs && s.jobs[j].conn in s.sessions {
        LeaveKeepsSessions(s, j, s.sessions[s.jobs[j].conn].locks, Stopped);
      }
    case Finish(j, unlocked) =>
      if j in s.jobs && s.jobs[j].phase == Holding(Releasing) && s.jobs[j].conn in s.sessions {
        var locks := s.sessions[s.jobs[j].conn].locks;
        LeaveKeepsSessions(s, j, if unlocked && locks > 0 then locks - 1 else locks, Finished);
      }
    case Start(j, conn, task) =>
      if Free(s, conn) && j !in s.jobs { StartKeepsSessions(s, j, conn, task); }
    case _ => PoolKeepsSessions(s, e);
  }

  lemma {:induction false} SessionsStayOk(first: Tables, events: seq<Event>)
    ensures SessionsOk(RunAll(first, events))
  {
    if events != [] {
      SessionsStayOk(first, events[..|events| - 1]);
      StepKeepsSessions(RunAll(first, events[..|events| - 1]), events[|events| - 1]);
    }
  }

  // Serial history

  /** The blocks follow on from one another, from the first tables to the present ones. */
  ghost predicate Chain(first: Tables, h: seq<Block>, now: Tables) {
    if h == [] then now == first
    else
      var b := h[|h| - 1];
      now == Run(b.start, b.ops) && Chain(first, h[..|h| - 1], b.start)
  }

  /** The block is a beginning of the plan for the tables it found; all of it if it finished. */
  ghost predicate Sound(b: Block) {
    && b.ops <= Whole(b.start, b.task).ops
    && (b.status.Finished? ==> b.ops == Whole(b.start, b.task).ops && !Whole(b.start, b.task).fault)
  }

  /** The holder's block is the last one, and the only one still running. */
  ghost predicate Current(s: State, j: nat)
    requires j in s.jobs
  {
    s.jobs[j].phase.Holding? ==>
      && s.history != []
      && var b := s.history[|s.history| - 1];
         b.status.Running? && b.task == s.jobs[j].task && Progress(b.start, b.task, s.jobs[j].phase.stage, b.ops)
  }

  /** A history that is serial and sound, with no block but the last still running. */
  ghost predicate Recorded(first: Tables, h: seq<Block>, now: Tables) {
    && Chain(first, h, now)
    && (forall i :: 0 <= i < |h| ==> Sound(h[i]))
    && (forall i :: 0 <= i < |h| - 1 ==> !h[i].status.Running?)
  }

  ghost predicate StillRunning(h: seq<Block>) {
    h != [] && h[|h| - 1].status.Running?
  }

  ghost predicate SomeHolder(s: State) {
    exists j :: j in s.jobs && s.jobs[j].phase.Holding?
  }

  ghost predicate HistoryOk(first: Tables, s: State) {
    && Recorded(first, s.history, s.tables)
    && (forall j :: j in s.jobs ==> Current(s, j))
    && (StillRunning(s.history) ==> SomeHolder(s))
  }

  lemma OneHolder(s: State, i: nat, j: nat)
    requires SessionsOk(s) && i in s.jobs && j in s.jobs && s.jobs[i].phase.Holding? && s.jobs[j].phase.Holding?
    ensures i == j
  {
    assert JobOk(s, i) && JobOk(s, j);
  }

  /** Closing the last block. */
  lemma AmendKeeps(first: Tables, h: seq<Block>, now: Tables, status: Status)
    requires Recorded(first, h, now) && h != [] && !status.Running?
    requires Sound(h[|h| - 1].(status := status))
    ensures Recorded(first, Amend(h, status), now) && !StillRunning(Amend(h, status))
  {
    hide Run, Whole;
    var last := |h| - 1;
    var g := Amend(h, status);
    assert g[..last] == h[..last];
    assert forall i :: 0 <= i < last ==> g[i] == h[i];
  }

  /** Writing in the last block. */
  lemma WroteKeeps(first: Tables, h: seq<Block>, now: Tables, writes: seq<Op>)
    requires Recorded(first, h, now) && StillRunning(h)
    requires var b := h[|h| - 1]; b.ops + writes <= Whole(b.start, b.task).ops
    ensures Recorded(first, Wrote(h, writes), Run(now, writes)) && StillRunning(Wrote(h, writes))
  {
    hide Run, Whole;
    var last := |h| - 1;
    var g := Wrote(h, writes);
    RunAppend(h[last].start, h[last].ops, writes);
    assert g[..last] == h[..last];
    assert forall i :: 0 <= i < last ==> g[i] == h[i];
  }

  lemma OpeningIsSound(task: Task, now: Tables)
    ensures Sound(Block(task, now, [], Running)) && Run(now, []) == now
  {
    hide Whole;
  }

  /** Opening a block. */
  lemma BeginKeeps(first: Tables, h: seq<Block>, now: Tables, task: Task)
    requires Recorded(first, h, now) && !StillRunning(h)
    ensures Recorded(first, h + [Block(task, now, [], Running)], now)
  {
    hide Run, Sound;
    OpeningIsSound(task, now);
    var g := h + [Block(task, now, [], Running)];
    assert g[..|h|] == h;
    assert forall i :: 0 <= i < |h| ==> g[i] == h[i];
  }

  lemma HolderLeaves(first: Tables, s: State, j: nat, locks: nat, status: Status)
    requires SessionsOk(s) && HistoryOk(first, s) && j in s.jobs && s.jobs[j].conn in s.sessions && !status.Running?
    requires s.jobs[j].phase.Holding? && (status.Finished? ==> s.jobs[j].phase.stage.Releasing?)
    ensures HistoryOk(first, Leave(s, j, locks, status))
  {
    assert Current(s, j);
    var b := s.history[|s.history| - 1];
    assert Sound(b);
    AmendKeeps(first, s.history, s.tables, status);
    var t := Leave(s, j, locks, status);
    forall i | i in t.jobs ensures !t.jobs[i].phase.Holding? {
      if s.jobs[i].phase.Holding? { OneHolder(s, i, j); }
    }
  }

  lemma WaiterLeaves(first: Tables, s: State, j: nat, locks: nat, status: Status)
    requires SessionsOk(s) && HistoryOk(first, s) && j in s.jobs && s.jobs[j].conn in s.sessions
    requires s.jobs[j].phase.Waiting?
    ensures HistoryOk(first, Leave(s, j, locks, status))
  {
    var t := Leave(s, j, locks, status);
    forall i | i in t.jobs ensures Current(t, i) { assert Current(s, i); }
    if SomeHolder(s) {
      var h :| h in s.jobs && s.jobs[h].phase.Holding?;
      assert h in t.jobs;
    }
  }

  lemma LeaveKeepsHistory(first: Tables, s: State, j: nat, locks: nat, status: Status)
    requires SessionsOk(s) && HistoryOk(first, s) && j in s.jobs && s.jobs[j].conn in s.sessions && !status.Running?
    requires status.Finished? ==> s.jobs[j].phase == Holding(Releasing)
    ensures HistoryOk(first, Leave(s, j, locks, status))
  {
    if s.jobs[j].phase.Holding? {
      HolderLeaves(first, s, j, locks, status);
    } else {
      WaiterLeaves(first, s, j, locks, status);
    }
  }

  lemma GoKeepsHistory(first: Tables, s: State, j: nat, move: Move)
    requires SessionsOk(s) && HistoryOk(first, s) && j in s.jobs && s.jobs[j].phase.Holding? && s.jobs[j].conn in s.sessions
    requires move == Next(s.tables, s.jobs[j].task, s.jobs[j].phase.stage) && move.Go?
    ensures HistoryOk(first, AdvanceJob(s, j, move))
  {
    var t := AdvanceJob(s, j, move);
    assert Current(s, j);
    var b := s.history[|s.history| - 1];
    assert s.tables == Run(b.start, b.ops);
    ProgressKeeps(b.start, b.task, s.jobs[j].phase.stage, b.ops);
    ProgressIsPrefix(b.start, b.task, move.stage, b.ops + move.writes);
    WroteKeeps(first, s.history, s.tables, move.writes);
    forall i | i in t.jobs && i != j ensures !t.jobs[i].phase.Holding? {
      if s.jobs[i].phase.Holding? { OneHolder(s, i, j); }
    }
    assert Current(t, j);
    assert t.jobs[j].phase.Holding?;
  }

  lemma AcquireKeepsHistory(first: Tables, s: State, j: nat)
    requires SessionsOk(s) && HistoryOk(first, s)
    requires j in s.jobs && s.jobs[j].phase.Waiting? && s.jobs[j].conn in s.sessions && Available(s, s.jobs[j].conn)
    ensures HistoryOk(first, Step(s, Acquire(j)))
  {
    var t := Step(s, Acquire(j));
    assert JobOk(s, j);
    forall i | i in s.jobs ensures !s.jobs[i].phase.Holding? {
      assert JobOk(s, i);
    }
    BeginKeeps(first, s.history, s.tables, s.jobs[j].task);
    forall i | i in t.jobs ensures Current(t, i) {}
    assert j in t.jobs && t.jobs[j].phase.Holding?;
  }

  /** A step that leaves the tables, the history and the holder alone. */
  lemma OtherKeepsHistory(first: Tables, s: State, t: State)
    requires HistoryOk(first, s) && t.tables == s.tables && t.history == s.history
    requires forall j :: j in s.jobs ==> j in t.jobs && t.jobs[j] == s.jobs[j]
    requires forall j :: j in t.jobs && j !in s.jobs ==> t.jobs[j].phase.Waiting?
    ensures HistoryOk(first, t)
  {
    forall i | i in t.jobs ensures Current(t, i) {
      if i in s.jobs { assert Current(s, i); }
    }
    if SomeHolder(s) {
      var h :| h in s.jobs && s.jobs[h].phase.Holding?;
      assert h in t.jobs && t.jobs[h].phase.Holding?;
    }
  }

  lemma PoolKeepsHistory(first: Tables, s: State, e: Event)
    requires HistoryOk(first, s) && (e.CheckOut? || e.BeginTransaction? || e.GiveBack? || e.Start?)
    ensures HistoryOk(first, Step(s, e))
  {
    OtherKeepsHistory(first, s, Step(s, e));
  }

  lemma CloseKeepsHistory(first: Tables, s: State, conn: nat)
    requires SessionsOk(s) && HistoryOk(first, s) && conn in s.sessions
    ensures HistoryOk(first, Step(s, Close(conn)))
  {
    assert SessionOk(s, conn);
    var user := s.sessions[conn].user;
    var t := if user.Sync? then Leave(s, user.job, s.sessions[conn].locks, Stopped) else s;
    if user.Sync? { LeaveKeepsHistory(first, s, user.job, s.sessions[conn].locks, Stopped); }
    OtherKeepsHistory(first, t, Step(s, Close(conn)));
  }

  lemma JobKeepsHistory(first: Tables, s: State, e: Event)
    requires SessionsOk(s) && HistoryOk(first, s) && (e.Advance? || e.Fail? || e.Finish?)
    requires e.job in s.jobs && s.jobs[e.job].conn in s.sessions
    ensures HistoryOk(first, Step(s, e))
  {
    var j := e.job;
    var locks := s.sessions[s.jobs[j].conn].locks;
    match e
    case Advance(_) =>
      if s.jobs[j].phase.Holding? {
        var move := Next(s.tables, s.jobs[j].task, s.jobs[j].phase.stage);
        if move.Go? {
          GoKeepsHistory(first, s, j, move);
        } else {
          LeaveKeepsHistory(first, s, j, locks, Stopped);
        }
      }
    case Fail(_) => LeaveKeepsHistory(first, s, j, locks, Stopped);
    case Finish(_, unlocked) =>
      if s.jobs[j].phase == Holding(Releasing) {
        LeaveKeepsHistory(first, s, j, if unlocked && locks > 0 then locks - 1 else locks, Finished);
      }
  }

  lemma StepKeepsHistory(first: Tables, s: State, e: Event)
    requires SessionsOk(s) && HistoryOk(first, s)
    ensures HistoryOk(first, Step(s, e))
  {
    match e
    case Close(conn) => if conn in s.sessions { CloseKeepsHistory(first, s, conn); }
    case Acquire(j) =>
      if j in s.jobs && s.jobs[j].phase.Waiting? && s.jobs[j].conn in s.sessions && Available(s, s.jobs[j].conn) {
        AcquireKeepsHistory(first, s, j);
      }
    case CheckOut(_) => PoolKeepsHistory(first, s, e);
    case BeginTransaction(_) => PoolKeepsHistory(first, s, e);
    case GiveBack(_) => PoolKeepsHistory(first, s, e);
    case Start(_, _, _) => PoolKeepsHistory(first, s, e);
    case _ =>
      if e.job in s.jobs && s.jobs[e.job].conn in s.sessions { JobKeepsHistory(first, s, e); }
  }

  lemma {:induction false} HistoryStaysOk(first: Tables, events: seq<Event>)
    ensures HistoryOk(first, RunAll(first, events))
  {
    if events != [] {
      var before := events[..|events| - 1];
      HistoryStaysOk(first, before);
      SessionsStayOk(first, before);
      StepKeepsHistory(first, RunAll(first, before), events[|events| - 1]);
    }
  }

  // What follows, for every schedule

  /** At most one job is between taking the lock and giving it up. */
  lemma MutualExclusion(first: Tables, events: seq<Event>, i: nat, j: nat)
    requires var s := RunAll(first, events);
             i in s.jobs && j in s.jobs && s.jobs[i].phase.Holding? && s.jobs[j].phase.Holding?
    ensures i == j
  {
    SessionsStayOk(first, events);
    OneHolder(RunAll(first, events), i, j);
  }

  /** A job never works inside a transaction or on a lock that someone else left behind. */
  lemma JobsStartClean(first: Tables, events: seq<Event>, j: nat)
    requires j in RunAll(first, events).jobs
    ensures var s := RunAll(first, events);
            && s.jobs[j].conn in s.sessions
            && var session := s.sessions[s.jobs[j].conn];
               !session.inTransaction && session.locks == if s.jobs[j].phase.Holding? then 1 else 0
  {
    SessionsStayOk(first, events);
    assert JobOk(RunAll(first, events), j);
  }

  /** A run that meets an error of the configuration stops like one that fails. */
  lemma FaultStopsRun(s: State, j: nat)
    requires j in s.jobs && s.jobs[j].phase.Holding? && s.jobs[j].conn in s.sessions
    requires Next(s.tables, s.jobs[j].task, s.jobs[j].phase.stage).Fault?
    ensures Step(s, Advance(j)) == Step(s, Fail(j))
  {
  }

  /**
   * A transaction that is left open goes back to the pool with its connection. A run that gets
   * the connection begins without it, and without any lock.
   */
  lemma OpenTransactionIsRecycled(s: State, conn: nat, j: nat, task: Task)
    requires Free(s, conn) && j !in s.jobs
    ensures var left := Step(Step(Step(s, CheckOut(conn)), BeginTransaction(conn)), GiveBack(conn));
            && left == s.(sessions := s.sessions[conn := Session(0, true, Nobody)])
            && Step(left, Start(j, conn, task))
            == s.(sessions := s.sessions[conn := Session(0, false, Sync(j))], jobs := s.jobs[j := Job(conn, task, Waiting)])
  {
    var a := Step(s, CheckOut(conn));
    assert a == s.(sessions := s.sessions[conn := Session(0, false, Other)]);
    var b := Step(a, BeginTransaction(conn));
    assert b == s.(sessions := s.sessions[conn := Session(0, true, Other)]);
    assert Step(b, GiveBack(conn)) == s.(sessions := s.sessions[conn := Session(0, true, Nobody)]);
  }

  /** A connection that is lost is gone with its lock, and so is the run that used it. */
  lemma ClosedIsGone(s: State, conn: nat)
    ensures var t := Step(s, Close(conn));
            && t.sessions == s.sessions - {conn} && t.tables == s.tables
            && forall j :: j in t.jobs <==>
                 j in s.jobs && !(conn in s.sessions && s.sessions[conn].user == Sync(j) && s.jobs[j].conn == conn)
  {
  }

  /** A run that fails while it has the lock leaves it with the connection, which goes back to the pool. */
  lemma LockStaysBehind(s: State, j: nat)
    requires j in s.jobs && s.jobs[j].conn in s.sessions
    ensures var t := Step(s, Fail(j)); var conn := s.jobs[j].conn;
            && j !in t.jobs && t.tables == s.tables
            && t.sessions == s.sessions[conn := s.sessions[conn].(user := Nobody)]
  {
  }

  /**
   * However runs interleave, fail or lose their connections, the tables are what the blocks
   * give one after another; each block is what its run alone would have written to the tables
   * it found, up to where it stopped; a finished run has settled them.
   */
  lemma RunsAreSerial(first: Tables, events: seq<Event>)
    ensures var s := RunAll(first, events);
            && Chain(first, s.history, s.tables)
            && forall i :: 0 <= i < |s.history| ==>
                 var b := s.history[i];
                 && b.ops <= Whole(b.start, b.task).ops
                 && (b.status.Finished? && !b.task.dryRun ==>
                       Completed(b.start, Run(b.start, b.ops), b.task.providers, b.task.clients, b.task.prune, b.task.stamp))
  {
    HistoryStaysOk(first, events);
    var s := RunAll(first, events);
    forall i | 0 <= i < |s.history|
      ensures Sound(s.history[i])
      ensures var b := s.history[i];
              b.status.Finished? && !b.task.dryRun ==>
                Completed(b.start, Run(b.start, b.ops), b.task.providers, b.task.clients, b.task.prune, b.task.stamp)
    {
      var b := s.history[i];
      if b.status.Finished? && !b.task.dryRun {
        PlannedSettles(b.start, b.task.providers, b.task.clients, b.task.prune, b.task.stamp);
      }
    }
  }

  /** After a successful unlock no session has the lock at all. */
  lemma UnlockReleases(first: Tables, events: seq<Event>, j: nat)
    requires var s := RunAll(first, events); j in s.jobs && s.jobs[j].phase == Holding(Releasing)
    ensures var t := RunAll(first, events + [Finish(j, true)]);
            forall c :: c in t.sessions ==> t.sessions[c].locks == 0
  {
    var s := RunAll(first, events);
    SessionsStayOk(first, events);
    assert JobOk(s, j);
    assert (events + [Finish(j, true)])[..|events|] == events;
  }

  /**
   * A lock that outlives its job is held by a connection nobody uses: while no job holds the
   * lock, a waiting job can take it now, or as soon as that connection is handed out or closed.
   */
  lemma LockIsRecovered(first: Tables, events: seq<Event>, w: nat) returns (e: Event)
    requires var s := RunAll(first, events);
             w in s.jobs && s.jobs[w].phase.Waiting? && !SomeHolder(s)
    ensures e.CheckOut? || e.Close?
    ensures var s := RunAll(first, events);
            Available(s, s.jobs[w].conn) || (Free(s, e.conn) && e.conn in s.sessions && s.sessions[e.conn].locks == 1)
    ensures var t := Step(Step(RunAll(first, events), e), Acquire(w));
            Available(RunAll(first, events), RunAll(first, events).jobs[w].conn)
            || (w in t.jobs && t.jobs[w].phase == Holding(Listing))
  {
    var s := RunAll(first, events);
    SessionsStayOk(first, events);
    forall j | j in s.jobs ensures s.jobs[j].conn in s.sessions && s.sessions[s.jobs[j].conn].locks == 0 {
      assert JobOk(s, j);
    }
    var conn := s.jobs[w].conn;
    if Available(s, conn) {
      e := CheckOut(conn);
    } else {
      var c :| c in s.sessions && c != conn && s.sessions[c].locks != 0;
      assert SessionOk(s, c);
      e := CheckOut(c);
      var t := Step(s, e);
      assert t.sessions == s.sessions[c := Session(0, false, Other)];
      assert Available(t, conn);
    }
  }
}

/** Schedules that make given attempts happen: each run on its own, cut off or brought to its end. */
module SyncSchedules {
  import opened SyncTables
  import opened SyncPlan
  import opened SyncSteps
  import opened SyncLock

  ghost function Continue(s: State, events: seq<Event>): State {
    if |events| == 0 then s else Step(Continue(s, events[..|events| - 1]), events[|events| - 1])
  }

  lemma ContinueOne(s: State, events: seq<Event>, e: Event)
    ensures Continue(s, events + [e]) == Step(Continue(s, events), e)
  {
    assert (events + [e])[..|events|] == events;
  }

  lemma {:induction false} ContinueAppend(s: State, a: seq<Event>, b: seq<Event>)
    ensures Continue(s, a + b) == Continue(Continue(s, a), b)
  {
    hide Step;
    if |b| == 0 {
      assert a + b == a;
    } else {
      var front, e := b[..|b| - 1], b[|b| - 1];
      ContinueAppend(s, a, front);
      assert a + b == (a + front) + [e] && b == front + [e];
      ContinueOne(s, a + front, e);
    }
  }

  lemma {:induction false} RunAllAppend(first: Tables, a: seq<Event>, b: seq<Event>)
    ensures RunAll(first, a + b) == Continue(RunAll(first, a), b)
  {
    if |b| == 0 {
      assert a + b == a;
    } else {
      RunAllAppend(first, a, b[..|b| - 1]);
      assert (a + b)[..|a + b| - 1] == a + b[..|b| - 1];
    }
  }

  /** One job holds the lock and nothing else is going on. */
  ghost function Solo(
    sessions: map<nat, Session>, j: nat, conn: nat, k: Task, stage: Stage,
    h: seq<Block>, start: Tables, done: seq<Op>): State {
    State(Run(start, done), sessions, map[j := Job(conn, k, Holding(stage))], h + [Block(k, start, done, Running)])
  }

  lemma SoloAdvances(
    sessions: map<nat, Session>, j: nat, conn: nat, k: Task, stage: Stage,
    h: seq<Block>, start: Tables, done: seq<Op>)
    requires conn in sessions && Next(Run(start, done), k, stage).Go?
    ensures var move := Next(Run(start, done), k, stage);
            var after := Solo(sessions, j, conn, k, move.stage, h, start, done + move.writes);
            Step(Solo(sessions, j, conn, k, stage, h, start, done), Advance(j)) == after
  {
    hide Next, Run;
    var s := Solo(sessions, j, conn, k, stage, h, start, done);
    var move := Next(Run(start, done), k, stage);
    RunAppend(start, done, move.writes);
    assert s.history[..|h|] == h;
    assert map[j := Job(conn, k, Holding(stage))][j := Job(conn, k, Holding(move.stage))]
        == map[j := Job(conn, k, Holding(move.stage))];
  }

  /** Which part of the run a stage belongs to, and how much of that part is left. */
  function Part(stage: Stage): nat {
    match stage
    case Listing => 6
    case Clearing(_) => 5
    case Looking(_) => 4
    case Storing(_) => 4
    case ListingClients => 3
    case ClearingClients(_) => 2
    case StoringClients(_) => 1
    case Failing => 0
    case Releasing => 0
  }

  function LeftIn(k: Task, stage: Stage): nat {
    match stage
    case Clearing(rest) => |rest|
    case Looking(i) => if i <= |k.providers| then 2 * (|k.providers| - i) + 1 else 0
    case Storing(i) => if i <= |k.providers| then 2 * (|k.providers| - i) else 0
    case ClearingClients(rest) => |rest|
    case StoringClients(i) => if i <= |k.clients| then |k.clients| - i else 0
    case _ => 0
  }

  lemma MovesOn(t: Tables, k: Task, stage: Stage)
    requires Next(t, k, stage).Go? && !stage.Releasing?
    ensures var move := Next(t, k, stage);
            |move.writes| <= 1 && (Part(stage), LeftIn(k, stage) decreases to Part(move.stage), LeftIn(k, move.stage))
  {
    match stage
    case Listing =>
    case Clearing(rest) =>
    case Looking(i) =>
    case Storing(i) =>
    case ListingClients =>
    case ClearingClients(rest) =>
    case StoringClients(i) =>
  }

  /** Advancing the job until it has executed just so many statements of its plan. */
  lemma {:induction false} DriveTo(
    sessions: map<nat, Session>, j: nat, conn: nat, k: Task, stage: Stage,
    h: seq<Block>, start: Tables, done: seq<Op>, n: nat)
    returns (events: seq<Event>, reached: Stage)
    requires conn in sessions && Progress(start, k, stage, done) && |done| <= n <= |Whole(start, k).ops|
    ensures Progress(start, k, reached, Whole(start, k).ops[..n])
    ensures Continue(Solo(sessions, j, conn, k, stage, h, start, done), events)
         == Solo(sessions, j, conn, k, reached, h, start, Whole(start, k).ops[..n])
    decreases Part(stage), LeftIn(k, stage)
  {
    hide Next, Run, Whole, Solo, Step;
    ProgressIsPrefix(start, k, stage, done);
    if |done| == n {
      assert Whole(start, k).ops[..n] == done;
      events, reached := [], stage;
    } else {
      var move := Next(Run(start, done), k, stage);
      ProgressKeeps(start, k, stage, done);
      NotYetOver(start, k, stage, done);
      MovesOn(Run(start, done), k, stage);
      SoloAdvances(sessions, j, conn, k, stage, h, start, done);
      var rest;
      rest, reached := DriveTo(sessions, j, conn, k, move.stage, h, start, done + move.writes, n);
      events := [Advance(j)] + rest;
      First(Solo(sessions, j, conn, k, stage, h, start, done), Advance(j), rest);
    }
  }

  lemma NotYetOver(start: Tables, k: Task, stage: Stage, done: seq<Op>)
    requires Progress(start, k, stage, done) && |done| < |Whole(start, k).ops|
    requires Follows(start, k, Next(Run(start, done), k, stage), done)
    ensures !stage.Releasing? && Next(Run(start, done), k, stage).Go?
    ensures Progress(start, k, Next(Run(start, done), k, stage).stage, done + Next(Run(start, done), k, stage).writes)
  {
    hide Next, Run, Whole;
  }

  lemma First(s: State, e: Event, rest: seq<Event>)
    ensures Continue(s, [e] + rest) == Continue(Step(s, e), rest)
  {
    hide Step;
    ContinueAppend(s, [e], rest);
    ContinueOne(s, [], e);
    assert [] + [e] == [e];
  }

  /** A plan without a fault can be followed to the release of the lock. */
  lemma {:induction false} DriveToEnd(
    sessions: map<nat, Session>, j: nat, conn: nat, k: Task, stage: Stage,
    h: seq<Block>, start: Tables, done: seq<Op>)
    returns (events: seq<Event>)
    requires conn in sessions && Progress(start, k, stage, done) && !Whole(start, k).fault
    ensures Continue(Solo(sessions, j, conn, k, stage, h, start, done), events)
         == Solo(sessions, j, conn, k, Releasing, h, start, Whole(start, k).ops)
    decreases Part(stage), LeftIn(k, stage)
  {
    hide Next, Run, Whole, Solo, Step;
    if stage.Releasing? {
      events := [];
    } else {
      var move := Next(Run(start, done), k, stage);
      ProgressKeeps(start, k, stage, done);
      GoesOn(start, k, stage, done);
      MovesOn(Run(start, done), k, stage);
      SoloAdvances(sessions, j, conn, k, stage, h, start, done);
      var rest := DriveToEnd(sessions, j, conn, k, move.stage, h, start, done + move.writes);
      events := [Advance(j)] + rest;
      First(Solo(sessions, j, conn, k, stage, h, start, done), Advance(j), rest);
    }
  }

  lemma GoesOn(start: Tables, k: Task, stage: Stage, done: seq<Op>)
    requires Progress(start, k, stage, done) && !Whole(start, k).fault
    requires Follows(start, k, Next(Run(start, done), k, stage), done)
    ensures Next(Run(start, done), k, stage).Go?
    ensures Progress(start, k, Next(Run(start, done), k, stage).stage, done + Next(Run(start, done), k, stage).writes)
  {
    hide Next, Run, Whole;
  }

  /** No job, and no session but that of `conn` can have the lock. */
  ghost predicate Idle(s: State, conn: nat) {
    s.jobs == map[] && Free(s, conn) && Available(s, conn)
  }

  lemma Begins(s: State, conn: nat, k: Task) returns (events: seq<Event>)
    requires Idle(s, conn)
    ensures Continue(s, events)
         == Solo(s.sessions[conn := Session(1, false, Sync(0))], 0, conn, k, Listing, s.history, s.tables, [])
  {
    var a := Step(s, Start(0, conn, k));
    assert a == s.(sessions := s.sessions[conn := Session(0, false, Sync(0))], jobs := map[0 := Job(conn, k, Waiting)]);
    var b := Step(a, Acquire(0));
    events := [Start(0, conn, k), Acquire(0)];
    assert events == [Start(0, conn, k)] + [Acquire(0)] && [Acquire(0)] == [Acquire(0)] + [];
    First(s, Start(0, conn, k), [Acquire(0)]);
    First(a, Acquire(0), []);
    assert a.sessions[conn := Session(1, false, Sync(0))] == s.sessions[conn := Session(1, false, Sync(0))];
    assert a.jobs[0 := Job(conn, k, Holding(Listing))] == map[0 := Job(conn, k, Holding(Listing))];
  }

  lemma Fails(sessions: map<nat, Session>, conn: nat, k: Task, stage: Stage, h: seq<Block>, start: Tables, done: seq<Op>)
    requires conn in sessions && forall c :: c in sessions && c != conn ==> sessions[c].locks == 0
    ensures var t := Step(Solo(sessions, 0, conn, k, stage, h, start, done), Fail(0));
            && t.tables == Run(start, done) && t.history == h + [Block(k, start, done, Stopped)] && Idle(t, conn)
  {
    hide Run;
    var s := Solo(sessions, 0, conn, k, stage, h, start, done);
    assert s.history[..|h|] == h;
    assert map[0 := Job(conn, k, Holding(stage))] - {0} == map[];
  }

  lemma Ends(sessions: map<nat, Session>, conn: nat, k: Task, h: seq<Block>, start: Tables, done: seq<Op>)
    requires conn in sessions && forall c :: c in sessions && c != conn ==> sessions[c].locks == 0
    ensures var t := Step(Solo(sessions, 0, conn, k, Releasing, h, start, done), Finish(0, true));
            && t.tables == Run(start, done) && t.history == h + [Block(k, start, done, Finished)] && Idle(t, conn)
  {
    hide Run;
    var s := Solo(sessions, 0, conn, k, Releasing, h, start, done);
    assert s.history[..|h|] == h;
    assert map[0 := Job(conn, k, Holding(Releasing))] - {0} == map[];
  }

  /** A run that breaks off after `n` statements of its plan. */
  lemma BreakOff(s: State, conn: nat, k: Task, n: nat) returns (events: seq<Event>)
    requires Idle(s, conn) && n <= |Whole(s.tables, k).ops|
    ensures var t := Continue(s, events);
            var done := Whole(s.tables, k).ops[..n];
            && t.tables == Run(s.tables, done) && t.history == s.history + [Block(k, s.tables, done, Stopped)] && Idle(t, conn)
  {
    hide Run, Whole, Solo, Step, Next;
    var sessions := s.sessions[conn := Session(1, false, Sync(0))];
    var begin := Begins(s, conn, k);
    var drive, reached := DriveTo(sessions, 0, conn, k, Listing, s.history, s.tables, [], n);
    Fails(sessions, conn, k, reached, s.history, s.tables, Whole(s.tables, k).ops[..n]);
    ContinueAppend(s, begin, drive);
    ContinueOne(s, begin + drive, Fail(0));
    events := begin + drive + [Fail(0)];
  }

  /** A run that goes through to its end. */
  lemma GoThrough(s: State, conn: nat, k: Task) returns (events: seq<Event>)
    requires Idle(s, conn) && !Whole(s.tables, k).fault
    ensures var t := Continue(s, events);
            var done := Whole(s.tables, k).ops;
            && t.tables == Run(s.tables, done) && t.history == s.history + [Block(k, s.tables, done, Finished)] && Idle(t, conn)
  {
    hide Run, Whole, Solo, Step, Next;
    var sessions := s.sessions[conn := Session(1, false, Sync(0))];
    var begin := Begins(s, conn, k);
    var drive := DriveToEnd(sessions, 0, conn, k, Listing, s.history, s.tables, []);
    Ends(sessions, conn, k, s.history, s.tables, Whole(s.tables, k).ops);
    ContinueAppend(s, begin, drive);
    ContinueOne(s, begin + drive, Finish(0, true));
    events := begin + drive + [Finish(0, true)];
  }
}

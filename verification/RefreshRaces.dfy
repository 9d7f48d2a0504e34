/**
 * The refresh grant for one session, request by request and statement by statement. Requests
 * read without locking and write by identifier, so that they can overlap.
 */
module RefreshRaces {
  import opened Wrappers
  import opened RefreshTokens

  /** A refresh token's row and that of the access token issued with it. */
  datatype Row = Row(
    consumedAt: Option<Time>, next: Option<Id>, revokedAt: Option<Time>,
    accessRevokedAt: Option<Time>, used: bool)

  const Issued := Row(None, None, None, None, false)

  /** The state that the columns spell, or nothing if they contradict each other. */
  function StateOf(r: Row): Option<RefreshState> {
    match (r.revokedAt, r.consumedAt, r.next)
    case (None, None, None) => Some(Valid)
    case (Some(at), None, None) => Some(Revoked(at))
    case (None, Some(at), next) => Some(Consumed(at, next))
    case _ => None
  }

  predicate Live(r: Row) {
    StateOf(r) == Some(Valid)
  }

  /** How far a request has come. `seen` counts the exchanges that had been committed when its target was read. */
  datatype Request =
    | Fresh(id: Id, seen: nat)
    | Replay(id: Id, next: Id)
    | NextLive(id: Id, next: Id, seen: nat)
    | Ready(id: Id, next: Id, seen: nat)

  /** A committed exchange: the token presented, the token it took the place of, and whether that was still live. */
  datatype Exchange = Exchange(id: Id, target: Id, seen: nat, late: bool)

  /** Rows in the order in which their issue was committed. */
  datatype State = State(rows: seq<Row>, requests: map<nat, Request>, log: seq<Exchange>)

  datatype Event =
    | ReadToken(q: nat, id: Id)
    | ReadNext(q: nat)
    | ReadAccess(q: nat)
    | Commit(q: nat, at: Time)
    | Abandon(q: nat)
    | MarkUsed(id: Id)

  const Start := State([Issued], map[], [])

  function Replaced(r: Row, at: Time, next: Id): Row {
    r.(consumedAt := Some(at), next := Some(next),
       accessRevokedAt := if r.accessRevokedAt.Some? then r.accessRevokedAt else Some(at))
  }

  function Withdrawn(r: Row, at: Time): Row {
    r.(revokedAt := Some(at), accessRevokedAt := Some(at))
  }

  /** The statements of an exchange, written without looking again. */
  function Written(rows: seq<Row>, id: Id, withdrawn: Option<Id>, at: Time): seq<Row>
    requires id < |rows| && (withdrawn.Some? ==> withdrawn.value < |rows|)
  {
    var cleared := if withdrawn.Some? then rows[withdrawn.value := Withdrawn(rows[withdrawn.value], at)] else rows;
    cleared[id := Replaced(cleared[id], at, |rows|)] + [Issued]
  }

  function Refuse(s: State, q: nat): State {
    s.(requests := s.requests - {q})
  }

  function Put(s: State, q: nat, r: Request): State {
    s.(requests := s.requests[q := r])
  }

  function ReadTokenStep(s: State, q: nat, id: Id): State {
    if q in s.requests || id >= |s.rows| then s
    else match StateOf(s.rows[id])
         case Some(Valid) => Put(s, q, Fresh(id, |s.log|))
         case Some(Consumed(_, Some(next))) => Put(s, q, Replay(id, next))
         case _ => s
  }

  function Step(s: State, e: Event): State {
    match e
    case ReadToken(q, id) => ReadTokenStep(s, q, id)
    case ReadNext(q) =>
      if q !in s.requests || !s.requests[q].Replay? then s
      else
        var r := s.requests[q];
        if r.next < |s.rows| && Live(s.rows[r.next]) then Put(s, q, NextLive(r.id, r.next, |s.log|)) else Refuse(s, q)
    case ReadAccess(q) =>
      if q !in s.requests || !s.requests[q].NextLive? || s.requests[q].next >= |s.rows| then s
      else
        var r := s.requests[q];
        if s.rows[r.next].used || s.rows[r.next].accessRevokedAt.Some? then Refuse(s, q)
        else Put(s, q, Ready(r.id, r.next, r.seen))
    case Commit(q, at) =>
      if q in s.requests && Committable(s, s.requests[q]) then CommitRequest(s, q, s.requests[q], at) else s
    case Abandon(q) => Refuse(s, q)
    case MarkUsed(id) =>
      if id < |s.rows| then s.(rows := s.rows[id := s.rows[id].(used := true)]) else s
  }

  predicate Committable(s: State, r: Request) {
    (r.Fresh? || r.Ready?) && r.id < |s.rows| && (r.Ready? ==> r.next < |s.rows|)
  }

  /** The token whose liveness the request relies on. */
  function Target(r: Request): Id
    requires !r.Replay?
  {
    if r.Fresh? then r.id else r.next
  }

  function CommitRequest(s: State, q: nat, r: Request, at: Time): State
    requires Committable(s, r)
  {
    var rows := Written(s.rows, r.id, if r.Ready? then Some(r.next) else None, at);
    State(rows, s.requests - {q}, s.log + [Exchange(r.id, Target(r), r.seen, !Live(s.rows[Target(r)]))])
  }

  function Continue(s: State, events: seq<Event>): State {
    if events == [] then s else Step(Continue(s, events[..|events| - 1]), events[|events| - 1])
  }

  function Run(events: seq<Event>): State {
    Continue(Start, events)
  }

  // What every schedule keeps

  /** A consumed token points to one issued later; access tokens are withdrawn with their refresh tokens. */
  ghost predicate RowOk(rows: seq<Row>, i: nat)
    requires i < |rows|
  {
    && (rows[i].next.Some? ==> i < rows[i].next.value < |rows|)
    && (rows[i].consumedAt.Some? <==> rows[i].next.Some?)
    && (rows[i].accessRevokedAt.None? <==> Live(rows[i]))
  }

  ghost predicate RequestOk(s: State, r: Request) {
    && r.id < |s.rows|
    && (!r.Fresh? ==> r.id < r.next < |s.rows| && !Live(s.rows[r.id]))
    && (!r.Replay? ==> r.seen <= |s.log| && (r.seen == |s.log| ==> Live(s.rows[Target(r)])))
  }

  ghost predicate Sound(s: State) {
    && |s.rows| > 0
    && (forall i :: 0 <= i < |s.rows| ==> RowOk(s.rows, i))
    && (forall q :: q in s.requests ==> RequestOk(s, s.requests[q]))
  }

  lemma WrittenRow(rows: seq<Row>, id: Id, withdrawn: Option<Id>, at: Time, i: nat)
    requires id < |rows| && (withdrawn.Some? ==> withdrawn.value < |rows|) && i <= |rows|
    ensures var after := Written(rows, id, withdrawn, at);
            && |after| == |rows| + 1
            && (i == |rows| ==> after[i] == Issued)
            && (i < |rows| && i != id && withdrawn != Some(i) ==> after[i] == rows[i])
            && (i == id && withdrawn != Some(i) ==> after[i] == Replaced(rows[i], at, |rows|))
            && (i != id && withdrawn == Some(i) ==> after[i] == Withdrawn(rows[i], at))
  {
  }

  lemma WrittenOk(rows: seq<Row>, id: Id, withdrawn: Option<Id>, at: Time, i: nat)
    requires id < |rows| && (withdrawn.Some? ==> id < withdrawn.value < |rows|) && i <= |rows|
    requires i < |rows| ==> RowOk(rows, i)
    ensures RowOk(Written(rows, id, withdrawn, at), i)
    ensures i < |rows| && (i == id || withdrawn == Some(i)) ==> !Live(Written(rows, id, withdrawn, at)[i])
    ensures i < |rows| && i != id && withdrawn != Some(i) ==> Written(rows, id, withdrawn, at)[i] == rows[i]
  {
    WrittenRow(rows, id, withdrawn, at, i);
  }

  lemma CommitKeepsSound(s: State, q: nat, r: Request, at: Time)
    requires Sound(s) && q in s.requests && s.requests[q] == r && Committable(s, r)
    ensures Sound(CommitRequest(s, q, r, at))
  {
    var t := CommitRequest(s, q, r, at);
    var withdrawn := if r.Ready? then Some(r.next) else None;
    assert RequestOk(s, r);
    forall i | 0 <= i < |t.rows| ensures RowOk(t.rows, i) {
      if i < |s.rows| { assert RowOk(s.rows, i); }
      WrittenOk(s.rows, r.id, withdrawn, at, i);
    }
    forall o | o in t.requests ensures RequestOk(t, t.requests[o]) {
      assert RequestOk(s, s.requests[o]);
    }
  }

  lemma PutKeepsSound(s: State, q: nat, r: Request)
    requires Sound(s) && RequestOk(s, r)
    ensures Sound(Put(s, q, r))
  {
    var t := Put(s, q, r);
    forall o | o in t.requests ensures RequestOk(t, t.requests[o]) {
      assert o != q ==> RequestOk(s, s.requests[o]);
    }
  }

  lemma RefuseKeepsSound(s: State, q: nat)
    requires Sound(s)
    ensures Sound(Refuse(s, q))
  {
    var t := Refuse(s, q);
    forall o | o in t.requests ensures RequestOk(t, t.requests[o]) {
      assert RequestOk(s, s.requests[o]);
    }
  }

  lemma MarkKeepsSound(s: State, id: Id)
    requires Sound(s) && id < |s.rows|
    ensures Sound(Step(s, MarkUsed(id)))
  {
    var t := Step(s, MarkUsed(id));
    forall i | 0 <= i < |t.rows| ensures RowOk(t.rows, i) { assert RowOk(s.rows, i); }
    forall o | o in t.requests ensures RequestOk(t, t.requests[o]) { assert RequestOk(s, s.requests[o]); }
  }

  lemma StepKeepsSound(s: State, e: Event)
    requires Sound(s)
    ensures Sound(Step(s, e))
  {
    match e
    case ReadToken(q, id) =>
      if q !in s.requests && id < |s.rows| {
        assert RowOk(s.rows, id);
        match StateOf(s.rows[id])
        case Some(Valid) => PutKeepsSound(s, q, Fresh(id, |s.log|));
        case Some(Consumed(_, Some(next))) => PutKeepsSound(s, q, Replay(id, next));
        case _ =>
      }
    case ReadNext(q) =>
      if q in s.requests && s.requests[q].Replay? {
        var r := s.requests[q];
        assert RequestOk(s, r);
        if Live(s.rows[r.next]) { PutKeepsSound(s, q, NextLive(r.id, r.next, |s.log|)); } else { RefuseKeepsSound(s, q); }
      }
    case ReadAccess(q) =>
      if q in s.requests && s.requests[q].NextLive? {
        var r := s.requests[q];
        assert RequestOk(s, r);
        if s.rows[r.next].used || s.rows[r.next].accessRevokedAt.Some? {
          RefuseKeepsSound(s, q);
        } else {
          PutKeepsSound(s, q, Ready(r.id, r.next, r.seen));
        }
      }
    case Commit(q, at) =>
      if q in s.requests && Committable(s, s.requests[q]) { CommitKeepsSound(s, q, s.requests[q], at); }
    case Abandon(q) => RefuseKeepsSound(s, q);
    case MarkUsed(id) => if id < |s.rows| { MarkKeepsSound(s, id); }
  }

  lemma {:induction false} AlwaysSound(s: State, events: seq<Event>)
    requires Sound(s)
    ensures Sound(Continue(s, events))
  {
    if events != [] {
      AlwaysSound(s, events[..|events| - 1]);
      StepKeepsSound(Continue(s, events[..|events| - 1]), events[|events| - 1]);
    }
  }

  // How many pairs are live

  function Lives(rows: seq<Row>): nat {
    if rows == [] then 0 else Lives(rows[..|rows| - 1]) + (if Live(rows[|rows| - 1]) then 1 else 0)
  }

  function LateOnes(log: seq<Exchange>): nat {
    if log == [] then 0 else LateOnes(log[..|log| - 1]) + (if log[|log| - 1].late then 1 else 0)
  }

  lemma {:induction false} LivesUpdate(rows: seq<Row>, i: nat, r: Row)
    requires i < |rows|
    ensures Lives(rows[i := r]) + (if Live(rows[i]) then 1 else 0) == Lives(rows) + (if Live(r) then 1 else 0)
  {
    var last := |rows| - 1;
    if i < last {
      LivesUpdate(rows[..last], i, r);
      assert rows[i := r][..last] == rows[..last][i := r];
    } else {
      assert rows[i := r][..last] == rows[..last];
    }
  }

  lemma LivesPush(rows: seq<Row>, r: Row)
    ensures Lives(rows + [r]) == Lives(rows) + (if Live(r) then 1 else 0)
  {
    assert (rows + [r])[..|rows|] == rows;
  }

  lemma WrittenLives(rows: seq<Row>, id: Id, withdrawn: Option<Id>, at: Time)
    requires id < |rows| && (withdrawn.Some? ==> id < withdrawn.value < |rows| && !Live(rows[id]))
    ensures Lives(Written(rows, id, withdrawn, at)) + (if Live(rows[withdrawn.GetOr(id)]) then 1 else 0) == Lives(rows) + 1
  {
    var cleared := rows;
    if withdrawn.Some? {
      cleared := rows[withdrawn.value := Withdrawn(rows[withdrawn.value], at)];
      LivesUpdate(rows, withdrawn.value, Withdrawn(rows[withdrawn.value], at));
    }
    LivesUpdate(cleared, id, Replaced(cleared[id], at, |rows|));
    LivesPush(cleared[id := Replaced(cleared[id], at, |rows|)], Issued);
  }

  lemma CommitKeepsCount(s: State, q: nat, r: Request, at: Time)
    requires Sound(s) && q in s.requests && s.requests[q] == r && Committable(s, r)
    requires Lives(s.rows) == 1 + LateOnes(s.log)
    ensures var t := CommitRequest(s, q, r, at); Lives(t.rows) == 1 + LateOnes(t.log)
  {
    hide Written;
    assert RequestOk(s, r);
    WrittenLives(s.rows, r.id, if r.Ready? then Some(r.next) else None, at);
    assert CommitRequest(s, q, r, at).log[..|s.log|] == s.log;
  }

  lemma StepKeepsCount(s: State, e: Event)
    requires Sound(s) && Lives(s.rows) == 1 + LateOnes(s.log)
    ensures Lives(Step(s, e).rows) == 1 + LateOnes(Step(s, e).log)
  {
    hide Lives, LateOnes, CommitRequest;
    match e
    case Commit(q, at) =>
      if q in s.requests && Committable(s, s.requests[q]) { CommitKeepsCount(s, q, s.requests[q], at); }
    case MarkUsed(id) =>
      if id < |s.rows| { LivesUpdate(s.rows, id, s.rows[id].(used := true)); }
    case _ =>
  }

  lemma StartIsSound()
    ensures Sound(Start) && Lives(Start.rows) == 1
  {
    assert [Issued][..0] == [];
  }

  /** In every schedule there is one live pair more than there were exchanges that came too late. */
  lemma {:induction false} LivePairsCounted(events: seq<Event>)
    ensures Lives(Run(events).rows) == 1 + LateOnes(Run(events).log)
  {
    StartIsSound();
    if events != [] {
      LivePairsCounted(events[..|events| - 1]);
      AlwaysSound(Start, events[..|events| - 1]);
      StepKeepsCount(Run(events[..|events| - 1]), events[|events| - 1]);
    }
  }

  // Exchanges that do not overlap

  /** No exchange was committed between another's reading of its target and its commit. */
  ghost predicate NoOverlap(log: seq<Exchange>) {
    forall i :: 0 <= i < |log| ==> log[i].seen == i
  }

  ghost predicate NoneLate(log: seq<Exchange>) {
    forall i :: 0 <= i < |log| ==> !log[i].late
  }

  lemma {:induction false} NoneLateCounted(log: seq<Exchange>)
    ensures LateOnes(log) == 0 <==> NoneLate(log)
  {
    if log != [] {
      NoneLateCounted(log[..|log| - 1]);
      assert forall i :: 0 <= i < |log| - 1 ==> log[..|log| - 1][i] == log[i];
    }
  }

  /** Only the newest pair is live, and what was read before the last commit is not. */
  ghost predicate Serial(s: State) {
    && NoOverlap(s.log)
    && (forall i :: 0 <= i < |s.rows| ==> (Live(s.rows[i]) <==> i == |s.rows| - 1))
    && (forall q :: q in s.requests ==> Outdated(s, s.requests[q]))
  }

  ghost predicate Outdated(s: State, r: Request) {
    !r.Replay? && r.seen < |s.log| ==> Target(r) < |s.rows| - 1
  }

  ghost predicate LogOk(s: State) {
    && (forall i :: 0 <= i < |s.log| && s.log[i].late ==> s.log[i].seen < i)
    && (NoneLate(s.log) ==> Serial(s))
  }

  lemma CommitKeepsLog(s: State, q: nat, r: Request, at: Time)
    requires Sound(s) && LogOk(s) && q in s.requests && s.requests[q] == r && Committable(s, r)
    ensures LogOk(CommitRequest(s, q, r, at))
  {
    var t := CommitRequest(s, q, r, at);
    var last := |s.log|;
    assert RequestOk(s, r);
    assert t.log[..last] == s.log && t.log[last].late == !Live(s.rows[Target(r)]);
    if NoneLate(t.log) {
      forall i | 0 <= i < last ensures !s.log[i].late { assert t.log[i] == s.log[i]; }
      assert !t.log[last].late && Outdated(s, r);
      var withdrawn := if r.Ready? then Some(r.next) else None;
      forall i | 0 <= i < |t.rows| ensures Live(t.rows[i]) <==> i == |t.rows| - 1 {
        if i < |s.rows| { assert RowOk(s.rows, i); }
        WrittenOk(s.rows, r.id, withdrawn, at, i);
        WrittenRow(s.rows, r.id, withdrawn, at, i);
      }
      forall o | o in t.requests ensures Outdated(t, t.requests[o]) {
        assert RequestOk(s, s.requests[o]);
      }
      forall i | 0 <= i < |t.log| ensures t.log[i].seen == i { assert i < last ==> t.log[i] == s.log[i]; }
    }
  }

  lemma OtherKeepsOutdated(s: State, e: Event, o: nat)
    requires Sound(s) && !e.Commit? && o in Step(s, e).requests && (o in s.requests ==> Outdated(s, s.requests[o]))
    ensures Outdated(Step(s, e), Step(s, e).requests[o])
  {
    if o in s.requests { assert RequestOk(s, s.requests[o]); }
    match e
    case ReadToken(q, id) =>
    case _ =>
  }

  lemma OtherKeepsLive(s: State, e: Event)
    requires !e.Commit?
    ensures Step(s, e).log == s.log && |Step(s, e).rows| == |s.rows|
    ensures forall i :: 0 <= i < |s.rows| ==> Live(Step(s, e).rows[i]) == Live(s.rows[i])
  {
    match e
    case ReadToken(q, id) =>
    case _ =>
  }

  lemma OtherKeepsLog(s: State, e: Event)
    requires Sound(s) && LogOk(s) && !e.Commit?
    ensures LogOk(Step(s, e))
  {
    hide Outdated, Step, Sound, Live;
    OtherKeepsLive(s, e);
    if NoneLate(s.log) {
      forall o | o in Step(s, e).requests ensures Outdated(Step(s, e), Step(s, e).requests[o]) {
        OtherKeepsOutdated(s, e, o);
      }
    }
  }

  lemma {:induction false} LogStaysOk(events: seq<Event>)
    ensures LogOk(Run(events))
  {
    StartIsSound();
    if events != [] {
      var before, e := events[..|events| - 1], events[|events| - 1];
      LogStaysOk(before);
      AlwaysSound(Start, before);
      var s := Run(before);
      if e.Commit? {
        if e.q in s.requests && Committable(s, s.requests[e.q]) { CommitKeepsLog(s, e.q, s.requests[e.q], e.at); }
      } else {
        OtherKeepsLog(s, e);
      }
    }
  }

  /** Exactly one pair is live if and only if no two exchanges overlapped; it is then the newest. */
  lemma ExactlyOneLive(events: seq<Event>)
    ensures Lives(Run(events).rows) == 1 <==> NoOverlap(Run(events).log)
    ensures NoOverlap(Run(events).log) ==> Serial(Run(events))
  {
    LivePairsCounted(events);
    LogStaysOk(events);
    NoneLateCounted(Run(events).log);
  }

  lemma SecondCommit(rows: seq<Row>, id: Id, at: Time)
    requires id < |rows| && Live(rows[id])
    ensures var once := Written(rows, id, None, at);
            var twice := Written(once, id, None, at);
            && |twice| == |rows| + 2 && Live(twice[|rows|]) && Live(twice[|rows| + 1])
            && Lives(twice) == Lives(rows) + 1
  {
    hide Written, Lives;
    var once := Written(rows, id, None, at);
    WrittenRow(rows, id, None, at, id);
    WrittenRow(rows, id, None, at, |rows|);
    WrittenRow(once, id, None, at, |rows|);
    WrittenRow(once, id, None, at, |rows| + 1);
    WrittenLives(rows, id, None, at);
    WrittenLives(once, id, None, at);
  }

  /** Two requests for the same live token that both read before either commits both get a live pair. */
  lemma RaceLeavesTwoLive(s: State, id: Id, p: nat, q: nat, at: Time)
    requires Sound(s) && id < |s.rows| && Live(s.rows[id]) && p !in s.requests && q !in s.requests && p != q
    ensures var t := Continue(s, [ReadToken(p, id), ReadToken(q, id), Commit(p, at), Commit(q, at)]);
            && |t.rows| == |s.rows| + 2 && Live(t.rows[|s.rows|]) && Live(t.rows[|s.rows| + 1])
            && Lives(t.rows) == Lives(s.rows) + 1 && !NoOverlap(t.log)
  {
    hide Lives, Written, Continue;
    var a := Put(s, p, Fresh(id, |s.log|));
    var b := Put(a, q, Fresh(id, |s.log|));
    var c := CommitRequest(b, p, Fresh(id, |s.log|), at);
    FourSteps(s, ReadToken(p, id), ReadToken(q, id), Commit(p, at), Commit(q, at));
    assert Step(s, ReadToken(p, id)) == a && Step(a, ReadToken(q, id)) == b;
    SecondCommit(s.rows, id, at);
    WrittenRow(s.rows, id, None, at, id);
    assert Step(b, Commit(p, at)) == c;
    var t := CommitRequest(c, q, Fresh(id, |s.log|), at);
    assert Step(c, Commit(q, at)) == t;
    assert t.log[|s.log| + 1].seen == |s.log|;
  }

  lemma FourSteps(s: State, a: Event, b: Event, c: Event, d: Event)
    ensures Continue(s, [a, b, c, d]) == Step(Step(Step(Step(s, a), b), c), d)
  {
    ContinueOne(s, [], a);
    ContinueOne(s, [a], b);
    ContinueOne(s, [a, b], c);
    ContinueOne(s, [a, b, c], d);
    assert [] + [a] == [a] && [a] + [b] == [a, b] && [a, b] + [c] == [a, b, c] && [a, b, c] + [d] == [a, b, c, d];
  }

  lemma ContinueOne(s: State, events: seq<Event>, e: Event)
    ensures Continue(s, events + [e]) == Step(Continue(s, events), e)
  {
    assert (events + [e])[..|events|] == events;
  }

  // Which tokens are exchanged

  /** The replacement never arrived: it is live and its access token was never used. */
  predicate Unclaimed(rows: seq<Row>, next: Id) {
    next < |rows| && Live(rows[next]) && !rows[next].used
  }

  predicate Acceptable(rows: seq<Row>, id: Id) {
    id < |rows| && (Live(rows[id]) || (StateOf(rows[id]).Some? && rows[id].next.Some? && Unclaimed(rows, rows[id].next.value)))
  }

  /** A request that nothing interrupts. */
  function Alone(s: State, q: nat, id: Id, at: Time): State {
    Continue(s, [ReadToken(q, id), ReadNext(q), ReadAccess(q), Commit(q, at)])
  }

  /**
   * An uninterrupted request is granted exactly for a live token or for one whose replacement
   * is unclaimed, and otherwise changes nothing.
   */
  lemma ExchangeAcceptsExactly(s: State, q: nat, id: Id, at: Time)
    requires Sound(s) && q !in s.requests
    ensures !Acceptable(s.rows, id) ==> Alone(s, q, id, at) == s
    ensures Acceptable(s.rows, id) ==>
              var withdrawn := if Live(s.rows[id]) then None else s.rows[id].next;
              && (withdrawn.Some? ==> withdrawn.value < |s.rows|)
              && Alone(s, q, id, at) == State(Written(s.rows, id, withdrawn, at), s.requests,
                                              s.log + [Exchange(id, withdrawn.GetOr(id), |s.log|, false)])
  {
    FourSteps(s, ReadToken(q, id), ReadNext(q), ReadAccess(q), Commit(q, at));
    if id < |s.rows| {
      var a := Step(s, ReadToken(q, id));
      assert RowOk(s.rows, id);
      if a == s {
        assert !Acceptable(s.rows, id);
      } else if Live(s.rows[id]) {
        assert a == Put(s, q, Fresh(id, |s.log|));
        assert a.requests - {q} == s.requests;
      } else {
        var next := s.rows[id].next.value;
        assert a == Put(s, q, Replay(id, next));
        assert a.requests - {q} == s.requests;
        assert RowOk(s.rows, next);
        ReplayAlone(s, q, id, next, at);
      }
    }
  }

  lemma ReplayAlone(s: State, q: nat, id: Id, next: Id, at: Time)
    requires Sound(s) && q !in s.requests && id < next < |s.rows| && !Live(s.rows[id])
    ensures var t := Step(Step(Step(Put(s, q, Replay(id, next)), ReadNext(q)), ReadAccess(q)), Commit(q, at));
            if Unclaimed(s.rows, next)
            then t == State(Written(s.rows, id, Some(next), at), s.requests, s.log + [Exchange(id, next, |s.log|, false)])
            else t == s
  {
    assert RowOk(s.rows, next);
    var a := Put(s, q, Replay(id, next));
    assert a.requests - {q} == s.requests;
    if Live(s.rows[next]) {
      var b := Step(a, ReadNext(q));
      assert b == Put(s, q, NextLive(id, next, |s.log|));
      if !s.rows[next].used {
        assert Step(b, ReadAccess(q)) == Put(s, q, Ready(id, next, |s.log|));
      }
    }
  }

  /** Without overlaps: the newest token, or the one it replaced while it is unclaimed. */
  lemma SerialAcceptsExactly(events: seq<Event>, id: Id)
    requires NoOverlap(Run(events).log)
    ensures var rows := Run(events).rows;
            var last := |rows| - 1;
            Acceptable(rows, id) <==>
              id == last || (id < last && StateOf(rows[id]).Some? && rows[id].next == Some(last) && !rows[last].used)
  {
    ExactlyOneLive(events);
  }

  // What is remembered, and what an exchange writes

  /** A token is live exactly if none of its three columns is set. */
  lemma LiveColumns(r: Row)
    ensures Live(r) <==> r.consumedAt.None? && r.next.None? && r.revokedAt.None?
  {
  }

  /** Every state a token can be in is spelt by exactly one choice of columns; other choices spell none. */
  lemma StateColumns(r: Row, at: Time, next: Option<Id>)
    ensures StateOf(r) == Some(Revoked(at)) <==> r.revokedAt == Some(at) && r.consumedAt.None? && r.next.None?
    ensures StateOf(r) == Some(Consumed(at, next)) <==> r.revokedAt.None? && r.consumedAt == Some(at) && r.next == next
    ensures StateOf(r).None? <==> (r.revokedAt.Some? && (r.consumedAt.Some? || r.next.Some?)) || (r.consumedAt.None? && r.next.Some?)
  {
  }

  /** The writes of an exchange do to the columns what the token's own transitions do to its state. */
  lemma RowsFollowStates(r: Row, at: Time, next: Id)
    requires StateOf(r).Some?
    ensures Consume(StateOf(r).value, at, next).Some? ==> StateOf(Replaced(r, at, next)) == Consume(StateOf(r).value, at, next)
    ensures Revoke(StateOf(r).value, at).Some? ==> StateOf(Withdrawn(r, at)) == Revoke(StateOf(r).value, at)
  {
  }

  /** Which tokens are exchanged, column by column. */
  lemma AcceptableColumns(rows: seq<Row>, id: Id)
    requires id < |rows|
    ensures Acceptable(rows, id) <==>
              && rows[id].revokedAt.None?
              && (|| (rows[id].consumedAt.None? && rows[id].next.None?)
                  || (&& rows[id].consumedAt.Some? && rows[id].next.Some? && rows[id].next.value < |rows|
                      && var r := rows[rows[id].next.value];
                         r.consumedAt.None? && r.next.None? && r.revokedAt.None? && !r.used))
  {
  }

  lemma StepKeepsUse(s: State, e: Event, i: Id)
    requires i < |s.rows|
    ensures i < |Step(s, e).rows|
    ensures Step(s, e).rows[i].used <==> s.rows[i].used || e == MarkUsed(i)
  {
    match e
    case Commit(q, at) =>
      if q in s.requests && Committable(s, s.requests[q]) { WrittenUse(s, s.requests[q], at, i); }
    case _ =>
  }

  lemma WrittenUse(s: State, r: Request, at: Time, i: Id)
    requires Committable(s, r) && i < |s.rows|
    ensures var rows := Written(s.rows, r.id, if r.Ready? then Some(r.next) else None, at);
            i < |rows| && rows[i].used == s.rows[i].used && !rows[|s.rows|].used
  {
  }

  lemma NewRowIsUnused(s: State, e: Event, i: Id)
    requires |s.rows| <= i < |Step(s, e).rows|
    ensures !Step(s, e).rows[i].used
  {
    match e
    case Commit(q, at) => WrittenUse(s, s.requests[q], at, 0);
    case _ =>
  }

  /** The access token was used, at a moment when it had been issued. */
  ghost predicate UsedIn(events: seq<Event>, i: Id) {
    exists k :: 0 <= k < |events| && events[k] == MarkUsed(i) && i < |Run(events[..k]).rows|
  }

  /** In every schedule the store knows of exactly the uses that there were. */
  lemma {:induction false} UsesAreRemembered(events: seq<Event>, i: Id)
    requires i < |Run(events).rows|
    ensures Run(events).rows[i].used <==> UsedIn(events, i)
  {
    hide Step, Written;
    if events != [] {
      var last := |events| - 1;
      var front, e := events[..last], events[last];
      assert Run(events) == Step(Run(front), e);
      assert forall k :: 0 <= k <= last ==> front[..k] == events[..k];
      if i < |Run(front).rows| {
        UsesAreRemembered(front, i);
        StepKeepsUse(Run(front), e, i);
        UsedPush(events, i);
      } else {
        NewRowIsUnused(Run(front), e, i);
        NoUseBefore(events, i);
      }
    }
  }

  lemma UsedPush(events: seq<Event>, i: Id)
    requires |events| > 0 && i < |Run(events[..|events| - 1]).rows|
    ensures UsedIn(events, i) <==> UsedIn(events[..|events| - 1], i) || events[|events| - 1] == MarkUsed(i)
  {
    hide Run;
    var last := |events| - 1;
    var front := events[..last];
    assert forall k :: 0 <= k <= last ==> front[..k] == events[..k];
    if UsedIn(front, i) {
      var k :| 0 <= k < |front| && front[k] == MarkUsed(i) && i < |Run(front[..k]).rows|;
      assert events[k] == MarkUsed(i) && i < |Run(events[..k]).rows|;
    }
    if UsedIn(events, i) {
      var k :| 0 <= k < |events| && events[k] == MarkUsed(i) && i < |Run(events[..k]).rows|;
      if k < last { assert front[k] == MarkUsed(i) && i < |Run(front[..k]).rows|; }
    }
  }

  lemma {:induction false} RowsOnlyGrow(events: seq<Event>, k: nat)
    requires k <= |events|
    ensures |Run(events[..k]).rows| <= |Run(events).rows|
  {
    if k == |events| {
      assert events[..k] == events;
    } else {
      var front := events[..|events| - 1];
      assert front[..k] == events[..k];
      RowsOnlyGrow(front, k);
      StepKeepsRows(Run(front), events[|events| - 1]);
    }
  }

  lemma StepKeepsRows(s: State, e: Event)
    ensures |s.rows| <= |Step(s, e).rows|
  {
  }

  lemma NoUseBefore(events: seq<Event>, i: Id)
    requires |events| > 0 && i >= |Run(events[..|events| - 1]).rows|
    ensures !UsedIn(events, i)
  {
    hide Run;
    var front := events[..|events| - 1];
    forall k | 0 <= k < |events| ensures |Run(events[..k]).rows| <= |Run(front).rows| {
      assert front[..k] == events[..k];
      RowsOnlyGrow(front, k);
    }
  }

  /** Once a replacement has been used, a request for the token it replaced changes nothing. */
  lemma ReplayAfterUseIsRefused(events: seq<Event>, q: nat, id: Id, at: Time)
    requires var s := Run(events);
             q !in s.requests && id < |s.rows| && s.rows[id].next.Some? && UsedIn(events, s.rows[id].next.value)
    ensures Alone(Run(events), q, id, at) == Run(events)
  {
    hide Run, Alone;
    AlwaysSoundHere(events);
    var s := Run(events);
    assert RowOk(s.rows, id);
    UsesAreRemembered(events, s.rows[id].next.value);
    LiveColumns(s.rows[id]);
    ExchangeAcceptsExactly(s, q, id, at);
  }

  lemma AlwaysSoundHere(events: seq<Event>)
    ensures Sound(Run(events))
  {
    StartIsSound();
    AlwaysSound(Start, events);
  }

  /**
   * What a granted request leaves of every row: the token presented is consumed and points to the
   * new pair; a replacement that never arrived is revoked; both lose their access tokens, if they
   * had them still; the new pair is live and unused; nothing else changes.
   */
  lemma ExchangeWrites(s: State, q: nat, id: Id, at: Time)
    requires Sound(s) && q !in s.requests && Acceptable(s.rows, id)
    ensures var t := Alone(s, q, id, at);
            && |t.rows| == |s.rows| + 1 && t.rows[|s.rows|] == Row(None, None, None, None, false)
            && t.rows[id].consumedAt == Some(at) && t.rows[id].next == Some(|s.rows|)
            && t.rows[id].revokedAt == s.rows[id].revokedAt && t.rows[id].used == s.rows[id].used
            && t.rows[id].accessRevokedAt == (if s.rows[id].accessRevokedAt.Some? then s.rows[id].accessRevokedAt else Some(at))
    ensures var t := Alone(s, q, id, at);
            forall i :: 0 <= i < |s.rows| && i != id ==>
              i < |t.rows| && t.rows[i] == if s.rows[id].next == Some(i)
                                           then s.rows[i].(revokedAt := Some(at), accessRevokedAt := Some(at)) else s.rows[i]
  {
    hide Alone;
    ExchangeAcceptsExactly(s, q, id, at);
    LiveColumns(s.rows[id]);
    assert RowOk(s.rows, id);
  }

  /** A request that is abandoned leaves nothing behind. */
  lemma AbandonedLeavesNothing(s: State, q: nat, id: Id)
    requires q !in s.requests
    ensures Continue(s, [ReadToken(q, id), Abandon(q)]) == s
  {
    var e, f := ReadToken(q, id), Abandon(q);
    assert [e, f][..1] == [e] && [e][..0] == [];
    assert Continue(s, [e]) == Step(Continue(s, []), e) == Step(s, e);
    assert Continue(s, [e, f]) == Step(Step(s, e), f);
    assert Step(s, e).requests - {q} == s.requests;
  }

  // Which tokens are refused for ever

  /** The request can still be carried to its commit. */
  predicate Hopeful(s: State, r: Request) {
    match r
    case Fresh(_, _) => true
    case Ready(_, _, _) => true
    case NextLive(_, next, _) => next < |s.rows| && !s.rows[next].used && s.rows[next].accessRevokedAt.None?
    case Replay(_, next) => Unclaimed(s.rows, next)
  }

  /** No new request for the token would be granted, and no old one still can be. */
  ghost predicate Hopeless(s: State, id: Id) {
    && id < |s.rows| && !Acceptable(s.rows, id)
    && forall q :: q in s.requests && s.requests[q].id == id ==> !Hopeful(s, s.requests[q])
  }

  /** Dead rows stay dead, used ones used, and a row changes hands only by its own exchange. */
  lemma CommitKeepsRow(s: State, q: nat, r: Request, at: Time, i: nat)
    requires Sound(s) && q in s.requests && s.requests[q] == r && Committable(s, r) && i < |s.rows|
    ensures var t := CommitRequest(s, q, r, at);
            && (!Live(s.rows[i]) ==> !Live(t.rows[i]))
            && (s.rows[i].used == t.rows[i].used)
            && (s.rows[i].accessRevokedAt.Some? ==> t.rows[i].accessRevokedAt.Some?)
            && (i != r.id ==> t.rows[i].next == s.rows[i].next && (StateOf(s.rows[i]).None? ==> StateOf(t.rows[i]).None?))
  {
    assert RequestOk(s, r) && RowOk(s.rows, i);
    WrittenRow(s.rows, r.id, if r.Ready? then Some(r.next) else None, at, i);
  }

  lemma CommitKeepsHopeless(s: State, q: nat, r: Request, at: Time, id: Id)
    requires Sound(s) && Hopeless(s, id) && q in s.requests && s.requests[q] == r && Committable(s, r)
    ensures r.id != id && Hopeless(CommitRequest(s, q, r, at), id)
  {
    assert r.id != id by { assert Hopeful(s, r); }
    var t := CommitRequest(s, q, r, at);
    assert RowOk(s.rows, id);
    CommitKeepsRow(s, q, r, at, id);
    if s.rows[id].next.Some? { CommitKeepsRow(s, q, r, at, s.rows[id].next.value); }
    forall o | o in t.requests && t.requests[o].id == id ensures !Hopeful(t, t.requests[o]) {
      assert RequestOk(s, s.requests[o]) && !Hopeful(s, s.requests[o]);
      CommitKeepsRow(s, q, r, at, s.requests[o].next);
    }
  }

  lemma OtherKeepsHopeless(s: State, e: Event, id: Id)
    requires Sound(s) && Hopeless(s, id) && !e.Commit?
    ensures Hopeless(Step(s, e), id)
  {
    var t := Step(s, e);
    assert RowOk(s.rows, id);
    forall o | o in t.requests && t.requests[o].id == id ensures !Hopeful(t, t.requests[o]) {
      if o in s.requests { assert RequestOk(s, s.requests[o]) && !(s.requests[o].id == id && Hopeful(s, s.requests[o])); }
    }
  }

  /** Once nothing can grant a token any more, no schedule does. */
  lemma {:induction false} RefusedForEver(s: State, events: seq<Event>, id: Id)
    requires Sound(s) && Hopeless(s, id)
    ensures Sound(Continue(s, events)) && Hopeless(Continue(s, events), id)
    ensures s.log <= Continue(s, events).log
    ensures forall i :: |s.log| <= i < |Continue(s, events).log| ==> Continue(s, events).log[i].id != id
  {
    hide Hopeless, Sound;
    if events != [] {
      var before, e := events[..|events| - 1], events[|events| - 1];
      RefusedForEver(s, before, id);
      var t := Continue(s, before);
      StepKeepsSound(t, e);
      if e.Commit? {
        if e.q in t.requests && Committable(t, t.requests[e.q]) { CommitKeepsHopeless(t, e.q, t.requests[e.q], e.at, id); }
      } else {
        OtherKeepsHopeless(t, e, id);
      }
    }
  }

  ghost predicate Grants(s: State, events: seq<Event>, id: Id) {
    var t := Continue(s, events);
    |t.log| > |s.log| && t.log[|t.log| - 1].id == id
  }

  lemma HopefulIsGranted(s: State, q: nat, at: Time) returns (events: seq<Event>)
    requires Sound(s) && q in s.requests && Hopeful(s, s.requests[q])
    ensures Grants(s, events, s.requests[q].id)
  {
    var r := s.requests[q];
    assert RequestOk(s, r);
    events := [ReadNext(q), ReadAccess(q), Abandon(q + 1), Commit(q, at)];
    FourSteps(s, ReadNext(q), ReadAccess(q), Abandon(q + 1), Commit(q, at));
    if r.Replay? {
      assert RowOk(s.rows, r.next);
      var a := Step(s, ReadNext(q));
      assert a == Put(s, q, NextLive(r.id, r.next, |s.log|));
      var b := Step(a, ReadAccess(q));
      assert b == Put(a, q, Ready(r.id, r.next, |s.log|));
    } else {
      assert Step(s, ReadNext(q)) == s;
    }
  }

  lemma UnusedName(s: State) returns (q: nat)
    ensures q !in s.requests
  {
    q := Above(s.requests.Keys);
  }

  lemma {:induction false} Above(names: set<nat>) returns (q: nat)
    ensures q !in names && forall n :: n in names ==> n < q
  {
    q := 0;
    if names != {} {
      var n :| n in names;
      q := Above(names - {n});
      if q <= n { q := n + 1; }
      assert forall m :: m in names ==> m == n || m in names - {n};
    }
  }

  lemma NotHopelessIsGranted(s: State, id: Id, at: Time) returns (events: seq<Event>)
    requires Sound(s) && id < |s.rows| && !Hopeless(s, id)
    ensures Grants(s, events, id)
  {
    if Acceptable(s.rows, id) {
      var q := UnusedName(s);
      events := [ReadToken(q, id), ReadNext(q), ReadAccess(q), Commit(q, at)];
      ExchangeAcceptsExactly(s, q, id, at);
    } else {
      var q :| q in s.requests && s.requests[q].id == id && Hopeful(s, s.requests[q]);
      events := HopefulIsGranted(s, q, at);
    }
  }

  /** A token is refused in every continuation if and only if it is hopeless. */
  lemma RefusedForEverExactly(s: State, id: Id)
    requires Sound(s) && id < |s.rows|
    ensures (forall events :: !Grants(s, events, id)) <==> Hopeless(s, id)
  {
    if Hopeless(s, id) {
      forall events ensures !Grants(s, events, id) {
        RefusedForEver(s, events, id);
      }
    } else {
      var events := NotHopelessIsGranted(s, id, 0);
      assert Grants(s, events, id);
    }
  }

  // Following the replacements

  /** The replacement on record, whatever else the row says. */
  function Follow(rows: seq<Row>, id: Id, steps: nat): Id
    decreases steps
  {
    if steps == 0 || id >= |rows| || rows[id].next.None? then id else Follow(rows, rows[id].next.value, steps - 1)
  }

  ghost predicate Forward(rows: seq<Row>) {
    forall i :: 0 <= i < |rows| && rows[i].next.Some? ==> i < rows[i].next.value < |rows|
  }

  /** In any store whose tokens point to later ones, following never returns and ends within the store. */
  lemma {:induction false} FollowingEnds(rows: seq<Row>, id: Id, steps: nat)
    requires Forward(rows) && id < |rows|
    ensures id <= Follow(rows, id, steps) < |rows|
    ensures steps > 0 && rows[id].next.Some? ==> id < Follow(rows, id, steps)
    ensures steps >= |rows| - id ==> rows[Follow(rows, id, steps)].next.None?
    decreases steps
  {
    if steps > 0 && rows[id].next.Some? { FollowingEnds(rows, rows[id].next.value, steps - 1); }
  }

  lemma EveryScheduleIsForward(events: seq<Event>)
    ensures Forward(Run(events).rows)
  {
    StartIsSound();
    AlwaysSound(Start, events);
    var rows := Run(events).rows;
    forall i | 0 <= i < |rows| && rows[i].next.Some? ensures i < rows[i].next.value < |rows| {
      assert RowOk(rows, i);
    }
  }

  ghost predicate ChainedRows(rows: seq<Row>) {
    && Forward(rows)
    && (forall i :: 0 <= i < |rows| && rows[i].next.Some? ==> rows[rows[i].next.value].revokedAt.None?)
    && (forall i, j :: 0 <= i < j < |rows| && rows[i].next.Some? ==> rows[i].next != rows[j].next)
  }

  /** Without overlaps a token points to one that was not withdrawn, and no two to the same. */
  ghost predicate Chained(s: State) {
    ChainedRows(s.rows) && forall q :: q in s.requests ==> PointsAt(s, s.requests[q])
  }

  /** A request that speaks of the newest token got it from the row it presented. */
  ghost predicate PointsAt(s: State, r: Request) {
    !r.Fresh? && r.next == |s.rows| - 1 && r.id < |s.rows| ==> s.rows[r.id].next == Some(r.next)
  }

  lemma WrittenIsChained(rows: seq<Row>, after: seq<Row>, id: Id, withdrawn: Option<Id>)
    requires ChainedRows(rows) && id < |rows| && |after| == |rows| + 1
    requires withdrawn.Some? ==> rows[id].next == withdrawn
    requires forall i :: 0 <= i < |rows| ==> after[i].next == if i == id then Some(|rows|) else rows[i].next
    requires forall i :: 0 <= i < |rows| ==> (rows[i].revokedAt.None? && withdrawn != Some(i) ==> after[i].revokedAt.None?)
    requires after[|rows|] == Issued
    ensures ChainedRows(after)
  {
    forall i | 0 <= i < |rows| && i != id && rows[i].next.Some? ensures rows[i].next != rows[id].next {
      if id < i && rows[id].next.Some? { assert rows[id].next != rows[i].next; }
    }
  }

  lemma CommitKeepsChained(s: State, q: nat, r: Request, at: Time)
    requires Sound(s) && Serial(s) && Chained(s) && q in s.requests && s.requests[q] == r && Committable(s, r)
    requires Live(s.rows[Target(r)])
    ensures Chained(CommitRequest(s, q, r, at))
  {
    hide ChainedRows;
    var t := CommitRequest(s, q, r, at);
    var withdrawn := if r.Ready? then Some(r.next) else None;
    assert RequestOk(s, r) && PointsAt(s, r);
    forall i | 0 <= i < |s.rows|
      ensures t.rows[i].next == if i == r.id then Some(|s.rows|) else s.rows[i].next
      ensures s.rows[i].revokedAt.None? && withdrawn != Some(i) ==> t.rows[i].revokedAt.None?
    {
      WrittenRow(s.rows, r.id, withdrawn, at, i);
    }
    WrittenRow(s.rows, r.id, withdrawn, at, |s.rows|);
    WrittenIsChained(s.rows, t.rows, r.id, withdrawn);
    forall o | o in t.requests ensures PointsAt(t, t.requests[o]) { assert RequestOk(s, s.requests[o]); }
  }

  /** What is not a commit only marks rows as used. */
  lemma OthersOnlyMark(s: State, e: Event)
    requires !e.Commit?
    ensures Step(s, e).log == s.log && |Step(s, e).rows| == |s.rows|
    ensures forall i :: 0 <= i < |s.rows| ==>
              Step(s, e).rows[i].next == s.rows[i].next && Step(s, e).rows[i].revokedAt == s.rows[i].revokedAt
  {
    match e
    case ReadToken(q, id) =>
    case _ =>
  }

  lemma MarkedIsChained(rows: seq<Row>, after: seq<Row>)
    requires ChainedRows(rows) && |after| == |rows|
    requires forall i :: 0 <= i < |rows| ==> after[i].next == rows[i].next && after[i].revokedAt == rows[i].revokedAt
    ensures ChainedRows(after)
  {
  }

  lemma ReadPointsAt(s: State, e: Event, o: nat)
    requires Sound(s) && !e.Commit? && o in Step(s, e).requests && (o in s.requests ==> PointsAt(s, s.requests[o]))
    ensures PointsAt(Step(s, e), Step(s, e).requests[o])
  {
    if o in s.requests { assert RequestOk(s, s.requests[o]); }
    match e
    case ReadToken(q, id) =>
    case _ =>
  }

  lemma OtherKeepsChained(s: State, e: Event)
    requires Sound(s) && Chained(s) && !e.Commit?
    ensures Chained(Step(s, e))
  {
    hide ChainedRows, PointsAt, Step, Sound;
    OthersOnlyMark(s, e);
    MarkedIsChained(s.rows, Step(s, e).rows);
    forall o | o in Step(s, e).requests ensures PointsAt(Step(s, e), Step(s, e).requests[o]) {
      ReadPointsAt(s, e, o);
    }
  }

  lemma {:induction false} StaysChained(events: seq<Event>)
    ensures NoneLate(Run(events).log) ==> Chained(Run(events))
  {
    if events != [] {
      var before, e := events[..|events| - 1], events[|events| - 1];
      var s := Run(before);
      StaysChained(before);
      StartIsSound();
      AlwaysSound(Start, before);
      LogStaysOk(before);
      if e.Commit? {
        if e.q in s.requests && Committable(s, s.requests[e.q]) && NoneLate(Run(events).log) {
          var log := Run(events).log;
          assert log[..|s.log|] == s.log && !log[|s.log|].late;
          assert forall i :: 0 <= i < |s.log| ==> log[i] == s.log[i];
          CommitKeepsChained(s, e.q, s.requests[e.q], e.at);
        }
      } else if NoneLate(s.log) {
        OtherKeepsChained(s, e);
      }
    }
  }

  lemma {:induction false} FollowChained(s: State, id: Id, steps: nat)
    requires Sound(s) && Serial(s) && Chained(s) && id < |s.rows| && s.rows[id].revokedAt.None? && steps >= |s.rows| - id
    ensures Follow(s.rows, id, steps) == |s.rows| - 1
    decreases steps
  {
    assert RowOk(s.rows, id);
    if s.rows[id].next.Some? { FollowChained(s, s.rows[id].next.value, steps - 1); }
  }

  /** Without overlaps the replacements of a token that was not withdrawn lead to the live one. */
  lemma ReplacementsLeadToLive(events: seq<Event>, id: Id)
    requires NoOverlap(Run(events).log) && id < |Run(events).rows| && Run(events).rows[id].revokedAt.None?
    ensures var rows := Run(events).rows;
            Follow(rows, id, |rows| - id) == |rows| - 1 && Live(rows[|rows| - 1])
  {
    StartIsSound();
    AlwaysSound(Start, events);
    LivePairsCounted(events);
    NoneLateCounted(Run(events).log);
    ExactlyOneLive(events);
    StaysChained(events);
    FollowChained(Run(events), id, |Run(events).rows| - id);
  }
}

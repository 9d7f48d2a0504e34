/**
 * The protocol that mirrors a user's admin flag onto the homeserver: queued provisioning jobs,
 * admin changes that hold the same per-user lock until they commit, and writers that take no
 * lock. A schedule is any sequence of events; an event that cannot happen yet changes nothing.
 */
module Provisioning {
  import opened Wrappers

  /** 128-bit user ids. */
  type User = nat
  type Pid = nat

  const MAX_ATTEMPTS := 10

  /** Advisory locks are keyed by the low 64 bits of the user id. */
  function LockKey(user: User): nat {
    user % 0x1_0000_0000_0000_0000
  }

  /**
   * One committed write of a user's admin flag; the first one creates the user. A write that is
   * not about the flag carries along the one read when so many commits had been made.
   */
  datatype Commit = Commit(user: User, admin: bool, underLock: bool, carried: Option<nat>, queued: bool)

  datatype Origin = Job | Revocation | Grant

  /** A call to the homeserver. `asOf` and `at` count the commits made before reading and before pushing. */
  datatype Push = Push(user: User, origin: Origin, admin: bool, asOf: nat, at: nat)

  datatype QueuedJob = QueuedJob(user: User, attempt: nat)

  /** A job that failed too often, when so many commits had been made. */
  datatype Dropped = Dropped(user: User, at: nat)

  /** `Edit` writes other columns of the user, and the flag along with them. */
  datatype Kind = Provision(attempt: nat) | Patch(admin: Option<bool>) | Edit

  datatype Process =
    | Fresh(kind: Kind, user: User)
    | LookedUp(kind: Kind, user: User)
    | Locked(kind: Kind, user: User)
    | Reread(kind: Kind, user: User, seen: nat, admin: bool)
    | Editing(user: User, seen: nat, admin: bool)
    | Written(user: User, seen: nat)
    | ReadyToCommit(user: User, change: Commit, grant: bool)
    | Pushed(attempt: nat, user: User)
    | GrantDue(user: User, asOf: nat)
    | Ended
  {
    predicate HoldsLock() { Locked? || Reread? || Written? || ReadyToCommit? || Pushed? }
    /** The transaction has updated the user's row and not ended. */
    predicate HoldsRow() { Written? || ReadyToCommit? }
  }

  datatype State = State(
    commits: seq<Commit>,
    pushes: seq<Push>,
    locks: map<nat, Pid>,
    processes: map<Pid, Process>,
    queue: multiset<QueuedJob>,
    dropped: seq<Dropped>)

  datatype Event =
    | Spawn(pid: Pid, kind: Kind, user: User)
    | Take(pid: Pid, job: QueuedJob)
    | FirstLookup(pid: Pid)
    | Acquire(pid: Pid)
    | LookupAgain(pid: Pid)
    | WriteFlag(pid: Pid)
    | CallHomeserver(pid: Pid)
    | Finish(pid: Pid)
    | Abort(pid: Pid)
    | LateGrant(pid: Pid)
    | WriteWithoutLock(user: User, admin: bool, queued: bool)
    | Enqueue(user: User)

  /** The flag of the last commit for the user; no commit, no user. */
  function Flag(commits: seq<Commit>, user: User): Option<bool> {
    if commits == [] then None else
    var last := commits[|commits| - 1];
    if last.user == user then Some(last.admin) else Flag(commits[..|commits| - 1], user)
  }

  function Initial(): State {
    State([], [], map[], map[], multiset{}, [])
  }

  function With(s: State, pid: Pid, p: Process): State {
    s.(processes := s.processes[pid := p])
  }

  function Release(s: State, pid: Pid, user: User, next: Process): State {
    s.(locks := s.locks - {LockKey(user)}, processes := s.processes[pid := next])
  }

  /** A commit, with the job that is part of the same transaction. */
  function Committed(s: State, c: Commit): State {
    s.(commits := s.commits + [c],
       queue := if c.queued then s.queue + multiset{QueuedJob(c.user, 0)} else s.queue)
  }

  /** A failed job is put back until it has failed too often. */
  function Failed(s: State, user: User, attempt: nat): State {
    if attempt < MAX_ATTEMPTS then s.(queue := s.queue + multiset{QueuedJob(user, attempt + 1)})
    else s.(dropped := s.dropped + [Dropped(user, |s.commits|)])
  }

  /** No transaction keeps the user's row from being updated. */
  predicate RowFree(s: State, user: User) {
    forall pid :: pid in s.processes && s.processes[pid].HoldsRow() ==> s.processes[pid].user != user
  }

  function Step(s: State, e: Event): State {
    match e
    case Spawn(pid, kind, user) =>
      if pid in s.processes || kind.Provision? then s else With(s, pid, Fresh(kind, user))
    case Take(pid, job) =>
      if pid in s.processes || job !in s.queue then s
      else With(s.(queue := s.queue - multiset{job}), pid, Fresh(Provision(job.attempt), job.user))
    case WriteWithoutLock(user, admin, queued) =>
      if RowFree(s, user) then Committed(s, Commit(user, admin, false, None, queued)) else s
    case Enqueue(user) => s.(queue := s.queue + multiset{QueuedJob(user, 0)})
    case _ =>
      if e.pid !in s.processes then s else StepProcess(s, e, e.pid, s.processes[e.pid])
  }

  predicate OfProcess(e: Event) {
    !e.Spawn? && !e.Take? && !e.WriteWithoutLock? && !e.Enqueue?
  }

  /** What a patch does to the flag it has read under the lock. */
  function Patched(user: User, admin: Option<bool>, seen: nat, from: bool): Process {
    match admin
    case None => ReadyToCommit(user, Commit(user, from, true, Some(seen), false), false)
    case Some(to) =>
      if from && !to then Written(user, seen)
      else ReadyToCommit(user, Commit(user, to, true, None, from != to), to)
  }

  function StepProcess(s: State, e: Event, pid: Pid, p: Process): State
    requires OfProcess(e)
  {
    match (e, p)
    case (FirstLookup(_), Fresh(kind, user)) =>
      (match Flag(s.commits, user)
       case None => With(s, pid, Ended)
       case Some(admin) =>
         With(s, pid, if kind.Edit? then Editing(user, |s.commits|, admin) else LookedUp(kind, user)))
    case (Acquire(_), LookedUp(kind, user)) =>
      if LockKey(user) in s.locks then s
      else With(s.(locks := s.locks[LockKey(user) := pid]), pid, Locked(kind, user))
    case (LookupAgain(_), Locked(kind, user)) =>
      (match Flag(s.commits, user)
       case Some(admin) => With(s, pid, Reread(kind, user, |s.commits|, admin))
       case None => Release(s, pid, user, Ended))
    case (WriteFlag(_), Reread(Patch(admin), user, seen, from)) =>
      With(s, pid, Patched(user, admin, seen, from))
    case (CallHomeserver(_), Reread(Provision(attempt), user, seen, admin)) =>
      With(s.(pushes := s.pushes + [Push(user, Job, admin, seen, |s.commits|)]), pid, Pushed(attempt, user))
    case (CallHomeserver(_), Written(user, seen)) =>
      With(s.(pushes := s.pushes + [Push(user, Revocation, false, seen, |s.commits|)]),
           pid, ReadyToCommit(user, Commit(user, false, true, None, true), false))
    case (Finish(_), Pushed(_, user)) =>
      Release(s, pid, user, Ended)
    case (Finish(_), ReadyToCommit(user, c, grant)) =>
      Release(Committed(s, c), pid, user, if grant then GrantDue(user, |s.commits| + 1) else Ended)
    case (Finish(_), Editing(user, seen, admin)) =>
      if RowFree(s, user) then With(Committed(s, Commit(user, admin, false, Some(seen), false)), pid, Ended) else s
    case (Abort(_), _) => if p.Ended? then s else Aborted(s, pid, p)
    case (LateGrant(_), GrantDue(user, asOf)) =>
      With(s.(pushes := s.pushes + [Push(user, Grant, true, asOf, |s.commits|)]), pid, Ended)
    case _ => s
  }

  /** The process is a job that has not finished. */
  predicate IsJob(p: Process) {
    p.Pushed? || ((p.Fresh? || p.LookedUp? || p.Locked? || p.Reread?) && p.kind.Provision?)
  }

  function Aborted(s: State, pid: Pid, p: Process): State
    requires !p.Ended?
  {
    var t := if IsJob(p) then Failed(s, p.user, if p.Pushed? then p.attempt else p.kind.attempt) else s;
    if p.HoldsLock() then Release(t, pid, p.user, Ended) else With(t, pid, Ended)
  }

  function Run(schedule: seq<Event>): State {
    if schedule == [] then Initial()
    else Step(Run(schedule[..|schedule| - 1]), schedule[|schedule| - 1])
  }

  // What every step keeps

  ghost predicate LocksHeld(s: State) {
    forall pid :: pid in s.processes && s.processes[pid].HoldsLock() ==>
      var key := LockKey(s.processes[pid].user);
      key in s.locks && s.locks[key] == pid
  }

  /** Since `from` the user's flag was only written by writers that take no lock. */
  ghost predicate NoLockedCommit(commits: seq<Commit>, from: nat, user: User) {
    from <= |commits| && forall i :: from <= i < |commits| && commits[i].user == user ==> !commits[i].underLock
  }

  ghost predicate NoCommit(commits: seq<Commit>, from: nat, to: nat, user: User) {
    from <= to <= |commits| && forall i :: from <= i < to ==> commits[i].user != user
  }

  ghost predicate WasFlag(commits: seq<Commit>, at: nat, user: User, admin: bool) {
    at <= |commits| && Flag(commits[..at], user) == Some(admin)
  }

  /** A flag that was carried along is the one of its reading. */
  ghost predicate CarriedOk(commits: seq<Commit>, c: Commit) {
    c.carried.Some? ==> !c.queued && WasFlag(commits, c.carried.value, c.user, c.admin)
  }

  ghost predicate ReadOk(commits: seq<Commit>, p: Process) {
    match p
    case Reread(_, user, seen, admin) => NoLockedCommit(commits, seen, user) && WasFlag(commits, seen, user, admin)
    case Editing(user, seen, admin) => WasFlag(commits, seen, user, admin)
    case Written(user, seen) => NoLockedCommit(commits, seen, user) && WasFlag(commits, seen, user, true)
    case ReadyToCommit(user, c, grant) => c.user == user && c.underLock && CarriedOk(commits, c) && (grant ==> c.admin)
    case GrantDue(user, asOf) => WasFlag(commits, asOf, user, true)
    case _ => true
  }

  ghost predicate ReadsHeld(s: State) {
    forall pid :: pid in s.processes ==> ReadOk(s.commits, s.processes[pid])
  }

  ghost predicate CommitsOk(commits: seq<Commit>) {
    forall k :: 0 <= k < |commits| ==> CarriedOk(commits[..k], commits[k])
  }

  /** What is on record for a push: the flag at its reading, and which commits can have come between. */
  ghost predicate PushSound(commits: seq<Commit>, p: Push) {
    && p.asOf <= p.at <= |commits|
    && (p.origin.Revocation? ==> !p.admin)
    && (p.origin.Grant? ==> p.admin)
    && WasFlag(commits, p.asOf, p.user, if p.origin.Revocation? then true else p.admin)
    && (!p.origin.Grant? ==>
          forall i :: p.asOf <= i < p.at && commits[i].user == p.user ==> !commits[i].underLock)
  }

  ghost predicate PushesSound(s: State) {
    forall i :: 0 <= i < |s.pushes| ==> PushSound(s.commits, s.pushes[i])
  }

  /** Nothing pushed or still to be granted for the user is newer than what was read under the lock. */
  ghost predicate ReadIsNewest(s: State, user: User, seen: nat) {
    && (forall i :: 0 <= i < |s.pushes| && s.pushes[i].user == user ==> s.pushes[i].asOf <= seen)
    && (forall g :: g in s.processes && s.processes[g].GrantDue? && s.processes[g].user == user ==>
          s.processes[g].asOf <= seen)
  }

  ghost predicate ReadsNewest(s: State) {
    forall pid :: pid in s.processes && (s.processes[pid].Reread? || s.processes[pid].Written?) ==>
      ReadIsNewest(s, s.processes[pid].user, s.processes[pid].seen)
  }

  ghost predicate InOrder(pushes: seq<Push>) {
    forall i, j :: 0 <= i < j < |pushes| && pushes[i].user == pushes[j].user && !pushes[j].origin.Grant? ==>
      pushes[i].asOf <= pushes[j].asOf
  }

  ghost predicate Invariant(s: State) {
    && LocksHeld(s) && ReadsHeld(s) && PushesSound(s) && ReadsNewest(s)
    && InOrder(s.pushes) && CommitsOk(s.commits)
  }

  lemma WasFlagStays(commits: seq<Commit>, c: Commit, at: nat, user: User, admin: bool)
    requires WasFlag(commits, at, user, admin)
    ensures WasFlag(commits + [c], at, user, admin)
  {
    assert (commits + [c])[..at] == commits[..at];
  }

  lemma CommitKeepsPushes(commits: seq<Commit>, c: Commit, pushes: seq<Push>)
    requires forall i :: 0 <= i < |pushes| ==> PushSound(commits, pushes[i])
    ensures forall i :: 0 <= i < |pushes| ==> PushSound(commits + [c], pushes[i])
  {
    hide WasFlag;
    forall i | 0 <= i < |pushes| ensures PushSound(commits + [c], pushes[i]) {
      var p := pushes[i];
      WasFlagStays(commits, c, p.asOf, p.user, if p.origin.Revocation? then true else p.admin);
    }
  }

  lemma CommitKeepsCommits(commits: seq<Commit>, c: Commit)
    requires CommitsOk(commits) && CarriedOk(commits, c)
    ensures CommitsOk(commits + [c])
  {
    var after := commits + [c];
    forall k | 0 <= k < |after| ensures CarriedOk(after[..k], after[k]) {
      assert after[..k] == commits[..k];
      assert commits[..|commits|] == commits;
    }
  }

  /** A commit does not disturb what a process has read, unless it is a locked one behind its back. */
  lemma CommitKeepsRead(commits: seq<Commit>, c: Commit, p: Process)
    requires ReadOk(commits, p)
    requires c.underLock && (p.Reread? || p.Written?) ==> p.user != c.user
    ensures ReadOk(commits + [c], p)
  {
    hide WasFlag;
    match p
    case Reread(_, user, seen, admin) => WasFlagStays(commits, c, seen, user, admin);
    case Editing(user, seen, admin) => WasFlagStays(commits, c, seen, user, admin);
    case Written(user, seen) => WasFlagStays(commits, c, seen, user, true);
    case ReadyToCommit(user, d, _) =>
      if d.carried.Some? { WasFlagStays(commits, c, d.carried.value, d.user, d.admin); }
    case GrantDue(user, asOf) => WasFlagStays(commits, c, asOf, user, true);
    case _ =>
  }

  /** A commit by the holder of the user's lock, or by someone who takes none. */
  lemma CommitKeeps(s: State, c: Commit, who: Pid)
    requires Invariant(s) && CarriedOk(s.commits, c)
    requires c.underLock ==>
               who in s.processes && s.processes[who].HoldsLock() && s.processes[who].user == c.user
               && !s.processes[who].Reread? && !s.processes[who].Written?
    ensures Invariant(Committed(s, c))
  {
    hide ReadOk, CarriedOk, PushSound;
    var t := Committed(s, c);
    CommitKeepsPushes(s.commits, c, s.pushes);
    CommitKeepsCommits(s.commits, c);
    forall pid | pid in t.processes ensures ReadOk(t.commits, t.processes[pid]) {
      CommitKeepsRead(s.commits, c, s.processes[pid]);
    }
    forall pid | pid in t.processes && (t.processes[pid].Reread? || t.processes[pid].Written?)
      ensures ReadIsNewest(t, t.processes[pid].user, t.processes[pid].seen)
    {
      assert ReadIsNewest(s, s.processes[pid].user, s.processes[pid].seen);
    }
  }

  lemma PushKeeps(s: State, pid: Pid, p: Push, next: Process)
    requires Invariant(s) && pid in s.processes
    requires PushSound(s.commits, p) && p.at == |s.commits|
    requires (next.ReadyToCommit? || next.Pushed? || next.Ended?) && ReadOk(s.commits, next)
    requires !next.Ended? ==> s.processes[pid].HoldsLock() && next.user == s.processes[pid].user
    requires !p.origin.Grant? ==> ReadIsNewest(s, p.user, p.asOf) && s.processes[pid].HoldsLock() && p.user == s.processes[pid].user
    requires p.origin.Grant? ==> s.processes[pid] == GrantDue(p.user, p.asOf)
    ensures Invariant(With(s.(pushes := s.pushes + [p]), pid, next))
  {
    hide ReadOk, CommitsOk, PushSound;
    var after := With(s.(pushes := s.pushes + [p]), pid, next);
    forall q | q in after.processes && (after.processes[q].Reread? || after.processes[q].Written?)
      ensures ReadIsNewest(after, after.processes[q].user, after.processes[q].seen)
    {
      assert q != pid && after.processes[q] == s.processes[q];
    }
  }

  /** A change of one process's own record. */
  lemma WithKeeps(s: State, pid: Pid, next: Process)
    requires Invariant(s)
    requires next.HoldsLock() ==> LockKey(next.user) in s.locks && s.locks[LockKey(next.user)] == pid
    requires !next.GrantDue? && ReadOk(s.commits, next)
    requires next.Reread? || next.Written? ==> ReadIsNewest(s, next.user, next.seen)
    ensures Invariant(With(s, pid, next))
  {
    hide ReadOk, CommitsOk, PushSound;
    var t := With(s, pid, next);
    forall q | q in t.processes && (t.processes[q].Reread? || t.processes[q].Written?)
      ensures ReadIsNewest(t, t.processes[q].user, t.processes[q].seen)
    {
      if q != pid { assert ReadIsNewest(s, s.processes[q].user, s.processes[q].seen); }
    }
  }

  lemma ReleaseKeeps(s: State, pid: Pid, next: Process)
    requires Invariant(s) && pid in s.processes && s.processes[pid].HoldsLock()
    requires next.Ended? || (next == GrantDue(s.processes[pid].user, |s.commits|) && ReadOk(s.commits, next))
    requires forall q :: q in s.processes && q != pid && (s.processes[q].Reread? || s.processes[q].Written?) && next.GrantDue? ==>
               s.processes[q].user != next.user
    ensures Invariant(Release(s, pid, s.processes[pid].user, next))
  {
    hide ReadOk, CommitsOk, PushSound;
    var t := Release(s, pid, s.processes[pid].user, next);
    if next.Ended? { ReadsNothing(t.commits, next); }
    forall q | q in t.processes && (t.processes[q].Reread? || t.processes[q].Written?)
      ensures ReadIsNewest(t, t.processes[q].user, t.processes[q].seen)
    {
      assert q != pid && ReadIsNewest(s, s.processes[q].user, s.processes[q].seen);
    }
  }

  lemma FinishKeeps(s: State, pid: Pid)
    requires Invariant(s) && pid in s.processes && s.processes[pid].ReadyToCommit?
    ensures Invariant(StepProcess(s, Finish(pid), pid, s.processes[pid]))
  {
    hide PushesSound, CommitsOk, InOrder, ReadsNewest;
    var p := s.processes[pid];
    assert ReadOk(s.commits, p);
    CommitKeeps(s, p.change, pid);
    var t := Committed(s, p.change);
    assert t.commits[..|t.commits|] == t.commits;
    assert p.grant ==> ReadOk(t.commits, GrantDue(p.user, |s.commits| + 1));
    ReleaseKeeps(t, pid, if p.grant then GrantDue(p.user, |s.commits| + 1) else Ended);
  }

  /** What is read now is at least as new as anything pushed or still to be granted. */
  lemma FreshReadIsNewest(s: State, user: User)
    requires Invariant(s)
    ensures ReadIsNewest(s, user, |s.commits|)
  {
    forall i | 0 <= i < |s.pushes| ensures s.pushes[i].asOf <= |s.commits| {
      assert PushSound(s.commits, s.pushes[i]);
    }
    forall g | g in s.processes && s.processes[g].GrantDue? ensures s.processes[g].asOf <= |s.commits| {
      assert ReadOk(s.commits, s.processes[g]);
    }
  }

  lemma QueueKeeps(s: State, queue: multiset<QueuedJob>, dropped: seq<Dropped>)
    requires Invariant(s)
    ensures Invariant(s.(queue := queue, dropped := dropped))
  {
    hide ReadOk, CommitsOk, PushSound;
    var t := s.(queue := queue, dropped := dropped);
    forall q | q in t.processes && (t.processes[q].Reread? || t.processes[q].Written?)
      ensures ReadIsNewest(t, t.processes[q].user, t.processes[q].seen)
    {
      assert ReadIsNewest(s, s.processes[q].user, s.processes[q].seen);
    }
  }

  lemma AbortKeeps(s: State, pid: Pid)
    requires Invariant(s) && pid in s.processes && !s.processes[pid].Ended?
    ensures Invariant(Aborted(s, pid, s.processes[pid]))
  {
    hide Invariant;
    var p := s.processes[pid];
    var t := if IsJob(p) then Failed(s, p.user, if p.Pushed? then p.attempt else p.kind.attempt) else s;
    QueueKeeps(s, t.queue, t.dropped);
    assert t == s.(queue := t.queue, dropped := t.dropped);
    if p.HoldsLock() { ReleaseKeeps(t, pid, Ended); } else { WithKeeps(t, pid, Ended); }
  }

  lemma AcquireKeeps(s: State, pid: Pid, kind: Kind, user: User)
    requires Invariant(s) && pid in s.processes && LockKey(user) !in s.locks
    ensures Invariant(With(s.(locks := s.locks[LockKey(user) := pid]), pid, Locked(kind, user)))
  {
    hide ReadOk, CommitsOk, PushSound;
    var t := With(s.(locks := s.locks[LockKey(user) := pid]), pid, Locked(kind, user));
    forall q | q in t.processes && (t.processes[q].Reread? || t.processes[q].Written?)
      ensures ReadIsNewest(t, t.processes[q].user, t.processes[q].seen)
    {
      assert q != pid && ReadIsNewest(s, s.processes[q].user, s.processes[q].seen);
    }
    assert ReadOk(t.commits, Locked(kind, user)) by { ReadsNothing(t.commits, Locked(kind, user)); }
  }

  lemma ReadsNothing(commits: seq<Commit>, p: Process)
    requires p.Locked? || p.Ended?
    ensures ReadOk(commits, p)
  {
  }

  lemma LookupKeeps(s: State, e: Event, pid: Pid)
    requires Invariant(s) && pid in s.processes && (e.FirstLookup? || e.LookupAgain?)
    ensures Invariant(StepProcess(s, e, pid, s.processes[pid]))
  {
    hide LocksHeld, ReadsHeld, PushesSound, ReadsNewest, InOrder, CommitsOk;
    var p := s.processes[pid];
    assert s.commits[..|s.commits|] == s.commits;
    if e.FirstLookup? && p.Fresh? {
      var next := match Flag(s.commits, p.user)
        case None => Ended
        case Some(admin) => if p.kind.Edit? then Editing(p.user, |s.commits|, admin) else LookedUp(p.kind, p.user);
      WithKeeps(s, pid, next);
    } else if e.LookupAgain? && p.Locked? {
      FreshReadIsNewest(s, p.user);
      HolderHasLock(s, pid);
      if Flag(s.commits, p.user).Some? {
        WithKeeps(s, pid, Reread(p.kind, p.user, |s.commits|, Flag(s.commits, p.user).value));
      } else {
        ReleaseKeeps(s, pid, Ended);
      }
    }
  }

  lemma HolderHasLock(s: State, pid: Pid)
    requires LocksHeld(s) && pid in s.processes && s.processes[pid].HoldsLock()
    ensures LockKey(s.processes[pid].user) in s.locks && s.locks[LockKey(s.processes[pid].user)] == pid
  {
  }

  lemma WriteKeeps(s: State, pid: Pid)
    requires Invariant(s) && pid in s.processes && s.processes[pid].Reread? && s.processes[pid].kind.Patch?
    ensures Invariant(StepProcess(s, WriteFlag(pid), pid, s.processes[pid]))
  {
    hide PushesSound, InOrder, CommitsOk;
    var p := s.processes[pid];
    assert ReadOk(s.commits, p);
    HolderHasLock(s, pid);
    WithKeeps(s, pid, Patched(p.user, p.kind.admin, p.seen, p.admin));
  }

  lemma CallKeeps(s: State, pid: Pid)
    requires Invariant(s) && pid in s.processes
    ensures Invariant(StepProcess(s, CallHomeserver(pid), pid, s.processes[pid]))
  {
    hide PushesSound, InOrder, CommitsOk;
    var p := s.processes[pid];
    assert ReadOk(s.commits, p);
    if p.Reread? && p.kind.Provision? {
      PushKeeps(s, pid, Push(p.user, Job, p.admin, p.seen, |s.commits|), Pushed(p.kind.attempt, p.user));
    } else if p.Written? {
      PushKeeps(s, pid, Push(p.user, Revocation, false, p.seen, |s.commits|),
                ReadyToCommit(p.user, Commit(p.user, false, true, None, true), false));
    }
  }

  lemma EditKeeps(s: State, pid: Pid)
    requires Invariant(s) && pid in s.processes && s.processes[pid].Editing?
    ensures Invariant(StepProcess(s, Finish(pid), pid, s.processes[pid]))
  {
    hide PushesSound, InOrder, CommitsOk, ReadsNewest, LocksHeld;
    var p := s.processes[pid];
    assert ReadOk(s.commits, p);
    var c := Commit(p.user, p.admin, false, Some(p.seen), false);
    CommitKeeps(s, c, pid);
    WithKeeps(Committed(s, c), pid, Ended);
  }

  lemma StepProcessKeeps(s: State, e: Event, pid: Pid)
    requires Invariant(s) && OfProcess(e) && pid in s.processes
    ensures Invariant(StepProcess(s, e, pid, s.processes[pid]))
  {
    hide Invariant;
    var p := s.processes[pid];
    match (e, p)
    case (FirstLookup(_), _) => LookupKeeps(s, e, pid);
    case (LookupAgain(_), _) => LookupKeeps(s, e, pid);
    case (Acquire(_), LookedUp(kind, user)) =>
      if LockKey(user) !in s.locks { AcquireKeeps(s, pid, kind, user); }
    case (WriteFlag(_), Reread(Patch(_), _, _, _)) => WriteKeeps(s, pid);
    case (CallHomeserver(_), _) => CallKeeps(s, pid);
    case (LateGrant(_), GrantDue(user, asOf)) => LateGrantKeeps(s, pid);
    case (Finish(_), Pushed(_, user)) => ReleaseKeeps(s, pid, Ended);
    case (Finish(_), ReadyToCommit(_, _, _)) => FinishKeeps(s, pid);
    case (Finish(_), Editing(_, _, _)) => EditKeeps(s, pid);
    case (Abort(_), _) => if !p.Ended? { AbortKeeps(s, pid); }
    case _ =>
  }

  lemma LateGrantKeeps(s: State, pid: Pid)
    requires Invariant(s) && pid in s.processes && s.processes[pid].GrantDue?
    ensures Invariant(StepProcess(s, LateGrant(pid), pid, s.processes[pid]))
  {
    hide PushesSound, InOrder, CommitsOk;
    var p := s.processes[pid];
    assert ReadOk(s.commits, p);
    PushKeeps(s, pid, Push(p.user, Grant, true, p.asOf, |s.commits|), Ended);
  }

  lemma StepKeeps(s: State, e: Event)
    requires Invariant(s)
    ensures Invariant(Step(s, e))
  {
    hide Invariant;
    match e
    case Spawn(pid, kind, user) =>
      if pid !in s.processes && !kind.Provision? { WithKeeps(s, pid, Fresh(kind, user)); }
    case Take(pid, job) =>
      if pid !in s.processes && job in s.queue {
        QueueKeeps(s, s.queue - multiset{job}, s.dropped);
        WithKeeps(s.(queue := s.queue - multiset{job}), pid, Fresh(Provision(job.attempt), job.user));
      }
    case WriteWithoutLock(user, admin, queued) =>
      CommitKeeps(s, Commit(user, admin, false, None, queued), 0);
    case Enqueue(user) => QueueKeeps(s, s.queue + multiset{QueuedJob(user, 0)}, s.dropped);
    case _ =>
      if e.pid in s.processes { StepProcessKeeps(s, e, e.pid); }
  }

  lemma {:induction false} RunKeeps(schedule: seq<Event>)
    ensures Invariant(Run(schedule))
  {
    hide Step;
    if schedule != [] {
      RunKeeps(schedule[..|schedule| - 1]);
      StepKeeps(Run(schedule[..|schedule| - 1]), schedule[|schedule| - 1]);
    }
  }

  // What follows for every schedule

  /** The flag that the last commit for the user in a stretch wrote. */
  function LastIn(commits: seq<Commit>, from: nat, to: nat, user: User): Option<bool>
    requires from <= to <= |commits|
    decreases (to)
  {
    if from == to then None
    else if commits[to - 1].user == user then Some(commits[to - 1].admin)
    else LastIn(commits, from, to - 1, user)
  }

  lemma {:induction false} FlagAcross(commits: seq<Commit>, from: nat, to: nat, user: User)
    requires from <= to <= |commits|
    ensures Flag(commits[..to], user)
         == if LastIn(commits, from, to, user).Some? then LastIn(commits, from, to, user) else Flag(commits[..from], user)
    ensures LastIn(commits, from, to, user).None? <==> NoCommit(commits, from, to, user)
    decreases (to)
  {
    if from < to {
      assert commits[..to][..to - 1] == commits[..to - 1];
      FlagAcross(commits, from, to - 1, user);
    }
  }

  /**
   * What decides whether a push is right: the last commit for the user since its reading wrote
   * the flag that was pushed, or there was none and the push was not of a change still to come.
   */
  ghost predicate Agrees(commits: seq<Commit>, p: Push, to: nat) {
    && p.asOf <= to <= |commits|
    && match LastIn(commits, p.asOf, to, p.user)
       case Some(admin) => admin == p.admin
       case None => !p.origin.Revocation?
  }

  /** Every push, whatever its origin, against the committed flag at every moment since its reading. */
  lemma PushAgreesExactly(schedule: seq<Event>, i: nat, to: nat)
    requires var s := Run(schedule); i < |s.pushes| && s.pushes[i].asOf <= to <= |s.commits|
    ensures var s := Run(schedule); var p := s.pushes[i];
            Flag(s.commits[..to], p.user) == Some(p.admin) <==> Agrees(s.commits, p, to)
  {
    hide Run;
    RunKeeps(schedule);
    var s := Run(schedule);
    var p := s.pushes[i];
    assert PushSound(s.commits, p);
    FlagAcross(s.commits, p.asOf, to, p.user);
  }

  /**
   * A push is the flag committed at that very moment if and only if it agrees then. For a job
   * or a revocation only a writer that takes no lock can have come between reading and pushing.
   */
  lemma PushIsCurrentExactly(schedule: seq<Event>, i: nat)
    requires i < |Run(schedule).pushes|
    ensures var s := Run(schedule); var p := s.pushes[i];
            && p.asOf <= p.at <= |s.commits|
            && (Flag(s.commits[..p.at], p.user) == Some(p.admin) <==> Agrees(s.commits, p, p.at))
            && (!p.origin.Grant? ==>
                  forall k :: p.asOf <= k < p.at && s.commits[k].user == p.user ==> !s.commits[k].underLock)
  {
    hide Run;
    RunKeeps(schedule);
    assert PushSound(Run(schedule).commits, Run(schedule).pushes[i]);
    PushAgreesExactly(schedule, i, Run(schedule).pushes[i].at);
  }

  /** Once a user exists, only writers with the lock change the flag. */
  ghost predicate AllLocked(commits: seq<Commit>) {
    forall k :: 0 <= k < |commits| && Flag(commits[..k], commits[k].user).Some? ==> commits[k].underLock
  }

  /** If flags are only changed under the lock, every flag a job pushes is the committed one. */
  lemma JobPushesCommittedFlag(schedule: seq<Event>, i: nat)
    requires AllLocked(Run(schedule).commits)
    requires i < |Run(schedule).pushes| && Run(schedule).pushes[i].origin.Job?
    ensures var s := Run(schedule); var p := s.pushes[i];
            p.at <= |s.commits| && Flag(s.commits[..p.at], p.user) == Some(p.admin)
  {
    hide Run;
    PushIsCurrentExactly(schedule, i);
    var s := Run(schedule);
    var p := s.pushes[i];
    RunKeeps(schedule);
    assert PushSound(s.commits, p);
    forall k | p.asOf <= k < p.at ensures s.commits[k].user != p.user {
      FlagAcross(s.commits, p.asOf, k, p.user);
    }
    FlagAcross(s.commits, p.asOf, p.at, p.user);
  }

  /** No job and no revocation ever pushes a flag older than one pushed before, whoever pushed that. */
  lemma OnlyGrantsGoBackwards(schedule: seq<Event>, i: nat, j: nat)
    requires i < j < |Run(schedule).pushes|
    requires Run(schedule).pushes[i].user == Run(schedule).pushes[j].user
    requires Run(schedule).pushes[i].asOf > Run(schedule).pushes[j].asOf
    ensures Run(schedule).pushes[j].origin.Grant?
  {
    hide Run;
    RunKeeps(schedule);
  }

  /** Admin is never granted on the homeserver without having been committed first. */
  lemma GrantsAreCommitted(schedule: seq<Event>, i: nat)
    requires i < |Run(schedule).pushes| && Run(schedule).pushes[i].admin
    ensures var s := Run(schedule); var p := s.pushes[i];
            p.asOf <= p.at <= |s.commits| && Flag(s.commits[..p.asOf], p.user) == Some(true)
  {
    hide Run;
    RunKeeps(schedule);
    assert PushSound(Run(schedule).commits, Run(schedule).pushes[i]);
  }

  function LastPush(pushes: seq<Push>, user: User): Option<Push> {
    if pushes == [] then None else
    var last := pushes[|pushes| - 1];
    if last.user == user then Some(last) else LastPush(pushes[..|pushes| - 1], user)
  }

  /** The flag the homeserver holds: that of the last push for the user. */
  function Mirrored(pushes: seq<Push>, user: User): Option<bool> {
    match LastPush(pushes, user)
    case None => None
    case Some(p) => Some(p.admin)
  }

  lemma {:induction false} LastPushAt(pushes: seq<Push>, user: User) returns (i: nat)
    requires LastPush(pushes, user).Some?
    ensures i < |pushes| && LastPush(pushes, user) == Some(pushes[i]) && pushes[i].user == user
    ensures forall k :: i < k < |pushes| ==> pushes[k].user != user
  {
    i := |pushes| - 1;
    if pushes[i].user != user { i := LastPushAt(pushes[..i], user); }
  }

  /** After any schedule: the homeserver holds the committed flag if and only if the last push agrees. */
  lemma MirrorAgreesExactly(schedule: seq<Event>, user: User)
    ensures var s := Run(schedule);
            Mirrored(s.pushes, user) == Flag(s.commits, user) <==>
              match LastPush(s.pushes, user)
              case None => Flag(s.commits, user).None?
              case Some(p) => Agrees(s.commits, p, |s.commits|)
  {
    hide Run, Agrees;
    var s := Run(schedule);
    if LastPush(s.pushes, user).Some? {
      var i := LastPushAt(s.pushes, user);
      RunKeeps(schedule);
      assert PushSound(s.commits, s.pushes[i]);
      PushAgreesExactly(schedule, i, |s.commits|);
      assert s.commits[..|s.commits|] == s.commits;
    }
  }

  /**
   * When a job's push was the last for the user, the homeserver agrees with the database if and
   * only if the last commit for the user since, if there was one, wrote the flag that was pushed.
   */
  lemma JobConverges(schedule: seq<Event>, user: User)
    requires var s := Run(schedule); LastPush(s.pushes, user).Some? && LastPush(s.pushes, user).value.origin.Job?
    ensures var s := Run(schedule); var p := LastPush(s.pushes, user).value;
            && p.asOf <= |s.commits|
            && (Mirrored(s.pushes, user) == Flag(s.commits, user) <==>
                  || NoCommit(s.commits, p.asOf, |s.commits|, user)
                  || LastIn(s.commits, p.asOf, |s.commits|, user) == Some(p.admin))
  {
    hide Run;
    var s := Run(schedule);
    var i := LastPushAt(s.pushes, user);
    RunKeeps(schedule);
    assert PushSound(s.commits, s.pushes[i]);
    MirrorAgreesExactly(schedule, user);
    FlagAcross(s.commits, s.pushes[i].asOf, |s.commits|, user);
  }

  /** The lock of a user is the low half of their id, whatever the high half. */
  lemma LockIsLowHalf(high: nat, low: nat)
    requires low < 0x1_0000_0000_0000_0000
    ensures LockKey(high * 0x1_0000_0000_0000_0000 + low) == low
  {
  }

  /**
   * From the update of a user's row to the end of its transaction, nothing is committed for the
   * user but that transaction itself.
   */
  lemma RowIsKept(schedule: seq<Event>, pid: Pid, e: Event)
    requires var s := Run(schedule); pid in s.processes && (s.processes[pid].Written? || s.processes[pid].ReadyToCommit?)
    requires e != Finish(pid)
    ensures var s := Run(schedule); var t := Step(s, e);
            Flag(t.commits, s.processes[pid].user) == Flag(s.commits, s.processes[pid].user)
  {
    hide Run;
    var s := Run(schedule);
    var user := s.processes[pid].user;
    RunKeeps(schedule);
    assert !RowFree(s, user);
    assert ReadOk(s.commits, s.processes[pid]);
    if e.Finish? && e.pid in s.processes && s.processes[e.pid].ReadyToCommit? {
      assert ReadOk(s.commits, s.processes[e.pid]);
      HolderHasLock(s, e.pid);
      HolderHasLock(s, pid);
    }
  }

  // How long a revocation lasts

  /** A later commit leaves the revocation alone: no decision to grant, and no older flag carried along. */
  ghost predicate Honours(commits: seq<Commit>, revoked: nat, k: nat)
    requires revoked < k < |commits|
  {
    match commits[k].carried
    case None => !commits[k].admin
    case Some(seen) => seen <= revoked ==> WasFlag(commits, seen, commits[k].user, false)
  }

  ghost predicate Lasts(commits: seq<Commit>, revoked: nat, to: nat)
    requires revoked < to <= |commits|
  {
    forall m :: revoked < m <= to ==> Flag(commits[..m], commits[revoked].user) == Some(false)
  }

  lemma FlagAfter(commits: seq<Commit>, k: nat, user: User)
    requires k < |commits|
    ensures Flag(commits[..k + 1], user) == if commits[k].user == user then Some(commits[k].admin) else Flag(commits[..k], user)
  {
    assert commits[..k + 1][..k] == commits[..k];
  }

  lemma CarriedFlag(commits: seq<Commit>, k: nat)
    requires CommitsOk(commits) && k < |commits| && commits[k].carried.Some?
    ensures commits[k].carried.value <= k && WasFlag(commits, commits[k].carried.value, commits[k].user, commits[k].admin)
  {
    assert CarriedOk(commits[..k], commits[k]);
    assert commits[..k][..commits[k].carried.value] == commits[..commits[k].carried.value];
  }

  lemma {:induction false} HonouredLasts(commits: seq<Commit>, revoked: nat, to: nat)
    requires CommitsOk(commits) && revoked < to <= |commits| && !commits[revoked].admin
    requires forall k :: revoked < k < to && commits[k].user == commits[revoked].user ==> Honours(commits, revoked, k)
    ensures Lasts(commits, revoked, to)
    decreases (to)
  {
    var user := commits[revoked].user;
    FlagAfter(commits, to - 1, user);
    if to - 1 > revoked {
      HonouredLasts(commits, revoked, to - 1);
      var k := to - 1;
      if commits[k].user == user && commits[k].carried.Some? {
        CarriedFlag(commits, k);
        assert Flag(commits[..commits[k].carried.value], user) == Some(commits[k].admin);
      }
    }
  }

  lemma LastingIsHonoured(commits: seq<Commit>, revoked: nat, to: nat, k: nat)
    requires CommitsOk(commits) && revoked < k < to <= |commits| && commits[k].user == commits[revoked].user
    requires Lasts(commits, revoked, to)
    ensures Honours(commits, revoked, k)
  {
    FlagAfter(commits, k, commits[k].user);
    assert Flag(commits[..k + 1], commits[revoked].user) == Some(false);
    if commits[k].carried.Some? { CarriedFlag(commits, k); }
  }

  /**
   * A committed revocation stays in force if and only if nobody decides to grant, and no write
   * of other columns that had read the old flag before the revocation is committed after it.
   */
  lemma RevocationLastsExactly(schedule: seq<Event>, revoked: nat, to: nat)
    requires var commits := Run(schedule).commits; revoked < to <= |commits| && !commits[revoked].admin
    ensures var commits := Run(schedule).commits;
            Lasts(commits, revoked, to) <==>
              forall k :: revoked < k < to && commits[k].user == commits[revoked].user ==> Honours(commits, revoked, k)
  {
    hide Run, Lasts, Honours, CommitsOk;
    var commits := Run(schedule).commits;
    RunKeeps(schedule);
    if Lasts(commits, revoked, to) {
      forall k | revoked < k < to && commits[k].user == commits[revoked].user ensures Honours(commits, revoked, k) {
        LastingIsHonoured(commits, revoked, to, k);
      }
    } else if forall k :: revoked < k < to && commits[k].user == commits[revoked].user ==> Honours(commits, revoked, k) {
      HonouredLasts(commits, revoked, to);
    }
  }
}

/** Schedules that end with the homeserver and the database in disagreement, with nothing left to repair it. */
module ProvisioningRuns {
  import opened Wrappers
  import opened Provisioning
  import opened ProvisioningRest

  lemma Then(schedule: seq<Event>, e: Event) returns (longer: seq<Event>)
    ensures longer == schedule + [e] && Run(longer) == Step(Run(schedule), e)
  {
    longer := schedule + [e];
    assert longer[..|schedule|] == schedule;
  }

  lemma Unlocked(locks: map<nat, Pid>, key: nat, pid: Pid)
    requires key !in locks
    ensures locks[key := pid] - {key} == locks
  {
  }

  lemma Begun(schedule: seq<Event>, pid: Pid, kind: Kind, user: User) returns (longer: seq<Event>)
    requires pid !in Run(schedule).processes && !kind.Provision?
    ensures longer == schedule + [Spawn(pid, kind, user)]
    ensures Run(longer) == With(Run(schedule), pid, Fresh(kind, user))
  {
    hide Run;
    longer := Then(schedule, Spawn(pid, kind, user));
  }

  /** A process that has begun gets, on its own, as far as its second lookup. */
  lemma ReadUnderLock(schedule: seq<Event>, pid: Pid, kind: Kind, user: User) returns (longer: seq<Event>)
    requires var s := Run(schedule);
             && pid in s.processes && s.processes[pid] == Fresh(kind, user) && !kind.Edit?
             && LockKey(user) !in s.locks && Flag(s.commits, user).Some?
    ensures longer == schedule + [FirstLookup(pid), Acquire(pid), LookupAgain(pid)]
    ensures var s := Run(schedule);
            Run(longer) == With(s.(locks := s.locks[LockKey(user) := pid]), pid,
                                Reread(kind, user, |s.commits|, Flag(s.commits, user).value))
  {
    hide Run;
    longer := Then(schedule, FirstLookup(pid));
    longer := Then(longer, Acquire(pid));
    longer := Then(longer, LookupAgain(pid));
  }

  /** Everything a patch does from its first event to its commit; the push of a grant comes after. */
  function PatchEvents(pid: Pid, admin: Option<bool>, user: User): seq<Event> {
    [Spawn(pid, Patch(admin), user), FirstLookup(pid), Acquire(pid), LookupAgain(pid), WriteFlag(pid), CallHomeserver(pid),
     Finish(pid)]
  }

  lemma PatchReads(schedule: seq<Event>, pid: Pid, admin: Option<bool>, user: User) returns (t: State)
    requires var s := Run(schedule);
             pid !in s.processes && LockKey(user) !in s.locks && Flag(s.commits, user).Some?
    ensures t == Run(schedule + PatchEvents(pid, admin, user)[..4])
    ensures var s := Run(schedule); var kind := Patch(admin);
            t == With(s.(locks := s.locks[LockKey(user) := pid]), pid, Reread(kind, user, |s.commits|, Flag(s.commits, user).value))
  {
    hide Run, Step, Flag;
    var longer := Begun(schedule, pid, Patch(admin), user);
    longer := ReadUnderLock(longer, pid, Patch(admin), user);
    assert longer == schedule + PatchEvents(pid, admin, user)[..4];
    t := Run(longer);
  }

  /** The commit of a patch that has read the flag `was`. */
  function PatchCommit(admin: Option<bool>, user: User, seen: nat, was: bool): Commit {
    match admin
    case None => Commit(user, was, true, Some(seen), false)
    case Some(to) => Commit(user, to, true, None, to != was)
  }

  function PatchPush(admin: Option<bool>, user: User, seen: nat, was: bool, at: nat): seq<Push> {
    if was && admin == Some(false) then [Push(user, Revocation, false, seen, at)] else []
  }

  lemma PatchCalls(schedule: seq<Event>, pid: Pid, admin: Option<bool>, user: User, seen: nat, was: bool) returns (longer: seq<Event>)
    requires var s := Run(schedule);
             pid in s.processes && s.processes[pid] == Reread(Patch(admin), user, seen, was)
    ensures longer == schedule + [WriteFlag(pid), CallHomeserver(pid)]
    ensures var s := Run(schedule); var pushes := s.pushes + PatchPush(admin, user, seen, was, |s.commits|);
            Run(longer) == With(s.(pushes := pushes), pid, ReadyToCommit(user, PatchCommit(admin, user, seen, was), admin == Some(true)))
  {
    hide Run;
    var s := Run(schedule);
    longer := Then(schedule, WriteFlag(pid));
    if was && admin == Some(false) {
      assert Run(longer) == With(s, pid, Written(user, seen));
    } else {
      assert Run(longer) == With(s, pid, ReadyToCommit(user, PatchCommit(admin, user, seen, was), admin == Some(true)));
      assert s.pushes + [] == s.pushes;
    }
    longer := Then(longer, CallHomeserver(pid));
  }

  lemma PatchCommits(schedule: seq<Event>, pid: Pid, user: User, c: Commit, grant: bool)
    requires var s := Run(schedule); pid in s.processes && s.processes[pid] == ReadyToCommit(user, c, grant)
    ensures var s := Run(schedule); var next := if grant then GrantDue(user, |s.commits| + 1) else Ended;
            Run(schedule + [Finish(pid)]) == Release(Committed(s, c), pid, user, next)
  {
    hide Run;
    var longer := Then(schedule, Finish(pid));
  }

  /** A patch up to where it is ready to commit. */
  lemma PatchPrepares(schedule: seq<Event>, pid: Pid, admin: Option<bool>, user: User) returns (longer: seq<Event>)
    requires var s := Run(schedule);
             pid !in s.processes && LockKey(user) !in s.locks && Flag(s.commits, user).Some?
    ensures schedule <= longer && longer + [Finish(pid)] == schedule + PatchEvents(pid, admin, user)
    ensures var s := Run(schedule); var was := Flag(s.commits, user).value;
            var pushes := s.pushes + PatchPush(admin, user, |s.commits|, was, |s.commits|);
            var next := ReadyToCommit(user, PatchCommit(admin, user, |s.commits|, was), admin == Some(true));
            Run(longer) == With(s.(locks := s.locks[LockKey(user) := pid], pushes := pushes), pid, next)
  {
    hide Run, Step, Flag, PatchCommit, PatchPush;
    var s := Run(schedule);
    var t := PatchReads(schedule, pid, admin, user);
    var front := schedule + PatchEvents(pid, admin, user)[..4];
    longer := PatchCalls(front, pid, admin, user, |s.commits|, Flag(s.commits, user).value);
  }

  lemma LockComesAndGoes(s: State, pid: Pid, user: User, pushes: seq<Push>, ready: Process, c: Commit, next: Process)
    requires LockKey(user) !in s.locks
    ensures var t := With(s.(locks := s.locks[LockKey(user) := pid], pushes := pushes), pid, ready);
            Release(Committed(t, c), pid, user, next) == With(Committed(s.(pushes := pushes), c), pid, next)
  {
    Unlocked(s.locks, LockKey(user), pid);
  }

  /** A patch from its first event to its commit. */
  lemma PatchWhole(schedule: seq<Event>, pid: Pid, admin: Option<bool>, user: User)
    requires var s := Run(schedule);
             pid !in s.processes && LockKey(user) !in s.locks && Flag(s.commits, user).Some?
    ensures var s := Run(schedule); var was := Flag(s.commits, user).value;
            var pushed := s.(pushes := s.pushes + PatchPush(admin, user, |s.commits|, was, |s.commits|));
            var next := if admin == Some(true) then GrantDue(user, |s.commits| + 1) else Ended;
            Run(schedule + PatchEvents(pid, admin, user)) == With(Committed(pushed, PatchCommit(admin, user, |s.commits|, was)), pid, next)
  {
    hide Run, Step, Flag, PatchCommit, PatchPush, PatchEvents, Release, Committed;
    var s := Run(schedule);
    var was := Flag(s.commits, user).value;
    var c := PatchCommit(admin, user, |s.commits|, was);
    var longer := PatchPrepares(schedule, pid, admin, user);
    PatchCommits(longer, pid, user, c, admin == Some(true));
    LockComesAndGoes(s, pid, user, s.pushes + PatchPush(admin, user, |s.commits|, was, |s.commits|),
                     ReadyToCommit(user, c, admin == Some(true)), c,
                     if admin == Some(true) then GrantDue(user, |s.commits| + 1) else Ended);
  }

  /** A patch that grants, run on its own up to its commit. */
  lemma GrantAlone(schedule: seq<Event>, pid: Pid, user: User) returns (longer: seq<Event>)
    requires var s := Run(schedule);
             pid !in s.processes && LockKey(user) !in s.locks && Flag(s.commits, user).Some?
    ensures schedule <= longer
    ensures var s := Run(schedule); var changed := Flag(s.commits, user) == Some(false);
            Run(longer) == With(Committed(s, Commit(user, true, true, None, changed)), pid, GrantDue(user, |s.commits| + 1))
  {
    hide Run, Step, Flag;
    PatchWhole(schedule, pid, Some(true), user);
    longer := schedule + PatchEvents(pid, Some(true), user);
    assert Run(schedule).pushes + [] == Run(schedule).pushes;
  }

  /** A patch that revokes, run on its own up to its push. */
  lemma RevokeToPush(schedule: seq<Event>, pid: Pid, user: User) returns (longer: seq<Event>)
    requires var s := Run(schedule);
             pid !in s.processes && LockKey(user) !in s.locks && Flag(s.commits, user) == Some(true)
    ensures schedule <= longer
    ensures var s := Run(schedule);
            Run(longer) == With(s.(locks := s.locks[LockKey(user) := pid],
                                   pushes := s.pushes + [Push(user, Revocation, false, |s.commits|, |s.commits|)]),
                                pid, ReadyToCommit(user, Commit(user, false, true, None, true), false))
  {
    hide Run, Step, Flag;
    longer := PatchPrepares(schedule, pid, Some(false), user);
  }

  /** A patch that revokes, run on its own from start to end. */
  lemma RevokeAlone(schedule: seq<Event>, pid: Pid, user: User) returns (longer: seq<Event>)
    requires var s := Run(schedule);
             pid !in s.processes && LockKey(user) !in s.locks && Flag(s.commits, user) == Some(true)
    ensures schedule <= longer
    ensures var s := Run(schedule);
            var pushed := s.(pushes := s.pushes + [Push(user, Revocation, false, |s.commits|, |s.commits|)]);
            Run(longer) == With(Committed(pushed, Commit(user, false, true, None, true)), pid, Ended)
  {
    hide Run, Step, Flag;
    PatchWhole(schedule, pid, Some(false), user);
    longer := schedule + PatchEvents(pid, Some(false), user);
  }

  /**
   * A patch on its own, for whatever flag it finds and whatever it asks: the flag is what the
   * patch names, or stays as it was; a job is queued exactly if the flag changed, a revocation is
   * pushed exactly if it went down, and a grant is due exactly if the patch names one.
   */
  lemma PatchAlone(schedule: seq<Event>, pid: Pid, admin: Option<bool>, user: User)
    requires var s := Run(schedule);
             pid !in s.processes && LockKey(user) !in s.locks && Flag(s.commits, user).Some?
    ensures var s := Run(schedule);
            var t := Run(schedule + PatchEvents(pid, admin, user));
            var was := Flag(s.commits, user).value;
            var now := if admin.Some? then admin.value else was;
            && Flag(t.commits, user) == Some(now)
            && |t.commits| == |s.commits| + 1 && t.commits[..|s.commits|] == s.commits && t.commits[|s.commits|].underLock
            && t.queue == (if now != was then s.queue + multiset{QueuedJob(user, 0)} else s.queue)
            && t.pushes == (if was && !now then s.pushes + [Push(user, Revocation, false, |s.commits|, |s.commits|)] else s.pushes)
            && t.processes == s.processes[pid := if admin == Some(true) then GrantDue(user, |t.commits|) else Ended]
            && t.locks == s.locks && t.dropped == s.dropped
  {
    hide Run, Step, Flag;
    var s := Run(schedule);
    PatchWhole(schedule, pid, admin, user);
    FlagPush(s.commits, PatchCommit(admin, user, |s.commits|, Flag(s.commits, user).value));
    assert s.pushes + [] == s.pushes;
  }

  /** For a user who is not there, a patch or an edit ends at once and leaves nothing. */
  lemma NobodyToPatch(schedule: seq<Event>, pid: Pid, kind: Kind, user: User)
    requires var s := Run(schedule); pid !in s.processes && !kind.Provision? && Flag(s.commits, user).None?
    ensures Run(schedule + [Spawn(pid, kind, user), FirstLookup(pid)]) == With(Run(schedule), pid, Ended)
  {
    hide Run;
    var longer := Begun(schedule, pid, kind, user);
    longer := Then(longer, FirstLookup(pid));
    assert longer == schedule + [Spawn(pid, kind, user), FirstLookup(pid)];
  }

  /** An edit on its own writes the flag it read, and neither pushes nor queues anything. */
  lemma EditAlone(schedule: seq<Event>, pid: Pid, user: User)
    requires var s := Run(schedule);
             pid !in s.processes && LockKey(user) !in s.locks && Flag(s.commits, user).Some?
    ensures var s := Run(schedule);
            var t := Run(schedule + [Spawn(pid, Edit, user), FirstLookup(pid), Finish(pid)]);
            && Flag(t.commits, user) == Flag(s.commits, user)
            && |t.commits| == |s.commits| + 1 && t.commits[..|s.commits|] == s.commits && !t.commits[|s.commits|].underLock
            && t.queue == s.queue && t.pushes == s.pushes && t.locks == s.locks && t.dropped == s.dropped
            && t.processes == s.processes[pid := Ended]
  {
    hide Run, Step, Flag;
    var s := Run(schedule);
    var was := Flag(s.commits, user).value;
    var longer := EditReads(schedule, pid, user);
    longer := EditWrites(longer, pid, user, |s.commits|, was);
    assert longer == schedule + [Spawn(pid, Edit, user), FirstLookup(pid), Finish(pid)];
    FlagPush(s.commits, Commit(user, was, false, Some(|s.commits|), false));
  }

  /** A process that breaks off leaves nothing but its lock freed; a job goes back to the queue ten times, then never. */
  lemma BreaksOff(schedule: seq<Event>, pid: Pid)
    requires var s := Run(schedule); pid in s.processes && !s.processes[pid].Ended?
    ensures var s := Run(schedule); var t := Run(schedule + [Abort(pid)]); var p := s.processes[pid];
            && t.commits == s.commits && t.pushes == s.pushes && t.processes == s.processes[pid := Ended]
            && t.locks == (if p.HoldsLock() then s.locks - {LockKey(p.user)} else s.locks)
    ensures var s := Run(schedule); var t := Run(schedule + [Abort(pid)]); var p := s.processes[pid];
            if p.Pushed? then Requeued(s, t, p.user, p.attempt)
            else if (p.Fresh? || p.LookedUp? || p.Locked? || p.Reread?) && p.kind.Provision? then Requeued(s, t, p.user, p.kind.attempt)
            else t.queue == s.queue && t.dropped == s.dropped
  {
    hide Run;
    var longer := Then(schedule, Abort(pid));
  }

  ghost predicate Requeued(s: State, t: State, user: User, attempt: nat) {
    if attempt < 10 then t.queue == s.queue + multiset{QueuedJob(user, attempt + 1)} && t.dropped == s.dropped
    else t.queue == s.queue && t.dropped == s.dropped + [Dropped(user, |s.commits|)]
  }

  /** A job on its own, from the queue to its second lookup. */
  lemma JobReads(schedule: seq<Event>, pid: Pid, job: QueuedJob) returns (longer: seq<Event>)
    requires var s := Run(schedule);
             && pid !in s.processes && job in s.queue
             && LockKey(job.user) !in s.locks && Flag(s.commits, job.user).Some?
    ensures schedule <= longer
    ensures var s := Run(schedule);
            Run(longer) == With(s.(locks := s.locks[LockKey(job.user) := pid], queue := s.queue - multiset{job}), pid,
                                Reread(Provision(job.attempt), job.user, |s.commits|, Flag(s.commits, job.user).value))
  {
    hide Run;
    longer := Then(schedule, Take(pid, job));
    longer := ReadUnderLock(longer, pid, Provision(job.attempt), job.user);
  }

  lemma JobEnds(schedule: seq<Event>, pid: Pid, attempt: nat, user: User, seen: nat, admin: bool) returns (longer: seq<Event>)
    requires var s := Run(schedule);
             pid in s.processes && s.processes[pid] == Reread(Provision(attempt), user, seen, admin)
    ensures schedule <= longer
    ensures var s := Run(schedule);
            Run(longer) == Release(s.(pushes := s.pushes + [Push(user, Job, admin, seen, |s.commits|)]), pid, user, Ended)
  {
    hide Run;
    longer := Then(schedule, CallHomeserver(pid));
    longer := Then(longer, Finish(pid));
  }

  /** A queued job whose user's lock is free can always run, and makes the homeserver agree. */
  lemma JobAlone(schedule: seq<Event>, pid: Pid, job: QueuedJob) returns (longer: seq<Event>)
    requires var s := Run(schedule);
             && pid !in s.processes && job in s.queue
             && LockKey(job.user) !in s.locks && Flag(s.commits, job.user).Some?
    ensures schedule <= longer
    ensures var s := Run(schedule);
            var push := Push(job.user, Job, Flag(s.commits, job.user).value, |s.commits|, |s.commits|);
            Run(longer) == With(s.(pushes := s.pushes + [push], queue := s.queue - multiset{job}), pid, Ended)
    ensures var t := Run(longer); Mirrored(t.pushes, job.user) == Flag(t.commits, job.user)
  {
    hide Run;
    var s := Run(schedule);
    longer := JobReads(schedule, pid, job);
    longer := JobEnds(longer, pid, job.attempt, job.user, |s.commits|, Flag(s.commits, job.user).value);
    Unlocked(s.locks, LockKey(job.user), pid);
  }

  /** Since `s` only processes that have ended came, but for one. */
  ghost predicate OthersEnded(s: State, t: State, but: Pid) {
    forall q :: q in t.processes && q != but && (q !in s.processes || t.processes[q] != s.processes[q]) ==> t.processes[q].Ended?
  }

  /** If the user was at rest before, they are again: only ended processes came, and no job is left. */
  lemma RestAgain(s: State, t: State, user: User, pid: Pid)
    requires t.queue == s.queue && OthersEnded(s, t, pid) && pid in t.processes && t.processes[pid].Ended?
    ensures AtRest(s, user) ==> AtRest(t, user)
  {
    assert InQueue(t, user) <==> InQueue(s, user);
  }

  lemma FlagPush(commits: seq<Commit>, c: Commit)
    ensures Flag(commits + [c], c.user) == Some(c.admin)
  {
  }

  lemma MirroredPush(pushes: seq<Push>, p: Push)
    ensures Mirrored(pushes + [p], p.user) == Some(p.admin)
  {
  }

  /** A grant and a revocation in turn, the first without its push; each queues a job if it changes the flag. */
  lemma GrantThenRevoke(schedule: seq<Event>, pid: Pid, user: User) returns (longer: seq<Event>)
    requires var s := Run(schedule);
             && pid !in s.processes && pid + 1 !in s.processes
             && LockKey(user) !in s.locks && Flag(s.commits, user).Some?
    ensures schedule <= longer
    ensures var s := Run(schedule); var t := Run(longer); var job := multiset{QueuedJob(user, 0)};
            && Flag(t.commits, user) == Some(false) && t.locks == s.locks && t.dropped == s.dropped
            && t.processes == s.processes[pid := GrantDue(user, |s.commits| + 1)][pid + 1 := Ended]
            && t.queue == (if Flag(s.commits, user) == Some(false) then s.queue + job + job else s.queue + job)
  {
    hide Run, Step, Flag, LastPush;
    var s := Run(schedule);
    var c, d := Commit(user, true, true, None, Flag(s.commits, user) == Some(false)), Commit(user, false, true, None, true);
    FlagPush(s.commits, c);
    FlagPush(s.commits + [c], d);
    longer := GrantAlone(schedule, pid, user);
    longer := RevokeAlone(longer, pid + 1, user);
  }

  /** The jobs that were queued run one after the other. */
  lemma JobsRun(schedule: seq<Event>, pid: Pid, user: User, twice: bool, queue: multiset<QueuedJob>) returns (longer: seq<Event>)
    requires var s := Run(schedule); var job := multiset{QueuedJob(user, 0)};
             && pid !in s.processes && pid + 1 !in s.processes
             && LockKey(user) !in s.locks && Flag(s.commits, user).Some?
             && s.queue == if twice then queue + job + job else queue + job
    ensures schedule <= longer
    ensures var s := Run(schedule); var t := Run(longer);
            && t.commits == s.commits && t.locks == s.locks && t.dropped == s.dropped && t.queue == queue
            && (t.processes == s.processes[pid := Ended] || t.processes == s.processes[pid := Ended][pid + 1 := Ended])
  {
    hide Run, Step, Flag, LastPush;
    var job := QueuedJob(user, 0);
    longer := JobAlone(schedule, pid, job);
    if twice {
      assert Run(longer).queue == queue + multiset{job};
      longer := JobAlone(longer, pid + 1, job);
    }
  }

  lemma GrantPushed(schedule: seq<Event>, pid: Pid, user: User, asOf: nat) returns (longer: seq<Event>)
    requires var s := Run(schedule); pid in s.processes && s.processes[pid] == GrantDue(user, asOf)
    ensures schedule <= longer
    ensures var s := Run(schedule);
            Run(longer) == With(s.(pushes := s.pushes + [Push(user, Grant, true, asOf, |s.commits|)]), pid, Ended)
  {
    hide Run;
    longer := Then(schedule, LateGrant(pid));
  }

  /**
   * A grant that is pushed late overwrites a newer revocation, after both of their jobs have run.
   * This can befall any user, after any schedule that leaves their lock free.
   */
  lemma LateGrantCanWin(schedule: seq<Event>, pid: Pid, user: User) returns (longer: seq<Event>)
    requires var s := Run(schedule);
             && (forall q :: pid <= q <= pid + 3 ==> q !in s.processes)
             && LockKey(user) !in s.locks && Flag(s.commits, user).Some?
    ensures schedule <= longer
    ensures var s := Run(schedule); var t := Run(longer);
            && Flag(t.commits, user) == Some(false) && Mirrored(t.pushes, user) == Some(true)
            && t.queue == s.queue && t.dropped == s.dropped && (AtRest(s, user) ==> AtRest(t, user))
  {
    hide Run, Step, Flag, Mirrored, AtRest;
    var s := Run(schedule);
    longer := GrantThenRevoke(schedule, pid, user);
    longer := JobsRun(longer, pid + 2, user, Flag(s.commits, user) == Some(false), s.queue);
    var u := Run(longer);
    longer := GrantPushed(longer, pid, user, |s.commits| + 1);
    MirroredPush(u.pushes, Push(user, Grant, true, |s.commits| + 1, |u.commits|));
    RestAgain(s, Run(longer), user, pid);
  }

  /**
   * A revocation is pushed before it is committed. If its transaction is then lost, the job that
   * it queued is lost with it: the homeserver has revoked what the database still grants.
   */
  lemma LostRevocationStays(schedule: seq<Event>, pid: Pid, user: User) returns (longer: seq<Event>)
    requires var s := Run(schedule);
             pid !in s.processes && LockKey(user) !in s.locks && Flag(s.commits, user) == Some(true)
    ensures schedule <= longer
    ensures var s := Run(schedule); var t := Run(longer);
            && t.commits == s.commits && Flag(t.commits, user) == Some(true) && Mirrored(t.pushes, user) == Some(false)
            && t.locks == s.locks && t.queue == s.queue && t.dropped == s.dropped && (AtRest(s, user) ==> AtRest(t, user))
  {
    hide Run, AtRest;
    var s := Run(schedule);
    longer := RevokeToPush(schedule, pid, user);
    longer := Then(longer, Abort(pid));
    Unlocked(s.locks, LockKey(user), pid);
    RestAgain(s, Run(longer), user, pid);
  }

  /** Whoever has updated the user's row has their lock. */
  lemma RowIsFree(schedule: seq<Event>, user: User)
    requires var s := Run(schedule);
             LockKey(user) in s.locks ==>
               s.locks[LockKey(user)] in s.processes && !s.processes[s.locks[LockKey(user)]].HoldsRow()
    ensures RowFree(Run(schedule), user)
  {
    hide Run;
    RunKeeps(schedule);
  }

  lemma Queued(schedule: seq<Event>, user: User) returns (longer: seq<Event>)
    ensures schedule <= longer
    ensures var s := Run(schedule); Run(longer) == s.(queue := s.queue + multiset{QueuedJob(user, 0)})
  {
    hide Run;
    longer := Then(schedule, Enqueue(user));
  }

  /** While a job has the lock the flag can be written without it. */
  lemma WrittenBetween(schedule: seq<Event>, pid: Pid, user: User, admin: bool) returns (longer: seq<Event>)
    requires var s := Run(schedule);
             && pid in s.processes && s.processes[pid].Reread?
             && LockKey(user) in s.locks && s.locks[LockKey(user)] == pid
    ensures schedule <= longer
    ensures Run(longer) == Committed(Run(schedule), Commit(user, admin, false, None, false))
  {
    hide Run, RowFree;
    RowIsFree(schedule, user);
    longer := Then(schedule, WriteWithoutLock(user, admin, false));
  }

  /**
   * A writer that takes no lock, such as the promotion on the command line, comes between a job's
   * second lookup and its push, and dies before it queues a job of its own. The job then pushes
   * the flag that was just replaced.
   */
  lemma UnlockedWriterMisleadsJob(schedule: seq<Event>, pid: Pid, user: User) returns (longer: seq<Event>)
    requires var s := Run(schedule);
             pid !in s.processes && LockKey(user) !in s.locks && Flag(s.commits, user).Some?
    ensures schedule <= longer
    ensures var s := Run(schedule); var t := Run(longer); var was := Flag(s.commits, user).value;
            && Flag(t.commits, user) == Some(!was) && Mirrored(t.pushes, user) == Some(was)
            && t.queue == s.queue && t.dropped == s.dropped && (AtRest(s, user) ==> AtRest(t, user))
            && |t.pushes| == |s.pushes| + 1 && t.pushes[|s.pushes|].origin.Job?
  {
    hide Run, Step, AtRest;
    var s := Run(schedule);
    var was := Flag(s.commits, user).value;
    longer := Queued(schedule, user);
    longer := JobReads(longer, pid, QueuedJob(user, 0));
    longer := WrittenBetween(longer, pid, user, !was);
    longer := JobEnds(longer, pid, 0, user, |s.commits|, was);
    assert Run(longer).queue == s.queue;
    RestAgain(s, Run(longer), user, pid);
  }

  lemma EditReads(schedule: seq<Event>, pid: Pid, user: User) returns (longer: seq<Event>)
    requires var s := Run(schedule); pid !in s.processes && Flag(s.commits, user).Some?
    ensures longer == schedule + [Spawn(pid, Edit, user), FirstLookup(pid)]
    ensures var s := Run(schedule);
            Run(longer) == With(s, pid, Editing(user, |s.commits|, Flag(s.commits, user).value))
  {
    hide Run;
    longer := Then(schedule, Spawn(pid, Edit, user));
    longer := Then(longer, FirstLookup(pid));
  }

  lemma EditWrites(schedule: seq<Event>, pid: Pid, user: User, seen: nat, admin: bool) returns (longer: seq<Event>)
    requires var s := Run(schedule);
             pid in s.processes && s.processes[pid] == Editing(user, seen, admin) && LockKey(user) !in s.locks
    ensures longer == schedule + [Finish(pid)]
    ensures var s := Run(schedule);
            Run(longer) == With(Committed(s, Commit(user, admin, false, Some(seen), false)), pid, Ended)
  {
    hide Run, RowFree;
    RowIsFree(schedule, user);
    longer := Then(schedule, Finish(pid));
  }

  /** An edit that has read the flag, and then a revocation with its job from start to end. */
  lemma RevokedMeanwhile(schedule: seq<Event>, pid: Pid, user: User) returns (longer: seq<Event>)
    requires var s := Run(schedule);
             && (forall q :: pid <= q <= pid + 2 ==> q !in s.processes)
             && LockKey(user) !in s.locks && Flag(s.commits, user) == Some(true)
    ensures schedule <= longer
    ensures var s := Run(schedule); var t := Run(longer);
            && t.commits == s.commits + [Commit(user, false, true, None, true)] && Mirrored(t.pushes, user) == Some(false)
            && t.locks == s.locks && t.queue == s.queue && t.dropped == s.dropped
            && t.processes == s.processes[pid := Editing(user, |s.commits|, true)][pid + 1 := Ended][pid + 2 := Ended]
  {
    hide Run, Step, Flag, Mirrored;
    var s := Run(schedule);
    FlagPush(s.commits, Commit(user, false, true, None, true));
    longer := EditReads(schedule, pid, user);
    longer := RevokeAlone(longer, pid + 1, user);
    assert Run(longer).processes == s.processes[pid := Editing(user, |s.commits|, true)][pid + 1 := Ended];
    longer := JobAlone(longer, pid + 2, QueuedJob(user, 0));
    assert s.queue + multiset{QueuedJob(user, 0)} - multiset{QueuedJob(user, 0)} == s.queue;
  }

  /**
   * A user edits their profile while they are being revoked: the edit has read the old flag and
   * writes it back. The revocation is undone, no job is queued, and the homeserver is not told.
   */
  lemma EditUndoesRevocation(schedule: seq<Event>, pid: Pid, user: User) returns (longer: seq<Event>)
    requires var s := Run(schedule);
             && (forall q :: pid <= q <= pid + 2 ==> q !in s.processes)
             && LockKey(user) !in s.locks && Flag(s.commits, user) == Some(true)
    ensures schedule <= longer
    ensures var s := Run(schedule); var t := Run(longer);
            && Flag(t.commits, user) == Some(true) && Mirrored(t.pushes, user) == Some(false)
            && t.queue == s.queue && t.dropped == s.dropped && (AtRest(s, user) ==> AtRest(t, user))
            && |t.commits| == |s.commits| + 2 && !t.commits[|s.commits|].admin && t.commits[|s.commits|].user == user
            && !Lasts(t.commits, |s.commits|, |t.commits|)
  {
    hide Run, Step, Flag, Mirrored, AtRest;
    var s := Run(schedule);
    longer := RevokedMeanwhile(schedule, pid, user);
    var c := Commit(user, true, false, Some(|s.commits|), false);
    FlagPush(Run(longer).commits, c);
    longer := EditWrites(longer, pid, user, |s.commits|, true);
    var t := Run(longer);
    assert t.commits[..|t.commits|] == t.commits;
    assert Flag(t.commits[..|t.commits|], t.commits[|s.commits|].user) != Some(false);
    RestAgain(s, t, user, pid);
  }
}

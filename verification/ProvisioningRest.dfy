/**
 * The queue of provisioning jobs, and what is left when a user has no job and no process any
 * more: exactly when the homeserver then holds the committed flag.
 */
module ProvisioningRest {
  import opened Wrappers
  import opened Provisioning

  ghost predicate InQueue(s: State, user: User) {
    exists j :: j in s.queue && j.user == user
  }

  /** A job that has yet to read the flag, or has read it after commit `k`. */
  predicate Serving(p: Process, user: User, k: nat) {
    && (p.Fresh? || p.LookedUp? || p.Locked? || p.Reread?) && p.kind.Provision? && p.user == user
    && (p.Reread? ==> p.seen > k)
  }

  ghost predicate Served(s: State, user: User, k: nat) {
    || InQueue(s, user)
    || (exists pid :: pid in s.processes && Serving(s.processes[pid], user, k))
    || (exists i :: 0 <= i < |s.pushes| && s.pushes[i].user == user && s.pushes[i].origin.Job? && s.pushes[i].asOf > k)
    || DroppedSince(s, user, k)
  }

  ghost predicate DroppedSince(s: State, user: User, k: nat) {
    exists i :: 0 <= i < |s.dropped| && s.dropped[i].user == user && s.dropped[i].at > k
  }

  ghost predicate AllServed(s: State) {
    forall k :: 0 <= k < |s.commits| && s.commits[k].queued ==> Served(s, s.commits[k].user, k)
  }

  /** A step of `pid` that takes no service away but its own, which it makes good. */
  lemma ServedStays(s: State, t: State, pid: Pid, user: User, k: nat)
    requires Served(s, user, k)
    requires InQueue(s, user) ==> Served(t, user, k)
    requires s.pushes <= t.pushes && s.dropped <= t.dropped
    requires forall q :: q in s.processes && q != pid ==> q in t.processes && t.processes[q] == s.processes[q]
    requires pid in s.processes && Serving(s.processes[pid], user, k) ==> Served(t, user, k)
    ensures Served(t, user, k)
  {
    if i :| 0 <= i < |s.pushes| && s.pushes[i].user == user && s.pushes[i].origin.Job? && s.pushes[i].asOf > k {
      assert t.pushes[i] == s.pushes[i];
    }
    if DroppedSince(s, user, k) {
      var i :| 0 <= i < |s.dropped| && s.dropped[i].user == user && s.dropped[i].at > k;
      assert t.dropped[i] == s.dropped[i];
    }
    if q :| q in s.processes && Serving(s.processes[q], user, k) {
      assert q != pid ==> Serving(t.processes[q], user, k);
    }
  }

  lemma QueueGrows(s: State, t: State, user: User)
    requires s.queue <= t.queue && InQueue(s, user)
    ensures InQueue(t, user)
  {
    var j :| j in s.queue && j.user == user;
    assert j in t.queue;
  }

  lemma CommitServes(s: State, c: Commit)
    requires AllServed(s)
    ensures AllServed(Committed(s, c))
  {
    var t := Committed(s, c);
    forall k | 0 <= k < |t.commits| && t.commits[k].queued ensures Served(t, t.commits[k].user, k) {
      if k == |s.commits| {
        assert QueuedJob(c.user, 0) in t.queue;
      } else {
        if InQueue(s, t.commits[k].user) { QueueGrows(s, t, t.commits[k].user); }
        ServedStays(s, t, 0, t.commits[k].user, k);
      }
    }
  }

  lemma FailureServes(s: State, user: User, attempt: nat, k: nat)
    requires k < |s.commits|
    ensures Served(Failed(s, user, attempt), user, k)
  {
    var t := Failed(s, user, attempt);
    if attempt < MAX_ATTEMPTS {
      assert QueuedJob(user, attempt + 1) in t.queue;
    } else {
      assert t.dropped[|s.dropped|] == Dropped(user, |s.commits|);
    }
  }

  /** A step of a process without a commit. */
  lemma MoveServes(s: State, t: State, pid: Pid)
    requires AllServed(s) && t.commits == s.commits
    requires s.queue <= t.queue && s.pushes <= t.pushes && s.dropped <= t.dropped
    requires forall q :: q in s.processes && q != pid ==> q in t.processes && t.processes[q] == s.processes[q]
    requires pid in s.processes ==>
               forall k :: 0 <= k < |s.commits| && Serving(s.processes[pid], s.commits[k].user, k) ==> Served(t, s.commits[k].user, k)
    ensures AllServed(t)
  {
    forall k | 0 <= k < |t.commits| && t.commits[k].queued ensures Served(t, t.commits[k].user, k) {
      if InQueue(s, t.commits[k].user) { QueueGrows(s, t, t.commits[k].user); }
      ServedStays(s, t, pid, t.commits[k].user, k);
    }
  }

  lemma TakeServes(s: State, pid: Pid, job: QueuedJob)
    requires AllServed(s)
    ensures AllServed(Step(s, Take(pid, job)))
  {
    var t := Step(s, Take(pid, job));
    if pid !in s.processes && job in s.queue {
      forall k | 0 <= k < |t.commits| && t.commits[k].queued ensures Served(t, t.commits[k].user, k) {
        var user := t.commits[k].user;
        if job.user == user {
          assert Serving(t.processes[pid], user, k);
        } else if InQueue(s, user) {
          var j :| j in s.queue && j.user == user;
          assert j in t.queue;
        }
        ServedStays(s, t, pid, user, k);
      }
    }
  }

  lemma {:induction false} FlagOfCommit(commits: seq<Commit>, k: nat)
    requires k < |commits|
    ensures Flag(commits, commits[k].user).Some?
  {
    if k < |commits| - 1 { FlagOfCommit(commits[..|commits| - 1], k); }
  }

  lemma LookupServes(s: State, e: Event, pid: Pid)
    requires AllServed(s) && pid in s.processes && (e.FirstLookup? || e.LookupAgain?)
    ensures AllServed(StepProcess(s, e, pid, s.processes[pid]))
  {
    hide AllServed;
    var p := s.processes[pid];
    var t := StepProcess(s, e, pid, p);
    forall k | 0 <= k < |s.commits| && Serving(p, s.commits[k].user, k) ensures Served(t, s.commits[k].user, k) {
      FlagOfCommit(s.commits, k);
      assert Serving(t.processes[pid], s.commits[k].user, k);
    }
    MoveServes(s, t, pid);
  }

  lemma PushServes(s: State, pid: Pid)
    requires AllServed(s) && pid in s.processes
    ensures AllServed(StepProcess(s, CallHomeserver(pid), pid, s.processes[pid]))
  {
    hide AllServed;
    var p := s.processes[pid];
    var t := StepProcess(s, CallHomeserver(pid), pid, p);
    forall k | 0 <= k < |s.commits| && Serving(p, s.commits[k].user, k) ensures Served(t, s.commits[k].user, k) {
      if p.Reread? {
        assert t.pushes[|s.pushes|] == Push(p.user, Job, p.admin, p.seen, |s.commits|);
      } else {
        assert Serving(t.processes[pid], s.commits[k].user, k);
      }
    }
    MoveServes(s, t, pid);
  }

  lemma AbortServes(s: State, pid: Pid)
    requires AllServed(s) && pid in s.processes && !s.processes[pid].Ended?
    ensures AllServed(Aborted(s, pid, s.processes[pid]))
  {
    hide AllServed;
    var p := s.processes[pid];
    var t := Aborted(s, pid, p);
    forall k | 0 <= k < |s.commits| && Serving(p, s.commits[k].user, k) ensures Served(t, s.commits[k].user, k) {
      var f := Failed(s, p.user, p.kind.attempt);
      FailureServes(s, p.user, p.kind.attempt, k);
      assert t.queue == f.queue && t.dropped == f.dropped && t.pushes == f.pushes;
      if p.kind.attempt < MAX_ATTEMPTS {
        assert QueuedJob(p.user, p.kind.attempt + 1) in t.queue;
      } else {
        assert t.dropped[|s.dropped|] == Dropped(p.user, |s.commits|);
      }
    }
    MoveServes(s, t, pid);
  }

  lemma FinishServes(s: State, pid: Pid)
    requires AllServed(s) && pid in s.processes
    ensures AllServed(StepProcess(s, Finish(pid), pid, s.processes[pid]))
  {
    hide AllServed;
    var p := s.processes[pid];
    var t := StepProcess(s, Finish(pid), pid, p);
    match p
    case ReadyToCommit(user, c, grant) =>
      CommitServes(s, c);
      MoveServes(Committed(s, c), t, pid);
    case Editing(user, seen, admin) =>
      if RowFree(s, user) {
        var c := Commit(user, admin, false, Some(seen), false);
        CommitServes(s, c);
        MoveServes(Committed(s, c), t, pid);
      }
    case Pushed(_, _) => MoveServes(s, t, pid);
    case _ =>
  }

  /** A lock that is taken, a flag that is written, a late grant: no service is lost. */
  lemma RestServes(s: State, e: Event, pid: Pid)
    requires AllServed(s) && pid in s.processes && (e.Acquire? || e.WriteFlag? || e.LateGrant?)
    ensures AllServed(StepProcess(s, e, pid, s.processes[pid]))
  {
    hide AllServed;
    var p := s.processes[pid];
    var t := StepProcess(s, e, pid, p);
    forall k | 0 <= k < |s.commits| && Serving(p, s.commits[k].user, k) ensures Served(t, s.commits[k].user, k) {
      assert Serving(t.processes[pid], s.commits[k].user, k);
    }
    MoveServes(s, t, pid);
  }

  lemma StepServes(s: State, e: Event)
    requires AllServed(s)
    ensures AllServed(Step(s, e))
  {
    hide AllServed, StepProcess;
    match e
    case Spawn(pid, kind, user) => MoveServes(s, Step(s, e), pid);
    case Take(pid, job) => TakeServes(s, pid, job);
    case WriteWithoutLock(user, admin, queued) => CommitServes(s, Commit(user, admin, false, None, queued));
    case Enqueue(user) => MoveServes(s, Step(s, e), 0);
    case _ =>
      var pid := e.pid;
      if pid in s.processes {
        match e
        case FirstLookup(_) => LookupServes(s, e, pid);
        case LookupAgain(_) => LookupServes(s, e, pid);
        case CallHomeserver(_) => PushServes(s, pid);
        case Finish(_) => FinishServes(s, pid);
        case Abort(_) => AbortStepServes(s, pid);
        case _ => RestServes(s, e, pid);
      }
  }

  lemma AbortStepServes(s: State, pid: Pid)
    requires AllServed(s) && pid in s.processes
    ensures AllServed(StepProcess(s, Abort(pid), pid, s.processes[pid]))
  {
    hide AllServed, Aborted;
    if !s.processes[pid].Ended? { AbortServes(s, pid); }
  }

  /** In every schedule each commit that queued a job has one pending, or was pushed, or its job was given up. */
  lemma {:induction false} EveryCommitServed(schedule: seq<Event>)
    ensures AllServed(Run(schedule))
  {
    hide Step;
    if schedule != [] {
      EveryCommitServed(schedule[..|schedule| - 1]);
      StepServes(Run(schedule[..|schedule| - 1]), schedule[|schedule| - 1]);
    }
  }

  // At rest

  /** No job of the user is queued and no process of theirs is under way. */
  ghost predicate AtRest(s: State, user: User) {
    && !InQueue(s, user)
    && forall pid :: pid in s.processes && !s.processes[pid].Ended? ==> s.processes[pid].user != user
  }

  /** The commit is about the user and changed their flag. */
  ghost predicate Changes(commits: seq<Commit>, user: User, k: nat)
    requires k < |commits|
  {
    commits[k].user == user && Flag(commits[..k], user) != Some(commits[k].admin)
  }

  /** No job was queued for the commit, or one that came after it was given up. */
  ghost predicate Unheard(s: State, k: nat)
    requires k < |s.commits|
  {
    !s.commits[k].queued || DroppedSince(s, s.commits[k].user, k)
  }

  /** A grant pushed late, after a commit that revoked. */
  ghost predicate OvertakenGrant(s: State, p: Push)
    requires p.asOf <= |s.commits|
  {
    p.origin.Grant? && LastIn(s.commits, p.asOf, |s.commits|, p.user) == Some(false)
  }

  /** A revocation pushed that was not committed, nor another one since. */
  ghost predicate LostRevocation(s: State, p: Push)
    requires p.asOf <= |s.commits|
  {
    p.origin.Revocation? && LastIn(s.commits, p.asOf, |s.commits|, p.user) != Some(false)
  }

  /** A job's push, after whose reading the other flag was committed. */
  ghost predicate OvertakenJob(s: State, p: Push)
    requires p.asOf <= |s.commits|
  {
    p.origin.Job? && LastIn(s.commits, p.asOf, |s.commits|, p.user) == Some(!p.admin)
  }

  lemma HeardIsPushed(schedule: seq<Event>, user: User, k: nat) returns (i: nat)
    requires var s := Run(schedule);
             AtRest(s, user) && k < |s.commits| && s.commits[k].user == user && !Unheard(s, k)
    ensures var s := Run(schedule);
            i < |s.pushes| && s.pushes[i].user == user && s.pushes[i].origin.Job? && s.pushes[i].asOf > k
  {
    hide Run;
    EveryCommitServed(schedule);
    var s := Run(schedule);
    assert Served(s, user, k);
    i :| 0 <= i < |s.pushes| && s.pushes[i].user == user && s.pushes[i].origin.Job? && s.pushes[i].asOf > k;
  }

  /** At rest, nothing was committed and heard of after the reading of a last push that is no grant. */
  lemma NewsIsUnheard(schedule: seq<Event>, user: User, p: Push, k: nat)
    requires var s := Run(schedule);
             AtRest(s, user) && LastPush(s.pushes, user) == Some(p) && !p.origin.Grant?
             && p.asOf <= k < |s.commits| && s.commits[k].user == user
    ensures Unheard(Run(schedule), k)
  {
    hide Run;
    var s := Run(schedule);
    RunKeeps(schedule);
    var i := LastPushAt(s.pushes, user);
    if !Unheard(s, k) {
      var _ := HeardIsPushed(schedule, user, k);
    }
  }

  lemma LastPushSound(schedule: seq<Event>, user: User)
    requires LastPush(Run(schedule).pushes, user).Some?
    ensures var s := Run(schedule); var p := LastPush(s.pushes, user).value;
            p.user == user && PushSound(s.commits, p)
  {
    hide Run;
    RunKeeps(schedule);
    var i := LastPushAt(Run(schedule).pushes, user);
    assert PushSound(Run(schedule).commits, Run(schedule).pushes[i]);
  }

  /**
   * At rest the homeserver holds the committed flag if and only if the last push for the user is
   * neither an overtaken grant, nor a lost revocation, nor an overtaken job. In the last two
   * cases nothing that was committed since its reading was heard of.
   */
  lemma RestExactly(schedule: seq<Event>, user: User)
    requires var s := Run(schedule); AtRest(s, user) && LastPush(s.pushes, user).Some?
    ensures var s := Run(schedule); var p := LastPush(s.pushes, user).value;
            && p.asOf <= |s.commits|
            && (Mirrored(s.pushes, user) == Flag(s.commits, user) <==>
                  !OvertakenGrant(s, p) && !LostRevocation(s, p) && !OvertakenJob(s, p))
            && (!p.origin.Grant? ==>
                  forall k :: p.asOf <= k < |s.commits| && s.commits[k].user == user ==> Unheard(s, k))
  {
    hide Run;
    var s := Run(schedule);
    var p := LastPush(s.pushes, user).value;
    LastPushSound(schedule, user);
    MirrorAgreesExactly(schedule, user);
    if !p.origin.Grant? {
      forall k | p.asOf <= k < |s.commits| && s.commits[k].user == user ensures Unheard(s, k) {
        NewsIsUnheard(schedule, user, p, k);
      }
    }
  }

  /** A user at rest for whom nothing was ever pushed was never heard of. */
  lemma NeverHeardOf(schedule: seq<Event>, user: User)
    requires var s := Run(schedule); AtRest(s, user) && LastPush(s.pushes, user).None?
    ensures var s := Run(schedule);
            forall k :: 0 <= k < |s.commits| && s.commits[k].user == user ==> Unheard(s, k)
  {
    hide Run;
    var s := Run(schedule);
    forall k | 0 <= k < |s.commits| && s.commits[k].user == user ensures Unheard(s, k) {
      if !Unheard(s, k) {
        var i := HeardIsPushed(schedule, user, k);
        SomePush(s.pushes, user, i);
      }
    }
  }

  /** Every change of the user's flag queued a job, and none of their jobs was given up since. */
  ghost predicate AllHeard(s: State, user: User) {
    forall k :: 0 <= k < |s.commits| && Changes(s.commits, user, k) ==> !Unheard(s, k)
  }

  lemma {:induction false} UnchangedFlag(commits: seq<Commit>, from: nat, to: nat, user: User)
    requires from <= to <= |commits| && forall k :: from <= k < to ==> !Changes(commits, user, k)
    ensures Flag(commits[..from], user) == Flag(commits[..to], user)
    decreases (to)
  {
    if from < to {
      UnchangedFlag(commits, from, to - 1, user);
      FlagAfter(commits, to - 1, user);
      assert !Changes(commits, user, to - 1);
    }
  }

  /**
   * When every change was heard of, the user at rest is mirrored unless the last push was a
   * revocation, which then was lost, or a grant and the flag is down.
   */
  lemma HeardRestExactly(schedule: seq<Event>, user: User)
    requires var s := Run(schedule); AtRest(s, user) && AllHeard(s, user) && Flag(s.commits, user).Some?
    ensures var s := Run(schedule);
            && LastPush(s.pushes, user).Some?
            && var p := LastPush(s.pushes, user).value;
               && (Mirrored(s.pushes, user) == Flag(s.commits, user) <==>
                     !p.origin.Revocation? && !(p.origin.Grant? && Flag(s.commits, user) == Some(false)))
               && (p.origin.Revocation? ==> Flag(s.commits, user) == Some(true))
  {
    hide Run;
    var s := Run(schedule);
    assert s.commits[..|s.commits|] == s.commits;
    var first := FirstChange(s.commits, user);
    var i := HeardIsPushed(schedule, user, first);
    SomePush(s.pushes, user, i);
    var p := LastPush(s.pushes, user).value;
    LastPushSound(schedule, user);
    MirrorAgreesExactly(schedule, user);
    FlagAcross(s.commits, p.asOf, |s.commits|, user);
    if !p.origin.Grant? {
      forall k | p.asOf <= k < |s.commits| ensures !Changes(s.commits, user, k) {
        if Changes(s.commits, user, k) { NewsIsUnheard(schedule, user, p, k); }
      }
      UnchangedFlag(s.commits, p.asOf, |s.commits|, user);
    }
  }

  lemma {:induction false} FirstChange(commits: seq<Commit>, user: User) returns (k: nat)
    requires Flag(commits, user).Some?
    ensures k < |commits| && Changes(commits, user, k)
  {
    var last := |commits| - 1;
    if Flag(commits[..last], user).Some? {
      k := FirstChange(commits[..last], user);
      assert commits[..last][..k] == commits[..k];
    } else {
      k := last;
    }
  }

  lemma {:induction false} SomePush(pushes: seq<Push>, user: User, i: nat)
    requires i < |pushes| && pushes[i].user == user
    ensures LastPush(pushes, user).Some?
  {
    if pushes[|pushes| - 1].user != user { SomePush(pushes[..|pushes| - 1], user, i); }
  }
}

/** The lock and recovery together: when every schedule of runs towards one configuration converges. */
module SyncSafety {
  import opened SyncTables
  import opened SyncPlan
  import opened SyncSettled
  import opened SyncSteps
  import opened SyncHeal
  import SyncLock
  import SyncManual
  import SyncSchedules

  /** A run of it works towards the goal; the clock, the nonces and the listing order are its own. */
  ghost predicate Towards(task: Task, g: Goal) {
    task.providers == g.providers && task.clients == g.clients && task.prune == g.prune && !task.dryRun
  }

  function Attempts(h: seq<SyncLock.Block>): (r: seq<Attempt>)
    ensures |r| == |h|
    ensures forall i :: 0 <= i < |h| ==> r[i] == Attempt(h[i].task.stamp, |h[i].ops|)
  {
    seq(|h|, i requires 0 <= i < |h| => Attempt(h[i].task.stamp, |h[i].ops|))
  }

  lemma BlockIsAttempt(b: SyncLock.Block, g: Goal)
    requires SyncLock.Sound(b) && Towards(b.task, g)
    ensures Cut(PlanFor(b.start, g, b.task.stamp).ops, |b.ops|) == b.ops
  {
    assert Whole(b.start, b.task) == PlanFor(b.start, g, b.task.stamp);
  }

  /** A serial history of runs towards the goal is a series of attempts. */
  lemma {:induction false} HistoryIsAttempts(first: Tables, h: seq<SyncLock.Block>, now: Tables, g: Goal)
    requires SyncLock.Chain(first, h, now)
    requires forall i :: 0 <= i < |h| ==> SyncLock.Sound(h[i]) && Towards(h[i].task, g)
    ensures now == AfterAttempts(first, g, Attempts(h))
  {
    hide PlanFor, Run, SyncLock.Sound;
    if |h| > 0 {
      var front, b := h[..|h| - 1], h[|h| - 1];
      HistoryIsAttempts(first, front, b.start, g);
      assert Attempts(h)[..|h| - 1] == Attempts(front);
      BlockIsAttempt(b, g);
    }
  }

  /** All runs so far worked towards the goal, and the last to take the lock has finished. */
  ghost predicate Settles(first: Tables, events: seq<SyncLock.Event>, g: Goal) {
    var h := SyncLock.RunAll(first, events).history;
    && (forall i :: 0 <= i < |h| ==> Towards(h[i].task, g))
    && |h| > 0 && h[|h| - 1].status.Finished?
  }

  /**
   * However many runs towards one configuration there are, on whatever connections, and wherever
   * any of them fail: from sheltered tables, when the last to take the lock has finished, the
   * tables are what one undisturbed run would have left, but for times and ciphertexts.
   */
  lemma RunsConverge(first: Tables, events: seq<SyncLock.Event>, g: Goal, straight: Tables, stamp: Stamp)
    requires Sheltered(first, g) && CompletedFor(first, straight, g, stamp) && Settles(first, events, g)
    ensures SameOutcomes(straight, SyncLock.RunAll(first, events).tables)
  {
    hide Sheltered, SameOutcomes, Run, Completed, SyncLock.RunAll;
    var s := SyncLock.RunAll(first, events);
    var front, b := s.history[..|s.history| - 1], s.history[|s.history| - 1];
    SyncLock.HistoryStaysOk(first, events);
    HistoryIsAttempts(first, front, b.start, g);
    SyncLock.RunsAreSerial(first, events);
    FailedRunsHeal(first, g, Attempts(front), straight, stamp, s.tables, b.task.stamp);
  }

  ghost predicate EntriesLoad(cfg: seq<ProviderConfig>, n: nat, manual: set<Id>)
    requires n <= |cfg|
  {
    forall i :: 0 <= i < n && cfg[i].enabled ==> cfg[i].secretLoads && (cfg[i].id in manual || cfg[i].scopeParses)
  }

  ghost predicate ClientsLoad(cfg: seq<ClientConfig>, n: nat)
    requires n <= |cfg|
  {
    forall i :: 0 <= i < n ==> cfg[i].secretLoads && cfg[i].keysAgree
  }

  /** Every entry loads and parses, as far as it is needed beside the manual rows. */
  ghost predicate Loads(t: Tables, g: Goal) {
    EntriesLoad(g.providers, |g.providers|, ManualIds(t.providers)) && ClientsLoad(g.clients, |g.clients|)
  }

  lemma {:induction false} FaultExactly(cfg: seq<ProviderConfig>, n: nat, manual: set<Id>, stamp: Stamp)
    requires n <= |cfg|
    ensures Upserts(cfg, n, manual, stamp).fault <==> !EntriesLoad(cfg, n, manual)
  {
    if n > 0 {
      FaultExactly(cfg, n - 1, manual, stamp);
      var c := cfg[n - 1];
      assert EntriesLoad(cfg, n, manual) <==>
             EntriesLoad(cfg, n - 1, manual) && (c.enabled ==> c.secretLoads && (c.id in manual || c.scopeParses));
    }
  }

  lemma {:induction false} ClientFaultExactly(cfg: seq<ClientConfig>, n: nat, stamp: Stamp)
    requires n <= |cfg|
    ensures ClientUpserts(cfg, n, stamp).fault <==> !ClientsLoad(cfg, n)
  {
    if n > 0 {
      ClientFaultExactly(cfg, n - 1, stamp);
      assert ClientsLoad(cfg, n) <==> ClientsLoad(cfg, n - 1) && cfg[n - 1].secretLoads && cfg[n - 1].keysAgree;
    }
  }

  function TaskFor(g: Goal, stamp: Stamp): Task {
    Task(g.providers, g.clients, g.prune, false, stamp)
  }

  /** A run goes through if and only if the configuration loads. */
  lemma PlanLoads(x: Tables, g: Goal, stamp: Stamp)
    ensures Whole(x, TaskFor(g, stamp)).fault <==> !Loads(x, g)
    ensures Whole(x, TaskFor(g, stamp)) == PlanFor(x, g, stamp)
  {
    FaultExactly(g.providers, |g.providers|, ManualIds(x.providers), stamp);
    ClientFaultExactly(g.clients, |g.clients|, stamp);
  }

  /** Where a run has finished the configuration loads: that depends on nothing a run changes. */
  lemma FinishedLoads(first: Tables, events: seq<SyncLock.Event>, g: Goal)
    requires Settles(first, events, g)
    ensures Loads(first, g)
  {
    hide Whole, Run, EntriesLoad, ClientsLoad, SyncLock.RunAll;
    var s := SyncLock.RunAll(first, events);
    var front, b := s.history[..|s.history| - 1], s.history[|s.history| - 1];
    SyncLock.HistoryStaysOk(first, events);
    assert SyncLock.Sound(b);
    SyncManual.ChainSpares(first, front, b.start);
    assert b.task == TaskFor(g, b.task.stamp);
    PlanLoads(b.start, g, b.task.stamp);
  }

  /** One attempt, run on its own and cut off. */
  lemma AttemptHappens(s: SyncLock.State, g: Goal, a: Attempt) returns (events: seq<SyncLock.Event>)
    requires SyncSchedules.Idle(s, 0)
    ensures var t := SyncSchedules.Continue(s, events);
            && SyncSchedules.Idle(t, 0) && t.tables == AfterAttempt(s.tables, g, a)
            && |t.history| == |s.history| + 1 && t.history[..|s.history|] == s.history
            && Towards(t.history[|s.history|].task, g)
  {
    hide PlanFor, Run;
    var k := TaskFor(g, a.stamp);
    assert Whole(s.tables, k) == PlanFor(s.tables, g, a.stamp) by { SamePlan(s.tables, g, a.stamp); }
    var ops := PlanFor(s.tables, g, a.stamp).ops;
    var n := if |ops| <= a.budget then |ops| else a.budget;
    assert ops[..n] == Cut(ops, a.budget);
    events := SyncSchedules.BreakOff(s, 0, k, n);
  }

  lemma SamePlan(x: Tables, g: Goal, stamp: Stamp)
    ensures Whole(x, TaskFor(g, stamp)) == PlanFor(x, g, stamp)
  {
  }

  /** Every series of attempts is what some schedule does. */
  lemma {:induction false} AttemptsHappen(first: Tables, g: Goal, attempts: seq<Attempt>) returns (events: seq<SyncLock.Event>)
    ensures var s := SyncLock.RunAll(first, events);
            && SyncSchedules.Idle(s, 0) && s.tables == AfterAttempts(first, g, attempts)
            && forall i :: 0 <= i < |s.history| ==> Towards(s.history[i].task, g)
  {
    hide AfterAttempt, SyncLock.Step;
    if |attempts| == 0 {
      events := [];
    } else {
      var before := AttemptsHappen(first, g, attempts[..|attempts| - 1]);
      var s := SyncLock.RunAll(first, before);
      var more := AttemptHappens(s, g, attempts[|attempts| - 1]);
      SyncSchedules.RunAllAppend(first, before, more);
      events := before + more;
      var t := SyncLock.RunAll(first, events);
      forall i | 0 <= i < |t.history| ensures Towards(t.history[i].task, g) {
        assert i < |s.history| ==> t.history[i] == s.history[i];
      }
    }
  }

  /** From tables that are not sheltered, two runs in a row can end differently than one. */
  lemma ScheduleHarms(first: Tables, g: Goal, straight: Tables, stamp: Stamp) returns (events: seq<SyncLock.Event>)
    requires !Sheltered(first, g) && Loads(first, g) && CompletedFor(first, straight, g, stamp)
    ensures Settles(first, events, g) && !SameOutcomes(straight, SyncLock.RunAll(first, events).tables)
  {
    hide Sheltered, SameOutcomes, Run, PlanFor, Whole, SyncLock.Step, EntriesLoad, ClientsLoad;
    var attempts := [Interrupted(first, g, stamp)];
    var before := AttemptsHappen(first, g, attempts);
    var x := SyncLock.RunAll(first, before);
    SyncManual.ManualRowsSurvive(first, before);
    PlanLoads(x.tables, g, stamp);
    var more := SyncSchedules.GoThrough(x, 0, TaskFor(g, stamp));
    SyncSchedules.RunAllAppend(first, before, more);
    events := before + more;
    var s := SyncLock.RunAll(first, events);
    PlanCompletes(x.tables, g, stamp);
    InterruptedHarms(first, g, stamp, straight, stamp, s.tables, stamp);
    forall i | 0 <= i < |s.history| ensures Towards(s.history[i].task, g) {
      assert i < |x.history| ==> s.history[i] == x.history[i];
    }
  }

  lemma PlanCompletes(x: Tables, g: Goal, stamp: Stamp)
    requires !PlanFor(x, g, stamp).fault
    ensures CompletedFor(x, Run(x, PlanFor(x, g, stamp).ops), g, stamp)
  {
    hide Run;
    PlannedSettles(x, g.providers, g.clients, g.prune, stamp);
  }

  ghost predicate Converges(first: Tables, events: seq<SyncLock.Event>, g: Goal, straight: Tables) {
    Settles(first, events, g) ==> SameOutcomes(straight, SyncLock.RunAll(first, events).tables)
  }

  /** All schedules converge exactly from sheltered tables, unless no run can finish at all. */
  lemma ConvergesExactly(first: Tables, g: Goal, straight: Tables, stamp: Stamp)
    requires CompletedFor(first, straight, g, stamp)
    ensures (forall events :: Converges(first, events, g, straight)) <==> Sheltered(first, g) || !Loads(first, g)
  {
    hide Sheltered, Settles, SameOutcomes, Loads, CompletedFor;
    if Sheltered(first, g) || !Loads(first, g) {
      forall events ensures Converges(first, events, g, straight) {
        if Settles(first, events, g) {
          FinishedLoads(first, events, g);
          RunsConverge(first, events, g, straight, stamp);
        }
      }
    } else {
      var events := ScheduleHarms(first, g, straight, stamp);
      assert !Converges(first, events, g, straight);
    }
  }
}

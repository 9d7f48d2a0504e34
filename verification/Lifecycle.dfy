/**
 * The two-stage shutdown of the service on Unix, with the signals, tasks and clock around it.
 * Time never runs past a deadline the manager is waiting for: it acts when the deadline comes.
 */
module Lifecycle {

  datatype Config = Config(timeout: nat, hardTimeout: nat, reloadTimeout: nat)

  datatype Phase =
    | Serving
    | Reloading(deadline: nat)
    | Draining(left: nat, deadline: nat, crashed: bool)
    | Aborting(left: nat, deadline: nat, crashed: bool)
    | Exited(left: nat, at: nat, crashed: bool, drained: bool)

  datatype State = State(
    now: nat, soft: bool, hard: bool, closed: bool, tasks: set<nat>,
    term: bool, interrupt: bool, hup: bool, phase: Phase)

  datatype Signal = Term | Int | Hup

  /** The branch of a `select!` that the manager takes. */
  datatype Branch = SoftCancelled | SignalReceived(signal: Signal) | WatchdogTick | ReloadDone | TimedOut | AllDone

  datatype Event =
    | Tick(amount: nat)
    | Raise(signal: Signal)
    | Spawn(task: nat)
    | End(task: nat)
    | CancelSoft
    | CancelHard
    | Manager(branch: Branch)

  const Initial := State(0, false, false, false, {}, false, false, false, Serving)

  predicate Pending(s: State, signal: Signal) {
    match signal case Term => s.term case Int => s.interrupt case Hup => s.hup
  }

  function SetPending(s: State, signal: Signal, pending: bool): State {
    match signal
    case Term => s.(term := pending)
    case Int => s.(interrupt := pending)
    case Hup => s.(hup := pending)
  }

  predicate Due(s: State) {
    match s.phase
    case Reloading(deadline) => s.now >= deadline
    case Draining(_, deadline, _) => s.now >= deadline
    case Aborting(_, deadline, _) => s.now >= deadline
    case _ => false
  }

  /** How far the clock may run before the manager has to act. */
  predicate MayTick(s: State, d: nat) {
    match s.phase
    case Reloading(deadline) => s.now + d <= deadline
    case Draining(_, deadline, _) => s.now + d <= deadline
    case Aborting(_, deadline, _) => s.now + d <= deadline
    case _ => true
  }

  predicate Drained(s: State) {
    s.closed && s.tasks == {}
  }

  function LeaveLoop(c: Config, s: State, crashed: bool): State {
    s.(soft := true, closed := true, phase := Draining(s.now, s.now + c.timeout, crashed))
  }

  /** The soft token is a child of the hard one. */
  function Abort(c: Config, s: State): State {
    if s.phase.Draining?
    then s.(hard := true, soft := true, phase := Aborting(s.phase.left, s.now + c.hardTimeout, s.phase.crashed))
    else s
  }

  function Take(c: Config, s: State, b: Branch): State {
    match s.phase
    case Serving =>
      if b.SoftCancelled? && s.soft then LeaveLoop(c, s, true)
      else if b.SignalReceived? && Pending(s, b.signal) then
        var t := SetPending(s, b.signal, false);
        if b.signal.Hup? then t.(phase := Reloading(s.now + c.reloadTimeout)) else LeaveLoop(c, t, false)
      else s
    case Reloading(_) =>
      if b.ReloadDone? || (b.TimedOut? && Due(s)) then s.(phase := Serving) else s
    case Draining(_, _, _) =>
      if b.SignalReceived? && !b.signal.Hup? && Pending(s, b.signal) then Abort(c, SetPending(s, b.signal, false))
      else if (b.TimedOut? && Due(s)) || (b.AllDone? && Drained(s)) then Abort(c, s)
      else s
    case Aborting(left, _, crashed) =>
      if b.AllDone? && Drained(s) then s.(phase := Exited(left, s.now, crashed, true))
      else if b.TimedOut? && Due(s) then s.(phase := Exited(left, s.now, crashed, false))
      else s
    case Exited(_, _, _, _) => s
  }

  function Step(c: Config, s: State, e: Event): State {
    match e
    case Tick(d) => if MayTick(s, d) then s.(now := s.now + d) else s
    case Raise(signal) => SetPending(s, signal, true)
    case Spawn(task) => s.(tasks := s.tasks + {task})
    case End(task) => s.(tasks := s.tasks - {task})
    case CancelSoft => s.(soft := true)
    case CancelHard => s.(hard := true, soft := true)
    case Manager(branch) => Take(c, s, branch)
  }

  function Run(c: Config, events: seq<Event>): State {
    if events == [] then Initial else Step(c, Run(c, events[..|events| - 1]), events[|events| - 1])
  }

  // What each branch does, in every state

  /** Leaving the loop: both the soft token and the tracker are closed, and the grace period starts now. */
  ghost predicate StartsDraining(c: Config, s: State, t: State, crashed: bool) {
    && t.phase == Draining(s.now, s.now + c.timeout, crashed) && t.soft && t.closed
    && t.hard == s.hard && t.now == s.now && t.tasks == s.tasks
  }

  /** While serving, a signal to stop or a cancelled token leaves the loop. */
  lemma ServingLeaves(c: Config, s: State)
    requires s.phase.Serving?
    ensures s.term ==> var t := Step(c, s, Manager(SignalReceived(Term)));
              StartsDraining(c, s, t, false) && !t.term && t.interrupt == s.interrupt && t.hup == s.hup
    ensures s.interrupt ==> var t := Step(c, s, Manager(SignalReceived(Int)));
              StartsDraining(c, s, t, false) && !t.interrupt && t.term == s.term && t.hup == s.hup
    ensures s.soft ==> var t := Step(c, s, Manager(SoftCancelled));
              StartsDraining(c, s, t, true) && t.term == s.term && t.interrupt == s.interrupt && t.hup == s.hup
  {
  }

  /** A hangup starts a reload. */
  lemma ServingGoesOn(c: Config, s: State)
    requires s.phase.Serving?
    ensures s.hup ==>
              Step(c, s, Manager(SignalReceived(Hup))) == s.(hup := false, phase := Reloading(s.now + c.reloadTimeout))
    ensures Step(c, s, Manager(WatchdogTick)) == s
  {
  }

  /** A reload ends when it is done, or at its deadline, and serving goes on. */
  lemma ReloadingReacts(c: Config, s: State)
    requires s.phase.Reloading?
    ensures Step(c, s, Manager(ReloadDone)) == s.(phase := Serving)
    ensures s.now >= s.phase.deadline ==> Step(c, s, Manager(TimedOut)) == s.(phase := Serving)
    ensures s.now < s.phase.deadline ==> Step(c, s, Manager(TimedOut)) == s
  {
  }

  /** The hard token goes too, and the second grace period starts now. */
  ghost predicate StartsAborting(c: Config, s: State, t: State)
    requires s.phase.Draining?
  {
    && t.phase == Aborting(s.phase.left, s.now + c.hardTimeout, s.phase.crashed) && t.soft && t.hard
    && t.closed == s.closed && t.now == s.now && t.tasks == s.tasks
  }

  /** The drain ends with a second signal, at its deadline, or when no task is left. */
  lemma DrainingReacts(c: Config, s: State)
    requires s.phase.Draining?
    ensures s.term ==> var t := Step(c, s, Manager(SignalReceived(Term))); StartsAborting(c, s, t) && !t.term
    ensures s.interrupt ==> var t := Step(c, s, Manager(SignalReceived(Int))); StartsAborting(c, s, t) && !t.interrupt
    ensures var t := Step(c, s, Manager(TimedOut)); if s.now >= s.phase.deadline then StartsAborting(c, s, t) else t == s
    ensures var t := Step(c, s, Manager(AllDone)); if s.closed && s.tasks == {} then StartsAborting(c, s, t) else t == s
    ensures Step(c, s, Manager(SignalReceived(Hup))) == s
  {
  }

  /** The manager returns when no task is left, or at the last deadline. */
  lemma AbortingReacts(c: Config, s: State)
    requires s.phase.Aborting?
    ensures var t := Step(c, s, Manager(AllDone));
            t == if s.closed && s.tasks == {} then s.(phase := Exited(s.phase.left, s.now, s.phase.crashed, true)) else s
    ensures var t := Step(c, s, Manager(TimedOut));
            t == if s.now >= s.phase.deadline then s.(phase := Exited(s.phase.left, s.now, s.phase.crashed, false)) else s
  {
  }

  /** Signals, tasks, tokens and the clock, whatever the manager is at. */
  lemma WorldMoves(c: Config, s: State, task: nat, d: nat)
    ensures Step(c, s, Raise(Term)) == s.(term := true) && Step(c, s, Raise(Int)) == s.(interrupt := true)
    ensures Step(c, s, Raise(Hup)) == s.(hup := true)
    ensures Step(c, s, Spawn(task)) == s.(tasks := s.tasks + {task}) && Step(c, s, End(task)) == s.(tasks := s.tasks - {task})
    ensures Step(c, s, CancelSoft) == s.(soft := true) && Step(c, s, CancelHard) == s.(soft := true, hard := true)
    ensures (s.phase.Serving? || s.phase.Exited? || s.now + d <= s.phase.deadline) ==> Step(c, s, Tick(d)) == s.(now := s.now + d)
  {
  }

  // What every state keeps

  predicate TokensOk(s: State) {
    && (s.hard ==> s.soft)
    && (s.phase.Draining? ==> s.soft && s.closed)
    && (s.phase.Aborting? || s.phase.Exited? ==> s.soft && s.hard && s.closed)
    && (s.closed ==> s.soft)
  }

  predicate TimesOk(c: Config, now: nat, phase: Phase) {
    match phase
    case Serving => true
    case Reloading(deadline) => now <= deadline <= now + c.reloadTimeout
    case Draining(left, deadline, _) => left <= now <= deadline && deadline == left + c.timeout
    case Aborting(left, deadline, _) =>
      left <= now <= deadline && left + c.hardTimeout <= deadline <= left + c.timeout + c.hardTimeout
    case Exited(left, at, _, _) => left <= at <= now && at <= left + c.timeout + c.hardTimeout
  }

  predicate CausesOk(s: State, foreign: bool, asked: bool) {
    && (s.soft && (s.phase.Serving? || s.phase.Reloading?) ==> foreign)
    && (s.term || s.interrupt ==> asked)
    && (s.phase.Draining? || s.phase.Aborting? || s.phase.Exited? ==>
          if s.phase.crashed then foreign else asked)
  }

  /** Some task cancelled a token. */
  ghost predicate Foreign(events: seq<Event>) {
    CancelSoft in events || CancelHard in events
  }

  /** Someone asked for a shutdown. */
  ghost predicate Asked(events: seq<Event>) {
    Raise(Term) in events || Raise(Int) in events
  }

  lemma TakeKeepsTokens(c: Config, s: State, b: Branch)
    requires TokensOk(s)
    ensures TokensOk(Take(c, s, b))
  {
    match s.phase
    case Serving =>
    case Reloading(_) =>
    case Draining(_, _, _) =>
    case Aborting(_, _, _) =>
    case Exited(_, _, _, _) =>
  }

  lemma ServingKeepsTimes(c: Config, s: State, b: Branch)
    requires s.phase.Serving? || s.phase.Reloading?
    requires TimesOk(c, s.now, s.phase)
    ensures TimesOk(c, Take(c, s, b).now, Take(c, s, b).phase)
  {
    assert Take(c, s, b).now == s.now;
  }

  lemma DrainingMoves(c: Config, s: State, b: Branch)
    requires s.phase.Draining?
    ensures var t := Take(c, s, b);
            t == s || (t.now == s.now && t.phase == Aborting(s.phase.left, s.now + c.hardTimeout, s.phase.crashed))
  {
  }

  lemma AbortingMoves(c: Config, s: State, b: Branch)
    requires s.phase.Aborting?
    ensures var t := Take(c, s, b);
            t == s || (t.now == s.now && exists drained :: t.phase == Exited(s.phase.left, s.now, s.phase.crashed, drained))
  {
  }

  lemma StoppingKeepsTimes(c: Config, s: State, b: Branch)
    requires s.phase.Draining? || s.phase.Aborting? || s.phase.Exited?
    requires TimesOk(c, s.now, s.phase)
    ensures TimesOk(c, Take(c, s, b).now, Take(c, s, b).phase)
  {
    var t := Take(c, s, b);
    if s.phase.Draining? {
      DrainingMoves(c, s, b);
      if t != s { assert TimesOk(c, s.now, Aborting(s.phase.left, s.now + c.hardTimeout, s.phase.crashed)); }
    } else if s.phase.Aborting? {
      AbortingMoves(c, s, b);
    } else {
      assert t == s;
    }
  }

  lemma TakeKeepsCauses(c: Config, s: State, b: Branch, foreign: bool, asked: bool)
    requires CausesOk(s, foreign, asked)
    ensures CausesOk(Take(c, s, b), foreign, asked)
  {
    match s.phase
    case Serving =>
    case Reloading(_) =>
    case Draining(_, _, _) =>
    case Aborting(_, _, _) =>
    case Exited(_, _, _, _) =>
  }

  lemma StepKeeps(c: Config, s: State, e: Event, foreign: bool, asked: bool)
    requires TokensOk(s) && TimesOk(c, s.now, s.phase) && CausesOk(s, foreign, asked)
    ensures var t := Step(c, s, e);
            && TokensOk(t) && TimesOk(c, t.now, t.phase)
            && CausesOk(t, foreign || e == CancelSoft || e == CancelHard, asked || e == Raise(Term) || e == Raise(Int))
  {
    match e
    case Manager(b) =>
      TakeKeepsTokens(c, s, b);
      if s.phase.Serving? || s.phase.Reloading? {
        ServingKeepsTimes(c, s, b);
      } else {
        StoppingKeepsTimes(c, s, b);
      }
      TakeKeepsCauses(c, s, b, foreign, asked);
    case Raise(signal) =>
      assert Step(c, s, e).now == s.now && Step(c, s, e).phase == s.phase;
    case Tick(d) =>
      assert Step(c, s, e).phase == s.phase;
    case _ =>
  }

  lemma {:induction false} RunKeeps(c: Config, events: seq<Event>)
    ensures var s := Run(c, events);
            TokensOk(s) && TimesOk(c, s.now, s.phase) && CausesOk(s, Foreign(events), Asked(events))
  {
    if events != [] {
      var before := events[..|events| - 1];
      var last := events[|events| - 1];
      RunKeeps(c, before);
      assert events == before + [last];
      StepKeeps(c, Run(c, before), last, Foreign(before), Asked(before));
    }
  }

  /** Nothing is ever hard-cancelled before it is soft-cancelled, and no token is ever restored. */
  lemma TokensAreOrdered(c: Config, events: seq<Event>, e: Event)
    ensures Run(c, events).hard ==> Run(c, events).soft
    ensures Run(c, events).soft ==> Run(c, events + [e]).soft
    ensures Run(c, events).hard ==> Run(c, events + [e]).hard
  {
    hide Run;
    RunKeeps(c, events);
    RunPush(c, events, e);
    TokensStay(c, Run(c, events), e);
  }

  lemma RunPush(c: Config, events: seq<Event>, e: Event)
    ensures Run(c, events + [e]) == Step(c, Run(c, events), e)
  {
    assert (events + [e])[..|events|] == events;
  }

  lemma TokensStay(c: Config, s: State, e: Event)
    ensures s.soft ==> Step(c, s, e).soft
    ensures s.hard ==> Step(c, s, e).hard
  {
    hide Take;
    if e.Manager? { TakeRestoresNothing(c, s, e.branch); }
  }

  lemma TakeRestoresNothing(c: Config, s: State, b: Branch)
    ensures s.soft ==> Take(c, s, b).soft
    ensures s.hard ==> Take(c, s, b).hard
  {
    hide Due, Drained, Pending, SetPending;
    if b.SignalReceived? { PendingOnly(s, b.signal); }
  }

  lemma PendingOnly(s: State, signal: Signal)
    ensures var t := SetPending(s, signal, false);
            t.soft == s.soft && t.hard == s.hard && t.phase == s.phase
  {
  }

  /** A failure is only reported after a task cancelled a token, a success only after a signal. */
  lemma ExitCodeHasACause(c: Config, events: seq<Event>)
    requires Run(c, events).phase.Exited?
    ensures Run(c, events).phase.crashed ==> Foreign(events)
    ensures !Run(c, events).phase.crashed ==> Asked(events)
  {
    RunKeeps(c, events);
  }

  predicate Left(p: Phase) {
    p.Draining? || p.Aborting? || p.Exited?
  }

  /** Once out of the loop the manager never goes back, and the verdict stands. */
  lemma LeftStays(c: Config, s: State, e: Event)
    requires Left(s.phase)
    ensures Left(Step(c, s, e).phase) && Step(c, s, e).phase.crashed == s.phase.crashed
  {
    if !e.Manager? {
      OthersKeepPhase(c, s, e);
    } else if s.phase.Draining? {
      DrainingMoves(c, s, e.branch);
    } else if s.phase.Aborting? {
      AbortingMoves(c, s, e.branch);
    }
  }

  /** Event `i` took the manager out of the loop. */
  ghost predicate LeavesAt(c: Config, events: seq<Event>, i: nat) {
    i < |events| && !Left(Run(c, events[..i]).phase) && Left(Run(c, events[..i + 1]).phase)
  }

  lemma LeavingVerdict(c: Config, s: State, e: Event)
    requires !Left(s.phase) && Left(Step(c, s, e).phase)
    ensures s.phase.Serving? && e.Manager? && Step(c, s, e).phase.Draining?
    ensures Step(c, s, e).phase.crashed <==> e.branch.SoftCancelled?
    ensures e.branch.SoftCancelled? ==> s.soft
  {
    if !e.Manager? { OthersKeepPhase(c, s, e); }
  }

  /** The manager reports failure exactly if it left the loop because the soft token was cancelled. */
  lemma {:induction false} ExitCodeExactly(c: Config, events: seq<Event>) returns (i: nat)
    requires Left(Run(c, events).phase)
    ensures LeavesAt(c, events, i)
    ensures Run(c, events[..i]).phase.Serving? && events[i].Manager?
    ensures Run(c, events).phase.crashed <==> events[i].branch.SoftCancelled?
    ensures Run(c, events).phase.crashed ==> Run(c, events[..i]).soft
    decreases |events|
  {
    var last := |events| - 1;
    var before := events[..last];
    if Left(Run(c, before).phase) {
      i := ExitCodeExactly(c, before);
      LeftStays(c, Run(c, before), events[last]);
      assert events[..i] == before[..i] && events[..i + 1] == before[..i + 1];
    } else {
      i := last;
      LeavingVerdict(c, Run(c, before), events[last]);
      assert events[..last + 1] == events;
    }
  }

  /** It leaves only once. */
  lemma LeavesOnce(c: Config, events: seq<Event>, i: nat, k: nat)
    requires LeavesAt(c, events, i) && LeavesAt(c, events, k)
    ensures i == k
  {
    if i < k { StaysLeft(c, events, i + 1, k); }
    if k < i { StaysLeft(c, events, k + 1, i); }
  }

  lemma {:induction false} StaysLeft(c: Config, events: seq<Event>, i: nat, j: nat)
    requires i <= j <= |events| && Left(Run(c, events[..i]).phase)
    ensures Left(Run(c, events[..j]).phase)
  {
    if i < j {
      StaysLeft(c, events, i, j - 1);
      assert events[..j] == events[..j - 1] + [events[j - 1]];
      RunAppend(c, events[..j - 1], events[j - 1]);
      LeftStays(c, Run(c, events[..j - 1]), events[j - 1]);
    }
  }

  /** From leaving the loop to the return takes no longer than the two grace periods together. */
  lemma ShutdownIsBounded(c: Config, events: seq<Event>)
    ensures var s := Run(c, events);
            && (s.phase.Draining? || s.phase.Aborting? ==>
                  s.phase.left <= s.now <= s.phase.left + c.timeout + c.hardTimeout)
            && (s.phase.Exited? ==> s.phase.left <= s.phase.at <= s.phase.left + c.timeout + c.hardTimeout)
  {
    RunKeeps(c, events);
  }

  ghost predicate Leaves(c: Config, s: State, e: Event) {
    !s.phase.Exited? && Step(c, s, e).phase.Exited?
  }

  /** Only the manager changes the phase. */
  lemma OthersKeepPhase(c: Config, s: State, e: Event)
    requires !e.Manager?
    ensures Step(c, s, e).phase == s.phase
  {
    match e
    case Raise(signal) =>
    case _ =>
  }

  lemma ServingStays(c: Config, s: State, b: Branch)
    requires s.phase.Serving? || s.phase.Reloading?
    ensures var p := Take(c, s, b).phase; p.Serving? || p.Reloading? || p.Draining?
  {
  }

  lemma AbortingExits(c: Config, s: State, b: Branch)
    requires s.phase.Aborting? && Take(c, s, b).phase.Exited?
    ensures var t := Take(c, s, b);
            && t.(phase := s.phase) == s && t.phase.at == s.now
            && (if t.phase.drained then Drained(s) else Due(s))
  {
  }

  lemma OnlyTheLastWaitExits(c: Config, s: State, e: Event)
    requires Leaves(c, s, e)
    ensures s.phase.Aborting? && e.Manager?
  {
    if !e.Manager? {
      OthersKeepPhase(c, s, e);
    } else if s.phase.Draining? {
      DrainingMoves(c, s, e.branch);
    } else if !s.phase.Aborting? {
      ServingStays(c, s, e.branch);
    }
  }

  /** The manager returns with both tokens cancelled, and with a task left only once the last grace period is spent. */
  lemma ReturnIsDrainedOrLate(c: Config, events: seq<Event>, e: Event)
    requires Leaves(c, Run(c, events), e)
    ensures var s := Run(c, events);
            var t := Step(c, s, e);
            && t.soft && t.hard && t.closed && t.tasks == s.tasks
            && s.phase.Aborting? && t.phase.at == s.now
            && (s.tasks != {} ==> !t.phase.drained && s.now == s.phase.deadline)
            && (t.phase.drained ==> s.tasks == {})
  {
    RunKeeps(c, events);
    OnlyTheLastWaitExits(c, Run(c, events), e);
    AbortingExits(c, Run(c, events), e.branch);
  }

  lemma ExitedStays(c: Config, s: State, e: Event)
    requires s.phase.Exited?
    ensures Step(c, s, e).phase == s.phase
  {
    if !e.Manager? { OthersKeepPhase(c, s, e); }
  }

  lemma {:induction false} ExitIsFinal(c: Config, events: seq<Event>, more: seq<Event>)
    requires Run(c, events).phase.Exited?
    ensures Run(c, events + more).phase == Run(c, events).phase
  {
    if more == [] {
      assert events + more == events;
    } else {
      var front, last := more[..|more| - 1], more[|more| - 1];
      ExitIsFinal(c, events, front);
      RunAppend(c, events + front, last);
      assert events + more == (events + front) + [last];
      ExitedStays(c, Run(c, events + front), last);
    }
  }

  lemma {:induction false} RunAppend(c: Config, events: seq<Event>, e: Event)
    ensures Run(c, events + [e]) == Step(c, Run(c, events), e)
  {
    assert (events + [e])[..|events|] == events;
  }

  /** A second signal during the drain cuts it short: the hard token is cancelled at once. */
  lemma SecondSignalAborts(c: Config, events: seq<Event>, signal: Signal)
    requires Run(c, events).phase.Draining? && !signal.Hup?
    ensures var s := Run(c, events);
            var t := Run(c, events + [Raise(signal), Manager(SignalReceived(signal))]);
            t.hard && t.phase == Aborting(s.phase.left, s.now + c.hardTimeout, s.phase.crashed)
  {
    RunAppend(c, events, Raise(signal));
    RunAppend(c, events + [Raise(signal)], Manager(SignalReceived(signal)));
    assert events + [Raise(signal)] + [Manager(SignalReceived(signal))]
        == events + [Raise(signal), Manager(SignalReceived(signal))];
  }

  /** Whatever has happened, waiting alone leads from the drain to the return: nothing can block it. */
  lemma WaitingReturns(c: Config, events: seq<Event>) returns (rest: seq<Event>)
    requires Run(c, events).phase.Draining?
    ensures forall e :: e in rest ==> e.Tick? || e == Manager(TimedOut)
    ensures Run(c, events + rest).phase.Exited?
    ensures Run(c, events + rest).phase.at == Run(c, events).phase.left + c.timeout + c.hardTimeout
    ensures Run(c, events + rest).phase.crashed == Run(c, events).phase.crashed
  {
    var s := Run(c, events);
    RunKeeps(c, events);
    var tick := Tick(s.phase.deadline - s.now);
    RunAppend(c, events, tick);
    RunAppend(c, events + [tick], Manager(TimedOut));
    var middle := events + [tick] + [Manager(TimedOut)];
    RunAppend(c, middle, Tick(c.hardTimeout));
    RunAppend(c, middle + [Tick(c.hardTimeout)], Manager(TimedOut));
    rest := [tick, Manager(TimedOut), Tick(c.hardTimeout), Manager(TimedOut)];
    assert events + rest == middle + [Tick(c.hardTimeout)] + [Manager(TimedOut)];
  }
}

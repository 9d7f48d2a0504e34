/** `config_sync` one statement at a time: every read is of the tables as they are at that moment. */
module SyncSteps {
  import opened SyncTables
  import opened SyncPlan
  import opened SyncEffect
  import opened SyncSettled
  import SyncRun

  datatype Task = Task(
    providers: seq<ProviderConfig>, clients: seq<ClientConfig>, prune: bool, dryRun: bool, stamp: Stamp)

  datatype Stage =
    | Listing
    | Clearing(rest: seq<Op>)
    | Looking(index: nat)
    | Storing(index: nat)
    | ListingClients
    | ClearingClients(rest: seq<Op>)
    | StoringClients(index: nat)
    | Failing
    | Releasing

  /** At most one statement, and the stage that follows; or the run ends with an error. */
  datatype Move = Go(stage: Stage, writes: seq<Op>) | Fault

  ghost function Cleared(t: Tables, k: Task): seq<Op> {
    Clears(t, k.providers, k.prune, k.stamp.now)
  }

  ghost function ClientsCleared(t: Tables, k: Task): seq<Op> {
    if k.dryRun then Details(t.clients) else ClientClears(t, k.clients, k.prune, k.stamp)
  }

  ghost function Next(t: Tables, k: Task, stage: Stage): Move {
    match stage
    case Listing => Go(if k.dryRun then ListingClients else Clearing(Cleared(t, k)), [Query])
    case Clearing(rest) => if rest == [] then Go(Looking(0), []) else Go(Clearing(rest[1..]), [rest[0]])
    case Looking(i) =>
      if i >= |k.providers| then Go(ListingClients, [])
      else
        var c := k.providers[i];
        if !c.enabled then Go(Looking(i + 1), [])
        else if !c.secretLoads then Fault
        else if c.id in ManualIds(t.providers) then Go(Looking(i + 1), [Query])
        else if !c.scopeParses then Go(Failing, [Query])
        else Go(Storing(i), [Query])
    case Storing(i) =>
      if i >= |k.providers| then Fault
      else
        var c := k.providers[i];
        Go(Looking(i + 1), [Op.Upsert(c.id, ParamsOf(c, i, k.stamp), k.stamp.now)])
    case ListingClients => Go(ClearingClients(ClientsCleared(t, k)), [Query])
    case ClearingClients(rest) =>
      if rest != [] then Go(ClearingClients(rest[1..]), [rest[0]])
      else Go(if k.dryRun then Releasing else StoringClients(0), [])
    case StoringClients(i) =>
      if i >= |k.clients| then Go(Releasing, [])
      else
        var c := k.clients[i];
        if !c.secretLoads then Fault
        else Go(if c.keysAgree then StoringClients(i + 1) else Failing,
                [Op.UpsertStatic(c.id, c.settings, Seal(c.secret, k.stamp))])
    case Failing => Fault
    case Releasing => Go(Releasing, [])
  }

  ghost function Whole(t: Tables, k: Task): Plan {
    Planned(t, k.providers, k.clients, k.prune, k.dryRun, k.stamp)
  }

  ghost function First(t: Tables, k: Task): Plan {
    if k.dryRun then Plan([Query], false) else ProviderPlan(t, k.providers, k.prune, k.stamp)
  }

  ghost function UpTo(t: Tables, k: Task, i: nat): Plan
    requires i <= |k.providers|
  {
    Upserts(k.providers, i, ManualIds(t.providers), k.stamp)
  }

  /** The statements of the provider phase before entry `i`. */
  ghost function Before(t: Tables, k: Task, i: nat): seq<Op>
    requires i <= |k.providers|
  {
    [Query] + Cleared(t, k) + UpTo(t, k, i).ops
  }

  /** The statements of both phases before client `i`. */
  ghost function ClientsBefore(t: Tables, k: Task, i: nat): seq<Op>
    requires i <= |k.clients|
  {
    First(t, k).ops + [Query] + ClientsCleared(t, k) + ClientUpserts(k.clients, i, k.stamp).ops
  }

  /** How far a run that began at `start` has come once it has executed `done`. */
  ghost predicate Progress(start: Tables, k: Task, stage: Stage, done: seq<Op>) {
    match stage
    case Listing => done == []
    case Clearing(rest) => !k.dryRun && done + rest == [Query] + Cleared(start, k)
    case Looking(i) =>
      !k.dryRun && i <= |k.providers| && !UpTo(start, k, i).fault && done == Before(start, k, i)
    case Storing(i) =>
      && !k.dryRun && i < |k.providers| && !UpTo(start, k, i).fault
      && done == Before(start, k, i) + [Query]
      && !UpTo(start, k, i + 1).fault
      && k.providers[i].enabled && k.providers[i].id !in ManualIds(start.providers)
    case ListingClients => !First(start, k).fault && done == First(start, k).ops
    case ClearingClients(rest) =>
      !First(start, k).fault && done + rest == First(start, k).ops + [Query] + ClientsCleared(start, k)
    case StoringClients(i) =>
      && !k.dryRun && !First(start, k).fault
      && i <= |k.clients| && !ClientUpserts(k.clients, i, k.stamp).fault
      && done == ClientsBefore(start, k, i)
    case Failing => done == Whole(start, k).ops && Whole(start, k).fault
    case Releasing => done == Whole(start, k).ops && !Whole(start, k).fault
  }

  /** The move keeps to the plan, or ends a run whose plan ends in an error right here. */
  ghost predicate Follows(start: Tables, k: Task, move: Move, done: seq<Op>) {
    match move
    case Fault => done == Whole(start, k).ops && Whole(start, k).fault
    case Go(stage, writes) => Progress(start, k, stage, done + writes)
  }

  lemma UpsertsKeepManual(start: Tables, k: Task, i: nat)
    requires i <= |k.providers| && !UpTo(start, k, i).fault
    ensures ManualIds(Run(start, Before(start, k, i)).providers) == ManualIds(start.providers)
  {
    var t := Run(start, Cleared(start, k));
    Sweep(start, k.providers, k.prune, k.stamp.now);
    AfterQuery(start, Cleared(start, k), UpTo(start, k, i).ops);
    SyncRun.ManualStays(t, k.providers, i, k.stamp);
  }

  lemma UpToNext(start: Tables, k: Task, i: nat)
    requires !k.dryRun && i < |k.providers| && !UpTo(start, k, i).fault
    ensures var c := k.providers[i];
            var manual := c.id in ManualIds(start.providers);
            var op := Op.Upsert(c.id, ParamsOf(c, i, k.stamp), k.stamp.now);
            if !c.enabled then UpTo(start, k, i + 1) == UpTo(start, k, i)
            else if !c.secretLoads then First(start, k) == Plan(Before(start, k, i), true)
            else if manual then Before(start, k, i + 1) == Before(start, k, i) + [Query] && !UpTo(start, k, i + 1).fault
            else if !c.scopeParses then First(start, k) == Plan(Before(start, k, i) + [Query], true)
            else Before(start, k, i + 1) == Before(start, k, i) + [Query] + [op] && !UpTo(start, k, i + 1).fault
  {
    hide Clears, ManualIds, ParamsOf;
    SyncRun.UpsertsPrefix(k.providers, i + 1, |k.providers|, ManualIds(start.providers), k.stamp);
    var c := k.providers[i];
    var op := Op.Upsert(c.id, ParamsOf(c, i, k.stamp), k.stamp.now);
    assert [Query] + [op] == [Query, op];
  }

  lemma LookingKeeps(start: Tables, k: Task, i: nat, done: seq<Op>)
    requires Progress(start, k, Looking(i), done)
    ensures Follows(start, k, Next(Run(start, done), k, Looking(i)), done)
  {
    hide Run;
    UpsertsKeepManual(start, k, i);
    assert done + [] == done;
    if i < |k.providers| {
      UpToNext(start, k, i);
    } else {
      assert First(start, k).ops == Before(start, k, i);
    }
  }

  lemma StoringKeeps(start: Tables, k: Task, i: nat, done: seq<Op>)
    requires Progress(start, k, Storing(i), done)
    ensures Follows(start, k, Next(Run(start, done), k, Storing(i)), done)
  {
    hide Run;
    UpToNext(start, k, i);
  }

  lemma Regroup(a: seq<Op>, b: seq<Op>, c: seq<Op>, d: seq<Op>)
    ensures a + (b + c + d) == a + b + c + d
  {
  }

  lemma WholeOps(start: Tables, k: Task)
    requires !k.dryRun && !First(start, k).fault
    ensures Whole(start, k).ops == ClientsBefore(start, k, |k.clients|)
    ensures Whole(start, k).fault == ClientUpserts(k.clients, |k.clients|, k.stamp).fault
  {
    Regroup(First(start, k).ops, [Query], ClientsCleared(start, k), ClientUpserts(k.clients, |k.clients|, k.stamp).ops);
  }

  lemma ListingClientsKeeps(start: Tables, k: Task, done: seq<Op>)
    requires Progress(start, k, ListingClients, done)
    ensures Follows(start, k, Next(Run(start, done), k, ListingClients), done)
  {
    hide Run;
    ClientsClearedSame(start, k);
  }

  lemma ClientsClearedSame(start: Tables, k: Task)
    requires !First(start, k).fault
    ensures ClientsCleared(Run(start, First(start, k).ops), k) == ClientsCleared(start, k)
  {
    hide Run;
    if k.dryRun {
      SyncRun.OnlyQueries(start, [Query]);
    } else {
      ProviderPhase(start, k.providers, k.prune, k.stamp);
    }
  }

  /** A dry run reads, and that is all. */
  lemma DryWhole(start: Tables, k: Task)
    requires k.dryRun
    ensures Whole(start, k) == Plan(First(start, k).ops + [Query] + ClientsCleared(start, k), false)
  {
    assert [Query] + ([Query] + Details(start.clients)) == [Query] + [Query] + Details(start.clients);
  }

  lemma ClearingClientsKeeps(start: Tables, k: Task, rest: seq<Op>, done: seq<Op>)
    requires Progress(start, k, ClearingClients(rest), done)
    ensures Follows(start, k, Next(Run(start, done), k, ClearingClients(rest)), done)
  {
    if rest == [] {
      assert done + [] == done;
      assert done + ClientUpserts(k.clients, 0, k.stamp).ops == done;
      if k.dryRun { DryWhole(start, k); }
    } else {
      assert (done + [rest[0]]) + rest[1..] == done + rest;
    }
  }

  /** Where the client loop stands after one more entry; a faulty entry ends the plan. */
  lemma ClientsOneMore(start: Tables, k: Task, i: nat)
    requires !k.dryRun && !First(start, k).fault && i < |k.clients|
    requires !ClientUpserts(k.clients, i, k.stamp).fault
    ensures var c := k.clients[i];
            var op := Op.UpsertStatic(c.id, c.settings, Seal(c.secret, k.stamp));
            && ClientsBefore(start, k, i + 1) == ClientsBefore(start, k, i) + (if c.secretLoads then [op] else [])
            && ClientUpserts(k.clients, i + 1, k.stamp).fault == !(c.secretLoads && c.keysAgree)
            && (!(c.secretLoads && c.keysAgree) ==>
                  Whole(start, k).ops == ClientsBefore(start, k, i + 1) && Whole(start, k).fault)
  {
    WholeOps(start, k);
    SyncRun.ClientUpsertsPrefix(k.clients, i + 1, |k.clients|, k.stamp);
  }

  lemma StoringClientsKeeps(start: Tables, k: Task, i: nat, done: seq<Op>)
    requires Progress(start, k, StoringClients(i), done)
    ensures Follows(start, k, Next(Run(start, done), k, StoringClients(i)), done)
  {
    assert done + [] == done;
    if i < |k.clients| {
      ClientsOneMore(start, k, i);
    } else {
      WholeOps(start, k);
    }
  }

  /** A step of an undisturbed run follows the plan made from the tables it began with. */
  lemma ProgressKeeps(start: Tables, k: Task, stage: Stage, done: seq<Op>)
    requires Progress(start, k, stage, done)
    ensures Follows(start, k, Next(Run(start, done), k, stage), done)
  {
    hide Run;
    assert done + [] == done && [] + [Query] == [Query];
    match stage
    case Listing =>
      assert Run(start, []) == start by { RunNothing(start); }
    case Clearing(rest) =>
      if rest == [] {
        assert Before(start, k, 0) == done;
      } else {
        assert (done + [rest[0]]) + rest[1..] == done + rest;
      }
    case Looking(i) => LookingKeeps(start, k, i, done);
    case Storing(i) => StoringKeeps(start, k, i, done);
    case ListingClients => ListingClientsKeeps(start, k, done);
    case ClearingClients(rest) => ClearingClientsKeeps(start, k, rest, done);
    case StoringClients(i) => StoringClientsKeeps(start, k, i, done);
    case _ =>
  }

  lemma FirstIsPrefix(start: Tables, k: Task, i: nat)
    requires !k.dryRun && i <= |k.providers|
    ensures [Query] + Cleared(start, k) <= Before(start, k, i) <= First(start, k).ops <= Whole(start, k).ops
  {
    SyncRun.UpsertsPrefix(k.providers, i, |k.providers|, ManualIds(start.providers), k.stamp);
    assert First(start, k).ops == Before(start, k, |k.providers|);
    if !First(start, k).fault { WholeOps(start, k); }
  }

  lemma ClientsArePrefix(start: Tables, k: Task, i: nat)
    requires !k.dryRun && !First(start, k).fault && i <= |k.clients|
    ensures First(start, k).ops + [Query] + ClientsCleared(start, k) <= ClientsBefore(start, k, i) <= Whole(start, k).ops
  {
    SyncRun.ClientUpsertsPrefix(k.clients, i, |k.clients|, k.stamp);
    WholeOps(start, k);
  }

  /** An entry that is about to be stored has only been looked up. */
  lemma LookedUpIsPrefix(start: Tables, k: Task, i: nat)
    requires i < |k.providers| && Progress(start, k, Storing(i), Before(start, k, i) + [Query])
    ensures Before(start, k, i) + [Query] <= Whole(start, k).ops
  {
    UpToNext(start, k, i);
    FirstIsPrefix(start, k, i + 1);
  }

  /** At every stage what has been executed is the beginning of the plan. */
  lemma ProgressIsPrefix(start: Tables, k: Task, stage: Stage, done: seq<Op>)
    requires Progress(start, k, stage, done)
    ensures done <= Whole(start, k).ops
  {
    match stage
    case Clearing(rest) =>
      FirstIsPrefix(start, k, 0);
      assert done <= done + rest;
    case Looking(i) => FirstIsPrefix(start, k, i);
    case Storing(i) => LookedUpIsPrefix(start, k, i);
    case ListingClients =>
      if k.dryRun { DryWhole(start, k); } else { FirstIsPrefix(start, k, 0); }
    case ClearingClients(rest) =>
      if k.dryRun { DryWhole(start, k); } else { ClientsArePrefix(start, k, 0); }
      assert done <= done + rest;
    case StoringClients(i) => ClientsArePrefix(start, k, i);
    case _ =>
  }
}

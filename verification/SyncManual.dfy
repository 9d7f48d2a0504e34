/** Manually managed providers: no run changes them, finished or not. */
module SyncManual {
  import opened SyncTables
  import opened SyncPlan
  import opened SyncEffect
  import opened SyncSteps
  import SyncLock

  /** The statement is not about any of these rows, and makes no manual row. */
  ghost predicate Spares(manual: set<Id>, op: Op) {
    match op
    case Disable(id, _) => id !in manual
    case DropLinks(_, id) => id !in manual
    case DeleteProvider(id) => id !in manual
    case Upsert(id, params, _) => id !in manual && params.source.Config?
    case _ => true
  }

  ghost predicate AllSpare(manual: set<Id>, ops: seq<Op>) {
    forall i :: 0 <= i < |ops| ==> Spares(manual, ops[i])
  }

  /** The same manual rows, column for column, with all that refers to them. */
  ghost predicate SameManual(t: Tables, x: Tables) {
    && ManualIds(x.providers) == ManualIds(t.providers)
    && (forall id :: id in ManualIds(t.providers) ==> x.providers[id] == t.providers[id])
    && (forall r :: r in t.links && t.links[r] in ManualIds(t.providers) ==> r in x.links && x.links[r] == t.links[r])
  }

  lemma SameManualTransitive(t: Tables, x: Tables, y: Tables)
    requires SameManual(t, x) && SameManual(x, y)
    ensures SameManual(t, y)
  {
  }

  lemma StatementSpares(x: Tables, op: Op)
    requires Spares(ManualIds(x.providers), op)
    ensures SameManual(x, Exec(x, op))
  {
    var y := Exec(x, op);
    forall id ensures id in ManualIds(y.providers) <==> id in ManualIds(x.providers) {}
  }

  lemma {:induction false} RunSpares(x: Tables, ops: seq<Op>)
    requires AllSpare(ManualIds(x.providers), ops)
    ensures SameManual(x, Run(x, ops))
  {
    hide Exec, Spares;
    if ops != [] {
      var front := ops[..|ops| - 1];
      RunSpares(x, front);
      StatementSpares(Run(x, front), ops[|ops| - 1]);
      SameManualTransitive(x, Run(x, front), Run(x, ops));
    }
  }

  // Every plan spares the manual rows it finds

  lemma AllSpareAppend(manual: set<Id>, a: seq<Op>, b: seq<Op>)
    requires AllSpare(manual, a) && AllSpare(manual, b)
    ensures AllSpare(manual, a + b)
  {
  }

  lemma {:induction false} DisablesSpare(manual: set<Id>, page: seq<Id>, providers: map<Id, Provider>, wanted: set<Id>, now: Time)
    requires forall i :: 0 <= i < |page| ==> page[i] !in manual
    ensures AllSpare(manual, Disables(page, providers, wanted, now))
  {
    if page != [] { DisablesSpare(manual, page[..|page| - 1], providers, wanted, now); }
  }

  lemma {:induction false} DeletesSpare(manual: set<Id>, ids: seq<Id>)
    requires forall i :: 0 <= i < |ids| ==> ids[i] !in manual
    ensures AllSpare(manual, Deletes(ids))
  {
    if ids != [] { DeletesSpare(manual, ids[..|ids| - 1]); }
  }

  lemma ClearsSpare(x: Tables, cfg: seq<ProviderConfig>, prune: bool, now: Time)
    ensures AllSpare(ManualIds(x.providers), Clears(x, cfg, prune, now))
  {
    hide AllSpare;
    var manual := ManualIds(x.providers);
    var page := Page(ConfigIds(x.providers), PAGE_LIMIT);
    forall i | 0 <= i < |page| ensures page[i] !in manual {
      assert page[i] in page;
    }
    DisablesSpare(manual, page, x.providers, Wanted(cfg), now);
    var ids := StaleIn(page, x.providers, Wanted(cfg));
    StaleInMembers(page, x.providers, Wanted(cfg));
    forall i | 0 <= i < |ids| ensures ids[i] !in manual {
      assert ids[i] in ids;
    }
    DeletesSpare(manual, if prune then ids else []);
    AllSpareAppend(manual, Disables(page, x.providers, Wanted(cfg), now), if prune then Deletes(ids) else []);
  }

  lemma {:induction false} UpsertsSpare(cfg: seq<ProviderConfig>, n: nat, manual: set<Id>, stamp: Stamp)
    requires n <= |cfg|
    ensures AllSpare(manual, Upserts(cfg, n, manual, stamp).ops)
  {
    if n > 0 { UpsertsSpare(cfg, n - 1, manual, stamp); }
  }

  lemma {:induction false} ClientDeletesSpare(manual: set<Id>, ids: seq<Id>)
    ensures AllSpare(manual, ClientDeletes(ids))
  {
    if ids != [] { ClientDeletesSpare(manual, ids[..|ids| - 1]); }
  }

  lemma {:induction false} ClientUpsertsSpare(manual: set<Id>, cfg: seq<ClientConfig>, n: nat, stamp: Stamp)
    requires n <= |cfg|
    ensures AllSpare(manual, ClientUpserts(cfg, n, stamp).ops)
  {
    if n > 0 { ClientUpsertsSpare(manual, cfg, n - 1, stamp); }
  }

  lemma QuerySpares(manual: set<Id>)
    ensures AllSpare(manual, [Query]) && AllSpare(manual, []) && forall clients :: AllSpare(manual, Details(clients))
  {
  }

  lemma WholeSpares(x: Tables, k: Task)
    ensures AllSpare(ManualIds(x.providers), Whole(x, k).ops)
  {
    hide AllSpare, Clears, ManualIds, ClientDeletes, Statics;
    var manual := ManualIds(x.providers);
    QuerySpares(manual);
    ClearsSpare(x, k.providers, k.prune, k.stamp.now);
    UpsertsSpare(k.providers, |k.providers|, manual, k.stamp);
    var clears := [Query] + Clears(x, k.providers, k.prune, k.stamp.now);
    var upserts := Upserts(k.providers, |k.providers|, manual, k.stamp).ops;
    AllSpareAppend(manual, [Query], Clears(x, k.providers, k.prune, k.stamp.now));
    AllSpareAppend(manual, clears, upserts);
    ClientDeletesSpare(manual, Unnamed(Statics(x, k.stamp), ClientIds(k.clients)));
    ClientUpsertsSpare(manual, k.clients, |k.clients|, k.stamp);
    var second := ClientClears(x, k.clients, k.prune, k.stamp);
    AllSpareAppend(manual, Details(x.clients), if k.prune then ClientDeletes(Unnamed(Statics(x, k.stamp), ClientIds(k.clients))) else []);
    AllSpareAppend(manual, [Query], Details(x.clients));
    AllSpareAppend(manual, [Query], [Query] + Details(x.clients));
    AllSpareAppend(manual, [Query], second);
    AllSpareAppend(manual, [Query] + second, ClientUpserts(k.clients, |k.clients|, k.stamp).ops);
    AllSpareAppend(manual, clears + upserts, [Query] + second + ClientUpserts(k.clients, |k.clients|, k.stamp).ops);
  }

  lemma BlockSpares(b: SyncLock.Block)
    requires SyncLock.Sound(b)
    ensures SameManual(b.start, Run(b.start, b.ops))
  {
    hide Run, Whole, SameManual;
    WholeSpares(b.start, b.task);
    assert forall i :: 0 <= i < |b.ops| ==> b.ops[i] == Whole(b.start, b.task).ops[i];
    RunSpares(b.start, b.ops);
  }

  lemma {:induction false} ChainSpares(first: Tables, h: seq<SyncLock.Block>, now: Tables)
    requires SyncLock.Chain(first, h, now) && forall i :: 0 <= i < |h| ==> SyncLock.Sound(h[i])
    ensures SameManual(first, now)
  {
    hide Run, SyncLock.Sound;
    if |h| > 0 {
      var b := h[|h| - 1];
      ChainSpares(first, h[..|h| - 1], b.start);
      BlockSpares(b);
      SameManualTransitive(first, b.start, now);
    }
  }

  /**
   * In every schedule, whatever the configurations are and wherever runs break off, the manual
   * providers are those of the beginning, column for column, and so is all that refers to them.
   */
  lemma ManualRowsSurvive(first: Tables, events: seq<SyncLock.Event>)
    ensures SameManual(first, SyncLock.RunAll(first, events).tables)
  {
    hide Run, SameManual, SyncLock.RunAll;
    var s := SyncLock.RunAll(first, events);
    SyncLock.HistoryStaysOk(first, events);
    ChainSpares(first, s.history, s.tables);
  }
}

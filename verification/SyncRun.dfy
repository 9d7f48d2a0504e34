/** `config_sync` itself, loop by loop, proved to carry out `Planned`. */
module SyncRun {
  import opened Wrappers
  import opened SyncTables
  import opened SyncPlan
  import opened SyncEffect
  import opened SyncSettled

  lemma {:induction false} DisablesPrefix(page: seq<Id>, i: nat, providers: map<Id, Provider>, wanted: set<Id>, now: Time)
    requires i <= |page|
    ensures Disables(page[..i], providers, wanted, now) <= Disables(page, providers, wanted, now)
  {
    if i == |page| {
      assert page[..i] == page;
    } else {
      var last := |page| - 1;
      DisablesPrefix(page[..last], i, providers, wanted, now);
      assert page[..last][..i] == page[..i];
    }
  }

  /** Disable the listed rows that are enabled but not wanted; return all that are then disabled. */
  method DisableUnwanted(db: Database, page: seq<Id>, rows: seq<Provider>, wanted: set<Id>, dryRun: bool, now: Time)
    returns (ok: bool, disabled: seq<Id>)
    requires |rows| == |page|
    requires forall i :: 0 <= i < |page| ==> page[i] in db.providers && rows[i] == db.providers[page[i]]
    modifies db
    ensures Carried(old(db.View()), old(db.budget), db.View(), db.budget,
                    if dryRun then [] else Disables(page, old(db.providers), wanted, now), ok)
    ensures ok ==> disabled == StaleIn(page, old(db.providers), wanted)
  {
    hide Run;
    ok, disabled := true, [];
    ghost var t, b := db.View(), db.budget;
    CarriedNothing(t, b);
    ghost var done: seq<Op> := [];
    for i := 0 to |page|
      invariant ok && Carried(t, b, db.View(), db.budget, done, true)
      invariant done == if dryRun then [] else Disables(page[..i], t.providers, wanted, now)
      invariant disabled == StaleIn(page[..i], t.providers, wanted)
    {
      assert page[..i + 1][..i] == page[..i];
      if rows[i].Enabled() {
        if page[i] !in wanted {
          if !dryRun {
            ghost var t1, b1 := db.View(), db.budget;
            ok := db.Execute(Op.Disable(page[i], now));
            CarriedAppend(t, b, t1, b1, db.View(), db.budget, done, [Op.Disable(page[i], now)], ok);
            done := done + [Op.Disable(page[i], now)];
            if !ok {
              DisablesPrefix(page, i + 1, t.providers, wanted, now);
              CarriedPrefix(t, b, db.View(), db.budget, done, Disables(page, t.providers, wanted, now));
              return;
            }
          }
          disabled := disabled + [page[i]];
        }
      } else {
        disabled := disabled + [page[i]];
      }
    }
    assert page[..|page|] == page;
  }

  lemma {:induction false} DeletesPrefix(ids: seq<Id>, i: nat)
    requires i <= |ids|
    ensures Deletes(ids[..i]) <= Deletes(ids)
  {
    if i == |ids| {
      assert ids[..i] == ids;
    } else {
      DeletesPrefix(ids[..|ids| - 1], i);
      assert ids[..|ids| - 1][..i] == ids[..i];
    }
  }

  method DeleteAll(db: Database, ids: seq<Id>, dryRun: bool) returns (ok: bool)
    modifies db
    ensures Carried(old(db.View()), old(db.budget), db.View(), db.budget, if dryRun then [] else Deletes(ids), ok)
  {
    hide Run;
    ok := true;
    ghost var t, b := db.View(), db.budget;
    CarriedNothing(t, b);
    for i := 0 to |ids|
      invariant ok && Carried(t, b, db.View(), db.budget, if dryRun then [] else Deletes(ids[..i]), true)
    {
      if dryRun { continue; }
      ghost var t1, b1 := db.View(), db.budget;
      ok := db.Delete(ids[i]);
      CarriedAppend(t, b, t1, b1, db.View(), db.budget, Deletes(ids[..i]), ProviderDelete(ids[i]), ok);
      assert ids[..i + 1][..i] == ids[..i];
      if !ok {
        DeletesPrefix(ids, i + 1);
        CarriedPrefix(t, b, db.View(), db.budget, Deletes(ids[..i + 1]), Deletes(ids));
        return;
      }
    }
    assert ids[..|ids|] == ids;
  }

  lemma {:induction false} UpsertsPrefix(cfg: seq<ProviderConfig>, n: nat, m: nat, manual: set<Id>, stamp: Stamp)
    requires n <= m <= |cfg|
    ensures Upserts(cfg, n, manual, stamp).ops <= Upserts(cfg, m, manual, stamp).ops
    ensures Upserts(cfg, n, manual, stamp).fault ==> Upserts(cfg, m, manual, stamp) == Upserts(cfg, n, manual, stamp)
  {
    if n < m { UpsertsPrefix(cfg, n, m - 1, manual, stamp); }
  }

  ghost predicate CarriedPlan(before: Tables, budget: nat, after: Tables, left: nat, plan: Plan, ok: bool) {
    exists whole :: Carried(before, budget, after, left, plan.ops, whole) && ok == (whole && !plan.fault)
  }

  /** The statements for an entry whose secret is loaded. */
  ghost function UpsertOps(c: ProviderConfig, index: nat, manual: bool, stamp: Stamp): seq<Op> {
    if manual || !c.scopeParses then [Query] else [Query, Op.Upsert(c.id, ParamsOf(c, index, stamp), stamp.now)]
  }

  /** One entry of the configuration, once its secret is loaded. */
  method UpsertOne(db: Database, c: ProviderConfig, index: nat, stamp: Stamp) returns (ok: bool, fault: bool)
    modifies db
    ensures var manual := c.id in ManualIds(old(db.providers));
            && Carried(old(db.View()), old(db.budget), db.View(), db.budget, UpsertOps(c, index, manual, stamp), ok)
            && (ok ==> fault == (!manual && !c.scopeParses))
  {
    hide Run;
    ghost var t, b := db.View(), db.budget;
    CarriedNothing(t, b);
    var row;
    ok, row := db.LookupProvider(c.id);
    fault := false;
    ghost var op := Op.Upsert(c.id, ParamsOf(c, index, stamp), stamp.now);
    if !ok {
      CarriedPrefix(t, b, db.View(), db.budget, [Query], [Query, op]);
      return;
    }
    if row.Some? && row.value.IsManual() { return; }
    if !c.scopeParses {
      fault := true;
      return;
    }
    ghost var t1, b1 := db.View(), db.budget;
    ok := db.Execute(Op.Upsert(c.id, Params(c.settings, Seal(c.secret, stamp), UiOrder(index), Config), stamp.now));
    CarriedAppend(t, b, t1, b1, db.View(), db.budget, [Query], [op], ok);
    assert [Query] + [op] == [Query, op];
  }

  /** Whether a row is manual does not change while the entries before it are written. */
  lemma ManualStays(t: Tables, cfg: seq<ProviderConfig>, i: nat, stamp: Stamp)
    requires i <= |cfg| && !Upserts(cfg, i, ManualIds(t.providers), stamp).fault
    ensures ManualIds(Run(t, Upserts(cfg, i, ManualIds(t.providers), stamp).ops).providers) == ManualIds(t.providers)
  {
    var manual := ManualIds(t.providers);
    RunUpserts(t, cfg, i, manual, stamp);
    var after := Run(t, Upserts(cfg, i, manual, stamp).ops);
    forall id ensures id in ManualIds(after.providers) <==> id in manual {
      assert Lookup(after.providers, id) == AfterUpsert(Lookup(t.providers, id), cfg, i, manual, stamp, id);
    }
  }

  lemma ManualSoFar(t: Tables, b: nat, t1: Tables, b1: nat, cfg: seq<ProviderConfig>, i: nat, stamp: Stamp)
    requires i <= |cfg| && !Upserts(cfg, i, ManualIds(t.providers), stamp).fault
    requires Carried(t, b, t1, b1, Upserts(cfg, i, ManualIds(t.providers), stamp).ops, true)
    ensures ManualIds(t1.providers) == ManualIds(t.providers)
  {
    ManualStays(t, cfg, i, stamp);
  }

  method UpsertWanted(db: Database, cfg: seq<ProviderConfig>, dryRun: bool, stamp: Stamp) returns (ok: bool)
    modifies db
    ensures CarriedPlan(old(db.View()), old(db.budget), db.View(), db.budget,
                        if dryRun then Plan([], false)
                        else Upserts(cfg, |cfg|, ManualIds(old(db.providers)), stamp), ok)
  {
    hide Run, Carried, ManualIds;
    ok := true;
    ghost var t, b := db.View(), db.budget;
    CarriedNothing(t, b);
    ghost var manual := ManualIds(db.providers);
    ghost var plan := if dryRun then Plan([], false) else Upserts(cfg, |cfg|, manual, stamp);
    for i := 0 to |cfg|
      invariant ok
      invariant var sofar := if dryRun then Plan([], false) else Upserts(cfg, i, manual, stamp);
                Carried(t, b, db.View(), db.budget, sofar.ops, true) && !sofar.fault
    {
      var c := cfg[i];
      if !c.enabled || dryRun { continue; }
      ghost var sofar := Upserts(cfg, i, manual, stamp);
      UpsertsPrefix(cfg, i + 1, |cfg|, manual, stamp);
      if !c.secretLoads {
        ok := false;
        assert Carried(t, b, db.View(), db.budget, plan.ops, true);
        return;
      }
      ghost var t1, b1 := db.View(), db.budget;
      ManualSoFar(t, b, t1, b1, cfg, i, stamp);
      var fault;
      ok, fault := UpsertOne(db, c, i, stamp);
      ghost var ops := Upserts(cfg, i + 1, manual, stamp).ops;
      CarriedAppend(t, b, t1, b1, db.View(), db.budget, sofar.ops, UpsertOps(c, i, c.id in manual, stamp), ok);
      if !ok {
        CarriedPrefix(t, b, db.View(), db.budget, ops, plan.ops);
        return;
      }
      if fault {
        ok := false;
        assert Carried(t, b, db.View(), db.budget, plan.ops, true);
        return;
      }
    }
    assert Carried(t, b, db.View(), db.budget, plan.ops, true);
  }

  lemma Regroup(x: seq<Op>, y: seq<Op>, z: seq<Op>)
    ensures (x + y) + z == x + (y + z)
  {
  }

  /** Lists the rows, disables what is not wanted and, with prune, deletes what is disabled. */
  method ClearProviders(db: Database, cfg: seq<ProviderConfig>, prune: bool, dryRun: bool, now: Time)
    returns (ok: bool)
    modifies db
    ensures Carried(old(db.View()), old(db.budget), db.View(), db.budget,
                    [Query] + (if dryRun then [] else Clears(old(db.View()), cfg, prune, now)), ok)
  {
    hide Run;
    ghost var t, b := db.View(), db.budget;
    CarriedNothing(t, b);
    ghost var clears := if dryRun then [] else Clears(t, cfg, prune, now);
    ghost var plan := [Query] + clears;
    var wanted := Wanted(cfg);
    var page, rows, more;
    ok, page, rows, more := db.ListConfig(PAGE_LIMIT);
    if !ok {
      CarriedPrefix(t, b, db.View(), db.budget, [Query], plan);
      return;
    }
    ghost var a := if dryRun then [] else Disables(page, t.providers, wanted, now);
    ghost var t1, b1 := db.View(), db.budget;
    var disabled;
    ok, disabled := DisableUnwanted(db, page, rows, wanted, dryRun, now);
    CarriedAppend(t, b, t1, b1, db.View(), db.budget, [Query], a, ok);
    if !ok {
      CarriedPrefix(t, b, db.View(), db.budget, [Query] + a, plan);
      return;
    }
    if !prune {
      assert plan == [Query] + a;
      return;
    }
    ghost var c := if dryRun then [] else Deletes(disabled);
    ghost var t2, b2 := db.View(), db.budget;
    ok := DeleteAll(db, disabled, dryRun);
    CarriedAppend(t, b, t2, b2, db.View(), db.budget, [Query] + a, c, ok);
    Regroup([Query], a, c);
  }

  lemma ClearedManual(t: Tables, cfg: seq<ProviderConfig>, prune: bool, now: Time)
    ensures ManualIds(Run(t, [Query] + Clears(t, cfg, prune, now)).providers) == ManualIds(t.providers)
  {
    AfterQuery(t, Clears(t, cfg, prune, now), []);
    assert [Query] + Clears(t, cfg, prune, now) + [] == [Query] + Clears(t, cfg, prune, now);
    Sweep(t, cfg, prune, now);
  }

  /** The provider phase. */
  method SyncProviders(db: Database, cfg: seq<ProviderConfig>, prune: bool, dryRun: bool, stamp: Stamp)
    returns (ok: bool)
    modifies db
    ensures CarriedPlan(old(db.View()), old(db.budget), db.View(), db.budget,
                        if dryRun then Plan([Query], false) else ProviderPlan(old(db.View()), cfg, prune, stamp), ok)
  {
    hide Run;
    ghost var t, b := db.View(), db.budget;
    CarriedNothing(t, b);
    ghost var plan := if dryRun then Plan([Query], false) else ProviderPlan(t, cfg, prune, stamp);
    ghost var clears := [Query] + (if dryRun then [] else Clears(t, cfg, prune, stamp.now));
    ok := ClearProviders(db, cfg, prune, dryRun, stamp.now);
    if !ok {
      CarriedPrefix(t, b, db.View(), db.budget, clears, plan.ops);
      assert Carried(t, b, db.View(), db.budget, plan.ops, false);
      return;
    }
    ghost var t1, b1 := db.View(), db.budget;
    if !dryRun { ClearedManual(t, cfg, prune, stamp.now); }
    ghost var u := if dryRun then Plan([], false) else Upserts(cfg, |cfg|, ManualIds(t.providers), stamp);
    ok := UpsertWanted(db, cfg, dryRun, stamp);
    ghost var whole :| Carried(t1, b1, db.View(), db.budget, u.ops, whole) && ok == (whole && !u.fault);
    CarriedAppend(t, b, t1, b1, db.View(), db.budget, clears, u.ops, whole);
    assert clears + u.ops == plan.ops;
    assert Carried(t, b, db.View(), db.budget, plan.ops, whole);
  }

  lemma {:induction false} ClientUpsertsPrefix(cfg: seq<ClientConfig>, n: nat, m: nat, stamp: Stamp)
    requires n <= m <= |cfg|
    ensures ClientUpserts(cfg, n, stamp).ops <= ClientUpserts(cfg, m, stamp).ops
    ensures ClientUpserts(cfg, n, stamp).fault ==> ClientUpserts(cfg, m, stamp) == ClientUpserts(cfg, n, stamp)
  {
    if n < m { ClientUpsertsPrefix(cfg, n, m - 1, stamp); }
  }

  lemma {:induction false} ClientDeletesPrefix(ids: seq<Id>, i: nat)
    requires i <= |ids|
    ensures ClientDeletes(ids[..i]) <= ClientDeletes(ids)
  {
    if i == |ids| {
      assert ids[..i] == ids;
    } else {
      ClientDeletesPrefix(ids[..|ids| - 1], i);
      assert ids[..|ids| - 1][..i] == ids[..i];
    }
  }

  method DeleteClients(db: Database, ids: seq<Id>, dryRun: bool) returns (ok: bool)
    modifies db
    ensures Carried(old(db.View()), old(db.budget), db.View(), db.budget, if dryRun then [] else ClientDeletes(ids), ok)
  {
    hide Run;
    ok := true;
    ghost var t, b := db.View(), db.budget;
    CarriedNothing(t, b);
    for i := 0 to |ids|
      invariant ok && Carried(t, b, db.View(), db.budget, if dryRun then [] else ClientDeletes(ids[..i]), true)
    {
      if dryRun { continue; }
      ghost var t1, b1 := db.View(), db.budget;
      ok := db.DeleteStatic(ids[i]);
      CarriedAppend(t, b, t1, b1, db.View(), db.budget, ClientDeletes(ids[..i]), ClientDelete(ids[i]), ok);
      assert ids[..i + 1][..i] == ids[..i];
      if !ok {
        ClientDeletesPrefix(ids, i + 1);
        CarriedPrefix(t, b, db.View(), db.budget, ClientDeletes(ids[..i + 1]), ClientDeletes(ids));
        return;
      }
    }
    assert ids[..|ids|] == ids;
  }

  method UpsertClients(db: Database, cfg: seq<ClientConfig>, dryRun: bool, stamp: Stamp) returns (ok: bool)
    modifies db
    ensures CarriedPlan(old(db.View()), old(db.budget), db.View(), db.budget,
                        if dryRun then Plan([], false) else ClientUpserts(cfg, |cfg|, stamp), ok)
  {
    hide Run, Carried;
    ok := true;
    ghost var t, b := db.View(), db.budget;
    CarriedNothing(t, b);
    ghost var plan := if dryRun then Plan([], false) else ClientUpserts(cfg, |cfg|, stamp);
    for i := 0 to |cfg|
      invariant ok
      invariant var sofar := if dryRun then Plan([], false) else ClientUpserts(cfg, i, stamp);
                Carried(t, b, db.View(), db.budget, sofar.ops, true) && !sofar.fault
    {
      if dryRun { continue; }
      var c := cfg[i];
      ghost var sofar := ClientUpserts(cfg, i, stamp);
      ClientUpsertsPrefix(cfg, i + 1, |cfg|, stamp);
      if !c.secretLoads {
        ok := false;
        assert Carried(t, b, db.View(), db.budget, plan.ops, true);
        return;
      }
      ghost var t1, b1 := db.View(), db.budget;
      var op := Op.UpsertStatic(c.id, c.settings, Seal(c.secret, stamp));
      ok := db.Execute(op);
      CarriedAppend(t, b, t1, b1, db.View(), db.budget, sofar.ops, [op], ok);
      if !ok {
        CarriedPrefix(t, b, db.View(), db.budget, sofar.ops + [op], plan.ops);
        return;
      }
      if !c.keysAgree {
        ok := false;
        assert Carried(t, b, db.View(), db.budget, plan.ops, true);
        return;
      }
    }
    assert Carried(t, b, db.View(), db.budget, plan.ops, true);
  }

  /** The client phase. */
  method SyncClients(db: Database, cfg: seq<ClientConfig>, prune: bool, dryRun: bool, stamp: Stamp)
    returns (ok: bool)
    modifies db
    ensures CarriedPlan(old(db.View()), old(db.budget), db.View(), db.budget,
                        if dryRun then Plan([Query] + Details(old(db.clients)), false)
                        else ClientPlan(old(db.View()), cfg, prune, stamp), ok)
  {
    hide Run;
    ghost var t, b := db.View(), db.budget;
    CarriedNothing(t, b);
    ghost var listing := [Query] + Details(t.clients);
    ghost var plan := if dryRun then Plan(listing, false) else ClientPlan(t, cfg, prune, stamp);
    ghost var a := if dryRun || !prune then [] else ClientDeletes(Unnamed(Statics(t, stamp), ClientIds(cfg)));
    ghost var u := if dryRun then Plan([], false) else ClientUpserts(cfg, |cfg|, stamp);
    Regroup([Query], Details(t.clients), a);
    assert plan == Plan(listing + a + u.ops, u.fault);
    var statics;
    ok, statics := db.AllStatic(stamp.order);
    if !ok {
      CarriedPrefix(t, b, db.View(), db.budget, listing, plan.ops);
      assert Carried(t, b, db.View(), db.budget, plan.ops, false);
      return;
    }
    var doomed := Unnamed(statics, ClientIds(cfg));
    ghost var t1, b1 := db.View(), db.budget;
    if prune {
      ok := DeleteClients(db, doomed, dryRun);
    }
    CarriedAppend(t, b, t1, b1, db.View(), db.budget, listing, a, ok);
    if !ok {
      CarriedPrefix(t, b, db.View(), db.budget, listing + a, plan.ops);
      assert Carried(t, b, db.View(), db.budget, plan.ops, false);
      return;
    }
    ghost var t2, b2 := db.View(), db.budget;
    ok := UpsertClients(db, cfg, dryRun, stamp);
    ghost var whole :| Carried(t2, b2, db.View(), db.budget, u.ops, whole) && ok == (whole && !u.fault);
    CarriedAppend(t, b, t2, b2, db.View(), db.budget, listing + a, u.ops, whole);
    assert Carried(t, b, db.View(), db.budget, plan.ops, whole);
  }

  lemma CarriedSettles(
    t: Tables, b: nat, t1: Tables, b1: nat,
    providers: seq<ProviderConfig>, clients: seq<ClientConfig>, prune: bool, stamp: Stamp)
    requires var plan := Planned(t, providers, clients, prune, false, stamp);
             !plan.fault && Carried(t, b, t1, b1, plan.ops, true)
    ensures Completed(t, t1, providers, clients, prune, stamp)
  {
    PlannedSettles(t, providers, clients, prune, stamp);
  }

  lemma SecondPhaseSame(
    t: Tables, providers: seq<ProviderConfig>, clients: seq<ClientConfig>, prune: bool, stamp: Stamp)
    requires !ProviderPlan(t, providers, prune, stamp).fault
    ensures ClientPlan(Run(t, ProviderPlan(t, providers, prune, stamp).ops), clients, prune, stamp)
         == ClientPlan(t, clients, prune, stamp)
  {
    ProviderPhase(t, providers, prune, stamp);
    ClientPlanSame(t, Run(t, ProviderPlan(t, providers, prune, stamp).ops), clients, prune, stamp);
  }

  lemma DryRunReads(t: Tables, b: nat, t1: Tables, b1: nat, ok: bool)
    requires Carried(t, b, t1, b1, [Query] + ([Query] + Details(t.clients)), ok)
    ensures t1 == t && ok == (b >= 2 + |Details(t.clients)|)
  {
    var ops := [Query] + ([Query] + Details(t.clients));
    OnlyQueries(t, Cut(ops, b));
  }

  lemma {:induction false} OnlyQueries(t: Tables, ops: seq<Op>)
    requires forall i :: 0 <= i < |ops| ==> ops[i].Query?
    ensures Run(t, ops) == t
  {
    if ops != [] { OnlyQueries(t, ops[..|ops| - 1]); }
  }

  /**
   * One run on a connection that already holds the lock. It carries out the planned statements
   * in order, stops at the first that the connection refuses, and if it reports success has
   * settled the tables. A dry run makes its two or three queries and changes nothing.
   */
  method ConfigSync(
    db: Database, providers: seq<ProviderConfig>, clients: seq<ClientConfig>,
    prune: bool, dryRun: bool, stamp: Stamp) returns (ok: bool)
    modifies db
    ensures CarriedPlan(old(db.View()), old(db.budget), db.View(), db.budget,
                        Planned(old(db.View()), providers, clients, prune, dryRun, stamp), ok)
    ensures dryRun ==> db.View() == old(db.View()) && ok == (old(db.budget) >= 2 + |Details(old(db.clients))|)
    ensures ok && !dryRun ==> Completed(old(db.View()), db.View(), providers, clients, prune, stamp)
  {
    hide Run;
    ghost var t, b := db.View(), db.budget;
    CarriedNothing(t, b);
    ghost var plan := Planned(t, providers, clients, prune, dryRun, stamp);
    ghost var first := if dryRun then Plan([Query], false) else ProviderPlan(t, providers, prune, stamp);
    ok := SyncProviders(db, providers, prune, dryRun, stamp);
    ghost var whole :| Carried(t, b, db.View(), db.budget, first.ops, whole) && ok == (whole && !first.fault);
    if !ok {
      if !whole { CarriedPrefix(t, b, db.View(), db.budget, first.ops, plan.ops); }
      assert Carried(t, b, db.View(), db.budget, plan.ops, whole);
      if dryRun { DryRunReads(t, b, db.View(), db.budget, whole); }
      return;
    }
    ghost var t1, b1 := db.View(), db.budget;
    ghost var second := if dryRun then Plan([Query] + Details(t1.clients), false) else ClientPlan(t1, clients, prune, stamp);
    if dryRun { OnlyQueries(t, Cut([Query], b)); } else { SecondPhaseSame(t, providers, clients, prune, stamp); }
    ok := SyncClients(db, clients, prune, dryRun, stamp);
    ghost var rest :| Carried(t1, b1, db.View(), db.budget, second.ops, rest) && ok == (rest && !second.fault);
    CarriedAppend(t, b, t1, b1, db.View(), db.budget, first.ops, second.ops, rest);
    assert first.ops + second.ops == plan.ops;
    assert Carried(t, b, db.View(), db.budget, plan.ops, rest);
    if dryRun {
      DryRunReads(t, b, db.View(), db.budget, rest);
    } else if ok {
      CarriedSettles(t, b, db.View(), db.budget, providers, clients, prune, stamp);
    }
  }
}

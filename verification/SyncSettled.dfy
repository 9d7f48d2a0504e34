/**
 * The tables a completed run leaves behind, given row by row and without reference to the
 * order of writes, and the proof that the planned writes produce exactly that.
 */
module SyncSettled {
  import opened Wrappers
  import opened SyncTables
  import opened SyncPlan
  import opened SyncEffect

  /** The run looks at this row: it is config-sourced and among the first 1000 of those. */
  ghost predicate Seen(providers: map<Id, Provider>, id: Id) {
    id in ConfigIds(providers) && Rank(ConfigIds(providers), id) < PAGE_LIMIT
  }

  /** The row before the upserts. */
  ghost function Swept(providers: map<Id, Provider>, wanted: set<Id>, prune: bool, now: Time, id: Id): Option<Provider> {
    if Seen(providers, id) && Stale(providers, wanted, id) then
      if prune then None
      else if providers[id].Enabled() then Some(providers[id].(disabledAt := Some(now)))
      else Some(providers[id])
    else Lookup(providers, id)
  }

  ghost function Settled(
    providers: map<Id, Provider>, cfg: seq<ProviderConfig>, prune: bool, stamp: Stamp, id: Id): Option<Provider>
  {
    var swept := Swept(providers, Wanted(cfg), prune, stamp.now, id);
    match LastIndex(cfg, |cfg|, id)
    case Some(k) => if id in ManualIds(providers) then swept
                    else Some(Upserted(swept, ParamsOf(cfg[k], k, stamp), stamp.now))
    case None => swept
  }

  /** A prune run deletes the provider, whether or not it is inserted again afterwards. */
  ghost predicate Pruned(providers: map<Id, Provider>, cfg: seq<ProviderConfig>, prune: bool, id: Id) {
    prune && Seen(providers, id) && Stale(providers, Wanted(cfg), id)
  }

  ghost function SettledLinks(t: Tables, cfg: seq<ProviderConfig>, prune: bool): map<Link, Id> {
    map r | r in t.links && !Pruned(t.providers, cfg, prune, t.links[r]) :: t.links[r]
  }

  ghost function SettledClient(clients: map<Id, Client>, cfg: seq<ClientConfig>, prune: bool, stamp: Stamp, id: Id): Option<Client> {
    match LastClient(cfg, |cfg|, id)
    case Some(k) =>
      Some(Client(true, cfg[k].settings, Seal(cfg[k].secret, stamp),
                  if id in clients then clients[id].registration else ""))
    case None => if prune && id in StaticIds(clients) then None else Lookup(clients, id)
  }

  ghost function SettledSessions(t: Tables, cfg: seq<ClientConfig>, prune: bool): map<Belonging, Id> {
    map r | r in t.sessions && !(prune && t.sessions[r] in StaticIds(t.clients) && t.sessions[r] !in ClientIds(cfg)) :: t.sessions[r]
  }

  lemma SweepRows(t: Tables, cfg: seq<ProviderConfig>, prune: bool, now: Time)
    ensures var after := Run(t, Clears(t, cfg, prune, now));
            && after.clients == t.clients && after.sessions == t.sessions
            && var page := Page(ConfigIds(t.providers), PAGE_LIMIT);
               var stale := StaleIn(page, t.providers, Wanted(cfg));
               var disabled := AfterDisables(t.providers, page, Wanted(cfg), now);
               && after.providers == (if prune then disabled - Elements(stale) else disabled)
               && after.links == (if prune then KeepTargets(t.links, stale) else t.links)
  {
    var page := Page(ConfigIds(t.providers), PAGE_LIMIT);
    var a := Disables(page, t.providers, Wanted(cfg), now);
    RunDisables(t, page, Wanted(cfg), now);
    if prune {
      var stale := StaleIn(page, t.providers, Wanted(cfg));
      RunAppend(t, a, Deletes(stale));
      RunDeletes(Run(t, a), stale);
    } else {
      assert a + [] == a;
    }
  }

  /** Making room: rows not wanted or disabled go, as far as they are seen; manual rows stay. */
  lemma Sweep(t: Tables, cfg: seq<ProviderConfig>, prune: bool, now: Time)
    ensures var after := Run(t, Clears(t, cfg, prune, now));
            && after.clients == t.clients && after.sessions == t.sessions
            && after.links == SettledLinks(t, cfg, prune)
            && ManualIds(after.providers) == ManualIds(t.providers)
            && forall id :: Lookup(after.providers, id) == Swept(t.providers, Wanted(cfg), prune, now, id)
  {
    hide Run, Clears;
    var after := Run(t, Clears(t, cfg, prune, now));
    var page := Page(ConfigIds(t.providers), PAGE_LIMIT);
    SweepRows(t, cfg, prune, now);
    StaleInMembers(page, t.providers, Wanted(cfg));
    forall id ensures id in page <==> Seen(t.providers, id) {}
    forall id ensures Lookup(after.providers, id) == Swept(t.providers, Wanted(cfg), prune, now, id) {
      assert id in page <==> Seen(t.providers, id);
    }
    forall id ensures id in ManualIds(after.providers) <==> id in ManualIds(t.providers) {
      assert Lookup(after.providers, id) == Swept(t.providers, Wanted(cfg), prune, now, id);
    }
  }

  lemma AfterQuery(t: Tables, a: seq<Op>, b: seq<Op>)
    ensures Run(t, [Query] + a + b) == Run(Run(t, a), b)
  {
    RunAppend(t, [Query] + a, b);
    RunAppend(t, [Query], a);
    RunPush(t, [], Query);
    assert [] + [Query] == [Query];
  }

  lemma ProviderPhase(t: Tables, cfg: seq<ProviderConfig>, prune: bool, stamp: Stamp)
    requires !ProviderPlan(t, cfg, prune, stamp).fault
    ensures var after := Run(t, ProviderPlan(t, cfg, prune, stamp).ops);
            && after.clients == t.clients && after.sessions == t.sessions
            && after.links == SettledLinks(t, cfg, prune)
            && forall id :: Lookup(after.providers, id) == Settled(t.providers, cfg, prune, stamp, id)
  {
    var clears := Clears(t, cfg, prune, stamp.now);
    var u := Upserts(cfg, |cfg|, ManualIds(t.providers), stamp).ops;
    AfterQuery(t, clears, u);
    Sweep(t, cfg, prune, stamp.now);
    RunUpserts(Run(t, clears), cfg, |cfg|, ManualIds(t.providers), stamp);
  }

  lemma RunNothing(t: Tables)
    ensures Run(t, []) == t
  {
  }

  lemma RunDetails(t: Tables, ops: seq<Op>)
    ensures Run(t, Details(t.clients) + ops) == Run(t, ops)
  {
    RunAppend(t, Details(t.clients), ops);
    RunPush(t, [], Query);
    assert [] + [Query] == [Query];
    assert Run(t, Details(t.clients)) == t;
  }

  lemma ClientSweep(t: Tables, cfg: seq<ClientConfig>, prune: bool, stamp: Stamp)
    ensures var after := Run(t, ClientClears(t, cfg, prune, stamp));
            && after.(clients := t.clients, sessions := t.sessions) == t
            && after.sessions == SettledSessions(t, cfg, prune)
            && forall id :: Lookup(after.clients, id)
                         == if prune && id in StaticIds(t.clients) && id !in ClientIds(cfg) then None else Lookup(t.clients, id)
  {
    hide Run, Details;
    var doomed := Unnamed(Statics(t, stamp), ClientIds(cfg));
    UnnamedMembers(Statics(t, stamp), ClientIds(cfg));
    StaticsMembers(t, stamp);
    RunDetails(t, if prune then ClientDeletes(doomed) else []);
    if prune { RunClientDeletes(t, doomed); } else { RunNothing(t); }
  }

  lemma ClientPhase(t: Tables, cfg: seq<ClientConfig>, prune: bool, stamp: Stamp)
    requires !ClientPlan(t, cfg, prune, stamp).fault
    ensures var after := Run(t, ClientPlan(t, cfg, prune, stamp).ops);
            && after.providers == t.providers && after.links == t.links
            && after.sessions == SettledSessions(t, cfg, prune)
            && forall id :: Lookup(after.clients, id) == SettledClient(t.clients, cfg, prune, stamp, id)
  {
    var clears := ClientClears(t, cfg, prune, stamp);
    var u := ClientUpserts(cfg, |cfg|, stamp).ops;
    AfterQuery(t, clears, u);
    ClientSweep(t, cfg, prune, stamp);
    var t1 := Run(t, clears);
    RunClientUpserts(t1, cfg, |cfg|, stamp);
    forall id ensures AfterClientUpsert(Lookup(t1.clients, id), cfg, |cfg|, stamp, id)
                   == SettledClient(t.clients, cfg, prune, stamp, id)
    {
      LastClientNames(cfg, id);
    }
  }

  lemma LastClientNames(cfg: seq<ClientConfig>, id: Id)
    ensures LastClient(cfg, |cfg|, id).Some? <==> id in ClientIds(cfg)
  {
  }

  lemma LastIndexWanted(cfg: seq<ProviderConfig>, id: Id)
    ensures LastIndex(cfg, |cfg|, id).Some? <==> id in Wanted(cfg)
  {
  }

  /** `after` is what a completed run of `config_sync` makes of `t`. */
  ghost predicate Completed(
    t: Tables, after: Tables, providers: seq<ProviderConfig>, clients: seq<ClientConfig>, prune: bool, stamp: Stamp)
  {
    && (forall id :: Lookup(after.providers, id) == Settled(t.providers, providers, prune, stamp, id))
    && after.links == SettledLinks(t, providers, prune)
    && (forall id :: Lookup(after.clients, id) == SettledClient(t.clients, clients, prune, stamp, id))
    && after.sessions == SettledSessions(t, clients, prune)
  }

  /** The client phase depends on the client tables alone. */
  lemma ClientPlanSame(t: Tables, t1: Tables, cfg: seq<ClientConfig>, prune: bool, stamp: Stamp)
    requires t1.clients == t.clients && t1.sessions == t.sessions
    ensures ClientPlan(t1, cfg, prune, stamp) == ClientPlan(t, cfg, prune, stamp)
    ensures SettledSessions(t1, cfg, prune) == SettledSessions(t, cfg, prune)
  {
  }

  /** The planned statements of a run that is not dry and meets no fault settle the tables. */
  lemma PlannedSettles(
    t: Tables, providers: seq<ProviderConfig>, clients: seq<ClientConfig>, prune: bool, stamp: Stamp)
    requires !Planned(t, providers, clients, prune, false, stamp).fault
    ensures Completed(t, Run(t, Planned(t, providers, clients, prune, false, stamp).ops), providers, clients, prune, stamp)
  {
    var first := ProviderPlan(t, providers, prune, stamp);
    var second := ClientPlan(t, clients, prune, stamp);
    var t1 := Run(t, first.ops);
    ProviderPhase(t, providers, prune, stamp);
    ClientPlanSame(t, t1, clients, prune, stamp);
    ClientPhase(t1, clients, prune, stamp);
    RunAppend(t, first.ops, second.ops);
  }
}

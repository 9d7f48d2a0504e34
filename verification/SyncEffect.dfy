/** What each stretch of a plan does to the tables, in closed form. */
module SyncEffect {
  import opened Wrappers
  import opened SyncTables
  import opened SyncPlan

  predicate MustDisable(providers: map<Id, Provider>, wanted: set<Id>, id: Id) {
    id in providers && providers[id].Enabled() && id !in wanted
  }

  ghost function AfterDisables(providers: map<Id, Provider>, page: seq<Id>, wanted: set<Id>, now: Time): map<Id, Provider> {
    map id | id in providers ::
      if id in page && MustDisable(providers, wanted, id)
      then providers[id].(disabledAt := Some(now)) else providers[id]
  }

  lemma AfterDisablesPush(providers: map<Id, Provider>, page: seq<Id>, id: Id, wanted: set<Id>, now: Time)
    ensures AfterDisables(providers, page + [id], wanted, now)
         == var before := AfterDisables(providers, page, wanted, now);
            if MustDisable(providers, wanted, id) then before[id := before[id].(disabledAt := Some(now))] else before
  {
  }

  lemma {:induction false} RunDisables(t: Tables, page: seq<Id>, wanted: set<Id>, now: Time)
    ensures Run(t, Disables(page, t.providers, wanted, now))
         == t.(providers := AfterDisables(t.providers, page, wanted, now))
  {
    if page == [] {
      assert AfterDisables(t.providers, page, wanted, now) == t.providers;
    } else {
      var front, id := page[..|page| - 1], page[|page| - 1];
      RunDisables(t, front, wanted, now);
      assert page == front + [id];
      AfterDisablesPush(t.providers, front, id, wanted, now);
      RunPush(t, Disables(front, t.providers, wanted, now), Op.Disable(id, now));
      assert Disables(front, t.providers, wanted, now) + [] == Disables(front, t.providers, wanted, now);
    }
  }

  ghost function KeepTargets<R(!new)>(references: map<R, Id>, gone: seq<Id>): map<R, Id> {
    map r | r in references && references[r] !in gone :: references[r]
  }

  ghost function Without<R(!new)>(references: map<R, Id>, target: Id): map<R, Id> {
    map r | r in references && references[r] != target :: references[r]
  }

  /** When both tables that refer to the provider are cleared nothing keeps its row. */
  lemma RunProviderDelete(t: Tables, id: Id)
    ensures Run(t, ProviderDelete(id)) == t.(providers := t.providers - {id}, links := Without(t.links, id))
  {
    var a, b, c := DropLinks(AuthorizationSessions, id), DropLinks(Links, id), DeleteProvider(id);
    RunPush(t, [], a);
    RunPush(t, [a], b);
    RunPush(t, [a, b], c);
    assert [] + [a] == [a] && [a] + [b] == [a, b] && [a, b] + [c] == ProviderDelete(id);
    var cleared := Exec(Exec(t, a), b);
    assert cleared.links == Without(t.links, id) by {
      forall r ensures r in cleared.links <==> r in Without(t.links, id) {
        if r in t.links { match r.table case AuthorizationSessions => case Links => }
      }
    }
    assert Unlinked(cleared.links, id);
  }

  /** What is left of a client's belongings once some of the tables are cleared. */
  ghost function Uncleared(sessions: map<Belonging, Id>, tables: set<ClientTable>, id: Id): map<Belonging, Id> {
    map r | r in sessions && !(r.table in tables && sessions[r] == id) :: sessions[r]
  }

  lemma ClearMore(sessions: map<Belonging, Id>, tables: set<ClientTable>, table: ClientTable, id: Id)
    ensures SessionsWithout(Uncleared(sessions, tables, id), table, id) == Uncleared(sessions, tables + {table}, id)
  {
    var a, b := SessionsWithout(Uncleared(sessions, tables, id), table, id), Uncleared(sessions, tables + {table}, id);
    forall r ensures r in a <==> r in b {
      assert r.table in tables + {table} <==> r.table in tables || r.table == table;
    }
  }

  lemma ExecClears(t: Tables, tables: set<ClientTable>, table: ClientTable, id: Id)
    ensures Exec(t.(sessions := Uncleared(t.sessions, tables, id)), DropSessions(table, id))
         == t.(sessions := Uncleared(t.sessions, tables + {table}, id))
  {
    ClearMore(t.sessions, tables, table, id);
  }

  lemma RunNext(t: Tables, ops: seq<Op>, k: nat)
    requires k < |ops|
    ensures Run(t, ops[..k + 1]) == Exec(Run(t, ops[..k]), ops[k])
  {
    assert ops[..k + 1] == ops[..k] + [ops[k]];
    RunPush(t, ops[..k], ops[k]);
  }

  lemma SessionsCleared(t: Tables, id: Id)
    ensures Run(t, ClientDelete(id)[..6]) == t.(sessions := Without(t.sessions, id))
  {
    var ops := ClientDelete(id);
    assert Uncleared(t.sessions, {}, id) == t.sessions;
    var one := {} + {Grants};
    var two := one + {AccessTokens};
    var three := two + {RefreshTokens};
    var four := three + {Sessions};
    var five := four + {PersonalTokens};
    ExecClears(t, {}, Grants, id);
    ExecClears(t, one, AccessTokens, id);
    ExecClears(t, two, RefreshTokens, id);
    ExecClears(t, three, Sessions, id);
    ExecClears(t, four, PersonalTokens, id);
    ExecClears(t, five, PersonalSessions, id);
    RunNext(t, ops, 0);
    RunNext(t, ops, 1);
    RunNext(t, ops, 2);
    RunNext(t, ops, 3);
    RunNext(t, ops, 4);
    RunNext(t, ops, 5);
    assert ops[..0] == [];
    AllCleared(t.sessions, five + {PersonalSessions}, id);
  }

  lemma AllCleared(sessions: map<Belonging, Id>, tables: set<ClientTable>, id: Id)
    requires tables == {Grants, AccessTokens, RefreshTokens, Sessions, PersonalTokens, PersonalSessions}
    ensures Uncleared(sessions, tables, id) == Without(sessions, id)
  {
    forall r: Belonging ensures r.table in tables {
      match r.table case Grants => case AccessTokens => case RefreshTokens => case Sessions => case PersonalTokens => case PersonalSessions =>
    }
  }

  lemma RunClientDelete(t: Tables, id: Id)
    ensures Run(t, ClientDelete(id)) == t.(clients := t.clients - {id}, sessions := Without(t.sessions, id))
  {
    SessionsCleared(t, id);
    var ops := ClientDelete(id);
    assert ops == ops[..6] + [DeleteClient(id)];
    RunPush(t, ops[..6], DeleteClient(id));
    assert Unlinked(Run(t, ops[..6]).sessions, id);
  }

  lemma {:induction false} RunDeletes(t: Tables, ids: seq<Id>)
    ensures Run(t, Deletes(ids))
         == t.(providers := t.providers - Elements(ids), links := KeepTargets(t.links, ids))
  {
    if ids == [] {
      assert Elements(ids) == {};
      assert t.providers - {} == t.providers && KeepTargets(t.links, []) == t.links;
    } else {
      var front, id := ids[..|ids| - 1], ids[|ids| - 1];
      RunDeletes(t, front);
      assert ids == front + [id];
      RunAppend(t, Deletes(front), ProviderDelete(id));
      RunProviderDelete(Run(t, Deletes(front)), id);
      assert t.providers - Elements(ids) == (t.providers - Elements(front)) - {id};
      assert KeepTargets(t.links, ids) == Without(KeepTargets(t.links, front), id);
    }
  }

  lemma {:induction false} RunClientDeletes(t: Tables, ids: seq<Id>)
    ensures Run(t, ClientDeletes(ids))
         == t.(clients := t.clients - Elements(ids), sessions := KeepTargets(t.sessions, ids))
  {
    if ids == [] {
      assert Elements(ids) == {};
      assert t.clients - {} == t.clients && KeepTargets(t.sessions, []) == t.sessions;
    } else {
      var front, id := ids[..|ids| - 1], ids[|ids| - 1];
      RunClientDeletes(t, front);
      assert ids == front + [id];
      RunAppend(t, ClientDeletes(front), ClientDelete(id));
      RunClientDelete(Run(t, ClientDeletes(front)), id);
      assert t.clients - Elements(ids) == (t.clients - Elements(front)) - {id};
      assert KeepTargets(t.sessions, ids) == Without(KeepTargets(t.sessions, front), id);
    }
  }

  /** The last enabled position below `n` that names `id`, if any: later entries win. */
  function LastIndex(cfg: seq<ProviderConfig>, n: nat, id: Id): (k: Option<nat>)
    requires n <= |cfg|
    ensures k.Some? ==> k.value < n && cfg[k.value].enabled && cfg[k.value].id == id
    ensures forall i :: 0 <= i < n && cfg[i].enabled && cfg[i].id == id ==> k.Some? && i <= k.value
  {
    if n == 0 then None
    else if cfg[n - 1].enabled && cfg[n - 1].id == id then Some(n - 1)
    else LastIndex(cfg, n - 1, id)
  }

  ghost function AfterUpsert(
    before: Option<Provider>, cfg: seq<ProviderConfig>, n: nat, manual: set<Id>, stamp: Stamp, id: Id): Option<Provider>
    requires n <= |cfg|
  {
    match LastIndex(cfg, n, id)
    case Some(k) => if id in manual then before
                    else Some(Upserted(before, ParamsOf(cfg[k], k, stamp), stamp.now))
    case None => before
  }

  lemma UpsertStep(
    before: Tables, t: Tables, cfg: seq<ProviderConfig>, n: nat, manual: set<Id>, stamp: Stamp, id: Id)
    requires 0 < n <= |cfg| && cfg[n - 1].enabled && cfg[n - 1].id !in manual
    requires Lookup(before.providers, id) == AfterUpsert(Lookup(t.providers, id), cfg, n - 1, manual, stamp, id)
    ensures var op := Op.Upsert(cfg[n - 1].id, ParamsOf(cfg[n - 1], n - 1, stamp), stamp.now);
            Lookup(Exec(before, op).providers, id) == AfterUpsert(Lookup(t.providers, id), cfg, n, manual, stamp, id)
  {
  }

  lemma {:induction false} RunUpserts(t: Tables, cfg: seq<ProviderConfig>, n: nat, manual: set<Id>, stamp: Stamp)
    requires n <= |cfg|
    requires !Upserts(cfg, n, manual, stamp).fault
    ensures var after := Run(t, Upserts(cfg, n, manual, stamp).ops);
            && after.(providers := t.providers) == t
            && forall id :: Lookup(after.providers, id)
                         == AfterUpsert(Lookup(t.providers, id), cfg, n, manual, stamp, id)
  {
    if n > 0 {
      RunUpserts(t, cfg, n - 1, manual, stamp);
      var before := Upserts(cfg, n - 1, manual, stamp).ops;
      var c := cfg[n - 1];
      RunPush(t, before, Query);
      if c.enabled && c.id !in manual {
        var op := Op.Upsert(c.id, ParamsOf(c, n - 1, stamp), stamp.now);
        RunPush(t, before + [Query], op);
        assert before + [Query] + [op] == before + [Query, op];
        forall id { UpsertStep(Run(t, before), t, cfg, n, manual, stamp, id); }
      }
    }
  }

  function LastClient(cfg: seq<ClientConfig>, n: nat, id: Id): (k: Option<nat>)
    requires n <= |cfg|
    ensures k.Some? ==> k.value < n && cfg[k.value].id == id
    ensures forall i :: 0 <= i < n && cfg[i].id == id ==> k.Some? && i <= k.value
  {
    if n == 0 then None
    else if cfg[n - 1].id == id then Some(n - 1)
    else LastClient(cfg, n - 1, id)
  }

  ghost function AfterClientUpsert(
    before: Option<Client>, cfg: seq<ClientConfig>, n: nat, stamp: Stamp, id: Id): Option<Client>
    requires n <= |cfg|
  {
    match LastClient(cfg, n, id)
    case Some(k) =>
      Some(Client(true, cfg[k].settings, Seal(cfg[k].secret, stamp),
                  if before.Some? then before.value.registration else ""))
    case None => before
  }

  lemma ClientUpsertStep(before: Tables, t: Tables, cfg: seq<ClientConfig>, n: nat, stamp: Stamp, id: Id)
    requires 0 < n <= |cfg|
    requires Lookup(before.clients, id) == AfterClientUpsert(Lookup(t.clients, id), cfg, n - 1, stamp, id)
    ensures var op := Op.UpsertStatic(cfg[n - 1].id, cfg[n - 1].settings, Seal(cfg[n - 1].secret, stamp));
            Lookup(Exec(before, op).clients, id) == AfterClientUpsert(Lookup(t.clients, id), cfg, n, stamp, id)
  {
  }

  lemma {:induction false} RunClientUpserts(t: Tables, cfg: seq<ClientConfig>, n: nat, stamp: Stamp)
    requires n <= |cfg|
    requires !ClientUpserts(cfg, n, stamp).fault
    ensures var after := Run(t, ClientUpserts(cfg, n, stamp).ops);
            && after.(clients := t.clients) == t
            && forall id :: Lookup(after.clients, id)
                         == AfterClientUpsert(Lookup(t.clients, id), cfg, n, stamp, id)
  {
    if n > 0 {
      RunClientUpserts(t, cfg, n - 1, stamp);
      var c := cfg[n - 1];
      var before := Run(t, ClientUpserts(cfg, n - 1, stamp).ops);
      RunPush(t, ClientUpserts(cfg, n - 1, stamp).ops, Op.UpsertStatic(c.id, c.settings, Seal(c.secret, stamp)));
      forall id { ClientUpsertStep(before, t, cfg, n, stamp, id); }
    }
  }

  lemma {:induction false} StaleInMembers(page: seq<Id>, providers: map<Id, Provider>, wanted: set<Id>)
    ensures forall id :: id in StaleIn(page, providers, wanted) <==> id in page && Stale(providers, wanted, id)
  {
    if page != [] {
      var last := |page| - 1;
      assert page == page[..last] + [page[last]];
      StaleInMembers(page[..last], providers, wanted);
    }
  }

  lemma {:induction false} UnnamedMembers(statics: seq<Id>, named: set<Id>)
    ensures forall id :: id in Unnamed(statics, named) <==> id in statics && id !in named
  {
    if statics != [] {
      var last := |statics| - 1;
      assert statics == statics[..last] + [statics[last]];
      UnnamedMembers(statics[..last], named);
    }
  }

  lemma StaticsMembers(t: Tables, stamp: Stamp)
    ensures forall id :: id in Statics(t, stamp) <==> id in StaticIds(t.clients)
  {
    ListedIsListing(stamp.order, StaticIds(t.clients));
    forall id | id in Statics(t, stamp) ensures id in StaticIds(t.clients) {
      var i :| 0 <= i < |Statics(t, stamp)| && Statics(t, stamp)[i] == id;
    }
  }
}

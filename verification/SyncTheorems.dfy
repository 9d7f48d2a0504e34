/**
 * What a completed run of `config_sync` achieves: what it leaves alone, when the tables agree
 * with the configuration afterwards, and when a second run has nothing left to do.
 */
module SyncTheorems {
  import opened Wrappers
  import opened SyncTables
  import opened SyncPlan
  import opened SyncEffect
  import opened SyncSettled

  ghost function EnabledConfig(providers: map<Id, Provider>): set<Id> {
    set id | id in ConfigIds(providers) && providers[id].Enabled()
  }

  /** The ids the configuration is entitled to. */
  ghost function Target(t: Tables, cfg: seq<ProviderConfig>): set<Id> {
    Wanted(cfg) - ManualIds(t.providers)
  }

  /** Manual rows survive with every column as it was, and nothing becomes manual. */
  lemma ManualRowsUntouched(
    t: Tables, after: Tables, cfg: seq<ProviderConfig>, clients: seq<ClientConfig>, prune: bool, stamp: Stamp)
    requires Completed(t, after, cfg, clients, prune, stamp)
    ensures ManualIds(after.providers) == ManualIds(t.providers)
    ensures forall id :: id in ManualIds(t.providers) ==> after.providers[id] == t.providers[id]
    ensures forall r :: r in t.links && t.links[r] in ManualIds(t.providers) ==> r in after.links
  {
    forall id ensures id in ManualIds(after.providers) <==> id in ManualIds(t.providers)
              ensures id in ManualIds(t.providers) ==> after.providers[id] == t.providers[id]
    {
      assert Lookup(after.providers, id) == Settled(t.providers, cfg, prune, stamp, id);
    }
  }

  /** Which config-sourced rows a run leaves behind. */
  lemma RemainingRows(
    t: Tables, after: Tables, cfg: seq<ProviderConfig>, clients: seq<ClientConfig>, prune: bool, stamp: Stamp, id: Id)
    requires Completed(t, after, cfg, clients, prune, stamp)
    ensures id in ConfigIds(after.providers) <==>
              id in Target(t, cfg) || (id in ConfigIds(t.providers) && !(prune && Seen(t.providers, id)))
    ensures id in ConfigIds(after.providers) ==>
              (after.providers[id].Enabled() <==>
                if id in Target(t, cfg)
                then id !in t.providers || t.providers[id].Enabled() || (prune && Seen(t.providers, id))
                else t.providers[id].Enabled() && !Seen(t.providers, id))
  {
    assert Lookup(after.providers, id) == Settled(t.providers, cfg, prune, stamp, id);
    LastIndexWanted(cfg, id);
  }

  /** No disabled row stands in the way of a wanted id, and no enabled unwanted row is out of sight. */
  ghost predicate Reachable(t: Tables, cfg: seq<ProviderConfig>, prune: bool) {
    forall id :: id in ConfigIds(t.providers) ==>
      if id in Wanted(cfg) then t.providers[id].Enabled() || (prune && Seen(t.providers, id))
      else t.providers[id].Enabled() ==> Seen(t.providers, id)
  }

  /** The enabled config-sourced providers are the wanted ones exactly from a reachable start. */
  lemma Convergence(
    t: Tables, after: Tables, cfg: seq<ProviderConfig>, clients: seq<ClientConfig>, prune: bool, stamp: Stamp)
    requires Completed(t, after, cfg, clients, prune, stamp)
    ensures EnabledConfig(after.providers) == Target(t, cfg) <==> Reachable(t, cfg, prune)
  {
    forall id { RemainingRows(t, after, cfg, clients, prune, stamp, id); }
    if Reachable(t, cfg, prune) {
      assert forall id :: id in EnabledConfig(after.providers) <==> id in Target(t, cfg);
    } else {
      var id :| id in ConfigIds(t.providers) &&
        !(if id in Wanted(cfg) then t.providers[id].Enabled() || (prune && Seen(t.providers, id))
          else t.providers[id].Enabled() ==> Seen(t.providers, id));
      assert (id in EnabledConfig(after.providers)) != (id in Target(t, cfg));
    }
  }

  /** At most 1000 rows are all seen, so only a soft-deleted wanted row can then prevent convergence. */
  lemma ReachableWhenSmall(t: Tables, cfg: seq<ProviderConfig>, prune: bool)
    requires |ConfigIds(t.providers)| <= PAGE_LIMIT
    ensures Reachable(t, cfg, prune) <==>
              prune || forall id :: id in ConfigIds(t.providers) && id in Wanted(cfg) ==> t.providers[id].Enabled()
  {
    var ids := ConfigIds(t.providers);
    forall id | id in ids ensures Seen(t.providers, id) {
      RankOfMember(ids, id);
    }
  }

  /** Without prune, a provider that was soft-deleted stays disabled although it is wanted again. */
  lemma SoftDeletedStaysDisabled()
    ensures exists t: Tables, after: Tables, cfg, stamp ::
              && Completed(t, after, cfg, [], false, stamp)
              && 7 in Target(t, cfg) && |ConfigIds(t.providers)| <= PAGE_LIMIT
              && 7 in after.providers && !after.providers[7].Enabled()
  {
    var stamp := Stamp(5, 0, _ => []);
    var cfg := [ProviderConfig(7, true, "s", None, true, true)];
    var row := Provider(1, Some(2), Params("s", None, 0, Config));
    var t := Tables(map[7 := row], map[], map[], map[]);
    var plan := Planned(t, cfg, [], false, false, stamp);
    assert ConfigIds(t.providers) == {7};
    assert cfg[0].id in Wanted(cfg);
    assert 7 !in ManualIds(t.providers);
    assert Upserts(cfg, 0, ManualIds(t.providers), stamp) == Plan([], false);
    assert !plan.fault;
    PlannedSettles(t, cfg, [], false, stamp);
    var after := Run(t, plan.ops);
    assert Lookup(after.providers, 7) == Settled(t.providers, cfg, false, stamp, 7);
    LastIndexWanted(cfg, 7);
    assert Completed(t, after, cfg, [], false, stamp);
  }

  /** With prune, only wanted config-sourced rows remain exactly when every other was seen. */
  lemma PruneLeavesOnlyWanted(
    t: Tables, after: Tables, cfg: seq<ProviderConfig>, clients: seq<ClientConfig>, stamp: Stamp)
    requires Completed(t, after, cfg, clients, true, stamp)
    ensures ConfigIds(after.providers) == Target(t, cfg) <==>
              forall id :: id in ConfigIds(t.providers) && id !in Wanted(cfg) ==> Seen(t.providers, id)
  {
    forall id { RemainingRows(t, after, cfg, clients, true, stamp, id); }
    if forall id :: id in ConfigIds(t.providers) && id !in Wanted(cfg) ==> Seen(t.providers, id) {
      assert forall id :: id in ConfigIds(after.providers) <==> id in Target(t, cfg);
    } else {
      var id :| id in ConfigIds(t.providers) && id !in Wanted(cfg) && !Seen(t.providers, id);
      assert id in ConfigIds(after.providers) && id !in Target(t, cfg);
    }
  }

  lemma StaticClientsFollow(
    t: Tables, after: Tables, cfg: seq<ProviderConfig>, clients: seq<ClientConfig>, prune: bool, stamp: Stamp)
    requires Completed(t, after, cfg, clients, prune, stamp)
    ensures StaticIds(after.clients) == ClientIds(clients) + (if prune then {} else StaticIds(t.clients))
    ensures forall id :: id in t.clients && !t.clients[id].isStatic && id !in ClientIds(clients) ==>
              id in after.clients && after.clients[id] == t.clients[id]
  {
    forall id
      ensures id in StaticIds(after.clients) <==> id in ClientIds(clients) + (if prune then {} else StaticIds(t.clients))
      ensures id in t.clients && !t.clients[id].isStatic && id !in ClientIds(clients) ==>
                id in after.clients && after.clients[id] == t.clients[id]
    {
      assert Lookup(after.clients, id) == SettledClient(t.clients, clients, prune, stamp, id);
      LastClientNames(clients, id);
    }
  }

  ghost predicate DistinctIds(cfg: seq<ProviderConfig>) {
    forall i, j :: 0 <= i < j < |cfg| && cfg[i].enabled && cfg[j].enabled ==> cfg[i].id != cfg[j].id
  }

  // What the rows hold

  /** The last enabled entry for its id. */
  ghost predicate LastEnabled(cfg: seq<ProviderConfig>, k: nat) {
    && k < |cfg| && cfg[k].enabled
    && forall j :: k < j < |cfg| && cfg[j].enabled ==> cfg[j].id != cfg[k].id
  }

  ghost predicate LastNamed(cfg: seq<ClientConfig>, k: nat) {
    k < |cfg| && forall j :: k < j < |cfg| ==> cfg[j].id != cfg[k].id
  }

  ghost predicate HoldsSecret(stored: Option<Sealed>, configured: Option<string>) {
    if configured.None? then stored.None? else stored.Some? && stored.value.plain == configured.value
  }

  ghost predicate ByHand(t: Tables, id: Id) {
    id in t.providers && t.providers[id].params.source.Manual?
  }

  /** A run sees the config-sourced rows with fewer than a thousand such rows before them. */
  lemma SeenExactly(providers: map<Id, Provider>, id: Id)
    ensures Seen(providers, id) <==>
              && id in providers && providers[id].params.source.Config?
              && |set y | y in providers && providers[y].params.source.Config? && y < id| < 1000
  {
    assert (set y | y in ConfigIds(providers) && y < id)
        == (set y | y in providers && providers[y].params.source.Config? && y < id);
  }

  lemma {:induction false} LastIndexIs(cfg: seq<ProviderConfig>, n: nat, k: nat)
    requires k < n <= |cfg| && cfg[k].enabled && forall j :: k < j < n && cfg[j].enabled ==> cfg[j].id != cfg[k].id
    ensures LastIndex(cfg, n, cfg[k].id) == Some(k)
  {
    if k < n - 1 { LastIndexIs(cfg, n - 1, k); }
  }

  lemma {:induction false} LastClientIs(cfg: seq<ClientConfig>, n: nat, k: nat)
    requires k < n <= |cfg| && forall j :: k < j < n ==> cfg[j].id != cfg[k].id
    ensures LastClient(cfg, n, cfg[k].id) == Some(k)
  {
    if k < n - 1 { LastClientIs(cfg, n - 1, k); }
  }

  /**
   * A wanted provider holds the settings and the secret of its last enabled entry and shows at
   * that entry's place. It keeps its times, unless it is new or was disabled and pruned.
   */
  lemma WantedRowsHoldConfig(
    t: Tables, after: Tables, cfg: seq<ProviderConfig>, clients: seq<ClientConfig>, prune: bool, stamp: Stamp, k: nat)
    requires Completed(t, after, cfg, clients, prune, stamp) && LastEnabled(cfg, k) && !ByHand(t, cfg[k].id)
    ensures cfg[k].id in after.providers
    ensures var row := after.providers[cfg[k].id];
            && row.params.settings == cfg[k].settings && HoldsSecret(row.params.secret, cfg[k].secret)
            && row.params.source.Config? && row.params.uiOrder == (if k < 0x7fff_ffff then k else 0x7fff_ffff)
    ensures var id := cfg[k].id;
            var row := after.providers[id];
            if id in t.providers && !(prune && t.providers[id].disabledAt.Some? && Seen(t.providers, id))
            then row.createdAt == t.providers[id].createdAt && row.disabledAt == t.providers[id].disabledAt
            else row.createdAt == stamp.now && row.disabledAt.None?
  {
    var id := cfg[k].id;
    assert Lookup(after.providers, id) == Settled(t.providers, cfg, prune, stamp, id);
    LastIndexIs(cfg, |cfg|, k);
    LastIndexWanted(cfg, id);
  }

  /**
   * A provider that is neither wanted nor manual: beyond the page it stays as it is; on the page
   * it goes with prune, and without it is disabled, now if it was not before.
   */
  lemma UnwantedRowsRetire(
    t: Tables, after: Tables, cfg: seq<ProviderConfig>, clients: seq<ClientConfig>, prune: bool, stamp: Stamp, id: Id)
    requires Completed(t, after, cfg, clients, prune, stamp) && !ByHand(t, id)
    requires forall k :: 0 <= k < |cfg| && cfg[k].enabled ==> cfg[k].id != id
    ensures id in after.providers <==> id in t.providers && !(prune && Seen(t.providers, id))
    ensures id in after.providers ==>
              var row, was := after.providers[id], t.providers[id];
              && row.params == was.params && row.createdAt == was.createdAt
              && row.disabledAt == (if Seen(t.providers, id) && was.disabledAt.None? then Some(stamp.now) else was.disabledAt)
  {
    assert Lookup(after.providers, id) == Settled(t.providers, cfg, prune, stamp, id);
    LastIndexWanted(cfg, id);
  }

  /** What refers to a provider goes exactly if a prune run meets the provider disabled or not wanted. */
  lemma LinksFollowRows(
    t: Tables, after: Tables, cfg: seq<ProviderConfig>, clients: seq<ClientConfig>, prune: bool, stamp: Stamp, r: Link)
    requires Completed(t, after, cfg, clients, prune, stamp)
    ensures r in after.links <==>
              && r in t.links
              && var id := t.links[r];
                 !(prune && Seen(t.providers, id)
                   && (t.providers[id].disabledAt.Some? || forall k :: 0 <= k < |cfg| && cfg[k].enabled ==> cfg[k].id != id))
    ensures r in after.links ==> after.links[r] == t.links[r]
  {
    if r in t.links {
      var id := t.links[r];
      assert id in Wanted(cfg) <==> exists k :: 0 <= k < |cfg| && cfg[k].enabled && cfg[k].id == id;
    }
  }

  /** A configured client is static and holds the settings and the secret of its last entry. */
  lemma ClientsHoldConfig(
    t: Tables, after: Tables, cfg: seq<ProviderConfig>, clients: seq<ClientConfig>, prune: bool, stamp: Stamp, k: nat)
    requires Completed(t, after, cfg, clients, prune, stamp) && LastNamed(clients, k)
    ensures clients[k].id in after.clients
    ensures var id := clients[k].id;
            var row := after.clients[id];
            && row.isStatic && row.settings == clients[k].settings && HoldsSecret(row.secret, clients[k].secret)
            && row.registration == (if id in t.clients then t.clients[id].registration else "")
  {
    var id := clients[k].id;
    assert Lookup(after.clients, id) == SettledClient(t.clients, clients, prune, stamp, id);
    LastClientIs(clients, |clients|, k);
  }

  /** What belongs to a client goes exactly if a prune run meets it static and the configuration does not name it. */
  lemma SessionsFollowClients(
    t: Tables, after: Tables, cfg: seq<ProviderConfig>, clients: seq<ClientConfig>, prune: bool, stamp: Stamp, r: Belonging)
    requires Completed(t, after, cfg, clients, prune, stamp)
    ensures r in after.sessions <==>
              && r in t.sessions
              && var id := t.sessions[r];
                 !(prune && id in t.clients && t.clients[id].isStatic && forall k :: 0 <= k < |clients| ==> clients[k].id != id)
    ensures r in after.sessions ==> after.sessions[r] == t.sessions[r]
  {
    if r in t.sessions {
      var id := t.sessions[r];
      assert id in ClientIds(clients) <==> exists k :: 0 <= k < |clients| && clients[k].id == id;
    }
  }

  /** The sign-in buttons come in config order, strictly so below the `i32` cap. */
  lemma UiOrderFollowsConfig(
    t: Tables, after: Tables, cfg: seq<ProviderConfig>, clients: seq<ClientConfig>, prune: bool, stamp: Stamp, i: nat, j: nat)
    requires Completed(t, after, cfg, clients, prune, stamp)
    requires DistinctIds(cfg) && i < j < |cfg|
    requires cfg[i].enabled && cfg[i].id in Target(t, cfg)
    requires cfg[j].enabled && cfg[j].id in Target(t, cfg)
    ensures cfg[i].id in after.providers && cfg[j].id in after.providers
    ensures var a, b := after.providers[cfg[i].id].params.uiOrder, after.providers[cfg[j].id].params.uiOrder;
            a <= b <= I32_MAX && (a < b <==> i < I32_MAX)
  {
    assert Lookup(after.providers, cfg[i].id) == Settled(t.providers, cfg, prune, stamp, cfg[i].id);
    assert Lookup(after.providers, cfg[j].id) == Settled(t.providers, cfg, prune, stamp, cfg[j].id);
    assert LastIndex(cfg, |cfg|, cfg[i].id) == Some(i);
    assert LastIndex(cfg, |cfg|, cfg[j].id) == Some(j);
  }

  // Running twice

  ghost predicate SameSecret(a: Option<Sealed>, b: Option<Sealed>) {
    a == b || (a.Some? && b.Some? && a.value.plain == b.value.plain)
  }

  ghost predicate SameProvider(a: Option<Provider>, b: Option<Provider>) {
    a == b || (a.Some? && b.Some?
               && a.value == b.value.(params := b.value.params.(secret := a.value.params.secret))
               && SameSecret(a.value.params.secret, b.value.params.secret))
  }

  ghost predicate SameClient(a: Option<Client>, b: Option<Client>) {
    a == b || (a.Some? && b.Some?
               && a.value == b.value.(secret := a.value.secret) && SameSecret(a.value.secret, b.value.secret))
  }

  /** Equal tables, but for the nonces of freshly encrypted secrets. */
  ghost predicate SameTables(a: Tables, b: Tables) {
    && (forall id :: SameProvider(Lookup(a.providers, id), Lookup(b.providers, id)))
    && a.links == b.links
    && (forall id :: SameClient(Lookup(a.clients, id), Lookup(b.clients, id)))
    && a.sessions == b.sessions
  }

  /** A stale row that the first run did not see is crowded out of the second run's page too. */
  ghost predicate NothingSurfaces(t: Tables, cfg: seq<ProviderConfig>) {
    forall id :: id in ConfigIds(t.providers) && Stale(t.providers, Wanted(cfg), id) && !Seen(t.providers, id) ==>
      Rank(Target(t, cfg), id) >= PAGE_LIMIT
  }

  /** A second prune run meets no stale row. */
  ghost predicate Quiet(after: Tables, cfg: seq<ProviderConfig>) {
    forall id :: Seen(after.providers, id) ==> !Stale(after.providers, Wanted(cfg), id)
  }

  lemma StillUnseen(
    t: Tables, after: Tables, cfg: seq<ProviderConfig>, clients: seq<ClientConfig>, stamp: Stamp, id: Id)
    requires Completed(t, after, cfg, clients, true, stamp)
    requires NothingSurfaces(t, cfg) && Stale(after.providers, Wanted(cfg), id) && id in ConfigIds(after.providers)
    ensures !Seen(after.providers, id)
  {
    forall x { RemainingRows(t, after, cfg, clients, true, stamp, x); }
    RankMonotone(Target(t, cfg), ConfigIds(after.providers), id);
  }

  /** The least stale row that was out of sight comes into sight if anything does. */
  lemma {:induction false} Surfaces(
    t: Tables, after: Tables, cfg: seq<ProviderConfig>, clients: seq<ClientConfig>, stamp: Stamp, id: Id)
    requires Completed(t, after, cfg, clients, true, stamp)
    requires id in ConfigIds(t.providers) && Stale(t.providers, Wanted(cfg), id) && !Seen(t.providers, id)
    requires Rank(Target(t, cfg), id) < PAGE_LIMIT
    ensures !Quiet(after, cfg)
    decreases id
  {
    forall x { RemainingRows(t, after, cfg, clients, true, stamp, x); }
    if lower :| lower in ConfigIds(t.providers) && lower < id
                && Stale(t.providers, Wanted(cfg), lower) && !Seen(t.providers, lower) {
      RankUpward(Target(t, cfg), lower, id);
      Surfaces(t, after, cfg, clients, stamp, lower);
    } else {
      RankMonotone(ConfigIds(after.providers), Target(t, cfg), id);
      assert Seen(after.providers, id) && Stale(after.providers, Wanted(cfg), id);
    }
  }

  lemma RankUpward(ids: set<Id>, x: Id, y: Id)
    requires x <= y
    ensures Rank(ids, x) <= Rank(ids, y)
  {
    SubsetSize((set z | z in ids && z < x), (set z | z in ids && z < y));
  }

  lemma QuietExactly(t: Tables, after: Tables, cfg: seq<ProviderConfig>, clients: seq<ClientConfig>, stamp: Stamp)
    requires Completed(t, after, cfg, clients, true, stamp)
    ensures Quiet(after, cfg) <==> NothingSurfaces(t, cfg)
  {
    if NothingSurfaces(t, cfg) {
      forall id | Seen(after.providers, id) ensures !Stale(after.providers, Wanted(cfg), id) {
        if Stale(after.providers, Wanted(cfg), id) { StillUnseen(t, after, cfg, clients, stamp, id); }
      }
    } else {
      var id :| id in ConfigIds(t.providers) && Stale(t.providers, Wanted(cfg), id) && !Seen(t.providers, id)
                && Rank(Target(t, cfg), id) < PAGE_LIMIT;
      Surfaces(t, after, cfg, clients, stamp, id);
    }
  }

  lemma ClientsSettleOnce(
    t: Tables, once: Tables, twice: Tables, cfg: seq<ProviderConfig>, clients: seq<ClientConfig>, prune: bool, s1: Stamp, s2: Stamp)
    requires Completed(t, once, cfg, clients, prune, s1) && Completed(once, twice, cfg, clients, prune, s2)
    ensures forall id :: SameClient(Lookup(once.clients, id), Lookup(twice.clients, id))
    ensures once.sessions == twice.sessions
  {
    StaticClientsFollow(t, once, cfg, clients, prune, s1);
    forall id ensures SameClient(Lookup(once.clients, id), Lookup(twice.clients, id)) {
      assert Lookup(once.clients, id) == SettledClient(t.clients, clients, prune, s1, id);
      assert Lookup(twice.clients, id) == SettledClient(once.clients, clients, prune, s2, id);
      LastClientNames(clients, id);
    }
    assert SettledSessions(once, clients, prune) == once.sessions;
  }

  /** Without prune every row a second run sees has already been disabled if it has to be. */
  lemma NoPruneSecondPage(
    t: Tables, once: Tables, cfg: seq<ProviderConfig>, clients: seq<ClientConfig>, s1: Stamp, id: Id)
    requires Completed(t, once, cfg, clients, false, s1) && Seen(once.providers, id)
    ensures id in Wanted(cfg) || !once.providers[id].Enabled()
  {
    forall x { RemainingRows(t, once, cfg, clients, false, s1, x); }
    if id !in Wanted(cfg) {
      RankMonotone(ConfigIds(t.providers), ConfigIds(once.providers), id);
    }
  }

  lemma ProviderSettlesOnce(
    t: Tables, once: Tables, twice: Tables, cfg: seq<ProviderConfig>, clients: seq<ClientConfig>,
    prune: bool, s1: Stamp, s2: Stamp, id: Id)
    requires Completed(t, once, cfg, clients, prune, s1) && Completed(once, twice, cfg, clients, prune, s2)
    requires prune ==> Quiet(once, cfg)
    ensures SameProvider(Lookup(once.providers, id), Lookup(twice.providers, id))
  {
    assert Lookup(once.providers, id) == Settled(t.providers, cfg, prune, s1, id);
    assert Lookup(twice.providers, id) == Settled(once.providers, cfg, prune, s2, id);
    ManualRowsUntouched(t, once, cfg, clients, prune, s1);
    assert Swept(once.providers, Wanted(cfg), prune, s2.now, id) == Lookup(once.providers, id) by {
      if !prune && Seen(once.providers, id) { NoPruneSecondPage(t, once, cfg, clients, s1, id); }
    }
    LastIndexWanted(cfg, id);
  }

  /**
   * A second run with the same inputs changes nothing but ciphertexts: always without prune,
   * and with prune exactly when no row beyond the first thousand comes into sight.
   */
  lemma Idempotence(
    t: Tables, once: Tables, twice: Tables, cfg: seq<ProviderConfig>, clients: seq<ClientConfig>, prune: bool, s1: Stamp, s2: Stamp)
    requires Completed(t, once, cfg, clients, prune, s1) && Completed(once, twice, cfg, clients, prune, s2)
    ensures SameTables(once, twice) <==> (prune ==> NothingSurfaces(t, cfg))
  {
    ClientsSettleOnce(t, once, twice, cfg, clients, prune, s1, s2);
    if prune { QuietExactly(t, once, cfg, clients, s1); }
    if prune ==> NothingSurfaces(t, cfg) {
      forall id ensures SameProvider(Lookup(once.providers, id), Lookup(twice.providers, id)) {
        ProviderSettlesOnce(t, once, twice, cfg, clients, prune, s1, s2, id);
      }
      assert SettledLinks(once, cfg, prune) == once.links;
    } else {
      var id :| Seen(once.providers, id) && Stale(once.providers, Wanted(cfg), id);
      RemainingRows(once, twice, cfg, clients, prune, s2, id);
      assert !SameProvider(Lookup(once.providers, id), Lookup(twice.providers, id));
    }
  }

  // More rows than one page

  ghost function Below(n: nat): (ids: set<Id>)
    ensures |ids| == n && forall id: Id :: id in ids <==> id < n
  {
    if n == 0 then {} else Below(n - 1) + {n - 1}
  }

  /** So many soft-deleted rows and nothing else. */
  ghost function Crowd(n: nat): Tables {
    Tables(map id | id in Below(n) :: Provider(0, Some(0), Params("", None, 0, Config)), map[], map[], map[])
  }

  lemma CrowdRank(n: nat, id: Id)
    requires id < n
    ensures id in ConfigIds(Crowd(n).providers) && Rank(ConfigIds(Crowd(n).providers), id) == id
    ensures Seen(Crowd(n).providers, id) <==> id < PAGE_LIMIT
  {
    hide Below, Crowd, ConfigIds, Rank;
    CrowdIds(n);
    RankBelow(n, id);
  }

  lemma CrowdIds(n: nat)
    ensures ConfigIds(Crowd(n).providers) == Below(n)
  {
    hide Below;
    var rows := Crowd(n).providers;
    forall id: Id ensures id in ConfigIds(rows) <==> id in Below(n) {}
  }

  lemma RankBelow(n: nat, id: Id)
    requires id < n
    ensures Rank(Below(n), id) == id
  {
    hide Below;
    assert (set y | y in Below(n) && y < id) == Below(id);
  }

  lemma EmptyPlanLoads(t: Tables, stamp: Stamp)
    ensures !Planned(t, [], [], true, false, stamp).fault
  {
  }

  /**
   * Two prune runs over an empty configuration. The first leaves every row beyond its page,
   * wanted by nobody; the second still finds work.
   */
  lemma SecondPruneFindsWork(n: nat, stamp: Stamp) returns (once: Tables, twice: Tables)
    requires n > PAGE_LIMIT
    ensures Completed(Crowd(n), once, [], [], true, stamp) && Completed(once, twice, [], [], true, stamp)
    ensures ConfigIds(once.providers) != Target(Crowd(n), [])
    ensures !SameTables(once, twice)
  {
    hide Run, Planned;
    var t := Crowd(n);
    EmptyPlanLoads(t, stamp);
    PlannedSettles(t, [], [], true, stamp);
    once := Run(t, Planned(t, [], [], true, false, stamp).ops);
    EmptyPlanLoads(once, stamp);
    PlannedSettles(once, [], [], true, stamp);
    twice := Run(once, Planned(once, [], [], true, false, stamp).ops);
    CrowdRank(n, PAGE_LIMIT);
    PruneLeavesOnlyWanted(t, once, [], [], stamp);
    assert Target(t, []) == {};
    assert Rank({}, PAGE_LIMIT) == 0;
    assert !NothingSurfaces(t, []);
    Idempotence(t, once, twice, [], [], true, stamp, stamp);
  }
}

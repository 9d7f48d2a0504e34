/**
 * `config_sync` drives the provider and client tables towards the configuration file.
 * The statements a run will make are fixed by the tables it starts from: `Planned` lists
 * them, and the method `ConfigSync` is proved to carry out exactly that list, or the part of
 * it that comes before the connection breaks.
 */
module SyncPlan {
  import opened Wrappers
  import opened SyncTables

  const PAGE_LIMIT: nat := 1000
  const I32_MAX: nat := 0x7fff_ffff

  /** `secretLoads` and `scopeParses`: whether reading the secret and parsing the scope succeed. */
  datatype ProviderConfig = ProviderConfig(
    id: Id, enabled: bool, settings: string, secret: Option<string>, secretLoads: bool, scopeParses: bool)

  /** `keysAgree`: not both inline keys and a key URI. The row is written before this is found out. */
  datatype ClientConfig = ClientConfig(
    id: Id, settings: string, secret: Option<string>, secretLoads: bool, keysAgree: bool)

  /**
   * What differs between two runs over the same inputs: the clock, the encryption nonce and the
   * order in which the database happens to yield the static clients.
   */
  datatype Stamp = Stamp(now: Time, nonce: nat, order: set<Id> -> seq<Id>)

  datatype Plan = Plan(ops: seq<Op>, fault: bool)

  function UiOrder(index: nat): nat {
    if index <= I32_MAX then index else I32_MAX
  }

  function Seal(secret: Option<string>, stamp: Stamp): Option<Sealed> {
    match secret
    case Some(plain) => Some(Sealed(plain, stamp.nonce))
    case None => None
  }

  function ParamsOf(c: ProviderConfig, index: nat, stamp: Stamp): Params {
    Params(c.settings, Seal(c.secret, stamp), UiOrder(index), Config)
  }

  /** The enabled ids of the configuration. */
  function Wanted(cfg: seq<ProviderConfig>): set<Id> {
    set i | 0 <= i < |cfg| && cfg[i].enabled :: cfg[i].id
  }

  function ClientIds(cfg: seq<ClientConfig>): set<Id> {
    set i | 0 <= i < |cfg| :: cfg[i].id
  }

  function ManualIds(providers: map<Id, Provider>): set<Id> {
    set id | id in providers && providers[id].IsManual()
  }

  predicate Stale(providers: map<Id, Provider>, wanted: set<Id>, id: Id) {
    id in providers && (!providers[id].Enabled() || id !in wanted)
  }

  ghost function Disables(page: seq<Id>, providers: map<Id, Provider>, wanted: set<Id>, now: Time): seq<Op> {
    if page == [] then [] else
    var id := page[|page| - 1];
    Disables(page[..|page| - 1], providers, wanted, now) +
    (if id in providers && providers[id].Enabled() && id !in wanted then [Op.Disable(id, now)] else [])
  }

  function StaleIn(page: seq<Id>, providers: map<Id, Provider>, wanted: set<Id>): seq<Id> {
    if page == [] then [] else
    var id := page[|page| - 1];
    StaleIn(page[..|page| - 1], providers, wanted) + (if Stale(providers, wanted, id) then [id] else [])
  }

  ghost function Deletes(ids: seq<Id>): seq<Op> {
    if ids == [] then [] else Deletes(ids[..|ids| - 1]) + ProviderDelete(ids[|ids| - 1])
  }

  ghost function ClientDeletes(ids: seq<Id>): seq<Op> {
    if ids == [] then [] else ClientDeletes(ids[..|ids| - 1]) + ClientDelete(ids[|ids| - 1])
  }

  /** Static clients that the configuration does not name. */
  function Unnamed(statics: seq<Id>, named: set<Id>): seq<Id> {
    if statics == [] then [] else
    var id := statics[|statics| - 1];
    Unnamed(statics[..|statics| - 1], named) + (if id !in named then [id] else [])
  }

  /** Each enabled entry looks its row up first, and leaves it alone if it is manual. */
  ghost function Upserts(cfg: seq<ProviderConfig>, n: nat, manual: set<Id>, stamp: Stamp): Plan
    requires n <= |cfg|
  {
    if n == 0 then Plan([], false) else
    var before := Upserts(cfg, n - 1, manual, stamp);
    var c := cfg[n - 1];
    if before.fault || !c.enabled then before
    else if !c.secretLoads then before.(fault := true)
    else if c.id in manual then Plan(before.ops + [Query], false)
    else if !c.scopeParses then Plan(before.ops + [Query], true)
    else Plan(before.ops + [Query, Op.Upsert(c.id, ParamsOf(c, n - 1, stamp), stamp.now)], false)
  }

  ghost function ClientUpserts(cfg: seq<ClientConfig>, n: nat, stamp: Stamp): Plan
    requires n <= |cfg|
  {
    if n == 0 then Plan([], false) else
    var before := ClientUpserts(cfg, n - 1, stamp);
    var c := cfg[n - 1];
    if before.fault then before
    else if !c.secretLoads then before.(fault := true)
    else Plan(before.ops + [Op.UpsertStatic(c.id, c.settings, Seal(c.secret, stamp))], !c.keysAgree)
  }

  /** The writes that make room, all decided by one listing. */
  ghost function Clears(t: Tables, cfg: seq<ProviderConfig>, prune: bool, now: Time): seq<Op> {
    var page := Page(ConfigIds(t.providers), PAGE_LIMIT);
    Disables(page, t.providers, Wanted(cfg), now) +
    (if prune then Deletes(StaleIn(page, t.providers, Wanted(cfg))) else [])
  }

  ghost function ProviderPlan(t: Tables, cfg: seq<ProviderConfig>, prune: bool, stamp: Stamp): Plan {
    var upserts := Upserts(cfg, |cfg|, ManualIds(t.providers), stamp);
    Plan([Query] + Clears(t, cfg, prune, stamp.now) + upserts.ops, upserts.fault)
  }

  ghost function Statics(t: Tables, stamp: Stamp): seq<Id> {
    Listed(stamp.order, StaticIds(t.clients))
  }

  /** The rest of the reading, and the deletions that the listing decides. */
  ghost function ClientClears(t: Tables, cfg: seq<ClientConfig>, prune: bool, stamp: Stamp): seq<Op> {
    Details(t.clients) + (if prune then ClientDeletes(Unnamed(Statics(t, stamp), ClientIds(cfg))) else [])
  }

  ghost function ClientPlan(t: Tables, cfg: seq<ClientConfig>, prune: bool, stamp: Stamp): Plan {
    var upserts := ClientUpserts(cfg, |cfg|, stamp);
    Plan([Query] + ClientClears(t, cfg, prune, stamp) + upserts.ops, upserts.fault)
  }

  /** Every statement of a run, and whether the configuration makes it stop with an error. */
  ghost function Planned(
    t: Tables, providers: seq<ProviderConfig>, clients: seq<ClientConfig>,
    prune: bool, dryRun: bool, stamp: Stamp): Plan
  {
    if dryRun then Plan([Query] + ([Query] + Details(t.clients)), false) else
    var first := ProviderPlan(t, providers, prune, stamp);
    if first.fault then first else
    var second := ClientPlan(t, clients, prune, stamp);
    Plan(first.ops + second.ops, second.fault)
  }
}

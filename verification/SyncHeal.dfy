/**
 * Runs that broke off part way, and the run that completes after them: when it leaves the
 * tables as one undisturbed run would have, but for times and ciphertexts.
 */
module SyncHeal {
  import opened Wrappers
  import opened SyncTables
  import opened SyncPlan
  import opened SyncEffect
  import opened SyncSettled
  import opened SyncTheorems

  /** What the runs have in common. */
  datatype Goal = Goal(providers: seq<ProviderConfig>, clients: seq<ClientConfig>, prune: bool)

  ghost predicate StaleRow(t: Tables, g: Goal, id: Id) {
    id in ConfigIds(t.providers) && Stale(t.providers, Wanted(g.providers), id)
  }

  /** A stale row that a run sees. */
  ghost predicate Due(t: Tables, g: Goal, id: Id) {
    StaleRow(t, g, id) && Seen(t.providers, id)
  }

  /** A stale row beyond the page. */
  ghost predicate Hidden(t: Tables, g: Goal, id: Id) {
    StaleRow(t, g, id) && !Seen(t.providers, id)
  }

  /** The rows that no run will ever delete. */
  ghost function Lasting(t: Tables, g: Goal): set<Id> {
    set id | id in ConfigIds(t.providers) && !Stale(t.providers, Wanted(g.providers), id)
  }

  /** With prune, every hidden row has enough lasting rows before it to stay beyond the page. */
  ghost predicate Sheltered(t: Tables, g: Goal) {
    g.prune ==> forall id :: Hidden(t, g, id) ==> Rank(Lasting(t, g), id) >= PAGE_LIMIT
  }

  ghost predicate StaleClient(t: Tables, g: Goal, id: Id) {
    id in StaticIds(t.clients) && id !in ClientIds(g.clients)
  }

  /** A statement that a run towards the goal may make, judged by where it all began. */
  ghost predicate Allowed(t: Tables, g: Goal, op: Op) {
    match op
    case Query => true
    case Disable(id, _) => Due(t, g, id) && id !in Wanted(g.providers)
    case DropLinks(_, id) => g.prune && Due(t, g, id)
    case DeleteProvider(id) => g.prune && Due(t, g, id)
    case Upsert(id, params, _) => id in Wanted(g.providers) && id !in ManualIds(t.providers) && params.source.Config?
    case DropSessions(_, id) => g.prune && StaleClient(t, g, id)
    case DeleteClient(id) => g.prune && StaleClient(t, g, id)
    case UpsertStatic(id, _, _) => id in ClientIds(g.clients)
  }

  // Where a row can be between the start and the goal

  ghost predicate RowBetween(t: Tables, x: Tables, g: Goal, id: Id) {
    var a, b := Lookup(t.providers, id), Lookup(x.providers, id);
    if id in ManualIds(t.providers) then b == a
    else if id !in Wanted(g.providers) then
      || b == a
      || (Due(t, g, id) && b.Some? && b.value == a.value.(disabledAt := b.value.disabledAt) && !b.value.Enabled())
      || (g.prune && Due(t, g, id) && b.None?)
    else
      && (b.Some? ==> !b.value.IsManual())
      && (a.None? ==> b.None? || b.value.Enabled())
      && (a.Some? && a.value.Enabled() ==> b.Some? && b.value.Enabled())
      && (a.Some? && !a.value.Enabled() && !(g.prune && Due(t, g, id)) ==> b.Some? && !b.value.Enabled())
  }

  ghost predicate LinkBetween(t: Tables, x: Tables, g: Goal, r: Link) {
    && (r in x.links ==> r in t.links && x.links[r] == t.links[r])
    && (r in t.links && r !in x.links ==> g.prune && Due(t, g, t.links[r]))
    && (r in x.links && g.prune && Due(t, g, x.links[r]) ==> StaleRow(x, g, x.links[r]))
  }

  ghost predicate ClientBetween(t: Tables, x: Tables, g: Goal, id: Id) {
    var a, b := Lookup(t.clients, id), Lookup(x.clients, id);
    if id in ClientIds(g.clients) then
      && (a.None? ==> b.None? || b.value.registration == "")
      && (a.Some? ==> b.Some? && b.value.registration == a.value.registration)
    else b == a || (g.prune && a.Some? && a.value.isStatic && b.None?)
  }

  ghost predicate SessionBetween(t: Tables, x: Tables, g: Goal, r: Belonging) {
    && (r in x.sessions ==> r in t.sessions && x.sessions[r] == t.sessions[r])
    && (r in t.sessions && r !in x.sessions ==> g.prune && StaleClient(t, g, t.sessions[r]))
    && (r in x.sessions && g.prune && StaleClient(t, g, x.sessions[r]) ==> StaleClient(x, g, x.sessions[r]))
  }

  ghost predicate Between(t: Tables, x: Tables, g: Goal) {
    && (forall id :: RowBetween(t, x, g, id))
    && (forall r :: LinkBetween(t, x, g, r))
    && (forall id :: ClientBetween(t, x, g, id))
    && (forall r :: SessionBetween(t, x, g, r))
  }

  /** Rows that were not stale do not become so. */
  lemma NoNewStale(t: Tables, x: Tables, g: Goal, id: Id)
    requires RowBetween(t, x, g, id) && StaleRow(x, g, id)
    ensures StaleRow(t, g, id)
  {
  }

  lemma NoNewStaleClient(t: Tables, x: Tables, g: Goal, id: Id)
    requires ClientBetween(t, x, g, id) && StaleClient(x, g, id)
    ensures StaleClient(t, g, id)
  {
  }

  lemma DisableKeepsRow(t: Tables, x: Tables, g: Goal, op: Op, id: Id)
    requires RowBetween(t, x, g, id) && Allowed(t, g, op) && op.Disable?
    ensures RowBetween(t, Exec(x, op), g, id)
  {
    assert id != op.id ==> Lookup(Exec(x, op).providers, id) == Lookup(x.providers, id);
  }

  lemma DeleteKeepsRow(t: Tables, x: Tables, g: Goal, op: Op, id: Id)
    requires RowBetween(t, x, g, id) && Allowed(t, g, op) && op.DeleteProvider?
    ensures RowBetween(t, Exec(x, op), g, id)
  {
    assert id != op.id ==> Lookup(Exec(x, op).providers, id) == Lookup(x.providers, id);
  }

  lemma UpsertKeepsRow(t: Tables, x: Tables, g: Goal, op: Op, id: Id)
    requires RowBetween(t, x, g, id) && Allowed(t, g, op) && op.Upsert?
    ensures RowBetween(t, Exec(x, op), g, id)
  {
    assert id != op.id ==> Lookup(Exec(x, op).providers, id) == Lookup(x.providers, id);
  }

  lemma StatementKeepsRow(t: Tables, x: Tables, g: Goal, op: Op, id: Id)
    requires RowBetween(t, x, g, id) && Allowed(t, g, op)
    ensures RowBetween(t, Exec(x, op), g, id)
  {
    match op
    case Disable(_, _) => DisableKeepsRow(t, x, g, op, id);
    case DeleteProvider(_) => DeleteKeepsRow(t, x, g, op, id);
    case Upsert(_, _, _) => UpsertKeepsRow(t, x, g, op, id);
    case _ => assert Exec(x, op).providers == x.providers;
  }

  lemma StatementKeepsLink(t: Tables, x: Tables, g: Goal, op: Op, r: Link)
    requires LinkBetween(t, x, g, r) && Allowed(t, g, op)
    ensures LinkBetween(t, Exec(x, op), g, r)
  {
    var y := Exec(x, op);
    assert r in y.links ==> r in x.links && y.links[r] == x.links[r];
    if r in y.links && StaleRow(x, g, y.links[r]) {
      StatementKeepsStale(t, x, g, op, r);
    }
  }

  /** A stale row that is still linked to stays stale. */
  lemma StatementKeepsStale(t: Tables, x: Tables, g: Goal, op: Op, r: Link)
    requires Allowed(t, g, op) && r in x.links && StaleRow(x, g, x.links[r])
    ensures r in Exec(x, op).links ==> StaleRow(Exec(x, op), g, x.links[r])
  {
    match op
    case DeleteProvider(id) => assert x.links[r] == id ==> !Unlinked(x.links, id);
    case _ =>
  }

  lemma StatementKeepsClient(t: Tables, x: Tables, g: Goal, op: Op, id: Id)
    requires ClientBetween(t, x, g, id) && Allowed(t, g, op)
    ensures ClientBetween(t, Exec(x, op), g, id)
  {
    var y := Exec(x, op);
    match op
    case DeleteClient(other) => assert id != other ==> Lookup(y.clients, id) == Lookup(x.clients, id);
    case UpsertStatic(other, _, _) => assert id != other ==> Lookup(y.clients, id) == Lookup(x.clients, id);
    case _ => assert y.clients == x.clients;
  }

  lemma StatementKeepsStaleClient(t: Tables, x: Tables, g: Goal, op: Op, r: Belonging)
    requires Allowed(t, g, op) && r in x.sessions && StaleClient(x, g, x.sessions[r])
    ensures r in Exec(x, op).sessions ==> StaleClient(Exec(x, op), g, x.sessions[r])
  {
    match op
    case DeleteClient(id) => assert x.sessions[r] == id ==> !Unlinked(x.sessions, id);
    case _ =>
  }

  lemma StatementKeepsSession(t: Tables, x: Tables, g: Goal, op: Op, r: Belonging)
    requires SessionBetween(t, x, g, r) && Allowed(t, g, op)
    ensures SessionBetween(t, Exec(x, op), g, r)
  {
    var y := Exec(x, op);
    assert r in y.sessions ==> r in x.sessions && y.sessions[r] == x.sessions[r];
    if r in y.sessions && StaleClient(x, g, y.sessions[r]) {
      StatementKeepsStaleClient(t, x, g, op, r);
    }
  }

  lemma StatementKeeps(t: Tables, x: Tables, g: Goal, op: Op)
    requires Between(t, x, g) && Allowed(t, g, op)
    ensures Between(t, Exec(x, op), g)
  {
    hide Exec;
    forall id { StatementKeepsRow(t, x, g, op, id); }
    forall r { StatementKeepsLink(t, x, g, op, r); }
    forall id { StatementKeepsClient(t, x, g, op, id); }
    forall r { StatementKeepsSession(t, x, g, op, r); }
  }

  ghost predicate AllAllowed(t: Tables, g: Goal, ops: seq<Op>) {
    forall i :: 0 <= i < |ops| ==> Allowed(t, g, ops[i])
  }

  lemma {:induction false} StatementsKeep(t: Tables, x: Tables, g: Goal, ops: seq<Op>)
    requires Between(t, x, g) && AllAllowed(t, g, ops)
    ensures Between(t, Run(x, ops), g)
  {
    if ops != [] {
      StatementsKeep(t, x, g, ops[..|ops| - 1]);
      StatementKeeps(t, Run(x, ops[..|ops| - 1]), g, ops[|ops| - 1]);
    }
  }

  // What is hidden stays hidden, and what is due gets done before rows are added

  lemma LastingStays(t: Tables, x: Tables, g: Goal)
    requires Between(t, x, g)
    ensures Lasting(t, g) <= ConfigIds(x.providers)
    ensures !g.prune ==> ConfigIds(t.providers) <= ConfigIds(x.providers)
  {
    forall id | id in ConfigIds(t.providers)
      ensures id in Lasting(t, g) || !g.prune ==> id in ConfigIds(x.providers)
    {
      assert RowBetween(t, x, g, id);
    }
  }

  lemma HiddenStays(t: Tables, x: Tables, g: Goal, id: Id)
    requires Sheltered(t, g) && Between(t, x, g) && Hidden(t, g, id)
    ensures !Seen(x.providers, id)
  {
    LastingStays(t, x, g);
    if g.prune {
      RankMonotone(Lasting(t, g), ConfigIds(x.providers), id);
    } else {
      RankMonotone(ConfigIds(t.providers), ConfigIds(x.providers), id);
    }
  }

  /** Only what was due becomes due. */
  lemma NoNewDue(t: Tables, x: Tables, g: Goal, id: Id)
    requires Sheltered(t, g) && Between(t, x, g) && Due(x, g, id)
    ensures Due(t, g, id)
  {
    assert RowBetween(t, x, g, id);
    NoNewStale(t, x, g, id);
    if Hidden(t, g, id) { HiddenStays(t, x, g, id); }
  }

  /** Nothing is left to do for a row that was due. */
  ghost predicate Done(x: Tables, g: Goal, id: Id) {
    if g.prune then !StaleRow(x, g, id)
    else id in x.providers && id !in Wanted(g.providers) ==> !x.providers[id].Enabled()
  }

  ghost predicate AllDone(t: Tables, x: Tables, g: Goal) {
    forall id :: Due(t, g, id) ==> Done(x, g, id)
  }

  /** Rows are only added once everything due is done. */
  ghost predicate InOrder(t: Tables, x: Tables, g: Goal) {
    ConfigIds(x.providers) <= ConfigIds(t.providers) || AllDone(t, x, g)
  }

  ghost predicate OnTheWay(t: Tables, x: Tables, g: Goal) {
    Between(t, x, g) && InOrder(t, x, g)
  }

  lemma DueInSight(t: Tables, x: Tables, g: Goal, id: Id)
    requires OnTheWay(t, x, g) && Due(t, g, id) && StaleRow(x, g, id)
    ensures Seen(x.providers, id) || Done(x, g, id)
  {
    if ConfigIds(x.providers) <= ConfigIds(t.providers) {
      RankMonotone(ConfigIds(x.providers), ConfigIds(t.providers), id);
    }
  }

  lemma StatementKeepsDone(t: Tables, x: Tables, g: Goal, op: Op, id: Id)
    requires RowBetween(t, x, g, id) && Allowed(t, g, op) && Due(t, g, id) && Done(x, g, id)
    ensures Done(Exec(x, op), g, id)
  {
    var y := Exec(x, op);
    match op
    case Disable(other, _) => assert id != other ==> Lookup(y.providers, id) == Lookup(x.providers, id);
    case DeleteProvider(other) => assert id != other ==> Lookup(y.providers, id) == Lookup(x.providers, id);
    case Upsert(other, _, _) => assert id != other ==> Lookup(y.providers, id) == Lookup(x.providers, id);
    case _ => assert y.providers == x.providers;
  }

  lemma StatementKeepsAllDone(t: Tables, x: Tables, g: Goal, op: Op)
    requires Between(t, x, g) && Allowed(t, g, op) && AllDone(t, x, g)
    ensures AllDone(t, Exec(x, op), g)
  {
    hide Exec;
    forall id | Due(t, g, id) ensures Done(Exec(x, op), g, id) {
      assert RowBetween(t, x, g, id);
      StatementKeepsDone(t, x, g, op, id);
    }
  }

  lemma {:induction false} StatementsKeepAllDone(t: Tables, x: Tables, g: Goal, ops: seq<Op>)
    requires Between(t, x, g) && AllAllowed(t, g, ops) && AllDone(t, x, g)
    ensures AllDone(t, Run(x, ops), g)
  {
    if ops != [] {
      var front := ops[..|ops| - 1];
      StatementsKeepAllDone(t, x, g, front);
      StatementsKeep(t, x, g, front);
      StatementKeepsAllDone(t, Run(x, front), g, ops[|ops| - 1]);
    }
  }

  lemma {:induction false} NothingAdded(x: Tables, ops: seq<Op>)
    requires forall i :: 0 <= i < |ops| ==> !ops[i].Upsert?
    ensures ConfigIds(Run(x, ops).providers) <= ConfigIds(x.providers)
  {
    if ops != [] {
      NothingAdded(x, ops[..|ops| - 1]);
      OneNotAdded(Run(x, ops[..|ops| - 1]), ops[|ops| - 1]);
    }
  }

  lemma OneNotAdded(x: Tables, op: Op)
    requires !op.Upsert?
    ensures ConfigIds(Exec(x, op).providers) <= ConfigIds(x.providers)
  {
  }

  /** When the clearing statements have all been made everything due is done. */
  lemma ClearedIsDone(t: Tables, x: Tables, g: Goal, now: Time)
    requires OnTheWay(t, x, g)
    ensures AllDone(t, Run(x, Clears(x, g.providers, g.prune, now)), g)
  {
    hide Run;
    var after := Run(x, Clears(x, g.providers, g.prune, now));
    Sweep(x, g.providers, g.prune, now);
    forall id | Due(t, g, id) ensures Done(after, g, id) {
      assert Lookup(after.providers, id) == Swept(x.providers, Wanted(g.providers), g.prune, now, id);
      assert RowBetween(t, x, g, id);
      if StaleRow(x, g, id) { DueInSight(t, x, g, id); }
    }
  }

  // Every plan made on the way is allowed

  lemma {:induction false} DisablesAllowed(t: Tables, x: Tables, g: Goal, page: seq<Id>, now: Time)
    requires Sheltered(t, g) && Between(t, x, g) && forall i :: 0 <= i < |page| ==> Seen(x.providers, page[i])
    ensures AllAllowed(t, g, Disables(page, x.providers, Wanted(g.providers), now))
    ensures forall op :: op in Disables(page, x.providers, Wanted(g.providers), now) ==> !op.Upsert?
  {
    if page != [] {
      var id := page[|page| - 1];
      DisablesAllowed(t, x, g, page[..|page| - 1], now);
      if MustDisable(x.providers, Wanted(g.providers), id) { NoNewDue(t, x, g, id); }
    }
  }

  lemma {:induction false} DeletesAllowed(t: Tables, g: Goal, ids: seq<Id>)
    requires g.prune && forall i :: 0 <= i < |ids| ==> Due(t, g, ids[i])
    ensures AllAllowed(t, g, Deletes(ids))
    ensures forall op :: op in Deletes(ids) ==> !op.Upsert?
  {
    if ids != [] { DeletesAllowed(t, g, ids[..|ids| - 1]); }
  }

  lemma ClearsAllowed(t: Tables, x: Tables, g: Goal, now: Time)
    requires Sheltered(t, g) && Between(t, x, g)
    ensures AllAllowed(t, g, Clears(x, g.providers, g.prune, now))
    ensures forall op :: op in Clears(x, g.providers, g.prune, now) ==> !op.Upsert?
  {
    var page := Page(ConfigIds(x.providers), PAGE_LIMIT);
    forall i | 0 <= i < |page| ensures Seen(x.providers, page[i]) {
      assert page[i] in page;
    }
    DisablesAllowed(t, x, g, page, now);
    if g.prune {
      var ids := StaleIn(page, x.providers, Wanted(g.providers));
      StaleInMembers(page, x.providers, Wanted(g.providers));
      forall i | 0 <= i < |ids| ensures Due(t, g, ids[i]) {
        assert ids[i] in ids && ids[i] in page;
        NoNewDue(t, x, g, ids[i]);
      }
      DeletesAllowed(t, g, ids);
    }
  }

  lemma {:induction false} UpsertsAllowed(t: Tables, x: Tables, g: Goal, n: nat, stamp: Stamp)
    requires Between(t, x, g) && n <= |g.providers|
    ensures AllAllowed(t, g, Upserts(g.providers, n, ManualIds(x.providers), stamp).ops)
  {
    if n > 0 {
      UpsertsAllowed(t, x, g, n - 1, stamp);
      assert RowBetween(t, x, g, g.providers[n - 1].id);
    }
  }

  lemma {:induction false} ClientDeletesAllowed(t: Tables, g: Goal, ids: seq<Id>)
    requires g.prune && forall i :: 0 <= i < |ids| ==> StaleClient(t, g, ids[i])
    ensures AllAllowed(t, g, ClientDeletes(ids))
  {
    if ids != [] { ClientDeletesAllowed(t, g, ids[..|ids| - 1]); }
  }

  lemma ClientClearsAllowed(t: Tables, x: Tables, g: Goal, stamp: Stamp)
    requires Between(t, x, g)
    ensures AllAllowed(t, g, ClientClears(x, g.clients, g.prune, stamp))
  {
    if g.prune {
      var ids := Unnamed(Statics(x, stamp), ClientIds(g.clients));
      UnnamedMembers(Statics(x, stamp), ClientIds(g.clients));
      StaticsMembers(x, stamp);
      forall i | 0 <= i < |ids| ensures StaleClient(t, g, ids[i]) {
        assert ids[i] in ids;
        assert ClientBetween(t, x, g, ids[i]);
        NoNewStaleClient(t, x, g, ids[i]);
      }
      ClientDeletesAllowed(t, g, ids);
      AllowedAppend(t, g, Details(x.clients), ClientDeletes(ids));
    }
  }

  lemma {:induction false} ClientUpsertsAllowed(t: Tables, g: Goal, n: nat, stamp: Stamp)
    requires n <= |g.clients|
    ensures AllAllowed(t, g, ClientUpserts(g.clients, n, stamp).ops)
  {
    if n > 0 { ClientUpsertsAllowed(t, g, n - 1, stamp); }
  }

  ghost function PlanFor(x: Tables, g: Goal, stamp: Stamp): Plan {
    Planned(x, g.providers, g.clients, g.prune, false, stamp)
  }

  /** The statements that come before any row is added. */
  ghost function Opening(x: Tables, g: Goal, stamp: Stamp): seq<Op> {
    [Query] + Clears(x, g.providers, g.prune, stamp.now)
  }

  lemma AllowedAppend(t: Tables, g: Goal, a: seq<Op>, b: seq<Op>)
    requires AllAllowed(t, g, a) && AllAllowed(t, g, b)
    ensures AllAllowed(t, g, a + b)
  {
  }

  lemma FirstAllowed(t: Tables, x: Tables, g: Goal, stamp: Stamp)
    requires Sheltered(t, g) && Between(t, x, g)
    ensures AllAllowed(t, g, ProviderPlan(x, g.providers, g.prune, stamp).ops)
  {
    hide AllAllowed;
    var upserts := Upserts(g.providers, |g.providers|, ManualIds(x.providers), stamp).ops;
    ClearsAllowed(t, x, g, stamp.now);
    UpsertsAllowed(t, x, g, |g.providers|, stamp);
    QueryAllowed(t, g);
    AllowedAppend(t, g, [Query], Clears(x, g.providers, g.prune, stamp.now));
    AllowedAppend(t, g, [Query] + Clears(x, g.providers, g.prune, stamp.now), upserts);
  }

  lemma SecondAllowed(t: Tables, x: Tables, g: Goal, stamp: Stamp)
    requires Between(t, x, g)
    ensures AllAllowed(t, g, ClientPlan(x, g.clients, g.prune, stamp).ops)
  {
    hide AllAllowed;
    var upserts := ClientUpserts(g.clients, |g.clients|, stamp).ops;
    ClientClearsAllowed(t, x, g, stamp);
    ClientUpsertsAllowed(t, g, |g.clients|, stamp);
    QueryAllowed(t, g);
    AllowedAppend(t, g, [Query], ClientClears(x, g.clients, g.prune, stamp));
    AllowedAppend(t, g, [Query] + ClientClears(x, g.clients, g.prune, stamp), upserts);
  }

  lemma QueryAllowed(t: Tables, g: Goal)
    ensures AllAllowed(t, g, [Query])
  {
  }

  lemma PlanAllowed(t: Tables, x: Tables, g: Goal, stamp: Stamp)
    requires Sheltered(t, g) && Between(t, x, g)
    ensures AllAllowed(t, g, PlanFor(x, g, stamp).ops)
  {
    hide AllAllowed;
    FirstAllowed(t, x, g, stamp);
    SecondAllowed(t, x, g, stamp);
    AllowedAppend(t, g, ProviderPlan(x, g.providers, g.prune, stamp).ops, ClientPlan(x, g.clients, g.prune, stamp).ops);
  }

  lemma CutAllowed(t: Tables, g: Goal, ops: seq<Op>, budget: nat)
    requires AllAllowed(t, g, ops)
    ensures AllAllowed(t, g, Cut(ops, budget))
  {
  }

  lemma OpeningComesFirst(x: Tables, g: Goal, stamp: Stamp)
    ensures Opening(x, g, stamp) <= PlanFor(x, g, stamp).ops
  {
  }

  lemma OpeningAddsNothing(t: Tables, x: Tables, g: Goal, stamp: Stamp)
    requires Sheltered(t, g) && Between(t, x, g)
    ensures forall op :: op in Opening(x, g, stamp) ==> !op.Upsert?
  {
    ClearsAllowed(t, x, g, stamp.now);
  }

  // Runs that break off

  /** A run whose connection takes only so many statements. */
  datatype Attempt = Attempt(stamp: Stamp, budget: nat)

  ghost function AfterAttempt(x: Tables, g: Goal, a: Attempt): Tables {
    Run(x, Cut(PlanFor(x, g, a.stamp).ops, a.budget))
  }

  ghost function AfterAttempts(t: Tables, g: Goal, attempts: seq<Attempt>): Tables {
    if |attempts| == 0 then t
    else AfterAttempt(AfterAttempts(t, g, attempts[..|attempts| - 1]), g, attempts[|attempts| - 1])
  }

  lemma OpeningIsDone(t: Tables, x: Tables, g: Goal, stamp: Stamp)
    requires OnTheWay(t, x, g)
    ensures AllDone(t, Run(x, Opening(x, g, stamp)), g)
  {
    hide Run;
    AfterQuery(x, Clears(x, g.providers, g.prune, stamp.now), []);
    assert Opening(x, g, stamp) + [] == Opening(x, g, stamp);
    RunNothing(Run(x, Clears(x, g.providers, g.prune, stamp.now)));
    ClearedIsDone(t, x, g, stamp.now);
  }

  lemma BeyondOpening(t: Tables, x: Tables, g: Goal, opening: seq<Op>, rest: seq<Op>)
    requires Between(t, x, g) && AllAllowed(t, g, opening) && AllAllowed(t, g, rest)
    requires AllDone(t, Run(x, opening), g)
    ensures AllDone(t, Run(x, opening + rest), g)
  {
    hide Run;
    RunAppend(x, opening, rest);
    StatementsKeep(t, x, g, opening);
    StatementsKeepAllDone(t, Run(x, opening), g, rest);
  }

  /** Cut within the opening, an attempt adds nothing; cut beyond it, all that was due is done. */
  lemma AttemptInOrder(t: Tables, x: Tables, g: Goal, a: Attempt)
    requires Sheltered(t, g) && OnTheWay(t, x, g)
    ensures InOrder(t, AfterAttempt(x, g, a), g)
  {
    hide Run, PlanFor, AllDone;
    var plan, opening := PlanFor(x, g, a.stamp).ops, Opening(x, g, a.stamp);
    var ops := Cut(plan, a.budget);
    PlanAllowed(t, x, g, a.stamp);
    CutAllowed(t, g, plan, a.budget);
    OpeningComesFirst(x, g, a.stamp);
    if AllDone(t, x, g) {
      StatementsKeepAllDone(t, x, g, ops);
    } else if |ops| <= |opening| {
      OpeningAddsNothing(t, x, g, a.stamp);
      assert ops == opening[..|ops|];
      forall i | 0 <= i < |ops| ensures !ops[i].Upsert? {
        assert ops[i] == opening[i] && opening[i] in opening;
      }
      NothingAdded(x, ops);
    } else {
      var rest := ops[|opening|..];
      assert ops == opening + rest;
      OpeningIsDone(t, x, g, a.stamp);
      BeyondOpening(t, x, g, opening, rest);
    }
  }

  lemma {:induction false} AttemptsOnTheWay(t: Tables, g: Goal, attempts: seq<Attempt>)
    requires Sheltered(t, g)
    ensures OnTheWay(t, AfterAttempts(t, g, attempts), g)
  {
    hide Run, PlanFor, Sheltered, InOrder;
    if |attempts| > 0 {
      var last := |attempts| - 1;
      var x := AfterAttempts(t, g, attempts[..last]);
      var plan := PlanFor(x, g, attempts[last].stamp).ops;
      AttemptsOnTheWay(t, g, attempts[..last]);
      PlanAllowed(t, x, g, attempts[last].stamp);
      CutAllowed(t, g, plan, attempts[last].budget);
      StatementsKeep(t, x, g, Cut(plan, attempts[last].budget));
      AttemptInOrder(t, x, g, attempts[last]);
    } else {
      StartIsOnTheWay(t, g);
    }
  }

  lemma StartIsOnTheWay(t: Tables, g: Goal)
    ensures OnTheWay(t, t, g)
  {
  }

  // The outcome

  /** The same provider, except for when it was created or disabled and how its secret was sealed. */
  ghost predicate SameOutcome(a: Option<Provider>, b: Option<Provider>) {
    && (a.None? <==> b.None?)
    && (a.Some? ==>
          && a.value.Enabled() == b.value.Enabled()
          && a.value.params == b.value.params.(secret := a.value.params.secret)
          && SameSecret(a.value.params.secret, b.value.params.secret))
  }

  ghost predicate SameOutcomes(a: Tables, b: Tables) {
    && (forall id :: SameOutcome(Lookup(a.providers, id), Lookup(b.providers, id)))
    && a.links == b.links
    && (forall id :: SameClient(Lookup(a.clients, id), Lookup(b.clients, id)))
    && a.sessions == b.sessions
  }

  /** What sweeping leaves of one row. */
  ghost function SweptRow(row: Option<Provider>, due: bool, prune: bool, now: Time): Option<Provider> {
    if row.None? || !due then row
    else if prune then None
    else if row.value.Enabled() then Some(row.value.(disabledAt := Some(now)))
    else row
  }

  lemma SweptByRow(x: Tables, g: Goal, now: Time, id: Id)
    ensures Swept(x.providers, Wanted(g.providers), g.prune, now, id)
         == SweptRow(Lookup(x.providers, id), Due(x, g, id), g.prune, now)
  {
  }

  /** How being due at the start and being due now go together. */
  lemma DueNow(t: Tables, x: Tables, g: Goal, id: Id)
    requires Sheltered(t, g) && OnTheWay(t, x, g)
    ensures Due(x, g, id) ==> Due(t, g, id)
    ensures Due(t, g, id) && StaleRow(x, g, id) ==> Due(x, g, id) || (!g.prune && Done(x, g, id))
  {
    assert RowBetween(t, x, g, id);
    if Due(x, g, id) { NoNewDue(t, x, g, id); }
    if Due(t, g, id) && StaleRow(x, g, id) { DueInSight(t, x, g, id); }
  }

  lemma UnwantedHeals(t: Tables, x: Tables, g: Goal, n1: Time, n2: Time, id: Id)
    requires RowBetween(t, x, g, id) && id !in Wanted(g.providers)
    requires Due(x, g, id) ==> Due(t, g, id)
    requires Due(t, g, id) && StaleRow(x, g, id) ==> Due(x, g, id) || (!g.prune && Done(x, g, id))
    ensures SameOutcome(SweptRow(Lookup(t.providers, id), Due(t, g, id), g.prune, n1),
                        SweptRow(Lookup(x.providers, id), Due(x, g, id), g.prune, n2))
  {
  }

  lemma WantedHeals(t: Tables, x: Tables, g: Goal, p1: Params, p2: Params, n1: Time, n2: Time, id: Id)
    requires RowBetween(t, x, g, id) && id in Wanted(g.providers) && id !in ManualIds(t.providers)
    requires Due(x, g, id) ==> Due(t, g, id)
    requires Due(t, g, id) && StaleRow(x, g, id) ==> Due(x, g, id) || (!g.prune && Done(x, g, id))
    requires p1 == p2.(secret := p1.secret) && SameSecret(p1.secret, p2.secret)
    ensures SameOutcome(Some(Upserted(SweptRow(Lookup(t.providers, id), Due(t, g, id), g.prune, n1), p1, n1)),
                        Some(Upserted(SweptRow(Lookup(x.providers, id), Due(x, g, id), g.prune, n2), p2, n2)))
  {
  }

  lemma RowHeals(t: Tables, x: Tables, g: Goal, s1: Stamp, s2: Stamp, id: Id)
    requires Sheltered(t, g) && OnTheWay(t, x, g)
    ensures SameOutcome(Settled(t.providers, g.providers, g.prune, s1, id), Settled(x.providers, g.providers, g.prune, s2, id))
  {
    hide Swept, Due, Sheltered, InOrder;
    assert RowBetween(t, x, g, id);
    SweptByRow(t, g, s1.now, id);
    SweptByRow(x, g, s2.now, id);
    DueNow(t, x, g, id);
    LastIndexWanted(g.providers, id);
    if id in ManualIds(t.providers) {
      ManualIsNotDue(t, g, id);
      ManualIsNotDue(x, g, id);
    } else if id in Wanted(g.providers) {
      var k := LastIndex(g.providers, |g.providers|, id).value;
      var p1, p2 := ParamsOf(g.providers[k], k, s1), ParamsOf(g.providers[k], k, s2);
      assert id !in ManualIds(x.providers);
      WantedHeals(t, x, g, p1, p2, s1.now, s2.now, id);
    } else {
      UnwantedHeals(t, x, g, s1.now, s2.now, id);
    }
  }

  lemma ManualIsNotDue(x: Tables, g: Goal, id: Id)
    requires id in ManualIds(x.providers)
    ensures !Due(x, g, id)
  {
  }

  lemma PrunedIsDue(x: Tables, g: Goal, id: Id)
    ensures Pruned(x.providers, g.providers, g.prune, id) <==> g.prune && Due(x, g, id)
  {
  }

  lemma LinksHeal(t: Tables, x: Tables, g: Goal)
    requires Sheltered(t, g) && OnTheWay(t, x, g)
    ensures SettledLinks(t, g.providers, g.prune) == SettledLinks(x, g.providers, g.prune)
  {
    hide Due, Sheltered, InOrder, Pruned;
    var a, b := SettledLinks(t, g.providers, g.prune), SettledLinks(x, g.providers, g.prune);
    forall r ensures r in a <==> r in b
             ensures r in a && r in b ==> a[r] == b[r]
    {
      assert LinkBetween(t, x, g, r);
      if r in t.links {
        var id := t.links[r];
        PrunedIsDue(t, g, id);
        PrunedIsDue(x, g, id);
        DueNow(t, x, g, id);
      }
    }
  }

  lemma ClientsHeal(t: Tables, x: Tables, g: Goal, s1: Stamp, s2: Stamp)
    requires Between(t, x, g)
    ensures forall id :: SameClient(SettledClient(t.clients, g.clients, g.prune, s1, id),
                                    SettledClient(x.clients, g.clients, g.prune, s2, id))
    ensures SettledSessions(t, g.clients, g.prune) == SettledSessions(x, g.clients, g.prune)
  {
    forall id ensures SameClient(SettledClient(t.clients, g.clients, g.prune, s1, id),
                                 SettledClient(x.clients, g.clients, g.prune, s2, id))
    {
      assert ClientBetween(t, x, g, id);
      LastClientNames(g.clients, id);
    }
    SessionsHeal(t, x, g);
  }

  lemma SessionsHeal(t: Tables, x: Tables, g: Goal)
    requires Between(t, x, g)
    ensures SettledSessions(t, g.clients, g.prune) == SettledSessions(x, g.clients, g.prune)
  {
    var a, b := SettledSessions(t, g.clients, g.prune), SettledSessions(x, g.clients, g.prune);
    forall r ensures r in a <==> r in b
             ensures r in a && r in b ==> a[r] == b[r]
    {
      assert SessionBetween(t, x, g, r);
      if r in t.sessions {
        assert ClientBetween(t, x, g, t.sessions[r]);
        if StaleClient(x, g, t.sessions[r]) { NoNewStaleClient(t, x, g, t.sessions[r]); }
      }
    }
  }

  ghost predicate CompletedFor(t: Tables, after: Tables, g: Goal, stamp: Stamp) {
    Completed(t, after, g.providers, g.clients, g.prune, stamp)
  }

  /**
   * Any number of attempts may break off anywhere. Without prune always, and with prune from
   * sheltered tables, the run that completes leaves what a single undisturbed run would have left.
   */
  lemma FailedRunsHeal(
    t: Tables, g: Goal, attempts: seq<Attempt>, straight: Tables, s1: Stamp, healed: Tables, s2: Stamp)
    requires Sheltered(t, g)
    requires CompletedFor(t, straight, g, s1) && CompletedFor(AfterAttempts(t, g, attempts), healed, g, s2)
    ensures SameOutcomes(straight, healed)
  {
    hide Sheltered, OnTheWay, Settled, SettledClient, SettledLinks, SettledSessions;
    var x := AfterAttempts(t, g, attempts);
    AttemptsOnTheWay(t, g, attempts);
    forall id ensures SameOutcome(Lookup(straight.providers, id), Lookup(healed.providers, id)) {
      RowHeals(t, x, g, s1, s2, id);
    }
    LinksHeal(t, x, g);
    assert Between(t, x, g) by { WayIsBetween(t, x, g); }
    ClientsHeal(t, x, g, s1, s2);
  }

  lemma WayIsBetween(t: Tables, x: Tables, g: Goal)
    requires OnTheWay(t, x, g)
    ensures Between(t, x, g)
  {
  }

  // The condition is exact

  lemma SettledIsNamed(t: Tables, g: Goal, stamp: Stamp, id: Id)
    ensures Settled(t.providers, g.providers, g.prune, stamp, id).Some? ==> id in t.providers.Keys + Wanted(g.providers)
    ensures SettledClient(t.clients, g.clients, g.prune, stamp, id).Some? ==> id in t.clients.Keys + ClientIds(g.clients)
  {
    LastIndexWanted(g.providers, id);
    LastClientNames(g.clients, id);
  }

  lemma CompletedExists(t: Tables, g: Goal, stamp: Stamp) returns (after: Tables)
    ensures CompletedFor(t, after, g, stamp)
  {
    hide Settled, SettledClient, SettledLinks, SettledSessions;
    var ids := t.providers.Keys + Wanted(g.providers);
    var named := t.clients.Keys + ClientIds(g.clients);
    after := Tables(
      map id | id in ids && Settled(t.providers, g.providers, g.prune, stamp, id).Some?
        :: Settled(t.providers, g.providers, g.prune, stamp, id).value,
      SettledLinks(t, g.providers, g.prune),
      map id | id in named && SettledClient(t.clients, g.clients, g.prune, stamp, id).Some?
        :: SettledClient(t.clients, g.clients, g.prune, stamp, id).value,
      SettledSessions(t, g.clients, g.prune));
    forall id ensures Lookup(after.providers, id) == Settled(t.providers, g.providers, g.prune, stamp, id) {
      SettledIsNamed(t, g, stamp, id);
    }
    forall id ensures Lookup(after.clients, id) == SettledClient(t.clients, g.clients, g.prune, stamp, id) {
      SettledIsNamed(t, g, stamp, id);
    }
  }

  /** The attempt that breaks off right before it adds rows. */
  ghost function Interrupted(t: Tables, g: Goal, stamp: Stamp): Attempt {
    Attempt(stamp, |Opening(t, g, stamp)|)
  }

  lemma AfterInterrupted(t: Tables, g: Goal, stamp: Stamp)
    ensures AfterAttempts(t, g, [Interrupted(t, g, stamp)]) == Run(t, Clears(t, g.providers, g.prune, stamp.now))
  {
    hide Run, PlanFor;
    var a := Interrupted(t, g, stamp);
    assert [a][..0] == [];
    OpeningComesFirst(t, g, stamp);
    assert Cut(PlanFor(t, g, stamp).ops, a.budget) == Opening(t, g, stamp);
    AfterQuery(t, Clears(t, g.providers, g.prune, stamp.now), []);
    assert Opening(t, g, stamp) + [] == Opening(t, g, stamp);
    RunNothing(Run(t, Clears(t, g.providers, g.prune, stamp.now)));
  }

  /** What pruning alone leaves: all but the rows that were due. */
  lemma PrunedRows(t: Tables, g: Goal, now: Time, id: Id)
    requires g.prune
    ensures var x := Run(t, Clears(t, g.providers, g.prune, now));
            Lookup(x.providers, id) == if Due(t, g, id) then None else Lookup(t.providers, id)
  {
    hide Run;
    Sweep(t, g.providers, g.prune, now);
    SweptByRow(t, g, now, id);
  }

  /** The first hidden row comes into sight if any with too few lasting rows before it does. */
  lemma {:induction false} HiddenSurfaces(t: Tables, g: Goal, x: Tables, now: Time, id: Id) returns (u: Id)
    requires g.prune && x == Run(t, Clears(t, g.providers, g.prune, now))
    requires Hidden(t, g, id) && Rank(Lasting(t, g), id) < PAGE_LIMIT
    ensures Hidden(t, g, u) && Due(x, g, u) && Lookup(x.providers, u) == Lookup(t.providers, u)
    decreases id
  {
    hide Run;
    if lower: Id :| lower < id && Hidden(t, g, lower) {
      RankUpward(Lasting(t, g), lower, id);
      u := HiddenSurfaces(t, g, x, now, lower);
    } else {
      u := id;
      forall y | y in ConfigIds(x.providers) && y < id ensures y in Lasting(t, g) {
        PrunedRows(t, g, now, y);
        assert !Hidden(t, g, y) && !Due(t, g, y);
      }
      RankMonotone(ConfigIds(x.providers), Lasting(t, g), id);
      PrunedRows(t, g, now, id);
    }
  }

  /** Pruned on the second sight, the row is gone, or back with its soft deletion forgotten. */
  lemma HiddenRowHarmed(t: Tables, x: Tables, g: Goal, s1: Stamp, s2: Stamp, u: Id)
    requires g.prune && Hidden(t, g, u) && Due(x, g, u) && Lookup(x.providers, u) == Lookup(t.providers, u)
    ensures !SameOutcome(Settled(t.providers, g.providers, g.prune, s1, u), Settled(x.providers, g.providers, g.prune, s2, u))
  {
    SweptByRow(t, g, s1.now, u);
    SweptByRow(x, g, s2.now, u);
    LastIndexWanted(g.providers, u);
  }

  /** From tables that are not sheltered, one interrupted attempt does lasting harm. */
  lemma InterruptedHarms(t: Tables, g: Goal, stamp: Stamp, straight: Tables, s1: Stamp, healed: Tables, s2: Stamp)
    requires !Sheltered(t, g)
    requires CompletedFor(t, straight, g, s1)
    requires CompletedFor(AfterAttempts(t, g, [Interrupted(t, g, stamp)]), healed, g, s2)
    ensures !SameOutcomes(straight, healed)
  {
    hide Run, Settled;
    var x := AfterAttempts(t, g, [Interrupted(t, g, stamp)]);
    AfterInterrupted(t, g, stamp);
    var id :| Hidden(t, g, id) && Rank(Lasting(t, g), id) < PAGE_LIMIT;
    var u := HiddenSurfaces(t, g, x, stamp.now, id);
    HiddenRowHarmed(t, x, g, s1, s2, u);
    assert Lookup(straight.providers, u) == Settled(t.providers, g.providers, g.prune, s1, u);
    assert Lookup(healed.providers, u) == Settled(x.providers, g.providers, g.prune, s2, u);
  }

  ghost predicate HealsAfter(t: Tables, g: Goal, attempts: seq<Attempt>) {
    forall straight, s1, healed, s2 ::
      CompletedFor(t, straight, g, s1) && CompletedFor(AfterAttempts(t, g, attempts), healed, g, s2) ==>
        SameOutcomes(straight, healed)
  }

  /** All series of attempts heal exactly from sheltered tables. */
  lemma HealsExactly(t: Tables, g: Goal)
    ensures (forall attempts :: HealsAfter(t, g, attempts)) <==> Sheltered(t, g)
  {
    hide CompletedFor, SameOutcomes, Sheltered;
    if Sheltered(t, g) {
      forall attempts ensures HealsAfter(t, g, attempts) {
        forall straight, s1, healed, s2
          | CompletedFor(t, straight, g, s1) && CompletedFor(AfterAttempts(t, g, attempts), healed, g, s2)
          ensures SameOutcomes(straight, healed)
        {
          FailedRunsHeal(t, g, attempts, straight, s1, healed, s2);
        }
      }
    } else {
      var stamp := Stamp(0, 0, _ => []);
      var attempts := [Interrupted(t, g, stamp)];
      var straight := CompletedExists(t, g, stamp);
      var healed := CompletedExists(AfterAttempts(t, g, attempts), g, stamp);
      InterruptedHarms(t, g, stamp, straight, stamp, healed, stamp);
      assert !HealsAfter(t, g, attempts);
    }
  }

  /** One page that holds all rows shelters them, since none is hidden. */
  lemma OnePageIsSheltered(t: Tables, g: Goal)
    requires |ConfigIds(t.providers)| <= PAGE_LIMIT
    ensures Sheltered(t, g)
  {
    forall id ensures !Hidden(t, g, id) {
      if id in ConfigIds(t.providers) { RankOfMember(ConfigIds(t.providers), id); }
    }
  }

  /** A thousand and one soft-deleted rows and an empty configuration are not sheltered. */
  lemma CrowdIsExposed(n: nat)
    requires n > PAGE_LIMIT
    ensures !Sheltered(Crowd(n), Goal([], [], true))
  {
    var g := Goal([], [], true);
    CrowdRank(n, PAGE_LIMIT);
    assert Lasting(Crowd(n), g) == {};
    assert Rank({}, PAGE_LIMIT) == 0;
    assert Hidden(Crowd(n), g, PAGE_LIMIT);
  }
}

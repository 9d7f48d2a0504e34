/** The tables that `config_sync` works on, and the repository calls it makes on them. */
module SyncTables {
  import opened Wrappers

  /** ULIDs, in their byte order. */
  type Id = nat
  type Time = nat

  datatype Source = Config | Manual

  /** A ciphertext. Two encryptions of one plaintext differ in their nonce. */
  datatype Sealed = Sealed(plain: string, nonce: nat)

  datatype Params = Params(settings: string, secret: Option<Sealed>, uiOrder: int, source: Source)

  datatype Provider = Provider(createdAt: Time, disabledAt: Option<Time>, params: Params) {
    predicate Enabled() { disabledAt.None? }
    predicate IsManual() { params.source.Manual? }
  }

  /** `registration` stands for the columns that only dynamic registration fills in. */
  datatype Client = Client(isStatic: bool, settings: string, secret: Option<Sealed>, registration: string)

  /** The tables whose rows refer to a provider, in the order they are cleared. */
  datatype LinkTable = AuthorizationSessions | Links

  /** The tables whose rows belong to a client, in the order they are cleared. */
  datatype ClientTable = Grants | AccessTokens | RefreshTokens | Sessions | PersonalTokens | PersonalSessions

  datatype Link = Link(table: LinkTable, row: nat)

  datatype Belonging = Belonging(table: ClientTable, row: nat)

  /** `links` are the rows that refer to a provider, `sessions` those that belong to a client. */
  datatype Tables = Tables(
    providers: map<Id, Provider>,
    links: map<Link, Id>,
    clients: map<Id, Client>,
    sessions: map<Belonging, Id>)

  /** One statement, which commits by itself; a query changes nothing. */
  datatype Op =
    | Query
    | Disable(id: Id, at: Time)
    | DropLinks(links: LinkTable, id: Id)
    | DeleteProvider(id: Id)
    | Upsert(id: Id, params: Params, at: Time)
    | DropSessions(sessions: ClientTable, id: Id)
    | DeleteClient(id: Id)
    | UpsertStatic(id: Id, settings: string, secret: Option<Sealed>)

  /** The insert keeps `created_at` and `disabled_at` of a row that is already there. */
  function Upserted(before: Option<Provider>, params: Params, at: Time): Provider {
    match before
    case Some(row) => row.(params := params)
    case None => Provider(at, None, params)
  }

  function Lookup<T>(table: map<Id, T>, id: Id): Option<T> {
    if id in table then Some(table[id]) else None
  }

  /** Nothing refers to the row any more. */
  predicate Unlinked<R(!new, ==)>(references: map<R, Id>, target: Id) {
    forall r :: r in references ==> references[r] != target
  }

  function LinksWithout(links: map<Link, Id>, table: LinkTable, target: Id): map<Link, Id> {
    map r | r in links && !(r.table == table && links[r] == target) :: links[r]
  }

  function SessionsWithout(sessions: map<Belonging, Id>, table: ClientTable, target: Id): map<Belonging, Id> {
    map r | r in sessions && !(r.table == table && sessions[r] == target) :: sessions[r]
  }

  /** A row that is still referred to is not deleted: the foreign keys forbid it. */
  function Exec(t: Tables, op: Op): Tables {
    match op
    case Query => t
    case Disable(id, at) =>
      if id in t.providers then
        t.(providers := t.providers[id := t.providers[id].(disabledAt := Some(at))])
      else t
    case DropLinks(table, id) =>
      t.(links := LinksWithout(t.links, table, id))
    case DeleteProvider(id) =>
      if Unlinked(t.links, id) then t.(providers := t.providers - {id}) else t
    case Upsert(id, params, at) =>
      t.(providers := t.providers[id := Upserted(Lookup(t.providers, id), params, at)])
    case DropSessions(table, id) =>
      t.(sessions := SessionsWithout(t.sessions, table, id))
    case DeleteClient(id) =>
      if Unlinked(t.sessions, id) then t.(clients := t.clients - {id}) else t
    case UpsertStatic(id, settings, secret) =>
      var registration := if id in t.clients then t.clients[id].registration else "";
      t.(clients := t.clients[id := Client(true, settings, secret, registration)])
  }

  function Run(t: Tables, ops: seq<Op>): Tables {
    if ops == [] then t else Exec(Run(t, ops[..|ops| - 1]), ops[|ops| - 1])
  }

  /** The statements that delete one provider. */
  function ProviderDelete(id: Id): seq<Op> {
    [DropLinks(AuthorizationSessions, id), DropLinks(Links, id), DeleteProvider(id)]
  }

  /** The statements that delete one client. */
  function ClientDelete(id: Id): seq<Op> {
    [DropSessions(Grants, id), DropSessions(AccessTokens, id), DropSessions(RefreshTokens, id), DropSessions(Sessions, id),
     DropSessions(PersonalTokens, id), DropSessions(PersonalSessions, id), DeleteClient(id)]
  }

  /** The part of a list of statements that a connection carries out before it breaks. */
  ghost function Cut(ops: seq<Op>, budget: nat): seq<Op> {
    if |ops| <= budget then ops else ops[..budget]
  }

  /** The statements `ops` were carried out in order until the connection broke, if it did. */
  ghost predicate Carried(before: Tables, budget: nat, after: Tables, left: nat, ops: seq<Op>, ok: bool) {
    && after == Run(before, Cut(ops, budget))
    && left + |Cut(ops, budget)| == budget
    && ok == (|ops| <= budget)
  }

  lemma {:induction false} RunAppend(t: Tables, a: seq<Op>, b: seq<Op>)
    ensures Run(t, a + b) == Run(Run(t, a), b)
  {
    if b == [] {
      assert a + b == a;
    } else {
      var last := |b| - 1;
      assert (a + b)[..|a + b| - 1] == a + b[..last];
      RunAppend(t, a, b[..last]);
    }
  }

  lemma RunPush(t: Tables, ops: seq<Op>, op: Op)
    ensures Run(t, ops + [op]) == Exec(Run(t, ops), op)
  {
    assert (ops + [op])[..|ops|] == ops;
  }

  /** How many of the ids lie below `x`. */
  ghost function Rank(ids: set<Id>, x: Id): nat {
    |set y | y in ids && y < x|
  }

  lemma RankMonotone(a: set<Id>, b: set<Id>, x: Id)
    requires forall y :: y in a && y < x ==> y in b
    ensures Rank(a, x) <= Rank(b, x)
  {
    SubsetSize((set y | y in a && y < x), (set y | y in b && y < x));
  }

  lemma RankBound(ids: set<Id>, x: Id)
    ensures Rank(ids, x) <= |ids|
  {
    SubsetSize((set y | y in ids && y < x), ids);
  }

  lemma {:induction false} SubsetSize(a: set<Id>, b: set<Id>)
    requires a <= b
    ensures |a| <= |b|
  {
    if a != {} {
      var x :| x in a;
      SubsetSize(a - {x}, b - {x});
    }
  }

  predicate Ascending(s: seq<Id>) {
    forall i, j :: 0 <= i < j < |s| ==> s[i] < s[j]
  }

  /** What `list` returns for the first `count` rows: the ids of lowest rank, ascending. */
  ghost predicate IsPage(page: seq<Id>, ids: set<Id>, count: nat) {
    && Ascending(page)
    && forall x :: x in page <==> x in ids && Rank(ids, x) < count
  }

  lemma {:induction false} PageUnique(a: seq<Id>, b: seq<Id>, ids: set<Id>, count: nat)
    requires IsPage(a, ids, count) && IsPage(b, ids, count)
    ensures a == b
  {
    AscendingUnique(a, b);
  }

  lemma {:induction false} AscendingUnique(a: seq<Id>, b: seq<Id>)
    requires Ascending(a) && Ascending(b)
    requires forall x :: x in a <==> x in b
    ensures a == b
  {
    assert b == [] || b[0] in b;
    if a != [] {
      assert a[0] in b && b[0] in a;
      assert a[0] == b[0];
      forall x ensures x in a[1..] <==> x in b[1..] {
        assert x in a <==> x == a[0] || x in a[1..];
        assert x in b <==> x == b[0] || x in b[1..];
      }
      AscendingUnique(a[1..], b[1..]);
      assert a == [a[0]] + a[1..] && b == [b[0]] + b[1..];
    }
  }

  ghost function Page(ids: set<Id>, count: nat): (page: seq<Id>)
    ensures IsPage(page, ids, count)
  {
    PageExists(ids, count);
    var page :| IsPage(page, ids, count);
    page
  }

  lemma {:induction false} PageExists(ids: set<Id>, count: nat)
    ensures exists page :: IsPage(page, ids, count)
  {
    if ids == {} {
      assert IsPage([], ids, count);
    } else {
      var top := Greatest(ids);
      var fewer := ids - {top};
      PageExists(fewer, count);
      var page :| IsPage(page, fewer, count);
      forall y | y in fewer ensures Rank(ids, y) == Rank(fewer, y) {
        RankMonotone(ids, fewer, y);
        RankMonotone(fewer, ids, y);
      }
      if Rank(ids, top) < count {
        AscendingPush(page, top);
        assert IsPage(page + [top], ids, count);
      } else {
        assert IsPage(page, ids, count);
      }
    }
  }

  lemma {:induction false} Greatest(ids: set<Id>) returns (top: Id)
    requires ids != {}
    ensures top in ids && forall x :: x in ids ==> x <= top
  {
    var first :| first in ids;
    var rest := ids - {first};
    top := first;
    if rest != {} {
      var other := Greatest(rest);
      if other > first { top := other; }
    }
    assert forall x :: x in ids ==> x == first || x in rest;
  }

  /** The ids of the rows that a configuration run may touch. */
  function ConfigIds(providers: map<Id, Provider>): set<Id> {
    set id | id in providers && !providers[id].IsManual()
  }

  /** What is read besides the static clients themselves. */
  function Details(clients: map<Id, Client>): seq<Op> {
    if StaticIds(clients) == {} then [] else [Query]
  }

  function StaticIds(clients: map<Id, Client>): set<Id> {
    set id | id in clients && clients[id].isStatic
  }

  /** The smallest element of a non-empty set. */
  method Least(ids: set<Id>) returns (least: Id)
    requires ids != {}
    ensures least in ids
    ensures forall x :: x in ids ==> least <= x
  {
    least :| least in ids;
    var rest := ids - {least};
    while rest != {}
      invariant rest <= ids && least in ids
      invariant forall x :: x in ids ==> x in rest || least <= x
    {
      var x :| x in rest;
      rest := rest - {x};
      if x < least { least := x; }
    }
  }

  predicate IsListing(s: seq<Id>, ids: set<Id>) {
    && (forall i, j :: 0 <= i < j < |s| ==> s[i] != s[j])
    && (forall i :: 0 <= i < |s| ==> s[i] in ids)
    && (forall id :: id in ids ==> id in s)
  }

  /**
   * The session a run works on: the tables as this connection sees them, and the number of
   * statements the connection will still carry out before it breaks.
   */
  class Database {
    var providers: map<Id, Provider>
    var links: map<Link, Id>
    var clients: map<Id, Client>
    var sessions: map<Belonging, Id>
    var budget: nat

    function View(): Tables
      reads this
    {
      Tables(providers, links, clients, sessions)
    }

    constructor (t: Tables, budget: nat)
      ensures View() == t && this.budget == budget
    {
      providers, links, clients, sessions := t.providers, t.links, t.clients, t.sessions;
      this.budget := budget;
    }

    /** One statement: it takes effect as a whole, or the connection is broken. */
    method Execute(op: Op) returns (ok: bool)
      modifies this
      ensures Carried(old(View()), old(budget), View(), budget, [op], ok)
    {
      ghost var t := View();
      assert [op][..0] == [];
      ok := budget > 0;
      if ok {
        budget := budget - 1;
        match op {
          case Query =>
          case Disable(id, at) =>
            if id in providers {
              providers := providers[id := providers[id].(disabledAt := Some(at))];
            }
          case DropLinks(table, id) =>
            links := map r | r in links && !(r.table == table && links[r] == id) :: links[r];
          case DeleteProvider(id) =>
            if Unlinked(links, id) { providers := providers - {id}; }
          case Upsert(id, params, at) =>
            if id in providers {
              providers := providers[id := providers[id].(params := params)];
            } else {
              providers := providers[id := Provider(at, None, params)];
            }
          case DropSessions(table, id) =>
            sessions := map r | r in sessions && !(r.table == table && sessions[r] == id) :: sessions[r];
          case DeleteClient(id) =>
            if Unlinked(sessions, id) { clients := clients - {id}; }
          case UpsertStatic(id, settings, secret) =>
            if id in clients {
              clients := clients[id := clients[id].(isStatic := true, settings := settings, secret := secret)];
            } else {
              clients := clients[id := Client(true, settings, secret, "")];
            }
        }
        assert View() == Exec(t, op);
      }
    }

    /** The first `count` config-sourced rows by id, and whether more remain. */
    method ListConfig(count: nat) returns (ok: bool, page: seq<Id>, rows: seq<Provider>, more: bool)
      modifies this
      ensures Carried(old(View()), old(budget), View(), budget, [Query], ok) && View() == old(View())
      ensures page == Page(ConfigIds(providers), count)
      ensures |rows| == |page|
      ensures forall i :: 0 <= i < |page| ==> page[i] in providers && rows[i] == providers[page[i]]
      ensures more <==> |ConfigIds(providers)| > count
    {
      ok := Execute(Query);
      CutOne(old(View()), old(budget), Query);
      page, rows, more := FirstRows(count);
    }

    method FirstRows(count: nat) returns (page: seq<Id>, rows: seq<Provider>, more: bool)
      ensures page == Page(ConfigIds(providers), count)
      ensures |rows| == |page|
      ensures forall i :: 0 <= i < |page| ==> page[i] in providers && rows[i] == providers[page[i]]
      ensures more <==> |ConfigIds(providers)| > count
    {
      ghost var ids := ConfigIds(providers);
      var rest := set id | id in providers && !providers[id].IsManual();
      page, rows := [], [];
      while rest != {} && |page| < count
        invariant |rows| == |page|
        invariant forall i :: 0 <= i < |page| ==> page[i] in providers && rows[i] == providers[page[i]]
        invariant rest <= ids && Ascending(page) && |page| <= count
        invariant forall x :: x in page <==> x in ids && x !in rest
        invariant forall x, y :: x in page && y in rest ==> x < y
        invariant |rest| + |page| == |ids|
        invariant forall x :: x in page ==> Rank(ids, x) < count
        decreases rest
      {
        var least := Least(rest);
        RankOfNext(ids, page, rest, least);
        AscendingPush(page, least);
        page, rows := page + [least], rows + [providers[least]];
        rest := rest - {least};
      }
      more := rest != {};
      forall x | x in ids && x !in page ensures Rank(ids, x) >= count {
        RankBeyond(ids, page, x);
      }
      PageUnique(page, Page(ids, count), ids, count);
    }

    method LookupProvider(id: Id) returns (ok: bool, row: Option<Provider>)
      modifies this
      ensures Carried(old(View()), old(budget), View(), budget, [Query], ok) && View() == old(View())
      ensures row == Lookup(providers, id)
    {
      ok := Execute(Query);
      CutOne(old(View()), old(budget), Query);
      row := Lookup(providers, id);
    }

    /** Clears what refers to the row, table by table, then deletes the row. */
    method Delete(id: Id) returns (ok: bool)
      modifies this
      ensures Carried(old(View()), old(budget), View(), budget, ProviderDelete(id), ok)
    {
      var ops := ProviderDelete(id);
      ok := ExecuteAll(ops);
    }

    /** Clears what belongs to the client, table by table, then deletes it. */
    method DeleteStatic(id: Id) returns (ok: bool)
      modifies this
      ensures Carried(old(View()), old(budget), View(), budget, ClientDelete(id), ok)
    {
      var ops := ClientDelete(id);
      ok := ExecuteAll(ops);
    }

    method ExecuteAll(ops: seq<Op>) returns (ok: bool)
      modifies this
      ensures Carried(old(View()), old(budget), View(), budget, ops, ok)
    {
      ok := true;
      ghost var t, b := View(), budget;
      for i := 0 to |ops|
        invariant ok && Carried(t, b, View(), budget, ops[..i], true)
      {
        ghost var t1, b1 := View(), budget;
        ok := Execute(ops[i]);
        assert ops[..i + 1] == ops[..i] + [ops[i]];
        CarriedAppend(t, b, t1, b1, View(), budget, ops[..i], [ops[i]], ok);
        if !ok {
          CarriedPrefix(t, b, View(), budget, ops[..i + 1], ops);
          return;
        }
      }
      assert ops[..|ops|] == ops;
    }

    /**
     * Every static client, in whatever order the query yields them; `order` stands for that. If
     * there are any, a second query reads their localized metadata.
     */
    method AllStatic(order: set<Id> -> seq<Id>) returns (ok: bool, ids: seq<Id>)
      modifies this
      ensures Carried(old(View()), old(budget), View(), budget, [Query] + Details(old(clients)), ok) && View() == old(View())
      ensures ids == Listed(order, StaticIds(clients))
    {
      ghost var t, b := View(), budget;
      ok := Execute(Query);
      CutOne(t, b, Query);
      ids := StaticsIn(order);
      if !ok {
        CarriedPrefix(t, b, View(), budget, [Query], [Query] + Details(t.clients));
        return;
      }
      ListedIsListing(order, StaticIds(clients));
      if |ids| > 0 {
        assert ids[0] in StaticIds(clients);
        ghost var t1, b1 := View(), budget;
        ok := Execute(Query);
        CutOne(t1, b1, Query);
        CarriedAppend(t, b, t1, b1, View(), budget, [Query], [Query], ok);
      } else {
        assert StaticIds(clients) == {};
        assert [Query] + [] == [Query];
      }
    }

    method StaticsIn(order: set<Id> -> seq<Id>) returns (ids: seq<Id>)
      ensures ids == Listed(order, StaticIds(clients))
    {
      ids := [];
      var rest := set id | id in clients && clients[id].isStatic;
      var wish := order(rest);
      if IsListing(wish, rest) {
        ids := wish;
        return;
      }
      while rest != {}
        invariant rest <= StaticIds(clients) && Ascending(ids)
        invariant forall x :: x in ids <==> x in StaticIds(clients) && x !in rest
        invariant forall x, y :: x in ids && y in rest ==> x < y
      {
        var least := Least(rest);
        AscendingPush(ids, least);
        ids := ids + [least];
        rest := rest - {least};
      }
      ListedAscending(StaticIds(clients));
      AscendingUnique(ids, Page(StaticIds(clients), |StaticIds(clients)|));
    }
  }

  /** The listing that `order` proposes if it is one, and the ascending one if not. */
  ghost function Listed(order: set<Id> -> seq<Id>, ids: set<Id>): seq<Id> {
    if IsListing(order(ids), ids) then order(ids) else Page(ids, |ids|)
  }

  lemma ListedAscending(ids: set<Id>)
    ensures forall x :: x in Page(ids, |ids|) <==> x in ids
  {
    forall x | x in ids ensures Rank(ids, x) < |ids| {
      RankOfMember(ids, x);
    }
  }

  lemma ListedIsListing(order: set<Id> -> seq<Id>, ids: set<Id>)
    ensures IsListing(Listed(order, ids), ids)
    ensures |Listed(order, ids)| == |ids| && forall id :: id in Listed(order, ids) <==> id in ids
  {
    ListedAscending(ids);
    ListingSize(Listed(order, ids), ids);
  }

  lemma {:induction false} ListingSize(s: seq<Id>, ids: set<Id>)
    requires IsListing(s, ids)
    ensures |s| == |ids|
  {
    if s == [] {
      assert ids == {};
    } else {
      var last := |s| - 1;
      assert s[last] in s;
      assert forall id :: id in ids && id != s[last] ==> id in s[..last];
      ListingSize(s[..last], ids - {s[last]});
    }
  }

  lemma CarriedNothing(t: Tables, budget: nat)
    ensures Carried(t, budget, t, budget, [], true)
  {
  }

  lemma CutOne(t: Tables, budget: nat, op: Op)
    ensures Run(t, Cut([op], budget)) == if budget > 0 then Exec(t, op) else t
  {
    assert [op][..0] == [];
  }

  lemma CarriedAppend(t0: Tables, b0: nat, t1: Tables, b1: nat, t2: Tables, b2: nat, a: seq<Op>, c: seq<Op>, ok: bool)
    requires Carried(t0, b0, t1, b1, a, true) && Carried(t1, b1, t2, b2, c, ok)
    ensures Carried(t0, b0, t2, b2, a + c, ok)
  {
    assert Cut(a + c, b0) == a + Cut(c, b1);
    RunAppend(t0, a, Cut(c, b1));
  }

  lemma CarriedPrefix(t0: Tables, b0: nat, t1: Tables, b1: nat, a: seq<Op>, c: seq<Op>)
    requires Carried(t0, b0, t1, b1, a, false) && a <= c
    ensures Carried(t0, b0, t1, b1, c, false)
  {
    assert Cut(a, b0) == Cut(c, b0);
  }

  lemma RankOfMember(ids: set<Id>, id: Id)
    requires id in ids
    ensures Rank(ids, id) < |ids|
  {
    var below := set y | y in ids && y < id;
    SubsetSize(below, ids - {id});
  }

  lemma RankOfNext(ids: set<Id>, page: seq<Id>, rest: set<Id>, least: Id)
    requires Ascending(page) && rest <= ids && least in rest
    requires forall x :: x in page <==> x in ids && x !in rest
    requires forall x :: x in rest ==> least <= x
    requires |rest| + |page| == |ids|
    ensures Rank(ids, least) <= |page|
  {
    var below := set y | y in ids && y < least;
    assert below <= ids - rest;
    SubsetSize(below, ids - rest);
    assert |ids - rest| == |ids| - |rest|;
  }

  lemma AscendingPush(s: seq<Id>, x: Id)
    requires Ascending(s) && forall y :: y in s ==> y < x
    ensures Ascending(s + [x])
  {
    forall i, j | 0 <= i < j < |s + [x]| ensures (s + [x])[i] < (s + [x])[j] {
      if j == |s| { assert s[i] in s; }
    }
  }

  ghost function Elements(s: seq<Id>): set<Id> {
    set x | x in s
  }

  lemma {:induction false} AscendingSize(page: seq<Id>)
    requires Ascending(page)
    ensures |Elements(page)| == |page|
  {
    if page != [] {
      var last := |page| - 1;
      AscendingSize(page[..last]);
      assert page == page[..last] + [page[last]];
      assert Elements(page) == Elements(page[..last]) + {page[last]};
    }
  }

  lemma RankBeyond(ids: set<Id>, page: seq<Id>, x: Id)
    requires Ascending(page) && x in ids
    requires forall y :: y in page ==> y in ids && y < x
    ensures Rank(ids, x) >= |page|
  {
    AscendingSize(page);
    SubsetSize(Elements(page), (set y | y in ids && y < x));
  }
}

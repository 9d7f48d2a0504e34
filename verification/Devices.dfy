/** Collecting a user's devices page by page and pushing them to the homeserver. */
module Devices {
  import opened Wrappers
  import opened Homeserver

  const STABLE_PREFIX := "urn:matrix:client:device:"
  const UNSTABLE_PREFIX := "urn:matrix:org.matrix.msc2967.client:device:"

  datatype Session = Session(id: nat, scope: seq<string>)

  function Strip(prefix: string, s: string): Option<string> {
    if prefix <= s then Some(s[|prefix|..]) else None
  }

  /** The first prefix in the list that fits. */
  function ExtractWith(prefixes: seq<string>, token: string): Option<string> {
    if prefixes == [] then None
    else if Strip(prefixes[0], token).Some? then Strip(prefixes[0], token)
    else ExtractWith(prefixes[1..], token)
  }

  function Extract(token: string): Option<string> {
    ExtractWith([STABLE_PREFIX, UNSTABLE_PREFIX], token)
  }

  /** No token has both prefixes, so the order in which they are tried does not matter. */
  lemma PrefixOrderIrrelevant(token: string)
    ensures Extract(token) == ExtractWith([UNSTABLE_PREFIX, STABLE_PREFIX], token)
    ensures forall device: string :: Extract(token) == Some(device) <==>
              token == STABLE_PREFIX + device || token == UNSTABLE_PREFIX + device
  {
    assert STABLE_PREFIX[11] == 'c' && UNSTABLE_PREFIX[11] == 'o';
    if STABLE_PREFIX <= token { assert token[11] == 'c'; }
    if UNSTABLE_PREFIX <= token { assert token[11] == 'o'; }
    ExtractTwo(STABLE_PREFIX, UNSTABLE_PREFIX, token);
    ExtractTwo(UNSTABLE_PREFIX, STABLE_PREFIX, token);
    forall device: string
      ensures Extract(token) == Some(device) <==>
                token == STABLE_PREFIX + device || token == UNSTABLE_PREFIX + device
    {
      StripExactly(STABLE_PREFIX, token, device);
      StripExactly(UNSTABLE_PREFIX, token, device);
    }
  }

  /** The device of a token with the stable or the unstable prefix. */
  lemma DeviceTokens(device: string)
    ensures Extract("urn:matrix:client:device:" + device) == Some(device)
    ensures Extract("urn:matrix:org.matrix.msc2967.client:device:" + device) == Some(device)
  {
    PrefixOrderIrrelevant(STABLE_PREFIX + device);
    PrefixOrderIrrelevant(UNSTABLE_PREFIX + device);
  }

  lemma ExtractTwo(first: string, second: string, token: string)
    ensures ExtractWith([first, second], token)
         == if first <= token then Strip(first, token) else Strip(second, token)
  {
    assert [first, second][1..] == [second];
    assert ExtractWith([second], token) == Strip(second, token) by { assert [second][1..] == []; }
  }

  lemma StripExactly(prefix: string, token: string, rest: string)
    ensures Strip(prefix, token) == Some(rest) <==> token == prefix + rest
  {
    if prefix <= token { assert token == prefix + token[|prefix|..]; }
    if token == prefix + rest { assert token[|prefix|..] == rest; }
  }

  /** Every device id named by a scope token of a session. */
  ghost function DeviceIds(rows: seq<Session>): set<string> {
    set r, t | r in rows && t in r.scope && Extract(t).Some? :: Extract(t).value
  }

  predicate Ordered(rows: seq<Session>) {
    forall i, j :: 0 <= i < j < |rows| ==> rows[i].id < rows[j].id
  }

  predicate After(cursor: Option<nat>, row: Session) {
    cursor.None? || cursor.value < row.id
  }

  function Matching(rows: seq<Session>, cursor: Option<nat>): seq<Session> {
    if rows == [] then []
    else (if After(cursor, rows[0]) then [rows[0]] else []) + Matching(rows[1..], cursor)
  }

  /** One query, with one row more than asked for to learn whether more remain. */
  method List(rows: seq<Session>, cursor: Option<nat>, count: nat) returns (page: seq<Session>, hasNext: bool)
    ensures var all := Matching(rows, cursor);
            if |all| <= count then page == all && !hasNext else page == all[..count] && hasNext
  {
    var all := Matching(rows, cursor);
    var nodes := if |all| <= count + 1 then all else all[..count + 1];
    hasNext := |nodes| == count + 1;
    page := if hasNext then nodes[..|nodes| - 1] else nodes;
  }

  lemma {:induction false} MatchingIsSuffix(rows: seq<Session>, k: nat)
    requires Ordered(rows) && k <= |rows|
    ensures Matching(rows, if k == 0 then None else Some(rows[k - 1].id)) == rows[k..]
  {
    var cursor := if k == 0 then None else Some(rows[k - 1].id);
    MatchingFrom(rows, cursor, 0, k);
  }

  lemma {:induction false} MatchingFrom(rows: seq<Session>, cursor: Option<nat>, i: nat, k: nat)
    requires Ordered(rows) && i <= k <= |rows|
    requires cursor == if k == 0 then None else Some(rows[k - 1].id)
    ensures Matching(rows[i..], cursor) == rows[k..]
    decreases k - i, |rows| - i
  {
    if i < k {
      assert rows[i..][1..] == rows[i + 1..];
      MatchingFrom(rows, cursor, i + 1, k);
    } else {
      AllMatch(rows[k..], cursor);
    }
    assert rows[0..] == rows;
  }

  lemma {:induction false} AllMatch(rows: seq<Session>, cursor: Option<nat>)
    requires forall r :: r in rows ==> After(cursor, r)
    ensures Matching(rows, cursor) == rows
  {
    if rows != [] { AllMatch(rows[1..], cursor); }
  }

  lemma DeviceIdsPush(rows: seq<Session>, k: nat)
    requires k < |rows|
    ensures DeviceIds(rows[..k + 1]) == DeviceIds(rows[..k]) + DeviceIds([rows[k]])
  {
    assert rows[..k + 1] == rows[..k] + [rows[k]];
  }

  /** The inner loop: the tokens of one session. */
  method CollectScope(row: Session, devices: set<string>) returns (collected: set<string>)
    ensures collected == devices + DeviceIds([row])
  {
    collected := devices;
    for j := 0 to |row.scope|
      invariant collected == devices + DeviceIds([Session(row.id, row.scope[..j])])
    {
      assert row.scope[..j + 1] == row.scope[..j] + [row.scope[j]];
      ghost var sofar := Session(row.id, row.scope[..j]);
      ghost var next := Session(row.id, row.scope[..j + 1]);
      var id := Extract(row.scope[j]);
      assert DeviceIds([next]) == DeviceIds([sofar]) + (if id.Some? then {id.value} else {});
      if id.Some? {
        collected := collected + {id.value};
      }
    }
    assert row.scope[..|row.scope|] == row.scope;
  }

  /** The middle loop: the rows of one page, moving the cursor along. */
  method CollectPage(page: seq<Session>, cursor: Option<nat>, devices: set<string>)
    returns (next: Option<nat>, collected: set<string>)
    ensures collected == devices + DeviceIds(page)
    ensures next == if page == [] then cursor else Some(page[|page| - 1].id)
  {
    next, collected := cursor, devices;
    for i := 0 to |page|
      invariant next == if i == 0 then cursor else Some(page[i - 1].id)
      invariant collected == devices + DeviceIds(page[..i])
    {
      DeviceIdsPush(page, i);
      collected := CollectScope(page[i], collected);
      next := Some(page[i].id);
    }
    assert page[..|page|] == page;
  }

  /** The cursor loop ends and adds exactly the device ids of all sessions, for every page size. */
  method Collect(rows: seq<Session>, count: nat, devices: set<string>) returns (collected: set<string>)
    requires Ordered(rows) && count > 0
    ensures collected == devices + DeviceIds(rows)
  {
    collected := devices;
    var cursor: Option<nat> := None;
    ghost var k := 0;
    while true
      invariant k <= |rows| && cursor == if k == 0 then None else Some(rows[k - 1].id)
      invariant collected == devices + DeviceIds(rows[..k])
      decreases |rows| - k
    {
      MatchingIsSuffix(rows, k);
      var page, hasNext := List(rows, cursor, count);
      ghost var n := k + |page|;
      DeviceIdsUpTo(rows, k, n, page);
      cursor, collected := CollectPage(page, cursor, collected);
      k := n;
      if !hasNext { break; }
    }
    assert rows[..k] == rows;
  }

  lemma DeviceIdsUpTo(rows: seq<Session>, k: nat, n: nat, page: seq<Session>)
    requires k <= n <= |rows| && page == rows[k..n]
    ensures DeviceIds(rows[..n]) == DeviceIds(rows[..k]) + DeviceIds(page)
  {
    assert rows[..n] == rows[..k] + page;
    DeviceIdsConcat(rows[..k], page);
  }

  lemma DeviceIdsConcat(a: seq<Session>, b: seq<Session>)
    ensures DeviceIds(a + b) == DeviceIds(a) + DeviceIds(b)
  {
  }

  /** The whole job: both kinds of sessions, then one call that replaces the device set. */
  method SyncDevicesJob(hs: HomeserverAdmin, username: string, oauth2: seq<Session>, personal: seq<Session>)
    returns (ok: bool)
    requires Ordered(oauth2) && Ordered(personal)
    modifies hs
    ensures ok == (hs.Mxid(username) in old(hs.accounts))
    ensures ok ==> hs.accounts == old(hs.accounts)[hs.Mxid(username) :=
              old(hs.accounts)[hs.Mxid(username)].(devices := DeviceIds(oauth2) + DeviceIds(personal))]
    ensures !ok ==> hs.accounts == old(hs.accounts)
  {
    var devices := Collect(oauth2, 5000, {});
    devices := Collect(personal, 5000, devices);
    assert devices == DeviceIds(oauth2) + DeviceIds(personal);
    ok := hs.SyncDevices(username, devices);
  }
}

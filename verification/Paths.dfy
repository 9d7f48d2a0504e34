/**
 * Trees whose nodes may carry one item each. When the items of a node are its own followed by
 * those of its children in turn, the paths to items and the places in the list match up.
 */
module Paths {
  import opened Wrappers

  function At<N>(children: N -> seq<N>, n: N, path: seq<nat>): Option<N>
    decreases |path|
  {
    if path == [] then Some(n)
    else if path[0] < |children(n)| then At(children, children(n)[path[0]], path[1..])
    else None
  }

  function Flat<N, C>(items: N -> seq<C>, ns: seq<N>): seq<C> {
    if ns == [] then [] else Flat(items, ns[..|ns| - 1]) + items(ns[|ns| - 1])
  }

  predicate ToItem<N, C>(children: N -> seq<N>, own: N -> seq<C>, n: N, path: seq<nat>) {
    At(children, n, path).Some? && |own(At(children, n, path).value)| > 0
  }

  /** Where in the list of all items the one at the end of the path comes. */
  function Position<N, C>(children: N -> seq<N>, own: N -> seq<C>, items: N -> seq<C>, n: N, path: seq<nat>): nat
    requires ToItem(children, own, n, path)
    decreases |path|
  {
    if path == [] then 0
    else
      |own(n)| + |Flat(items, children(n)[..path[0]])|
      + Position(children, own, items, children(n)[path[0]], path[1..])
  }

  ghost predicate Unfolding<N(!new), C(!new)>(children: N -> seq<N>, own: N -> seq<C>, items: N -> seq<C>) {
    forall n :: items(n) == own(n) + Flat(items, children(n)) && |own(n)| <= 1
  }

  lemma FlatPush<N, C>(items: N -> seq<C>, ns: seq<N>, n: N)
    ensures Flat(items, ns + [n]) == Flat(items, ns) + items(n)
  {
    assert (ns + [n])[..|ns|] == ns;
  }

  lemma {:induction false} FlatAppend<N, C>(items: N -> seq<C>, a: seq<N>, b: seq<N>)
    ensures Flat(items, a + b) == Flat(items, a) + Flat(items, b)
  {
    if b == [] {
      assert a + b == a;
    } else {
      var front, n := b[..|b| - 1], b[|b| - 1];
      FlatAppend(items, a, front);
      assert a + b == (a + front) + [n];
      FlatPush(items, a + front, n);
    }
  }

  lemma FlatAt<N, C>(items: N -> seq<C>, ns: seq<N>, i: nat, k: nat)
    requires i < |ns| && k < |items(ns[i])|
    ensures var m := |Flat(items, ns[..i])| + k;
            m < |Flat(items, ns)| && Flat(items, ns)[m] == items(ns[i])[k]
  {
    assert ns == (ns[..i] + [ns[i]]) + ns[i + 1..];
    FlatAppend(items, ns[..i] + [ns[i]], ns[i + 1..]);
    FlatPush(items, ns[..i], ns[i]);
  }

  lemma {:induction false} FlatFind<N, C>(items: N -> seq<C>, ns: seq<N>, j: nat) returns (i: nat, k: nat)
    requires j < |Flat(items, ns)|
    ensures i < |ns| && k < |items(ns[i])| && j == |Flat(items, ns[..i])| + k
  {
    var last := |ns| - 1;
    if j < |Flat(items, ns[..last])| {
      i, k := FlatFind(items, ns[..last], j);
      assert ns[..last][..i] == ns[..i];
    } else {
      i, k := last, j - |Flat(items, ns[..last])|;
    }
  }

  lemma FlatOrder<N, C>(items: N -> seq<C>, ns: seq<N>, i: nat, j: nat)
    requires i < j <= |ns|
    ensures |Flat(items, ns[..i])| + |items(ns[i])| <= |Flat(items, ns[..j])|
  {
    assert ns[..i + 1] == ns[..i] + [ns[i]];
    FlatPush(items, ns[..i], ns[i]);
    assert ns[..j] == ns[..i + 1] + ns[i + 1..j];
    FlatAppend(items, ns[..i + 1], ns[i + 1..j]);
  }

  /** The item that a path leads to is listed at the path's position. */
  lemma {:induction false} PositionIsListed<N(!new), C(!new)>(
    children: N -> seq<N>, own: N -> seq<C>, items: N -> seq<C>, n: N, path: seq<nat>)
    requires Unfolding(children, own, items) && ToItem(children, own, n, path)
    ensures var m := Position(children, own, items, n, path);
            m < |items(n)| && items(n)[m] == own(At(children, n, path).value)[0]
    decreases |path|
  {
    if path != [] {
      var k := children(n)[path[0]];
      PositionIsListed(children, own, items, k, path[1..]);
      FlatAt(items, children(n), path[0], Position(children, own, items, k, path[1..]));
    }
  }

  /** Different paths have different positions. */
  lemma {:induction false} PositionsDiffer<N(!new), C(!new)>(
    children: N -> seq<N>, own: N -> seq<C>, items: N -> seq<C>, n: N, p: seq<nat>, q: seq<nat>)
    requires Unfolding(children, own, items)
    requires ToItem(children, own, n, p) && ToItem(children, own, n, q)
    requires Position(children, own, items, n, p) == Position(children, own, items, n, q)
    ensures p == q
    decreases |p|
  {
    if p != [] && q != [] {
      var ns := children(n);
      PositionIsListed(children, own, items, ns[p[0]], p[1..]);
      PositionIsListed(children, own, items, ns[q[0]], q[1..]);
      if p[0] < q[0] { FlatOrder(items, ns, p[0], q[0]); }
      if q[0] < p[0] { FlatOrder(items, ns, q[0], p[0]); }
      PositionsDiffer(children, own, items, ns[p[0]], p[1..], q[1..]);
      assert p == [p[0]] + p[1..] && q == [q[0]] + q[1..];
    }
  }

  /** The path leads to the item that is listed at position `j`. */
  ghost predicate Finds<N, C>(
    children: N -> seq<N>, own: N -> seq<C>, items: N -> seq<C>, n: N, path: seq<nat>, j: nat)
  {
    ToItem(children, own, n, path) && Position(children, own, items, n, path) == j
  }

  lemma Extend<N, C>(
    children: N -> seq<N>, own: N -> seq<C>, items: N -> seq<C>, n: N, i: nat, rest: seq<nat>, k: nat)
    requires i < |children(n)| && Finds(children, own, items, children(n)[i], rest, k)
    ensures Finds(children, own, items, n, [i] + rest, |own(n)| + |Flat(items, children(n)[..i])| + k)
  {
    var path := [i] + rest;
    assert path[1..] == rest;
  }
}

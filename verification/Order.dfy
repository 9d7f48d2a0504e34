/** Orders, stable sorting, and sets kept as strictly increasing sequences. */
module Order {

  ghost predicate StrictTotal<T(!new)>(less: (T, T) -> bool) {
    && (forall a :: !less(a, a))
    && (forall a, b, c :: less(a, b) && less(b, c) ==> less(a, c))
    && (forall a, b :: less(a, b) || a == b || less(b, a))
  }

  /** The order of strings: code point by code point, a prefix first. */
  predicate Less(a: string, b: string) {
    b != "" && (a == "" || a[0] < b[0] || (a[0] == b[0] && Less(a[1..], b[1..])))
  }

  lemma {:induction false} LessTrichotomy(a: string, b: string)
    ensures !(Less(a, b) && Less(b, a))
    ensures Less(a, b) || a == b || Less(b, a)
    ensures a == b ==> !Less(a, b)
  {
    if a != "" && b != "" && a[0] == b[0] {
      LessTrichotomy(a[1..], b[1..]);
      assert a == [a[0]] + a[1..] && b == [b[0]] + b[1..];
    }
  }

  lemma {:induction false} LessTransitive(a: string, b: string, c: string)
    requires Less(a, b) && Less(b, c)
    ensures Less(a, c)
  {
    if a != "" && a[0] == b[0] == c[0] { LessTransitive(a[1..], b[1..], c[1..]); }
  }

  lemma LessIsTotal()
    ensures StrictTotal(Less)
  {
    forall a, b ensures Less(a, b) || a == b || Less(b, a)
                ensures !Less(a, a)
    {
      LessTrichotomy(a, b);
      LessTrichotomy(a, a);
    }
    forall a, b, c | Less(a, b) && Less(b, c) ensures Less(a, c) {
      LessTransitive(a, b, c);
    }
  }

  predicate Increasing<T(!new)>(s: seq<T>, less: (T, T) -> bool) {
    forall i, j :: 0 <= i < j < |s| ==> less(s[i], s[j])
  }

  /** A set has only one strictly increasing listing. */
  lemma {:induction false} IncreasingUnique<T(!new)>(a: seq<T>, b: seq<T>, less: (T, T) -> bool)
    requires StrictTotal(less) && Increasing(a, less) && Increasing(b, less)
    requires forall x :: x in a <==> x in b
    ensures a == b
  {
    assert b == [] || b[0] in b;
    if a != [] {
      assert a[0] in b && b[0] in a;
      assert a[0] == b[0];
      forall x ensures x in a[1..] <==> x in b[1..] {
        assert x in a <==> x == a[0] || x in a[1..];
        assert x in b <==> x == b[0] || x in b[1..];
      }
      IncreasingUnique(a[1..], b[1..], less);
      assert a == [a[0]] + a[1..] && b == [b[0]] + b[1..];
    }
  }

  /** Insertion into an ordered set. */
  function Insert<T(==)>(s: seq<T>, x: T, less: (T, T) -> bool): seq<T> {
    if s == [] then [x]
    else if x == s[0] then s
    else if less(x, s[0]) then [x] + s
    else [s[0]] + Insert(s[1..], x, less)
  }

  lemma {:induction false} InsertMembers<T(!new)>(s: seq<T>, x: T, less: (T, T) -> bool)
    ensures forall y :: y in Insert(s, x, less) <==> y == x || y in s
  {
    if s != [] {
      InsertMembers(s[1..], x, less);
      assert s == [s[0]] + s[1..];
    }
  }

  lemma {:induction false} InsertKeeps<T(!new)>(s: seq<T>, x: T, less: (T, T) -> bool)
    requires StrictTotal(less) && Increasing(s, less)
    ensures Increasing(Insert(s, x, less), less)
    ensures forall y :: y in Insert(s, x, less) <==> y == x || y in s
  {
    InsertMembers(s, x, less);
    if s == [] || x == s[0] {
    } else if less(x, s[0]) {
      forall i | 0 <= i < |s| ensures less(x, s[i]) {
        assert i == 0 || less(s[0], s[i]);
      }
    } else {
      var rest := Insert(s[1..], x, less);
      InsertKeeps(s[1..], x, less);
      assert less(s[0], x);
      forall i | 0 <= i < |rest| ensures less(s[0], rest[i]) {
        assert rest[i] in rest;
      }
    }
  }

  /** What collecting into an ordered set yields. */
  function Collect<T(==)>(xs: seq<T>, less: (T, T) -> bool): seq<T> {
    if xs == [] then [] else Insert(Collect(xs[..|xs| - 1], less), xs[|xs| - 1], less)
  }

  lemma {:induction false} CollectIsSet<T(!new)>(xs: seq<T>, less: (T, T) -> bool)
    requires StrictTotal(less)
    ensures Increasing(Collect(xs, less), less)
    ensures forall x :: x in Collect(xs, less) <==> x in xs
  {
    if xs != [] {
      var last := |xs| - 1;
      CollectIsSet(xs[..last], less);
      InsertKeeps(Collect(xs[..last], less), xs[last], less);
      assert xs == xs[..last] + [xs[last]];
    }
  }

  // Stable sorting by a number

  predicate Ascending<T(!new)>(s: seq<T>, key: T -> int) {
    forall i, j :: 0 <= i < j < |s| ==> key(s[i]) <= key(s[j])
  }

  function Place<T>(s: seq<T>, x: T, key: T -> int): seq<T> {
    if s == [] then [x]
    else if key(x) < key(s[0]) then [x] + s
    else [s[0]] + Place(s[1..], x, key)
  }

  function SortBy<T>(xs: seq<T>, key: T -> int): seq<T> {
    if xs == [] then [] else Place(SortBy(xs[..|xs| - 1], key), xs[|xs| - 1], key)
  }

  function WithKey<T>(xs: seq<T>, key: T -> int, k: int): seq<T> {
    if xs == [] then []
    else WithKey(xs[..|xs| - 1], key, k) + (if key(xs[|xs| - 1]) == k then [xs[|xs| - 1]] else [])
  }

  lemma {:induction false} WithKeyAppend<T>(a: seq<T>, b: seq<T>, key: T -> int, k: int)
    ensures WithKey(a + b, key, k) == WithKey(a, key, k) + WithKey(b, key, k)
  {
    if b == [] {
      assert a + b == a;
    } else {
      assert (a + b)[..|a + b| - 1] == a + b[..|b| - 1];
      WithKeyAppend(a, b[..|b| - 1], key, k);
    }
  }

  lemma WithKeyOne<T>(x: T, key: T -> int, k: int)
    ensures WithKey([x], key, k) == if key(x) == k then [x] else []
  {
    assert [x][..0] == [];
  }

  lemma {:induction false} WithKeyNone<T(!new)>(s: seq<T>, key: T -> int, k: int)
    requires forall x :: x in s ==> key(x) != k
    ensures WithKey(s, key, k) == []
  {
    if s != [] { WithKeyNone(s[..|s| - 1], key, k); }
  }

  lemma {:induction false} PlaceMembers<T>(s: seq<T>, x: T, key: T -> int)
    ensures multiset(Place(s, x, key)) == multiset(s) + multiset{x}
    ensures |Place(s, x, key)| == |s| + 1
    ensures forall i :: 0 <= i <= |s| ==> Place(s, x, key)[i] == x || Place(s, x, key)[i] in s
  {
    if s != [] && key(s[0]) <= key(x) {
      PlaceMembers(s[1..], x, key);
      assert s == [s[0]] + s[1..];
    }
  }

  lemma {:induction false} PlaceAscending<T(!new)>(s: seq<T>, x: T, key: T -> int)
    requires Ascending(s, key)
    ensures Ascending(Place(s, x, key), key)
  {
    if s != [] && key(s[0]) <= key(x) {
      PlaceAscending(s[1..], x, key);
      PlaceMembers(s[1..], x, key);
      var rest := Place(s[1..], x, key);
      forall i | 0 <= i < |rest| ensures key(s[0]) <= key(rest[i]) {
      }
      assert Place(s, x, key) == [s[0]] + rest;
    } else if s != [] {
      assert Place(s, x, key) == [x] + s;
    }
  }

  lemma PlaceFrontStable<T(!new)>(s: seq<T>, x: T, key: T -> int, k: int)
    requires Ascending(s, key) && s != [] && key(x) < key(s[0])
    ensures WithKey([x] + s, key, k) == WithKey(s, key, k) + WithKey([x], key, k)
  {
    WithKeyAppend([x], s, key, k);
    WithKeyOne(x, key, k);
    if key(x) == k {
      forall y | y in s ensures key(y) != k {
        var i :| 0 <= i < |s| && s[i] == y;
        assert i == 0 || key(s[0]) <= key(s[i]);
      }
      WithKeyNone(s, key, k);
    }
  }

  lemma {:induction false} PlaceStable<T(!new)>(s: seq<T>, x: T, key: T -> int, k: int)
    requires Ascending(s, key)
    ensures WithKey(Place(s, x, key), key, k) == WithKey(s, key, k) + WithKey([x], key, k)
  {
    if s == [] {
    } else if key(x) < key(s[0]) {
      PlaceFrontStable(s, x, key, k);
    } else {
      var head, rest := WithKey([s[0]], key, k), WithKey(s[1..], key, k);
      PlaceStable(s[1..], x, key, k);
      WithKeyAppend([s[0]], Place(s[1..], x, key), key, k);
      assert s == [s[0]] + s[1..];
      WithKeyAppend([s[0]], s[1..], key, k);
      assert head + (rest + WithKey([x], key, k)) == (head + rest) + WithKey([x], key, k);
    }
  }

  /** Sorted, a permutation, and equal keys in their old order. */
  lemma {:induction false} SortByIsStable<T(!new)>(xs: seq<T>, key: T -> int, k: int)
    ensures Ascending(SortBy(xs, key), key)
    ensures multiset(SortBy(xs, key)) == multiset(xs)
    ensures WithKey(SortBy(xs, key), key, k) == WithKey(xs, key, k)
  {
    if xs != [] {
      var last := |xs| - 1;
      SortByIsStable(xs[..last], key, k);
      var sorted := SortBy(xs[..last], key);
      PlaceMembers(sorted, xs[last], key);
      PlaceAscending(sorted, xs[last], key);
      PlaceStable(sorted, xs[last], key, k);
      assert xs == xs[..last] + [xs[last]];
      WithKeyAppend(xs[..last], [xs[last]], key, k);
    }
  }
}

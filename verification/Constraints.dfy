/** Selecting keys by constraints: a scored filter with a stable sort. */
module Constraints {
  import opened Wrappers
  import opened Keys
  import opened Order

  datatype Constraint =
    | ByAlg(alg: Alg)
    | ByAlgs(algs: seq<Alg>)
    | ByKid(kid: string)
    | ByUse(use: KeyUse)
    | ByType(kty: KeyType)

  datatype Decision = Positive | Neutral | Negative

  function Decide(c: Constraint, k: Jwk): Decision {
    match c
    case ByAlg(alg) =>
      (match k.alg
       case Some(a) => if a == alg then Positive else Negative
       case None => if alg in PossibleAlgs(k.params) then Neutral else Negative)
    case ByAlgs(algs) =>
      (match k.alg
       case Some(a) => if a in algs then Positive else Negative
       case None =>
         if exists a :: a in PossibleAlgs(k.params) && a in algs then Neutral else Negative)
    case ByKid(kid) =>
      (match k.kid
       case Some(own) => if own == kid then Positive else Negative
       case None => Neutral)
    case ByUse(use) =>
      (match k.use
       case Some(own) => if own == use then Positive else Negative
       case None => Neutral)
    case ByType(kty) => if kty == TypeOf(k.params) then Positive else Negative
  }

  /** What a key must have for the constraint to count in its favour. */
  ghost predicate Matches(c: Constraint, k: Jwk) {
    || (c.ByAlg? && k.alg == Some(c.alg))
    || (c.ByAlgs? && exists a :: a in c.algs && k.alg == Some(a))
    || (c.ByKid? && k.kid == Some(c.kid))
    || (c.ByUse? && k.use == Some(c.use))
    || (c.ByType? && OfType(k.params, c.kty))
  }

  predicate OfType(k: PrivateKey, kty: KeyType) {
    || (kty.Rsa? && k.RsaKey?)
    || (kty.Ec? && (k.EcP256? || k.EcP384? || k.EcP521? || k.EcK256?))
    || (kty.Okp? && k.OkpEd25519?)
  }

  /** What a key may have for the constraint not to rule it out: a match, or nothing that says otherwise. */
  ghost predicate Allows(c: Constraint, k: Jwk) {
    || Matches(c, k)
    || (c.ByAlg? && k.alg.None? && c.alg in PossibleAlgs(k.params))
    || (c.ByAlgs? && k.alg.None? && exists a :: a in c.algs && a in PossibleAlgs(k.params))
    || (c.ByKid? && k.kid.None?)
    || (c.ByUse? && k.use.None?)
  }

  /** Each kind of constraint counts exactly for the keys that match it, and rejects exactly those it does not allow. */
  lemma DecidesExactly(c: Constraint, k: Jwk)
    ensures Decide(c, k).Positive? <==> Matches(c, k)
    ensures Decide(c, k).Negative? <==> !Allows(c, k)
  {
  }

  ghost function Matched(cs: set<Constraint>, k: Jwk): set<Constraint> {
    set c | c in cs && Matches(c, k)
  }

  /** A key scores one for every constraint that it matches. */
  lemma ScoreCountsMatches(cs: set<Constraint>, k: Jwk)
    ensures Score(cs, k) == |Matched(cs, k)|
    ensures Rejected(cs, k) <==> exists c :: c in cs && !Allows(c, k)
  {
    forall c { DecidesExactly(c, k); }
    assert (set c | c in cs && Decide(c, k).Positive?) == Matched(cs, k);
  }

  predicate Rejected(cs: set<Constraint>, k: Jwk) {
    exists c :: c in cs && Decide(c, k).Negative?
  }

  function Score(cs: set<Constraint>, k: Jwk): nat {
    |set c | c in cs && Decide(c, k).Positive?|
  }

  /** The keys that no constraint rejects, in their own order. */
  function Eligible(cs: set<Constraint>, keys: seq<Jwk>): seq<Jwk> {
    if keys == [] then [] else
    Eligible(cs, keys[..|keys| - 1]) + (if Rejected(cs, keys[|keys| - 1]) then [] else [keys[|keys| - 1]])
  }

  function ByScore(cs: set<Constraint>): Jwk -> int {
    (k: Jwk) => Score(cs, k)
  }

  /** What the filter returns; the set has no order, so neither has this. */
  function Chosen(cs: set<Constraint>, keys: seq<Jwk>): seq<Jwk> {
    SortBy(Eligible(cs, keys), ByScore(cs))
  }

  predicate Distinct(order: seq<Constraint>) {
    forall i, j :: 0 <= i < j < |order| ==> order[i] != order[j]
  }

  ghost function PositiveIn(order: seq<Constraint>, k: Jwk): set<Constraint> {
    set c | c in order && Decide(c, k).Positive?
  }

  lemma PositiveStep(order: seq<Constraint>, i: nat, k: Jwk)
    requires Distinct(order) && i < |order|
    ensures |PositiveIn(order[..i + 1], k)| == |PositiveIn(order[..i], k)| + if Decide(order[i], k).Positive? then 1 else 0
  {
    assert order[..i + 1] == order[..i] + [order[i]];
    assert order[i] !in PositiveIn(order[..i], k);
    assert PositiveIn(order[..i + 1], k)
        == PositiveIn(order[..i], k) + if Decide(order[i], k).Positive? then {order[i]} else {};
  }

  /** One key against the constraints, in whatever order the set yields them. */
  method ScoreKey(order: seq<Constraint>, k: Jwk) returns (score: Option<nat>)
    requires Distinct(order)
    ensures var cs := set c | c in order;
            score == if Rejected(cs, k) then None else Some(Score(cs, k))
  {
    var n := 0;
    ghost var cs := set c | c in order;
    for i := 0 to |order|
      invariant n == |PositiveIn(order[..i], k)|
      invariant forall j :: 0 <= j < i ==> !Decide(order[j], k).Negative?
    {
      assert order[i] in cs;
      PositiveStep(order, i, k);
      match Decide(order[i], k) {
        case Positive => n := n + 1;
        case Neutral =>
        case Negative => return None;
      }
    }
    assert order[..|order|] == order;
    assert PositiveIn(order, k) == set c | c in cs && Decide(c, k).Positive?;
    score := Some(n);
  }

  // The filter sorts keys paired with their scores

  datatype Scored = Scored(score: int, key: Jwk)

  function Noted(): Scored -> int {
    (s: Scored) => s.score
  }

  predicate AllScored(cs: set<Constraint>, xs: seq<Scored>) {
    forall i :: 0 <= i < |xs| ==> xs[i].score == Score(cs, xs[i].key)
  }

  function KeysOf(xs: seq<Scored>): (r: seq<Jwk>)
    ensures |r| == |xs| && forall i :: 0 <= i < |xs| ==> r[i] == xs[i].key
  {
    seq(|xs|, i requires 0 <= i < |xs| => xs[i].key)
  }

  lemma {:induction false} PlacePaired(cs: set<Constraint>, xs: seq<Scored>, x: Scored)
    requires AllScored(cs, xs) && x.score == Score(cs, x.key)
    ensures AllScored(cs, Place(xs, x, Noted()))
    ensures KeysOf(Place(xs, x, Noted())) == Place(KeysOf(xs), x.key, ByScore(cs))
  {
    if xs != [] && xs[0].score <= x.score {
      PlacePaired(cs, xs[1..], x);
      assert KeysOf(xs)[1..] == KeysOf(xs[1..]);
      assert KeysOf([xs[0]] + Place(xs[1..], x, Noted())) == [xs[0].key] + KeysOf(Place(xs[1..], x, Noted()));
    } else if xs != [] {
      assert KeysOf([x] + xs) == [x.key] + KeysOf(xs);
    }
  }

  lemma {:induction false} SortPaired(cs: set<Constraint>, xs: seq<Scored>)
    requires AllScored(cs, xs)
    ensures AllScored(cs, SortBy(xs, Noted()))
    ensures KeysOf(SortBy(xs, Noted())) == SortBy(KeysOf(xs), ByScore(cs))
  {
    if xs != [] {
      var last := |xs| - 1;
      SortPaired(cs, xs[..last]);
      assert KeysOf(xs)[..last] == KeysOf(xs[..last]);
      PlacePaired(cs, SortBy(xs[..last], Noted()), xs[last]);
    }
  }

  method Filter(order: seq<Constraint>, keys: seq<Jwk>) returns (selected: seq<Jwk>)
    requires Distinct(order)
    ensures selected == Chosen((set c | c in order), keys)
  {
    ghost var cs := set c | c in order;
    var scored: seq<Scored> := [];
    for i := 0 to |keys|
      invariant AllScored(cs, scored) && KeysOf(scored) == Eligible(cs, keys[..i])
    {
      assert keys[..i + 1][..i] == keys[..i];
      var score := ScoreKey(order, keys[i]);
      if score.Some? {
        scored := scored + [Scored(score.value, keys[i])];
      }
    }
    assert keys[..|keys|] == keys;
    SortPaired(cs, scored);
    scored := SortBy(scored, Noted());
    selected := KeysOf(scored);
  }

  // What is selected

  lemma {:induction false} EligibleMembers(cs: set<Constraint>, keys: seq<Jwk>)
    ensures forall k :: k in Eligible(cs, keys) <==> k in keys && !Rejected(cs, k)
  {
    if keys != [] {
      var last := |keys| - 1;
      EligibleMembers(cs, keys[..last]);
      assert keys == keys[..last] + [keys[last]];
    }
  }

  /** The filter returns the eligible keys, each as often as it was given, lowest score first. */
  lemma ChosenIsSorted(cs: set<Constraint>, keys: seq<Jwk>)
    ensures multiset(Chosen(cs, keys)) == multiset(Eligible(cs, keys))
    ensures forall i, j :: 0 <= i < j < |Chosen(cs, keys)| ==>
              Score(cs, Chosen(cs, keys)[i]) <= Score(cs, Chosen(cs, keys)[j])
    ensures forall k :: k in Chosen(cs, keys) <==> k in keys && !Rejected(cs, k)
  {
    SortByIsStable(Eligible(cs, keys), ByScore(cs), 0);
    EligibleMembers(cs, keys);
    forall k ensures k in Chosen(cs, keys) <==> k in multiset(Eligible(cs, keys)) {
      assert k in Chosen(cs, keys) <==> k in multiset(Chosen(cs, keys));
    }
  }

  /** Keys of equal score stay in the order they were given in. */
  lemma ChosenIsStable(cs: set<Constraint>, keys: seq<Jwk>, score: int)
    ensures WithKey(Chosen(cs, keys), ByScore(cs), score) == WithKey(Eligible(cs, keys), ByScore(cs), score)
  {
    SortByIsStable(Eligible(cs, keys), ByScore(cs), score);
  }

  lemma {:induction false} EligibleShrinks(cs: set<Constraint>, more: set<Constraint>, keys: seq<Jwk>)
    requires cs <= more
    ensures multiset(Eligible(more, keys)) <= multiset(Eligible(cs, keys))
  {
    if keys != [] { EligibleShrinks(cs, more, keys[..|keys| - 1]); }
  }

  /** Another constraint never adds a key. */
  lemma ConstraintsOnlyRemove(cs: set<Constraint>, more: set<Constraint>, keys: seq<Jwk>)
    requires cs <= more
    ensures multiset(Chosen(more, keys)) <= multiset(Chosen(cs, keys))
  {
    EligibleShrinks(cs, more, keys);
    ChosenIsSorted(cs, keys);
    ChosenIsSorted(more, keys);
  }

  function ForHeader(alg: Alg, kid: Option<string>): set<Constraint> {
    {ByAlg(alg)} + (if kid.Some? then {ByKid(kid.value)} else {})
  }

  /**
   * A key selected for a header can sign for the header's algorithm exactly when the
   * algorithm it declares, if any, is one of its own; metadata validation ensures that.
   */
  lemma HeaderKeysAreUsable(alg: Alg, kid: Option<string>, keys: seq<Jwk>, k: Jwk)
    requires k in Chosen(ForHeader(alg, kid), keys)
    ensures TryBuildSigner(k.params, alg).Some? <==> (k.alg.Some? ==> k.alg.value in PossibleAlgs(k.params))
    ensures ValidKey(k) ==> TryBuildSigner(k.params, alg).Some?
    ensures kid.Some? && k.kid.Some? ==> k.kid == kid
  {
    var cs := ForHeader(alg, kid);
    ChosenIsSorted(cs, keys);
    assert ByAlg(alg) in cs && !Decide(ByAlg(alg), k).Negative?;
    if kid.Some? { assert ByKid(kid.value) in cs && !Decide(ByKid(kid.value), k).Negative?; }
    TablesAgree(k.params, alg, (n: nat) => n);
  }

  // The best key

  ghost function ValidOnly(keys: seq<Jwk>): seq<Jwk> {
    if keys == [] then [] else
    ValidOnly(keys[..|keys| - 1]) + (if ValidKey(keys[|keys| - 1]) then [keys[|keys| - 1]] else [])
  }

  lemma {:induction false} ValidOnlyMembers(keys: seq<Jwk>)
    ensures forall k :: k in ValidOnly(keys) <==> k in keys && ValidKey(k)
  {
    if keys != [] {
      var last := |keys| - 1;
      ValidOnlyMembers(keys[..last]);
      assert keys == keys[..last] + [keys[last]];
    }
  }

  /** The last of the chosen. */
  ghost function BestKey(cs: set<Constraint>, keys: seq<Jwk>): Option<Jwk> {
    var found := Chosen(cs, ValidOnly(keys));
    if found == [] then None else Some(found[|found| - 1])
  }

  method FindKeys(order: seq<Constraint>, keys: seq<Jwk>) returns (found: seq<Jwk>)
    requires Distinct(order)
    ensures found == Chosen((set c | c in order), ValidOnly(keys))
  {
    var valid: seq<Jwk> := [];
    for i := 0 to |keys|
      invariant valid == ValidOnly(keys[..i])
    {
      assert keys[..i + 1][..i] == keys[..i];
      var ok := Validate(keys[i]);
      if ok { valid := valid + [keys[i]]; }
    }
    assert keys[..|keys|] == keys;
    found := Filter(order, valid);
  }

  method FindKey(order: seq<Constraint>, keys: seq<Jwk>) returns (best: Option<Jwk>)
    requires Distinct(order)
    ensures best == BestKey((set c | c in order), keys)
  {
    var found := FindKeys(order, keys);
    best := if found == [] then None else Some(found[|found| - 1]);
  }

  /** Nothing found means nothing fits; what is found fits and nothing that fits scores higher. */
  lemma BestKeyIsBest(cs: set<Constraint>, keys: seq<Jwk>)
    ensures BestKey(cs, keys).None? <==> forall k :: k in keys && ValidKey(k) ==> Rejected(cs, k)
    ensures BestKey(cs, keys).Some? ==>
              var best := BestKey(cs, keys).value;
              && best in keys && ValidKey(best) && !Rejected(cs, best)
              && forall k :: k in keys && ValidKey(k) && !Rejected(cs, k) ==> Score(cs, k) <= Score(cs, best)
  {
    ValidOnlyMembers(keys);
    var found := Chosen(cs, ValidOnly(keys));
    ChosenIsSorted(cs, ValidOnly(keys));
    if found != [] {
      var last := |found| - 1;
      assert found[last] in found;
      forall k | k in keys && ValidKey(k) && !Rejected(cs, k) ensures Score(cs, k) <= Score(cs, found[last]) {
        var i :| 0 <= i < |found| && found[i] == k;
        assert i == last || Score(cs, found[i]) <= Score(cs, found[last]);
      }
    } else {
      forall k | k in keys && ValidKey(k) ensures Rejected(cs, k) {
        assert k in found <==> !Rejected(cs, k);
      }
    }
  }

  /** Among the keys that fit and score as high as any, the one given last is found. */
  lemma BestKeyIsLast(cs: set<Constraint>, keys: seq<Jwk>)
    requires BestKey(cs, keys).Some?
    ensures var best := BestKey(cs, keys).value;
            var equals := WithKey(Eligible(cs, ValidOnly(keys)), ByScore(cs), Score(cs, best));
            equals != [] && equals[|equals| - 1] == best
  {
    var best := BestKey(cs, keys).value;
    ChosenIsStable(cs, ValidOnly(keys), Score(cs, best));
    var found := Chosen(cs, ValidOnly(keys));
    assert ByScore(cs)(found[|found| - 1]) == Score(cs, best);
  }

  // Signing

  function ToSign(alg: Alg): set<Constraint> {
    {ByAlg(alg), ByUse(Sig)}
  }

  ghost function SigningKey(alg: Alg, keys: seq<Jwk>): Option<Jwk> {
    BestKey(ToSign(alg), keys)
  }

  function One(b: bool): nat {
    if b then 1 else 0
  }

  /** The points of a pair of constraints. */
  lemma PairScore(a: Constraint, b: Constraint, k: Jwk)
    requires a != b
    ensures Score({a, b}, k) == One(Matches(a, k)) + One(Matches(b, k))
  {
    hide Score, Matches;
    ScoreCountsMatches({a, b}, k);
    var matched := Matched({a, b}, k);
    if Matches(a, k) && Matches(b, k) {
      assert matched == {a} + {b};
    } else if Matches(a, k) {
      assert matched == {a};
    } else if Matches(b, k) {
      assert matched == {b};
    } else {
      assert matched == {};
    }
  }

  /** How much of the algorithm and the use a key declares. */
  function SigningPoints(alg: Alg, k: Jwk): nat {
    One(k.alg == Some(alg)) + One(k.use == Some(Sig))
  }

  /** How much of the algorithm and the identifier a key declares. */
  function HeaderPoints(alg: Alg, kid: Option<string>, k: Jwk): nat {
    One(k.alg == Some(alg)) + One(kid.Some? && k.kid == kid)
  }

  /** To sign, a key scores one for declaring the algorithm and one for declaring the use. */
  lemma SigningScore(alg: Alg, k: Jwk)
    ensures Score(ToSign(alg), k) == SigningPoints(alg, k)
  {
    PairScore(ByAlg(alg), ByUse(Sig), k);
    assert ToSign(alg) == {ByAlg(alg), ByUse(Sig)};
  }

  /** For a header, a key scores one for declaring the algorithm and one for the identifier. */
  lemma HeaderScore(alg: Alg, kid: Option<string>, k: Jwk)
    ensures Score(ForHeader(alg, kid), k) == HeaderPoints(alg, kid, k)
  {
    if kid.Some? {
      PairScore(ByAlg(alg), ByKid(kid.value), k);
      assert ForHeader(alg, kid) == {ByAlg(alg), ByKid(kid.value)};
    } else {
      ScoreCountsMatches(ForHeader(alg, kid), k);
      assert Matched(ForHeader(alg, kid), k) == if Matches(ByAlg(alg), k) then {ByAlg(alg)} else {};
    }
  }

  /** The key could sign: its algorithm is the one asked for or open to it, and it is not for another use. */
  ghost predicate MaySign(alg: Alg, k: Jwk) {
    && (k.alg == Some(alg) || (k.alg.None? && alg in PossibleAlgs(k.params)))
    && (k.use == Some(Sig) || k.use.None?)
  }

  ghost predicate MayVerify(alg: Alg, kid: Option<string>, k: Jwk) {
    && (k.alg == Some(alg) || (k.alg.None? && alg in PossibleAlgs(k.params)))
    && (kid.None? || k.kid == kid || k.kid.None?)
  }

  lemma RejectedExactly(alg: Alg, kid: Option<string>, k: Jwk)
    ensures Rejected(ToSign(alg), k) <==> !MaySign(alg, k)
    ensures Rejected(ForHeader(alg, kid), k) <==> !MayVerify(alg, kid, k)
  {
    ScoreCountsMatches(ToSign(alg), k);
    ScoreCountsMatches(ForHeader(alg, kid), k);
    assert ByAlg(alg) in ToSign(alg) && ByUse(Sig) in ToSign(alg) && ByAlg(alg) in ForHeader(alg, kid);
    if kid.Some? { assert ByKid(kid.value) in ForHeader(alg, kid); }
  }

  /**
   * A signing key is found exactly if a valid key may sign. It may itself, and of all that may,
   * none declares more of the algorithm and the use.
   */
  lemma SigningKeyDeclaresMost(alg: Alg, keys: seq<Jwk>)
    ensures SigningKey(alg, keys).Some? <==> exists k :: k in keys && ValidKey(k) && MaySign(alg, k)
    ensures SigningKey(alg, keys).Some? ==>
              var best := SigningKey(alg, keys).value;
              && best in keys && ValidKey(best) && MaySign(alg, best)
              && forall k :: k in keys && ValidKey(k) && MaySign(alg, k) ==> SigningPoints(alg, k) <= SigningPoints(alg, best)
  {
    hide *;
    BestKeyIsBest(ToSign(alg), keys);
    forall k: Jwk
      ensures Score(ToSign(alg), k) == SigningPoints(alg, k)
      ensures Rejected(ToSign(alg), k) <==> !MaySign(alg, k)
    {
      SigningScore(alg, k);
      RejectedExactly(alg, None, k);
    }
    assert SigningKey(alg, keys) == BestKey(ToSign(alg), keys) by { SigningIsBest(alg, keys); }
  }

  lemma SigningIsBest(alg: Alg, keys: seq<Jwk>)
    ensures SigningKey(alg, keys) == BestKey(ToSign(alg), keys)
  {
  }

  /** The key found for a header: likewise, by the algorithm and the identifier. */
  lemma HeaderKeyDeclaresMost(alg: Alg, kid: Option<string>, keys: seq<Jwk>)
    ensures BestKey(ForHeader(alg, kid), keys).Some? <==> exists k :: k in keys && ValidKey(k) && MayVerify(alg, kid, k)
    ensures BestKey(ForHeader(alg, kid), keys).Some? ==>
              var best := BestKey(ForHeader(alg, kid), keys).value;
              && best in keys && ValidKey(best) && MayVerify(alg, kid, best)
              && forall k :: k in keys && ValidKey(k) && MayVerify(alg, kid, k) ==> HeaderPoints(alg, kid, k) <= HeaderPoints(alg, kid, best)
  {
    hide *;
    BestKeyIsBest(ForHeader(alg, kid), keys);
    forall k: Jwk
      ensures Score(ForHeader(alg, kid), k) == HeaderPoints(alg, kid, k)
      ensures Rejected(ForHeader(alg, kid), k) <==> !MayVerify(alg, kid, k)
    {
      HeaderScore(alg, kid, k);
      RejectedExactly(alg, kid, k);
    }
  }

  /** A key that declares the algorithm and the use is preferred to any that declares less, wherever they stand. */
  lemma DeclaredIsPreferred(alg: Alg, keys: seq<Jwk>, a: Jwk)
    requires a in keys && ValidKey(a) && a.alg == Some(alg) && a.use == Some(Sig)
    ensures SigningKey(alg, keys).Some?
    ensures SigningKey(alg, keys).value.alg == Some(alg) && SigningKey(alg, keys).value.use == Some(Sig)
  {
    hide SigningKey, BestKey, ValidKey;
    SigningKeyDeclaresMost(alg, keys);
  }

  lemma NamedIsPreferred(alg: Alg, kid: string, keys: seq<Jwk>, a: Jwk)
    requires a in keys && ValidKey(a) && a.alg == Some(alg) && a.kid == Some(kid)
    ensures var best := BestKey(ForHeader(alg, Some(kid)), keys);
            best.Some? && best.value.alg == Some(alg) && best.value.kid == Some(kid)
  {
    hide BestKey, ValidKey;
    HeaderKeyDeclaresMost(alg, Some(kid), keys);
  }

  function Offers(k: Jwk): seq<Alg> {
    if k.alg.Some? then [k.alg.value] else PossibleAlgs(k.params)
  }

  function AllOffers(keys: seq<Jwk>): seq<Alg> {
    if keys == [] then [] else AllOffers(keys[..|keys| - 1]) + Offers(keys[|keys| - 1])
  }

  lemma {:induction false} AllOffersMembers(keys: seq<Jwk>, alg: Alg)
    ensures alg in AllOffers(keys) <==> exists k :: k in keys && alg in Offers(k)
  {
    if keys != [] {
      var last := |keys| - 1;
      AllOffersMembers(keys[..last], alg);
      assert keys == keys[..last] + [keys[last]];
      assert keys[last] in keys;
    }
  }

  /** The advertised algorithms, sorted and without repeats under the registry's order. */
  method AvailableSigningAlgorithms(keys: seq<Jwk>, less: (Alg, Alg) -> bool) returns (algs: seq<Alg>)
    requires StrictTotal(less)
    ensures Increasing(algs, less)
    ensures forall alg :: alg in algs <==> SigningKey(alg, keys).Some?
  {
    var found := FindKeys([ByUse(Sig)], keys);
    ghost var cs := set c | c in [ByUse(Sig)];
    assert cs == {ByUse(Sig)};
    var offers: seq<Alg> := [];
    for i := 0 to |found|
      invariant offers == AllOffers(found[..i])
    {
      assert found[..i + 1][..i] == found[..i];
      offers := offers + Offers(found[i]);
    }
    assert found[..|found|] == found;
    algs := Collect(offers, less);
    CollectIsSet(offers, less);
    forall alg ensures alg in algs <==> SigningKey(alg, keys).Some? {
      AllOffersMembers(found, alg);
      OfferedIsSigned(keys, alg);
    }
  }

  lemma NotRejectedToSign(alg: Alg, k: Jwk)
    requires ValidKey(k)
    ensures !Rejected(ToSign(alg), k) <==> !Rejected({ByUse(Sig)}, k) && alg in Offers(k)
    ensures !Rejected(ToSign(alg), k) ==> TryBuildSigner(k.params, alg) == Some(Signer(alg, k.params.secret))
  {
    assert Rejected({ByUse(Sig)}, k) <==> Decide(ByUse(Sig), k).Negative? by {
      assert ByUse(Sig) in {ByUse(Sig)};
    }
    assert Rejected(ToSign(alg), k) <==> Decide(ByAlg(alg), k).Negative? || Decide(ByUse(Sig), k).Negative? by {
      assert ByAlg(alg) in ToSign(alg) && ByUse(Sig) in ToSign(alg);
    }
    TablesAgree(k.params, alg, (n: nat) => n);
  }

  /** An algorithm is on offer exactly when a key can be found to sign with it. */
  lemma OfferedIsSigned(keys: seq<Jwk>, alg: Alg)
    ensures (exists k :: k in Chosen({ByUse(Sig)}, ValidOnly(keys)) && alg in Offers(k)) <==> SigningKey(alg, keys).Some?
  {
    var found := Chosen({ByUse(Sig)}, ValidOnly(keys));
    ChosenIsSorted({ByUse(Sig)}, ValidOnly(keys));
    ValidOnlyMembers(keys);
    BestKeyIsBest(ToSign(alg), keys);
    if k :| k in found && alg in Offers(k) {
      NotRejectedToSign(alg, k);
    }
    if SigningKey(alg, keys).Some? {
      NotRejectedToSign(alg, SigningKey(alg, keys).value);
    }
  }

  /** Whatever key is found to sign with an algorithm can sign with it. */
  lemma SigningKeyCanSign(keys: seq<Jwk>, alg: Alg)
    requires SigningKey(alg, keys).Some?
    ensures var k := SigningKey(alg, keys).value;
            TryBuildSigner(k.params, alg) == Some(Signer(alg, k.params.secret))
  {
    BestKeyIsBest(ToSign(alg), keys);
    NotRejectedToSign(alg, SigningKey(alg, keys).value);
  }

  /** The plain filter, without metadata validation, can select a key that cannot be used. */
  lemma RawSelectionCanMislead(kid: string, secret: nat)
    ensures var k := Jwk(EcP256(secret), Some(Sig), None, Some(RS256), Some(kid));
            && Chosen(ForHeader(RS256, Some(kid)), [k]) == [k]
            && TryBuildSigner(k.params, RS256).None?
            && BestKey(ForHeader(RS256, Some(kid)), [k]).None?
  {
    var k := Jwk(EcP256(secret), Some(Sig), None, Some(RS256), Some(kid));
    var cs := ForHeader(RS256, Some(kid));
    assert !ValidKey(k);
    assert ValidOnly([k]) == [] by { assert [k][..0] == []; }
    assert Chosen(cs, []) == [];
    assert Eligible(cs, [k]) == [k] by { assert [k][..0] == []; }
    assert SortBy([k], ByScore(cs)) == [k] by { assert [k][..0] == []; }
  }
}

/** The checksum encoding: base-62 digits, least significant first, padded with zeros on the left. */
module Base62 {

  const U32: nat := 0x1_0000_0000
  const NUM: string := DECIMALS + CAPITALS + SMALLS
  const DECIMALS := "0123456789"
  const CAPITALS := "ABCDEFGHIJKLMNOPQRSTUVWXYZ"
  const SMALLS := "abcdefghijklmnopqrstuvwxyz"

  type Digit = d: nat | d < 62

  function Digits(n: nat): seq<Digit> {
    if n == 0 then [] else [n % 62] + Digits(n / 62)
  }

  function Value(digits: seq<Digit>): nat {
    if digits == [] then 0 else digits[0] + 62 * Value(digits[1..])
  }

  function Power(k: nat): nat {
    if k == 0 then 1 else 62 * Power(k - 1)
  }

  function Zeros(k: nat): (z: seq<Digit>)
    ensures |z| == k && forall i :: 0 <= i < k ==> z[i] == 0
  {
    seq(k, i => 0)
  }

  function Letters(digits: seq<Digit>): (s: string)
    ensures |s| == |digits| && forall i :: 0 <= i < |s| ==> s[i] == NUM[digits[i]]
  {
    seq(|digits|, i requires 0 <= i < |digits| => NUM[digits[i]])
  }

  /** Six places; a longer numeral would not be cut. */
  function Padded(digits: seq<Digit>): seq<Digit> {
    if |digits| < 6 then Zeros(6 - |digits|) + digits else digits
  }

  function Encode(n: nat): string {
    Letters(Padded(Digits(n)))
  }

  method Base62Encode(n: nat) returns (s: string)
    requires n < U32
    ensures s == Encode(n)
  {
    var num, res := n, "";
    ghost var done: seq<Digit> := [];
    while num > 0
      invariant done + Digits(num) == Digits(n) && res == Letters(done)
    {
      LettersPush(done, num % 62);
      DigitsStep(done, num);
      res := res + [NUM[num % 62]];
      done := done + [num % 62];
      num := num / 62;
    }
    assert done + [] == done;
    PadLetters(done);
    s := PadLeft(res);
  }

  lemma DigitsStep(done: seq<Digit>, num: nat)
    requires num > 0
    ensures done + Digits(num) == (done + [num % 62]) + Digits(num / 62)
  {
  }

  lemma LettersPush(digits: seq<Digit>, d: Digit)
    ensures Letters(digits + [d]) == Letters(digits) + [NUM[d]]
  {
  }

  function PadLeft(s: string): string {
    if |s| < 6 then seq(6 - |s|, i => '0') + s else s
  }

  lemma PadLetters(digits: seq<Digit>)
    ensures PadLeft(Letters(digits)) == Letters(Padded(digits))
  {
    assert NUM[0] == '0';
  }

  lemma {:induction false} ValueOfDigits(n: nat)
    ensures Value(Digits(n)) == n
    ensures n > 0 ==> Digits(n) != [] && Digits(n)[|Digits(n)| - 1] != 0
  {
    if n > 0 {
      ValueOfDigits(n / 62);
      assert Digits(n)[1..] == Digits(n / 62);
    }
  }

  lemma {:induction false} DigitsLength(n: nat, k: nat)
    requires n < Power(k)
    ensures |Digits(n)| <= k
  {
    if n > 0 && k > 0 { DigitsLength(n / 62, k - 1); }
  }

  lemma DigitsTimes62(m: nat)
    requires m > 0
    ensures Digits(62 * m) == [0] + Digits(m)
  {
    assert (62 * m) % 62 == 0 && (62 * m) / 62 == m;
  }

  lemma Scale(n: nat, p: nat)
    ensures n * (62 * p) == 62 * (n * p)
  {
  }

  lemma {:induction false} DigitsShift(n: nat, k: nat)
    requires n > 0
    ensures n * Power(k) > 0 && Digits(n * Power(k)) == Zeros(k) + Digits(n)
  {
    if k == 0 {
      assert Zeros(0) + Digits(n) == Digits(n);
    } else {
      DigitsShift(n, k - 1);
      var m := n * Power(k - 1);
      Scale(n, Power(k - 1));
      DigitsTimes62(m);
      assert Zeros(k) + Digits(n) == [0] + (Zeros(k - 1) + Digits(n));
    }
  }

  lemma {:induction false} ValueShift(k: nat, digits: seq<Digit>)
    ensures Value(Zeros(k) + digits) == Value(digits) * Power(k)
  {
    if k == 0 {
      assert Zeros(0) + digits == digits;
    } else {
      ValueShift(k - 1, digits);
      assert (Zeros(k) + digits)[1..] == Zeros(k - 1) + digits;
      Scale(Value(digits), Power(k - 1));
    }
  }

  lemma U32Fits()
    ensures U32 <= Power(6)
  {
    assert Power(1) == 62 && Power(2) == 3844 && Power(3) == 238328;
    assert Power(4) == 62 * Power(3) && Power(5) == 62 * Power(4) && Power(6) == 62 * Power(5);
  }

  lemma LettersInjective(a: seq<Digit>, b: seq<Digit>)
    requires Letters(a) == Letters(b)
    ensures a == b
  {
    assert |Letters(a)| == |a| && |Letters(b)| == |b|;
    forall i | 0 <= i < |a| ensures a[i] == b[i] {
      assert Letters(a)[i] == NUM[a[i]] && Letters(b)[i] == NUM[b[i]];
      NumInjective(a[i], b[i]);
    }
  }

  lemma Alphabet(d: Digit)
    ensures NUM[d] as int == if d < 10 then 48 + d else if d < 36 then 55 + d else 61 + d
  {
    if d < 10 {
      assert NUM[d] == DECIMALS[d];
    } else if d < 36 {
      assert NUM[d] == CAPITALS[d - 10];
    } else {
      assert NUM[d] == SMALLS[d - 36];
    }
  }

  lemma NumInjective(d: Digit, e: Digit)
    requires NUM[d] == NUM[e]
    ensures d == e
  {
    Alphabet(d);
    Alphabet(e);
  }

  /** Every 32-bit value takes exactly six characters of the alphabet. */
  lemma EncodeShape(n: nat)
    requires n < U32
    ensures |Encode(n)| == 6 && forall i :: 0 <= i < 6 ==> Encode(n)[i] in NUM
  {
    U32Fits();
    DigitsLength(n, 6);
  }

  ghost predicate Multiple(a: nat, b: nat) {
    exists k: nat :: b == a * Power(k)
  }

  lemma Collide(a: nat, b: nat)
    requires 0 < a && b < U32 && Multiple(a, b)
    ensures Encode(a) == Encode(b)
  {
    var k: nat :| b == a * Power(k);
    DigitsShift(a, k);
    U32Fits();
    DigitsLength(b, 6);
    assert Padded(Digits(a)) == Padded(Digits(b));
  }

  lemma PaddedAt(digits: seq<Digit>, i: nat)
    requires |digits| <= 6 && i < 6
    ensures |Padded(digits)| == 6
    ensures Padded(digits)[i] == if i < 6 - |digits| then 0 else digits[i - (6 - |digits|)]
  {
  }

  lemma PaddingPeels(a: seq<Digit>, b: seq<Digit>)
    requires |a| <= |b| <= 6 && Padded(a) == Padded(b)
    ensures b == Zeros(|b| - |a|) + a
  {
    var peeled := Zeros(|b| - |a|) + a;
    forall i | 0 <= i < |b| ensures b[i] == peeled[i] {
      PaddedAt(a, 6 - |b| + i);
      PaddedAt(b, 6 - |b| + i);
    }
  }

  lemma Collided(a: nat, b: nat)
    requires 0 < a < U32 && 0 < b < U32 && Encode(a) == Encode(b) && |Digits(a)| <= |Digits(b)|
    ensures Multiple(a, b)
  {
    U32Fits();
    DigitsLength(a, 6);
    DigitsLength(b, 6);
    var da, db := Digits(a), Digits(b);
    LettersInjective(Padded(da), Padded(db));
    var k := |db| - |da|;
    PaddingPeels(da, db);
    ValueShift(k, da);
    ValueOfDigits(a);
    ValueOfDigits(b);
    assert b == a * Power(k);
  }

  /** Two non-zero values share an encoding exactly when one is the other times a power of 62. */
  lemma Collisions(a: nat, b: nat)
    requires 0 < a < U32 && 0 < b < U32
    ensures Encode(a) == Encode(b) <==> Multiple(a, b) || Multiple(b, a)
  {
    if Encode(a) == Encode(b) {
      if |Digits(a)| <= |Digits(b)| { Collided(a, b); } else { Collided(b, a); }
    }
    if Multiple(a, b) { Collide(a, b); }
    if Multiple(b, a) { Collide(b, a); }
  }

  /** Zero collides with nothing. */
  lemma ZeroIsAlone(n: nat)
    requires 0 < n < U32
    ensures Encode(n) != Encode(0)
  {
    ValueOfDigits(n);
    U32Fits();
    DigitsLength(n, 6);
    var p, z := Padded(Digits(n)), Padded(Digits(0));
    assert p[5] == Digits(n)[|Digits(n)| - 1] && z[5] == 0;
    if Encode(n) == Encode(0) { LettersInjective(p, z); }
  }
}

/** Time-based one-time passwords (RFC 6238). The keyed hash is a parameter. */
module Totp {
  import opened Wrappers

  type Octet = n: nat | n < 256

  type Digest = d: seq<Octet> | |d| == 20 witness seq(20, _ => 0)

  /** The HMAC of a time step under one secret. */
  type Mac = nat -> Digest

  const U32_MAX: nat := 0xFFFF_FFFF
  const DEFAULT_PERIOD: nat := 30
  const SKEW_STEPS: nat := 1

  function Power(base: nat, n: nat): (r: nat)
    requires base > 0
    ensures r > 0
  {
    if n == 0 then 1 else base * Power(base, n - 1)
  }

  /** The four octets at the offset the last one names, without the sign bit. */
  function Truncated(d: Digest): (r: nat)
    ensures r < 0x8000_0000
  {
    var offset := d[19] % 16;
    var b0: nat, b1: nat, b2: nat, b3: nat := d[offset] % 128, d[offset + 1], d[offset + 2], d[offset + 3];
    b0 * 0x100_0000 + b1 * 0x1_0000 + b2 * 0x100 + b3
  }

  /** Ten to the number of digits, computed in 32 bits. */
  function Modulus(digits: nat): (r: nat)
    ensures r <= U32_MAX
  {
    Power(10, digits) % 0x1_0000_0000
  }

  /**
   * The code of a digest, or nothing if computing it panics: on overflow in a build that checks
   * for it, and on a division by zero.
   */
  function Code(d: Digest, digits: nat, checked: bool): Option<nat> {
    if checked && Power(10, digits) > U32_MAX then None
    else if Modulus(digits) == 0 then None
    else Some(Truncated(d) % Modulus(digits))
  }

  function Generate(mac: Mac, step: nat, digits: nat, checked: bool): Option<nat> {
    Code(mac(step), digits, checked)
  }

  lemma {:induction false} PowerGrows(d: nat, e: nat)
    requires d <= e
    ensures Power(10, d) <= Power(10, e)
  {
    if d < e { PowerGrows(d, e - 1); }
  }

  lemma TenthPower()
    ensures Power(10, 9) == 1_000_000_000 && Power(10, 10) == 10_000_000_000
  {
    assert Power(10, 1) == 10 && Power(10, 2) == 100 && Power(10, 3) == 1000;
    assert Power(10, 4) == 10 * Power(10, 3) && Power(10, 5) == 10 * Power(10, 4) && Power(10, 6) == 10 * Power(10, 5);
    assert Power(10, 7) == 10 * Power(10, 6) && Power(10, 8) == 10 * Power(10, 7) && Power(10, 9) == 10 * Power(10, 8);
  }

  /** The power stays within 32 bits for up to nine digits, and for no more. */
  lemma NineDigitsFit(digits: nat)
    ensures Power(10, digits) <= U32_MAX <==> digits <= 9
    ensures digits <= 9 ==> Modulus(digits) == Power(10, digits)
  {
    TenthPower();
    if digits <= 9 { PowerGrows(digits, 9); } else { PowerGrows(10, digits); }
  }

  /** For up to nine digits the code is the truncated digest modulo ten to that power, in every build. */
  lemma GeneratesUpToNine(mac: Mac, step: nat, digits: nat, checked: bool)
    requires digits <= 9
    ensures Generate(mac, step, digits, checked) == Some(Truncated(mac(step)) % Power(10, digits))
    ensures Generate(mac, step, digits, checked).value < Power(10, digits)
  {
    NineDigitsFit(digits);
  }

  // For which numbers of digits the code is right

  /** The code is the truncated digest modulo ten to the number of digits (section 5.3 of RFC 4226). */
  ghost predicate Right(d: Digest, digits: nat, checked: bool) {
    Code(d, digits, checked) == Some(Truncated(d) % Power(10, digits))
  }

  /** At most nine digits, or an unchecked power that still exceeds every truncated digest. */
  predicate DigitsWork(digits: nat, checked: bool) {
    digits <= 9 || (!checked && Modulus(digits) >= 0x8000_0000)
  }

  /** A digest that truncates to the given number. */
  function DigestOf(n: nat): Digest
    requires n < 0x8000_0000
  {
    [n / 0x100_0000, n / 0x1_0000 % 256, n / 0x100 % 256, n % 256] + seq(16, _ => 0)
  }

  lemma DigestTruncates(n: nat)
    requires n < 0x8000_0000
    ensures Truncated(DigestOf(n)) == n
  {
    var d := DigestOf(n);
    FourOctets(n);
    assert d[19] == 0 && d[0] == n / 0x100_0000 && d[1] == n / 0x1_0000 % 256 && d[2] == n / 0x100 % 256 && d[3] == n % 256;
  }

  /** The digest with the number written where its last octet points, with or without the sign bit. */
  function Written(d: Digest, n: nat, sign: bool): Digest
    requires n < 0x8000_0000
  {
    var at := d[19] % 16;
    d[at := n / 0x100_0000 + if sign then 128 else 0][at + 1 := n / 0x1_0000 % 256][at + 2 := n / 0x100 % 256][at + 3 := n % 256]
  }

  /** Whatever the last octet is, truncation reads the number that was written there, without the sign bit. */
  lemma TruncatedIsWritten(d: Digest, n: nat, sign: bool)
    requires n < 0x8000_0000
    ensures Truncated(Written(d, n, sign)) == n
  {
    FourOctets(n);
    var at := d[19] % 16;
    var w := Written(d, n, sign);
    assert w[19] == d[19];
    assert w[at] % 128 == n / 0x100_0000;
  }

  lemma FourOctets(n: nat)
    ensures n == n / 0x100_0000 * 0x100_0000 + n / 0x1_0000 % 256 * 0x1_0000 + n / 0x100 % 256 * 0x100 + n % 256
  {
    var a := n / 0x100;
    var b := a / 0x100;
    assert n == a * 0x100 + n % 0x100 && a == b * 0x100 + a % 0x100 && b == b / 0x100 * 0x100 + b % 0x100;
    assert n / 0x1_0000 == b && n / 0x100_0000 == b / 0x100;
  }

  lemma RightWhenWide(d: Digest, digits: nat)
    requires digits > 9 && Modulus(digits) >= 0x8000_0000
    ensures Right(d, digits, false)
  {
    hide Truncated;
    NineDigitsFit(digits);
    SmallMod(Truncated(d), Power(10, digits));
    SmallMod(Truncated(d), Modulus(digits));
  }

  lemma SmallMod(n: nat, m: nat)
    requires n < m
    ensures n % m == n
  {
  }

  lemma WrongWhenNarrow(digits: nat, checked: bool)
    requires digits > 9 && (checked || Modulus(digits) < 0x8000_0000)
    ensures !Right(DigestOf(if Modulus(digits) < 0x8000_0000 then Modulus(digits) else 0), digits, checked)
  {
    hide Truncated, DigestOf, Modulus;
    NineDigitsFit(digits);
    var m := Modulus(digits);
    if !checked && m > 0 {
      DigestTruncates(m);
      SmallMod(m, Power(10, digits));
    }
  }

  /**
   * Every digest gets the right code if and only if there are at most nine digits, or overflow
   * is not checked and the wrapped power still exceeds every truncated digest.
   */
  lemma RightExactly(digits: nat, checked: bool)
    ensures (forall d: Digest :: Right(d, digits, checked)) <==> DigitsWork(digits, checked)
  {
    hide Right;
    if digits <= 9 {
      forall d: Digest ensures Right(d, digits, checked) { RightUpToNine(d, digits, checked); }
    } else if !checked && Modulus(digits) >= 0x8000_0000 {
      forall d: Digest ensures Right(d, digits, checked) { RightWhenWide(d, digits); }
    } else {
      WrongWhenNarrow(digits, checked);
    }
  }

  lemma RightUpToNine(d: Digest, digits: nat, checked: bool)
    requires digits <= 9
    ensures Right(d, digits, checked)
  {
    NineDigitsFit(digits);
  }

  lemma {:induction false} PowerSplits(d: nat)
    ensures Power(10, d) == Power(2, d) * Power(5, d)
  {
    if d > 0 {
      PowerSplits(d - 1);
      var a, b := Power(2, d - 1), Power(5, d - 1);
      assert 10 * (a * b) == (2 * a) * (5 * b);
    }
  }

  lemma {:induction false} PowersOfFiveAreOdd(d: nat)
    ensures Power(5, d) % 2 == 1
  {
    if d > 0 { PowersOfFiveAreOdd(d - 1); }
  }

  lemma {:induction false} PowerSum(a: nat, b: nat)
    ensures Power(2, a + b) == Power(2, a) * Power(2, b)
  {
    if b > 0 {
      PowerSum(a, b - 1);
      var x, y := Power(2, a), Power(2, b - 1);
      assert 2 * (x * y) == x * (2 * y);
    }
  }

  lemma TwoToThe32()
    ensures Power(2, 32) == 0x1_0000_0000
  {
    assert Power(2, 4) == 16 by { assert Power(2, 2) == 4; }
    PowerSum(4, 4);
    PowerSum(8, 8);
    PowerSum(16, 16);
  }

  lemma MultipleHasNoRest(a: nat, b: nat)
    requires a > 0
    ensures (a * b) % a == 0
  {
    Remainder(a * b, a, b, 0);
  }

  lemma Remainder(n: nat, m: nat, q: nat, r: nat)
    requires m > 0 && n == q * m + r && r < m
    ensures n % m == r
  {
    QuotientIs(n, q, m);
  }

  lemma CancelPower(p: nat, a: nat, b: nat)
    requires p > 0 && p * a == p * b
    ensures a == b
  {
    if a < b { assert p * b == p * a + p * (b - a); PositiveProduct(p, b - a); }
    if b < a { assert p * a == p * b + p * (a - b); PositiveProduct(p, a - b); }
  }

  lemma PositiveProduct(a: nat, b: nat)
    requires a > 0 && b > 0
    ensures a * b > 0
  {
  }

  /** The wrapped power is zero from thirty-two digits on, and not before. */
  lemma ZeroFromThirtyTwo(digits: nat)
    ensures Modulus(digits) == 0 <==> digits >= 32
  {
    hide Power;
    PowerSplits(digits);
    TwoToThe32();
    var five := Power(5, digits);
    if digits >= 32 {
      PowerSum(32, digits - 32);
      var rest := Power(2, digits - 32);
      assert Power(10, digits) == 0x1_0000_0000 * (rest * five);
      MultipleHasNoRest(0x1_0000_0000, rest * five);
    } else if Modulus(digits) == 0 {
      NotAMultiple(digits, Power(10, digits) / 0x1_0000_0000);
    }
  }

  lemma NotAMultiple(digits: nat, q: nat)
    requires digits < 32
    ensures Power(10, digits) != q * 0x1_0000_0000
  {
    hide Power;
    PowerSplits(digits);
    TwoToThe32();
    PowerSum(digits, 32 - digits);
    PowersOfFiveAreOdd(digits);
    EvenPower(32 - digits);
    var p, rest, five := Power(2, digits), Power(2, 32 - digits), Power(5, digits);
    if Power(10, digits) == q * 0x1_0000_0000 {
      assert p * five == p * (rest * q) by { assert q * (p * rest) == p * (rest * q); }
      CancelPower(p, five, rest * q);
      EvenTimes(rest, q);
    }
  }

  lemma EvenPower(n: nat)
    requires n > 0
    ensures Power(2, n) % 2 == 0
  {
  }

  lemma EvenTimes(a: nat, b: nat)
    requires a % 2 == 0
    ensures a * b % 2 == 0
  {
    assert a * b == 2 * (a / 2 * b);
  }

  /** With ten digits a build that checks panics, and one that does not shows 0 for a code that is 1410065408. */
  lemma TenDigitsOverflow(step: nat)
    ensures Modulus(10) == 1_410_065_408
    ensures var d := DigestOf(1_410_065_408);
            && Generate(_ => d, step, 10, true).None?
            && Generate(_ => d, step, 10, false) == Some(0)
            && Truncated(d) % Power(10, 10) == 1_410_065_408
  {
    hide Truncated, DigestOf;
    TenthPower();
    DigestTruncates(1_410_065_408);
  }

  // Numbers as text

  predicate IsDigit(c: char) {
    '0' <= c <= '9'
  }

  function DigitOf(c: char): nat
    requires IsDigit(c)
  {
    c as int - '0' as int
  }

  predicate AllDigits(s: string) {
    forall i :: 0 <= i < |s| ==> IsDigit(s[i])
  }

  function DigitsValue(s: string): nat
    requires AllDigits(s)
  {
    if s == "" then 0 else DigitsValue(s[..|s| - 1]) * 10 + DigitOf(s[|s| - 1])
  }

  /** An optional plus sign, then at least one digit, within 32 bits. */
  function ParseU32(s: string): Option<nat> {
    var body := if s != "" && s[0] == '+' then s[1..] else s;
    if body == "" || !AllDigits(body) then None
    else if DigitsValue(body) > U32_MAX then None
    else Some(DigitsValue(body))
  }

  /** What an authenticator shows: the code with leading zeros. */
  function Display(code: nat, digits: nat): (s: string)
    ensures |s| == digits && AllDigits(s)
  {
    if digits == 0 then "" else
    Display(code / 10, digits - 1) + [(code % 10 + '0' as int) as char]
  }

  lemma LastDigit(code: nat, p: nat)
    requires p > 0 && code < 10 * p
    ensures code / 10 < p && (code / 10) * 10 + code % 10 == code
  {
  }

  lemma {:induction false} DisplayValue(code: nat, digits: nat)
    requires code < Power(10, digits)
    ensures DigitsValue(Display(code, digits)) == code
  {
    if digits > 0 {
      LastDigit(code, Power(10, digits - 1));
      DisplayValue(code / 10, digits - 1);
      var front := Display(code / 10, digits - 1);
      assert Display(code, digits)[..digits - 1] == front;
      assert DigitsValue(Display(code, digits)) == DigitsValue(front) * 10 + code % 10;
    }
  }

  lemma DisplayParses(code: nat, digits: nat)
    requires 0 < digits && code < Power(10, digits) && code <= U32_MAX
    ensures ParseU32(Display(code, digits)) == Some(code)
  {
    DisplayValue(code, digits);
    assert IsDigit(Display(code, digits)[0]);
  }

  /** A non-empty string of digits is what is shown for its value at its width. */
  lemma {:induction false} DigitsAreDisplayed(s: string)
    requires AllDigits(s)
    ensures DigitsValue(s) < Power(10, |s|) && Display(DigitsValue(s), |s|) == s
  {
    if s != "" {
      var last := |s| - 1;
      DigitsAreDisplayed(s[..last]);
      PushedDigit(DigitsValue(s[..last]), DigitOf(s[last]), Power(10, last));
      assert s == s[..last] + [s[last]];
    }
  }

  lemma PushedDigit(n: nat, d: nat, p: nat)
    requires n < p && d < 10
    ensures n * 10 + d < 10 * p && (n * 10 + d) / 10 == n && (n * 10 + d) % 10 == d
  {
  }

  ghost predicate ShownAs(s: string, n: nat, width: nat) {
    width > 0 && n < Power(10, width) && (s == Display(n, width) || s == "+" + Display(n, width))
  }

  lemma ParsedIsShown(s: string, n: nat)
    requires ParseU32(s) == Some(n)
    ensures n <= U32_MAX && exists width :: ShownAs(s, n, width)
  {
    hide Power, Display, DigitsValue;
    var body := if s != "" && s[0] == '+' then s[1..] else s;
    assert body != "" && AllDigits(body);
    DigitsAreDisplayed(body);
    assert s == body || s == "+" + body;
    assert ShownAs(s, n, |body|);
  }

  lemma ShownIsParsed(s: string, n: nat, width: nat)
    requires n <= U32_MAX && ShownAs(s, n, width)
    ensures ParseU32(s) == Some(n)
  {
    hide Power, DigitsValue;
    DisplayParses(n, width);
    var shown := Display(n, width);
    assert IsDigit(shown[0]);
    if s == "+" + shown {
      assert s[1..] == shown;
    }
  }

  /** Read are exactly the 32-bit numbers as they are shown at some width, with or without a plus sign. */
  lemma ParseExactly(s: string, n: nat)
    ensures ParseU32(s) == Some(n) <==> n < 0x1_0000_0000 && exists width :: ShownAs(s, n, width)
  {
    hide ParseU32, ShownAs;
    if ParseU32(s) == Some(n) { ParsedIsShown(s, n); }
    if n <= U32_MAX && exists width :: ShownAs(s, n, width) {
      var width :| ShownAs(s, n, width);
      ShownIsParsed(s, n, width);
    }
  }

  // Verification

  function Period(period: nat): (r: nat)
    ensures r > 0
  {
    if period == 0 then DEFAULT_PERIOD else period
  }

  /** Half a minute unless another period is given; the code of a moment is that of its step or of the steps beside it. */
  lemma WindowExactly(period: nat, step: nat, now: nat)
    ensures InWindow(step, now / Period(period)) <==>
              var current := now / (if period == 0 then 30 else period);
              step == current || step == current + 1 || step + 1 == current
  {
  }

  /** The steps that are tried: the current one and its neighbours. */
  predicate InWindow(step: nat, current: nat) {
    current <= step + SKEW_STEPS && step <= current + SKEW_STEPS
  }

  /** `secret` is the keyed hash, when the shared secret decodes. */
  ghost predicate Accepts(secret: Option<Mac>, code: string, period: nat, digits: nat, checked: bool, now: nat) {
    && ParseU32(code).Some? && secret.Some?
    && exists step: nat :: InWindow(step, now / Period(period))
                        && Generate(secret.value, step, digits, checked) == ParseU32(code)
  }

  /** The answer, or nothing if a panic comes first. */
  method Verify(secret: Option<Mac>, code: string, period: nat, digits: nat, checked: bool, now: nat) returns (ok: Option<bool>)
    ensures ok.None? <==> ParseU32(code).Some? && secret.Some? && (digits >= 32 || (checked && digits >= 10))
    ensures ok.Some? ==> (ok.value <==> Accepts(secret, code, period, digits, checked, now))
  {
    hide Power, Modulus, Truncated, ParseU32;
    NineDigitsFit(digits);
    ZeroFromThirtyTwo(digits);
    var expected := ParseU32(code);
    if expected.None? || secret.None? { return Some(false); }
    var current := now / Period(period);
    var first := if current >= SKEW_STEPS then current - SKEW_STEPS else 0;
    for step := first to current + SKEW_STEPS + 1
      invariant forall k: nat :: first <= k < step ==>
        Generate(secret.value, k, digits, checked).Some? && Generate(secret.value, k, digits, checked) != expected
    {
      var found := Generate(secret.value, step, digits, checked);
      if found.None? { return None; }
      if found == expected {
        assert InWindow(step, current);
        return Some(true);
      }
    }
    assert Generate(secret.value, first, digits, checked).Some?;
    assert forall k: nat :: InWindow(k, current) ==> first <= k < current + SKEW_STEPS + 1;
    ok := Some(false);
  }

  lemma Quotient(n: nat, period: nat)
    requires period > 0
    ensures (n / period) * period <= n < (n / period) * period + period
  {
    assert n == (n / period) * period + n % period;
  }

  lemma PositiveFactor(a: int, b: nat)
    requires a * b > 0
    ensures a > 0
  {
  }

  lemma QuotientIs(n: nat, q: nat, period: nat)
    requires period > 0 && q * period <= n < q * period + period
    ensures n / period == q
  {
    var d := n / period;
    Quotient(n, period);
    var x, y := d * period, q * period;
    assert (d - q + 1) * period == x - y + period;
    PositiveFactor(d - q + 1, period);
    assert (q - d + 1) * period == y - x + period;
    PositiveFactor(q - d + 1, period);
  }

  lemma NextMultiple(q: nat, period: nat)
    ensures (q + 1) * period == q * period + period
  {
  }

  lemma DivideWithin(a: nat, b: nat, period: nat)
    requires period > 0 && a <= b <= a + period
    ensures b / period == a / period || b / period == a / period + 1
  {
    var q := a / period;
    Quotient(a, period);
    NextMultiple(q, period);
    if b < q * period + period {
      QuotientIs(b, q, period);
    } else {
      QuotientIs(b, q + 1, period);
    }
  }

  lemma ModBelow(n: nat, m: nat)
    requires m > 0
    ensures n % m <= n
  {
  }

  lemma StepsWithin(client: nat, now: nat, period: nat)
    requires period > 0 && client <= now + period && now <= client + period
    ensures InWindow(client / period, now / period)
  {
    if client <= now { DivideWithin(client, now, period); } else { DivideWithin(now, client, period); }
  }

  lemma CodeParses(mac: Mac, step: nat, digits: nat, checked: bool)
    requires 0 < digits && DigitsWork(digits, checked)
    ensures var code := Truncated(mac(step)) % Power(10, digits);
            Generate(mac, step, digits, checked) == Some(code) && ParseU32(Display(code, digits)) == Some(code)
  {
    hide Truncated, ParseU32, Display;
    var d := mac(step);
    if digits <= 9 { RightUpToNine(d, digits, checked); } else { RightWhenWide(d, digits); }
    ModBelow(Truncated(d), Power(10, digits));
    DisplayParses(Truncated(d) % Power(10, digits), digits);
  }

  /** Where codes are right, the code shown by a clock at most one period away is accepted. */
  lemma SkewIsTolerated(mac: Mac, period: nat, digits: nat, checked: bool, client: nat, now: nat)
    requires 0 < digits && DigitsWork(digits, checked)
    requires client <= now + Period(period) && now <= client + Period(period)
    ensures var shown := Truncated(mac(client / Period(period))) % Power(10, digits);
            Accepts(Some(mac), Display(shown, digits), period, digits, checked, now)
  {
    hide Generate, Display, Truncated;
    StepsWithin(client, now, Period(period));
    CodeParses(mac, client / Period(period), digits, checked);
  }

  /** Whatever is accepted was on show at some time less than two periods away, leading zeros aside. */
  lemma AcceptedIsRecent(mac: Mac, code: string, period: nat, digits: nat, checked: bool, now: nat) returns (at: nat)
    requires Accepts(Some(mac), code, period, digits, checked, now)
    ensures ParseU32(code) == Generate(mac, at / Period(period), digits, checked)
    ensures at < now + 2 * Period(period) && now < at + 2 * Period(period)
  {
    hide Generate;
    var current := now / Period(period);
    var step: nat :| InWindow(step, current) && Generate(mac, step, digits, checked) == ParseU32(code);
    at := WindowIsBounded(step, period, now);
  }

  /** A step of the window has a time less than two periods away. */
  lemma WindowIsBounded(step: nat, period: nat, now: nat) returns (at: nat)
    requires InWindow(step, now / Period(period))
    ensures at / Period(period) == step
    ensures at < now + 2 * Period(period) && now < at + 2 * Period(period)
  {
    var p := Period(period);
    var current := now / p;
    Quotient(now, p);
    if step == current {
      at := now;
    } else if step > current {
      NextMultiple(current, p);
      at := current * p + p;
      QuotientIs(at, step, p);
    } else {
      NextMultiple(step, p);
      at := current * p - 1;
      QuotientIs(at, step, p);
    }
  }
}

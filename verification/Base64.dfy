/** Unpadded base64url: sections 3.2, 3.5 and 5 of RFC 4648. A character stands for a byte. */
module Base64 {
  import opened Wrappers

  type Octet = n: nat | n < 256
  type Six = n: nat | n < 64

  function Sextet(c: char): Option<Six> {
    if 'A' <= c <= 'Z' then Some(c as int - 65)
    else if 'a' <= c <= 'z' then Some(c as int - 71)
    else if '0' <= c <= '9' then Some(c as int + 4)
    else if c == '-' then Some(62)
    else if c == '_' then Some(63)
    else None
  }

  predicate Base64Chars(s: string) {
    forall i :: 0 <= i < |s| ==> Sextet(s[i]).Some?
  }

  // The bits of three bytes and of four characters

  function First(a: Six, b: Six): Octet { a * 4 + b / 16 }

  function Second(b: Six, c: Six): Octet { b % 16 * 16 + c / 4 }

  function Third(c: Six, d: Six): Octet { c % 4 * 64 + d }

  /** Four characters give three bytes; two or three give one or two, with no stray bits; one is an error. */
  function Decode(s: string): Option<seq<Octet>> {
    if !Base64Chars(s) || |s| == 1 then None
    else if |s| == 0 then Some([])
    else
      var a, b := Sextet(s[0]).value, Sextet(s[1]).value;
      if |s| == 2 then (if Second(b, 0) == 0 then Some([First(a, b)]) else None)
      else
        var c := Sextet(s[2]).value;
        if |s| == 3 then (if Third(c, 0) == 0 then Some([First(a, b), Second(b, c)]) else None)
        else
          var d := Sextet(s[3]).value;
          match Decode(s[4..])
          case Some(rest) => Some([First(a, b), Second(b, c), Third(c, d)] + rest)
          case None => None
  }

  lemma {:induction false} DecodeLengthRule(s: string)
    ensures |s| % 4 == 1 ==> Decode(s).None?
    ensures Decode(s).Some? ==> |Decode(s).value| == |s| * 3 / 4
  {
    hide Sextet, First, Second, Third;
    if |s| >= 4 { DecodeLengthRule(s[4..]); }
  }

  // The other way

  /** The alphabet: capitals, small letters, digits, hyphen, underscore. */
  function Letter(n: Six): char {
    if n < 26 then ('A' as int + n) as char
    else if n < 52 then ('a' as int + (n - 26)) as char
    else if n < 62 then ('0' as int + (n - 52)) as char
    else if n == 62 then '-' else '_'
  }

  function High(x: Octet): Six { x / 4 }

  function Middle(x: Octet, y: Octet): Six { x % 4 * 16 + y / 16 }

  function Lower(y: Octet, z: Octet): Six { y % 16 * 4 + z / 64 }

  function Low(z: Octet): Six { z % 64 }

  function Encode(bytes: seq<Octet>): string {
    if |bytes| == 0 then ""
    else if |bytes| == 1 then [Letter(High(bytes[0])), Letter(Middle(bytes[0], 0))]
    else if |bytes| == 2 then [Letter(High(bytes[0])), Letter(Middle(bytes[0], bytes[1])), Letter(Lower(bytes[1], 0))]
    else
      [Letter(High(bytes[0])), Letter(Middle(bytes[0], bytes[1])), Letter(Lower(bytes[1], bytes[2])), Letter(Low(bytes[2]))]
      + Encode(bytes[3..])
  }

  lemma LetterSextet(n: Six)
    ensures Sextet(Letter(n)) == Some(n)
  {
  }

  lemma SextetLetter(c: char)
    requires Sextet(c).Some?
    ensures Letter(Sextet(c).value) == c
  {
  }

  lemma {:induction false} EncodedChars(bytes: seq<Octet>)
    ensures Base64Chars(Encode(bytes))
  {
    hide Sextet, Letter;
    forall n: Six { LetterSextet(n); }
    if |bytes| >= 3 { EncodedChars(bytes[3..]); }
  }

  lemma FirstBits(x: Octet, y: Octet)
    ensures First(High(x), Middle(x, y)) == x
  {
    assert (x % 4 * 16 + y / 16) / 16 == x % 4;
  }

  lemma SecondBits(x: Octet, y: Octet, z: Octet)
    ensures Second(Middle(x, y), Lower(y, z)) == y
  {
    assert (x % 4 * 16 + y / 16) % 16 == y / 16;
    assert (y % 16 * 4 + z / 64) / 4 == y % 16;
  }

  lemma ThirdBits(y: Octet, z: Octet)
    ensures Third(Lower(y, z), Low(z)) == z
  {
    assert (y % 16 * 4 + z / 64) % 4 == z / 64;
  }

  lemma NothingLeft(x: Octet, y: Octet)
    ensures Second(Middle(x, 0), 0) == 0 && Third(Lower(y, 0), 0) == 0
  {
    assert (x % 4 * 16) % 16 == 0 && (y % 16 * 4) % 4 == 0;
  }

  lemma Bits(x: Octet, y: Octet, z: Octet)
    ensures First(High(x), Middle(x, y)) == x && Second(Middle(x, y), Lower(y, z)) == y && Third(Lower(y, z), Low(z)) == z
    ensures Second(Middle(x, 0), 0) == 0 && Third(Lower(y, 0), 0) == 0
  {
    hide *;
    FirstBits(x, y);
    SecondBits(x, y, z);
    ThirdBits(y, z);
    NothingLeft(x, y);
  }

  /** Decoding undoes encoding. */
  lemma {:induction false} EncodeDecode(bytes: seq<Octet>)
    ensures Decode(Encode(bytes)) == Some(bytes)
  {
    hide Sextet, Letter, First, Second, Third, High, Middle, Lower, Low;
    EncodedChars(bytes);
    forall n: Six ensures Sextet(Letter(n)) == Some(n) { LetterSextet(n); }
    if |bytes| >= 3 {
      Bits(bytes[0], bytes[1], bytes[2]);
      EncodeDecode(bytes[3..]);
      assert Encode(bytes)[4..] == Encode(bytes[3..]);
      assert bytes == [bytes[0], bytes[1], bytes[2]] + bytes[3..];
    } else if |bytes| == 2 {
      Bits(bytes[0], bytes[1], 0);
      assert bytes == [bytes[0], bytes[1]];
    } else if |bytes| == 1 {
      Bits(bytes[0], 0, 0);
      assert bytes == [bytes[0]];
    }
  }

  lemma HighGroup(a: Six, b: Six)
    ensures High(First(a, b)) == a
  {
  }

  lemma MiddleGroup(a: Six, b: Six, c: Six)
    ensures Middle(First(a, b), Second(b, c)) == b
    ensures Second(b, 0) == 0 ==> Middle(First(a, b), 0) == b
  {
    assert (a * 4 + b / 16) % 4 == b / 16;
    assert (b % 16 * 16 + c / 4) / 16 == b % 16;
  }

  lemma LowerGroup(b: Six, c: Six, d: Six)
    ensures Lower(Second(b, c), Third(c, d)) == c
    ensures Third(c, 0) == 0 ==> Lower(Second(b, c), 0) == c
  {
    assert (b % 16 * 16 + c / 4) % 16 == c / 4;
    assert (c % 4 * 64 + d) / 64 == c % 4;
  }

  lemma LowGroup(c: Six, d: Six)
    ensures Low(Third(c, d)) == d
  {
  }

  lemma Groups(a: Six, b: Six, c: Six, d: Six)
    ensures High(First(a, b)) == a && Middle(First(a, b), Second(b, c)) == b
    ensures Lower(Second(b, c), Third(c, d)) == c && Low(Third(c, d)) == d
    ensures Second(b, 0) == 0 ==> Middle(First(a, b), 0) == b
    ensures Third(c, 0) == 0 ==> Lower(Second(b, c), 0) == c
  {
    hide *;
    HighGroup(a, b);
    MiddleGroup(a, b, c);
    LowerGroup(b, c, d);
    LowGroup(c, d);
  }

  /** And the other way: only what encoding writes is decoded. */
  lemma {:induction false} DecodeEncode(s: string)
    requires Decode(s).Some?
    ensures Encode(Decode(s).value) == s
  {
    hide Sextet, Letter, First, Second, Third, High, Middle, Lower, Low;
    forall c | Sextet(c).Some? ensures Letter(Sextet(c).value) == c { SextetLetter(c); }
    if |s| >= 4 {
      Groups(Sextet(s[0]).value, Sextet(s[1]).value, Sextet(s[2]).value, Sextet(s[3]).value);
      DecodeEncode(s[4..]);
      assert Decode(s).value[3..] == Decode(s[4..]).value;
      assert s == [s[0], s[1], s[2], s[3]] + s[4..];
    } else if |s| == 3 {
      Groups(Sextet(s[0]).value, Sextet(s[1]).value, Sextet(s[2]).value, 0);
      assert s == [s[0], s[1], s[2]];
    } else if |s| == 2 {
      Groups(Sextet(s[0]).value, Sextet(s[1]).value, 0, 0);
      assert s == [s[0], s[1]];
    }
  }
}

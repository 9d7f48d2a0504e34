/**
 * Token strings: `prefix_random_checksum`. A string stands for its UTF-8 bytes, one character
 * a byte. The CRC-32 is a parameter: everything holds whatever it computes.
 */
module Tokens {
  import opened Wrappers
  import opened Text
  import opened Base62
  import Base64

  type Word = n: nat | n < U32

  datatype TokenType = AccessToken | RefreshToken | PersonalAccessToken

  datatype FormatError =
    | InvalidFormat
    | UnknownPrefix(prefix: string)
    | InvalidCrc(expected: string, got: string)

  function Prefix(t: TokenType): string {
    match t
    case AccessToken => "mat"
    case RefreshToken => "mar"
    case PersonalAccessToken => "mpt"
  }

  function MatchPrefix(prefix: string): Option<TokenType> {
    if prefix == "mat" then Some(AccessToken)
    else if prefix == "mar" then Some(RefreshToken)
    else if prefix == "mpt" then Some(PersonalAccessToken)
    else None
  }

  lemma PrefixesMatch(t: TokenType, prefix: string)
    ensures MatchPrefix(prefix) == Some(t) <==> prefix == Prefix(t)
  {
    assert Prefix(AccessToken)[1] == 'a' && Prefix(AccessToken)[2] == 't';
    assert Prefix(RefreshToken)[2] == 'r' && Prefix(PersonalAccessToken)[1] == 'p';
  }

  const LOCATION: seq<Base64.Octet> := [108, 111, 99, 97, 116, 105, 111, 110, 32]

  /** The bytes 4 to 12 of the decoded token spell the name of the location constraint. */
  predicate LikelyMacaroon(token: string) {
    var decoded := Base64.Decode(token);
    decoded.Some? && |decoded.value| >= 13 && decoded.value[4..13] == LOCATION
  }

  const CHARSET := CAPITALS + SMALLS + DECIMALS

  function Alphanumeric(bytes: seq<Base64.Octet>): (s: string)
    ensures |s| == |bytes| && '_' !in s
  {
    assert forall k :: 0 <= k < 62 ==> CHARSET[k] != '_' by {
      assert '_' !in CAPITALS && '_' !in SMALLS && '_' !in DECIMALS;
    }
    seq(|bytes|, i requires 0 <= i < |bytes| => CHARSET[bytes[i] % 62])
  }

  /** A character is chosen by the byte's rest modulo 62: capitals, then small letters, then digits. */
  lemma AlphanumericAt(bytes: seq<Base64.Octet>, i: nat)
    requires i < |bytes|
    ensures var v := bytes[i] % 62; var c := Alphanumeric(bytes)[i];
            && (v < 26 ==> c as int == 'A' as int + v)
            && (26 <= v < 52 ==> c as int == 'a' as int + v - 26)
            && (52 <= v ==> c as int == '0' as int + v - 52)
  {
    CharsetAt(bytes[i] % 62);
  }

  lemma CapitalAt(v: nat)
    requires v < 26
    ensures CAPITALS[v] as int == 'A' as int + v
  {
  }

  lemma SmallAt(v: nat)
    requires v < 26
    ensures SMALLS[v] as int == 'a' as int + v
  {
  }

  lemma DecimalAt(v: nat)
    requires v < 10
    ensures DECIMALS[v] as int == '0' as int + v
  {
  }

  lemma CharsetAt(v: nat)
    requires v < 62
    ensures v < 26 ==> CHARSET[v] as int == 'A' as int + v
    ensures 26 <= v < 52 ==> CHARSET[v] as int == 'a' as int + v - 26
    ensures 52 <= v ==> CHARSET[v] as int == '0' as int + v - 52
  {
    if v < 26 {
      CapitalAt(v);
    } else if v < 52 {
      SmallAt(v - 26);
    } else {
      DecimalAt(v - 52);
    }
  }

  function Base(t: TokenType, random: string): string {
    Prefix(t) + "_" + random
  }

  function Generate(crc: string -> Word, t: TokenType, bytes: seq<Base64.Octet>): string {
    var base := Base(t, Alphanumeric(bytes));
    base + "_" + Encode(crc(base))
  }

  predicate Legacy(token: string) {
    "pst_" <= token || "syr_" <= token
  }

  function Check(crc: string -> Word, token: string): Result<TokenType, FormatError> {
    if Legacy(token) || LikelyMacaroon(token) then Err(InvalidFormat)
    else CheckParts(crc, Split(token, '_'))
  }

  function CheckParts(crc: string -> Word, parts: seq<string>): Result<TokenType, FormatError> {
    if |parts| != 3 || |parts[0]| != 3 || |parts[1]| != 30 || |parts[2]| != 6 then Err(InvalidFormat)
    else
      match MatchPrefix(parts[0])
      case None => Err(UnknownPrefix(parts[0]))
      case Some(t) =>
        var expected := Encode(crc(Base(t, parts[1])));
        if parts[2] != expected then Err(InvalidCrc(expected, parts[2])) else Ok(t)
  }

  lemma JoinThree(a: string, b: string, c: string)
    ensures Join([a, b, c], '_') == a + "_" + b + "_" + c
  {
    assert [a, b, c][1..] == [b, c] && [b, c][1..] == [c];
    assert Join([b, c], '_') == b + ['_'] + Join([c], '_');
    assert a + ['_'] + (b + ['_'] + c) == a + "_" + b + "_" + c;
  }

  /** Whatever passes the length test has 41 bytes, which is no length of a base64url string. */
  lemma ShapedIsNotBase64(token: string)
    requires var parts := Split(token, '_');
             |parts| == 3 && |parts[0]| == 3 && |parts[1]| == 30 && |parts[2]| == 6
    ensures |token| == 41 && !LikelyMacaroon(token)
  {
    JoinSplit(token, '_');
    var parts := Split(token, '_');
    assert parts == [parts[0], parts[1], parts[2]];
    JoinThree(parts[0], parts[1], parts[2]);
    Base64.DecodeLengthRule(token);
  }

  /** The macaroon test never changes a result, and the legacy prefixes only change which error is reported. */
  lemma GuardsAreRedundant(crc: string -> Word, token: string)
    ensures Check(crc, token) == if Legacy(token) then Err(InvalidFormat) else CheckParts(crc, Split(token, '_'))
    ensures Check(crc, token).Ok? <==> CheckParts(crc, Split(token, '_')).Ok?
  {
    var parts := Split(token, '_');
    if |parts| == 3 && |parts[0]| == 3 && |parts[1]| == 30 && |parts[2]| == 6 {
      ShapedIsNotBase64(token);
      if MatchPrefix(parts[0]).Some? {
        PrefixesMatch(MatchPrefix(parts[0]).value, parts[0]);
        JoinSplit(token, '_');
        assert parts == [parts[0], parts[1], parts[2]];
        JoinThree(parts[0], parts[1], parts[2]);
        assert token[0] == 'm';
      }
    }
  }

  ghost predicate WellFormed(crc: string -> Word, t: TokenType, token: string) {
    exists random: string :: |random| == 30 && '_' !in random
      && token == Base(t, random) + "_" + Encode(crc(Base(t, random)))
  }

  /** A token is accepted, with its type, exactly when it is prefix, 30 free bytes and their checksum. */
  lemma CheckAcceptsExactly(crc: string -> Word, token: string, t: TokenType)
    ensures Check(crc, token) == Ok(t) <==> WellFormed(crc, t, token)
  {
    hide Encode, Split, Join;
    GuardsAreRedundant(crc, token);
    if Check(crc, token) == Ok(t) {
      var parts := Split(token, '_');
      JoinSplit(token, '_');
      assert parts == [parts[0], parts[1], parts[2]];
      JoinThree(parts[0], parts[1], parts[2]);
      PrefixesMatch(t, parts[0]);
      assert token == Base(t, parts[1]) + "_" + parts[2];
    }
    if WellFormed(crc, t, token) {
      var random: string :| |random| == 30 && '_' !in random
        && token == Base(t, random) + "_" + Encode(crc(Base(t, random)));
      var sum := Encode(crc(Base(t, random)));
      EncodeShape(crc(Base(t, random)));
      NoUnderscore(sum);
      JoinThree(Prefix(t), random, sum);
      SplitJoin([Prefix(t), random, sum], '_');
      PrefixesMatch(t, Prefix(t));
      assert Split(token, '_') == [Prefix(t), random, sum];
    }
  }

  /** Three parts of the right lengths, with an underscore between. */
  ghost predicate Shaped(token: string, prefix: string, random: string, sum: string) {
    && |prefix| == 3 && |random| == 30 && |sum| == 6 && '_' !in prefix && '_' !in random && '_' !in sum
    && token == prefix + "_" + random + "_" + sum
  }

  /** What is reported for a token of the right shape. */
  lemma ShapedIsDecided(crc: string -> Word, token: string, prefix: string, random: string, sum: string)
    requires Shaped(token, prefix, random, sum)
    ensures prefix == "pst" || prefix == "syr" ==> Check(crc, token) == Err(InvalidFormat)
    ensures prefix != "pst" && prefix != "syr" ==>
              var expected := Encode(crc(prefix + "_" + random));
              Check(crc, token) ==
                if prefix != "mat" && prefix != "mar" && prefix != "mpt" then Err(UnknownPrefix(prefix))
                else if sum != expected then Err(InvalidCrc(expected, sum))
                else Ok(if prefix == "mat" then AccessToken else if prefix == "mar" then RefreshToken else PersonalAccessToken)
  {
    hide Encode, Split, Join, LikelyMacaroon;
    GuardsAreRedundant(crc, token);
    SplitJoin([prefix, random, sum], '_');
    JoinThree(prefix, random, sum);
    assert Split(token, '_') == [prefix, random, sum];
    assert token[..4] == prefix + "_";
    assert Legacy(token) <==> prefix == "pst" || prefix == "syr" by { LegacyPrefix(token, prefix); }
    if MatchPrefix(prefix).Some? { PrefixesMatch(MatchPrefix(prefix).value, prefix); }
  }

  lemma LegacyPrefix(token: string, prefix: string)
    requires |token| >= 4 && token[..4] == prefix + "_" && |prefix| == 3
    ensures Legacy(token) <==> prefix == "pst" || prefix == "syr"
  {
    assert prefix == token[..3];
    assert "pst_"[..3] == "pst" && "syr_"[..3] == "syr";
    assert "pst" + "_" == "pst_" && "syr" + "_" == "syr_";
  }

  /** Everything of another shape is refused as such. */
  lemma UnshapedIsRefused(crc: string -> Word, token: string)
    ensures Check(crc, token) == Err(InvalidFormat) || exists prefix, random, sum :: Shaped(token, prefix, random, sum)
  {
    hide Encode, Join, LikelyMacaroon;
    var parts := Split(token, '_');
    if |parts| == 3 && |parts[0]| == 3 && |parts[1]| == 30 && |parts[2]| == 6 {
      JoinSplit(token, '_');
      assert parts == [parts[0], parts[1], parts[2]];
      JoinThree(parts[0], parts[1], parts[2]);
      assert Shaped(token, parts[0], parts[1], parts[2]);
    }
  }

  /** The macaroon test recognises exactly the encodings of bytes that have the word at the right place. */
  lemma MacaroonExactly(token: string)
    ensures LikelyMacaroon(token) <==> exists bytes :: token == Base64.Encode(bytes) && NamesLocation(bytes)
  {
    hide Base64.Decode, Base64.Encode;
    if LikelyMacaroon(token) {
      var bytes := Base64.Decode(token).value;
      Base64.DecodeEncode(token);
      forall i | 0 <= i < 9 ensures bytes[4 + i] == "location "[i] as int {
        assert bytes[4 + i] == bytes[4..13][i];
        LocationSpelt(i);
      }
    }
    if bytes :| token == Base64.Encode(bytes) && NamesLocation(bytes) {
      Base64.EncodeDecode(bytes);
      forall i | 0 <= i < 9 ensures bytes[4..13][i] == LOCATION[i] { LocationSpelt(i); }
      assert bytes[4..13] == LOCATION;
    }
  }

  lemma LocationSpelt(i: nat)
    requires i < 9
    ensures LOCATION[i] == "location "[i] as int
  {
    if i == 0 || i == 1 || i == 2 || i == 3 || i == 4 {} else if i == 5 || i == 6 || i == 7 || i == 8 {}
  }

  ghost predicate NamesLocation(bytes: seq<Base64.Octet>) {
    |bytes| >= 13 && forall i :: 0 <= i < 9 ==> bytes[4 + i] == "location "[i] as int
  }

  lemma NoUnderscore(s: string)
    requires forall i :: 0 <= i < |s| ==> s[i] in NUM
    ensures '_' !in s
  {
    assert '_' !in DECIMALS && '_' !in CAPITALS && '_' !in SMALLS;
  }

  /** Every generated token is accepted with its own type, whatever the random bytes. */
  lemma GeneratedIsAccepted(crc: string -> Word, t: TokenType, bytes: seq<Base64.Octet>)
    requires |bytes| == 30
    ensures Check(crc, Generate(crc, t, bytes)) == Ok(t)
  {
    CheckAcceptsExactly(crc, Generate(crc, t, bytes), t);
  }
}

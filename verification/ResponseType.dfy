/** OAuth 2.0 response types: sets of tokens, with `none` standing for the empty one. */
module ResponseType {
  import opened Wrappers
  import opened Text
  import opened Order
  import Scope

  datatype Token = Code | IdToken | AccessToken | Unknown(name: string)

  function Rank(t: Token): nat {
    match t case Code => 0 case IdToken => 1 case AccessToken => 2 case Unknown(_) => 3
  }

  predicate Before(a: Token, b: Token) {
    Rank(a) < Rank(b) || (a.Unknown? && b.Unknown? && Less(a.name, b.name))
  }

  lemma BeforeIsTotal()
    ensures StrictTotal(Before)
  {
    forall a: Token, b: Token
      ensures !Before(a, a)
      ensures Before(a, b) || a == b || Before(b, a)
    {
      if a.Unknown? { LessTrichotomy(a.name, a.name); }
      if a.Unknown? && b.Unknown? { LessTrichotomy(a.name, b.name); }
    }
    forall a: Token, b: Token, c: Token | Before(a, b) && Before(b, c) ensures Before(a, c) {
      if a.Unknown? { LessTransitive(a.name, b.name, c.name); }
    }
  }

  lemma BeforeIsStrict(a: Token, b: Token)
    requires Before(a, b)
    ensures a != b
  {
    if a == b && a.Unknown? { LessTrichotomy(a.name, a.name); }
  }

  function TokenText(t: Token): string {
    match t
    case Code => "code"
    case IdToken => "id_token"
    case AccessToken => "token"
    case Unknown(name) => name
  }

  function TokenOf(s: string): Token {
    if s == "code" then Code
    else if s == "id_token" then IdToken
    else if s == "token" then AccessToken
    else Unknown(s)
  }

  function Texts(tokens: seq<Token>): (r: seq<string>)
    ensures |r| == |tokens| && forall i :: 0 <= i < |tokens| ==> r[i] == TokenText(tokens[i])
  {
    seq(|tokens|, i requires 0 <= i < |tokens| => TokenText(tokens[i]))
  }

  function Tokens(words: seq<string>): (r: seq<Token>)
    ensures |r| == |words| && forall i :: 0 <= i < |words| ==> r[i] == TokenOf(words[i])
  {
    seq(|words|, i requires 0 <= i < |words| => TokenOf(words[i]))
  }

  // White space: trimming takes all of Unicode's, splitting only ASCII's.

  predicate IsAsciiSpace(c: char) {
    c == '\t' || c == '\n' || c == '\U{0C}' || c == '\r' || c == ' '
  }

  predicate IsSpace(c: char) {
    || '\U{09}' <= c <= '\U{0D}' || c == ' ' || c == '\U{85}' || c == '\U{A0}' || c == '\U{1680}'
    || '\U{2000}' <= c <= '\U{200A}' || c == '\U{2028}' || c == '\U{2029}' || c == '\U{202F}'
    || c == '\U{205F}' || c == '\U{3000}'
  }

  /** The code points that Unicode counts as white space, one by one. */
  const WHITE_SPACE: set<int> := {
    0x09, 0x0A, 0x0B, 0x0C, 0x0D, 0x20, 0x85, 0xA0, 0x1680,
    0x2000, 0x2001, 0x2002, 0x2003, 0x2004, 0x2005, 0x2006, 0x2007, 0x2008, 0x2009, 0x200A,
    0x2028, 0x2029, 0x202F, 0x205F, 0x3000}

  lemma SpaceExactly(c: char)
    ensures IsSpace(c) <==> c as int in WHITE_SPACE
    ensures IsAsciiSpace(c) <==> c as int in {0x09, 0x0A, 0x0C, 0x0D, 0x20}
  {
  }

  function TrimStart(s: string): string {
    if s != "" && IsSpace(s[0]) then TrimStart(s[1..]) else s
  }

  function TrimEnd(s: string): string {
    if s != "" && IsSpace(s[|s| - 1]) then TrimEnd(s[..|s| - 1]) else s
  }

  function Trim(s: string): string {
    TrimEnd(TrimStart(s))
  }

  /** The maximal runs free of ASCII white space. */
  function Words(s: string): (words: seq<string>)
    ensures s != "" && !IsAsciiSpace(s[|s| - 1]) ==> words != []
  {
    if s == "" then [] else
    var last := |s| - 1;
    var before := Words(s[..last]);
    if IsAsciiSpace(s[last]) then before
    else if last == 0 || IsAsciiSpace(s[last - 1]) then before + [[s[last]]]
    else before[..|before| - 1] + [before[|before| - 1] + [s[last]]]
  }

  predicate IsWord(w: string) {
    w != "" && forall i :: 0 <= i < |w| ==> !IsAsciiSpace(w[i])
  }

  predicate AllWords(words: seq<string>) {
    forall i :: 0 <= i < |words| ==> IsWord(words[i])
  }

  lemma {:induction false} WordsAreWords(s: string)
    ensures AllWords(Words(s))
  {
    if s != "" { WordsAreWords(s[..|s| - 1]); }
  }

  lemma {:induction false} WordsPush(s: string, w: string)
    requires IsWord(w) && (s == "" || IsAsciiSpace(s[|s| - 1]))
    ensures Words(s + w) == Words(s) + [w]
  {
    var last := |w| - 1;
    assert (s + w)[..|s| + last] == s + w[..last];
    assert w == w[..last] + [w[last]];
    if last > 0 {
      WordsPush(s, w[..last]);
    } else {
      assert s + w[..last] == s;
      assert w == [w[last]];
    }
  }

  lemma {:induction false} WordsJoin(words: seq<string>)
    requires |words| > 0 && AllWords(words)
    ensures Words(Join(words, ' ')) == words
  {
    var last := |words| - 1;
    assert words == words[..last] + [words[last]];
    if last == 0 {
      WordsPush("", words[0]);
      assert "" + words[0] == words[0];
    } else {
      WordsJoin(words[..last]);
      Scope.JoinPush(words[..last], words[last], ' ');
      var s := Join(words[..last], ' ') + " ";
      assert s[..|s| - 1] == Join(words[..last], ' ');
      WordsPush(s, words[last]);
    }
  }

  // Parsing and showing

  function Parse(s: string): Option<seq<Token>> {
    var trimmed := Trim(s);
    if trimmed == "" then None
    else if trimmed == "none" then Some([])
    else Some(Collect(Tokens(Words(trimmed)), Before))
  }

  function Shown(tokens: seq<Token>): string {
    if tokens == [] then "none" else Join(Texts(tokens), ' ')
  }

  method Show(tokens: seq<Token>) returns (text: string)
    ensures text == Shown(tokens)
  {
    if tokens == [] { return "none"; }
    text := "";
    var first := true;
    for i := 0 to |tokens|
      invariant first <==> i == 0
      invariant text == if i == 0 then "" else Shown(tokens[..i])
    {
      assert Texts(tokens[..i + 1]) == Texts(tokens[..i]) + [TokenText(tokens[i])];
      if !first {
        Scope.JoinPush(Texts(tokens[..i]), TokenText(tokens[i]), ' ');
        text := text + " ";
      }
      first := false;
      text := text + TokenText(tokens[i]);
    }
    assert tokens[..|tokens|] == tokens;
  }

  /** The tokens a string means. */
  ghost predicate Means(s: string, token: Token) {
    Trim(s) != "none" && token in Tokens(Words(Trim(s)))
  }

  /** Only white space is refused; order, repetition and spacing do not matter. */
  lemma ParsedTokens(s: string)
    ensures Parse(s).None? <==> Trim(s) == ""
    ensures Parse(s).Some? ==> Increasing(Parse(s).value, Before)
    ensures Parse(s).Some? ==> forall token :: token in Parse(s).value <==> Means(s, token)
  {
    BeforeIsTotal();
    CollectIsSet(Tokens(Words(Trim(s))), Before);
  }

  lemma SameResponseType(a: string, b: string)
    requires Parse(a).Some? && Parse(b).Some?
    ensures Parse(a) == Parse(b) <==> forall token :: Means(a, token) <==> Means(b, token)
  {
    BeforeIsTotal();
    ParsedTokens(a);
    ParsedTokens(b);
    if forall token :: Means(a, token) <==> Means(b, token) {
      IncreasingUnique(Parse(a).value, Parse(b).value, Before);
    }
  }

  // The round trip, exactly

  /** Room the words take: each with the separator before or after it. */
  ghost function Room(words: seq<string>): nat {
    if words == [] then 0 else Room(words[..|words| - 1]) + |words[|words| - 1]| + 1
  }

  lemma {:induction false} RoomAppend(a: seq<string>, b: seq<string>)
    ensures Room(a + b) == Room(a) + Room(b)
  {
    if b == [] {
      assert a + b == a;
    } else {
      assert (a + b)[..|a + b| - 1] == a + b[..|b| - 1];
      RoomAppend(a, b[..|b| - 1]);
    }
  }

  lemma {:induction false} JoinRoom(words: seq<string>)
    requires |words| > 0
    ensures |Join(words, ' ')| + 1 == Room(words)
  {
    var last := |words| - 1;
    if last > 0 {
      JoinRoom(words[..last]);
      assert words == words[..last] + [words[last]];
      Scope.JoinPush(words[..last], words[last], ' ');
    }
  }

  /** Words fit in the text they come from. */
  lemma {:induction false} WordsRoom(s: string)
    ensures Room(Words(s)) <= |s| + (if s == "" || IsAsciiSpace(s[|s| - 1]) then 0 else 1)
  {
    if s != "" {
      var last := |s| - 1;
      WordsRoom(s[..last]);
      var before := Words(s[..last]);
      if !IsAsciiSpace(s[last]) && last > 0 && !IsAsciiSpace(s[last - 1]) {
        assert Words(s)[..|before| - 1] == before[..|before| - 1];
      } else if !IsAsciiSpace(s[last]) {
        assert Words(s)[..|before|] == before;
      }
    }
  }

  /** Distinct words need no more room than any list that has them all. */
  lemma {:induction false} DistinctRoom(distinct: seq<string>, words: seq<string>)
    requires forall i, j :: 0 <= i < j < |distinct| ==> distinct[i] != distinct[j]
    requires forall w :: w in distinct ==> w in words
    ensures Room(distinct) <= Room(words)
  {
    if distinct != [] {
      var last := |distinct| - 1;
      var w := distinct[last];
      assert w in distinct;
      var j :| 0 <= j < |words| && words[j] == w;
      var rest := words[..j] + words[j + 1..];
      forall x | x in distinct[..last] ensures x in rest {
        var i :| 0 <= i < last && distinct[i] == x;
        assert x in distinct && x != w;
        assert words == words[..j] + [w] + words[j + 1..];
      }
      DistinctRoom(distinct[..last], rest);
      RoomAppend(words[..j], words[j + 1..]);
      assert words == words[..j] + ([w] + words[j + 1..]);
      RoomAppend(words[..j], [w] + words[j + 1..]);
      RoomAppend([w], words[j + 1..]);
      assert Room([w]) == |w| + 1 by { assert [w][..0] == []; }
    }
  }

  lemma {:induction false} TrimStartShrinks(s: string)
    ensures |TrimStart(s)| <= |s| && (TrimStart(s) == s || |TrimStart(s)| < |s|)
  {
    if s != "" { TrimStartShrinks(s[1..]); }
  }

  lemma {:induction false} TrimEndShrinks(s: string)
    ensures |TrimEnd(s)| <= |s| && (TrimEnd(s) == s || |TrimEnd(s)| < |s|)
  {
    if s != "" { TrimEndShrinks(s[..|s| - 1]); }
  }

  /** A token that its own text gives back. */
  predicate Plain(t: Token) {
    t.Unknown? ==> IsWord(t.name) && t.name != "code" && t.name != "id_token" && t.name != "token"
  }

  /**
   * Showing and parsing gives a set back exactly when it is empty, or its tokens are plain, no
   * outer token begins or ends in other white space, and it is not the lone unknown token `none`.
   */
  ghost predicate Readable(tokens: seq<Token>) {
    tokens == [] ||
    ((forall i :: 0 <= i < |tokens| ==> Plain(tokens[i]))
     && !IsSpace(TokenText(tokens[0])[0])
     && (var last := TokenText(tokens[|tokens| - 1]); !IsSpace(last[|last| - 1]))
     && tokens != [Unknown("none")])
  }

  lemma TextIsWord(t: Token)
    requires Plain(t)
    ensures IsWord(TokenText(t)) && TokenOf(TokenText(t)) == t
  {
  }

  lemma {:induction false} JoinEnds(words: seq<string>)
    requires |words| > 0 && AllWords(words)
    ensures var s := Join(words, ' ');
            s != "" && s[0] == words[0][0] && s[|s| - 1] == words[|words| - 1][|words[|words| - 1]| - 1]
  {
    if |words| > 1 { JoinEnds(words[1..]); }
  }

  lemma TrimKeeps(s: string)
    ensures s != "" ==> (Trim(s) == s <==> !IsSpace(s[0]) && !IsSpace(s[|s| - 1]))
  {
    if s != "" {
      TrimStartShrinks(s);
      TrimEndShrinks(TrimStart(s));
      TrimStartShrinks(s[1..]);
      TrimEndShrinks(s[..|s| - 1]);
    }
  }

  /** Only the one word reads `none`. */
  lemma NoneIsOneWord(words: seq<string>)
    requires |words| > 0 && AllWords(words)
    ensures Join(words, ' ') == "none" ==> words == ["none"]
  {
    hide Words;
    WordsJoin(words);
    WordsJoin(["none"]);
    assert Join(["none"], ' ') == "none";
  }

  lemma {:induction false} CollectIncreasing(tokens: seq<Token>)
    requires Increasing(tokens, Before)
    ensures Collect(tokens, Before) == tokens
  {
    BeforeIsTotal();
    CollectIsSet(tokens, Before);
    IncreasingUnique(Collect(tokens, Before), tokens, Before);
  }

  lemma ParseJoined(words: seq<string>)
    requires |words| > 0 && AllWords(words) && words != ["none"]
    requires var last := words[|words| - 1]; !IsSpace(words[0][0]) && !IsSpace(last[|last| - 1])
    ensures Parse(Join(words, ' ')) == Some(Collect(Tokens(words), Before))
  {
    JoinEnds(words);
    TrimKeeps(Join(words, ' '));
    WordsJoin(words);
    NoneIsOneWord(words);
  }

  lemma ReadableRoundTrip(tokens: seq<Token>)
    requires Increasing(tokens, Before) && Readable(tokens)
    ensures Parse(Shown(tokens)) == Some(tokens)
  {
    if tokens == [] {
      TrimKeeps("none");
    } else {
      var texts := Texts(tokens);
      forall i | 0 <= i < |tokens| ensures IsWord(texts[i]) && TokenOf(texts[i]) == tokens[i] {
        TextIsWord(tokens[i]);
      }
      assert Tokens(texts) == tokens;
      assert Tokens(["none"]) == [Unknown("none")];
      ParseJoined(texts);
      CollectIncreasing(tokens);
    }
  }

  /** Every token that parsing yields is plain and was written as its own text. */
  lemma ParsedIsPlain(s: string, token: Token)
    requires Parse(s).Some? && token in Parse(s).value
    ensures Plain(token) && TokenText(token) in Words(Trim(s))
  {
    ParsedTokens(s);
    assert Means(s, token);
    var words := Words(Trim(s));
    WordsAreWords(Trim(s));
    var j :| 0 <= j < |words| && Tokens(words)[j] == token;
    assert IsWord(words[j]) && TokenOf(words[j]) == token;
  }

  /** Trimming takes nothing from a text whose distinct words all survive it. */
  lemma NothingTrimmed(words: seq<string>)
    requires |words| > 0 && forall i, j :: 0 <= i < j < |words| ==> words[i] != words[j]
    requires forall w :: w in words ==> w in Words(Trim(Join(words, ' ')))
    ensures Trim(Join(words, ' ')) == Join(words, ' ')
  {
    var s := Join(words, ' ');
    JoinRoom(words);
    DistinctRoom(words, Words(Trim(s)));
    WordsRoom(Trim(s));
    TrimStartShrinks(s);
    TrimEndShrinks(TrimStart(s));
  }

  lemma RoundTripTexts(tokens: seq<Token>)
    requires Increasing(tokens, Before) && tokens != [] && Parse(Shown(tokens)) == Some(tokens)
    ensures var texts := Texts(tokens);
            && AllWords(texts) && (forall i :: 0 <= i < |tokens| ==> Plain(tokens[i]))
            && (forall i, j :: 0 <= i < j < |texts| ==> texts[i] != texts[j])
            && (forall w :: w in texts ==> w in Words(Trim(Join(texts, ' '))))
  {
    var texts := Texts(tokens);
    forall i | 0 <= i < |tokens|
      ensures Plain(tokens[i]) && IsWord(texts[i]) && TokenOf(texts[i]) == tokens[i]
      ensures texts[i] in Words(Trim(Shown(tokens)))
    {
      assert tokens[i] in tokens;
      ParsedIsPlain(Shown(tokens), tokens[i]);
      TextIsWord(tokens[i]);
    }
    forall i, j | 0 <= i < j < |texts| ensures texts[i] != texts[j] {
      BeforeIsStrict(tokens[i], tokens[j]);
    }
  }

  lemma RoundTripIsReadable(tokens: seq<Token>)
    requires Increasing(tokens, Before) && Parse(Shown(tokens)) == Some(tokens)
    ensures Readable(tokens)
  {
    if tokens != [] {
      var texts := Texts(tokens);
      RoundTripTexts(tokens);
      NothingTrimmed(texts);
      JoinEnds(texts);
      TrimKeeps(Join(texts, ' '));
      assert Texts([Unknown("none")]) == ["none"];
      TrimKeeps("none");
    }
  }

  lemma RoundTripExactly(tokens: seq<Token>)
    requires Increasing(tokens, Before)
    ensures Parse(Shown(tokens)) == Some(tokens) <==> Readable(tokens)
  {
    if Readable(tokens) { ReadableRoundTrip(tokens); }
    if Parse(Shown(tokens)) == Some(tokens) { RoundTripIsReadable(tokens); }
  }

  // The registered response types

  datatype Registered =
    | RCode | RIdToken | RToken | RCodeIdToken | RCodeToken | RIdTokenToken | RCodeIdTokenToken | RNone

  function Listed(r: Registered): seq<Token> {
    match r
    case RCode => [Code]
    case RIdToken => [IdToken]
    case RToken => [AccessToken]
    case RCodeIdToken => [Code, IdToken]
    case RCodeToken => [Code, AccessToken]
    case RIdTokenToken => [IdToken, AccessToken]
    case RCodeIdTokenToken => [Code, IdToken, AccessToken]
    case RNone => []
  }

  function FromRegistered(r: Registered): seq<Token> {
    Collect(Listed(r), Before)
  }

  function ToRegistered(tokens: seq<Token>): Option<Registered> {
    if exists t :: t in tokens && t.Unknown? then None
    else if tokens == [Code] then Some(RCode)
    else if tokens == [IdToken] then Some(RIdToken)
    else if tokens == [AccessToken] then Some(RToken)
    else if tokens == [Code, IdToken] then Some(RCodeIdToken)
    else if tokens == [Code, AccessToken] then Some(RCodeToken)
    else if tokens == [IdToken, AccessToken] then Some(RIdTokenToken)
    else if tokens == [Code, IdToken, AccessToken] then Some(RCodeIdTokenToken)
    else Some(RNone)
  }

  lemma ListedIsKnown(r: Registered)
    ensures Increasing(Listed(r), Before) && forall i :: 0 <= i < |Listed(r)| ==> !Listed(r)[i].Unknown?
  {
  }

  lemma ToListed(r: Registered)
    ensures ToRegistered(Listed(r)) == Some(r)
  {
    ListedIsKnown(r);
    var tokens := Listed(r);
    match r
    case RCode => assert tokens[0] == Code && |tokens| == 1;
    case RIdToken => assert tokens[0] == IdToken && |tokens| == 1;
    case RToken => assert tokens[0] == AccessToken && |tokens| == 1;
    case RCodeIdToken => assert tokens[0] == Code && tokens[1] == IdToken && |tokens| == 2;
    case RCodeToken => assert tokens[0] == Code && tokens[1] == AccessToken && |tokens| == 2;
    case RIdTokenToken => assert tokens[0] == IdToken && tokens[1] == AccessToken && |tokens| == 2;
    case RCodeIdTokenToken => assert |tokens| == 3;
    case RNone =>
  }

  /** Every registered value converts there and back, as a set and as text. */
  lemma RegisteredRoundTrip(r: Registered)
    ensures ToRegistered(FromRegistered(r)) == Some(r)
    ensures Parse(Shown(FromRegistered(r))) == Some(FromRegistered(r))
  {
    ListedIsKnown(r);
    CollectIncreasing(Listed(r));
    ToListed(r);
    KnownIsReadable(Listed(r));
  }

  lemma KnownIsReadable(tokens: seq<Token>)
    requires Increasing(tokens, Before) && forall i :: 0 <= i < |tokens| ==> !tokens[i].Unknown?
    ensures Parse(Shown(tokens)) == Some(tokens)
  {
    ReadableRoundTrip(tokens);
  }

  lemma {:induction false} RankAtLeast(tokens: seq<Token>, i: nat)
    requires Increasing(tokens, Before) && i < |tokens| && forall k :: 0 <= k < |tokens| ==> !tokens[k].Unknown?
    ensures Rank(tokens[i]) >= i
  {
    if i > 0 {
      RankAtLeast(tokens, i - 1);
      assert Before(tokens[i - 1], tokens[i]);
    }
  }

  /** Known tokens in order are one of the eight listings. */
  lemma KnownIsListed(tokens: seq<Token>)
    requires Increasing(tokens, Before) && forall i :: 0 <= i < |tokens| ==> !tokens[i].Unknown?
    ensures ToRegistered(tokens).Some? && Listed(ToRegistered(tokens).value) == tokens
  {
    forall i | 0 <= i < |tokens| ensures i <= Rank(tokens[i]) <= 2 {
      RankAtLeast(tokens, i);
    }
    if |tokens| == 1 {
      assert tokens == [tokens[0]];
    } else if |tokens| == 2 {
      assert Before(tokens[0], tokens[1]);
      assert tokens == [tokens[0], tokens[1]];
    } else if |tokens| >= 3 {
      assert |tokens| - 1 <= Rank(tokens[|tokens| - 1]);
      assert Before(tokens[0], tokens[1]) && Before(tokens[1], tokens[2]);
      assert tokens == [tokens[0], tokens[1], tokens[2]];
    }
  }

  /** The catch-all of the conversion is only ever reached by the empty set. */
  lemma ToRegisteredIsExact(tokens: seq<Token>)
    requires Increasing(tokens, Before)
    ensures ToRegistered(tokens).None? <==> exists t :: t in tokens && t.Unknown?
    ensures ToRegistered(tokens).Some? ==> FromRegistered(ToRegistered(tokens).value) == tokens
  {
    hide Listed, Increasing;
    if ToRegistered(tokens).Some? {
      assert forall i :: 0 <= i < |tokens| ==> tokens[i] in tokens;
      KnownIsListed(tokens);
      CollectIncreasing(tokens);
    }
  }
}

/** OAuth 2.0 scopes: sets of tokens, kept in order, written with single spaces. */
module Scope {
  import opened Wrappers
  import opened Text
  import opened Order

  predicate IsNqchar(c: char) {
    c == '\U{21}' || '\U{23}' <= c <= '\U{5B}' || '\U{5D}' <= c <= '\U{7E}'
  }

  /** Allowed are the visible ASCII characters but the double quote and the backslash. */
  lemma NqcharExactly(c: char)
    ensures IsNqchar(c) <==> ' ' < c <= '~' && c != '"' && c != '\\'
  {
  }

  predicate IsToken(s: string) {
    s != "" && forall i :: 0 <= i < |s| ==> IsNqchar(s[i])
  }

  predicate AllTokens(parts: seq<string>) {
    forall i :: 0 <= i < |parts| ==> IsToken(parts[i])
  }

  function Parse(s: string): Option<seq<string>> {
    var parts := Split(s, ' ');
    if AllTokens(parts) then Some(Collect(parts, Less)) else None
  }

  /** The text of a scope, from its tokens in order. */
  function Shown(tokens: seq<string>): string {
    if tokens == [] then "" else Join(tokens, ' ')
  }

  predicate Contains(tokens: seq<string>, token: string) {
    IsToken(token) && token in tokens
  }

  lemma {:induction false} JoinPush(parts: seq<string>, last: string, sep: char)
    requires |parts| > 0
    ensures Join(parts + [last], sep) == Join(parts, sep) + [sep] + last
  {
    if |parts| > 1 {
      JoinPush(parts[1..], last, sep);
      assert (parts + [last])[1..] == parts[1..] + [last];
    }
  }

  method Show(tokens: seq<string>) returns (text: string)
    ensures text == Shown(tokens)
  {
    text := "";
    var first := true;
    for i := 0 to |tokens|
      invariant first <==> i == 0
      invariant text == Shown(tokens[..i])
    {
      assert tokens[..i + 1] == tokens[..i] + [tokens[i]];
      if first {
        first := false;
      } else {
        JoinPush(tokens[..i], tokens[i], ' ');
        text := text + " ";
      }
      text := text + tokens[i];
    }
    assert tokens[..|tokens|] == tokens;
  }

  lemma TokensAreFree(parts: seq<string>)
    requires AllTokens(parts)
    ensures Free(parts, ' ')
  {
  }

  /** One or more tokens separated by single spaces, and nothing else. */
  ghost predicate WellFormed(s: string, parts: seq<string>) {
    |parts| > 0 && AllTokens(parts) && s == Join(parts, ' ')
  }

  lemma ParseAcceptsExactly(s: string)
    ensures Parse(s).Some? <==> exists parts :: WellFormed(s, parts)
  {
    JoinSplit(s, ' ');
    if Parse(s).Some? {
      assert WellFormed(s, Split(s, ' '));
    }
    if parts :| WellFormed(s, parts) {
      TokensAreFree(parts);
      SplitJoin(parts, ' ');
    }
  }

  /** What was parsed is the set of the tokens written. */
  lemma ParsedTokens(s: string, parts: seq<string>)
    requires WellFormed(s, parts)
    ensures Parse(s).Some? && Increasing(Parse(s).value, Less)
    ensures forall token :: token in Parse(s).value <==> token in parts
    ensures forall token :: Contains(Parse(s).value, token) <==> token in parts
  {
    TokensAreFree(parts);
    SplitJoin(parts, ' ');
    LessIsTotal();
    CollectIsSet(parts, Less);
  }

  /** Parsing undoes showing exactly for the scopes that have a token and only proper ones. */
  lemma ShowParse(tokens: seq<string>)
    requires Increasing(tokens, Less)
    ensures Parse(Shown(tokens)) == Some(tokens) <==> tokens != [] && AllTokens(tokens)
  {
    LessIsTotal();
    var text := Shown(tokens);
    if tokens != [] && AllTokens(tokens) {
      assert WellFormed(text, tokens);
      ParsedTokens(text, tokens);
      IncreasingUnique(Parse(text).value, tokens, Less);
    }
    if Parse(text) == Some(tokens) {
      var parts := Split(text, ' ');
      CollectIsSet(parts, Less);
      assert parts[0] in tokens;
      forall i | 0 <= i < |tokens| ensures IsToken(tokens[i]) {
        assert tokens[i] in parts;
      }
    }
  }

  /** Order and repetition do not matter, and nothing else is lost. */
  lemma SameScope(a: string, b: string, left: seq<string>, right: seq<string>)
    requires WellFormed(a, left) && WellFormed(b, right)
    ensures Parse(a).Some? && Parse(b).Some?
    ensures Parse(a) == Parse(b) <==> forall token :: token in left <==> token in right
    ensures Shown(Parse(a).value) == Shown(Parse(b).value) <==> Parse(a) == Parse(b)
  {
    LessIsTotal();
    ParsedTokens(a, left);
    ParsedTokens(b, right);
    if forall token :: token in left <==> token in right {
      IncreasingUnique(Parse(a).value, Parse(b).value, Less);
    }
    assert left[0] in Parse(a).value && right[0] in Parse(b).value;
    forall i | 0 <= i < |Parse(a).value| ensures IsToken(Parse(a).value[i]) {
      assert Parse(a).value[i] in left;
    }
    forall i | 0 <= i < |Parse(b).value| ensures IsToken(Parse(b).value[i]) {
      assert Parse(b).value[i] in right;
    }
    ShowParse(Parse(a).value);
    ShowParse(Parse(b).value);
  }

  /** The empty scope can be built but its text cannot be read back. */
  lemma EmptyScopeIsUnreadable()
    ensures Shown([]) == "" && Parse("").None?
  {
    assert Split("", ' ') == [""];
    assert !IsToken(Split("", ' ')[0]);
  }

  /** A scope that is built up token by token; tokens known at compile time are not checked. */
  class TokenSet {
    var tokens: seq<string>

    ghost predicate Valid()
      reads this
    {
      Increasing(tokens, Less)
    }

    constructor (initial: seq<string>)
      ensures Valid() && forall token :: token in tokens <==> token in initial
    {
      tokens := Collect(initial, Less);
      LessIsTotal();
      CollectIsSet(initial, Less);
    }

    method Insert(token: string) returns (added: bool)
      requires Valid()
      modifies this
      ensures Valid()
      ensures added <==> token !in old(tokens)
      ensures forall other :: other in tokens <==> other == token || other in old(tokens)
    {
      added := token !in tokens;
      LessIsTotal();
      InsertKeeps(tokens, token, Less);
      tokens := Order.Insert(tokens, token, Less);
    }
  }
}

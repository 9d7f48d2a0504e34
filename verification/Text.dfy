/** Splitting at a separator and joining again. */
module Text {

  function Split(s: string, sep: char): (parts: seq<string>)
    ensures |parts| > 0
  {
    if s == "" then [""] else
    var rest := Split(s[1..], sep);
    if s[0] == sep then [""] + rest else [[s[0]] + rest[0]] + rest[1..]
  }

  function Join(parts: seq<string>, sep: char): string
    requires |parts| > 0
  {
    if |parts| == 1 then parts[0] else parts[0] + [sep] + Join(parts[1..], sep)
  }

  predicate Free(parts: seq<string>, sep: char) {
    forall i :: 0 <= i < |parts| ==> sep !in parts[i]
  }

  lemma {:induction false} JoinSplit(s: string, sep: char)
    ensures Free(Split(s, sep), sep) && Join(Split(s, sep), sep) == s
  {
    if s != "" {
      JoinSplit(s[1..], sep);
      var rest := Split(s[1..], sep);
      if s[0] == sep {
        var parts := [""] + rest;
        assert parts[1..] == rest;
      } else {
        var parts := [[s[0]] + rest[0]] + rest[1..];
        assert parts[1..] == rest[1..];
        assert Free(rest[1..], sep);
      }
    }
  }

  lemma {:induction false} SplitJoin(parts: seq<string>, sep: char)
    requires |parts| > 0 && Free(parts, sep)
    ensures Split(Join(parts, sep), sep) == parts
    decreases |parts|, |parts[0]|
  {
    if parts[0] == "" {
      if |parts| > 1 {
        SplitJoin(parts[1..], sep);
        assert Join(parts, sep) == [sep] + Join(parts[1..], sep);
      }
    } else {
      var fewer := [parts[0][1..]] + parts[1..];
      SplitJoin(fewer, sep);
      assert fewer[1..] == parts[1..];
      assert Join(parts, sep) == [parts[0][0]] + Join(fewer, sep);
      assert Join(parts, sep)[1..] == Join(fewer, sep);
      assert [parts[0][0]] + fewer[0] == parts[0];
      assert parts == [parts[0]] + parts[1..];
    }
  }
}

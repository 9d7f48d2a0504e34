/** Building a Cedar request context from JSON, and reading violations off the decision. */
module PolicyContext {
  import opened Wrappers

  datatype Json =
    | Null
    | Bool(flag: bool)
    | Number(value: int)
    | Text(text: string)
    | Array(items: seq<Json>)
    | Object(members: map<string, Json>)

  function Stripped(v: Json): Json {
    match v
    case Array(items) => Array(seq(|items|, i requires 0 <= i < |items| => Stripped(items[i])))
    case Object(members) => Object(map k | k in members && !members[k].Null? :: Stripped(members[k]))
    case _ => v
  }

  /** Members are dropped first, then the values that are left are stripped in turn. */
  method StripNulls(v: Json) returns (r: Json)
    ensures r == Stripped(v)
    decreases v
  {
    match v
    case Object(members) =>
      var kept := map k | k in members && !members[k].Null? :: members[k];
      var todo := kept.Keys;
      var done := kept;
      while todo != {}
        invariant todo <= kept.Keys && done.Keys == kept.Keys
        invariant forall k :: k in kept ==> done[k] == if k in todo then kept[k] else Stripped(members[k])
        decreases |todo|
      {
        var k :| k in todo;
        var value := StripNulls(members[k]);
        done := done[k := value];
        todo := todo - {k};
      }
      assert done == map k | k in members && !members[k].Null? :: Stripped(members[k]);
      r := Object(done);
    case Array(items) =>
      var done := items;
      for i := 0 to |items|
        invariant |done| == |items|
        invariant forall j :: 0 <= j < |items| ==> done[j] == if j < i then Stripped(items[j]) else items[j]
      {
        var item := StripNulls(items[i]);
        done := done[i := item];
      }
      r := Array(done);
    case _ => r := v;
  }

  // Paths into a value

  datatype Selector = Key(name: string) | Index(n: nat)

  function Child(v: Json, s: Selector): Option<Json> {
    if s.Key? && v.Object? && s.name in v.members then Some(v.members[s.name])
    else if s.Index? && v.Array? && s.n < |v.items| then Some(v.items[s.n])
    else None
  }

  function At(v: Json, path: seq<Selector>): Option<Json> {
    if path == [] then Some(v) else
    var parent := At(v, path[..|path| - 1]);
    if parent.None? then None else Child(parent.value, path[|path| - 1])
  }

  /** A null that is the value of an object member. */
  predicate NullMember(v: Json, path: seq<Selector>) {
    path != [] && path[|path| - 1].Key? && At(v, path) == Some(Null)
  }

  /** Every path leads where it led before, stripped, except that null members are gone. */
  lemma {:induction false} StrippedAt(v: Json, path: seq<Selector>)
    ensures At(Stripped(v), path)
         == if At(v, path).None? || NullMember(v, path) then None else Some(Stripped(At(v, path).value))
  {
    if path != [] {
      var last := |path| - 1;
      StrippedAt(v, path[..last]);
    }
  }

  /** No object has a null member any more, at any depth; arrays keep their length. */
  lemma NoNullMembers(v: Json, path: seq<Selector>)
    ensures !NullMember(Stripped(v), path)
    ensures At(v, path).Some? && At(v, path).value.Array? ==>
              && At(Stripped(v), path).Some? && At(Stripped(v), path).value.Array?
              && |At(Stripped(v), path).value.items| == |At(v, path).value.items|
  {
    StrippedAt(v, path);
  }

  /** What Cedar can take: no null anywhere. */
  ghost predicate NullFree(v: Json) {
    forall path :: At(v, path) != Some(Null)
  }

  /** Stripping makes a value acceptable exactly when all its nulls are members of objects. */
  lemma StrippingSuffices(v: Json)
    ensures NullFree(Stripped(v)) <==> forall path :: At(v, path) == Some(Null) ==> NullMember(v, path)
  {
    forall path ensures At(Stripped(v), path) == Some(Null) <==> At(v, path) == Some(Null) && !NullMember(v, path) {
      StrippedAt(v, path);
    }
  }

  lemma {:induction false} StrippedTwice(v: Json)
    ensures Stripped(Stripped(v)) == Stripped(v)
    decreases v
  {
    match v
    case Array(items) =>
      forall i | 0 <= i < |items| ensures Stripped(Stripped(items[i])) == Stripped(items[i]) {
        StrippedTwice(items[i]);
      }
    case Object(members) =>
      forall k | k in members ensures Stripped(Stripped(members[k])) == Stripped(members[k]) {
        StrippedTwice(members[k]);
      }
    case _ =>
  }

  // The context of a request

  function WithTime(v: Json, hour: nat, day: string, timestamp: int): Json {
    if v.Object? then
      Object(v.members["current_hour" := Number(hour)]["current_day_of_week" := Text(day)]["current_timestamp" := Number(timestamp)])
    else v
  }

  method BuildContext(input: Json, hour: nat, day: string, timestamp: int) returns (context: Json)
    ensures context == Stripped(WithTime(input, hour, day, timestamp))
  {
    context := StripNulls(WithTime(input, hour, day, timestamp));
  }

  /** The clock is always there and always the server's; all else is the input's, nulls aside. */
  lemma ContextMembers(input: Json, hour: nat, day: string, timestamp: int, name: string)
    requires input.Object?
    ensures At(Stripped(WithTime(input, hour, day, timestamp)), [Key(name)]) ==
            if name == "current_hour" then Some(Number(hour))
            else if name == "current_day_of_week" then Some(Text(day))
            else if name == "current_timestamp" then Some(Number(timestamp))
            else if name !in input.members || input.members[name].Null? then None
            else Some(Stripped(input.members[name]))
  {
    var v := WithTime(input, hour, day, timestamp);
    StrippedAt(v, [Key(name)]);
    assert [Key(name)][..0] == [];
  }

  // Decisions

  datatype Decision = Allow | Deny

  datatype Violation = ByPolicy(reason: string) | ByError(error: string) | Unexplained

  method Violations(decision: Decision, reasons: seq<string>, errors: seq<string>) returns (r: seq<Violation>)
    ensures r == [] <==> decision.Allow?
    ensures decision.Deny? && reasons + errors != [] ==>
              && |r| == |reasons| + |errors|
              && (forall i :: 0 <= i < |reasons| ==> r[i] == ByPolicy(reasons[i]))
              && (forall i :: 0 <= i < |errors| ==> r[|reasons| + i] == ByError(errors[i]))
    ensures decision.Deny? && reasons + errors == [] ==> r == [Unexplained]
  {
    if decision.Allow? { return []; }
    r := [];
    for i := 0 to |reasons|
      invariant |r| == i && forall j :: 0 <= j < i ==> r[j] == ByPolicy(reasons[j])
    {
      r := r + [ByPolicy(reasons[i])];
    }
    for i := 0 to |errors|
      invariant |r| == |reasons| + i
      invariant forall j :: 0 <= j < |reasons| ==> r[j] == ByPolicy(reasons[j])
      invariant forall j :: 0 <= j < i ==> r[|reasons| + j] == ByError(errors[j])
    {
      r := r + [ByError(errors[i])];
    }
    if r == [] { r := [Unexplained]; }
  }
}

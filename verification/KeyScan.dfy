/** The scanner: it walks a template and records the key of every call to the translation function. */
module KeyScan {
  import opened Wrappers
  import opened Templates
  import opened Order

  datatype Kind = Message | Plural

  datatype Location = Location(file: string, span: Span)

  datatype Key = Key(kind: Kind, name: string, location: Option<Location>)

  predicate Translates(c: Call, func: string) {
    c.callee == Var(func)
  }

  /** The text of the first argument, if it is positional and a string literal. */
  function KeyText(c: Call): Option<string> {
    if |c.args| > 0 && c.args[0].Pos? && c.args[0].expr.Const? && c.args[0].expr.value.Str?
    then Some(c.args[0].expr.value.text) else None
  }

  predicate IsCount(arg: CallArg) {
    arg.Kwarg? && arg.name == "count"
  }

  function KeyOf(c: Call, name: string, file: Option<string>): Key {
    var kind := if exists a :: a in c.args && IsCount(a) then Plural else Message;
    Key(kind, name, if file.Some? then Some(Location(file.value, c.span)) else None)
  }

  datatype Outcome = Outcome(keys: seq<Key>, ok: bool)

  /** The keys recorded for the calls in turn, up to the first one that has none. */
  function Scan(calls: seq<Call>, func: string, file: Option<string>): Outcome {
    if calls == [] then Outcome([], true) else
    var before := Scan(calls[..|calls| - 1], func, file);
    var c := calls[|calls| - 1];
    if !before.ok || !Translates(c, func) then before
    else match KeyText(c)
         case None => before.(ok := false)
         case Some(name) => before.(keys := before.keys + [KeyOf(c, name, file)])
  }

  lemma {:induction false} ScanAppend(a: seq<Call>, b: seq<Call>, func: string, file: Option<string>)
    ensures Scan(a + b, func, file) ==
              if Scan(a, func, file).ok
              then Outcome(Scan(a, func, file).keys + Scan(b, func, file).keys, Scan(b, func, file).ok)
              else Scan(a, func, file)
  {
    if b == [] {
      assert a + b == a;
    } else {
      assert (a + b)[..|a + b| - 1] == a + b[..|b| - 1];
      ScanAppend(a, b[..|b| - 1], func, file);
    }
  }

  /** The recorded keys before and after visiting some calls. */
  ghost predicate Visit(before: seq<Key>, after: seq<Key>, calls: seq<Call>, ok: bool, func: string, file: Option<string>) {
    var r := Scan(calls, func, file);
    after == before + r.keys && ok == r.ok
  }

  lemma Nothing(keys: seq<Key>, func: string, file: Option<string>)
    ensures Visit(keys, keys, [], true, func, file)
  {
  }

  lemma Then(k0: seq<Key>, k1: seq<Key>, k2: seq<Key>, a: seq<Call>, b: seq<Call>, ok: bool, func: string, file: Option<string>)
    requires Visit(k0, k1, a, true, func, file) && Visit(k1, k2, b, ok, func, file)
    ensures Visit(k0, k2, a + b, ok, func, file)
  {
    ScanAppend(a, b, func, file);
  }

  lemma Stop(k0: seq<Key>, k1: seq<Key>, a: seq<Call>, whole: seq<Call>, func: string, file: Option<string>)
    requires Visit(k0, k1, a, false, func, file) && a <= whole
    ensures Visit(k0, k1, whole, false, func, file)
  {
    assert whole == a + whole[|a|..];
    ScanAppend(a, whole[|a|..], func, file);
  }

  lemma {:induction false} ArgsCallsPrefix(args: seq<CallArg>, i: nat)
    requires i <= |args|
    ensures ArgsCalls(args[..i]) <= ArgsCalls(args)
  {
    if i == |args| {
      assert args[..i] == args;
    } else {
      assert args[..|args| - 1][..i] == args[..i];
      ArgsCallsPrefix(args[..|args| - 1], i);
    }
  }

  lemma {:induction false} ExprsCallsPrefix(es: seq<Expr>, i: nat)
    requires i <= |es|
    ensures ExprsCalls(es[..i]) <= ExprsCalls(es)
  {
    if i == |es| {
      assert es[..i] == es;
    } else {
      assert es[..|es| - 1][..i] == es[..i];
      ExprsCallsPrefix(es[..|es| - 1], i);
    }
  }

  lemma {:induction false} StmtsCallsPrefix(ss: seq<Stmt>, i: nat)
    requires i <= |ss|
    ensures StmtsCalls(ss[..i]) <= StmtsCalls(ss)
  {
    if i == |ss| {
      assert ss[..i] == ss;
    } else {
      assert ss[..|ss| - 1][..i] == ss[..i];
      StmtsCallsPrefix(ss[..|ss| - 1], i);
    }
  }

  lemma {:induction false} AssignmentsCallsPrefix(xs: seq<Assignment>, i: nat)
    requires i <= |xs|
    ensures AssignmentsCalls(xs[..i]) <= AssignmentsCalls(xs)
  {
    if i == |xs| {
      assert xs[..i] == xs;
    } else {
      assert xs[..|xs| - 1][..i] == xs[..i];
      AssignmentsCallsPrefix(xs[..|xs| - 1], i);
    }
  }

  lemma {:induction false} NamesCallsPrefix(xs: seq<ImportName>, i: nat)
    requires i <= |xs|
    ensures NamesCalls(xs[..i]) <= NamesCalls(xs)
  {
    if i == |xs| {
      assert xs[..i] == xs;
    } else {
      assert xs[..|xs| - 1][..i] == xs[..i];
      NamesCallsPrefix(xs[..|xs| - 1], i);
    }
  }

  class Context {
    var keys: seq<Key>
    const func: string
    var currentFile: Option<string>

    constructor (func: string)
      ensures this.func == func && keys == [] && currentFile == None
    {
      this.func := func;
      keys, currentFile := [], None;
    }

    method SetCurrentFile(file: string)
      modifies this`currentFile
      ensures currentFile == Some(file)
    {
      currentFile := Some(file);
    }

    method Record(key: Key)
      modifies this`keys
      ensures keys == old(keys) + [key]
    {
      keys := keys + [key];
    }

    method RecordTranslationKey(c: Call) returns (ok: bool)
      modifies this`keys
      ensures ok == KeyText(c).Some?
      ensures keys == if ok then old(keys) + [KeyOf(c, KeyText(c).value, currentFile)] else old(keys)
    {
      var name := KeyText(c);
      if name.None? {
        return false;
      }
      Record(KeyOf(c, name.value, currentFile));
      ok := true;
    }

    method VisitCall(c: Call) returns (ok: bool)
      modifies this`keys
      ensures Visit(old(keys), keys, CallCalls(c), ok, func, currentFile)
      decreases c, 1
    {
      ghost var k, all := keys, CallCalls(c);
      ok := true;
      if c.callee.Var? && c.callee.id == func {
        ok := RecordTranslationKey(c);
      }
      assert [c][..0] == [];
      assert Visit(k, keys, [c], ok, func, currentFile);
      if !ok { Stop(k, keys, [c], all, func, currentFile); return; }
      ghost var k1 := keys;
      ok := VisitExpr(c.callee);
      Then(k, k1, keys, [c], ExprCalls(c.callee), ok, func, currentFile);
      if !ok { Stop(k, keys, [c] + ExprCalls(c.callee), all, func, currentFile); return; }
      ghost var k2 := keys;
      ok := VisitArgs(c.args);
      Then(k, k2, keys, [c] + ExprCalls(c.callee), ArgsCalls(c.args), ok, func, currentFile);
    }

    method VisitArgs(args: seq<CallArg>) returns (ok: bool)
      modifies this`keys
      ensures Visit(old(keys), keys, ArgsCalls(args), ok, func, currentFile)
      decreases args, 1
    {
      ok := true;
      ghost var k := keys;
      for i := 0 to |args|
        invariant ok && Visit(k, keys, ArgsCalls(args[..i]), true, func, currentFile)
      {
        assert args[..i + 1][..i] == args[..i];
        ghost var k1 := keys;
        ok := VisitArg(args[i]);
        Then(k, k1, keys, ArgsCalls(args[..i]), ArgCalls(args[i]), ok, func, currentFile);
        if !ok {
          ArgsCallsPrefix(args, i + 1);
          Stop(k, keys, ArgsCalls(args[..i + 1]), ArgsCalls(args), func, currentFile);
          return;
        }
      }
      assert args[..|args|] == args;
    }

    method VisitArg(arg: CallArg) returns (ok: bool)
      modifies this`keys
      ensures Visit(old(keys), keys, ArgCalls(arg), ok, func, currentFile)
      decreases arg, 1
    {
      match arg
      case Pos(e) => ok := VisitExpr(e);
      case Kwarg(_, e) => ok := VisitExpr(e);
      case PosSplat(e) => ok := VisitExpr(e);
      case KwargSplat(e) => ok := VisitExpr(e);
    }

    method VisitOptional(e: Option<Expr>) returns (ok: bool)
      modifies this`keys
      ensures Visit(old(keys), keys, OptCalls(e), ok, func, currentFile)
      decreases e, 1
    {
      ok := true;
      if e.Some? {
        ok := VisitExpr(e.value);
      }
    }

    method VisitExprs(es: seq<Expr>) returns (ok: bool)
      modifies this`keys
      ensures Visit(old(keys), keys, ExprsCalls(es), ok, func, currentFile)
      decreases es, 1
    {
      ok := true;
      ghost var k := keys;
      for i := 0 to |es|
        invariant ok && Visit(k, keys, ExprsCalls(es[..i]), true, func, currentFile)
      {
        assert es[..i + 1][..i] == es[..i];
        ghost var k1 := keys;
        ok := VisitExpr(es[i]);
        Then(k, k1, keys, ExprsCalls(es[..i]), ExprCalls(es[i]), ok, func, currentFile);
        if !ok {
          ExprsCallsPrefix(es, i + 1);
          Stop(k, keys, ExprsCalls(es[..i + 1]), ExprsCalls(es), func, currentFile);
          return;
        }
      }
      assert es[..|es|] == es;
    }

    method VisitExpr(e: Expr) returns (ok: bool)
      modifies this`keys
      ensures Visit(old(keys), keys, ExprCalls(e), ok, func, currentFile)
      decreases e, 1
    {
      ghost var k, all := keys, ExprCalls(e);
      match e
      case Var(_) => ok := true; Nothing(k, func, currentFile);
      case Const(_) => ok := true; Nothing(k, func, currentFile);
      case Slice(x, start, stop, step) =>
        ok := VisitExpr(x);
        if !ok { Stop(k, keys, ExprCalls(x), all, func, currentFile); return; }
        ghost var k1 := keys;
        ok := VisitOptional(start);
        Then(k, k1, keys, ExprCalls(x), OptCalls(start), ok, func, currentFile);
        if !ok { Stop(k, keys, ExprCalls(x) + OptCalls(start), all, func, currentFile); return; }
        ghost var k2 := keys;
        ok := VisitOptional(stop);
        Then(k, k2, keys, ExprCalls(x) + OptCalls(start), OptCalls(stop), ok, func, currentFile);
        if !ok { Stop(k, keys, ExprCalls(x) + OptCalls(start) + OptCalls(stop), all, func, currentFile); return; }
        ghost var k3 := keys;
        ok := VisitOptional(step);
        Then(k, k3, keys, ExprCalls(x) + OptCalls(start) + OptCalls(stop), OptCalls(step), ok, func, currentFile);
      case UnaryOp(x) => ok := VisitExpr(x);
      case BinOp(l, r) =>
        ok := VisitExpr(l);
        if !ok { Stop(k, keys, ExprCalls(l), all, func, currentFile); return; }
        ghost var k1 := keys;
        ok := VisitExpr(r);
        Then(k, k1, keys, ExprCalls(l), ExprCalls(r), ok, func, currentFile);
      case IfExpr(t, x, y) =>
        ok := VisitExpr(t);
        if !ok { Stop(k, keys, ExprCalls(t), all, func, currentFile); return; }
        ghost var k1 := keys;
        ok := VisitExpr(x);
        Then(k, k1, keys, ExprCalls(t), ExprCalls(x), ok, func, currentFile);
        if !ok { Stop(k, keys, ExprCalls(t) + ExprCalls(x), all, func, currentFile); return; }
        ghost var k2 := keys;
        ok := VisitOptional(y);
        Then(k, k2, keys, ExprCalls(t) + ExprCalls(x), OptCalls(y), ok, func, currentFile);
      case Filter(x, args) =>
        ok := VisitOptional(x);
        if !ok { Stop(k, keys, OptCalls(x), all, func, currentFile); return; }
        ghost var k1 := keys;
        ok := VisitArgs(args);
        Then(k, k1, keys, OptCalls(x), ArgsCalls(args), ok, func, currentFile);
      case Test(x, args) =>
        ok := VisitExpr(x);
        if !ok { Stop(k, keys, ExprCalls(x), all, func, currentFile); return; }
        ghost var k1 := keys;
        ok := VisitArgs(args);
        Then(k, k1, keys, ExprCalls(x), ArgsCalls(args), ok, func, currentFile);
      case GetAttr(x) => ok := VisitExpr(x);
      case GetItem(x, s) =>
        ok := VisitExpr(x);
        if !ok { Stop(k, keys, ExprCalls(x), all, func, currentFile); return; }
        ghost var k1 := keys;
        ok := VisitExpr(s);
        Then(k, k1, keys, ExprCalls(x), ExprCalls(s), ok, func, currentFile);
      case CallExpr(c) => ok := VisitCall(c);
      case List(items) => ok := VisitExprs(items);
      case Map(names, values) =>
        ok := VisitExprs(names);
        if !ok { Stop(k, keys, ExprsCalls(names), all, func, currentFile); return; }
        ghost var k1 := keys;
        ok := VisitExprs(values);
        Then(k, k1, keys, ExprsCalls(names), ExprsCalls(values), ok, func, currentFile);
    }

    method VisitMacro(m: Macro) returns (ok: bool)
      modifies this`keys
      ensures Visit(old(keys), keys, MacroCalls(m), ok, func, currentFile)
      decreases m, 1
    {
      ghost var k, all := keys, MacroCalls(m);
      ok := VisitStmts(m.body);
      if !ok { Stop(k, keys, StmtsCalls(m.body), all, func, currentFile); return; }
      ghost var k1 := keys;
      ok := VisitExprs(m.args);
      Then(k, k1, keys, StmtsCalls(m.body), ExprsCalls(m.args), ok, func, currentFile);
      if !ok { Stop(k, keys, StmtsCalls(m.body) + ExprsCalls(m.args), all, func, currentFile); return; }
      ghost var k2 := keys;
      ok := VisitExprs(m.defaults);
      Then(k, k2, keys, StmtsCalls(m.body) + ExprsCalls(m.args), ExprsCalls(m.defaults), ok, func, currentFile);
    }

    method VisitStmts(ss: seq<Stmt>) returns (ok: bool)
      modifies this`keys
      ensures Visit(old(keys), keys, StmtsCalls(ss), ok, func, currentFile)
      decreases ss, 1
    {
      ok := true;
      ghost var k := keys;
      for i := 0 to |ss|
        invariant ok && Visit(k, keys, StmtsCalls(ss[..i]), true, func, currentFile)
      {
        assert ss[..i + 1][..i] == ss[..i];
        ghost var k1 := keys;
        ok := DispatchStmt(ss[i]);
        Then(k, k1, keys, StmtsCalls(ss[..i]), StmtCalls(ss[i]), ok, func, currentFile);
        if !ok {
          StmtsCallsPrefix(ss, i + 1);
          Stop(k, keys, StmtsCalls(ss[..i + 1]), StmtsCalls(ss), func, currentFile);
          return;
        }
      }
      assert ss[..|ss|] == ss;
    }

    method VisitAssignments(xs: seq<Assignment>) returns (ok: bool)
      modifies this`keys
      ensures Visit(old(keys), keys, AssignmentsCalls(xs), ok, func, currentFile)
      decreases xs, 1
    {
      ok := true;
      ghost var k := keys;
      for i := 0 to |xs|
        invariant ok && Visit(k, keys, AssignmentsCalls(xs[..i]), true, func, currentFile)
      {
        assert xs[..i + 1][..i] == xs[..i];
        AssignmentsCallsPrefix(xs, i + 1);
        ghost var k1, done := keys, AssignmentsCalls(xs[..i]);
        ok := VisitExpr(xs[i].lhs);
        Then(k, k1, keys, done, ExprCalls(xs[i].lhs), ok, func, currentFile);
        if !ok { Stop(k, keys, done + ExprCalls(xs[i].lhs), AssignmentsCalls(xs), func, currentFile); return; }
        ghost var k2 := keys;
        ok := VisitExpr(xs[i].rhs);
        Then(k, k2, keys, done + ExprCalls(xs[i].lhs), ExprCalls(xs[i].rhs), ok, func, currentFile);
        if !ok { Stop(k, keys, done + ExprCalls(xs[i].lhs) + ExprCalls(xs[i].rhs), AssignmentsCalls(xs), func, currentFile); return; }
      }
      assert xs[..|xs|] == xs;
    }

    method VisitNames(xs: seq<ImportName>) returns (ok: bool)
      modifies this`keys
      ensures Visit(old(keys), keys, NamesCalls(xs), ok, func, currentFile)
      decreases xs, 1
    {
      ok := true;
      ghost var k := keys;
      for i := 0 to |xs|
        invariant ok && Visit(k, keys, NamesCalls(xs[..i]), true, func, currentFile)
      {
        assert xs[..i + 1][..i] == xs[..i];
        NamesCallsPrefix(xs, i + 1);
        ghost var k1, done := keys, NamesCalls(xs[..i]);
        ok := VisitExpr(xs[i].name);
        Then(k, k1, keys, done, ExprCalls(xs[i].name), ok, func, currentFile);
        if !ok { Stop(k, keys, done + ExprCalls(xs[i].name), NamesCalls(xs), func, currentFile); return; }
        ghost var k2 := keys;
        ok := VisitOptional(xs[i].alias);
        Then(k, k2, keys, done + ExprCalls(xs[i].name), OptCalls(xs[i].alias), ok, func, currentFile);
        if !ok { Stop(k, keys, done + ExprCalls(xs[i].name) + OptCalls(xs[i].alias), NamesCalls(xs), func, currentFile); return; }
      }
      assert xs[..|xs|] == xs;
    }

    method DispatchStmt(s: Stmt) returns (ok: bool)
      modifies this`keys
      ensures Visit(old(keys), keys, StmtCalls(s), ok, func, currentFile)
      decreases s, 1
    {
      hide Visit, ExprCalls, OptCalls, StmtsCalls, CallCalls, MacroCalls, AssignmentsCalls, NamesCalls;
      ghost var k, all := keys, StmtCalls(s);
      match s
      case Template(children) => ok := VisitStmts(children);
      case EmitExpr(e) => ok := VisitExpr(e);
      case EmitRaw => ok := true; Nothing(k, func, currentFile);
      case ForLoop(target, iter, cond, body, elseBody) =>
        ok := VisitExpr(iter);
        if !ok { Stop(k, keys, ExprCalls(iter), all, func, currentFile); return; }
        ghost var k1 := keys;
        ok := VisitOptional(cond);
        Then(k, k1, keys, ExprCalls(iter), OptCalls(cond), ok, func, currentFile);
        if !ok { Stop(k, keys, ExprCalls(iter) + OptCalls(cond), all, func, currentFile); return; }
        ghost var k2 := keys;
        ok := VisitExpr(target);
        Then(k, k2, keys, ExprCalls(iter) + OptCalls(cond), ExprCalls(target), ok, func, currentFile);
        if !ok { Stop(k, keys, ExprCalls(iter) + OptCalls(cond) + ExprCalls(target), all, func, currentFile); return; }
        ghost var k3 := keys;
        ok := VisitStmts(body);
        Then(k, k3, keys, ExprCalls(iter) + OptCalls(cond) + ExprCalls(target), StmtsCalls(body), ok, func, currentFile);
        if !ok { Stop(k, keys, ExprCalls(iter) + OptCalls(cond) + ExprCalls(target) + StmtsCalls(body), all, func, currentFile); return; }
        ghost var k4 := keys;
        ok := VisitStmts(elseBody);
        Then(k, k4, keys, ExprCalls(iter) + OptCalls(cond) + ExprCalls(target) + StmtsCalls(body), StmtsCalls(elseBody), ok, func, currentFile);
      case IfCond(e, x, y) =>
        ok := VisitExpr(e);
        if !ok { Stop(k, keys, ExprCalls(e), all, func, currentFile); return; }
        ghost var k1 := keys;
        ok := VisitStmts(x);
        Then(k, k1, keys, ExprCalls(e), StmtsCalls(x), ok, func, currentFile);
        if !ok { Stop(k, keys, ExprCalls(e) + StmtsCalls(x), all, func, currentFile); return; }
        ghost var k2 := keys;
        ok := VisitStmts(y);
        Then(k, k2, keys, ExprCalls(e) + StmtsCalls(x), StmtsCalls(y), ok, func, currentFile);
      case WithBlock(xs, body) =>
        ok := VisitStmts(body);
        if !ok { Stop(k, keys, StmtsCalls(body), all, func, currentFile); return; }
        ghost var k1 := keys;
        ok := VisitAssignments(xs);
        Then(k, k1, keys, StmtsCalls(body), AssignmentsCalls(xs), ok, func, currentFile);
      case Set(target, e) =>
        ok := VisitExpr(target);
        if !ok { Stop(k, keys, ExprCalls(target), all, func, currentFile); return; }
        ghost var k1 := keys;
        ok := VisitExpr(e);
        Then(k, k1, keys, ExprCalls(target), ExprCalls(e), ok, func, currentFile);
      case SetBlock(target, cond, body) =>
        ok := VisitExpr(target);
        if !ok { Stop(k, keys, ExprCalls(target), all, func, currentFile); return; }
        ghost var k1 := keys;
        ok := VisitStmts(body);
        Then(k, k1, keys, ExprCalls(target), StmtsCalls(body), ok, func, currentFile);
        if !ok { Stop(k, keys, ExprCalls(target) + StmtsCalls(body), all, func, currentFile); return; }
        ghost var k2 := keys;
        ok := VisitOptional(cond);
        Then(k, k2, keys, ExprCalls(target) + StmtsCalls(body), OptCalls(cond), ok, func, currentFile);
      case AutoEscape(e, body) =>
        ok := VisitExpr(e);
        if !ok { Stop(k, keys, ExprCalls(e), all, func, currentFile); return; }
        ghost var k1 := keys;
        ok := VisitStmts(body);
        Then(k, k1, keys, ExprCalls(e), StmtsCalls(body), ok, func, currentFile);
      case FilterBlock(e, body) =>
        ok := VisitExpr(e);
        if !ok { Stop(k, keys, ExprCalls(e), all, func, currentFile); return; }
        ghost var k1 := keys;
        ok := VisitStmts(body);
        Then(k, k1, keys, ExprCalls(e), StmtsCalls(body), ok, func, currentFile);
      case Block(body) => ok := VisitStmts(body);
      case Import(e, name) =>
        ok := VisitExpr(name);
        if !ok { Stop(k, keys, ExprCalls(name), all, func, currentFile); return; }
        ghost var k1 := keys;
        ok := VisitExpr(e);
        Then(k, k1, keys, ExprCalls(name), ExprCalls(e), ok, func, currentFile);
      case FromImport(e, names) =>
        ok := VisitExpr(e);
        if !ok { Stop(k, keys, ExprCalls(e), all, func, currentFile); return; }
        ghost var k1 := keys;
        ok := VisitNames(names);
        Then(k, k1, keys, ExprCalls(e), NamesCalls(names), ok, func, currentFile);
      case Extends(name) => ok := VisitExpr(name);
      case Include(name) => ok := VisitExpr(name);
      case MacroDecl(m) => ok := VisitMacro(m);
      case CallBlock(c, m) =>
        ok := VisitCall(c);
        if !ok { Stop(k, keys, CallCalls(c), all, func, currentFile); return; }
        ghost var k1 := keys;
        ok := VisitMacro(m);
        Then(k, k1, keys, CallCalls(c), MacroCalls(m), ok, func, currentFile);
      case Do(c) => ok := VisitCall(c);
    }

    /** The identifiers for the message files: sorted, without repetition, dots turned into hyphens. */
    method FtlKeys() returns (ids: seq<string>)
      ensures Increasing(ids, Less)
      ensures forall id :: id in ids <==> exists k :: k in keys && Hyphenated(k.name, id)
    {
      var all: seq<string> := [];
      for i := 0 to |keys|
        invariant |all| == i && forall j :: 0 <= j < i ==> all[j] == FtlId(keys[j].name)
      {
        all := all + [FtlId(keys[i].name)];
      }
      LessIsTotal();
      CollectIsSet(all, Less);
      ids := Collect(all, Less);
      forall id ensures id in ids <==> exists k :: k in keys && Hyphenated(k.name, id) {
        if id in all {
          var j :| 0 <= j < |all| && all[j] == id;
          assert keys[j] in keys && Hyphenated(keys[j].name, id);
        }
        forall k | k in keys && Hyphenated(k.name, id) ensures id in all {
          var j :| 0 <= j < |keys| && keys[j] == k;
          HyphenatedOnce(k.name, id);
          assert all[j] == id;
        }
      }
    }
  }

  /** The identifier is the name with every dot turned into a hyphen, and nothing else changed. */
  predicate Hyphenated(name: string, id: string) {
    && |id| == |name| && '.' !in id
    && forall i :: 0 <= i < |name| ==> id[i] == name[i] || (name[i] == '.' && id[i] == '-')
  }

  lemma HyphenatedOnce(name: string, id: string)
    requires Hyphenated(name, id)
    ensures id == FtlId(name)
  {
    forall i | 0 <= i < |name| ensures id[i] == FtlId(name)[i] {
      assert id[i] in id;
    }
  }

  function FtlId(name: string): string {
    seq(|name|, i requires 0 <= i < |name| => if name[i] == '.' then '-' else name[i])
  }

  // What the keys are, read off the calls themselves

  /** The call of the translation function starts with the string literal `name`. */
  predicate Asks(c: Call, func: string, name: string) {
    c.callee == Var(func) && c.args != [] && c.args[0] == Pos(Const(Str(name)))
  }

  ghost predicate Counted(c: Call) {
    exists e :: Kwarg("count", e) in c.args
  }

  ghost predicate Carries(c: Call, func: string, file: Option<string>, k: Key) {
    && Asks(c, func, k.name)
    && (k.kind.Plural? <==> Counted(c))
    && k.location == if file.Some? then Some(Location(file.value, c.span)) else None
  }

  lemma TextIsAsked(c: Call, func: string, name: string)
    ensures Translates(c, func) && KeyText(c) == Some(name) <==> Asks(c, func, name)
  {
  }

  lemma KeyIsCarried(c: Call, func: string, file: Option<string>, k: Key)
    ensures Carries(c, func, file, k) <==> Translates(c, func) && KeyText(c).Some? && k == KeyOf(c, KeyText(c).value, file)
  {
    TextIsAsked(c, func, k.name);
    if a :| a in c.args && IsCount(a) { assert Kwarg("count", a.expr) in c.args; }
    if e :| Kwarg("count", e) in c.args { assert IsCount(Kwarg("count", e)); }
  }

  lemma {:induction false} ScanSucceeds(calls: seq<Call>, func: string, file: Option<string>)
    ensures Scan(calls, func, file).ok <==> forall c :: c in calls && Translates(c, func) ==> KeyText(c).Some?
  {
    if calls != [] {
      var last := |calls| - 1;
      ScanSucceeds(calls[..last], func, file);
      assert calls == calls[..last] + [calls[last]];
    }
  }

  /** The walk succeeds exactly when every translation call, at any depth, starts with a string literal. */
  lemma WalkSucceedsExactly(s: Stmt, func: string, file: Option<string>)
    ensures Scan(StmtCalls(s), func, file).ok <==>
              forall c :: Occurs(s, c) && c.callee == Var(func) ==> exists name :: Asks(c, func, name)
  {
    ScanSucceeds(StmtCalls(s), func, file);
    forall c
      ensures c in StmtCalls(s) <==> Occurs(s, c)
      ensures c.callee == Var(func) ==> (KeyText(c).Some? <==> exists name :: Asks(c, func, name))
    {
      ListedIsReached(s, c);
      if KeyText(c).Some? { TextIsAsked(c, func, KeyText(c).value); }
      if name :| Asks(c, func, name) { TextIsAsked(c, func, name); }
    }
  }

  /** One key for every translation call of the list, in its order. */
  function Keyed(calls: seq<Call>, func: string, file: Option<string>): seq<Key> {
    if calls == [] then [] else
    var c := calls[|calls| - 1];
    Keyed(calls[..|calls| - 1], func, file) +
      (if Translates(c, func) && KeyText(c).Some? then [KeyOf(c, KeyText(c).value, file)] else [])
  }

  lemma {:induction false} ScanRecords(calls: seq<Call>, func: string, file: Option<string>)
    requires Scan(calls, func, file).ok
    ensures Scan(calls, func, file).keys == Keyed(calls, func, file)
  {
    if calls != [] { ScanRecords(calls[..|calls| - 1], func, file); }
  }

  lemma {:induction false} KeyedMembers(calls: seq<Call>, func: string, file: Option<string>, k: Key)
    ensures k in Keyed(calls, func, file) <==>
              exists c :: c in calls && Carries(c, func, file, k)
  {
    if calls != [] {
      var last := |calls| - 1;
      KeyedMembers(calls[..last], func, file, k);
      assert forall c :: c in calls <==> c in calls[..last] || c == calls[last];
      KeyIsCarried(calls[last], func, file, k);
      assert Carries(calls[last], func, file, k) <==>
             k in Keyed(calls, func, file)[|Keyed(calls[..last], func, file)|..];
    }
  }

  /** On success a key is recorded exactly when some path leads to a translation call that carries it. */
  lemma WalkRecordsExactly(s: Stmt, func: string, file: Option<string>, k: Key)
    requires Scan(StmtCalls(s), func, file).ok
    ensures Scan(StmtCalls(s), func, file).keys == Keyed(StmtCalls(s), func, file)
    ensures k in Scan(StmtCalls(s), func, file).keys <==>
              exists c :: Occurs(s, c) && Carries(c, func, file, k)
  {
    ScanRecords(StmtCalls(s), func, file);
    KeyedMembers(StmtCalls(s), func, file, k);
    forall c { ListedIsReached(s, c); }
  }

  // Keys and paths, one to one

  predicate Recordable(c: Call, func: string) {
    Translates(c, func) && KeyText(c).Some?
  }

  lemma {:induction false} KeyedPlace(calls: seq<Call>, func: string, file: Option<string>, j: nat)
    requires j < |calls| && Recordable(calls[j], func)
    ensures var place := |Keyed(calls[..j], func, file)|;
            && place < |Keyed(calls, func, file)|
            && Keyed(calls, func, file)[place] == KeyOf(calls[j], KeyText(calls[j]).value, file)
  {
    var last := |calls| - 1;
    if j < last {
      KeyedPlace(calls[..last], func, file, j);
      assert calls[..last][..j] == calls[..j];
    }
  }

  lemma KeyedPlacesDiffer(calls: seq<Call>, func: string, file: Option<string>, i: nat, j: nat)
    requires i < j <= |calls| && Recordable(calls[i], func)
    ensures |Keyed(calls[..i], func, file)| < |Keyed(calls[..j], func, file)|
  {
    KeyedPlace(calls[..j], func, file, i);
    assert calls[..j][..i] == calls[..i];
  }

  lemma {:induction false} PlaceIsKeyed(calls: seq<Call>, func: string, file: Option<string>, k: nat) returns (j: nat)
    requires k < |Keyed(calls, func, file)|
    ensures j < |calls| && Recordable(calls[j], func) && |Keyed(calls[..j], func, file)| == k
  {
    var last := |calls| - 1;
    if k < |Keyed(calls[..last], func, file)| {
      j := PlaceIsKeyed(calls[..last], func, file, k);
      assert calls[..last][..j] == calls[..j];
    } else {
      j := last;
    }
  }

  /** The path leads to a call of the translation function. */
  predicate Leads(s: Stmt, func: string, path: seq<nat>) {
    var n := At(AStmt(s), path);
    n.Some? && n.value.ACall? && Translates(n.value.call, func)
  }

  function CallAt(s: Stmt, func: string, path: seq<nat>): Call
    requires Leads(s, func, path)
  {
    At(AStmt(s), path).value.call
  }

  /** Which of the recorded keys belongs to the path. */
  ghost function KeyPlace(s: Stmt, func: string, file: Option<string>, path: seq<nat>): nat
    requires Leads(s, func, path)
  {
    PositionIsListed(AStmt(s), path);
    |Keyed(StmtCalls(s)[..Position(AStmt(s), path)], func, file)|
  }

  lemma PathHasKey(s: Stmt, func: string, file: Option<string>, p: seq<nat>)
    requires Scan(StmtCalls(s), func, file).ok && Leads(s, func, p)
    ensures KeyText(CallAt(s, func, p)).Some?
    ensures var keys := Scan(StmtCalls(s), func, file).keys;
            && KeyPlace(s, func, file, p) < |keys|
            && keys[KeyPlace(s, func, file, p)] == KeyOf(CallAt(s, func, p), KeyText(CallAt(s, func, p)).value, file)
  {
    PositionIsListed(AStmt(s), p);
    ScanSucceeds(StmtCalls(s), func, file);
    ScanRecords(StmtCalls(s), func, file);
    KeyedPlace(StmtCalls(s), func, file, Position(AStmt(s), p));
  }

  lemma PathsHaveOwnKeys(s: Stmt, func: string, file: Option<string>, p: seq<nat>, q: seq<nat>)
    requires Scan(StmtCalls(s), func, file).ok && Leads(s, func, p) && Leads(s, func, q)
    requires KeyPlace(s, func, file, p) == KeyPlace(s, func, file, q)
    ensures p == q
  {
    var calls := StmtCalls(s);
    ScanSucceeds(calls, func, file);
    PathsHavePlaces(s, p, q);
    PathsHavePlaces(s, q, p);
    var i, j := Position(AStmt(s), p), Position(AStmt(s), q);
    if i < j { KeyedPlacesDiffer(calls, func, file, i, j); }
    if j < i { KeyedPlacesDiffer(calls, func, file, j, i); }
  }

  lemma KeyHasPath(s: Stmt, func: string, file: Option<string>, k: nat) returns (p: seq<nat>)
    requires Scan(StmtCalls(s), func, file).ok && k < |Scan(StmtCalls(s), func, file).keys|
    ensures Leads(s, func, p) && KeyPlace(s, func, file, p) == k
  {
    ScanRecords(StmtCalls(s), func, file);
    var j := PlaceIsKeyed(StmtCalls(s), func, file, k);
    p := StmtPath(s, j);
    PositionIsListed(AStmt(s), p);
  }

  /**
   * On success the recorded keys and the paths to translation calls match one to one, so that
   * each call at each path is recorded once, and nothing else is.
   */
  lemma EachCallRecordedOnce(s: Stmt, func: string, file: Option<string>)
    requires Scan(StmtCalls(s), func, file).ok
    ensures var keys := Scan(StmtCalls(s), func, file).keys;
            && (forall p :: Leads(s, func, p) ==>
                  && KeyPlace(s, func, file, p) < |keys|
                  && Carries(CallAt(s, func, p), func, file, keys[KeyPlace(s, func, file, p)]))
            && (forall p, q :: Leads(s, func, p) && Leads(s, func, q) ==>
                  (KeyPlace(s, func, file, p) == KeyPlace(s, func, file, q) ==> p == q))
            && (forall k :: 0 <= k < |keys| ==> HasPath(s, func, file, k))
  {
    var keys := Scan(StmtCalls(s), func, file).keys;
    forall p | Leads(s, func, p)
      ensures KeyPlace(s, func, file, p) < |keys|
      ensures Carries(CallAt(s, func, p), func, file, keys[KeyPlace(s, func, file, p)])
    {
      PathHasKey(s, func, file, p);
      KeyIsCarried(CallAt(s, func, p), func, file, keys[KeyPlace(s, func, file, p)]);
    }
    forall p, q | Leads(s, func, p) && Leads(s, func, q) && KeyPlace(s, func, file, p) == KeyPlace(s, func, file, q)
      ensures p == q
    {
      PathsHaveOwnKeys(s, func, file, p, q);
    }
    forall k | 0 <= k < |keys| ensures HasPath(s, func, file, k) {
      var p := KeyHasPath(s, func, file, k);
    }
  }

  ghost predicate HasPath(s: Stmt, func: string, file: Option<string>, k: nat) {
    exists p :: Leads(s, func, p) && KeyPlace(s, func, file, p) == k
  }
}

/** Template syntax trees, and the calls in them in the order the scanner meets them. */
module Templates {
  import opened Wrappers
  import Paths

  type Span = nat

  datatype Literal = Str(text: string) | Other

  datatype Expr =
    | Var(id: string)
    | Const(value: Literal)
    | Slice(expr: Expr, start: Option<Expr>, stop: Option<Expr>, step: Option<Expr>)
    | UnaryOp(expr: Expr)
    | BinOp(left: Expr, right: Expr)
    | IfExpr(test: Expr, trueExpr: Expr, falseExpr: Option<Expr>)
    | Filter(subject: Option<Expr>, args: seq<CallArg>)
    | Test(expr: Expr, args: seq<CallArg>)
    | GetAttr(expr: Expr)
    | GetItem(expr: Expr, subscript: Expr)
    | CallExpr(call: Call)
    | List(items: seq<Expr>)
    | Map(keys: seq<Expr>, values: seq<Expr>)

  datatype CallArg =
    | Pos(expr: Expr)
    | Kwarg(name: string, expr: Expr)
    | PosSplat(expr: Expr)
    | KwargSplat(expr: Expr)

  datatype Call = Call(callee: Expr, args: seq<CallArg>, span: Span)

  datatype Macro = Macro(args: seq<Expr>, defaults: seq<Expr>, body: seq<Stmt>)

  datatype Assignment = Assignment(lhs: Expr, rhs: Expr)

  datatype ImportName = ImportName(name: Expr, alias: Option<Expr>)

  datatype Stmt =
    | Template(children: seq<Stmt>)
    | EmitExpr(expr: Expr)
    | EmitRaw
    | ForLoop(target: Expr, iter: Expr, filterExpr: Option<Expr>, body: seq<Stmt>, elseBody: seq<Stmt>)
    | IfCond(expr: Expr, trueBody: seq<Stmt>, falseBody: seq<Stmt>)
    | WithBlock(assignments: seq<Assignment>, body: seq<Stmt>)
    | Set(target: Expr, expr: Expr)
    | SetBlock(target: Expr, filter: Option<Expr>, body: seq<Stmt>)
    | AutoEscape(enabled: Expr, body: seq<Stmt>)
    | FilterBlock(filterCall: Expr, body: seq<Stmt>)
    | Block(body: seq<Stmt>)
    | Import(expr: Expr, name: Expr)
    | FromImport(expr: Expr, names: seq<ImportName>)
    | Extends(name: Expr)
    | Include(name: Expr)
    | MacroDecl(decl: Macro)
    | CallBlock(call: Call, macroDecl: Macro)
    | Do(call: Call)

  // Every call, at any depth

  function ExprCalls(e: Expr): seq<Call>
    decreases e, 0
  {
    match e
    case Var(_) => []
    case Const(_) => []
    case Slice(x, start, stop, step) => ExprCalls(x) + OptCalls(start) + OptCalls(stop) + OptCalls(step)
    case UnaryOp(x) => ExprCalls(x)
    case BinOp(l, r) => ExprCalls(l) + ExprCalls(r)
    case IfExpr(t, x, y) => ExprCalls(t) + ExprCalls(x) + OptCalls(y)
    case Filter(x, args) => OptCalls(x) + ArgsCalls(args)
    case Test(x, args) => ExprCalls(x) + ArgsCalls(args)
    case GetAttr(x) => ExprCalls(x)
    case GetItem(x, s) => ExprCalls(x) + ExprCalls(s)
    case CallExpr(c) => CallCalls(c)
    case List(items) => ExprsCalls(items)
    case Map(keys, values) => ExprsCalls(keys) + ExprsCalls(values)
  }

  function OptCalls(e: Option<Expr>): seq<Call>
    decreases e, 0
  {
    if e.Some? then ExprCalls(e.value) else []
  }

  function ExprsCalls(es: seq<Expr>): seq<Call>
    decreases es, 0
  {
    if es == [] then [] else ExprsCalls(es[..|es| - 1]) + ExprCalls(es[|es| - 1])
  }

  function ArgsCalls(args: seq<CallArg>): seq<Call>
    decreases args, 0
  {
    if args == [] then [] else ArgsCalls(args[..|args| - 1]) + ArgCalls(args[|args| - 1])
  }

  function ArgCalls(arg: CallArg): seq<Call>
    decreases arg, 0
  {
    match arg
    case Pos(e) => ExprCalls(e)
    case Kwarg(_, e) => ExprCalls(e)
    case PosSplat(e) => ExprCalls(e)
    case KwargSplat(e) => ExprCalls(e)
  }

  function CallCalls(c: Call): seq<Call>
    decreases c, 0
  {
    [c] + ExprCalls(c.callee) + ArgsCalls(c.args)
  }

  function MacroCalls(m: Macro): seq<Call>
    decreases m, 0
  {
    StmtsCalls(m.body) + ExprsCalls(m.args) + ExprsCalls(m.defaults)
  }

  function AssignmentsCalls(xs: seq<Assignment>): seq<Call>
    decreases xs, 0
  {
    if xs == [] then []
    else AssignmentsCalls(xs[..|xs| - 1]) + ExprCalls(xs[|xs| - 1].lhs) + ExprCalls(xs[|xs| - 1].rhs)
  }

  function NamesCalls(xs: seq<ImportName>): seq<Call>
    decreases xs, 0
  {
    if xs == [] then []
    else NamesCalls(xs[..|xs| - 1]) + ExprCalls(xs[|xs| - 1].name) + OptCalls(xs[|xs| - 1].alias)
  }

  function StmtsCalls(ss: seq<Stmt>): seq<Call>
    decreases ss, 0
  {
    if ss == [] then [] else StmtsCalls(ss[..|ss| - 1]) + StmtCalls(ss[|ss| - 1])
  }

  function StmtCalls(s: Stmt): seq<Call>
    decreases s, 0
  {
    match s
    case Template(children) => StmtsCalls(children)
    case EmitExpr(e) => ExprCalls(e)
    case EmitRaw => []
    case ForLoop(target, iter, cond, body, elseBody) =>
      ExprCalls(iter) + OptCalls(cond) + ExprCalls(target) + StmtsCalls(body) + StmtsCalls(elseBody)
    case IfCond(e, x, y) => ExprCalls(e) + StmtsCalls(x) + StmtsCalls(y)
    case WithBlock(xs, body) => StmtsCalls(body) + AssignmentsCalls(xs)
    case Set(target, e) => ExprCalls(target) + ExprCalls(e)
    case SetBlock(target, cond, body) => ExprCalls(target) + StmtsCalls(body) + OptCalls(cond)
    case AutoEscape(e, body) => ExprCalls(e) + StmtsCalls(body)
    case FilterBlock(e, body) => ExprCalls(e) + StmtsCalls(body)
    case Block(body) => StmtsCalls(body)
    case Import(e, name) => ExprCalls(name) + ExprCalls(e)
    case FromImport(e, names) => ExprCalls(e) + NamesCalls(names)
    case Extends(name) => ExprCalls(name)
    case Include(name) => ExprCalls(name)
    case MacroDecl(m) => MacroCalls(m)
    case CallBlock(c, m) => CallCalls(c) + MacroCalls(m)
    case Do(c) => CallCalls(c)
  }

  // The same calls, read off the tree: nodes reached from a node by a path of child positions

  datatype Node = AStmt(stmt: Stmt) | AnExpr(expr: Expr) | ACall(call: Call) | AMacro(decl: Macro)

  function Stmts(ss: seq<Stmt>): seq<Node> {
    if ss == [] then [] else Stmts(ss[..|ss| - 1]) + [AStmt(ss[|ss| - 1])]
  }

  function Exprs(es: seq<Expr>): seq<Node> {
    if es == [] then [] else Exprs(es[..|es| - 1]) + [AnExpr(es[|es| - 1])]
  }

  function Args(xs: seq<CallArg>): seq<Node> {
    if xs == [] then [] else Args(xs[..|xs| - 1]) + [AnExpr(xs[|xs| - 1].expr)]
  }

  function Opt(e: Option<Expr>): seq<Node> {
    if e.Some? then [AnExpr(e.value)] else []
  }

  function Assignments(xs: seq<Assignment>): seq<Node> {
    if xs == [] then []
    else Assignments(xs[..|xs| - 1]) + [AnExpr(xs[|xs| - 1].lhs)] + [AnExpr(xs[|xs| - 1].rhs)]
  }

  function Names(xs: seq<ImportName>): seq<Node> {
    if xs == [] then []
    else Names(xs[..|xs| - 1]) + [AnExpr(xs[|xs| - 1].name)] + Opt(xs[|xs| - 1].alias)
  }

  function ExprChildren(e: Expr): seq<Node> {
    match e
    case Var(_) => []
    case Const(_) => []
    case Slice(x, start, stop, step) => [AnExpr(x)] + Opt(start) + Opt(stop) + Opt(step)
    case UnaryOp(x) => [AnExpr(x)]
    case BinOp(l, r) => [AnExpr(l)] + [AnExpr(r)]
    case IfExpr(t, x, y) => [AnExpr(t)] + [AnExpr(x)] + Opt(y)
    case Filter(x, args) => Opt(x) + Args(args)
    case Test(x, args) => [AnExpr(x)] + Args(args)
    case GetAttr(x) => [AnExpr(x)]
    case GetItem(x, s) => [AnExpr(x)] + [AnExpr(s)]
    case CallExpr(c) => [ACall(c)]
    case List(items) => Exprs(items)
    case Map(keys, values) => Exprs(keys) + Exprs(values)
  }

  function StmtChildren(s: Stmt): seq<Node> {
    match s
    case Template(children) => Stmts(children)
    case EmitExpr(e) => [AnExpr(e)]
    case EmitRaw => []
    case ForLoop(target, iter, cond, body, elseBody) =>
      [AnExpr(iter)] + Opt(cond) + [AnExpr(target)] + Stmts(body) + Stmts(elseBody)
    case IfCond(e, x, y) => [AnExpr(e)] + Stmts(x) + Stmts(y)
    case WithBlock(xs, body) => Stmts(body) + Assignments(xs)
    case Set(target, e) => [AnExpr(target)] + [AnExpr(e)]
    case SetBlock(target, cond, body) => [AnExpr(target)] + Stmts(body) + Opt(cond)
    case AutoEscape(e, body) => [AnExpr(e)] + Stmts(body)
    case FilterBlock(e, body) => [AnExpr(e)] + Stmts(body)
    case Block(body) => Stmts(body)
    case Import(e, name) => [AnExpr(name)] + [AnExpr(e)]
    case FromImport(e, names) => [AnExpr(e)] + Names(names)
    case Extends(name) => [AnExpr(name)]
    case Include(name) => [AnExpr(name)]
    case MacroDecl(m) => [AMacro(m)]
    case CallBlock(c, m) => [ACall(c)] + [AMacro(m)]
    case Do(c) => [ACall(c)]
  }

  function Children(n: Node): seq<Node> {
    match n
    case AStmt(s) => StmtChildren(s)
    case AnExpr(e) => ExprChildren(e)
    case ACall(c) => [AnExpr(c.callee)] + Args(c.args)
    case AMacro(m) => Stmts(m.body) + Exprs(m.args) + Exprs(m.defaults)
  }

  function At(n: Node, path: seq<nat>): Option<Node> {
    Paths.At(Children, n, path)
  }

  function NodeCalls(n: Node): seq<Call> {
    match n
    case AStmt(s) => StmtCalls(s)
    case AnExpr(e) => ExprCalls(e)
    case ACall(c) => CallCalls(c)
    case AMacro(m) => MacroCalls(m)
  }

  function Flat(ns: seq<Node>): seq<Call> {
    Paths.Flat(NodeCalls, ns)
  }

  lemma FlatAppend(a: seq<Node>, b: seq<Node>)
    ensures Flat(a + b) == Flat(a) + Flat(b)
  {
    Paths.FlatAppend(NodeCalls, a, b);
  }

  lemma FlatPair(a: Node, b: Node)
    ensures Flat([a] + [b]) == NodeCalls(a) + NodeCalls(b)
  {
    FlatAppend([a], [b]);
    FlatOne(a);
    FlatOne(b);
  }

  lemma FlatOne(n: Node)
    ensures Flat([n]) == NodeCalls(n)
  {
    Paths.FlatPush(NodeCalls, [], n);
    assert [] + [n] == [n];
  }

  lemma FlatOpt(e: Option<Expr>)
    ensures Flat(Opt(e)) == OptCalls(e)
  {
    if e.Some? { FlatOne(AnExpr(e.value)); }
  }

  lemma {:induction false} FlatStmts(ss: seq<Stmt>)
    ensures Flat(Stmts(ss)) == StmtsCalls(ss)
  {
    if ss != [] {
      FlatStmts(ss[..|ss| - 1]);
      FlatAppend(Stmts(ss[..|ss| - 1]), [AStmt(ss[|ss| - 1])]);
      FlatOne(AStmt(ss[|ss| - 1]));
    }
  }

  lemma {:induction false} FlatExprs(es: seq<Expr>)
    ensures Flat(Exprs(es)) == ExprsCalls(es)
  {
    if es != [] {
      FlatExprs(es[..|es| - 1]);
      FlatAppend(Exprs(es[..|es| - 1]), [AnExpr(es[|es| - 1])]);
      FlatOne(AnExpr(es[|es| - 1]));
    }
  }

  lemma {:induction false} FlatArgs(xs: seq<CallArg>)
    ensures Flat(Args(xs)) == ArgsCalls(xs)
  {
    if xs != [] {
      FlatArgs(xs[..|xs| - 1]);
      FlatAppend(Args(xs[..|xs| - 1]), [AnExpr(xs[|xs| - 1].expr)]);
      FlatOne(AnExpr(xs[|xs| - 1].expr));
    }
  }

  lemma Flat3(a: seq<Node>, b: seq<Node>, c: seq<Node>)
    ensures Flat(a + b + c) == Flat(a) + Flat(b) + Flat(c)
  {
    FlatAppend(a + b, c);
    FlatAppend(a, b);
  }

  lemma {:induction false} FlatAssignments(xs: seq<Assignment>)
    ensures Flat(Assignments(xs)) == AssignmentsCalls(xs)
  {
    if xs != [] {
      var x := xs[|xs| - 1];
      FlatAssignments(xs[..|xs| - 1]);
      Flat3(Assignments(xs[..|xs| - 1]), [AnExpr(x.lhs)], [AnExpr(x.rhs)]);
      FlatOne(AnExpr(x.lhs));
      FlatOne(AnExpr(x.rhs));
    }
  }

  lemma {:induction false} FlatNames(xs: seq<ImportName>)
    ensures Flat(Names(xs)) == NamesCalls(xs)
  {
    if xs != [] {
      var x := xs[|xs| - 1];
      FlatNames(xs[..|xs| - 1]);
      Flat3(Names(xs[..|xs| - 1]), [AnExpr(x.name)], Opt(x.alias));
      FlatOne(AnExpr(x.name));
      FlatOpt(x.alias);
    }
  }

  lemma ExprUnfolds(e: Expr)
    ensures ExprCalls(e) == Flat(ExprChildren(e))
  {
    match e
    case Var(_) =>
    case Const(_) =>
    case Slice(x, start, stop, step) =>
      Flat3([AnExpr(x)], Opt(start), Opt(stop));
      FlatAppend([AnExpr(x)] + Opt(start) + Opt(stop), Opt(step));
      FlatOne(AnExpr(x)); FlatOpt(start); FlatOpt(stop); FlatOpt(step);
    case UnaryOp(x) => FlatOne(AnExpr(x));
    case BinOp(l, r) => FlatAppend([AnExpr(l)], [AnExpr(r)]); FlatOne(AnExpr(l)); FlatOne(AnExpr(r));
    case IfExpr(t, x, y) =>
      Flat3([AnExpr(t)], [AnExpr(x)], Opt(y));
      FlatOne(AnExpr(t)); FlatOne(AnExpr(x)); FlatOpt(y);
    case Filter(x, args) => FlatAppend(Opt(x), Args(args)); FlatOpt(x); FlatArgs(args);
    case Test(x, args) => FlatAppend([AnExpr(x)], Args(args)); FlatOne(AnExpr(x)); FlatArgs(args);
    case GetAttr(x) => FlatOne(AnExpr(x));
    case GetItem(x, s) => FlatAppend([AnExpr(x)], [AnExpr(s)]); FlatOne(AnExpr(x)); FlatOne(AnExpr(s));
    case CallExpr(c) => FlatOne(ACall(c));
    case List(items) => FlatExprs(items);
    case Map(keys, values) => FlatAppend(Exprs(keys), Exprs(values)); FlatExprs(keys); FlatExprs(values);
  }

  predicate HasBody(s: Stmt) {
    s.Template? || s.ForLoop? || s.IfCond? || s.WithBlock? || s.SetBlock? || s.AutoEscape? || s.FilterBlock? || s.Block?
  }

  lemma LoopUnfolds(target: Expr, iter: Expr, cond: Option<Expr>, body: seq<Stmt>, elseBody: seq<Stmt>)
    ensures var s := ForLoop(target, iter, cond, body, elseBody);
            StmtCalls(s) == Flat(StmtChildren(s))
  {
    var front := [AnExpr(iter)] + Opt(cond) + [AnExpr(target)];
    Flat3(front, Stmts(body), Stmts(elseBody));
    Flat3([AnExpr(iter)], Opt(cond), [AnExpr(target)]);
    FlatOne(AnExpr(iter));
    FlatOpt(cond);
    FlatOne(AnExpr(target));
    FlatStmts(body);
    FlatStmts(elseBody);
  }

  lemma BodyUnfolds(s: Stmt)
    requires HasBody(s)
    ensures StmtCalls(s) == Flat(StmtChildren(s))
  {
    match s
    case Template(children) => FlatStmts(children);
    case ForLoop(target, iter, cond, body, elseBody) => LoopUnfolds(target, iter, cond, body, elseBody);
    case IfCond(e, x, y) =>
      Flat3([AnExpr(e)], Stmts(x), Stmts(y));
      FlatOne(AnExpr(e)); FlatStmts(x); FlatStmts(y);
    case WithBlock(xs, body) =>
      FlatAppend(Stmts(body), Assignments(xs)); FlatStmts(body); FlatAssignments(xs);
    case SetBlock(target, cond, body) =>
      Flat3([AnExpr(target)], Stmts(body), Opt(cond));
      FlatOne(AnExpr(target)); FlatStmts(body); FlatOpt(cond);
    case AutoEscape(e, body) => FlatAppend([AnExpr(e)], Stmts(body)); FlatOne(AnExpr(e)); FlatStmts(body);
    case FilterBlock(e, body) => FlatAppend([AnExpr(e)], Stmts(body)); FlatOne(AnExpr(e)); FlatStmts(body);
    case Block(body) => FlatStmts(body);
  }

  lemma OneUnfolds(s: Stmt)
    requires s.EmitExpr? || s.Extends? || s.Include? || s.MacroDecl? || s.Do?
    ensures StmtCalls(s) == Flat(StmtChildren(s))
  {
    match s
    case EmitExpr(e) => FlatOne(AnExpr(e));
    case Extends(name) => FlatOne(AnExpr(name));
    case Include(name) => FlatOne(AnExpr(name));
    case MacroDecl(m) => FlatOne(AMacro(m));
    case Do(c) => FlatOne(ACall(c));
  }

  lemma PairUnfolds(s: Stmt)
    requires s.Set? || s.Import? || s.FromImport? || s.CallBlock?
    ensures StmtCalls(s) == Flat(StmtChildren(s))
  {
    match s
    case Set(target, e) => FlatPair(AnExpr(target), AnExpr(e));
    case Import(e, name) => FlatPair(AnExpr(name), AnExpr(e));
    case FromImport(e, names) => FlatAppend([AnExpr(e)], Names(names)); FlatOne(AnExpr(e)); FlatNames(names);
    case CallBlock(c, m) => FlatPair(ACall(c), AMacro(m));
  }

  lemma StmtUnfolds(s: Stmt)
    ensures StmtCalls(s) == Flat(StmtChildren(s))
  {
    if HasBody(s) {
      BodyUnfolds(s);
    } else if s.Set? || s.Import? || s.FromImport? || s.CallBlock? {
      PairUnfolds(s);
    } else if !s.EmitRaw? {
      OneUnfolds(s);
    }
  }

  function OwnCalls(n: Node): seq<Call> {
    if n.ACall? then [n.call] else []
  }

  /** The calls of a node: the node itself if it is one, then those of its children in turn. */
  lemma Unfolds(n: Node)
    ensures NodeCalls(n) == OwnCalls(n) + Flat(Children(n))
  {
    match n
    case AStmt(s) => StmtUnfolds(s);
    case AnExpr(e) => ExprUnfolds(e);
    case ACall(c) =>
      FlatAppend([AnExpr(c.callee)], Args(c.args));
      FlatOne(AnExpr(c.callee));
      FlatArgs(c.args);
      assert [c] + ExprCalls(c.callee) + ArgsCalls(c.args) == [c] + (ExprCalls(c.callee) + ArgsCalls(c.args));
    case AMacro(m) =>
      Flat3(Stmts(m.body), Exprs(m.args), Exprs(m.defaults));
      FlatStmts(m.body);
      FlatExprs(m.args);
      FlatExprs(m.defaults);
  }

  lemma UnfoldingHolds()
    ensures Paths.Unfolding(Children, OwnCalls, NodeCalls)
  {
    forall n ensures NodeCalls(n) == OwnCalls(n) + Paths.Flat(NodeCalls, Children(n)) && |OwnCalls(n)| <= 1 {
      Unfolds(n);
    }
  }

  // Children are smaller, so every listed call has a path

  lemma {:induction false} ExprsSmaller(es: seq<Expr>)
    ensures forall k :: k in Exprs(es) ==> k.AnExpr? && k.expr in es
  {
    if es != [] { ExprsSmaller(es[..|es| - 1]); }
  }

  lemma {:induction false} StmtsSmaller(ss: seq<Stmt>)
    ensures forall k :: k in Stmts(ss) ==> k.AStmt? && k.stmt in ss
  {
    if ss != [] { StmtsSmaller(ss[..|ss| - 1]); }
  }

  lemma {:induction false} ArgOf(xs: seq<CallArg>, k: Node) returns (x: CallArg)
    requires k in Args(xs)
    ensures x in xs && k == AnExpr(x.expr) && (x decreases to k.expr)
  {
    var last := |xs| - 1;
    if k in Args(xs[..last]) { x := ArgOf(xs[..last], k); } else { x := xs[last]; }
    match x case Pos(_) => case Kwarg(_, _) => case PosSplat(_) => case KwargSplat(_) =>
  }

  lemma ExprChildSmaller(e: Expr, k: Node)
    requires k in ExprChildren(e)
    ensures k.AnExpr? || k.ACall?
    ensures k.AnExpr? ==> (e decreases to k.expr)
    ensures k.ACall? ==> (e decreases to k.call)
  {
    match e
    case Filter(x, args) => if k !in Opt(x) { var _ := ArgOf(args, k); }
    case Test(x, args) => if k in Args(args) { var _ := ArgOf(args, k); }
    case List(items) => ExprsSmaller(items);
    case Map(keys, values) => ExprsSmaller(keys); ExprsSmaller(values);
    case _ =>
  }

  lemma {:induction false} AssignmentsSmaller(xs: seq<Assignment>)
    ensures forall k :: k in Assignments(xs) ==> k.AnExpr? && exists x :: x in xs && (k.expr == x.lhs || k.expr == x.rhs)
  {
    if xs != [] { AssignmentsSmaller(xs[..|xs| - 1]); }
  }

  lemma {:induction false} NamesSmaller(xs: seq<ImportName>)
    ensures forall k :: k in Names(xs) ==>
              k.AnExpr? && exists x :: x in xs && (k.expr == x.name || x.alias == Some(k.expr))
  {
    if xs != [] { NamesSmaller(xs[..|xs| - 1]); }
  }

  lemma StmtChildSmaller(s: Stmt, k: Node)
    requires k in StmtChildren(s)
    ensures k.AStmt? ==> (s decreases to k.stmt)
    ensures k.AnExpr? ==> (s decreases to k.expr)
    ensures k.ACall? ==> (s decreases to k.call)
    ensures k.AMacro? ==> (s decreases to k.decl)
  {
    match s
    case Template(children) => StmtsSmaller(children);
    case ForLoop(_, _, _, body, elseBody) => StmtsSmaller(body); StmtsSmaller(elseBody);
    case IfCond(_, x, y) => StmtsSmaller(x); StmtsSmaller(y);
    case WithBlock(xs, body) => StmtsSmaller(body); AssignmentsSmaller(xs);
    case SetBlock(_, _, body) => StmtsSmaller(body);
    case AutoEscape(_, body) => StmtsSmaller(body);
    case FilterBlock(_, body) => StmtsSmaller(body);
    case Block(body) => StmtsSmaller(body);
    case FromImport(_, names) => NamesSmaller(names);
    case _ =>
  }

  predicate ToCall(n: Node, path: seq<nat>) {
    Paths.ToItem(Children, OwnCalls, n, path)
  }

  /** The place in the list of all calls that belongs to the path. */
  function Position(n: Node, path: seq<nat>): nat
    requires ToCall(n, path)
  {
    Paths.Position(Children, OwnCalls, NodeCalls, n, path)
  }

  /** The path leads to the call that is listed at position `j`. */
  ghost predicate Finds(n: Node, path: seq<nat>, j: nat) {
    Paths.Finds(Children, OwnCalls, NodeCalls, n, path, j)
  }

  ghost predicate Found(n: Node, j: nat) {
    exists path :: Finds(n, path, j)
  }

  lemma Extend(n: Node, i: nat, rest: seq<nat>, k: nat)
    requires i < |Children(n)| && Finds(Children(n)[i], rest, k)
    ensures Finds(n, [i] + rest, |OwnCalls(n)| + |Flat(Children(n)[..i])| + k)
  {
    Paths.Extend(Children, OwnCalls, NodeCalls, n, i, rest, k);
  }

  lemma FlatFind(ns: seq<Node>, j: nat) returns (i: nat, k: nat)
    requires j < |Flat(ns)|
    ensures i < |ns| && k < |NodeCalls(ns[i])| && j == |Flat(ns[..i])| + k
  {
    i, k := Paths.FlatFind(NodeCalls, ns, j);
  }

  lemma {:induction false} StmtPath(s: Stmt, j: nat) returns (path: seq<nat>)
    requires j < |StmtCalls(s)|
    ensures Finds(AStmt(s), path, j)
    decreases s
  {
    Unfolds(AStmt(s));
    var i, k := FlatFind(StmtChildren(s), j);
    var child := StmtChildren(s)[i];
    StmtChildSmaller(s, child);
    var rest: seq<nat>;
    match child {
      case AStmt(t) => rest := StmtPath(t, k);
      case AnExpr(e) => rest := ExprPath(e, k);
      case ACall(d) => rest := CallPath(d, k);
      case AMacro(m) => rest := MacroPath(m, k);
    }
    Extend(AStmt(s), i, rest, k);
    path := [i] + rest;
  }

  lemma {:induction false} ExprPath(e: Expr, j: nat) returns (path: seq<nat>)
    requires j < |ExprCalls(e)|
    ensures Finds(AnExpr(e), path, j)
    decreases e
  {
    Unfolds(AnExpr(e));
    var i, k := FlatFind(ExprChildren(e), j);
    var child := ExprChildren(e)[i];
    ExprChildSmaller(e, child);
    var rest: seq<nat>;
    if child.AnExpr? { rest := ExprPath(child.expr, k); } else { rest := CallPath(child.call, k); }
    Extend(AnExpr(e), i, rest, k);
    path := [i] + rest;
  }

  lemma {:induction false} CallPath(d: Call, j: nat) returns (path: seq<nat>)
    requires j < |CallCalls(d)|
    ensures Finds(ACall(d), path, j)
    decreases d
  {
    path := [];
    if j > 0 {
      Unfolds(ACall(d));
      var i, k := FlatFind(Children(ACall(d)), j - 1);
      var child := Children(ACall(d))[i];
      if child in Args(d.args) { var _ := ArgOf(d.args, child); }
      var rest := ExprPath(child.expr, k);
      Extend(ACall(d), i, rest, k);
      path := [i] + rest;
    }
  }

  lemma MacroChildSmaller(m: Macro, child: Node)
    requires child in Children(AMacro(m))
    ensures child.AStmt? || child.AnExpr?
    ensures child.AStmt? ==> (m decreases to child.stmt)
    ensures child.AnExpr? ==> (m decreases to child.expr)
  {
    StmtsSmaller(m.body);
    ExprsSmaller(m.args);
    ExprsSmaller(m.defaults);
    assert child in Stmts(m.body) || child in Exprs(m.args) || child in Exprs(m.defaults);
    assert child.AStmt? ==> child.stmt in m.body;
    assert m decreases to m.body;
  }

  lemma {:induction false} MacroPath(m: Macro, j: nat) returns (path: seq<nat>)
    requires j < |MacroCalls(m)|
    ensures Finds(AMacro(m), path, j)
    decreases m
  {
    Unfolds(AMacro(m));
    var i, k := FlatFind(Children(AMacro(m)), j);
    var child := Children(AMacro(m))[i];
    MacroChildSmaller(m, child);
    var rest: seq<nat>;
    if child.AStmt? { rest := StmtPath(child.stmt, k); } else { rest := ExprPath(child.expr, k); }
    Extend(AMacro(m), i, rest, k);
    path := [i] + rest;
  }

  lemma PositionIsListed(n: Node, path: seq<nat>)
    requires ToCall(n, path)
    ensures At(n, path).Some? && At(n, path).value.ACall?
    ensures Position(n, path) < |NodeCalls(n)| && NodeCalls(n)[Position(n, path)] == At(n, path).value.call
  {
    UnfoldingHolds();
    Paths.PositionIsListed(Children, OwnCalls, NodeCalls, n, path);
  }

  /** Each path to a call has its own place in the list, and the place lists that call. */
  lemma PathsHavePlaces(s: Stmt, p: seq<nat>, q: seq<nat>)
    requires ToCall(AStmt(s), p) && ToCall(AStmt(s), q)
    ensures At(AStmt(s), p).Some? && At(AStmt(s), p).value.ACall?
    ensures Position(AStmt(s), p) < |StmtCalls(s)|
    ensures StmtCalls(s)[Position(AStmt(s), p)] == At(AStmt(s), p).value.call
    ensures Position(AStmt(s), p) == Position(AStmt(s), q) ==> p == q
  {
    UnfoldingHolds();
    PositionIsListed(AStmt(s), p);
    if Position(AStmt(s), p) == Position(AStmt(s), q) {
      Paths.PositionsDiffer(Children, OwnCalls, NodeCalls, AStmt(s), p, q);
    }
  }

  /** No place of the list is left over: together, paths to calls and places match one to one. */
  lemma PlacesHavePaths(s: Stmt, j: nat)
    requires j < |StmtCalls(s)|
    ensures Found(AStmt(s), j)
  {
    var path := StmtPath(s, j);
  }

  /** The call sits somewhere in the statement, at whatever depth. */
  ghost predicate Occurs(s: Stmt, c: Call) {
    exists path :: At(AStmt(s), path) == Some(ACall(c))
  }

  /** The listed calls of a template are exactly the calls at its paths. */
  lemma ListedIsReached(s: Stmt, c: Call)
    ensures c in StmtCalls(s) <==> Occurs(s, c)
  {
    if c in StmtCalls(s) {
      var j :| 0 <= j < |StmtCalls(s)| && StmtCalls(s)[j] == c;
      var path := StmtPath(s, j);
      PositionIsListed(AStmt(s), path);
    }
    forall path | At(AStmt(s), path) == Some(ACall(c)) ensures c in StmtCalls(s) {
      PositionIsListed(AStmt(s), path);
    }
  }
}

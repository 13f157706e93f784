/**
  The two transformations the fuzzer applies to a program without changing its
  meaning: renaming the locals of main, and parenthesizing their initializers.
*/
module EvaluatorRename {
  import opened Options
  import opened Evaluator

  // ---- the renaming ---------------------------------------------------------------------

  const PREFIX := "renamed_"

  function Renamed(x: Name, roots: set<Name>): Name {
    if x in roots then PREFIX + x else x
  }

  function RenExpr(e: Expr, roots: set<Name>): Expr {
    match e
    case IntLit(_, _) => e
    case BoolLit(_) => e
    case VarRef(name) => VarRef(Renamed(name, roots))
    case SelfField(_) => e
    case Paren(inner) => Paren(RenExpr(inner, roots))
    case Unary(op, x, t) => Unary(op, RenExpr(x, roots), t)
    case Binary(op, l, r, t) => Binary(op, RenExpr(l, roots), RenExpr(r, roots), t)
    case Cast(x, t) => Cast(RenExpr(x, roots), t)
    case IfValue(c, x, y) => IfValue(RenExpr(c, roots), RenExpr(x, roots), RenExpr(y, roots))
    case FieldGet(base, field) => FieldGet(RenExpr(base, roots), field)
    case NewObj(cls, args) => NewObj(cls, RenExprs(args, roots))
    case Call(fn, args) => Call(fn, RenExprs(args, roots))
    case MethodCall(recv, slot, args) => MethodCall(RenExpr(recv, roots), slot, RenExprs(args, roots))
    case SuperCall(owner, slot, args) => SuperCall(owner, slot, RenExprs(args, roots))
  }

  function RenExprs(es: seq<Expr>, roots: set<Name>): seq<Expr> {
    if es == [] then [] else [RenExpr(es[0], roots)] + RenExprs(es[1..], roots)
  }

  function RenParts(parts: seq<Part>, roots: set<Name>): seq<Part> {
    if parts == [] then []
    else [if parts[0].Lit? then parts[0] else Shown(RenExpr(parts[0].e, roots))] + RenParts(parts[1..], roots)
  }

  function RenBlock(ss: seq<Stmt>, roots: set<Name>): seq<Stmt>
    decreases ss, 1
  {
    if ss == [] then [] else [RenStmt(ss[0], roots)] + RenBlock(ss[1..], roots)
  }

  /** Declarations and uses of locals are renamed; loop variables, counters and
      parameters are not. */
  function RenStmt(s: Stmt, roots: set<Name>): Stmt
    decreases s, 0
  {
    match s
    case Let(name, init) => Let(Renamed(name, roots), RenExpr(init, roots))
    case Assign(name, e, op, t) => Assign(Renamed(name, roots), RenExpr(e, roots), op, t)
    case FieldAssign(name, field, e) => FieldAssign(Renamed(name, roots), field, RenExpr(e, roots))
    case SelfFieldAssign(field, e) => SelfFieldAssign(field, RenExpr(e, roots))
    case ExprStmt(e) => ExprStmt(RenExpr(e, roots))
    case Print(parts) => Print(RenParts(parts, roots))
    case If(c, thenB, elseB) => If(RenExpr(c, roots), RenBlock(thenB, roots), RenElse(elseB, roots))
    case ForRange(loopVar, lo, hi, inclusive, body) => ForRange(loopVar, lo, hi, inclusive, RenBlock(body, roots))
    case CounterLoop(counter, limit, body) => CounterLoop(counter, limit, RenBlock(body, roots))
    case Return(result) => if result.None? then s else Return(Some(RenExpr(result.value, roots)))
    case Break => s
    case Continue => s
    case Exit(_) => s
  }

  function RenElse(b: ElsePart, roots: set<Name>): ElsePart
    decreases b, 0
  {
    if b.NoElse? then b else ElseBlock(RenBlock(b.body, roots))
  }

  function RenMethod(m: MethodDecl, roots: set<Name>): MethodDecl {
    m.(body := RenBlock(m.body, roots))
  }

  function RenMethods(ms: seq<MethodDecl>, roots: set<Name>): seq<MethodDecl> {
    if ms == [] then [] else [RenMethod(ms[0], roots)] + RenMethods(ms[1..], roots)
  }

  function RenAssigns(todo: seq<InitAssign>, roots: set<Name>): seq<InitAssign> {
    if todo == [] then [] else [todo[0].(e := RenExpr(todo[0].e, roots))] + RenAssigns(todo[1..], roots)
  }

  function RenInit(init: InitDecl, roots: set<Name>): InitDecl {
    InitDecl(init.params, RenAssigns(init.assigns, roots),
             if init.superArgs.None? then None else Some(RenExprs(init.superArgs.value, roots)),
             RenBlock(init.post, roots))
  }

  function RenClass(c: ClassDecl, roots: set<Name>): ClassDecl {
    ClassDecl(c.parent, c.fields, RenMethods(c.methods, roots),
              if c.init.None? then None else Some(RenInit(c.init.value, roots)),
              if c.deinit.None? then None else Some(RenBlock(c.deinit.value, roots)))
  }

  function RenClasses(cs: seq<ClassDecl>, roots: set<Name>): (r: seq<ClassDecl>)
    ensures |r| == |cs| && forall i :: 0 <= i < |cs| ==> r[i] == RenClass(cs[i], roots)
  {
    if cs == [] then [] else [RenClass(cs[0], roots)] + RenClasses(cs[1..], roots)
  }

  function RenFn(f: FnDecl, roots: set<Name>): FnDecl {
    f.(body := RenBlock(f.body, roots))
  }

  function RenFns(fs: seq<FnDecl>, roots: set<Name>): seq<FnDecl> {
    if fs == [] then [] else RenFns(fs[..|fs| - 1], roots) + [RenFn(fs[|fs| - 1], roots)]
  }

  /** The names main declares at its top level. */
  function RootLocals(main: seq<Stmt>): set<Name> {
    if main == [] then {}
    else (if main[0].Let? then {main[0].name} else {}) + RootLocals(main[1..])
  }

  function Rename(p: Program): Program {
    var roots := RootLocals(p.main);
    Program(RenClasses(p.classes, roots), RenFns(p.fns, roots), RenBlock(p.main, roots))
  }

  // ---- programs whose names allow it ---------------------------------------------------------

  /** The name is not one that renaming makes. */
  predicate Apart(x: Name, roots: set<Name>) {
    forall r :: r in roots ==> x != PREFIX + r
  }

  /** A binding that renaming does not touch. */
  predicate Untouched(x: Name, roots: set<Name>) {
    x !in roots && Apart(x, roots)
  }

  predicate AllUntouched(xs: seq<Name>, roots: set<Name>) {
    forall i :: 0 <= i < |xs| ==> Untouched(xs[i], roots)
  }

  predicate ExprApart(e: Expr, roots: set<Name>) {
    match e
    case IntLit(_, _) => true
    case BoolLit(_) => true
    case VarRef(name) => Apart(name, roots)
    case SelfField(_) => true
    case Paren(inner) => ExprApart(inner, roots)
    case Unary(_, x, _) => ExprApart(x, roots)
    case Binary(_, l, r, _) => ExprApart(l, roots) && ExprApart(r, roots)
    case Cast(x, _) => ExprApart(x, roots)
    case IfValue(c, x, y) => ExprApart(c, roots) && ExprApart(x, roots) && ExprApart(y, roots)
    case FieldGet(base, _) => ExprApart(base, roots)
    case NewObj(_, args) => ExprsApart(args, roots)
    case Call(_, args) => ExprsApart(args, roots)
    case MethodCall(recv, _, args) => ExprApart(recv, roots) && ExprsApart(args, roots)
    case SuperCall(_, _, args) => ExprsApart(args, roots)
  }

  predicate ExprsApart(es: seq<Expr>, roots: set<Name>) {
    es == [] || (ExprApart(es[0], roots) && ExprsApart(es[1..], roots))
  }

  predicate PartsApart(parts: seq<Part>, roots: set<Name>) {
    forall i :: 0 <= i < |parts| ==> parts[i].Shown? ==> ExprApart(parts[i].e, roots)
  }

  predicate BlockApart(ss: seq<Stmt>, roots: set<Name>)
    decreases ss, 1
  {
    ss == [] || (StmtApart(ss[0], roots) && BlockApart(ss[1..], roots))
  }

  predicate StmtApart(s: Stmt, roots: set<Name>)
    decreases s, 0
  {
    match s
    case Let(name, init) => Apart(name, roots) && ExprApart(init, roots)
    case Assign(name, e, _, _) => Apart(name, roots) && ExprApart(e, roots)
    case FieldAssign(name, _, e) => Apart(name, roots) && ExprApart(e, roots)
    case SelfFieldAssign(_, e) => ExprApart(e, roots)
    case ExprStmt(e) => ExprApart(e, roots)
    case Print(parts) => PartsApart(parts, roots)
    case If(c, thenB, elseB) =>
      ExprApart(c, roots) && BlockApart(thenB, roots) && (elseB.ElseBlock? ==> BlockApart(elseB.body, roots))
    case ForRange(loopVar, _, _, _, body) => Untouched(loopVar, roots) && BlockApart(body, roots)
    case CounterLoop(counter, _, body) => Untouched(counter, roots) && BlockApart(body, roots)
    case Return(result) => result.Some? ==> ExprApart(result.value, roots)
    case Break => true
    case Continue => true
    case Exit(_) => true
  }

  predicate MethodApart(m: MethodDecl, roots: set<Name>) {
    AllUntouched(m.params, roots) && BlockApart(m.body, roots)
  }

  predicate InitApart(init: InitDecl, roots: set<Name>) {
    && AllUntouched(init.params, roots)
    && (forall i :: 0 <= i < |init.assigns| ==> ExprApart(init.assigns[i].e, roots))
    && (init.superArgs.Some? ==> ExprsApart(init.superArgs.value, roots))
    && BlockApart(init.post, roots)
  }

  predicate ClassApart(c: ClassDecl, roots: set<Name>) {
    && (forall i :: 0 <= i < |c.methods| ==> MethodApart(c.methods[i], roots))
    && (c.init.Some? ==> InitApart(c.init.value, roots))
    && (c.deinit.Some? ==> BlockApart(c.deinit.value, roots))
  }

  predicate FnApart(f: FnDecl, roots: set<Name>) {
    AllUntouched(f.params, roots) && BlockApart(f.body, roots)
  }

  /** No name is one that renaming makes, and no parameter, loop variable or
      counter shares its name with a local of main. */
  predicate NamesApart(p: Program, roots: set<Name>) {
    && SELF !in roots
    && (forall i :: 0 <= i < |p.classes| ==> ClassApart(p.classes[i], roots))
    && (forall i :: 0 <= i < |p.fns| ==> FnApart(p.fns[i], roots))
  }

  predicate Renamable(p: Program) {
    NamesApart(p, RootLocals(p.main)) && BlockApart(p.main, RootLocals(p.main))
  }
}

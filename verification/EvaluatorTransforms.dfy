/**
  What the two transformations do to the text of a program: renaming leaves none of the
  names it renames, and parenthesizing touches the initializers of main's own locals only.
*/
module EvaluatorTransforms {
  import opened Options
  import opened Evaluator
  import opened EvaluatorRename
  import opened EvaluatorRenamed

  // ---- renaming -------------------------------------------------------------------------

  /** The expression reads none of these names. */
  predicate ExprFree(e: Expr, roots: set<Name>) {
    match e
    case IntLit(_, _) => true
    case BoolLit(_) => true
    case VarRef(name) => name !in roots
    case SelfField(_) => true
    case Paren(inner) => ExprFree(inner, roots)
    case Unary(_, x, _) => ExprFree(x, roots)
    case Binary(_, l, r, _) => ExprFree(l, roots) && ExprFree(r, roots)
    case Cast(x, _) => ExprFree(x, roots)
    case IfValue(c, x, y) => ExprFree(c, roots) && ExprFree(x, roots) && ExprFree(y, roots)
    case FieldGet(base, _) => ExprFree(base, roots)
    case NewObj(_, args) => ExprsFree(args, roots)
    case Call(_, args) => ExprsFree(args, roots)
    case MethodCall(recv, _, args) => ExprFree(recv, roots) && ExprsFree(args, roots)
    case SuperCall(_, _, args) => ExprsFree(args, roots)
  }

  predicate ExprsFree(es: seq<Expr>, roots: set<Name>) {
    forall i :: 0 <= i < |es| ==> ExprFree(es[i], roots)
  }

  predicate PartsFree(parts: seq<Part>, roots: set<Name>) {
    forall i :: 0 <= i < |parts| ==> parts[i].Shown? ==> ExprFree(parts[i].e, roots)
  }

  /** The statement declares, assigns and reads none of them. */
  predicate StmtFree(s: Stmt, roots: set<Name>) {
    match s
    case Let(name, init) => name !in roots && ExprFree(init, roots)
    case Assign(name, e, _, _) => name !in roots && ExprFree(e, roots)
    case FieldAssign(name, _, e) => name !in roots && ExprFree(e, roots)
    case SelfFieldAssign(_, e) => ExprFree(e, roots)
    case ExprStmt(e) => ExprFree(e, roots)
    case Print(parts) => PartsFree(parts, roots)
    case If(c, thenB, elseB) =>
      ExprFree(c, roots) && BlockFree(thenB, roots) && (elseB.ElseBlock? ==> BlockFree(elseB.body, roots))
    case ForRange(_, _, _, _, body) => BlockFree(body, roots)
    case CounterLoop(_, _, body) => BlockFree(body, roots)
    case Return(result) => result.Some? ==> ExprFree(result.value, roots)
    case Break => true
    case Continue => true
    case Exit(_) => true
  }

  predicate BlockFree(ss: seq<Stmt>, roots: set<Name>) {
    forall i :: 0 <= i < |ss| ==> StmtFree(ss[i], roots)
  }

  /** No new name is an old one. */
  predicate Fresh(roots: set<Name>) {
    forall r :: r in roots ==> PREFIX + r !in roots
  }

  lemma RenamedFree(x: Name, roots: set<Name>)
    requires Fresh(roots)
    ensures Renamed(x, roots) !in roots
  {
  }

  lemma {:induction false} RenExprFree(e: Expr, roots: set<Name>)
    requires Fresh(roots)
    ensures ExprFree(RenExpr(e, roots), roots)
    decreases e
  {
    hide Fresh, Renamed;
    match e
    case IntLit(_, _) =>
    case BoolLit(_) =>
    case VarRef(name) => RenamedFree(name, roots);
    case SelfField(_) =>
    case Paren(inner) => RenExprFree(inner, roots);
    case Unary(_, x, _) => RenExprFree(x, roots);
    case Binary(_, l, r, _) => RenExprFree(l, roots); RenExprFree(r, roots);
    case Cast(x, _) => RenExprFree(x, roots);
    case IfValue(c, x, y) => RenExprFree(c, roots); RenExprFree(x, roots); RenExprFree(y, roots);
    case FieldGet(base, _) => RenExprFree(base, roots);
    case NewObj(_, args) => RenExprsFree(args, roots);
    case Call(_, args) => RenExprsFree(args, roots);
    case MethodCall(recv, _, args) => RenExprFree(recv, roots); RenExprsFree(args, roots);
    case SuperCall(_, _, args) => RenExprsFree(args, roots);
  }

  lemma {:induction false} RenExprsFree(es: seq<Expr>, roots: set<Name>)
    requires Fresh(roots)
    ensures ExprsFree(RenExprs(es, roots), roots)
    decreases es
  {
    hide Fresh, RenExpr, ExprFree;
    if es != [] {
      RenExprFree(es[0], roots);
      RenExprsFree(es[1..], roots);
    }
  }

  lemma {:induction false} RenPartsFree(parts: seq<Part>, roots: set<Name>)
    requires Fresh(roots)
    ensures PartsFree(RenParts(parts, roots), roots)
  {
    hide Fresh, RenExpr, ExprFree;
    if parts != [] {
      if parts[0].Shown? {
        RenExprFree(parts[0].e, roots);
      }
      RenPartsFree(parts[1..], roots);
    }
  }

  lemma {:induction false} RenBlockFree(ss: seq<Stmt>, roots: set<Name>)
    requires Fresh(roots)
    ensures BlockFree(RenBlock(ss, roots), roots)
    decreases ss, 1
  {
    hide Fresh, RenStmt, StmtFree;
    if ss != [] {
      RenStmtFree(ss[0], roots);
      RenBlockFree(ss[1..], roots);
    }
  }

  lemma {:induction false} RenStmtFree(s: Stmt, roots: set<Name>)
    requires Fresh(roots)
    ensures StmtFree(RenStmt(s, roots), roots)
    decreases s, 0
  {
    hide Fresh, RenExpr, ExprFree, RenBlock, BlockFree, RenParts, PartsFree, Renamed;
    match s
    case Let(name, init) => RenamedFree(name, roots); RenExprFree(init, roots);
    case Assign(name, e, _, _) => RenamedFree(name, roots); RenExprFree(e, roots);
    case FieldAssign(name, _, e) => RenamedFree(name, roots); RenExprFree(e, roots);
    case SelfFieldAssign(_, e) => RenExprFree(e, roots);
    case ExprStmt(e) => RenExprFree(e, roots);
    case Print(parts) => RenPartsFree(parts, roots);
    case If(c, thenB, elseB) =>
      RenExprFree(c, roots);
      RenBlockFree(thenB, roots);
      if elseB.ElseBlock? {
        RenBlockFree(elseB.body, roots);
      }
    case ForRange(_, _, _, _, body) => RenBlockFree(body, roots);
    case CounterLoop(_, _, body) => RenBlockFree(body, roots);
    case Return(result) =>
      if result.Some? {
        RenExprFree(result.value, roots);
      }
    case Break =>
    case Continue =>
    case Exit(_) =>
  }

  /** Renaming a program whose names are apart leaves no declaration, assignment or use of
      a name that main declared at its top level. */
  lemma RenamingLeavesNone(p: Program)
    requires Renamable(p)
    ensures var roots := RootLocals(p.main);
      && BlockFree(Rename(p).main, roots)
      && (forall i :: 0 <= i < |Rename(p).fns| ==> BlockFree(Rename(p).fns[i].body, roots))
      && (forall i :: 0 <= i < |Rename(p).classes| ==> ClassFree(Rename(p).classes[i], roots))
  {
    hide BlockFree, ClassFree;
    var roots := RootLocals(p.main);
    RootsAreApart(p.main, roots);
    RenBlockFree(p.main, roots);
    RenFnsFree(p.fns, roots);
    forall i | 0 <= i < |p.classes| ensures ClassFree(RenClass(p.classes[i], roots), roots) {
      RenClassFree(p.classes[i], roots);
    }
  }

  predicate AssignsFree(todo: seq<InitAssign>, roots: set<Name>) {
    forall i :: 0 <= i < |todo| ==> ExprFree(todo[i].e, roots)
  }

  predicate InitFree(init: InitDecl, roots: set<Name>) {
    && AssignsFree(init.assigns, roots) && BlockFree(init.post, roots)
    && (init.superArgs.Some? ==> ExprsFree(init.superArgs.value, roots))
  }

  predicate ClassFree(c: ClassDecl, roots: set<Name>) {
    && (forall i :: 0 <= i < |c.methods| ==> BlockFree(c.methods[i].body, roots))
    && (c.init.Some? ==> InitFree(c.init.value, roots))
    && (c.deinit.Some? ==> BlockFree(c.deinit.value, roots))
  }

  lemma {:induction false} RenClassFree(c: ClassDecl, roots: set<Name>)
    requires Fresh(roots)
    ensures ClassFree(RenClass(c, roots), roots)
  {
    hide Fresh, BlockFree, RenBlock, InitFree, RenInit;
    RenMethodsFree(c.methods, roots);
    if c.init.Some? {
      RenInitFree(c.init.value, roots);
    }
    if c.deinit.Some? {
      RenBlockFree(c.deinit.value, roots);
    }
  }

  lemma RenInitFree(init: InitDecl, roots: set<Name>)
    requires Fresh(roots)
    ensures InitFree(RenInit(init, roots), roots)
  {
    hide Fresh, BlockFree, RenBlock, ExprsFree, RenExprs, AssignsFree, RenAssigns;
    RenAssignsFree(init.assigns, roots);
    RenBlockFree(init.post, roots);
    if init.superArgs.Some? {
      RenExprsFree(init.superArgs.value, roots);
    }
  }

  lemma {:induction false} RenAssignsFree(todo: seq<InitAssign>, roots: set<Name>)
    requires Fresh(roots)
    ensures AssignsFree(RenAssigns(todo, roots), roots)
  {
    hide Fresh, RenExpr, ExprFree;
    if todo != [] {
      RenExprFree(todo[0].e, roots);
      RenAssignsFree(todo[1..], roots);
    }
  }

  lemma {:induction false} RenMethodsFree(ms: seq<MethodDecl>, roots: set<Name>)
    requires Fresh(roots)
    ensures forall i :: 0 <= i < |RenMethods(ms, roots)| ==> BlockFree(RenMethods(ms, roots)[i].body, roots)
  {
    hide Fresh, RenBlock, BlockFree;
    if ms != [] {
      RenMethodsFree(ms[1..], roots);
      RenBlockFree(ms[0].body, roots);
    }
  }

  lemma {:induction false} RenFnsFree(fs: seq<FnDecl>, roots: set<Name>)
    requires Fresh(roots)
    ensures forall i :: 0 <= i < |RenFns(fs, roots)| ==> BlockFree(RenFns(fs, roots)[i].body, roots)
  {
    hide Fresh, RenBlock, BlockFree;
    if fs != [] {
      RenFnsFree(fs[..|fs| - 1], roots);
      RenBlockFree(fs[|fs| - 1].body, roots);
    }
  }

  lemma {:induction false} RootsAreApart(main: seq<Stmt>, roots: set<Name>)
    requires BlockApart(main, roots)
    ensures forall x :: x in RootLocals(main) ==> Apart(x, roots)
  {
    if main != [] {
      RootsAreApart(main[1..], roots);
    }
  }

  // ---- parentheses -------------------------------------------------------------------------

  /** Parenthesizing wraps the initializer of every local main declares at its top level,
      and leaves every other statement and all declarations as they are. */
  lemma ParenthesesWrap(p: Program)
    ensures var q := Parenthesize(p);
      && q.classes == p.classes && q.fns == p.fns && |q.main| == |p.main|
      && forall i :: 0 <= i < |p.main| ==>
           q.main[i] == if p.main[i].Let? then Let(p.main[i].name, Paren(p.main[i].init)) else p.main[i]
  {
    RootsWrapped(p.main);
  }

  lemma {:induction false} RootsWrapped(main: seq<Stmt>)
    ensures |ParenRoots(main)| == |main|
    ensures forall i :: 0 <= i < |main| ==>
      ParenRoots(main)[i] == if main[i].Let? then Let(main[i].name, Paren(main[i].init)) else main[i]
  {
    if main != [] {
      RootsWrapped(main[1..]);
      forall i | 1 <= i < |main|
        ensures ParenRoots(main)[i] == if main[i].Let? then Let(main[i].name, Paren(main[i].init)) else main[i]
      {
        assert ParenRoots(main)[i] == ParenRoots(main[1..])[i - 1] && main[i] == main[1..][i - 1];
      }
    }
  }
}

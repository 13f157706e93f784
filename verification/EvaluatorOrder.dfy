/**
  Programs whose calls go down: a method body calls methods of lower slots only and
  its super calls keep the slot and leave from its own class, a function calls
  functions declared before it, an initializer makes objects of earlier classes.
  What one evaluation can cost is then a number computed by recursion on the slot,
  the implementing class and the expression; no state enters it.
*/
module EvaluatorOrder {
  import opened Options
  import opened Evaluator
  import opened EvaluatorScopes

  /** The body an expression stands in: the initializer of a class, the method of a
      slot implemented by a class, a function, or main. */
  datatype Home = InInit(cls: ClassId) | InMethod(slot: nat, impl: ClassId) | InFn(index: nat) | InMain

  function Kind(h: Home): nat {
    match h
    case InInit(_) => 0
    case InMethod(_, _) => 1
    case InFn(_) => 2
    case InMain => 3
  }

  function First(h: Home): nat {
    match h
    case InInit(cls) => cls
    case InMethod(slot, _) => slot
    case InFn(index) => index
    case InMain => 0
  }

  function Second(h: Home): nat {
    if h.InMethod? then h.impl + 1 else 0
  }

  /** Where a function of this name is found; |fs| when it is not declared. */
  function FnIndex(fs: seq<FnDecl>, name: Name): (i: nat)
    ensures i <= |fs|
  {
    if fs == [] then 0
    else if fs[|fs| - 1].name == name then |fs| - 1
    else
      var i := FnIndex(fs[..|fs| - 1], name);
      if i == |fs| - 1 then |fs| else i
  }

  lemma {:induction false} FnIndexFinds(fs: seq<FnDecl>, name: Name)
    ensures var i := FnIndex(fs, name);
      FindFn(fs, name) == if i < |fs| then Some(fs[i]) else None
  {
    if fs != [] && fs[|fs| - 1].name != name {
      FnIndexFinds(fs[..|fs| - 1], name);
    }
  }

  // ---- what each body may call -----------------------------------------------------------

  predicate MayMake(h: Home, cls: ClassId) {
    h.InInit? ==> cls < h.cls
  }

  predicate MaySend(h: Home, slot: nat) {
    !h.InInit? && (h.InMethod? ==> slot < h.slot)
  }

  predicate MaySuper(h: Home, owner: ClassId, slot: nat) {
    h.InMethod? && slot == h.slot && owner == h.impl
  }

  predicate MayCall(h: Home, index: nat) {
    h.InMain? || (h.InFn? && index < h.index)
  }

  predicate OrderedExpr(p: Program, h: Home, e: Expr)
    decreases e, 1
  {
    match e
    case IntLit(_, _) => true
    case BoolLit(_) => true
    case VarRef(_) => true
    case SelfField(_) => true
    case Paren(inner) => OrderedExpr(p, h, inner)
    case Unary(_, x, _) => OrderedExpr(p, h, x)
    case Binary(_, l, r, _) => OrderedExpr(p, h, l) && OrderedExpr(p, h, r)
    case Cast(x, _) => OrderedExpr(p, h, x)
    case IfValue(c, x, y) => OrderedExpr(p, h, c) && OrderedExpr(p, h, x) && OrderedExpr(p, h, y)
    case FieldGet(base, _) => OrderedExpr(p, h, base)
    case NewObj(cls, args) => MayMake(h, cls) && OrderedArgs(p, h, args)
    case Call(fn, args) => MayCall(h, FnIndex(p.fns, fn)) && OrderedArgs(p, h, args)
    case MethodCall(recv, slot, args) => MaySend(h, slot) && OrderedExpr(p, h, recv) && OrderedArgs(p, h, args)
    case SuperCall(owner, slot, args) => MaySuper(h, owner, slot) && OrderedArgs(p, h, args)
  }

  predicate OrderedArgs(p: Program, h: Home, es: seq<Expr>)
    decreases es, 0
  {
    es == [] || (OrderedExpr(p, h, es[0]) && OrderedArgs(p, h, es[1..]))
  }

  predicate OrderedParts(p: Program, h: Home, parts: seq<Part>)
    decreases parts, 0
  {
    parts == [] || ((parts[0].Shown? ==> OrderedExpr(p, h, parts[0].e)) && OrderedParts(p, h, parts[1..]))
  }

  predicate OrderedStmt(p: Program, h: Home, s: Stmt)
    decreases s, 0
  {
    match s
    case Let(_, init) => OrderedExpr(p, h, init)
    case Assign(_, e, _, _) => OrderedExpr(p, h, e)
    case FieldAssign(_, _, e) => OrderedExpr(p, h, e)
    case SelfFieldAssign(_, e) => OrderedExpr(p, h, e)
    case ExprStmt(e) => OrderedExpr(p, h, e)
    case Print(parts) => OrderedParts(p, h, parts)
    case If(c, thenB, elseB) =>
      OrderedExpr(p, h, c) && OrderedBlock(p, h, thenB) && (elseB.ElseBlock? ==> OrderedBlock(p, h, elseB.body))
    case ForRange(_, _, _, _, body) => OrderedBlock(p, h, body)
    case CounterLoop(_, _, body) => OrderedBlock(p, h, body)
    case Return(result) => result.Some? ==> OrderedExpr(p, h, result.value)
    case _ => true
  }

  predicate OrderedBlock(p: Program, h: Home, ss: seq<Stmt>)
    decreases ss, 1
  {
    ss == [] || (OrderedStmt(p, h, ss[0]) && OrderedBlock(p, h, ss[1..]))
  }

  predicate OrderedAssigns(p: Program, h: Home, todo: seq<InitAssign>)
    decreases |todo|
  {
    todo == [] || (OrderedExpr(p, h, todo[0].e) && OrderedAssigns(p, h, todo[1..]))
  }

  predicate OrderedInit(p: Program, h: Home, init: InitDecl) {
    && OrderedAssigns(p, h, init.assigns)
    && (init.superArgs.Some? ==> OrderedArgs(p, h, init.superArgs.value))
    && OrderedBlock(p, h, init.post)
  }

  predicate OrderedMethods(p: Program, k: ClassId, ms: seq<MethodDecl>) {
    forall j :: 0 <= j < |ms| ==> OrderedBlock(p, InMethod(ms[j].slot, k), ms[j].body)
  }

  predicate OrderedClass(p: Program, k: ClassId, c: ClassDecl) {
    && OrderedMethods(p, k, c.methods)
    && (c.init.Some? ==> OrderedInit(p, InInit(k), c.init.value))
    && (c.deinit.Some? ==> PrintsOwnFields(c.deinit.value))
  }

  /** What the generator of programs guarantees about calls. */
  predicate Ordered(p: Program) {
    && (forall k :: 0 <= k < |p.classes| ==> OrderedClass(p, k, p.classes[k]))
    && (forall i :: 0 <= i < |p.fns| ==> OrderedBlock(p, InFn(i), p.fns[i].body))
    && OrderedBlock(p, InMain, p.main)
  }

  lemma {:induction false} FoundMethod(p: Program, k: ClassId, ms: seq<MethodDecl>, slot: nat)
    requires OrderedMethods(p, k, ms)
    ensures var m := FindMethod(ms, slot);
      m.Some? ==> OrderedBlock(p, InMethod(slot, k), m.value.body)
  {
    if ms != [] && ms[0].slot != slot {
      FoundMethod(p, k, ms[1..], slot);
    }
  }

  // ---- what they cost ----------------------------------------------------------------------

  /** The statements of the deinit bodies of the first n classes. */
  function DeinitLines(p: Program, n: nat): nat {
    if n == 0 || n > |p.classes| then 0
    else
      DeinitLines(p, n - 1) +
      if p.classes[n - 1].deinit.Some? then |p.classes[n - 1].deinit.value| else 0
  }

  /** One release, not counting the releases of the fields it unlinks. */
  function Toll(p: Program): nat {
    1 + DeinitLines(p, |p.classes|)
  }

  function Times(n: nat, c: nat): nat {
    if n == 0 then 0 else c + Times(n - 1, c)
  }

  /** The releases of n values. */
  function Tolls(p: Program, n: nat): nat {
    Times(n, Toll(p))
  }

  function ExprCost(p: Program, h: Home, e: Expr): nat
    decreases Kind(h), First(h), Second(h), 0, e, 1
  {
    match e
    case IntLit(_, _) => 0
    case BoolLit(_) => 0
    case VarRef(_) => 0
    case SelfField(_) => 0
    case Paren(inner) => ExprCost(p, h, inner)
    case Unary(_, x, _) => ExprCost(p, h, x)
    case Binary(_, l, r, _) => ExprCost(p, h, l) + ExprCost(p, h, r)
    case Cast(x, _) => ExprCost(p, h, x)
    case IfValue(c, x, y) => ExprCost(p, h, c) + ExprCost(p, h, x) + ExprCost(p, h, y)
    case FieldGet(base, _) => ExprCost(p, h, base) + Toll(p)
    case NewObj(cls, args) =>
      ArgsCost(p, h, args) + Tolls(p, |args|) + if MayMake(h, cls) then InitCost(p, cls) else 0
    case Call(fn, args) =>
      var i := FnIndex(p.fns, fn);
      ArgsCost(p, h, args) + Tolls(p, |args|) + if MayCall(h, i) then FnCost(p, i) else 0
    case MethodCall(recv, slot, args) =>
      ExprCost(p, h, recv) + ArgsCost(p, h, args) + Tolls(p, |args|) + Toll(p) +
      if MaySend(h, slot) then SlotCost(p, slot, |p.classes|) else 0
    case SuperCall(owner, slot, args) =>
      ArgsCost(p, h, args) + Tolls(p, |args|) + if MaySuper(h, owner, slot) then SlotCost(p, slot, owner) else 0
  }

  function ArgsCost(p: Program, h: Home, es: seq<Expr>): nat
    decreases Kind(h), First(h), Second(h), 0, es, 0
  {
    if es == [] then 0 else ExprCost(p, h, es[0]) + ArgsCost(p, h, es[1..])
  }

  function PartsCost(p: Program, h: Home, parts: seq<Part>): nat
    decreases Kind(h), First(h), Second(h), 0, parts, 0
  {
    if parts == [] then 0
    else PartCost(p, h, parts[0]) + PartsCost(p, h, parts[1..])
  }

  function PartCost(p: Program, h: Home, part: Part): nat
    decreases Kind(h), First(h), Second(h), 0, part, 0
  {
    if part.Shown? then ExprCost(p, h, part.e) else 0
  }

  function StmtCost(p: Program, h: Home, s: Stmt): nat
    decreases Kind(h), First(h), Second(h), 0, s, 0
  {
    match s
    case Let(_, init) => ExprCost(p, h, init) + Toll(p)
    case Assign(_, e, _, _) => ExprCost(p, h, e) + 2 * Toll(p)
    case FieldAssign(_, _, e) => ExprCost(p, h, e) + 2 * Toll(p)
    case SelfFieldAssign(_, e) => ExprCost(p, h, e) + 2 * Toll(p)
    case ExprStmt(e) => ExprCost(p, h, e) + Toll(p)
    case Print(parts) => PartsCost(p, h, parts)
    case If(c, thenB, elseB) =>
      ExprCost(p, h, c) + BlockCost(p, h, thenB) + if elseB.ElseBlock? then BlockCost(p, h, elseB.body) else 0
    case ForRange(_, lo, hi, inclusive, body) =>
      var last := if inclusive then hi + 1 else hi;
      Times(if lo < last then last - lo else 0, Toll(p) + BlockCost(p, h, body))
    case CounterLoop(_, _, body) => Toll(p) + Times(GUARD_LIMIT, BlockCost(p, h, body))
    case Return(result) => if result.Some? then ExprCost(p, h, result.value) else 0
    case _ => 0
  }

  function BlockCost(p: Program, h: Home, ss: seq<Stmt>): nat
    decreases Kind(h), First(h), Second(h), 0, ss, 1
  {
    if ss == [] then 0 else 1 + StmtCost(p, h, ss[0]) + BlockCost(p, h, ss[1..])
  }

  /** An implementation of a slot by a class. */
  function MethodCost(p: Program, slot: nat, k: ClassId): nat
    requires k < |p.classes|
    decreases 1, slot, k + 1, 1
  {
    var m := FindMethod(p.classes[k].methods, slot);
    if m.None? then 0 else 1 + BlockCost(p, InMethod(slot, k), m.value.body)
  }

  /** All implementations of a slot by the first n classes: which of them runs is
      decided by the receiver. */
  function SlotCost(p: Program, slot: nat, n: nat): nat
    decreases 1, slot, n, 2
  {
    if n == 0 then 0
    else SlotCost(p, slot, n - 1) + if n <= |p.classes| then MethodCost(p, slot, n - 1) else 0
  }

  /** A call of an undeclared function burns its fuel too. */
  function FnCost(p: Program, i: nat): nat
    decreases 2, i, 0, 1
  {
    if i < |p.fns| then 1 + BlockCost(p, InFn(i), p.fns[i].body) else 1
  }

  function InitCost(p: Program, cls: ClassId): nat
    decreases 0, cls, 0, 3
  {
    1 + RunInitCost(p, cls)
  }

  function RunInitCost(p: Program, cls: ClassId): nat
    decreases 0, cls, 0, 2
  {
    if cls >= |p.classes| || p.classes[cls].init.None? then 0
    else
      var init := p.classes[cls].init.value;
      var h := InInit(cls);
      AssignsCost(p, h, init.assigns) + RunSuperCost(p, cls) + BlockCost(p, h, init.post)
  }

  function RunSuperCost(p: Program, cls: ClassId): nat
    requires cls < |p.classes| && p.classes[cls].init.Some?
    decreases 0, cls, 0, 1
  {
    var sup := p.classes[cls].init.value.superArgs;
    if sup.None? then 0
    else
      var base := p.classes[cls].parent;
      ArgsCost(p, InInit(cls), sup.value) + Tolls(p, |sup.value|) +
      if base.Some? && base.value < cls then RunInitCost(p, base.value) else 0
  }

  function AssignsCost(p: Program, h: Home, todo: seq<InitAssign>): nat
    decreases Kind(h), First(h), Second(h), 1, |todo|
  {
    if todo == [] then 0 else ExprCost(p, h, todo[0].e) + 2 * Toll(p) + AssignsCost(p, h, todo[1..])
  }

  /** The whole program. */
  function MainCost(p: Program): nat {
    BlockCost(p, InMain, p.main)
  }

  // ---- arithmetic of costs --------------------------------------------------------------------

  lemma {:induction false} TimesSum(a: nat, b: nat, c: nat)
    ensures Times(a + b, c) == Times(a, c) + Times(b, c)
  {
    if a > 0 {
      TimesSum(a - 1, b, c);
    }
  }

  lemma TollsSum(p: Program, a: nat, b: nat)
    ensures Tolls(p, a + b) == Tolls(p, a) + Tolls(p, b)
  {
    TimesSum(a, b, Toll(p));
  }

  lemma TollsOne(p: Program, n: nat)
    ensures Tolls(p, n + 1) == Tolls(p, n) + Toll(p) && Tolls(p, 0) == 0 && Tolls(p, 1) == Toll(p)
  {
    assert Times(1, Toll(p)) == Toll(p) + Times(0, Toll(p));
  }

  lemma {:induction false} TollsGrow(p: Program, a: nat, b: nat)
    requires a <= b
    ensures Tolls(p, a) <= Tolls(p, b)
  {
    TollsSum(p, a, b - a);
  }

  lemma {:induction false} SlotCostCovers(p: Program, slot: nat, k: ClassId, n: nat)
    requires k < n && k < |p.classes|
    ensures MethodCost(p, slot, k) <= SlotCost(p, slot, n)
    decreases n
  {
    if k < n - 1 {
      SlotCostCovers(p, slot, k, n - 1);
    }
  }

  lemma {:induction false} DeinitLinesGrow(p: Program, a: nat, b: nat)
    requires a <= b <= |p.classes|
    ensures DeinitLines(p, a) <= DeinitLines(p, b)
    decreases b
  {
    if a < b {
      DeinitLinesGrow(p, a, b - 1);
    }
  }

  /** A resolved method is implemented by a class of the chain. */
  lemma {:induction false} ResolvedAt(p: Program, chain: seq<ClassId>, slot: nat) returns (k: ClassId)
    requires Ordered(p) && Declared(p, chain) && Resolve(p, chain, slot).Some?
    ensures k in chain && k < |p.classes|
    ensures var m := Resolve(p, chain, slot);
      && FindMethod(p.classes[k].methods, slot) == m
      && OrderedBlock(p, InMethod(slot, k), m.value.body)
  {
    if FindMethod(p.classes[chain[0]].methods, slot).Some? {
      k := chain[0];
      assert OrderedClass(p, k, p.classes[k]);
      FoundMethod(p, k, p.classes[k].methods, slot);
    } else {
      k := ResolvedAt(p, chain[1..], slot);
    }
  }

  /** The bases of a class have smaller numbers. */
  lemma {:induction false} ChainBelow(p: Program, c: ClassId)
    ensures forall k :: k in Chain(p, c) ==> k <= c
    ensures Chain(p, c) != [] ==> Chain(p, c)[0] == c && forall k :: k in Chain(p, c)[1..] ==> k < c
  {
    if c < |p.classes| && p.classes[c].parent.Some? && p.classes[c].parent.value < c {
      ChainBelow(p, p.classes[c].parent.value);
      assert Chain(p, c)[1..] == Chain(p, p.classes[c].parent.value);
    }
  }
}

/**
  Programs of the fragment, and what running them does to the names in scope:
  a block leaves the scopes around it with the names they had.
*/
module EvaluatorScopes {
  import opened Options
  import opened Evaluator
  import opened EvaluatorFrame

  // ---- programs of the fragment -----------------------------------------------------

  /** The name a statement adds to the scope it stands in. */
  function Binds(s: Stmt): set<Name> {
    match s
    case Let(name, _) => {name}
    case CounterLoop(counter, _, _) => {counter}
    case _ => {}
  }

  /** No name is declared twice in one scope. */
  predicate WellScoped(ss: seq<Stmt>, taken: set<Name>)
    decreases ss, 1
  {
    ss == [] || (WellScopedStmt(ss[0], taken) && WellScoped(ss[1..], taken + Binds(ss[0])))
  }

  predicate WellScopedStmt(s: Stmt, taken: set<Name>)
    decreases s, 0
  {
    Binds(s) !! taken &&
    match s
    case If(_, thenB, elseB) => WellScoped(thenB, {}) && (elseB.ElseBlock? ==> WellScoped(elseB.body, {}))
    case ForRange(loopVar, _, _, _, body) => WellScoped(body, {loopVar})
    case CounterLoop(_, _, body) => WellScoped(body, {})
    case _ => true
  }

  function ParamSet(params: seq<Name>): set<Name> {
    set n | n in params
  }

  predicate WellScopedBody(params: seq<Name>, body: seq<Stmt>) {
    WellScoped(body, {SELF} + ParamSet(params))
  }

  predicate Prints(ss: seq<Stmt>) {
    forall k :: 0 <= k < |ss| ==> ss[k].Print?
  }

  /** The statements of a deinit body print fields of the dying object. */
  predicate PrintsOwnFields(ss: seq<Stmt>) {
    forall k :: 0 <= k < |ss| ==> ss[k].Print? && OwnFields(ss[k].parts)
  }

  predicate OwnFields(parts: seq<Part>) {
    forall j :: 0 <= j < |parts| ==> parts[j].Shown? ==> parts[j].e.SelfField?
  }

  predicate WellFormedInit(init: InitDecl) {
    && (forall k :: 0 <= k < |init.assigns| ==> SelfFree(init.assigns[k].e))
    && (init.superArgs.Some? ==> AllSelfFree(init.superArgs.value))
    && Prints(init.post)
  }

  predicate WellFormedClass(c: ClassDecl) {
    && (c.init.Some? ==> WellFormedInit(c.init.value))
    && (c.deinit.Some? ==> PrintsOwnFields(c.deinit.value))
  }

  /** What the fuzzer's generator keeps to in classes: initializer expressions do
      not mention the object under construction, the statements after them only
      print, and deinit bodies only print own fields. */
  predicate WellFormed(p: Program) {
    forall k :: 0 <= k < |p.classes| ==> WellFormedClass(p.classes[k])
  }

  /** The part of it that concerns releases. */
  predicate QuietDeinits(p: Program) {
    forall k :: 0 <= k < |p.classes| && p.classes[k].deinit.Some? ==> PrintsOwnFields(p.classes[k].deinit.value)
  }

  lemma WellFormedIsQuiet(p: Program)
    requires WellFormed(p)
    ensures QuietDeinits(p)
  {
    forall k | 0 <= k < |p.classes| && p.classes[k].deinit.Some? ensures PrintsOwnFields(p.classes[k].deinit.value) {
      assert WellFormedClass(p.classes[k]);
    }
  }

  predicate ScopedClass(c: ClassDecl) {
    forall k :: 0 <= k < |c.methods| ==> WellScopedBody(c.methods[k].params, c.methods[k].body)
  }

  /** And in bodies: names are declared once in a scope. */
  predicate Scoped(p: Program) {
    && (forall k :: 0 <= k < |p.classes| ==> ScopedClass(p.classes[k]))
    && (forall k :: 0 <= k < |p.fns| ==> WellScopedBody(p.fns[k].params, p.fns[k].body))
    && WellScoped(p.main, {})
  }

  lemma {:induction false} FoundMethodScoped(ms: seq<MethodDecl>, slot: nat)
    requires forall k :: 0 <= k < |ms| ==> WellScopedBody(ms[k].params, ms[k].body)
    ensures var m := FindMethod(ms, slot);
      m.Some? ==> WellScopedBody(m.value.params, m.value.body)
  {
    if ms != [] && ms[0].slot != slot {
      FoundMethodScoped(ms[1..], slot);
    }
  }

  lemma {:induction false} ResolvedScoped(p: Program, chain: seq<ClassId>, slot: nat)
    requires Scoped(p) && Declared(p, chain)
    ensures var m := Resolve(p, chain, slot);
      m.Some? ==> WellScopedBody(m.value.params, m.value.body)
  {
    if chain != [] {
      assert ScopedClass(p.classes[chain[0]]);
      FoundMethodScoped(p.classes[chain[0]].methods, slot);
      ResolvedScoped(p, chain[1..], slot);
    }
  }

  lemma {:induction false} FoundFnScoped(fs: seq<FnDecl>, name: Name)
    requires forall k :: 0 <= k < |fs| ==> WellScopedBody(fs[k].params, fs[k].body)
    ensures var f := FindFn(fs, name);
      f.Some? ==> WellScopedBody(f.value.params, f.value.body)
  {
    if fs != [] && fs[|fs| - 1].name != name {
      FoundFnScoped(fs[..|fs| - 1], name);
    }
  }

  // ---- names in scope ------------------------------------------------------------------

  predicate SameNames(a: Scope, b: Scope) {
    |a| == |b| && forall j :: 0 <= j < |a| ==> a[j].name == b[j].name
  }

  predicate NamesIn(s: Scope, taken: set<Name>) {
    forall j :: 0 <= j < |s| ==> s[j].name in taken
  }

  /** The first n scopes of both have the same names. */
  predicate Agree(a: Env, b: Env, n: nat) {
    n <= |a| && n <= |b| && forall k :: 0 <= k < n ==> SameNames(a[k], b[k])
  }

  /** As many scopes, and the names of all but the innermost are the same. */
  predicate Steady(env: Env, after: Env) {
    env != [] && |after| == |env| && Agree(env, after, |env| - 1)
  }

  function Top(env: Env): Scope
    requires env != []
  {
    env[|env| - 1]
  }

  /** Ways out of a statement that stay inside the function. */
  predicate Inside(f: Flow) {
    f.Next? || f.Breaks? || f.Continues?
  }

  lemma {:induction false} SetSlotNames(s: Scope, n: Slot)
    ensures SlotOf(s, n.name).Some? ==> SameNames(s, SetSlot(s, n))
    ensures SlotOf(s, n.name).None? ==> SetSlot(s, n) == s + [n]
  {
    if s != [] && s[0].name != n.name {
      SetSlotNames(s[1..], n);
      var rest := SetSlot(s[1..], n);
      assert SetSlot(s, n) == [s[0]] + rest;
      if SlotOf(s, n.name).Some? {
        forall j | 0 <= j < |s| ensures s[j].name == SetSlot(s, n)[j].name {
          assert j > 0 ==> s[1..][j - 1].name == rest[j - 1].name;
        }
      }
    }
  }

  lemma {:induction false} NotTaken(s: Scope, taken: set<Name>, name: Name)
    requires NamesIn(s, taken) && name !in taken
    ensures SlotOf(s, name).None?
  {
    if s != [] {
      NotTaken(s[1..], taken, name);
    }
  }

  lemma {:induction false} SetVarNames(env: Env, name: Name, v: Value)
    ensures |SetVar(env, name, v)| == |env| && Agree(env, SetVar(env, name, v), |env|)
  {
    if env != [] {
      var top := env[|env| - 1];
      SetSlotNames(top, Slot(name, v, true));
      SetVarNames(env[..|env| - 1], name, v);
    }
  }

  lemma DeclareNames(env: Env, n: Slot, taken: set<Name>)
    requires env != [] && NamesIn(Top(env), taken) && n.name !in taken
    ensures Steady(env, Declare(env, n)) && NamesIn(Top(Declare(env, n)), taken + {n.name})
    ensures Declare(env, n) == env[..|env| - 1] + [Top(env) + [n]]
  {
    NotTaken(Top(env), taken, n.name);
    SetSlotNames(Top(env), n);
  }

  lemma AgreeTop(env: Env, after: Env, taken: set<Name>)
    requires env != [] && |after| == |env| && Agree(env, after, |env|) && NamesIn(Top(env), taken)
    ensures Steady(env, after) && NamesIn(Top(after), taken)
  {
    assert SameNames(Top(env), Top(after));
  }

  // ---- what statements do to them ---------------------------------------------------------

  lemma {:induction false} NamesBlock(p: Program, ss: seq<Stmt>, env: Env, st: St, taken: set<Name>)
    requires WellScoped(ss, taken) && env != [] && NamesIn(Top(env), taken)
    ensures var x := Block(p, ss, env, st);
      Inside(x.flow) ==> Steady(env, x.env)
    decreases st.fuel, 6, |ss|
  {
    if ss != [] {
      var b := Burn(st);
      if b.Some? {
        NamesExec(p, ss[0], env, b.value, taken);
        var x := Exec(p, ss[0], env, b.value);
        if x.flow.Next? {
          NamesBlock(p, ss[1..], x.env, x.st, taken + Binds(ss[0]));
          SteadyTwice(env, x.env, Block(p, ss[1..], x.env, x.st));
        }
      }
    }
  }

  lemma SteadyTwice(env: Env, mid: Env, x: Ex)
    requires Steady(env, mid) && (Inside(x.flow) ==> Steady(mid, x.env))
    ensures Inside(x.flow) ==> Steady(env, x.env)
  {
  }

  lemma {:induction false} NamesExec(p: Program, s: Stmt, env: Env, st: St, taken: set<Name>)
    requires WellScopedStmt(s, taken) && env != [] && NamesIn(Top(env), taken)
    ensures var x := Exec(p, s, env, st);
      Inside(x.flow) ==> Steady(env, x.env) && NamesIn(Top(x.env), taken + Binds(s))
    decreases st.fuel, 8, 1
  {
    hide Eval, Iterate, Count, Pop, Replace, Release, EvalParts;
    match s
    case Let(_, _) => NamesLet(p, s, env, st, taken);
    case Assign(_, _, _, _) => NamesAssign(p, s, env, st, taken);
    case If(_, _, _) => NamesIf(p, s, env, st, taken);
    case ForRange(_, _, _, _, _) => NamesFor(p, s, env, st, taken);
    case CounterLoop(_, _, _) => NamesCounter(p, s, env, st, taken);
    case _ =>
  }

  lemma {:induction false} NamesLet(p: Program, s: Stmt, env: Env, st: St, taken: set<Name>)
    requires s.Let? && WellScopedStmt(s, taken) && env != [] && NamesIn(Top(env), taken)
    ensures var x := Exec(p, s, env, st);
      Inside(x.flow) ==> Steady(env, x.env) && NamesIn(Top(x.env), taken + Binds(s))
  {
    hide Eval;
    var x := Eval(p, s.init, env, st);
    if x.Ok? {
      DeclareNames(env, Slot(s.name, x.v, true), taken);
    }
  }

  lemma {:induction false} NamesFor(p: Program, s: Stmt, env: Env, st: St, taken: set<Name>)
    requires s.ForRange? && WellScopedStmt(s, taken) && env != [] && NamesIn(Top(env), taken)
    ensures var x := Exec(p, s, env, st);
      Inside(x.flow) ==> Steady(env, x.env) && NamesIn(Top(x.env), taken)
    decreases st.fuel, 8, 0
  {
    hide Iterate;
    var last := if s.inclusive then s.hi + 1 else s.hi;
    NamesIterate(p, s.loopVar, s.lo, last, s.body, env, st);
    var x := Iterate(p, s.loopVar, s.lo, last, s.body, env, st);
    if Inside(x.flow) {
      AgreeTop(env, x.env, taken);
    }
  }

  lemma {:induction false} NamesAssign(p: Program, s: Stmt, env: Env, st: St, taken: set<Name>)
    requires s.Assign? && env != [] && NamesIn(Top(env), taken)
    ensures var x := Exec(p, s, env, st);
      Inside(x.flow) ==> Steady(env, x.env) && NamesIn(Top(x.env), taken)
  {
    var x := Eval(p, s.e, env, st);
    if x.Ok? {
      var y := Combine(env, s.name, s.op, s.t, x.v, x.st);
      if y.Ok? {
        SetVarNames(env, s.name, y.v);
        AgreeTop(env, SetVar(env, s.name, y.v), taken);
      }
    }
  }

  lemma {:induction false} NamesCounter(p: Program, s: Stmt, env: Env, st: St, taken: set<Name>)
    requires s.CounterLoop? && WellScopedStmt(s, taken) && env != [] && NamesIn(Top(env), taken)
    ensures var x := Exec(p, s, env, st);
      Inside(x.flow) ==> Steady(env, x.env) && NamesIn(Top(x.env), taken + {s.counter})
    decreases st.fuel, 8, 0
  {
    var n := Slot(s.counter, VInt(0), true);
    var env1 := Declare(env, n);
    assert s.counter !in taken;
    DeclareNames(env, n, taken);
    NamesCount(p, s.counter, s.limit, s.body, 0, env1, Lose(st, env, s.counter));
    var x := Count(p, s.counter, s.limit, s.body, 0, env1, Lose(st, env, s.counter));
    if Inside(x.flow) {
      AgreeTop(env1, x.env, taken + {s.counter});
    }
  }

  lemma {:induction false} NamesIf(p: Program, s: Stmt, env: Env, st: St, taken: set<Name>)
    requires s.If? && WellScopedStmt(s, taken) && env != [] && NamesIn(Top(env), taken)
    ensures var x := Exec(p, s, env, st);
      Inside(x.flow) ==> Steady(env, x.env) && NamesIn(Top(x.env), taken)
    decreases st.fuel, 8, 0
  {
    var x := Eval(p, s.cond, env, st);
    if x.Ok? && x.v.VBool? && (x.v.b || s.elseB.ElseBlock?) {
      var body := if x.v.b then s.thenB else s.elseB.body;
      NamesBlock(p, body, Push(env), x.st, {});
      var y := Block(p, body, Push(env), x.st);
      PopNames(p, env, y, []);
      if Inside(Pop(p, y).flow) {
        AgreeTop(env, Pop(p, y).env, taken);
      }
    }
  }

  /** Popping the scope of an inner block gives back the names around it. */
  lemma PopNames(p: Program, env: Env, x: Ex, s: Scope)
    requires Inside(x.flow) ==> Steady(env + [s], x.env)
    ensures var y := Pop(p, x);
      Inside(y.flow) && Inside(x.flow) ==> |y.env| == |env| && Agree(env, y.env, |env|)
  {
    if Inside(x.flow) {
      forall k | 0 <= k < |env| ensures SameNames(env[k], x.env[..|env|][k]) {
        assert SameNames((env + [s])[k], x.env[k]);
      }
    }
  }

  lemma RoundNames(p: Program, env: Env, x: Ex, s: Scope)
    requires Inside(x.flow) ==> Steady(env + [s], x.env)
    ensures var y := Round(p, x);
      Inside(y.flow) ==> |y.env| == |env| && Agree(env, y.env, |env|)
  {
    if Inside(x.flow) {
      PopNames(p, env, x, s);
      PopNames(p, env, x.(flow := Next), s);
    }
  }

  lemma {:induction false} NamesIterate(p: Program, loopVar: Name, i: int, hi: int, body: seq<Stmt>, env: Env, st: St)
    requires WellScoped(body, {loopVar}) && env != []
    ensures var x := Iterate(p, loopVar, i, hi, body, env, st);
      Inside(x.flow) ==> |x.env| == |env| && Agree(env, x.env, |env|)
    decreases st.fuel, 7, if i < hi then hi - i else 0, 0
  {
    AgreeSelf(env);
    hide Block, Round, Agree, Declare, Push, WellScoped;
    if i < hi {
      var n := Slot(loopVar, VInt(i), true);
      var inner := Declare(Push(env), n);
      LoopScopes(env, n);
      NamesBlock(p, body, inner, st, {loopVar});
      RoundNames(p, env, Block(p, body, inner, st), [n]);
      var x := Round(p, Block(p, body, inner, st));
      if x.flow.Next? {
        NamesIterate(p, loopVar, i + 1, hi, body, x.env, x.st);
        AgreeTwice(env, x.env, Iterate(p, loopVar, i + 1, hi, body, x.env, x.st));
      }
    }
  }

  lemma LoopScopes(env: Env, n: Slot)
    ensures Declare(Push(env), n) == env + [[n]] && NamesIn(Top(env + [[n]]), {n.name})
  {
  }

  lemma AgreeSelf(env: Env)
    ensures Agree(env, env, |env|)
  {
  }

  lemma AgreeTwice(env: Env, mid: Env, x: Ex)
    requires |mid| == |env| && Agree(env, mid, |env|)
    requires Inside(x.flow) ==> |x.env| == |mid| && Agree(mid, x.env, |mid|)
    ensures Inside(x.flow) ==> |x.env| == |env| && Agree(env, x.env, |env|)
  {
  }

  lemma {:induction false} NamesCount(p: Program, counter: Name, limit: int, body: seq<Stmt>, guard: nat, env: Env, st: St)
    requires WellScoped(body, {}) && env != []
    ensures var x := Count(p, counter, limit, body, guard, env, st);
      Inside(x.flow) ==> |x.env| == |env| && Agree(env, x.env, |env|)
    decreases st.fuel, 7, if guard <= GUARD_LIMIT then GUARD_LIMIT + 1 - guard else 0, 0
  {
    if CounterTest(env, counter, limit, guard).Next? {
      NamesBlock(p, body, Push(env), st, {});
      RoundNames(p, env, Block(p, body, Push(env), st), []);
      var x := Round(p, Block(p, body, Push(env), st));
      if x.flow.Next? {
        NamesCount(p, counter, limit, body, guard + 1, x.env, x.st);
      }
    }
  }

  // ---- how many scopes there are, whatever the names -----------------------------------------

  lemma {:induction false} SetVarDepth(env: Env, name: Name, v: Value)
    ensures |SetVar(env, name, v)| == |env|
  {
    if env != [] {
      SetVarDepth(env[..|env| - 1], name, v);
    }
  }

  lemma {:induction false} DepthBlock(p: Program, ss: seq<Stmt>, env: Env, st: St)
    requires env != []
    ensures var x := Block(p, ss, env, st);
      Inside(x.flow) ==> |x.env| == |env|
    decreases st.fuel, 6, |ss|
  {
    if ss != [] {
      var b := Burn(st);
      if b.Some? {
        DepthExec(p, ss[0], env, b.value);
        var x := Exec(p, ss[0], env, b.value);
        if x.flow.Next? {
          DepthBlock(p, ss[1..], x.env, x.st);
        }
      }
    }
  }

  lemma {:induction false} DepthExec(p: Program, s: Stmt, env: Env, st: St)
    requires env != []
    ensures var x := Exec(p, s, env, st);
      Inside(x.flow) ==> |x.env| == |env|
    decreases st.fuel, 8
  {
    hide Eval, Iterate, Count, Block, Round, Pop, Replace, Release, EvalParts, Combine;
    match s
    case Assign(name, e, op, t) =>
      var x := Eval(p, e, env, st);
      if x.Ok? {
        var y := Combine(env, name, op, t, x.v, x.st);
        SetVarDepth(env, name, if y.Ok? then y.v else VNone);
      }
    case If(_, thenB, elseB) =>
      var x := Eval(p, s.cond, env, st);
      if x.Ok? && x.v.VBool? && (x.v.b || elseB.ElseBlock?) {
        var body := if x.v.b then thenB else elseB.body;
        DepthBlock(p, body, Push(env), x.st);
        RoundDepth(p, Block(p, body, Push(env), x.st), |env|);
      }
    case ForRange(loopVar, lo, hi, inclusive, body) =>
      DepthIterate(p, loopVar, lo, if inclusive then hi + 1 else hi, body, env, st);
    case CounterLoop(counter, limit, body) =>
      DepthCount(p, counter, limit, body, 0, Declare(env, Slot(counter, VInt(0), true)), Lose(st, env, counter));
    case _ =>
  }

  lemma RoundDepth(p: Program, x: Ex, n: nat)
    requires Inside(x.flow) ==> |x.env| == n + 1
    ensures Inside(Round(p, x).flow) ==> |Round(p, x).env| == n
    ensures Inside(Pop(p, x).flow) ==> |Pop(p, x).env| == n
  {
  }

  lemma {:induction false} DepthIterate(p: Program, loopVar: Name, i: int, hi: int, body: seq<Stmt>, env: Env, st: St)
    requires env != []
    ensures var x := Iterate(p, loopVar, i, hi, body, env, st);
      Inside(x.flow) ==> |x.env| == |env|
    decreases st.fuel, 7, if i < hi then hi - i else 0, 0
  {
    hide Round;
    if i < hi {
      var inner := Declare(Push(env), Slot(loopVar, VInt(i), true));
      DepthBlock(p, body, inner, st);
      RoundDepth(p, Block(p, body, inner, st), |env|);
      var x := Round(p, Block(p, body, inner, st));
      if x.flow.Next? {
        DepthIterate(p, loopVar, i + 1, hi, body, x.env, x.st);
      }
    }
  }

  lemma {:induction false} DepthCount(p: Program, counter: Name, limit: int, body: seq<Stmt>, guard: nat, env: Env, st: St)
    requires env != []
    ensures var x := Count(p, counter, limit, body, guard, env, st);
      Inside(x.flow) ==> |x.env| == |env|
    decreases st.fuel, 7, if guard <= GUARD_LIMIT then GUARD_LIMIT + 1 - guard else 0, 0
  {
    hide Round;
    if CounterTest(env, counter, limit, guard).Next? {
      DepthBlock(p, body, Push(env), st);
      RoundDepth(p, Block(p, body, Push(env), st), |env|);
      var x := Round(p, Block(p, body, Push(env), st));
      if x.flow.Next? {
        DepthCount(p, counter, limit, body, guard + 1, x.env, x.st);
      }
    }
  }
}

/** Renaming main's locals and parenthesizing their initializers change nothing. */
module EvaluatorRenamed {
  import opened Options
  import opened Evaluator
  import opened EvaluatorRename

  /** Renaming distinguishes the names it should. */
  lemma SameName(x: Name, y: Name, roots: set<Name>)
    requires Apart(x, roots) && Apart(y, roots)
    ensures Renamed(x, roots) == Renamed(y, roots) <==> x == y
  {
    if x in roots && y in roots {
      assert (PREFIX + x)[|PREFIX|..] == x && (PREFIX + y)[|PREFIX|..] == y;
    }
  }

  lemma SelfApart(roots: set<Name>)
    ensures Apart(SELF, roots)
  {
    forall r | r in roots ensures SELF != PREFIX + r {
      assert SELF[0] != (PREFIX + r)[0];
    }
  }

  // ---- environments -----------------------------------------------------------------

  function RenSlot(n: Slot, roots: set<Name>): Slot {
    Slot(Renamed(n.name, roots), n.val, n.owned)
  }

  function RenScope(s: Scope, roots: set<Name>): Scope {
    if s == [] then [] else [RenSlot(s[0], roots)] + RenScope(s[1..], roots)
  }

  function RenEnv(env: Env, roots: set<Name>): (r: Env)
    ensures |r| == |env|
  {
    if env == [] then [] else RenEnv(env[..|env| - 1], roots) + [RenScope(env[|env| - 1], roots)]
  }

  predicate ScopeApart(s: Scope, roots: set<Name>) {
    forall j :: 0 <= j < |s| ==> Apart(s[j].name, roots)
  }

  predicate EnvApart(env: Env, roots: set<Name>) {
    forall k :: 0 <= k < |env| ==> ScopeApart(env[k], roots)
  }

  lemma {:induction false} RenLookupScope(s: Scope, x: Name, roots: set<Name>)
    requires ScopeApart(s, roots) && Apart(x, roots)
    ensures LookupScope(RenScope(s, roots), Renamed(x, roots)) == LookupScope(s, x)
  {
    if s != [] {
      SameName(s[0].name, x, roots);
      RenLookupScope(s[1..], x, roots);
      assert RenScope(s, roots)[1..] == RenScope(s[1..], roots);
    }
  }

  lemma {:induction false} RenLookup(env: Env, x: Name, roots: set<Name>)
    requires EnvApart(env, roots) && Apart(x, roots)
    ensures Lookup(RenEnv(env, roots), Renamed(x, roots)) == Lookup(env, x)
  {
    if env != [] {
      RenLookupScope(env[|env| - 1], x, roots);
      RenLookup(env[..|env| - 1], x, roots);
      assert RenEnv(env, roots)[..|env| - 1] == RenEnv(env[..|env| - 1], roots);
    }
  }

  lemma RenSelf(env: Env, roots: set<Name>)
    requires EnvApart(env, roots) && SELF !in roots
    ensures Lookup(RenEnv(env, roots), SELF) == Lookup(env, SELF)
  {
    SelfApart(roots);
    RenLookup(env, SELF, roots);
  }

  lemma {:induction false} RenSetSlot(s: Scope, n: Slot, roots: set<Name>)
    requires ScopeApart(s, roots) && Apart(n.name, roots)
    ensures RenScope(SetSlot(s, n), roots) == SetSlot(RenScope(s, roots), RenSlot(n, roots))
    ensures ScopeApart(SetSlot(s, n), roots)
  {
    if s == [] {
      assert RenScope([n], roots) == [RenSlot(n, roots)] + RenScope([n][1..], roots);
    } else {
      SameName(s[0].name, n.name, roots);
      var rest := RenScope(s[1..], roots);
      assert RenScope(s, roots)[1..] == rest;
      if s[0].name == n.name {
        assert ([n] + s[1..])[1..] == s[1..];
      } else {
        RenSetSlot(s[1..], n, roots);
        assert ([s[0]] + SetSlot(s[1..], n))[1..] == SetSlot(s[1..], n);
      }
    }
  }

  lemma {:induction false} RenSlotOf(s: Scope, x: Name, roots: set<Name>)
    requires ScopeApart(s, roots) && Apart(x, roots)
    ensures var n := SlotOf(s, x);
      SlotOf(RenScope(s, roots), Renamed(x, roots)) == if n.Some? then Some(RenSlot(n.value, roots)) else None
  {
    if s != [] {
      SameName(s[0].name, x, roots);
      RenSlotOf(s[1..], x, roots);
      assert RenScope(s, roots)[1..] == RenScope(s[1..], roots);
    }
  }

  lemma RenSnoc(front: Env, top: Scope, roots: set<Name>)
    ensures RenEnv(front + [top], roots) == RenEnv(front, roots) + [RenScope(top, roots)]
  {
    assert (front + [top])[..|front|] == front;
  }

  lemma RenDeclare(env: Env, n: Slot, roots: set<Name>)
    requires EnvApart(env, roots) && Apart(n.name, roots)
    ensures RenEnv(Declare(env, n), roots) == Declare(RenEnv(env, roots), RenSlot(n, roots))
    ensures EnvApart(Declare(env, n), roots)
  {
    if env == [] {
      RenSnoc([], [n], roots);
      assert [] + [[n]] == [[n]];
      RenSetSlot([], n, roots);
    } else {
      var front, top := env[..|env| - 1], env[|env| - 1];
      RenSetSlot(top, n, roots);
      RenSnoc(front, SetSlot(top, n), roots);
      assert RenEnv(env, roots)[..|env| - 1] == RenEnv(front, roots);
    }
  }

  lemma {:induction false} RenSetVar(env: Env, x: Name, v: Value, roots: set<Name>)
    requires EnvApart(env, roots) && Apart(x, roots)
    ensures RenEnv(SetVar(env, x, v), roots) == SetVar(RenEnv(env, roots), Renamed(x, roots), v)
    ensures EnvApart(SetVar(env, x, v), roots)
  {
    if env != [] {
      var front, top := env[..|env| - 1], env[|env| - 1];
      var n := Slot(x, v, true);
      RenSlotOf(top, x, roots);
      RenSetSlot(top, n, roots);
      RenSetVar(front, x, v, roots);
      assert RenEnv(env, roots)[..|env| - 1] == RenEnv(front, roots);
      RenSnoc(front, SetSlot(top, n), roots);
      RenSnoc(SetVar(front, x, v), top, roots);
    }
  }

  lemma RenDropped(env: Env, x: Name, st: St, roots: set<Name>)
    requires EnvApart(env, roots) && Apart(x, roots)
    ensures Lose(st, RenEnv(env, roots), Renamed(x, roots)) == Lose(st, env, x)
  {
    if env != [] {
      RenSlotOf(env[|env| - 1], x, roots);
    }
  }

  lemma {:induction false} RenFindSlot(env: Env, x: Name, roots: set<Name>)
    requires EnvApart(env, roots) && Apart(x, roots)
    ensures var n := FindSlot(env, x);
      FindSlot(RenEnv(env, roots), Renamed(x, roots)) == if n.Some? then Some(RenSlot(n.value, roots)) else None
  {
    if env != [] {
      RenSlotOf(env[|env| - 1], x, roots);
      RenFindSlot(env[..|env| - 1], x, roots);
      assert RenEnv(env, roots)[..|env| - 1] == RenEnv(env[..|env| - 1], roots);
    }
  }

  lemma {:induction false} RenOwned(s: Scope, roots: set<Name>)
    ensures Owned(RenScope(s, roots)) == Owned(s)
  {
    if s != [] {
      RenOwned(s[1..], roots);
      assert RenScope(s, roots)[1..] == RenScope(s[1..], roots);
    }
  }

  lemma {:induction false} RenOwnedAll(env: Env, roots: set<Name>)
    ensures OwnedAll(RenEnv(env, roots)) == OwnedAll(env)
  {
    if env != [] {
      RenOwnedAll(env[..|env| - 1], roots);
      RenOwned(env[|env| - 1], roots);
      assert RenEnv(env, roots)[..|env| - 1] == RenEnv(env[..|env| - 1], roots);
    }
  }

  lemma {:induction false} RenParams(xs: seq<Name>, vs: seq<Value>, env: Env, roots: set<Name>)
    requires EnvApart(env, roots) && AllUntouched(xs, roots)
    ensures RenEnv(Params(xs, vs, env), roots) == Params(xs, vs, RenEnv(env, roots))
    ensures EnvApart(Params(xs, vs, env), roots)
  {
    if xs != [] && vs != [] {
      assert Untouched(xs[0], roots);
      var n := Slot(xs[0], vs[0], false);
      RenDeclare(env, n, roots);
      RenParams(xs[1..], vs[1..], Declare(env, n), roots);
    }
  }

  /** The environment of a call holds no renamed name. */
  lemma RenCallEnv(xs: seq<Name>, vs: seq<Value>, self: Option<Value>, roots: set<Name>)
    requires AllUntouched(xs, roots) && SELF !in roots
    ensures var env := Params(xs, vs, SelfEnv(self));
      RenEnv(env, roots) == env && EnvApart(env, roots)
  {
    SelfApart(roots);
    var env := SelfEnv(self);
    assert RenScope(env[0], roots) == env[0] by {
      if self.Some? {
        assert RenScope(env[0], roots) == [RenSlot(env[0][0], roots)] + RenScope([], roots);
      }
    }
    RenSnoc([], env[0], roots);
    assert [] + [env[0]] == env;
    RenParams(xs, vs, env, roots);
  }

  // ---- programs ---------------------------------------------------------------------------

  /** q has p's classes and functions with the names changed; their mains are not compared. */
  predicate Kin(p: Program, q: Program, roots: set<Name>) {
    NamesApart(p, roots) && q.classes == RenClasses(p.classes, roots) && q.fns == RenFns(p.fns, roots)
  }

  lemma {:induction false} KinChain(p: Program, q: Program, roots: set<Name>, c: ClassId)
    requires Kin(p, q, roots)
    ensures Chain(q, c) == Chain(p, c)
  {
    if c < |p.classes| && p.classes[c].parent.Some? && p.classes[c].parent.value < c {
      KinChain(p, q, roots, p.classes[c].parent.value);
    }
  }

  lemma {:induction false} RenFindMethod(ms: seq<MethodDecl>, slot: nat, roots: set<Name>)
    requires forall i :: 0 <= i < |ms| ==> MethodApart(ms[i], roots)
    ensures var m := FindMethod(ms, slot);
      && FindMethod(RenMethods(ms, roots), slot) == (if m.Some? then Some(RenMethod(m.value, roots)) else None)
      && (m.Some? ==> MethodApart(m.value, roots))
  {
    if ms != [] {
      RenFindMethod(ms[1..], slot, roots);
      assert RenMethods(ms, roots)[1..] == RenMethods(ms[1..], roots);
    }
  }

  lemma {:induction false} KinResolve(p: Program, q: Program, roots: set<Name>, chain: seq<ClassId>, slot: nat)
    requires Kin(p, q, roots) && Declared(p, chain)
    ensures Declared(q, chain)
    ensures var m := Resolve(p, chain, slot);
      && Resolve(q, chain, slot) == (if m.Some? then Some(RenMethod(m.value, roots)) else None)
      && (m.Some? ==> MethodApart(m.value, roots))
  {
    if chain != [] {
      assert ClassApart(p.classes[chain[0]], roots);
      RenFindMethod(p.classes[chain[0]].methods, slot, roots);
      KinResolve(p, q, roots, chain[1..], slot);
    }
  }

  lemma {:induction false} RenFindFn(fs: seq<FnDecl>, name: Name, roots: set<Name>)
    requires forall i :: 0 <= i < |fs| ==> FnApart(fs[i], roots)
    ensures var f := FindFn(fs, name);
      && FindFn(RenFns(fs, roots), name) == (if f.Some? then Some(RenFn(f.value, roots)) else None)
      && (f.Some? ==> FnApart(f.value, roots))
  {
    if fs != [] {
      RenFindFn(fs[..|fs| - 1], name, roots);
      var rs := RenFns(fs, roots);
      assert rs[..|rs| - 1] == RenFns(fs[..|fs| - 1], roots);
    }
  }

  lemma {:induction false} KinFieldOrder(p: Program, q: Program, roots: set<Name>, chain: seq<ClassId>)
    requires Kin(p, q, roots) && Declared(p, chain)
    ensures Declared(q, chain) && FieldOrder(q, chain) == FieldOrder(p, chain)
  {
    if chain != [] {
      KinFieldOrder(p, q, roots, chain[1..]);
    }
  }

  lemma {:induction false} KinInitial(p: Program, q: Program, roots: set<Name>, chain: seq<ClassId>, fs: seq<Field>)
    requires Kin(p, q, roots) && Declared(p, chain)
    ensures Declared(q, chain) && Initial(q, chain, fs) == Initial(p, chain, fs)
  {
    if chain != [] {
      KinInitial(p, q, roots, chain[1..], InitialOwn(p.classes[chain[0]].fields, fs));
    }
  }

  lemma KinStore(p: Program, q: Program, roots: set<Name>, holder: Value, field: Name, v: Value, st: St)
    requires Kin(p, q, roots)
    ensures StoreField(q, holder, field, v, st) == StoreField(p, holder, field, v, st)
  {
    if holder.VObj? && holder.o < |st.heap| {
      var cls := st.heap[holder.o].cls;
      KinChain(p, q, roots, cls);
      KinFieldOrder(p, q, roots, Chain(p, cls));
      assert HoldsObjects(q, Chain(p, cls), field) == HoldsObjects(p, Chain(p, cls), field) by {
        forall i | 0 <= i < |Chain(p, cls)|
          ensures HasClassField(q.classes[Chain(p, cls)[i]], field) == HasClassField(p.classes[Chain(p, cls)[i]], field)
        {
        }
      }
    }
  }

  // ---- expressions ---------------------------------------------------------------------------

  function RenEx(x: Ex, roots: set<Name>): Ex {
    x.(env := RenEnv(x.env, roots))
  }

  lemma {:induction false} RenEval(p: Program, q: Program, roots: set<Name>, e: Expr, env: Env, st: St)
    requires Kin(p, q, roots) && SELF !in roots && EnvApart(env, roots) && ExprApart(e, roots)
    ensures Eval(q, RenExpr(e, roots), RenEnv(env, roots), st) == Eval(p, e, env, st)
    decreases st.fuel, 4, e, 1
  {
    hide Kin, EnvApart, RenEnv;
    match e
    case IntLit(_, _) =>
    case BoolLit(_) =>
    case VarRef(name) => RenLookup(env, name, roots);
    case SelfField(_) => RenSelf(env, roots);
    case Paren(inner) => RenEval(p, q, roots, inner, env, st);
    case Unary(_, x, _) => RenEval(p, q, roots, x, env, st);
    case Binary(_, _, _, _) => RenBinary(p, q, roots, e, env, st);
    case Cast(x, _) => RenEval(p, q, roots, x, env, st);
    case IfValue(_, _, _) => RenIfValue(p, q, roots, e, env, st);
    case FieldGet(base, field) =>
      RenEval(p, q, roots, base, env, st);
      var r := Eval(p, base, env, st);
      if r.Ok? {
        RenRelease(p, q, roots, r.v, ReadField(r.v, field, r.st).st);
      }
    case NewObj(_, _) => RenNew(p, q, roots, e, env, st);
    case Call(_, _) => RenCall(p, q, roots, e, env, st);
    case MethodCall(_, _, _) => RenMethodCall(p, q, roots, e, env, st);
    case SuperCall(_, _, _) => RenSuperCall(p, q, roots, e, env, st);
  }

  lemma {:induction false} RenBinary(p: Program, q: Program, roots: set<Name>, e: Expr, env: Env, st: St)
    requires e.Binary? && Kin(p, q, roots) && SELF !in roots && EnvApart(env, roots) && ExprApart(e, roots)
    ensures EvalBinary(q, RenExpr(e, roots), RenEnv(env, roots), st) == EvalBinary(p, e, env, st)
    decreases st.fuel, 4, e, 0
  {
    hide Kin, EnvApart, RenEnv, BinaryValue;
    RenEval(p, q, roots, e.l, env, st);
    var a := Eval(p, e.l, env, st);
    if a.Ok? {
      RenEval(p, q, roots, e.r, env, a.st);
    }
  }

  lemma {:induction false} RenIfValue(p: Program, q: Program, roots: set<Name>, e: Expr, env: Env, st: St)
    requires e.IfValue? && Kin(p, q, roots) && SELF !in roots && EnvApart(env, roots) && ExprApart(e, roots)
    ensures Eval(q, RenExpr(e, roots), RenEnv(env, roots), st) == Eval(p, e, env, st)
    decreases st.fuel, 4, e, 0
  {
    hide Kin, EnvApart, RenEnv;
    RenEval(p, q, roots, e.cond, env, st);
    var r := Eval(p, e.cond, env, st);
    if r.Ok? && r.v.VBool? {
      RenEval(p, q, roots, if r.v.b then e.thenE else e.elseE, env, r.st);
    }
  }

  lemma {:induction false} RenNew(p: Program, q: Program, roots: set<Name>, e: Expr, env: Env, st: St)
    requires e.NewObj? && Kin(p, q, roots) && SELF !in roots && EnvApart(env, roots) && ExprApart(e, roots)
    ensures Eval(q, RenExpr(e, roots), RenEnv(env, roots), st) == Eval(p, e, env, st)
    decreases st.fuel, 4, e, 0
  {
    hide Kin, EnvApart, RenEnv;
    RenArgs(p, q, roots, e.args, env, st);
    var vs := EvalArgs(p, e.args, env, st);
    if vs.Oks? {
      RenConstruct(p, q, roots, e.cls, vs.vs, vs.st);
      RenReleaseAll(p, q, roots, vs.vs, Construct(p, e.cls, vs.vs, vs.st).st);
    }
  }

  lemma {:induction false} RenCall(p: Program, q: Program, roots: set<Name>, e: Expr, env: Env, st: St)
    requires e.Call? && Kin(p, q, roots) && SELF !in roots && EnvApart(env, roots) && ExprApart(e, roots)
    ensures Eval(q, RenExpr(e, roots), RenEnv(env, roots), st) == Eval(p, e, env, st)
    decreases st.fuel, 4, e, 0
  {
    hide Kin, EnvApart, RenEnv;
    RenArgs(p, q, roots, e.args, env, st);
    var vs := EvalArgs(p, e.args, env, st);
    if vs.Oks? {
      RenCallFn(p, q, roots, e.fn, vs.vs, vs.st);
      RenReleaseAll(p, q, roots, vs.vs, CallFn(p, e.fn, vs.vs, vs.st).st);
    }
  }

  lemma {:induction false} RenMethodCall(p: Program, q: Program, roots: set<Name>, e: Expr, env: Env, st: St)
    requires e.MethodCall? && Kin(p, q, roots) && SELF !in roots && EnvApart(env, roots) && ExprApart(e, roots)
    ensures EvalMethodCall(q, RenExpr(e, roots), RenEnv(env, roots), st) == EvalMethodCall(p, e, env, st)
    decreases st.fuel, 4, e, 0
  {
    hide Kin, EnvApart, RenEnv;
    RenEval(p, q, roots, e.recv, env, st);
    var o := Eval(p, e.recv, env, st);
    if o.Ok? && o.v.VObj? {
      RenArgs(p, q, roots, e.args, env, o.st);
      var vs := EvalArgs(p, e.args, env, o.st);
      if vs.Oks? && o.v.o < |vs.st.heap| {
        var cls := vs.st.heap[o.v.o].cls;
        KinChain(p, q, roots, cls);
        KinResolve(p, q, roots, Chain(p, cls), e.slot);
        var m := Resolve(p, Chain(p, cls), e.slot);
        if m.Some? {
          RenInvoke(p, q, roots, m.value.params, m.value.body, m.value.hasResult, Some(o.v), vs.vs, vs.st);
          var r := Invoke(p, m.value.params, m.value.body, m.value.hasResult, Some(o.v), vs.vs, vs.st);
          RenReleaseAll(p, q, roots, vs.vs, r.st);
          RenRelease(p, q, roots, o.v, ReleaseAll(p, vs.vs, r.st).st);
        }
      }
    }
  }

  lemma {:induction false} RenSuperCall(p: Program, q: Program, roots: set<Name>, e: Expr, env: Env, st: St)
    requires e.SuperCall? && Kin(p, q, roots) && SELF !in roots && EnvApart(env, roots) && ExprApart(e, roots)
    ensures EvalSuperCall(q, RenExpr(e, roots), RenEnv(env, roots), st) == EvalSuperCall(p, e, env, st)
    decreases st.fuel, 4, e, 0
  {
    hide Kin, EnvApart, RenEnv;
    RenSelf(env, roots);
    var self := Lookup(env, SELF);
    if self.Some? {
      RenArgs(p, q, roots, e.args, env, st);
      var vs := EvalArgs(p, e.args, env, st);
      if vs.Oks? {
        var chain := Chain(p, e.owner);
        KinChain(p, q, roots, e.owner);
        if chain != [] {
          KinResolve(p, q, roots, chain[1..], e.slot);
          var m := Resolve(p, chain[1..], e.slot);
          if m.Some? {
            RenInvoke(p, q, roots, m.value.params, m.value.body, m.value.hasResult, self, vs.vs, vs.st);
            var r := Invoke(p, m.value.params, m.value.body, m.value.hasResult, self, vs.vs, vs.st);
            RenReleaseAll(p, q, roots, vs.vs, r.st);
          }
        }
      }
    }
  }

  lemma {:induction false} RenArgs(p: Program, q: Program, roots: set<Name>, es: seq<Expr>, env: Env, st: St)
    requires Kin(p, q, roots) && SELF !in roots && EnvApart(env, roots) && ExprsApart(es, roots)
    ensures EvalArgs(q, RenExprs(es, roots), RenEnv(env, roots), st) == EvalArgs(p, es, env, st)
    decreases st.fuel, 4, es, 0
  {
    hide Kin, EnvApart, RenEnv;
    if es != [] {
      RenEval(p, q, roots, es[0], env, st);
      var a := Eval(p, es[0], env, st);
      assert RenExprs(es, roots)[1..] == RenExprs(es[1..], roots);
      if a.Ok? {
        RenArgs(p, q, roots, es[1..], env, a.st);
      }
    }
  }

  // ---- calls -----------------------------------------------------------------------------------

  lemma {:induction false} RenCallFn(p: Program, q: Program, roots: set<Name>, name: Name, vs: seq<Value>, st: St)
    requires Kin(p, q, roots) && SELF !in roots
    ensures CallFn(q, name, vs, st) == CallFn(p, name, vs, st)
    decreases st.fuel, 3, 1
  {
    RenFindFn(p.fns, name, roots);
    var f := FindFn(p.fns, name);
    if f.Some? {
      RenInvoke(p, q, roots, f.value.params, f.value.body, f.value.hasResult, None, vs, st);
    }
  }

  lemma {:induction false} RenInvoke(p: Program, q: Program, roots: set<Name>, params: seq<Name>, body: seq<Stmt>,
                                     hasResult: bool, self: Option<Value>, vs: seq<Value>, st: St)
    requires Kin(p, q, roots) && SELF !in roots && AllUntouched(params, roots) && BlockApart(body, roots)
    ensures Invoke(q, params, RenBlock(body, roots), hasResult, self, vs, st)
      == Invoke(p, params, body, hasResult, self, vs, st)
    decreases st.fuel, 3, 0
  {
    hide Kin, EnvApart, RenEnv, RenBlock, BlockApart;
    var b := Burn(st);
    if b.Some? {
      var env := Params(params, vs, SelfEnv(self));
      RenCallEnv(params, vs, self, roots);
      RenBlocks(p, q, roots, body, env, b.value);
      RenReturning(p, q, roots, hasResult, Block(p, body, env, b.value));
    }
  }

  lemma {:induction false} RenReturning(p: Program, q: Program, roots: set<Name>, hasResult: bool, x: Ex)
    requires Kin(p, q, roots) && SELF !in roots
    ensures Returning(q, hasResult, RenEx(x, roots)) == Returning(p, hasResult, x)
    decreases x.st.fuel, 3, 0
  {
    hide Kin, RenEnv;
    RenOwnedAll(x.env, roots);
    RenReleaseAll(p, q, roots, OwnedAll(x.env), x.st);
  }

  // ---- releases ----------------------------------------------------------------------------------

  lemma {:induction false} RenRelease(p: Program, q: Program, roots: set<Name>, v: Value, st: St)
    requires Kin(p, q, roots) && SELF !in roots
    ensures Release(q, v, st) == Release(p, v, st)
    decreases st.fuel, 1
  {
    hide Kin;
    if v.VObj? && v.o < |st.heap| && st.heap[v.o].rc == 1 {
      RenTeardown(p, q, roots, v.o, WithCount(st, v.o, 0));
    }
  }

  lemma {:induction false} RenReleaseAll(p: Program, q: Program, roots: set<Name>, vs: seq<Value>, st: St)
    requires Kin(p, q, roots) && SELF !in roots
    ensures ReleaseAll(q, vs, st) == ReleaseAll(p, vs, st)
    decreases st.fuel, 2, |vs|
  {
    hide Kin;
    if vs != [] {
      RenRelease(p, q, roots, vs[|vs| - 1], st);
      var d := Release(p, vs[|vs| - 1], st);
      if d.Done? {
        RenReleaseAll(p, q, roots, vs[..|vs| - 1], d.st);
      }
    }
  }

  lemma {:induction false} RenTeardown(p: Program, q: Program, roots: set<Name>, o: Oid, st: St)
    requires Kin(p, q, roots) && SELF !in roots && o < |st.heap|
    ensures Teardown(q, o, st) == Teardown(p, o, st)
    decreases st.fuel, 0
  {
    hide Kin;
    var b := Burn(st.(torn := st.torn + [o]));
    if b.Some? {
      var chain := Chain(p, st.heap[o].cls);
      KinChain(p, q, roots, st.heap[o].cls);
      RenDeinits(p, q, roots, chain, o, b.value);
      KinFieldOrder(p, q, roots, chain);
      RenDropFields(p, q, roots, FieldOrder(p, chain), o, Deinits(p, chain, o, b.value).st);
    }
  }

  lemma {:induction false} RenDeinits(p: Program, q: Program, roots: set<Name>, chain: seq<ClassId>, o: Oid, st: St)
    requires Kin(p, q, roots) && SELF !in roots && Declared(p, chain)
    ensures Declared(q, chain) && Deinits(q, chain, o, st) == Deinits(p, chain, o, st)
    decreases st.fuel, 9, |chain|
  {
    if chain != [] {
      var c := p.classes[chain[0]];
      assert ClassApart(c, roots);
      if c.deinit.None? {
        RenDeinits(p, q, roots, chain[1..], o, st);
      } else {
        var env := SelfEnv(Some(VObj(o)));
        RenCallEnv([], [], Some(VObj(o)), roots);
        RenBlocks(p, q, roots, c.deinit.value, env, st);
        RenDeinits(p, q, roots, chain[1..], o, Block(p, c.deinit.value, env, st).st);
      }
    }
  }

  lemma {:induction false} RenDropFields(p: Program, q: Program, roots: set<Name>, names: seq<Name>, o: Oid, st: St)
    requires Kin(p, q, roots) && SELF !in roots
    ensures DropFields(q, names, o, st) == DropFields(p, names, o, st)
    decreases st.fuel, 2, |names|
  {
    hide Kin;
    if names != [] && o < |st.heap| {
      var v := GetField(st.heap[o].fields, names[0]);
      if v.Some? && v.value.VObj? {
        var st1 := WithFields(st, o, DelField(st.heap[o].fields, names[0]));
        RenRelease(p, q, roots, v.value, st1);
        var d := Release(p, v.value, st1);
        if d.Done? {
          RenDropFields(p, q, roots, names[1..], o, d.st);
        }
      } else {
        RenDropFields(p, q, roots, names[1..], o, st);
      }
    }
  }

  // ---- construction ----------------------------------------------------------------------------------

  lemma {:induction false} RenConstruct(p: Program, q: Program, roots: set<Name>, cls: ClassId, vs: seq<Value>, st: St)
    requires Kin(p, q, roots) && SELF !in roots
    ensures Construct(q, cls, vs, st) == Construct(p, cls, vs, st)
    decreases st.fuel, 3, 0
  {
    hide Kin;
    var b := Burn(st);
    if b.Some? {
      KinChain(p, q, roots, cls);
      KinInitial(p, q, roots, Chain(p, cls), []);
      var obj := Obj(cls, Initial(p, Chain(p, cls), []), 1);
      RenRunInit(p, q, roots, cls, |st.heap|, vs, b.value.(heap := b.value.heap + [obj]));
    }
  }

  lemma {:induction false} RenRunInit(p: Program, q: Program, roots: set<Name>, cls: ClassId, o: Oid, vs: seq<Value>, st: St)
    requires Kin(p, q, roots) && SELF !in roots
    ensures RunInit(q, cls, o, vs, st) == RunInit(p, cls, o, vs, st)
    decreases st.fuel, 7, cls, 1
  {
    if cls < |p.classes| && p.classes[cls].init.Some? {
      var init := p.classes[cls].init.value;
      assert ClassApart(p.classes[cls], roots);
      assert q.classes[cls] == RenClass(p.classes[cls], roots);
      RenRunInitBody(p, q, roots, cls, init, o, vs, st);
    }
  }

  lemma {:induction false} RenRunInitBody(p: Program, q: Program, roots: set<Name>, cls: ClassId, init: InitDecl,
                                          o: Oid, vs: seq<Value>, st: St)
    requires Kin(p, q, roots) && SELF !in roots && InitApart(init, roots)
    requires cls < |p.classes| && p.classes[cls].init == Some(init) && |q.classes| == |p.classes|
    requires q.classes[cls] == RenClass(p.classes[cls], roots)
    ensures RunInit(q, cls, o, vs, st) == RunInit(p, cls, o, vs, st)
    decreases st.fuel, 7, cls, 0, 1
  {
    hide Kin, EnvApart, RenEnv, RenBlock, BlockApart, RenAssigns;
    var env := Params(init.params, vs, SelfEnv(Some(VObj(o))));
    RenCallEnv(init.params, vs, Some(VObj(o)), roots);
    RenAssignAll(p, q, roots, init.assigns, o, env, st);
    var a := Assigns(p, init.assigns, o, env, st);
    if a.Done? {
      RenRunSuper(p, q, roots, cls, o, env, a.st);
      var s := RunSuper(p, cls, o, env, a.st);
      if s.Done? {
        RenBlocks(p, q, roots, init.post, env, s.st);
      }
    }
  }

  lemma {:induction false} RenRunSuper(p: Program, q: Program, roots: set<Name>, cls: ClassId, o: Oid, env: Env, st: St)
    requires Kin(p, q, roots) && SELF !in roots && EnvApart(env, roots) && RenEnv(env, roots) == env
    requires cls < |p.classes| && p.classes[cls].init.Some? && InitApart(p.classes[cls].init.value, roots)
    requires |q.classes| == |p.classes| && q.classes[cls] == RenClass(p.classes[cls], roots)
    ensures RunSuper(q, cls, o, env, st) == RunSuper(p, cls, o, env, st)
    decreases st.fuel, 7, cls, 0, 0
  {
    hide Kin, EnvApart, RenEnv;
    var sup := p.classes[cls].init.value.superArgs;
    if sup.Some? {
      RenArgs(p, q, roots, sup.value, env, st);
      var vs := EvalArgs(p, sup.value, env, st);
      if vs.Oks? && p.classes[cls].parent.Some? && p.classes[cls].parent.value < cls {
        var base := p.classes[cls].parent.value;
        RenRunInit(p, q, roots, base, o, vs.vs, vs.st);
        RenReleaseAll(p, q, roots, vs.vs, RunInit(p, base, o, vs.vs, vs.st).st);
      }
    }
  }

  lemma {:induction false} RenAssignAll(p: Program, q: Program, roots: set<Name>, todo: seq<InitAssign>, o: Oid, env: Env, st: St)
    requires Kin(p, q, roots) && SELF !in roots && EnvApart(env, roots) && RenEnv(env, roots) == env
    requires forall i :: 0 <= i < |todo| ==> ExprApart(todo[i].e, roots)
    ensures Assigns(q, RenAssigns(todo, roots), o, env, st) == Assigns(p, todo, o, env, st)
    decreases st.fuel, 5, |todo|
  {
    hide Kin, EnvApart, RenEnv;
    if todo != [] && o < |st.heap| {
      assert RenAssigns(todo, roots)[1..] == RenAssigns(todo[1..], roots);
      RenEval(p, q, roots, todo[0].e, env, st);
      var x := Eval(p, todo[0].e, env, st);
      if x.Ok? {
        KinStore(p, q, roots, VObj(o), todo[0].field, x.v, x.st);
        var stored := StoreField(p, VObj(o), todo[0].field, x.v, x.st);
        if stored.Done? {
          var was := GetField(st.heap[o].fields, todo[0].field);
          var gone := if was.Some? then was.value else VNone;
          RenRelease(p, q, roots, gone, stored.st);
          var d := Release(p, gone, stored.st);
          if d.Done? {
            RenAssignAll(p, q, roots, todo[1..], o, env, d.st);
          }
        }
      }
    }
  }

  lemma {:induction false} RenReplace(p: Program, q: Program, roots: set<Name>, holder: Value, field: Name, v: Value, st: St)
    requires Kin(p, q, roots) && SELF !in roots
    ensures Replace(q, holder, field, v, st) == Replace(p, holder, field, v, st)
    decreases st.fuel, 2, 0
  {
    hide Kin;
    if holder.VObj? && holder.o < |st.heap| {
      KinStore(p, q, roots, holder, field, v, st);
      var stored := StoreField(p, holder, field, v, st);
      if stored.Done? {
        var was := GetField(st.heap[holder.o].fields, field);
        RenRelease(p, q, roots, if was.Some? then was.value else VNone, stored.st);
      }
    }
  }

  // ---- statements --------------------------------------------------------------------------------------

  lemma {:induction false} RenBlocks(p: Program, q: Program, roots: set<Name>, ss: seq<Stmt>, env: Env, st: St)
    requires Kin(p, q, roots) && SELF !in roots && EnvApart(env, roots) && BlockApart(ss, roots)
    ensures Block(q, RenBlock(ss, roots), RenEnv(env, roots), st) == RenEx(Block(p, ss, env, st), roots)
    ensures EnvApart(Block(p, ss, env, st).env, roots)
    decreases st.fuel, 6, |ss|
  {
    hide Kin, EnvApart, RenEnv;
    if ss != [] {
      var b := Burn(st);
      if b.Some? {
        assert RenBlock(ss, roots)[1..] == RenBlock(ss[1..], roots);
        RenExec(p, q, roots, ss[0], env, b.value);
        var x := Exec(p, ss[0], env, b.value);
        if x.flow.Next? {
          RenBlocks(p, q, roots, ss[1..], x.env, x.st);
        }
      }
    }
  }

  lemma {:induction false} RenExec(p: Program, q: Program, roots: set<Name>, s: Stmt, env: Env, st: St)
    requires Kin(p, q, roots) && SELF !in roots && EnvApart(env, roots) && StmtApart(s, roots)
    ensures Exec(q, RenStmt(s, roots), RenEnv(env, roots), st) == RenEx(Exec(p, s, env, st), roots)
    ensures EnvApart(Exec(p, s, env, st).env, roots)
    decreases st.fuel, 8, 1
  {
    hide Kin, EnvApart, RenEnv, Dropped, Iterate, Count;
    match s
    case Let(name, init) =>
      RenEval(p, q, roots, init, env, st);
      var x := Eval(p, init, env, st);
      if x.Ok? {
        RenDeclare(env, Slot(name, x.v, true), roots);
        RenDropped(env, name, x.st, roots);
      }
    case Assign(_, _, _, _) => RenAssignStmt(p, q, roots, s, env, st);
    case FieldAssign(_, _, _) => RenFieldAssign(p, q, roots, s, env, st);
    case SelfFieldAssign(_, _) => RenSelfFieldAssign(p, q, roots, s, env, st);
    case ExprStmt(e) =>
      RenEval(p, q, roots, e, env, st);
      var x := Eval(p, e, env, st);
      RenRelease(p, q, roots, if x.Ok? then x.v else VNone, x.st);
    case Print(parts) => RenPrint(p, q, roots, parts, env, st);
    case If(_, _, _) => RenIf(p, q, roots, s, env, st);
    case ForRange(loopVar, lo, hi, inclusive, body) =>
      RenIterate(p, q, roots, loopVar, lo, if inclusive then hi + 1 else hi, body, env, st);
    case CounterLoop(counter, limit, body) =>
      var n := Slot(counter, VInt(0), true);
      RenDeclare(env, n, roots);
      RenDropped(env, counter, st, roots);
      RenCount(p, q, roots, counter, limit, body, 0, Declare(env, n), Lose(st, env, counter));
    case Return(result) =>
      if result.Some? {
        RenEval(p, q, roots, result.value, env, st);
      }
    case Break =>
    case Continue =>
    case Exit(_) =>
  }

  lemma {:induction false} RenAssignStmt(p: Program, q: Program, roots: set<Name>, s: Stmt, env: Env, st: St)
    requires s.Assign? && Kin(p, q, roots) && SELF !in roots && EnvApart(env, roots) && StmtApart(s, roots)
    ensures Exec(q, RenStmt(s, roots), RenEnv(env, roots), st) == RenEx(Exec(p, s, env, st), roots)
    ensures EnvApart(Exec(p, s, env, st).env, roots)
    decreases st.fuel, 8, 0
  {
    hide Kin, EnvApart, RenEnv, BinaryValue;
    RenEval(p, q, roots, s.e, env, st);
    var x := Eval(p, s.e, env, st);
    if x.Ok? {
      RenLookup(env, s.name, roots);
      RenFindSlot(env, s.name, roots);
      var y := Combine(env, s.name, s.op, s.t, x.v, x.st);
      var was := FindSlot(env, s.name);
      if y.Ok? && was.Some? {
        RenSetVar(env, s.name, y.v, roots);
        RenRelease(p, q, roots, was.value.val, y.st);
      }
    }
  }

  lemma {:induction false} RenFieldAssign(p: Program, q: Program, roots: set<Name>, s: Stmt, env: Env, st: St)
    requires s.FieldAssign? && Kin(p, q, roots) && SELF !in roots && EnvApart(env, roots) && StmtApart(s, roots)
    ensures Exec(q, RenStmt(s, roots), RenEnv(env, roots), st) == RenEx(Exec(p, s, env, st), roots)
    ensures Exec(p, s, env, st).env == env
    decreases st.fuel, 8, 0
  {
    hide Kin, EnvApart, RenEnv;
    RenLookup(env, s.name, roots);
    RenEval(p, q, roots, s.e, env, st);
    var holder := Lookup(env, s.name);
    var x := Eval(p, s.e, env, st);
    if holder.Some? && x.Ok? {
      RenReplace(p, q, roots, holder.value, s.field, x.v, x.st);
    }
  }

  lemma {:induction false} RenSelfFieldAssign(p: Program, q: Program, roots: set<Name>, s: Stmt, env: Env, st: St)
    requires s.SelfFieldAssign? && Kin(p, q, roots) && SELF !in roots && EnvApart(env, roots) && StmtApart(s, roots)
    ensures Exec(q, RenStmt(s, roots), RenEnv(env, roots), st) == RenEx(Exec(p, s, env, st), roots)
    ensures Exec(p, s, env, st).env == env
    decreases st.fuel, 8, 0
  {
    hide Kin, EnvApart, RenEnv;
    RenSelf(env, roots);
    RenEval(p, q, roots, s.e, env, st);
    var holder := Lookup(env, SELF);
    var x := Eval(p, s.e, env, st);
    if holder.Some? && x.Ok? {
      RenReplace(p, q, roots, holder.value, s.field, x.v, x.st);
    }
  }

  lemma {:induction false} RenPrint(p: Program, q: Program, roots: set<Name>, parts: seq<Part>, env: Env, st: St)
    requires Kin(p, q, roots) && SELF !in roots && EnvApart(env, roots) && PartsApart(parts, roots)
    ensures EvalParts(q, RenParts(parts, roots), RenEnv(env, roots), st) == EvalParts(p, parts, env, st)
    decreases st.fuel, 5, |parts|
  {
    hide Kin, EnvApart, RenEnv;
    if parts != [] {
      assert RenParts(parts, roots)[1..] == RenParts(parts[1..], roots);
      if parts[0].Lit? {
        RenPrint(p, q, roots, parts[1..], env, st);
      } else {
        RenEval(p, q, roots, parts[0].e, env, st);
        var x := Eval(p, parts[0].e, env, st);
        if x.Ok? {
          RenPrint(p, q, roots, parts[1..], env, x.st);
        }
      }
    }
  }

  lemma RenPush(env: Env, roots: set<Name>)
    requires EnvApart(env, roots)
    ensures RenEnv(Push(env), roots) == Push(RenEnv(env, roots)) && EnvApart(Push(env), roots)
  {
    RenSnoc(env, [], roots);
  }

  lemma {:induction false} RenIf(p: Program, q: Program, roots: set<Name>, s: Stmt, env: Env, st: St)
    requires s.If? && Kin(p, q, roots) && SELF !in roots && EnvApart(env, roots) && StmtApart(s, roots)
    ensures Exec(q, RenStmt(s, roots), RenEnv(env, roots), st) == RenEx(Exec(p, s, env, st), roots)
    ensures EnvApart(Exec(p, s, env, st).env, roots)
    decreases st.fuel, 8, 0
  {
    hide Kin, EnvApart, RenEnv, RenEx, Push;
    RenEval(p, q, roots, s.cond, env, st);
    var x := Eval(p, s.cond, env, st);
    if x.Ok? && x.v.VBool? && (x.v.b || s.elseB.ElseBlock?) {
      var body := if x.v.b then s.thenB else s.elseB.body;
      RenPush(env, roots);
      RenBlocks(p, q, roots, body, Push(env), x.st);
      RenPop(p, q, roots, Block(p, body, Push(env), x.st));
    } else {
      RenStays(s, p, env, st, roots);
    }
  }

  /** Without a branch to run the environment stays. */
  lemma RenStays(s: Stmt, p: Program, env: Env, st: St, roots: set<Name>)
    requires s.If?
    requires var x := Eval(p, s.cond, env, st); x.Halt? || !x.v.VBool? || (!x.v.b && s.elseB.NoElse?)
    ensures var x := Exec(p, s, env, st);
      x.env == env && RenEx(x, roots) == Ex(x.flow, RenEnv(env, roots), x.st)
  {
  }

  lemma {:induction false} RenPop(p: Program, q: Program, roots: set<Name>, x: Ex)
    requires Kin(p, q, roots) && SELF !in roots && EnvApart(x.env, roots)
    ensures Pop(q, RenEx(x, roots)) == RenEx(Pop(p, x), roots) && EnvApart(Pop(p, x).env, roots)
    decreases x.st.fuel, 3, 0
  {
    hide Kin;
    if x.env != [] {
      var n := |x.env| - 1;
      RenOwned(x.env[n], roots);
      RenReleaseAll(p, q, roots, Owned(x.env[n]), x.st);
      assert RenEnv(x.env, roots)[..n] == RenEnv(x.env[..n], roots);
      assert RenEnv(x.env, roots)[n] == RenScope(x.env[n], roots);
    }
  }

  lemma {:induction false} RenRound(p: Program, q: Program, roots: set<Name>, x: Ex)
    requires Kin(p, q, roots) && SELF !in roots && EnvApart(x.env, roots)
    ensures Round(q, RenEx(x, roots)) == RenEx(Round(p, x), roots) && EnvApart(Round(p, x).env, roots)
    decreases x.st.fuel, 3, 1
  {
    hide Kin, EnvApart, RenEnv;
    RenPop(p, q, roots, x);
    RenPop(p, q, roots, x.(flow := Next));
  }

  lemma {:induction false} RenIterate(p: Program, q: Program, roots: set<Name>, loopVar: Name, i: int, hi: int,
                                      body: seq<Stmt>, env: Env, st: St)
    requires Kin(p, q, roots) && SELF !in roots && EnvApart(env, roots)
    requires Untouched(loopVar, roots) && BlockApart(body, roots)
    ensures Iterate(q, loopVar, i, hi, RenBlock(body, roots), RenEnv(env, roots), st)
      == RenEx(Iterate(p, loopVar, i, hi, body, env, st), roots)
    ensures EnvApart(Iterate(p, loopVar, i, hi, body, env, st).env, roots)
    decreases st.fuel, 7, if i < hi then hi - i else 0, 0
  {
    hide Kin, EnvApart, RenEnv, RenBlock, BlockApart, Push, Declare;
    if i < hi {
      var n := Slot(loopVar, VInt(i), true);
      RenPush(env, roots);
      RenDeclare(Push(env), n, roots);
      var inner := Declare(Push(env), n);
      RenBlocks(p, q, roots, body, inner, st);
      RenRound(p, q, roots, Block(p, body, inner, st));
      var x := Round(p, Block(p, body, inner, st));
      if x.flow.Next? {
        RenIterate(p, q, roots, loopVar, i + 1, hi, body, x.env, x.st);
      }
    }
  }

  lemma {:induction false} RenCount(p: Program, q: Program, roots: set<Name>, counter: Name, limit: int,
                                    body: seq<Stmt>, guard: nat, env: Env, st: St)
    requires Kin(p, q, roots) && SELF !in roots && EnvApart(env, roots)
    requires Untouched(counter, roots) && BlockApart(body, roots)
    ensures Count(q, counter, limit, RenBlock(body, roots), guard, RenEnv(env, roots), st)
      == RenEx(Count(p, counter, limit, body, guard, env, st), roots)
    ensures EnvApart(Count(p, counter, limit, body, guard, env, st).env, roots)
    decreases st.fuel, 7, if guard <= GUARD_LIMIT then GUARD_LIMIT + 1 - guard else 0, 0
  {
    hide Kin, EnvApart, RenEnv, RenBlock, BlockApart, Push;
    RenLookup(env, counter, roots);
    assert CounterTest(RenEnv(env, roots), counter, limit, guard) == CounterTest(env, counter, limit, guard);
    if CounterTest(env, counter, limit, guard).Next? {
      RenPush(env, roots);
      RenBlocks(p, q, roots, body, Push(env), st);
      RenRound(p, q, roots, Block(p, body, Push(env), st));
      var x := Round(p, Block(p, body, Push(env), st));
      if x.flow.Next? {
        RenCount(p, q, roots, counter, limit, body, guard + 1, x.env, x.st);
      }
    }
  }

  // ---- the two transformations ------------------------------------------------------------------------------

  /** A renamed program makes the same output, exit code and objects, in the same
      order, on the same fuel. */
  lemma RenamingPreservesRuns(p: Program, fuel: nat)
    requires Renamable(p)
    ensures Run(Rename(p), fuel) == Run(p, fuel)
  {
    hide Kin, Block, NamesApart, Ending;
    var roots := RootLocals(p.main);
    var q := Rename(p);
    var env: Env := [[]];
    var st := St([], [], fuel, [], [], false);
    RenameKin(p);
    RenSnoc([], [], roots);
    RenBlocks(p, q, roots, p.main, env, st);
    RenEnding(p, q, roots, Block(p, p.main, env, st));
  }

  lemma RenEnding(p: Program, q: Program, roots: set<Name>, x: Ex)
    requires Kin(p, q, roots) && SELF !in roots
    ensures Ending(q, RenEx(x, roots)) == Ending(p, x)
  {
    hide Kin;
    RenOwnedAll(x.env, roots);
    RenReleaseAll(p, q, roots, OwnedAll(x.env), x.st);
  }

  lemma RenameKin(p: Program)
    requires Renamable(p)
    ensures Kin(p, Rename(p), RootLocals(p.main)) && SELF !in RootLocals(p.main)
  {
  }

  /** Parentheses around the initializers of main's locals. */
  function ParenRoots(main: seq<Stmt>): seq<Stmt> {
    if main == [] then []
    else [if main[0].Let? then Let(main[0].name, Paren(main[0].init)) else main[0]] + ParenRoots(main[1..])
  }

  function Parenthesize(p: Program): Program {
    p.(main := ParenRoots(p.main))
  }

  // Renaming nothing is the identity.

  lemma {:induction false} NoneExpr(e: Expr)
    ensures RenExpr(e, {}) == e && ExprApart(e, {})
  {
    match e
    case IntLit(_, _) =>
    case BoolLit(_) =>
    case VarRef(_) =>
    case SelfField(_) =>
    case Paren(inner) => NoneExpr(inner);
    case Unary(_, x, _) => NoneExpr(x);
    case Binary(_, l, r, _) => NoneExpr(l); NoneExpr(r);
    case Cast(x, _) => NoneExpr(x);
    case IfValue(c, x, y) => NoneExpr(c); NoneExpr(x); NoneExpr(y);
    case FieldGet(base, _) => NoneExpr(base);
    case NewObj(_, args) => NoneExprs(args);
    case Call(_, args) => NoneExprs(args);
    case MethodCall(recv, _, args) => NoneExpr(recv); NoneExprs(args);
    case SuperCall(_, _, args) => NoneExprs(args);
  }

  lemma {:induction false} NoneExprs(es: seq<Expr>)
    ensures RenExprs(es, {}) == es && ExprsApart(es, {})
  {
    if es != [] {
      NoneExpr(es[0]);
      NoneExprs(es[1..]);
    }
  }

  lemma {:induction false} NoneParts(parts: seq<Part>)
    ensures RenParts(parts, {}) == parts && PartsApart(parts, {})
  {
    if parts != [] {
      if parts[0].Shown? {
        NoneExpr(parts[0].e);
      }
      NoneParts(parts[1..]);
      forall i | 0 <= i < |parts| && parts[i].Shown? ensures ExprApart(parts[i].e, {}) {
        assert i > 0 ==> parts[i] == parts[1..][i - 1];
      }
    }
  }

  lemma {:induction false} NoneBlock(ss: seq<Stmt>)
    ensures RenBlock(ss, {}) == ss && BlockApart(ss, {})
    decreases ss, 1
  {
    if ss != [] {
      NoneStmt(ss[0]);
      NoneBlock(ss[1..]);
    }
  }

  lemma {:induction false} NoneStmt(s: Stmt)
    ensures RenStmt(s, {}) == s && StmtApart(s, {})
    decreases s, 0
  {
    match s
    case Let(_, init) => NoneExpr(init);
    case Assign(_, e, _, _) => NoneExpr(e);
    case FieldAssign(_, _, e) => NoneExpr(e);
    case SelfFieldAssign(_, e) => NoneExpr(e);
    case ExprStmt(e) => NoneExpr(e);
    case Print(parts) => NoneParts(parts);
    case If(c, thenB, elseB) =>
      NoneExpr(c);
      NoneBlock(thenB);
      if elseB.ElseBlock? {
        NoneBlock(elseB.body);
      }
    case ForRange(_, _, _, _, body) => NoneBlock(body);
    case CounterLoop(_, _, body) => NoneBlock(body);
    case Return(result) =>
      if result.Some? {
        NoneExpr(result.value);
      }
    case Break =>
    case Continue =>
    case Exit(_) =>
  }

  lemma {:induction false} NoneMethods(ms: seq<MethodDecl>)
    ensures RenMethods(ms, {}) == ms && forall i :: 0 <= i < |ms| ==> MethodApart(ms[i], {})
  {
    if ms != [] {
      NoneBlock(ms[0].body);
      NoneMethods(ms[1..]);
      forall i | 0 <= i < |ms| ensures MethodApart(ms[i], {}) {
        assert i > 0 ==> ms[i] == ms[1..][i - 1];
      }
    }
  }

  lemma {:induction false} NoneAssigns(todo: seq<InitAssign>)
    ensures RenAssigns(todo, {}) == todo && forall i :: 0 <= i < |todo| ==> ExprApart(todo[i].e, {})
  {
    if todo != [] {
      NoneExpr(todo[0].e);
      NoneAssigns(todo[1..]);
      forall i | 0 <= i < |todo| ensures ExprApart(todo[i].e, {}) {
        assert i > 0 ==> todo[i] == todo[1..][i - 1];
      }
    }
  }

  lemma NoneClass(c: ClassDecl)
    ensures RenClass(c, {}) == c && ClassApart(c, {})
  {
    NoneMethods(c.methods);
    if c.init.Some? {
      NoneAssigns(c.init.value.assigns);
      if c.init.value.superArgs.Some? {
        NoneExprs(c.init.value.superArgs.value);
      }
      NoneBlock(c.init.value.post);
    }
    if c.deinit.Some? {
      NoneBlock(c.deinit.value);
    }
  }

  lemma {:induction false} NoneFns(fs: seq<FnDecl>)
    ensures RenFns(fs, {}) == fs && forall i :: 0 <= i < |fs| ==> FnApart(fs[i], {})
  {
    hide FnApart;
    if fs != [] {
      var n := |fs| - 1;
      NoneFn(fs[n]);
      NoneFns(fs[..n]);
      forall i | 0 <= i < |fs| ensures FnApart(fs[i], {}) {
        assert i < n ==> fs[i] == fs[..n][i];
      }
    }
  }

  lemma NoneFn(f: FnDecl)
    ensures RenFn(f, {}) == f && FnApart(f, {})
  {
    NoneBlock(f.body);
  }

  lemma SameMainKin(p: Program, q: Program)
    requires q.classes == p.classes && q.fns == p.fns
    ensures Kin(p, q, {})
  {
    forall i | 0 <= i < |p.classes| ensures ClassApart(p.classes[i], {}) && RenClasses(p.classes, {})[i] == p.classes[i] {
      NoneClass(p.classes[i]);
    }
    assert RenClasses(p.classes, {}) == p.classes;
    NoneFns(p.fns);
  }

  lemma {:induction false} NoneScope(s: Scope)
    ensures RenScope(s, {}) == s
  {
    if s != [] {
      NoneScope(s[1..]);
    }
  }

  lemma {:induction false} NoneEnv(env: Env)
    ensures RenEnv(env, {}) == env && EnvApart(env, {})
  {
    if env != [] {
      NoneEnv(env[..|env| - 1]);
      NoneScope(env[|env| - 1]);
    }
  }

  lemma {:induction false} ParenBlock(p: Program, q: Program, ss: seq<Stmt>, env: Env, st: St)
    requires Kin(p, q, {})
    ensures Block(q, ParenRoots(ss), env, st) == Block(p, ss, env, st)
    decreases |ss|
  {
    hide Kin, Exec;
    if ss != [] {
      var b := Burn(st);
      if b.Some? {
        assert ParenRoots(ss)[1..] == ParenRoots(ss[1..]);
        ParenStmt(p, q, ss[0], env, b.value);
        var x := Exec(p, ss[0], env, b.value);
        if x.flow.Next? {
          ParenBlock(p, q, ss[1..], x.env, x.st);
        }
      }
    }
  }

  lemma ParenStmt(p: Program, q: Program, s: Stmt, env: Env, st: St)
    requires Kin(p, q, {})
    ensures Exec(q, if s.Let? then Let(s.name, Paren(s.init)) else s, env, st) == Exec(p, s, env, st)
  {
    hide Kin, RenEnv;
    NoneEnv(env);
    if s.Let? {
      NoneExpr(s.init);
      RenEval(p, q, {}, s.init, env, st);
    } else {
      NoneStmt(s);
      RenExec(p, q, {}, s, env, st);
      NoneEnv(Exec(p, s, env, st).env);
    }
  }

  /** Parenthesizing the initializers of main's locals changes nothing either. */
  lemma ParenthesesPreserveRuns(p: Program, fuel: nat)
    ensures Run(Parenthesize(p), fuel) == Run(p, fuel)
  {
    hide Kin;
    var q := Parenthesize(p);
    var st := St([], [], fuel, [], [], false);
    SameMainKin(p, q);
    ParenBlock(p, q, p.main, [[]], st);
    var x := Block(p, p.main, [[]], st);
    NoneEnv(x.env);
    RenEnding(p, q, {}, x);
  }

  // ---- why the names must be apart ------------------------------------------------------------------

  /** A loop variable with the name of a local of main. */
  function Shadowing(): Program {
    Program([], [], [Let("x", BoolLit(true)), ForRange("x", 0, 1, false, [Print([Shown(VarRef("x"))])])])
  }

  function PieceOf(v: Value): Piece
    requires v.VInt? || v.VBool?
  {
    if v.VInt? then Num(v.i) else Truth(v.b)
  }

  /** The loop prints the value of whatever its body's name finds. */
  lemma LoopPrints(p: Program, y: Name, env: Env, v: Value, st: St)
    requires st.fuel > 5 && (v.VInt? || v.VBool?)
    requires Lookup(Declare(Push(env), Slot("x", VInt(0), true)), y) == Some(v)
    requires Declare(Push(env), Slot("x", VInt(0), true)) == env + [[Slot("x", VInt(0), true)]]
    ensures Exec(p, ForRange("x", 0, 1, false, [Print([Shown(VarRef(y))])]), env, st)
      == Ex(Next, env, st.(fuel := st.fuel - 1, out := st.out + [[PieceOf(v)]]))
  {
    var inner := env + [[Slot("x", VInt(0), true)]];
    var body := [Print([Shown(VarRef(y))])];
    var st1 := st.(fuel := st.fuel - 1);
    var st2 := st1.(out := st.out + [[PieceOf(v)]]);
    assert EvalParts(p, [], inner, st1) == Pieces.Line([], st1);
    assert Eval(p, VarRef(y), inner, st1) == Ok(v, st1);
    assert EvalParts(p, body[0].parts, inner, st1) == Pieces.Line([PieceOf(v)], st1);
    assert Block(p, body[1..], inner, st2) == Ex(Next, inner, st2);
    assert Block(p, body, inner, st) == Ex(Next, inner, st2);
    assert Owned(inner[|env|]) == [VInt(0)];
    assert ReleaseAll(p, [VInt(0)], st2) == Done(st2);
    assert inner[..|env|] == env;
    assert Round(p, Ex(Next, inner, st2)) == Ex(Next, env, st2);
    assert Iterate(p, "x", 1, 1, body, env, st2) == Ex(Next, env, st2);
  }

  lemma MainPrints(p: Program, x: Name, y: Name, v: Value, fuel: nat)
    requires fuel > 10 && (v.VInt? || v.VBool?)
    requires p.main == [Let(x, BoolLit(true)), ForRange("x", 0, 1, false, [Print([Shown(VarRef(y))])])]
    requires Lookup([[Slot(x, VBool(true), true)], [Slot("x", VInt(0), true)]], y) == Some(v)
    ensures Run(p, fuel).Result? && Run(p, fuel).out == [[PieceOf(v)]]
  {
    hide Iterate;
    var env: Env := [[Slot(x, VBool(true), true)]];
    var st := St([], [], fuel, [], [], false);
    var st1 := st.(fuel := fuel - 1);
    assert Exec(p, p.main[0], [[]], st1) == Ex(Next, env, st1);
    var inner := env + [[Slot("x", VInt(0), true)]];
    assert Push(env)[|env|] == [] && Push(env)[..|env|] == env;
    LoopPrints(p, y, env, v, st1.(fuel := fuel - 2));
    var st2 := st1.(fuel := fuel - 3, out := [[PieceOf(v)]]);
    assert st.out + [[PieceOf(v)]] == [[PieceOf(v)]];
    assert Block(p, p.main[1..][1..], env, st2) == Ex(Next, env, st2);
    assert Block(p, p.main[1..], env, st1) == Ex(Next, env, st2);
    assert Block(p, p.main, [[]], st) == Ex(Next, env, st2);
    assert OwnedAll(env) == [VBool(true)] by {
      assert env[..0] == [] && OwnedAll([]) == [];
      assert Owned(env[0]) == [VBool(true)] + Owned([]);
    }
    assert ReleaseAll(p, [VBool(true)], st2) == Done(st2);
  }

  /** Without distinct names the renamed program prints something else. */
  lemma ShadowingBreaksRenaming()
    ensures Run(Rename(Shadowing()), 20) != Run(Shadowing(), 20)
  {
    hide Run;
    var p := Shadowing();
    assert RootLocals(p.main[1..]) == {} + RootLocals(p.main[1..][1..]) == {};
    assert RootLocals(p.main) == {"x"};
    var q := Rename(p);
    var y := PREFIX + "x";
    assert q.main == [Let(y, BoolLit(true)), ForRange("x", 0, 1, false, [Print([Shown(VarRef(y))])])] by {
      RenamedMain(p.main);
    }
    var top, inner: Scope := [Slot(y, VBool(true), true)], [Slot("x", VInt(0), true)];
    assert [top, inner][..1] == [top];
    assert y != "x" by {
      assert |y| != |"x"|;
    }
    assert Lookup([top, inner], y) == Some(VBool(true)) by {
      assert LookupScope(inner, y) == LookupScope(inner[1..], y) == None;
      assert Lookup([top], y) == Some(VBool(true));
    }
    MainPrints(q, y, y, VBool(true), 20);
    MainPrints(p, "x", "x", VInt(0), 20);
  }

  lemma RenamedMain(main: seq<Stmt>)
    requires main == Shadowing().main
    ensures RenBlock(main, {"x"}) ==
      [Let(PREFIX + "x", BoolLit(true)), ForRange("x", 0, 1, false, [Print([Shown(VarRef(PREFIX + "x"))])])]
  {
    var body := [Print([Shown(VarRef("x"))])];
    assert RenParts(body[0].parts[1..], {"x"}) == [];
    assert RenBlock(body[1..], {"x"}) == [];
    assert RenExpr(VarRef("x"), {"x"}) == VarRef(PREFIX + "x");
    assert RenParts(body[0].parts, {"x"}) == [Shown(VarRef(PREFIX + "x"))];
    assert RenBlock(body, {"x"}) == [Print([Shown(VarRef(PREFIX + "x"))])];
    assert RenBlock(main[1..][1..], {"x"}) == [];
    assert RenBlock(main[1..], {"x"}) == [RenStmt(main[1], {"x"})];
  }
}

/**
  os.exit: the exception that ends main releases the scopes of the calls and ifs it
  passes, and nothing else changes on its way.
*/
module EvaluatorExits {
  import opened Options
  import opened Evaluator
  import opened EvaluatorLimits

  predicate NoObjects(vs: seq<Value>) {
    forall k :: 0 <= k < |vs| ==> !vs[k].VObj?
  }

  function Now(st: St): Mark {
    Mark(st.heap, st.torn)
  }

  function CountSum(h: seq<Obj>): int {
    if h == [] then 0 else CountSum(h[..|h| - 1]) + h[|h| - 1].rc
  }

  /** More was torn down, or as much and the counts are lower. */
  predicate Lower(m: Mark, st: St) {
    |m.torn| < |st.torn| || (|m.torn| == |st.torn| && CountSum(st.heap) < CountSum(m.heap))
  }

  /** An exit has left heap and teardowns alone if and only if no scope it passed owned
      an object. */
  predicate Left(why: Stop, st: St) {
    why.Quit? ==> if NoObjects(why.passed) then Now(st) == why.at else Lower(why.at, st)
  }

  predicate EvExit(r: Ev) {
    r.Halt? ==> Left(r.why, r.st)
  }

  predicate EvsExit(r: Evs) {
    r.Halts? ==> Left(r.why, r.st)
  }

  predicate RelExit(r: Rel) {
    r.Failed? ==> Left(r.why, r.st)
  }

  predicate ExExit(x: Ex) {
    x.flow.Stops? ==> Left(x.flow.why, x.st)
  }

  predicate LineExit(l: Pieces) {
    l.NoLine? ==> Left(l.why, l.st)
  }

  // ---- releases of scopes --------------------------------------------------------------

  lemma {:induction false} CountSumUpdate(h: seq<Obj>, i: nat, b: Obj)
    requires i < |h|
    ensures CountSum(h[i := b]) == CountSum(h) - h[i].rc + b.rc
  {
    var n := |h| - 1;
    if i == n {
      assert h[i := b][..n] == h[..n];
    } else {
      assert h[i := b][..n] == h[..n][i := b];
      CountSumUpdate(h[..n], i, b);
    }
  }

  lemma {:induction false} TeardownTears(p: Program, o: Oid, st: St)
    requires o < |st.heap|
    ensures |st.torn| < |Teardown(p, o, st).st.torn|
  {
  }

  /** Giving back an object is noticed. */
  lemma {:induction false} ReleaseLowers(p: Program, v: Value, st: St)
    ensures var d := Release(p, v, st);
      d.Done? ==> if v.VObj? then Lower(Now(st), d.st) else d.st == st
  {
    hide Teardown, CountSum;
    if v.VObj? && v.o < |st.heap| {
      var rc := st.heap[v.o].rc - 1;
      CountSumUpdate(st.heap, v.o, st.heap[v.o].(rc := rc));
      TeardownTears(p, v.o, WithCount(st, v.o, rc));
    }
  }

  lemma {:induction false} ReleaseAllLowers(p: Program, vs: seq<Value>, st: St)
    ensures var d := ReleaseAll(p, vs, st);
      d.Done? ==> if NoObjects(vs) then d.st == st else Lower(Now(st), d.st)
    decreases |vs|
  {
    hide Release, CountSum;
    if vs != [] {
      var n := |vs| - 1;
      ReleaseLowers(p, vs[n], st);
      var d := Release(p, vs[n], st);
      if d.Done? {
        ReleaseAllLowers(p, vs[..n], d.st);
        assert NoObjects(vs) <==> NoObjects(vs[..n]) && !vs[n].VObj? by {
          SomeObject(vs);
        }
      }
    }
  }

  lemma {:induction false} SomeObject(vs: seq<Value>)
    requires vs != []
    ensures NoObjects(vs) <==> NoObjects(vs[..|vs| - 1]) && !vs[|vs| - 1].VObj?
  {
    var n := |vs| - 1;
    if NoObjects(vs[..n]) && !vs[n].VObj? {
      forall k | 0 <= k < |vs| ensures !vs[k].VObj? {
        assert k < n ==> vs[..n][k] == vs[k];
      }
    }
    if NoObjects(vs) {
      forall k | 0 <= k < n ensures !vs[..n][k].VObj? {
        assert vs[..n][k] == vs[k];
      }
    }
  }

  lemma {:induction false} NoObjectsConcat(a: seq<Value>, b: seq<Value>)
    ensures NoObjects(a + b) <==> NoObjects(a) && NoObjects(b)
  {
    if NoObjects(a + b) {
      forall k | 0 <= k < |a| ensures !a[k].VObj? {
        assert (a + b)[k] == a[k];
      }
      forall k | 0 <= k < |b| ensures !b[k].VObj? {
        assert (a + b)[|a| + k] == b[k];
      }
    }
  }

  /** The scope an exit passes. */
  lemma {:induction false} LeftPast(p: Program, f: Flow, vs: seq<Value>, st: St)
    requires f.Stops? ==> Left(f.why, st)
    ensures var d := ReleaseAll(p, vs, st);
      var g := Past(f, vs);
      d.Done? && g.Stops? ==> Left(g.why, d.st)
  {
    hide ReleaseAll, CountSum, NoObjects;
    ReleaseAllLowers(p, vs, st);
    if f.Stops? && f.why.Quit? {
      NoObjectsConcat(f.why.passed, vs);
    }
  }

  // ---- expressions ---------------------------------------------------------------------

  lemma {:induction false} ExitEval(p: Program, e: Expr, env: Env, st: St)
    ensures EvExit(Eval(p, e, env, st))
    decreases st.fuel, 4, e, 2
  {
    match e
    case IntLit(_, _) =>
    case BoolLit(_) =>
    case VarRef(_) =>
    case SelfField(_) =>
    case Paren(inner) => ExitEval(p, inner, env, st);
    case Unary(_, x, _) => ExitEval(p, x, env, st);
    case Binary(_, _, _, _) => ExitBinary(p, e, env, st);
    case Cast(x, _) => ExitEval(p, x, env, st);
    case IfValue(_, _, _) => ExitIfValue(p, e, env, st);
    case FieldGet(_, _) => ExitFieldGet(p, e, env, st);
    case NewObj(_, _) => ExitNew(p, e, env, st);
    case Call(_, _) => ExitCall(p, e, env, st);
    case MethodCall(_, _, _) => ExitMethodCall(p, e, env, st);
    case SuperCall(_, _, _) => ExitSuperCall(p, e, env, st);
  }

  lemma {:induction false} ExitBinary(p: Program, e: Expr, env: Env, st: St)
    requires e.Binary?
    ensures EvExit(EvalBinary(p, e, env, st))
    decreases st.fuel, 4, e, 0
  {
    hide BinaryValue;
    ExitEval(p, e.l, env, st);
    var a := Eval(p, e.l, env, st);
    var strict := !e.bop.AndAlso? && !e.bop.OrElse?;
    if a.Ok? && (strict || (a.v.VBool? && a.v.b != e.bop.OrElse?)) {
      ExitEval(p, e.r, env, a.st);
      var b := Eval(p, e.r, env, a.st);
      if strict && b.Ok? {
        ExitValue(e.bop, e.t, a.v, b.v, b.st);
      }
    }
  }

  lemma {:induction false} ExitValue(op: BinaryOp, t: IntType, a: Value, b: Value, st: St)
    ensures EvExit(BinaryValue(op, t, a, b, st))
  {
  }

  lemma {:induction false} ExitIfValue(p: Program, e: Expr, env: Env, st: St)
    requires e.IfValue?
    ensures EvExit(Eval(p, e, env, st))
    decreases st.fuel, 4, e, 0
  {
    ExitEval(p, e.cond, env, st);
    var r := Eval(p, e.cond, env, st);
    if r.Ok? && r.v.VBool? {
      ExitEval(p, if r.v.b then e.thenE else e.elseE, env, r.st);
    }
  }

  lemma {:induction false} ExitFieldGet(p: Program, e: Expr, env: Env, st: St)
    requires e.FieldGet?
    ensures EvExit(Eval(p, e, env, st))
    decreases st.fuel, 4, e, 0
  {
    ExitEval(p, e.base, env, st);
    var r := Eval(p, e.base, env, st);
    if r.Ok? {
      var got := ReadField(r.v, e.field, r.st);
      if got.Ok? {
        ExitRelease(p, r.v, got.st);
      }
    }
  }

  lemma {:induction false} ExitNew(p: Program, e: Expr, env: Env, st: St)
    requires e.NewObj?
    ensures EvExit(Eval(p, e, env, st))
    decreases st.fuel, 4, e, 0
  {
    ExitArgs(p, e.args, env, st);
    var vs := EvalArgs(p, e.args, env, st);
    if vs.Oks? {
      ExitConstruct(p, e.cls, vs.vs, vs.st);
      var r := Construct(p, e.cls, vs.vs, vs.st);
      if r.Ok? {
        ExitReleaseAll(p, vs.vs, r.st);
      }
    }
  }

  lemma {:induction false} ExitCall(p: Program, e: Expr, env: Env, st: St)
    requires e.Call?
    ensures EvExit(Eval(p, e, env, st))
    decreases st.fuel, 4, e, 0
  {
    ExitArgs(p, e.args, env, st);
    var vs := EvalArgs(p, e.args, env, st);
    if vs.Oks? {
      ExitCallFn(p, e.fn, vs.vs, vs.st);
      var r := CallFn(p, e.fn, vs.vs, vs.st);
      if r.Ok? {
        ExitReleaseAll(p, vs.vs, r.st);
      }
    }
  }

  lemma {:induction false} ExitMethodCall(p: Program, e: Expr, env: Env, st: St)
    requires e.MethodCall?
    ensures EvExit(EvalMethodCall(p, e, env, st))
    decreases st.fuel, 4, e, 0
  {
    ExitEval(p, e.recv, env, st);
    var o := Eval(p, e.recv, env, st);
    if o.Ok? && o.v.VObj? {
      ExitArgs(p, e.args, env, o.st);
      var vs := EvalArgs(p, e.args, env, o.st);
      if vs.Oks? && o.v.o < |vs.st.heap| {
        var m := Resolve(p, Chain(p, vs.st.heap[o.v.o].cls), e.slot);
        if m.Some? {
          ExitInvoke(p, m.value.params, m.value.body, m.value.hasResult, Some(o.v), vs.vs, vs.st);
          var r := Invoke(p, m.value.params, m.value.body, m.value.hasResult, Some(o.v), vs.vs, vs.st);
          if r.Ok? {
            ExitReleaseAll(p, vs.vs, r.st);
            var k := ReleaseAll(p, vs.vs, r.st);
            if k.Done? {
              ExitRelease(p, o.v, k.st);
            }
          }
        }
      }
    }
  }

  lemma {:induction false} ExitSuperCall(p: Program, e: Expr, env: Env, st: St)
    requires e.SuperCall?
    ensures EvExit(EvalSuperCall(p, e, env, st))
    decreases st.fuel, 4, e, 0
  {
    var self := Lookup(env, SELF);
    if self.Some? {
      ExitArgs(p, e.args, env, st);
      var vs := EvalArgs(p, e.args, env, st);
      if vs.Oks? {
        var chain := Chain(p, e.owner);
        var m := if chain == [] then None else Resolve(p, chain[1..], e.slot);
        if m.Some? {
          ExitInvoke(p, m.value.params, m.value.body, m.value.hasResult, self, vs.vs, vs.st);
          var r := Invoke(p, m.value.params, m.value.body, m.value.hasResult, self, vs.vs, vs.st);
          if r.Ok? {
            ExitReleaseAll(p, vs.vs, r.st);
          }
        }
      }
    }
  }

  lemma {:induction false} ExitArgs(p: Program, es: seq<Expr>, env: Env, st: St)
    ensures EvsExit(EvalArgs(p, es, env, st))
    decreases st.fuel, 4, es, 0
  {
    if es != [] {
      ExitEval(p, es[0], env, st);
      var a := Eval(p, es[0], env, st);
      if a.Ok? {
        ExitArgs(p, es[1..], env, a.st);
      }
    }
  }

  // ---- calls ---------------------------------------------------------------------------

  lemma {:induction false} ExitCallFn(p: Program, name: Name, vs: seq<Value>, st: St)
    ensures EvExit(CallFn(p, name, vs, st))
    decreases st.fuel, 3, 1
  {
    var f := FindFn(p.fns, name);
    if f.Some? {
      ExitInvoke(p, f.value.params, f.value.body, f.value.hasResult, None, vs, st);
    }
  }

  lemma {:induction false} ExitInvoke(p: Program, params: seq<Name>, body: seq<Stmt>, hasResult: bool, self: Option<Value>, vs: seq<Value>, st: St)
    ensures EvExit(Invoke(p, params, body, hasResult, self, vs, st))
    decreases st.fuel, 3, 0
  {
    var b := Burn(st);
    if b.Some? {
      var env := Params(params, vs, SelfEnv(self));
      var x := Block(p, body, env, b.value);
      ExitBlock(p, body, env, b.value);
      ExitReturning(p, hasResult, x);
    }
  }

  lemma {:induction false} ExitReturning(p: Program, hasResult: bool, x: Ex)
    requires ExExit(x)
    ensures EvExit(Returning(p, hasResult, x))
    decreases x.st.fuel, 3, 0
  {
    ExitReleaseAll(p, OwnedAll(x.env), x.st);
    LeftPast(p, x.flow, OwnedAll(x.env), x.st);
  }

  // ---- releases ------------------------------------------------------------------------

  lemma {:induction false} ExitRelease(p: Program, v: Value, st: St)
    ensures RelExit(Release(p, v, st))
    decreases st.fuel, 1
  {
    if v.VObj? && v.o < |st.heap| && st.heap[v.o].rc == 1 {
      ExitTeardown(p, v.o, WithCount(st, v.o, 0));
    }
  }

  lemma {:induction false} ExitReleaseAll(p: Program, vs: seq<Value>, st: St)
    ensures RelExit(ReleaseAll(p, vs, st))
    decreases st.fuel, 2, |vs|
  {
    if vs != [] {
      ExitRelease(p, vs[|vs| - 1], st);
      var k := Release(p, vs[|vs| - 1], st);
      if k.Done? {
        ExitReleaseAll(p, vs[..|vs| - 1], k.st);
      }
    }
  }

  lemma {:induction false} ExitTeardown(p: Program, o: Oid, st: St)
    requires o < |st.heap|
    ensures RelExit(Teardown(p, o, st))
    decreases st.fuel, 0
  {
    var b := Burn(st.(torn := st.torn + [o]));
    if b.Some? {
      var chain := Chain(p, st.heap[o].cls);
      ExitDeinits(p, chain, o, b.value);
      var k := Deinits(p, chain, o, b.value);
      if k.Done? {
        ExitDropFields(p, FieldOrder(p, chain), o, k.st);
      }
    }
  }

  lemma {:induction false} ExitDeinits(p: Program, chain: seq<ClassId>, o: Oid, st: St)
    requires Declared(p, chain)
    ensures RelExit(Deinits(p, chain, o, st))
    decreases st.fuel, 9, |chain|
  {
    if chain != [] {
      var body := p.classes[chain[0]].deinit;
      if body.None? {
        ExitDeinits(p, chain[1..], o, st);
      } else {
        var env := SelfEnv(Some(VObj(o)));
        ExitBlock(p, body.value, env, st);
        var x := Block(p, body.value, env, st);
        if x.flow.Next? {
          ExitDeinits(p, chain[1..], o, x.st);
        }
      }
    }
  }

  lemma {:induction false} ExitDropFields(p: Program, names: seq<Name>, o: Oid, st: St)
    ensures RelExit(DropFields(p, names, o, st))
    decreases st.fuel, 2, |names|
  {
    if names != [] && o < |st.heap| {
      var v := GetField(st.heap[o].fields, names[0]);
      if v.Some? && v.value.VObj? {
        var st1 := WithFields(st, o, DelField(st.heap[o].fields, names[0]));
        ExitRelease(p, v.value, st1);
        var k := Release(p, v.value, st1);
        if k.Done? {
          ExitDropFields(p, names[1..], o, k.st);
        }
      } else {
        ExitDropFields(p, names[1..], o, st);
      }
    }
  }

  // ---- construction --------------------------------------------------------------------

  lemma {:induction false} ExitConstruct(p: Program, cls: ClassId, vs: seq<Value>, st: St)
    ensures EvExit(Construct(p, cls, vs, st))
    decreases st.fuel, 3, 0
  {
    var b := Burn(st);
    if b.Some? {
      var obj := Obj(cls, Initial(p, Chain(p, cls), []), 1);
      var st1 := b.value.(heap := b.value.heap + [obj]);
      ExitRunInit(p, cls, |st.heap|, vs, st1);
    }
  }

  lemma {:induction false} ExitRunInit(p: Program, cls: ClassId, o: Oid, vs: seq<Value>, st: St)
    ensures RelExit(RunInit(p, cls, o, vs, st))
    decreases st.fuel, 7, cls, 1
  {
    if cls < |p.classes| && p.classes[cls].init.Some? {
      var init := p.classes[cls].init.value;
      var env := Params(init.params, vs, SelfEnv(Some(VObj(o))));
      ExitAssigns(p, init.assigns, o, env, st);
      var a := Assigns(p, init.assigns, o, env, st);
      if a.Done? {
        ExitRunSuper(p, cls, o, env, a.st);
        var s := RunSuper(p, cls, o, env, a.st);
        if s.Done? {
          ExitBlock(p, init.post, env, s.st);
        }
      }
    }
  }

  lemma {:induction false} ExitRunSuper(p: Program, cls: ClassId, o: Oid, env: Env, st: St)
    requires cls < |p.classes| && p.classes[cls].init.Some?
    ensures RelExit(RunSuper(p, cls, o, env, st))
    decreases st.fuel, 7, cls, 0
  {
    var sup := p.classes[cls].init.value.superArgs;
    if sup.Some? {
      ExitArgs(p, sup.value, env, st);
      var vs := EvalArgs(p, sup.value, env, st);
      if vs.Oks? && p.classes[cls].parent.Some? && p.classes[cls].parent.value < cls {
        ExitRunInit(p, p.classes[cls].parent.value, o, vs.vs, vs.st);
        var r := RunInit(p, p.classes[cls].parent.value, o, vs.vs, vs.st);
        if r.Done? {
          ExitReleaseAll(p, vs.vs, r.st);
        }
      }
    }
  }

  lemma {:induction false} ExitStore(p: Program, holder: Value, field: Name, v: Value, st: St)
    ensures RelExit(StoreField(p, holder, field, v, st))
  {
  }

  lemma {:induction false} ExitAssigns(p: Program, todo: seq<InitAssign>, o: Oid, env: Env, st: St)
    ensures RelExit(Assigns(p, todo, o, env, st))
    decreases st.fuel, 5, |todo|
  {
    hide StoreField;
    if todo != [] && o < |st.heap| {
      ExitEval(p, todo[0].e, env, st);
      var x := Eval(p, todo[0].e, env, st);
      if x.Ok? {
        ExitStore(p, VObj(o), todo[0].field, x.v, x.st);
        var stored := StoreField(p, VObj(o), todo[0].field, x.v, x.st);
        if stored.Done? {
          var was := GetField(st.heap[o].fields, todo[0].field);
          var gone := if was.Some? then was.value else VNone;
          ExitRelease(p, gone, stored.st);
          var k := Release(p, gone, stored.st);
          if k.Done? {
            ExitAssigns(p, todo[1..], o, env, k.st);
          }
        }
      }
    }
  }

  lemma {:induction false} ExitReplace(p: Program, holder: Value, field: Name, v: Value, st: St)
    ensures RelExit(Replace(p, holder, field, v, st))
    decreases st.fuel, 2, 0
  {
    hide StoreField;
    if holder.VObj? && holder.o < |st.heap| {
      ExitStore(p, holder, field, v, st);
      var stored := StoreField(p, holder, field, v, st);
      if stored.Done? {
        var was := GetField(st.heap[holder.o].fields, field);
        ExitRelease(p, if was.Some? then was.value else VNone, stored.st);
      }
    }
  }

  // ---- statements ----------------------------------------------------------------------

  lemma {:induction false} ExitBlock(p: Program, ss: seq<Stmt>, env: Env, st: St)
    ensures ExExit(Block(p, ss, env, st))
    decreases st.fuel, 6, |ss|
  {
    hide Exec;
    if ss != [] {
      var b := Burn(st);
      if b.Some? {
        ExitExec(p, ss[0], env, b.value);
        var x := Exec(p, ss[0], env, b.value);
        if x.flow.Next? {
          ExitBlock(p, ss[1..], x.env, x.st);
        }
      }
    }
  }

  lemma {:induction false} ExitExec(p: Program, s: Stmt, env: Env, st: St)
    ensures ExExit(Exec(p, s, env, st))
    decreases st.fuel, 8, 1
  {
    hide Iterate, Count;
    match s
    case Let(_, _) => ExitLet(p, s, env, st);
    case Assign(_, _, _, _) => ExitAssign(p, s, env, st);
    case FieldAssign(name, field, e) => ExitFieldAssign(p, s, env, st, name, field, e);
    case SelfFieldAssign(field, e) => ExitFieldAssign(p, s, env, st, SELF, field, e);
    case ExprStmt(_) => ExitExprStmt(p, s, env, st);
    case Print(parts) => ExitParts(p, parts, env, st);
    case If(_, _, _) => ExitIf(p, s, env, st);
    case ForRange(loopVar, lo, hi, inclusive, body) =>
      ExitIterate(p, loopVar, lo, if inclusive then hi + 1 else hi, body, env, st);
    case CounterLoop(_, _, _) => ExitCounter(p, s, env, st);
    case Break =>
    case Continue =>
    case Return(result) =>
      if result.Some? {
        ExitEval(p, result.value, env, st);
      }
    case Exit(_) =>
  }

  lemma {:induction false} ExitLet(p: Program, s: Stmt, env: Env, st: St)
    requires s.Let?
    ensures ExExit(Exec(p, s, env, st))
    decreases st.fuel, 8, 0
  {
    ExitEval(p, s.init, env, st);
  }

  lemma {:induction false} ExitCounter(p: Program, s: Stmt, env: Env, st: St)
    requires s.CounterLoop?
    ensures ExExit(Exec(p, s, env, st))
    decreases st.fuel, 8, 0
  {
    hide Count;
    var st1 := Lose(st, env, s.counter);
    ExitCount(p, s.counter, s.limit, s.body, 0, Declare(env, Slot(s.counter, VInt(0), true)), st1);
  }

  lemma {:induction false} ExitAssign(p: Program, s: Stmt, env: Env, st: St)
    requires s.Assign?
    ensures ExExit(Exec(p, s, env, st))
    decreases st.fuel, 8, 0
  {
    hide Combine;
    ExitEval(p, s.e, env, st);
    var x := Eval(p, s.e, env, st);
    if x.Ok? {
      ExitCombine(env, s.name, s.op, s.t, x.v, x.st);
      var y := Combine(env, s.name, s.op, s.t, x.v, x.st);
      var was := FindSlot(env, s.name);
      if y.Ok? && was.Some? && was.value.owned {
        ExitRelease(p, was.value.val, y.st);
      }
    }
  }

  lemma {:induction false} ExitCombine(env: Env, name: Name, op: Option<BinaryOp>, t: IntType, v: Value, st: St)
    ensures EvExit(Combine(env, name, op, t, v, st))
  {
    hide BinaryValue;
    var was := Lookup(env, name);
    if op.Some? && was.Some? && was.value.VInt? && v.VInt? {
      ExitValue(op.value, t, VInt(NormInt(t, was.value.i)), VInt(NormInt(t, v.i)), st);
    }
  }

  lemma {:induction false} ExitFieldAssign(p: Program, s: Stmt, env: Env, st: St, name: Name, field: Name, e: Expr)
    requires s == FieldAssign(name, field, e) || (s == SelfFieldAssign(field, e) && name == SELF)
    ensures ExExit(Exec(p, s, env, st))
    decreases st.fuel, 8, 0
  {
    var holder := Lookup(env, name);
    if holder.Some? {
      ExitEval(p, e, env, st);
      var x := Eval(p, e, env, st);
      if x.Ok? {
        ExitReplace(p, holder.value, field, x.v, x.st);
      }
    }
  }

  lemma {:induction false} ExitExprStmt(p: Program, s: Stmt, env: Env, st: St)
    requires s.ExprStmt?
    ensures ExExit(Exec(p, s, env, st))
    decreases st.fuel, 8, 0
  {
    ExitEval(p, s.e, env, st);
    var x := Eval(p, s.e, env, st);
    if x.Ok? {
      ExitRelease(p, x.v, x.st);
    }
  }

  lemma {:induction false} ExitIf(p: Program, s: Stmt, env: Env, st: St)
    requires s.If?
    ensures ExExit(Exec(p, s, env, st))
    decreases st.fuel, 8, 0
  {
    ExitEval(p, s.cond, env, st);
    var x := Eval(p, s.cond, env, st);
    if x.Ok? && x.v.VBool? && (x.v.b || s.elseB.ElseBlock?) {
      var body := if x.v.b then s.thenB else s.elseB.body;
      var y := Block(p, body, Push(env), x.st);
      ExitBlock(p, body, Push(env), x.st);
      ExitPop(p, y);
    }
  }

  lemma {:induction false} ExitParts(p: Program, parts: seq<Part>, env: Env, st: St)
    ensures LineExit(EvalParts(p, parts, env, st))
    decreases st.fuel, 5, |parts|
  {
    if parts != [] {
      if parts[0].Lit? {
        ExitParts(p, parts[1..], env, st);
      } else {
        ExitEval(p, parts[0].e, env, st);
        var x := Eval(p, parts[0].e, env, st);
        if x.Ok? && (x.v.VInt? || x.v.VBool?) {
          ExitParts(p, parts[1..], env, x.st);
        }
      }
    }
  }

  lemma {:induction false} ExitPop(p: Program, x: Ex)
    requires ExExit(x)
    ensures ExExit(Pop(p, x))
    decreases x.st.fuel, 3, 0
  {
    if x.env != [] {
      var vs := Owned(x.env[|x.env| - 1]);
      ExitReleaseAll(p, vs, x.st);
      LeftPast(p, x.flow, vs, x.st);
    }
  }

  lemma {:induction false} ExitRound(p: Program, x: Ex)
    requires ExExit(x)
    ensures ExExit(Round(p, x))
    decreases x.st.fuel, 3, 1
  {
    hide Pop;
    if x.flow.Next? || x.flow.Continues? {
      ExitPop(p, x.(flow := Next));
    } else if x.flow.Breaks? {
      ExitPop(p, x);
    }
  }

  lemma {:induction false} ExitIterate(p: Program, loopVar: Name, i: int, hi: int, body: seq<Stmt>, env: Env, st: St)
    ensures ExExit(Iterate(p, loopVar, i, hi, body, env, st))
    decreases st.fuel, 7, if i < hi then hi - i else 0, 0
  {
    hide Round, Block;
    if i < hi {
      var inner := Declare(Push(env), Slot(loopVar, VInt(i), true));
      var y := Block(p, body, inner, st);
      ExitBlock(p, body, inner, st);
      ExitRound(p, y);
      var x := Round(p, y);
      if x.flow.Next? {
        ExitIterate(p, loopVar, i + 1, hi, body, x.env, x.st);
      }
    }
  }

  lemma {:induction false} ExitCount(p: Program, counter: Name, limit: int, body: seq<Stmt>, guard: nat, env: Env, st: St)
    ensures ExExit(Count(p, counter, limit, body, guard, env, st))
    decreases st.fuel, 7, if guard <= GUARD_LIMIT then GUARD_LIMIT + 1 - guard else 0, 0
  {
    hide Round, Block;
    if CounterTest(env, counter, limit, guard).Next? {
      var y := Block(p, body, Push(env), st);
      ExitBlock(p, body, Push(env), st);
      ExitRound(p, y);
      var x := Round(p, y);
      if x.flow.Next? {
        ExitCount(p, counter, limit, body, guard + 1, x.env, x.st);
      }
    }
  }

  // ---- what an exit changes ----------------------------------------------------------------

  /** A call that an exit passes changes nothing if and only if it owns no object. */
  lemma {:induction false} CallLeftAloneIff(p: Program, hasResult: bool, x: Ex)
    requires x.flow.Stops? && x.flow.why.Quit? && ReleaseAll(p, OwnedAll(x.env), x.st).Done?
    ensures Returning(p, hasResult, x).Halt? && Returning(p, hasResult, x).why.Quit?
    ensures Returning(p, hasResult, x).st == x.st <==> NoObjects(OwnedAll(x.env))
  {
    hide NoObjects, CountSum;
    ReleaseAllLowers(p, OwnedAll(x.env), x.st);
  }

  /** Nor does the scope on top when it passes an if. */
  lemma {:induction false} IfLeftAloneIff(p: Program, x: Ex)
    requires x.flow.Stops? && x.flow.why.Quit? && x.env != []
    requires ReleaseAll(p, Owned(x.env[|x.env| - 1]), x.st).Done?
    ensures Pop(p, x).flow.Stops? && Pop(p, x).flow.why.Quit?
    ensures Pop(p, x).st == x.st <==> NoObjects(Owned(x.env[|x.env| - 1]))
  {
    hide NoObjects, CountSum;
    ReleaseAllLowers(p, Owned(x.env[|x.env| - 1]), x.st);
  }

  /** A run that ends in os.exit has the heap and the teardowns of the moment of the exit
      if and only if no call or if it passed on its way out owned an object. */
  lemma {:induction false} ExitLeavesAloneIff(p: Program, fuel: nat)
    ensures var f := Block(p, p.main, [[]], St([], [], fuel, [], [], false)).flow;
      f.Stops? && f.why.Quit? ==>
        var r := Run(p, fuel);
        && r.Result? && r.code == f.why.code
        && (Now(r.st) == f.why.at <==> NoObjects(f.why.passed))
  {
    hide Block, NoObjects, CountSum;
    ExitBlock(p, p.main, [[]], St([], [], fuel, [], [], false));
  }

  // ---- an exit that releases -----------------------------------------------------------------

  /** A function makes an object and exits. */
  function ExitsInside(): Program {
    Program([Plain()], [FnDecl("f", [], false, [Let("x", NewObj(0, [])), Exit(3)])], [ExprStmt(Call("f", []))])
  }

  const MADE: St := St([Obj(0, [], 1)], [], 5, [], [], false)

  lemma {:induction false} BodyExits()
    ensures var p := ExitsInside();
      Block(p, p.fns[0].body, [[]], St([], [], 8, [], [], false)) ==
        Ex(Stops(Quit(3, Now(MADE), [])), [[Slot("x", VObj(0), true)]], MADE)
  {
    hide Exec;
    var p := ExitsInside();
    var start := St([], [], 8, [], [], false);
    var st1 := St([Obj(0, [], 1)], [], 6, [], [], false);
    var body := p.fns[0].body;
    LetsPlain(p, body, [], "x", start);
    var none: Scope := [];
    NothingDropped(none, "x");
    assert start.lost + Dropped([none], "x") == [];
    assert start.heap + [Obj(0, [], 1)] == st1.heap;
    var env := [[Slot("x", VObj(0), true)]];
    assert Block(p, body, [[]], start) == Block(p, body[1..], env, st1);
    ExitsAtOnce(p, env);
    assert body[1..] == [Exit(3)];
    assert Burn(st1) == Some(MADE);
  }

  lemma {:induction false} ExitsAtOnce(p: Program, env: Env)
    ensures Exec(p, Exit(3), env, MADE) == Ex(Stops(Quit(3, Now(MADE), [])), env, MADE)
  {
  }

  const ENDED: St := St([Obj(0, [], 0)], [], 4, [0], [], false)

  /** The end of the call releases its local. */
  lemma {:induction false} ReturnDrops(env: Env)
    requires env == [[Slot("x", VObj(0), true)]]
    ensures Returning(ExitsInside(), false, Ex(Stops(Quit(3, Now(MADE), [])), env, MADE)) ==
      Halt(Quit(3, Now(MADE), [VObj(0)]), ENDED)
  {
    hide ReleaseAll;
    OneOwned(0, env);
    assert MADE.heap[0 := Obj(0, [], 0)] == ENDED.heap && MADE.torn + [0] == ENDED.torn;
    PlainReleased(ExitsInside(), 0, MADE, ENDED);
    var none: seq<Value> := [];
    assert none + OwnedAll(env) == [VObj(0)];
  }

  lemma {:induction false} CallExits()
    ensures CallFn(ExitsInside(), "f", [], St([], [], 9, [], [], false)) ==
      Halt(Quit(3, Now(MADE), [VObj(0)]), ENDED)
  {
    hide Block, Returning;
    var p := ExitsInside();
    BodyExits();
    ReturnDrops([[Slot("x", VObj(0), true)]]);
    assert FindFn(p.fns, "f") == Some(p.fns[0]);
    assert Params([], [], SelfEnv(None)) == [[]];
    assert Burn(St([], [], 9, [], [], false)) == Some(St([], [], 8, [], [], false));
  }

  /** The object is torn down on the way out, although the exit came first. */
  lemma {:induction false} ExitReleasesLocals()
    ensures var p := ExitsInside();
      Run(p, 10) == Result([], 3, ENDED) && ENDED.torn == [0] && MADE.torn == []
  {
    hide CallFn;
    var p := ExitsInside();
    var start, b := St([], [], 10, [], [], false), St([], [], 9, [], [], false);
    CallExits();
    assert Burn(start) == Some(b);
    assert EvalArgs(p, [], [[]], b) == Oks([], b);
    var why := Quit(3, Now(MADE), [VObj(0)]);
    assert Eval(p, Call("f", []), [[]], b) == Halt(why, ENDED);
    assert Exec(p, p.main[0], [[]], b) == Ex(Stops(why), [[]], ENDED);
    assert Block(p, p.main, [[]], start) == Ex(Stops(why), [[]], ENDED);
  }
}

/**
  Fuel only cuts a run short: an evaluation that does not exhaust it is the same
  with more of it.
*/
module EvaluatorFuel {
  import opened Options
  import opened Evaluator

  /** The same state with more fuel. */
  function More(st: St, d: nat): St {
    st.(fuel := st.fuel + d)
  }

  function EvMore(r: Ev, d: nat): Ev {
    if r.Ok? then Ok(r.v, More(r.st, d)) else Halt(r.why, More(r.st, d))
  }

  function EvsMore(r: Evs, d: nat): Evs {
    if r.Oks? then Oks(r.vs, More(r.st, d)) else Halts(r.why, More(r.st, d))
  }

  function RelMore(r: Rel, d: nat): Rel {
    if r.Done? then Done(More(r.st, d)) else Failed(r.why, More(r.st, d))
  }

  function ExMore(x: Ex, d: nat): Ex {
    Ex(x.flow, x.env, More(x.st, d))
  }

  function LineMore(l: Pieces, d: nat): Pieces {
    if l.Line? then Pieces.Line(l.ps, More(l.st, d)) else NoLine(l.why, More(l.st, d))
  }

  // ---- expressions ---------------------------------------------------------------------

  lemma {:induction false} MoreEval(p: Program, e: Expr, env: Env, st: St, d: nat)
    requires !Eval(p, e, env, st).st.dry
    ensures Eval(p, e, env, More(st, d)) == EvMore(Eval(p, e, env, st), d)
    decreases st.fuel, 4, e, 2
  {
    match e
    case IntLit(_, _) =>
    case BoolLit(_) =>
    case VarRef(_) =>
    case SelfField(_) =>
    case Paren(inner) => MoreEval(p, inner, env, st, d);
    case Unary(_, x, _) => MoreEval(p, x, env, st, d);
    case Binary(_, _, _, _) => MoreBinary(p, e, env, st, d);
    case Cast(x, _) => MoreEval(p, x, env, st, d);
    case IfValue(_, _, _) => MoreIfValue(p, e, env, st, d);
    case FieldGet(_, _) => MoreFieldGet(p, e, env, st, d);
    case NewObj(_, _) => MoreNew(p, e, env, st, d);
    case Call(_, _) => MoreCall(p, e, env, st, d);
    case MethodCall(_, _, _) => MoreMethodCall(p, e, env, st, d);
    case SuperCall(_, _, _) => MoreSuperCall(p, e, env, st, d);
  }

  lemma {:induction false} MoreBinary(p: Program, e: Expr, env: Env, st: St, d: nat)
    requires e.Binary?
    requires !EvalBinary(p, e, env, st).st.dry
    ensures EvalBinary(p, e, env, More(st, d)) == EvMore(EvalBinary(p, e, env, st), d)
    decreases st.fuel, 4, e, 0
  {
    hide BinaryValue;
    MoreEval(p, e.l, env, st, d);
    var a := Eval(p, e.l, env, st);
    var strict := !e.bop.AndAlso? && !e.bop.OrElse?;
    if a.Ok? && (strict || (a.v.VBool? && a.v.b != e.bop.OrElse?)) {
      MoreEval(p, e.r, env, a.st, d);
      var b := Eval(p, e.r, env, a.st);
      if strict && b.Ok? {
        MoreValue(e.bop, e.t, a.v, b.v, b.st, d);
      }
    }
  }

  lemma MoreValue(op: BinaryOp, t: IntType, a: Value, b: Value, st: St, d: nat)
    ensures BinaryValue(op, t, a, b, More(st, d)) == EvMore(BinaryValue(op, t, a, b, st), d)
  {
  }

  lemma {:induction false} MoreIfValue(p: Program, e: Expr, env: Env, st: St, d: nat)
    requires e.IfValue?
    requires !Eval(p, e, env, st).st.dry
    ensures Eval(p, e, env, More(st, d)) == EvMore(Eval(p, e, env, st), d)
    decreases st.fuel, 4, e, 0
  {
    MoreEval(p, e.cond, env, st, d);
    var r := Eval(p, e.cond, env, st);
    if r.Ok? && r.v.VBool? {
      MoreEval(p, if r.v.b then e.thenE else e.elseE, env, r.st, d);
    }
  }

  lemma {:induction false} MoreFieldGet(p: Program, e: Expr, env: Env, st: St, d: nat)
    requires e.FieldGet?
    requires !Eval(p, e, env, st).st.dry
    ensures Eval(p, e, env, More(st, d)) == EvMore(Eval(p, e, env, st), d)
    decreases st.fuel, 4, e, 0
  {
    MoreEval(p, e.base, env, st, d);
    var r := Eval(p, e.base, env, st);
    if r.Ok? {
      var got := ReadField(r.v, e.field, r.st);
      assert ReadField(r.v, e.field, More(r.st, d)) == EvMore(got, d);
      if got.Ok? {
        MoreRelease(p, r.v, got.st, d);
      }
    }
  }

  lemma {:induction false} MoreNew(p: Program, e: Expr, env: Env, st: St, d: nat)
    requires e.NewObj?
    requires !Eval(p, e, env, st).st.dry
    ensures Eval(p, e, env, More(st, d)) == EvMore(Eval(p, e, env, st), d)
    decreases st.fuel, 4, e, 0
  {
    MoreArgs(p, e.args, env, st, d);
    var vs := EvalArgs(p, e.args, env, st);
    if vs.Oks? {
      MoreConstruct(p, e.cls, vs.vs, vs.st, d);
      var r := Construct(p, e.cls, vs.vs, vs.st);
      if r.Ok? {
        MoreReleaseAll(p, vs.vs, r.st, d);
      }
    }
  }

  lemma {:induction false} MoreCall(p: Program, e: Expr, env: Env, st: St, d: nat)
    requires e.Call?
    requires !Eval(p, e, env, st).st.dry
    ensures Eval(p, e, env, More(st, d)) == EvMore(Eval(p, e, env, st), d)
    decreases st.fuel, 4, e, 0
  {
    MoreArgs(p, e.args, env, st, d);
    var vs := EvalArgs(p, e.args, env, st);
    if vs.Oks? {
      MoreCallFn(p, e.fn, vs.vs, vs.st, d);
      var r := CallFn(p, e.fn, vs.vs, vs.st);
      if r.Ok? {
        MoreReleaseAll(p, vs.vs, r.st, d);
      }
    }
  }

  lemma {:induction false} MoreMethodCall(p: Program, e: Expr, env: Env, st: St, d: nat)
    requires e.MethodCall?
    requires !EvalMethodCall(p, e, env, st).st.dry
    ensures EvalMethodCall(p, e, env, More(st, d)) == EvMore(EvalMethodCall(p, e, env, st), d)
    decreases st.fuel, 4, e, 0
  {
    MoreEval(p, e.recv, env, st, d);
    var o := Eval(p, e.recv, env, st);
    if o.Ok? && o.v.VObj? {
      MoreArgs(p, e.args, env, o.st, d);
      var vs := EvalArgs(p, e.args, env, o.st);
      if vs.Oks? && o.v.o < |vs.st.heap| {
        var m := Resolve(p, Chain(p, vs.st.heap[o.v.o].cls), e.slot);
        if m.Some? {
          MoreInvoke(p, m.value.params, m.value.body, m.value.hasResult, Some(o.v), vs.vs, vs.st, d);
          var r := Invoke(p, m.value.params, m.value.body, m.value.hasResult, Some(o.v), vs.vs, vs.st);
          if r.Ok? {
            MoreReleaseAll(p, vs.vs, r.st, d);
            var k := ReleaseAll(p, vs.vs, r.st);
            if k.Done? {
              MoreRelease(p, o.v, k.st, d);
            }
          }
        }
      }
    }
  }

  lemma {:induction false} MoreSuperCall(p: Program, e: Expr, env: Env, st: St, d: nat)
    requires e.SuperCall?
    requires !EvalSuperCall(p, e, env, st).st.dry
    ensures EvalSuperCall(p, e, env, More(st, d)) == EvMore(EvalSuperCall(p, e, env, st), d)
    decreases st.fuel, 4, e, 0
  {
    var self := Lookup(env, SELF);
    if self.Some? {
      MoreArgs(p, e.args, env, st, d);
      var vs := EvalArgs(p, e.args, env, st);
      if vs.Oks? {
        var chain := Chain(p, e.owner);
        var m := if chain == [] then None else Resolve(p, chain[1..], e.slot);
        if m.Some? {
          MoreInvoke(p, m.value.params, m.value.body, m.value.hasResult, self, vs.vs, vs.st, d);
          var r := Invoke(p, m.value.params, m.value.body, m.value.hasResult, self, vs.vs, vs.st);
          if r.Ok? {
            MoreReleaseAll(p, vs.vs, r.st, d);
          }
        }
      }
    }
  }

  lemma {:induction false} MoreArgs(p: Program, es: seq<Expr>, env: Env, st: St, d: nat)
    requires !EvalArgs(p, es, env, st).st.dry
    ensures EvalArgs(p, es, env, More(st, d)) == EvsMore(EvalArgs(p, es, env, st), d)
    decreases st.fuel, 4, es, 0
  {
    if es != [] {
      MoreEval(p, es[0], env, st, d);
      var a := Eval(p, es[0], env, st);
      if a.Ok? {
        MoreArgs(p, es[1..], env, a.st, d);
      }
    }
  }

  // ---- calls ---------------------------------------------------------------------------

  lemma {:induction false} MoreCallFn(p: Program, name: Name, vs: seq<Value>, st: St, d: nat)
    requires !CallFn(p, name, vs, st).st.dry
    ensures CallFn(p, name, vs, More(st, d)) == EvMore(CallFn(p, name, vs, st), d)
    decreases st.fuel, 3, 1
  {
    var f := FindFn(p.fns, name);
    if f.Some? {
      MoreInvoke(p, f.value.params, f.value.body, f.value.hasResult, None, vs, st, d);
    }
  }

  lemma {:induction false} MoreInvoke(p: Program, params: seq<Name>, body: seq<Stmt>, hasResult: bool, self: Option<Value>, vs: seq<Value>, st: St, d: nat)
    requires !Invoke(p, params, body, hasResult, self, vs, st).st.dry
    ensures Invoke(p, params, body, hasResult, self, vs, More(st, d)) == EvMore(Invoke(p, params, body, hasResult, self, vs, st), d)
    decreases st.fuel, 3, 0
  {
    var b := Burn(st);
    if b.Some? {
      assert Burn(More(st, d)) == Some(More(b.value, d));
      var env := Params(params, vs, SelfEnv(self));
      var x := Block(p, body, env, b.value);
      MoreBlock(p, body, env, b.value, d);
      MoreReturning(p, hasResult, x, d);
    }
  }

  lemma {:induction false} MoreReturning(p: Program, hasResult: bool, x: Ex, d: nat)
    requires !Returning(p, hasResult, x).st.dry
    ensures Returning(p, hasResult, ExMore(x, d)) == EvMore(Returning(p, hasResult, x), d)
    decreases x.st.fuel, 3, 0
  {
    MoreReleaseAll(p, OwnedAll(x.env), x.st, d);
  }

  // ---- releases ------------------------------------------------------------------------

  lemma {:induction false} MoreRelease(p: Program, v: Value, st: St, d: nat)
    requires !Release(p, v, st).st.dry
    ensures Release(p, v, More(st, d)) == RelMore(Release(p, v, st), d)
    decreases st.fuel, 1
  {
    if v.VObj? && v.o < |st.heap| && st.heap[v.o].rc == 1 {
      assert WithCount(More(st, d), v.o, 0) == More(WithCount(st, v.o, 0), d);
      MoreTeardown(p, v.o, WithCount(st, v.o, 0), d);
    }
  }

  lemma {:induction false} MoreReleaseAll(p: Program, vs: seq<Value>, st: St, d: nat)
    requires !ReleaseAll(p, vs, st).st.dry
    ensures ReleaseAll(p, vs, More(st, d)) == RelMore(ReleaseAll(p, vs, st), d)
    decreases st.fuel, 2, |vs|
  {
    if vs != [] {
      MoreRelease(p, vs[|vs| - 1], st, d);
      var k := Release(p, vs[|vs| - 1], st);
      if k.Done? {
        MoreReleaseAll(p, vs[..|vs| - 1], k.st, d);
      }
    }
  }

  lemma {:induction false} MoreTeardown(p: Program, o: Oid, st: St, d: nat)
    requires o < |st.heap|
    requires !Teardown(p, o, st).st.dry
    ensures Teardown(p, o, More(st, d)) == RelMore(Teardown(p, o, st), d)
    decreases st.fuel, 0
  {
    var b := Burn(st.(torn := st.torn + [o]));
    if b.Some? {
      assert Burn(More(st, d).(torn := st.torn + [o])) == Some(More(b.value, d));
      var chain := Chain(p, st.heap[o].cls);
      MoreDeinits(p, chain, o, b.value, d);
      var k := Deinits(p, chain, o, b.value);
      if k.Done? {
        MoreDropFields(p, FieldOrder(p, chain), o, k.st, d);
      }
    }
  }

  lemma {:induction false} MoreDeinits(p: Program, chain: seq<ClassId>, o: Oid, st: St, d: nat)
    requires Declared(p, chain)
    requires !Deinits(p, chain, o, st).st.dry
    ensures Deinits(p, chain, o, More(st, d)) == RelMore(Deinits(p, chain, o, st), d)
    decreases st.fuel, 9, |chain|
  {
    if chain != [] {
      var body := p.classes[chain[0]].deinit;
      if body.None? {
        MoreDeinits(p, chain[1..], o, st, d);
      } else {
        var env := SelfEnv(Some(VObj(o)));
        MoreBlock(p, body.value, env, st, d);
        var x := Block(p, body.value, env, st);
        if x.flow.Next? {
          MoreDeinits(p, chain[1..], o, x.st, d);
        }
      }
    }
  }

  lemma {:induction false} MoreDropFields(p: Program, names: seq<Name>, o: Oid, st: St, d: nat)
    requires !DropFields(p, names, o, st).st.dry
    ensures DropFields(p, names, o, More(st, d)) == RelMore(DropFields(p, names, o, st), d)
    decreases st.fuel, 2, |names|
  {
    if names != [] && o < |st.heap| {
      var v := GetField(st.heap[o].fields, names[0]);
      if v.Some? && v.value.VObj? {
        var st1 := WithFields(st, o, DelField(st.heap[o].fields, names[0]));
        assert WithFields(More(st, d), o, DelField(st.heap[o].fields, names[0])) == More(st1, d);
        MoreRelease(p, v.value, st1, d);
        var k := Release(p, v.value, st1);
        if k.Done? {
          MoreDropFields(p, names[1..], o, k.st, d);
        }
      } else {
        MoreDropFields(p, names[1..], o, st, d);
      }
    }
  }

  // ---- construction --------------------------------------------------------------------

  lemma {:induction false} MoreConstruct(p: Program, cls: ClassId, vs: seq<Value>, st: St, d: nat)
    requires !Construct(p, cls, vs, st).st.dry
    ensures Construct(p, cls, vs, More(st, d)) == EvMore(Construct(p, cls, vs, st), d)
    decreases st.fuel, 3, 0
  {
    var b := Burn(st);
    if b.Some? {
      assert Burn(More(st, d)) == Some(More(b.value, d));
      var obj := Obj(cls, Initial(p, Chain(p, cls), []), 1);
      var st1 := b.value.(heap := b.value.heap + [obj]);
      assert More(b.value, d).(heap := More(b.value, d).heap + [obj]) == More(st1, d);
      MoreRunInit(p, cls, |st.heap|, vs, st1, d);
    }
  }

  lemma {:induction false} MoreRunInit(p: Program, cls: ClassId, o: Oid, vs: seq<Value>, st: St, d: nat)
    requires !RunInit(p, cls, o, vs, st).st.dry
    ensures RunInit(p, cls, o, vs, More(st, d)) == RelMore(RunInit(p, cls, o, vs, st), d)
    decreases st.fuel, 7, cls, 1
  {
    if cls < |p.classes| && p.classes[cls].init.Some? {
      var init := p.classes[cls].init.value;
      var env := Params(init.params, vs, SelfEnv(Some(VObj(o))));
      MoreAssigns(p, init.assigns, o, env, st, d);
      var a := Assigns(p, init.assigns, o, env, st);
      if a.Done? {
        MoreRunSuper(p, cls, o, env, a.st, d);
        var s := RunSuper(p, cls, o, env, a.st);
        if s.Done? {
          MoreBlock(p, init.post, env, s.st, d);
        }
      }
    }
  }

  lemma {:induction false} MoreRunSuper(p: Program, cls: ClassId, o: Oid, env: Env, st: St, d: nat)
    requires cls < |p.classes| && p.classes[cls].init.Some?
    requires !RunSuper(p, cls, o, env, st).st.dry
    ensures RunSuper(p, cls, o, env, More(st, d)) == RelMore(RunSuper(p, cls, o, env, st), d)
    decreases st.fuel, 7, cls, 0
  {
    var sup := p.classes[cls].init.value.superArgs;
    if sup.Some? {
      MoreArgs(p, sup.value, env, st, d);
      var vs := EvalArgs(p, sup.value, env, st);
      if vs.Oks? && p.classes[cls].parent.Some? && p.classes[cls].parent.value < cls {
        MoreRunInit(p, p.classes[cls].parent.value, o, vs.vs, vs.st, d);
        var r := RunInit(p, p.classes[cls].parent.value, o, vs.vs, vs.st);
        if r.Done? {
          MoreReleaseAll(p, vs.vs, r.st, d);
        }
      }
    }
  }

  lemma MoreStore(p: Program, holder: Value, field: Name, v: Value, st: St, d: nat)
    ensures StoreField(p, holder, field, v, More(st, d)) == RelMore(StoreField(p, holder, field, v, st), d)
  {
  }

  lemma {:induction false} MoreAssigns(p: Program, todo: seq<InitAssign>, o: Oid, env: Env, st: St, d: nat)
    requires !Assigns(p, todo, o, env, st).st.dry
    ensures Assigns(p, todo, o, env, More(st, d)) == RelMore(Assigns(p, todo, o, env, st), d)
    decreases st.fuel, 5, |todo|
  {
    hide StoreField;
    if todo != [] && o < |st.heap| {
      MoreEval(p, todo[0].e, env, st, d);
      var x := Eval(p, todo[0].e, env, st);
      if x.Ok? {
        MoreStore(p, VObj(o), todo[0].field, x.v, x.st, d);
        var stored := StoreField(p, VObj(o), todo[0].field, x.v, x.st);
        if stored.Done? {
          var was := GetField(st.heap[o].fields, todo[0].field);
          var gone := if was.Some? then was.value else VNone;
          MoreRelease(p, gone, stored.st, d);
          var k := Release(p, gone, stored.st);
          if k.Done? {
            MoreAssigns(p, todo[1..], o, env, k.st, d);
          }
        }
      }
    }
  }

  lemma {:induction false} MoreReplace(p: Program, holder: Value, field: Name, v: Value, st: St, d: nat)
    requires !Replace(p, holder, field, v, st).st.dry
    ensures Replace(p, holder, field, v, More(st, d)) == RelMore(Replace(p, holder, field, v, st), d)
    decreases st.fuel, 2, 0
  {
    hide StoreField;
    if holder.VObj? && holder.o < |st.heap| {
      MoreStore(p, holder, field, v, st, d);
      var stored := StoreField(p, holder, field, v, st);
      if stored.Done? {
        var was := GetField(st.heap[holder.o].fields, field);
        MoreRelease(p, if was.Some? then was.value else VNone, stored.st, d);
      }
    }
  }

  // ---- statements ----------------------------------------------------------------------

  lemma {:induction false} MoreBlock(p: Program, ss: seq<Stmt>, env: Env, st: St, d: nat)
    requires !Block(p, ss, env, st).st.dry
    ensures Block(p, ss, env, More(st, d)) == ExMore(Block(p, ss, env, st), d)
    decreases st.fuel, 6, |ss|
  {
    hide Exec;
    if ss != [] {
      var b := Burn(st);
      if b.Some? {
        assert Burn(More(st, d)) == Some(More(b.value, d));
        MoreExec(p, ss[0], env, b.value, d);
        var x := Exec(p, ss[0], env, b.value);
        if x.flow.Next? {
          MoreBlock(p, ss[1..], x.env, x.st, d);
        }
      }
    }
  }

  lemma {:induction false} MoreExec(p: Program, s: Stmt, env: Env, st: St, d: nat)
    requires !Exec(p, s, env, st).st.dry
    ensures Exec(p, s, env, More(st, d)) == ExMore(Exec(p, s, env, st), d)
    decreases st.fuel, 8, 1
  {
    hide Iterate, Count;
    match s
    case Let(_, _) => MoreLet(p, s, env, st, d);
    case Assign(_, _, _, _) => MoreAssign(p, s, env, st, d);
    case FieldAssign(name, field, e) => MoreFieldAssign(p, s, env, st, d, name, field, e);
    case SelfFieldAssign(field, e) => MoreFieldAssign(p, s, env, st, d, SELF, field, e);
    case ExprStmt(_) => MoreExprStmt(p, s, env, st, d);
    case Print(parts) => MoreParts(p, parts, env, st, d);
    case If(_, _, _) => MoreIf(p, s, env, st, d);
    case ForRange(loopVar, lo, hi, inclusive, body) =>
      MoreIterate(p, loopVar, lo, if inclusive then hi + 1 else hi, body, env, st, d);
    case CounterLoop(_, _, _) => MoreCounter(p, s, env, st, d);
    case Break =>
    case Continue =>
    case Return(result) =>
      if result.Some? {
        MoreEval(p, result.value, env, st, d);
      }
    case Exit(_) =>
  }

  lemma {:induction false} MoreLet(p: Program, s: Stmt, env: Env, st: St, d: nat)
    requires s.Let?
    requires !Exec(p, s, env, st).st.dry
    ensures Exec(p, s, env, More(st, d)) == ExMore(Exec(p, s, env, st), d)
    decreases st.fuel, 8, 0
  {
    MoreEval(p, s.init, env, st, d);
  }

  lemma {:induction false} MoreCounter(p: Program, s: Stmt, env: Env, st: St, d: nat)
    requires s.CounterLoop?
    requires !Exec(p, s, env, st).st.dry
    ensures Exec(p, s, env, More(st, d)) == ExMore(Exec(p, s, env, st), d)
    decreases st.fuel, 8, 0
  {
    hide Count;
    var st1 := Lose(st, env, s.counter);
    assert Lose(More(st, d), env, s.counter) == More(st1, d);
    MoreCount(p, s.counter, s.limit, s.body, 0, Declare(env, Slot(s.counter, VInt(0), true)), st1, d);
  }

  lemma {:induction false} MoreAssign(p: Program, s: Stmt, env: Env, st: St, d: nat)
    requires s.Assign?
    requires !Exec(p, s, env, st).st.dry
    ensures Exec(p, s, env, More(st, d)) == ExMore(Exec(p, s, env, st), d)
    decreases st.fuel, 8, 0
  {
    hide Combine;
    MoreEval(p, s.e, env, st, d);
    var x := Eval(p, s.e, env, st);
    if x.Ok? {
      MoreCombine(env, s.name, s.op, s.t, x.v, x.st, d);
      var y := Combine(env, s.name, s.op, s.t, x.v, x.st);
      var was := FindSlot(env, s.name);
      if y.Ok? && was.Some? && was.value.owned {
        MoreRelease(p, was.value.val, y.st, d);
      }
    }
  }

  lemma MoreCombine(env: Env, name: Name, op: Option<BinaryOp>, t: IntType, v: Value, st: St, d: nat)
    ensures Combine(env, name, op, t, v, More(st, d)) == EvMore(Combine(env, name, op, t, v, st), d)
  {
    hide BinaryValue;
    var was := Lookup(env, name);
    if op.Some? && was.Some? && was.value.VInt? && v.VInt? {
      MoreValue(op.value, t, VInt(NormInt(t, was.value.i)), VInt(NormInt(t, v.i)), st, d);
    }
  }

  lemma {:induction false} MoreFieldAssign(p: Program, s: Stmt, env: Env, st: St, d: nat, name: Name, field: Name, e: Expr)
    requires s == FieldAssign(name, field, e) || (s == SelfFieldAssign(field, e) && name == SELF)
    requires !Exec(p, s, env, st).st.dry
    ensures Exec(p, s, env, More(st, d)) == ExMore(Exec(p, s, env, st), d)
    decreases st.fuel, 8, 0
  {
    var holder := Lookup(env, name);
    if holder.Some? {
      MoreEval(p, e, env, st, d);
      var x := Eval(p, e, env, st);
      if x.Ok? {
        MoreReplace(p, holder.value, field, x.v, x.st, d);
      }
    }
  }

  lemma {:induction false} MoreExprStmt(p: Program, s: Stmt, env: Env, st: St, d: nat)
    requires s.ExprStmt?
    requires !Exec(p, s, env, st).st.dry
    ensures Exec(p, s, env, More(st, d)) == ExMore(Exec(p, s, env, st), d)
    decreases st.fuel, 8, 0
  {
    MoreEval(p, s.e, env, st, d);
    var x := Eval(p, s.e, env, st);
    if x.Ok? {
      MoreRelease(p, x.v, x.st, d);
    }
  }

  lemma {:induction false} MoreIf(p: Program, s: Stmt, env: Env, st: St, d: nat)
    requires s.If?
    requires !Exec(p, s, env, st).st.dry
    ensures Exec(p, s, env, More(st, d)) == ExMore(Exec(p, s, env, st), d)
    decreases st.fuel, 8, 0
  {
    MoreEval(p, s.cond, env, st, d);
    var x := Eval(p, s.cond, env, st);
    if x.Ok? && x.v.VBool? && (x.v.b || s.elseB.ElseBlock?) {
      var body := if x.v.b then s.thenB else s.elseB.body;
      var y := Block(p, body, Push(env), x.st);
      MoreBlock(p, body, Push(env), x.st, d);
      MorePop(p, y, d);
    }
  }

  lemma {:induction false} MoreParts(p: Program, parts: seq<Part>, env: Env, st: St, d: nat)
    requires !EvalParts(p, parts, env, st).st.dry
    ensures EvalParts(p, parts, env, More(st, d)) == LineMore(EvalParts(p, parts, env, st), d)
    decreases st.fuel, 5, |parts|
  {
    if parts != [] {
      if parts[0].Lit? {
        MoreParts(p, parts[1..], env, st, d);
      } else {
        MoreEval(p, parts[0].e, env, st, d);
        var x := Eval(p, parts[0].e, env, st);
        if x.Ok? && (x.v.VInt? || x.v.VBool?) {
          MoreParts(p, parts[1..], env, x.st, d);
        }
      }
    }
  }

  lemma {:induction false} MorePop(p: Program, x: Ex, d: nat)
    requires !Pop(p, x).st.dry
    ensures Pop(p, ExMore(x, d)) == ExMore(Pop(p, x), d)
    decreases x.st.fuel, 3, 0
  {
    if x.env != [] {
      MoreReleaseAll(p, Owned(x.env[|x.env| - 1]), x.st, d);
    }
  }

  lemma {:induction false} MoreRound(p: Program, x: Ex, d: nat)
    requires !Round(p, x).st.dry
    ensures Round(p, ExMore(x, d)) == ExMore(Round(p, x), d)
    decreases x.st.fuel, 3, 1
  {
    hide Pop;
    if x.flow.Next? || x.flow.Continues? {
      MorePop(p, x.(flow := Next), d);
    } else if x.flow.Breaks? {
      MorePop(p, x, d);
    }
  }

  lemma {:induction false} MoreIterate(p: Program, loopVar: Name, i: int, hi: int, body: seq<Stmt>, env: Env, st: St, d: nat)
    requires !Iterate(p, loopVar, i, hi, body, env, st).st.dry
    ensures Iterate(p, loopVar, i, hi, body, env, More(st, d)) == ExMore(Iterate(p, loopVar, i, hi, body, env, st), d)
    decreases st.fuel, 7, if i < hi then hi - i else 0, 0
  {
    hide Round, Block;
    if i < hi {
      var inner := Declare(Push(env), Slot(loopVar, VInt(i), true));
      var y := Block(p, body, inner, st);
      MoreBlock(p, body, inner, st, d);
      MoreRound(p, y, d);
      var x := Round(p, y);
      if x.flow.Next? {
        MoreIterate(p, loopVar, i + 1, hi, body, x.env, x.st, d);
      }
    }
  }

  lemma {:induction false} MoreCount(p: Program, counter: Name, limit: int, body: seq<Stmt>, guard: nat, env: Env, st: St, d: nat)
    requires !Count(p, counter, limit, body, guard, env, st).st.dry
    ensures Count(p, counter, limit, body, guard, env, More(st, d)) == ExMore(Count(p, counter, limit, body, guard, env, st), d)
    decreases st.fuel, 7, if guard <= GUARD_LIMIT then GUARD_LIMIT + 1 - guard else 0, 0
  {
    hide Round, Block;
    if CounterTest(env, counter, limit, guard).Next? {
      var y := Block(p, body, Push(env), st);
      MoreBlock(p, body, Push(env), st, d);
      MoreRound(p, y, d);
      var x := Round(p, y);
      if x.flow.Next? {
        MoreCount(p, counter, limit, body, guard + 1, x.env, x.st, d);
      }
    }
  }

  // ---- whole runs ----------------------------------------------------------------------

  /** The run ended because the fuel did. */
  predicate RanDry(o: Outcome) {
    o.st.dry
  }

  function OutcomeMore(o: Outcome, d: nat): Outcome {
    if o.Result? then Result(o.out, o.code, More(o.st, d)) else NoResult(o.why, More(o.st, d))
  }

  /** A run that did not end for want of fuel is the same with more: the same output
      and code, and the same objects, torn down in the same order. */
  lemma EnoughIsEnough(p: Program, fuel: nat, d: nat)
    requires !RanDry(Run(p, fuel))
    ensures Run(p, fuel + d) == OutcomeMore(Run(p, fuel), d)
  {
    var st := St([], [], fuel, [], [], false);
    var x := Block(p, p.main, [[]], st);
    MoreBlock(p, p.main, [[]], st, d);
    if x.flow.Next? {
      MoreReleaseAll(p, OwnedAll(x.env), x.st, d);
    }
  }
}

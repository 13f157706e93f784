/** The mutual induction over the evaluator: every construct keeps the counts exact. */
module EvaluatorBalance {
  import opened Options
  import opened Evaluator
  import opened EvaluatorRefs
  import opened EvaluatorFrame
  import opened EvaluatorScopes
  import opened EvaluatorAcyclic
  import opened EvaluatorSound
  import opened EvaluatorCounts

  // ---- expressions ------------------------------------------------------------------------

  lemma BalanceRead(p: Program, v: Value, field: Name, st: St, owed: multiset<Oid>, busy: set<Oid>)
    requires Sound(p, st, owed, busy)
    ensures EvGood(p, ReadField(v, field, st), owed, busy)
  {
    hide Sound, Leaky, EnvRefs, InitOnly;
    SoundLeaks(p, st, owed, busy);
    if v.VObj? && v.o < |st.heap| {
      var x := GetField(st.heap[v.o].fields, field);
      if x.Some? {
        SoundRead(p, st, owed, busy, v.o, field);
        SoundRetain(p, x.value, st, owed, busy);
      }
    }
  }

  lemma BalanceVar(p: Program, name: Name, env: Env, st: St, owed: multiset<Oid>, busy: set<Oid>)
    requires Sound(p, st, owed, busy) && EnvIn(env, owed)
    ensures EvGood(p, Eval(p, VarRef(name), env, st), owed, busy)
  {
    hide Sound, Leaky, EnvRefs, InitOnly;
    SoundLeaks(p, st, owed, busy);
    LookupIn(env, name, owed);
    var v := Lookup(env, name);
    if v.Some? {
      if v.value.VObj? {
        SoundOwed(p, st, owed, busy, v.value.o);
      }
      SoundRetain(p, v.value, st, owed, busy);
    }
  }

  lemma ScalarGood(p: Program, v: Value, st: St, owed: multiset<Oid>, busy: set<Oid>)
    requires !v.VObj?
    ensures Sound(p, st, owed + Refs(v), busy) <==> Sound(p, st, owed, busy)
  {
    assert owed + Refs(v) == owed;
  }

  lemma {:induction false} BalanceEval(p: Program, e: Expr, env: Env, st: St, owed: multiset<Oid>, busy: set<Oid>)
    requires WellFormed(p) && Sound(p, st, owed, busy) && EnvIn(env, owed)
    ensures EvGood(p, Eval(p, e, env, st), owed, busy)
    decreases st.fuel, 4, e, 2
  {
    hide Sound, Leaky, EnvRefs, InitOnly;
    match e
    case IntLit(t, n) => ScalarGood(p, VInt(NormInt(t, n)), st, owed, busy);
    case BoolLit(b) => ScalarGood(p, VBool(b), st, owed, busy);
    case VarRef(name) => BalanceVar(p, name, env, st, owed, busy);
    case SelfField(field) =>
      SoundLeaks(p, st, owed, busy);
      if Lookup(env, SELF).Some? {
        BalanceRead(p, Lookup(env, SELF).value, field, st, owed, busy);
      }
    case Paren(inner) => BalanceEval(p, inner, env, st, owed, busy);
    case Unary(_, _, _) => BalanceUnary(p, e, env, st, owed, busy);
    case Binary(_, _, _, _) => BalanceBinary(p, e, env, st, owed, busy);
    case Cast(_, _) => BalanceCast(p, e, env, st, owed, busy);
    case IfValue(_, _, _) => BalanceIfValue(p, e, env, st, owed, busy);
    case FieldGet(_, _) => BalanceFieldGet(p, e, env, st, owed, busy);
    case NewObj(_, _) => BalanceNew(p, e, env, st, owed, busy);
    case Call(_, _) => BalanceCall(p, e, env, st, owed, busy);
    case MethodCall(_, _, _) => BalanceMethodCall(p, e, env, st, owed, busy);
    case SuperCall(_, _, _) => BalanceSuperCall(p, e, env, st, owed, busy);
  }

  lemma {:induction false} BalanceUnary(p: Program, e: Expr, env: Env, st: St, owed: multiset<Oid>, busy: set<Oid>)
    requires e.Unary? && WellFormed(p) && Sound(p, st, owed, busy) && EnvIn(env, owed)
    ensures EvGood(p, Eval(p, e, env, st), owed, busy)
    decreases st.fuel, 4, e, 0
  {
    hide Sound, Leaky, EnvRefs, InitOnly;
    BalanceEval(p, e.e, env, st, owed, busy);
    var r := Eval(p, e.e, env, st);
    if r.Ok? {
      Dangles(p, r.st, owed, Refs(r.v), busy);
      var v := UnaryValue(e.uop, e.t, r.v);
      if v.Some? {
        ScalarGood(p, r.v, r.st, owed, busy);
        ScalarGood(p, v.value, r.st, owed, busy);
      }
    }
  }

  lemma {:induction false} BalanceCast(p: Program, e: Expr, env: Env, st: St, owed: multiset<Oid>, busy: set<Oid>)
    requires e.Cast? && WellFormed(p) && Sound(p, st, owed, busy) && EnvIn(env, owed)
    ensures EvGood(p, Eval(p, e, env, st), owed, busy)
    decreases st.fuel, 4, e, 0
  {
    hide Sound, Leaky, EnvRefs, InitOnly;
    BalanceEval(p, e.e, env, st, owed, busy);
    var r := Eval(p, e.e, env, st);
    if r.Ok? {
      Dangles(p, r.st, owed, Refs(r.v), busy);
      if r.v.VInt? {
        ScalarGood(p, r.v, r.st, owed, busy);
        ScalarGood(p, VInt(NormInt(e.t, r.v.i)), r.st, owed, busy);
      }
    }
  }

  lemma {:induction false} BalanceIfValue(p: Program, e: Expr, env: Env, st: St, owed: multiset<Oid>, busy: set<Oid>)
    requires e.IfValue? && WellFormed(p) && Sound(p, st, owed, busy) && EnvIn(env, owed)
    ensures EvGood(p, Eval(p, e, env, st), owed, busy)
    decreases st.fuel, 4, e, 0
  {
    hide Sound, Leaky, EnvRefs, InitOnly;
    BalanceEval(p, e.cond, env, st, owed, busy);
    var r := Eval(p, e.cond, env, st);
    if r.Ok? {
      Dangles(p, r.st, owed, Refs(r.v), busy);
      if r.v.VBool? {
        ScalarGood(p, r.v, r.st, owed, busy);
        BalanceEval(p, if r.v.b then e.thenE else e.elseE, env, r.st, owed, busy);
      }
    }
  }

  lemma {:induction false} BalanceBinary(p: Program, e: Expr, env: Env, st: St, owed: multiset<Oid>, busy: set<Oid>)
    requires e.Binary? && WellFormed(p) && Sound(p, st, owed, busy) && EnvIn(env, owed)
    ensures EvGood(p, EvalBinary(p, e, env, st), owed, busy)
    decreases st.fuel, 4, e, 1
  {
    hide Sound, Leaky, EnvRefs, InitOnly;
    BalanceEval(p, e.l, env, st, owed, busy);
    var a := Eval(p, e.l, env, st);
    if a.Ok? {
      if e.bop.AndAlso? || e.bop.OrElse? {
        Dangles(p, a.st, owed, Refs(a.v), busy);
        if a.v.VBool? && a.v.b != e.bop.OrElse? {
          ScalarGood(p, a.v, a.st, owed, busy);
          BalanceEval(p, e.r, env, a.st, owed, busy);
          var b := Eval(p, e.r, env, a.st);
          if b.Ok? {
            Dangles(p, b.st, owed, Refs(b.v), busy);
          }
        }
      } else {
        BalanceStrict(p, e, env, a, owed, busy);
      }
    }
  }

  lemma BalanceScalars(p: Program, op: BinaryOp, t: IntType, a: Value, b: Value, st: St,
                       owed: multiset<Oid>, busy: set<Oid>)
    requires Sound(p, st, owed + Refs(a) + Refs(b), busy)
    ensures EvGood(p, BinaryValue(op, t, a, b, st), owed, busy)
  {
    hide Sound, Leaky, EnvRefs, InitOnly;
    var r := BinaryValue(op, t, a, b, st);
    ScalarsOnly(op, t, a, b, st);
    assert owed + Refs(a) + Refs(b) == owed + (Refs(a) + Refs(b));
    Dangles(p, st, owed, Refs(a) + Refs(b), busy);
    if r.Ok? {
      ScalarGood(p, b, st, owed + Refs(a), busy);
      ScalarGood(p, a, st, owed, busy);
      ScalarGood(p, r.v, st, owed, busy);
    }
  }

  /** Operators take scalars; on an object there is no value. */
  lemma ScalarsOnly(op: BinaryOp, t: IntType, a: Value, b: Value, st: St)
    ensures var r := BinaryValue(op, t, a, b, st);
      if r.Ok? then !a.VObj? && !b.VObj? else r.why.Stuck? || r.why.Unsupported?
  {
  }

  lemma {:induction false} BalanceStrict(p: Program, e: Expr, env: Env, a: Ev, owed: multiset<Oid>, busy: set<Oid>)
    requires e.Binary? && WellFormed(p) && a.Ok? && Sound(p, a.st, owed + Refs(a.v), busy) && EnvIn(env, owed)
    ensures var b := Eval(p, e.r, env, a.st);
      EvGood(p, if b.Halt? then b else BinaryValue(e.bop, e.t, a.v, b.v, b.st), owed, busy)
    decreases a.st.fuel, 4, e, 0
  {
    hide Sound, Leaky, EnvRefs, InitOnly;
    EnvInMore(env, owed, Refs(a.v));
    BalanceEval(p, e.r, env, a.st, owed + Refs(a.v), busy);
    var b := Eval(p, e.r, env, a.st);
    if b.Halt? {
      Weaken(p, b.why, b.st, owed, Refs(a.v), busy);
    } else {
      BalanceScalars(p, e.bop, e.t, a.v, b.v, b.st, owed, busy);
    }
  }

  lemma {:induction false} BalanceFieldGet(p: Program, e: Expr, env: Env, st: St, owed: multiset<Oid>, busy: set<Oid>)
    requires e.FieldGet? && WellFormed(p) && Sound(p, st, owed, busy) && EnvIn(env, owed)
    ensures EvGood(p, Eval(p, e, env, st), owed, busy)
    decreases st.fuel, 4, e, 0
  {
    hide Sound, Leaky, EnvRefs, InitOnly;
    BalanceEval(p, e.base, env, st, owed, busy);
    var r := Eval(p, e.base, env, st);
    if r.Ok? {
      BalanceRead(p, r.v, e.field, r.st, owed + Refs(r.v), busy);
      var got := ReadField(r.v, e.field, r.st);
      if got.Ok? {
        assert owed + Refs(r.v) + Refs(got.v) == owed + Refs(got.v) + Refs(r.v);
        SoundRelease(p, r.v, got.st, owed + Refs(got.v), busy);
        var d := Release(p, r.v, got.st);
        if d.Failed? {
          Weaken(p, d.why, d.st, owed, Refs(got.v), busy);
        }
      } else {
        Weaken(p, got.why, got.st, owed, Refs(r.v), busy);
      }
    }
  }

  /** After a call: the result is a new reference, and the arguments go. */
  lemma {:induction false} BalanceAfter(p: Program, r: Ev, vs: seq<Value>, owed: multiset<Oid>, busy: set<Oid>)
    requires WellFormed(p) && EvGood(p, r, owed + AllRefs(vs), busy)
    ensures EvGood(p, if r.Halt? then r else Finish(r.v, ReleaseAll(p, vs, r.st)), owed, busy)
    decreases r.st.fuel, 3
  {
    hide Sound, Leaky, EnvRefs, InitOnly;
    if r.Halt? {
      Weaken(p, r.why, r.st, owed, AllRefs(vs), busy);
    } else {
      assert owed + AllRefs(vs) + Refs(r.v) == owed + Refs(r.v) + AllRefs(vs);
      SoundReleaseAll(p, vs, r.st, owed + Refs(r.v), busy);
      var d := ReleaseAll(p, vs, r.st);
      if d.Failed? {
        Weaken(p, d.why, d.st, owed, Refs(r.v), busy);
      }
    }
  }

  lemma {:induction false} BalanceNew(p: Program, e: Expr, env: Env, st: St, owed: multiset<Oid>, busy: set<Oid>)
    requires e.NewObj? && WellFormed(p) && Sound(p, st, owed, busy) && EnvIn(env, owed)
    ensures EvGood(p, Eval(p, e, env, st), owed, busy)
    decreases st.fuel, 4, e, 0
  {
    hide Sound, Leaky, EnvRefs, InitOnly;
    BalanceArgs(p, e.args, env, st, owed, busy);
    var vs := EvalArgs(p, e.args, env, st);
    if vs.Oks? {
      AllRefsIn(vs.vs, owed + AllRefs(vs.vs));
      BalanceConstruct(p, e.cls, vs.vs, vs.st, owed + AllRefs(vs.vs), busy);
      BalanceAfter(p, Construct(p, e.cls, vs.vs, vs.st), vs.vs, owed, busy);
    }
  }

  lemma {:induction false} BalanceCall(p: Program, e: Expr, env: Env, st: St, owed: multiset<Oid>, busy: set<Oid>)
    requires e.Call? && WellFormed(p) && Sound(p, st, owed, busy) && EnvIn(env, owed)
    ensures EvGood(p, Eval(p, e, env, st), owed, busy)
    decreases st.fuel, 4, e, 0
  {
    hide Sound, Leaky, EnvRefs, InitOnly;
    BalanceArgs(p, e.args, env, st, owed, busy);
    var vs := EvalArgs(p, e.args, env, st);
    if vs.Oks? {
      AllRefsIn(vs.vs, owed + AllRefs(vs.vs));
      BalanceCallFn(p, e.fn, vs.vs, vs.st, owed + AllRefs(vs.vs), busy);
      BalanceAfter(p, CallFn(p, e.fn, vs.vs, vs.st), vs.vs, owed, busy);
    }
  }

  lemma {:induction false} BalanceSuperCall(p: Program, e: Expr, env: Env, st: St, owed: multiset<Oid>, busy: set<Oid>)
    requires e.SuperCall? && WellFormed(p) && Sound(p, st, owed, busy) && EnvIn(env, owed)
    ensures EvGood(p, EvalSuperCall(p, e, env, st), owed, busy)
    decreases st.fuel, 4, e, 0
  {
    hide Sound, Leaky, EnvRefs, InitOnly;
    LookupIn(env, SELF, owed);
    SoundLeaks(p, st, owed, busy);
    var self := Lookup(env, SELF);
    if self.Some? {
      BalanceArgs(p, e.args, env, st, owed, busy);
      var vs := EvalArgs(p, e.args, env, st);
      if vs.Oks? {
        var chain := Chain(p, e.owner);
        var m := if chain == [] then None else Resolve(p, chain[1..], e.slot);
        Dangles(p, vs.st, owed, AllRefs(vs.vs), busy);
        if m.Some? {
          ResolvedFits(p, chain[1..], e.slot);
          AllRefsIn(vs.vs, owed + AllRefs(vs.vs));
          BalanceInvoke(p, m.value.params, m.value.body, m.value.hasResult, Some(self.value), vs.vs, vs.st,
                        owed + AllRefs(vs.vs), busy);
          BalanceAfter(p, Invoke(p, m.value.params, m.value.body, m.value.hasResult, Some(self.value), vs.vs, vs.st),
                       vs.vs, owed, busy);
        }
      }
    }
  }

  lemma {:induction false} BalanceMethodCall(p: Program, e: Expr, env: Env, st: St, owed: multiset<Oid>, busy: set<Oid>)
    requires e.MethodCall? && WellFormed(p) && Sound(p, st, owed, busy) && EnvIn(env, owed)
    ensures EvGood(p, EvalMethodCall(p, e, env, st), owed, busy)
    decreases st.fuel, 4, e, 0
  {
    hide Sound, Leaky, EnvRefs, InitOnly;
    BalanceEval(p, e.recv, env, st, owed, busy);
    var o := Eval(p, e.recv, env, st);
    if o.Ok? {
      Dangles(p, o.st, owed, Refs(o.v), busy);
      if o.v.VObj? {
        var held := owed + Refs(o.v);
        EnvInMore(env, owed, Refs(o.v));
        BalanceArgs(p, e.args, env, o.st, held, busy);
        var vs := EvalArgs(p, e.args, env, o.st);
        if vs.Halts? {
          Weaken(p, vs.why, vs.st, owed, Refs(o.v), busy);
        } else {
          assert held + AllRefs(vs.vs) == owed + (Refs(o.v) + AllRefs(vs.vs));
          Dangles(p, vs.st, owed, Refs(o.v) + AllRefs(vs.vs), busy);
          if o.v.o < |vs.st.heap| {
            BalanceResolved(p, e.slot, o.v, vs.vs, vs.st, owed, busy);
          }
        }
      }
    }
  }

  lemma {:induction false} BalanceResolved(p: Program, slot: nat, o: Value, vs: seq<Value>, st: St,
                                           owed: multiset<Oid>, busy: set<Oid>)
    requires WellFormed(p) && o.VObj? && o.o < |st.heap|
    requires Sound(p, st, owed + Refs(o) + AllRefs(vs), busy)
    ensures var m := Resolve(p, Chain(p, st.heap[o.o].cls), slot);
      m.Some? ==>
        var r := Invoke(p, m.value.params, m.value.body, m.value.hasResult, Some(o), vs, st);
        EvGood(p, if r.Halt? then r
                  else
                    var d := ReleaseAll(p, vs, r.st);
                    if d.Failed? then Halt(d.why, d.st) else Finish(r.v, Release(p, o, d.st)), owed, busy)
    decreases st.fuel, 3, 2
  {
    hide Sound, Leaky, EnvRefs, InitOnly, EvGood;
    var m := Resolve(p, Chain(p, st.heap[o.o].cls), slot);
    if m.Some? {
      ResolvedFits(p, Chain(p, st.heap[o.o].cls), slot);
      BalanceDispatch(p, m.value, o, vs, st, owed, busy);
    }
  }

  /** The call itself, then the arguments go, then the receiver. */
  lemma {:induction false} BalanceDispatch(p: Program, m: MethodDecl, o: Value, vs: seq<Value>, st: St,
                                           owed: multiset<Oid>, busy: set<Oid>)
    requires WellFormed(p) && FitsBody(p, m.params, m.body) && o.VObj?
    requires Sound(p, st, owed + Refs(o) + AllRefs(vs), busy)
    ensures var r := Invoke(p, m.params, m.body, m.hasResult, Some(o), vs, st);
      EvGood(p, if r.Halt? then r
                else
                  var d := ReleaseAll(p, vs, r.st);
                  if d.Failed? then Halt(d.why, d.st) else Finish(r.v, Release(p, o, d.st)), owed, busy)
    decreases st.fuel, 3, 1
  {
    hide Sound, Leaky, EnvRefs, InitOnly;
    var held := owed + Refs(o);
    AllRefsIn(vs, held + AllRefs(vs));
    assert o.o in held + AllRefs(vs);
    BalanceInvoke(p, m.params, m.body, m.hasResult, Some(o), vs, st, held + AllRefs(vs), busy);
    var r := Invoke(p, m.params, m.body, m.hasResult, Some(o), vs, st);
    BalanceAfter(p, r, vs, held, busy);
    if r.Halt? {
      Weaken(p, r.why, r.st, owed, Refs(o), busy);
    } else {
      var d := ReleaseAll(p, vs, r.st);
      if d.Failed? {
        Weaken(p, d.why, d.st, owed, Refs(o), busy);
      } else {
        assert held + Refs(r.v) == owed + Refs(r.v) + Refs(o);
        SoundRelease(p, o, d.st, owed + Refs(r.v), busy);
        var k := Release(p, o, d.st);
        if k.Failed? {
          Weaken(p, k.why, k.st, owed, Refs(r.v), busy);
        }
      }
    }
  }

  lemma {:induction false} BalanceArgs(p: Program, es: seq<Expr>, env: Env, st: St, owed: multiset<Oid>, busy: set<Oid>)
    requires WellFormed(p) && Sound(p, st, owed, busy) && EnvIn(env, owed)
    ensures EvsGood(p, EvalArgs(p, es, env, st), owed, busy)
    decreases st.fuel, 4, es, 0
  {
    hide Sound, Leaky, EnvRefs, InitOnly;
    if es == [] {
      assert owed + AllRefs([]) == owed;
    } else {
      BalanceEval(p, es[0], env, st, owed, busy);
      var a := Eval(p, es[0], env, st);
      if a.Ok? {
        EnvInMore(env, owed, Refs(a.v));
        BalanceArgs(p, es[1..], env, a.st, owed + Refs(a.v), busy);
        var rest := EvalArgs(p, es[1..], env, a.st);
        if rest.Halts? {
          Weaken(p, rest.why, rest.st, owed, Refs(a.v), busy);
        } else {
          AllRefsOne(a.v);
          AllRefsConcat([a.v], rest.vs);
          assert owed + Refs(a.v) + AllRefs(rest.vs) == owed + AllRefs([a.v] + rest.vs);
        }
      }
    }
  }

  // ---- calls ---------------------------------------------------------------------------------

  /** Where an evaluation stops before it has changed anything. */
  lemma StoppedHere(p: Program, st: St, owed: multiset<Oid>, busy: set<Oid>)
    requires Sound(p, st, owed, busy)
    ensures Leaky(p, st, owed, busy) && Leaky(p, Dry(st), owed, busy)
  {
    hide Sound, Leaky;
    SoundLeaks(p, st, owed, busy);
    SameSound(p, st, Dry(st), owed, busy);
    SoundLeaks(p, Dry(st), owed, busy);
  }

  lemma {:induction false} BalanceCallFn(p: Program, name: Name, vs: seq<Value>, st: St, owed: multiset<Oid>, busy: set<Oid>)
    requires WellFormed(p) && Sound(p, st, owed, busy) && ValsIn(vs, owed)
    ensures EvGood(p, CallFn(p, name, vs, st), owed, busy)
    decreases st.fuel, 3, 1
  {
    hide Sound, Leaky, EnvRefs, InitOnly;
    var f := FindFn(p.fns, name);
    StoppedHere(p, st, owed, busy);
    if f.Some? {
      FoundFnFits(p, name);
      BalanceInvoke(p, f.value.params, f.value.body, f.value.hasResult, None, vs, st, owed, busy);
    }
  }

  lemma {:induction false} BalanceInvoke(p: Program, params: seq<Name>, body: seq<Stmt>, hasResult: bool,
                                         self: Option<Value>, vs: seq<Value>, st: St, owed: multiset<Oid>, busy: set<Oid>)
    requires WellFormed(p) && FitsBody(p, params, body) && Sound(p, st, owed, busy)
    requires ValsIn(vs, owed) && (self.Some? && self.value.VObj? ==> self.value.o in owed)
    ensures EvGood(p, Invoke(p, params, body, hasResult, self, vs, st), owed, busy)
    decreases st.fuel, 3, 0
  {
    hide Sound, Leaky, EnvRefs, InitOnly;
    StoppedHere(p, st, owed, busy);
    var b := Burn(st);
    if b.Some? {
      SameSound(p, st, b.value, owed, busy);
      var env := Params(params, vs, SelfEnv(self));
      CallEnv(params, vs, self, owed);
      assert owed + EnvRefs(env) == owed;
      BalanceBlock(p, body, env, b.value, {SELF} + ParamSet(params), owed, busy);
      BalanceReturning(p, hasResult, Block(p, body, env, b.value), owed, busy);
    }
  }

  /** On every way out of a call the locals go; what was on its way out stays owed. */
  lemma BalanceReturning(p: Program, hasResult: bool, x: Ex, outer: multiset<Oid>, busy: set<Oid>)
    requires WellFormed(p) && ExGood(p, x, outer, busy)
    ensures EvGood(p, Returning(p, hasResult, x), outer, busy)
  {
    hide Sound, Leaky, EnvRefs, InitOnly, ReleaseAll, OwnedAll, AllRefs, WellFormed;
    var vs := OwnedAll(x.env);
    assert AllRefs(vs) == EnvRefs(x.env) by {
      EnvRefsOwned(x.env);
    }
    if x.flow.Stops? {
      LeakyReleaseAll(p, vs, x.st, outer, busy);
    } else {
      BalanceLocals(p, vs, EnvRefs(x.env), x.st, outer, FlowRefs(x.flow), busy);
      var d := ReleaseAll(p, vs, x.st);
      if d.Failed? {
        Weaken(p, d.why, d.st, outer, FlowRefs(x.flow), busy);
      } else {
        Dangles(p, d.st, outer, FlowRefs(x.flow), busy);
        assert FlowRefs(x.flow) == if x.flow.Returns? then Refs(x.flow.v) else Refs(VNone);
      }
    }
  }

  /** Releasing the locals leaves what the rest of the evaluation owes. */
  lemma BalanceLocals(p: Program, vs: seq<Value>, locals: multiset<Oid>, st: St,
                      outer: multiset<Oid>, more: multiset<Oid>, busy: set<Oid>)
    requires WellFormed(p) && AllRefs(vs) == locals && Sound(p, st, outer + locals + more, busy)
    ensures RelGood(p, ReleaseAll(p, vs, st), outer + more, busy)
  {
    hide Sound, Leaky, EnvRefs, InitOnly;
    Behind(outer, locals, more);
    SoundReleaseAll(p, vs, st, outer + more, busy);
  }

  // ---- construction ------------------------------------------------------------------------------

  lemma {:induction false} BalanceConstruct(p: Program, cls: ClassId, vs: seq<Value>, st: St, owed: multiset<Oid>, busy: set<Oid>)
    requires WellFormed(p) && Sound(p, st, owed, busy) && ValsIn(vs, owed)
    ensures EvGood(p, Construct(p, cls, vs, st), owed, busy)
    decreases st.fuel, 3, 0
  {
    hide Sound, Leaky, EnvRefs, InitOnly;
    StoppedHere(p, st, owed, busy);
    var b := Burn(st);
    if b.Some? {
      SameSound(p, st, b.value, owed, busy);
      var o := |st.heap|;
      SoundGrow(p, cls, b.value, owed, busy);
      var st1 := b.value.(heap := b.value.heap + [Obj(cls, Initial(p, Chain(p, cls), []), 1)]);
      assert VObj(o) !in vs;
      assert ValsIn(vs, owed + multiset{o});
      BalanceRunInit(p, cls, o, vs, st1, owed + multiset{o}, busy);
      var r := RunInit(p, cls, o, vs, st1);
      if r.Failed? {
        Weaken(p, r.why, r.st, owed, multiset{o}, busy);
      }
    }
  }

  lemma {:induction false} BalanceRunInit(p: Program, cls: ClassId, o: Oid, vs: seq<Value>, st: St, owed: multiset<Oid>, busy: set<Oid>)
    requires WellFormed(p) && Sound(p, st, owed, busy) && ValsIn(vs, owed)
    requires o in owed && Hidden(st, o) && VObj(o) !in vs
    ensures RelGood(p, RunInit(p, cls, o, vs, st), owed, busy)
    decreases st.fuel, 7, cls, 1
  {
    hide Sound, Leaky, EnvRefs, InitOnly;
    SoundLeaks(p, st, owed, busy);
    if cls < |p.classes| && p.classes[cls].init.Some? {
      var init := p.classes[cls].init.value;
      assert WellFormedClass(p.classes[cls]);
      var self := Some(VObj(o));
      var env := Params(init.params, vs, SelfEnv(self));
      CallEnv(init.params, vs, self, owed);
      ParamsUnseen(init.params, vs, SelfEnv(self), o, true);
      BalanceAssigns(p, init.assigns, o, env, st, owed, busy);
      var a := Assigns(p, init.assigns, o, env, st);
      if a.Done? {
        BalanceRunSuper(p, cls, o, env, a.st, owed, busy);
        var s := RunSuper(p, cls, o, env, a.st);
        if s.Done? {
          BalancePrints(p, init.post, env, s.st, owed, busy);
        }
      }
    }
  }

  lemma {:induction false} BalanceRunSuper(p: Program, cls: ClassId, o: Oid, env: Env, st: St, owed: multiset<Oid>, busy: set<Oid>)
    requires cls < |p.classes| && p.classes[cls].init.Some?
    requires WellFormed(p) && Sound(p, st, owed, busy) && EnvIn(env, owed)
    requires o in owed && Hidden(st, o) && Unseen(env, o, true)
    ensures RelGood(p, RunSuper(p, cls, o, env, st), owed, busy)
    decreases st.fuel, 7, cls, 0
  {
    hide Sound, Leaky, EnvRefs, InitOnly;
    var sup := p.classes[cls].init.value.superArgs;
    if sup.Some? {
      assert WellFormedClass(p.classes[cls]);
      BalanceArgs(p, sup.value, env, st, owed, busy);
      KeptArgs(p, sup.value, env, st, o, true);
      var vs := EvalArgs(p, sup.value, env, st);
      if vs.Oks? {
        Dangles(p, vs.st, owed, AllRefs(vs.vs), busy);
      }
      if vs.Oks? && p.classes[cls].parent.Some? && p.classes[cls].parent.value < cls {
        var base := p.classes[cls].parent.value;
        AllRefsIn(vs.vs, owed + AllRefs(vs.vs));
        BalanceRunInit(p, base, o, vs.vs, vs.st, owed + AllRefs(vs.vs), busy);
        var r := RunInit(p, base, o, vs.vs, vs.st);
        if r.Failed? {
          Weaken(p, r.why, r.st, owed, AllRefs(vs.vs), busy);
        } else {
          SoundReleaseAll(p, vs.vs, r.st, owed, busy);
        }
      }
    }
  }

  lemma {:induction false} BalanceAssigns(p: Program, todo: seq<InitAssign>, o: Oid, env: Env, st: St, owed: multiset<Oid>, busy: set<Oid>)
    requires forall k :: 0 <= k < |todo| ==> SelfFree(todo[k].e)
    requires WellFormed(p) && Sound(p, st, owed, busy) && EnvIn(env, owed)
    requires o in owed && Hidden(st, o) && Unseen(env, o, true)
    ensures var r := Assigns(p, todo, o, env, st);
      RelGood(p, r, owed, busy) && (r.Done? ==> Hidden(r.st, o))
    decreases st.fuel, 5, |todo|
  {
    hide Sound, Leaky, EnvRefs, InitOnly, StoreField, SetField, EnvIn, Unseen;
    SoundLeaks(p, st, owed, busy);
    if todo != [] {
      var field := todo[0].field;
      BalanceEval(p, todo[0].e, env, st, owed, busy);
      KeptEval(p, todo[0].e, env, st, o, true);
      var x := Eval(p, todo[0].e, env, st);
      if x.Ok? {
        BalanceStore(p, o, field, x.v, x.st, owed, busy);
        var stored := StoreField(p, VObj(o), field, x.v, x.st);
        if stored.Done? {
          var was := GetField(st.heap[o].fields, field);
          var gone := if was.Some? then was.value else VNone;
          ReadHidden(st.heap, o, field, o);
          SetKept(x.st, o, field, x.v, o);
          SoundRelease(p, gone, stored.st, owed, busy);
          KeptRelease(p, gone, stored.st, o);
          var d := Release(p, gone, stored.st);
          if d.Done? {
            BalanceAssigns(p, todo[1..], o, env, d.st, owed, busy);
          }
        }
      }
    }
  }

  lemma ScalarHolds(p: Program, chain: seq<ClassId>, field: Name)
    requires Declared(p, chain)
    ensures ScalarName(p, field) ==> !HoldsObjects(p, chain, field)
  {
  }

  lemma BalanceStore(p: Program, o: Oid, field: Name, v: Value, st: St, owed: multiset<Oid>, busy: set<Oid>)
    requires Sound(p, st, owed + Refs(v), busy) && o in owed
    requires InitOnly(p) ==> ScalarName(p, field) || (Hidden(st, o) && v != VObj(o))
    ensures o < |st.heap|
    ensures var stored := StoreField(p, VObj(o), field, v, st);
      if stored.Failed? then Failing(p, stored.why, stored.st, owed, busy)
      else
        && stored.st == WithFields(st, o, SetField(st.heap[o].fields, field, v))
        && Sound(p, stored.st, owed + OptRefs(GetField(st.heap[o].fields, field)), busy)
  {
    hide Sound, Leaky, EnvRefs, InitOnly, ScalarName, HoldsObjects;
    assert o in owed + Refs(v);
    Dangles(p, st, owed, Refs(v), busy);
    SoundOwed(p, st, owed + Refs(v), busy, o);
    var chain := Chain(p, st.heap[o].cls);
    ScalarHolds(p, chain, field);
    if field in FieldOrder(p, chain) && (v.VObj? ==> HoldsObjects(p, chain, field)) {
      SoundStore(p, o, field, v, st, owed, busy);
    }
  }

  lemma BalanceReplace(p: Program, holder: Value, field: Name, v: Value, st: St, owed: multiset<Oid>, busy: set<Oid>)
    requires WellFormed(p) && Sound(p, st, owed + Refs(v), busy) && (holder.VObj? ==> holder.o in owed)
    requires InitOnly(p) ==> ScalarName(p, field)
    ensures RelGood(p, Replace(p, holder, field, v, st), owed, busy)
  {
    hide Sound, Leaky, EnvRefs, InitOnly;
    Dangles(p, st, owed, Refs(v), busy);
    if holder.VObj? {
      BalanceStore(p, holder.o, field, v, st, owed, busy);
      var was := GetField(st.heap[holder.o].fields, field);
      var stored := StoreField(p, holder, field, v, st);
      if stored.Done? {
        SoundRelease(p, if was.Some? then was.value else VNone, stored.st, owed, busy);
      }
    }
  }

  // ---- statements -----------------------------------------------------------------------------------

  lemma {:induction false} BalanceParts(p: Program, parts: seq<Part>, env: Env, st: St, owed: multiset<Oid>, busy: set<Oid>)
    requires WellFormed(p) && Sound(p, st, owed, busy) && EnvIn(env, owed)
    ensures var l := EvalParts(p, parts, env, st);
      if l.Line? then Sound(p, l.st, owed, busy) else Failing(p, l.why, l.st, owed, busy)
    decreases st.fuel, 5, |parts|
  {
    hide Sound, Leaky, EnvRefs, InitOnly;
    if parts != [] {
      if parts[0].Lit? {
        BalanceParts(p, parts[1..], env, st, owed, busy);
      } else {
        BalanceEval(p, parts[0].e, env, st, owed, busy);
        var x := Eval(p, parts[0].e, env, st);
        if x.Ok? {
          Dangles(p, x.st, owed, Refs(x.v), busy);
        }
        if x.Ok? && (x.v.VInt? || x.v.VBool?) {
          ScalarGood(p, x.v, x.st, owed, busy);
          BalanceParts(p, parts[1..], env, x.st, owed, busy);
        }
      }
    }
  }

  lemma {:induction false} BalanceOnePrint(p: Program, s: Stmt, env: Env, st: St, owed: multiset<Oid>, busy: set<Oid>)
    requires s.Print? && WellFormed(p) && Sound(p, st, owed, busy) && EnvIn(env, owed)
    ensures var x := Exec(p, s, env, st);
      if x.flow.Next? then x.env == env && Sound(p, x.st, owed, busy)
      else x.flow.Stops? && Failing(p, x.flow.why, x.st, owed, busy)
    decreases st.fuel, 6, 0
  {
    hide Sound, Leaky, EnvRefs, InitOnly;
    BalanceParts(p, s.parts, env, st, owed, busy);
    var l := EvalParts(p, s.parts, env, st);
    if l.Line? {
      SameSound(p, l.st, l.st.(out := l.st.out + [l.ps]), owed, busy);
    }
  }

  /** The print statements that end an initializer. */
  lemma {:induction false} BalancePrints(p: Program, ss: seq<Stmt>, env: Env, st: St, owed: multiset<Oid>, busy: set<Oid>)
    requires Prints(ss) && WellFormed(p) && Sound(p, st, owed, busy) && EnvIn(env, owed)
    ensures var x := Block(p, ss, env, st);
      if x.flow.Next? then Sound(p, x.st, owed, busy)
      else x.flow.Stops? && Failing(p, x.flow.why, x.st, owed, busy)
    decreases st.fuel, 6, |ss|
  {
    hide Sound, Leaky, EnvRefs, InitOnly;
    StoppedHere(p, st, owed, busy);
    if ss != [] {
      var b := Burn(st);
      if b.Some? {
        SameSound(p, st, b.value, owed, busy);
        assert ss[0].Print?;
        BalanceOnePrint(p, ss[0], env, b.value, owed, busy);
        var x := Exec(p, ss[0], env, b.value);
        if x.flow.Next? {
          BalancePrints(p, ss[1..], env, x.st, owed, busy);
        }
      }
    }
  }

  /** The names of the innermost scope are known as far as it matters. */
  predicate InScope(p: Program, env: Env, taken: set<Name>) {
    env != [] && (Scoped(p) ==> NamesIn(Top(env), taken))
  }

  lemma StillInScope(p: Program, s: Stmt, env: Env, st: St, taken: set<Name>)
    requires FitsStmt(p, s, taken) && InScope(p, env, taken)
    ensures var x := Exec(p, s, env, st);
      x.flow.Next? ==> InScope(p, x.env, taken + Binds(s))
  {
    DepthExec(p, s, env, st);
    if Scoped(p) {
      NamesExec(p, s, env, st, taken);
    }
  }

  lemma {:induction false} BalanceBlock(p: Program, ss: seq<Stmt>, env: Env, st: St, taken: set<Name>, outer: multiset<Oid>, busy: set<Oid>)
    requires WellFormed(p) && Fits(p, ss, taken) && InScope(p, env, taken)
    requires Held(env, outer) && Sound(p, st, outer + EnvRefs(env), busy)
    ensures ExGood(p, Block(p, ss, env, st), outer, busy)
    decreases st.fuel, 6, |ss|
  {
    hide Sound, Leaky, EnvRefs, InitOnly;
    StoppedHere(p, st, outer + EnvRefs(env), busy);
    if ss == [] {
      assert outer + EnvRefs(env) + multiset{} == outer + EnvRefs(env);
    } else {
      var b := Burn(st);
      if b.Some? {
        SameSound(p, st, b.value, outer + EnvRefs(env), busy);
        StillInScope(p, ss[0], env, b.value, taken);
        BalanceExec(p, ss[0], env, b.value, taken, outer, busy);
        var x := Exec(p, ss[0], env, b.value);
        if x.flow.Next? {
          assert outer + EnvRefs(x.env) + multiset{} == outer + EnvRefs(x.env);
          BalanceBlock(p, ss[1..], x.env, x.st, taken + Binds(ss[0]), outer, busy);
        }
      }
    }
  }

  /** A statement that ends here, with these references in its environment. */
  lemma GoesOn(p: Program, env: Env, st: St, outer: multiset<Oid>, busy: set<Oid>)
    requires Held(env, outer) && Sound(p, st, outer + EnvRefs(env), busy)
    ensures ExGood(p, Ex(Next, env, st), outer, busy)
  {
    hide Sound, Leaky, EnvRefs, InitOnly;
    assert outer + EnvRefs(env) + multiset{} == outer + EnvRefs(env);
  }

  lemma EndsHere(p: Program, f: Flow, env: Env, st: St, outer: multiset<Oid>, busy: set<Oid>)
    requires Held(env, outer) && Sound(p, st, outer + EnvRefs(env), busy)
    requires f.Breaks? || f.Continues? || f == Returns(VNone) || (f.Stops? && !f.why.Negative?)
    ensures ExGood(p, Ex(f, env, st), outer, busy)
  {
    hide Sound, Leaky, EnvRefs, InitOnly;
    SoundLeaks(p, st, outer + EnvRefs(env), busy);
    assert outer + EnvRefs(env) + multiset{} == outer + EnvRefs(env);
  }

  lemma {:induction false} BalanceExec(p: Program, s: Stmt, env: Env, st: St, taken: set<Name>, outer: multiset<Oid>, busy: set<Oid>)
    requires WellFormed(p) && FitsStmt(p, s, taken) && InScope(p, env, taken)
    requires Held(env, outer) && Sound(p, st, outer + EnvRefs(env), busy)
    ensures ExGood(p, Exec(p, s, env, st), outer, busy)
    decreases st.fuel, 8, 1
  {
    hide Sound, Leaky, EnvRefs, InitOnly;
    HeldIsIn(env, outer);
    match s
    case Let(_, _) => BalanceLet(p, s, env, st, taken, outer, busy);
    case Assign(_, _, _, _) => BalanceAssign(p, s, env, st, outer, busy);
    case FieldAssign(name, field, e) => BalanceFieldAssign(p, s, env, st, outer, busy, name, field, e);
    case SelfFieldAssign(field, e) => BalanceFieldAssign(p, s, env, st, outer, busy, SELF, field, e);
    case ExprStmt(_) => BalanceExprStmt(p, s, env, st, outer, busy);
    case Print(_) => BalancePrint(p, s, env, st, outer, busy);
    case If(_, _, _) => BalanceIf(p, s, env, st, taken, outer, busy);
    case ForRange(loopVar, lo, hi, inclusive, body) =>
      var _ := BalanceIterate(p, loopVar, lo, if inclusive then hi + 1 else hi, body, env, st, outer, busy);
    case CounterLoop(_, _, _) => BalanceCounter(p, s, env, st, taken, outer, busy);
    case Break => EndsHere(p, Breaks, env, st, outer, busy);
    case Continue => EndsHere(p, Continues, env, st, outer, busy);
    case Return(_) => BalanceReturn(p, s, env, st, outer, busy);
    case Exit(code) => EndsHere(p, Stops(Quit(code, Mark(st.heap, st.torn), [])), env, st, outer, busy);
  }

  /** A new binding takes the value over; a binding it overwrites loses its own. */
  lemma BalanceDeclare(p: Program, env: Env, n: Slot, st: St, taken: set<Name>, outer: multiset<Oid>, busy: set<Oid>)
    requires InScope(p, env, taken) && (Scoped(p) ==> n.name !in taken) && n.owned && Held(env, outer)
    requires Sound(p, st, outer + EnvRefs(env) + Refs(n.val), busy)
    ensures Held(Declare(env, n), outer)
    ensures Sound(p, Lose(st, env, n.name), outer + EnvRefs(Declare(env, n)), busy)
  {
    hide Sound, Leaky, EnvRefs, InitOnly;
    DeclareOwned(env, n, outer);
    var after, gone := EnvRefs(Declare(env, n)), Overwritten(env, n.name);
    if Scoped(p) {
      FreshName(env, n.name, taken);
    }
    assert outer + EnvRefs(env) + Refs(n.val) == outer + (after + gone) == outer + after + gone;
    SoundLoses(p, st, outer + after, Dropped(env, n.name), busy);
  }

  lemma {:induction false} BalanceLet(p: Program, s: Stmt, env: Env, st: St, taken: set<Name>, outer: multiset<Oid>, busy: set<Oid>)
    requires s.Let? && WellFormed(p) && FitsStmt(p, s, taken) && InScope(p, env, taken)
    requires Held(env, outer) && EnvIn(env, outer + EnvRefs(env)) && Sound(p, st, outer + EnvRefs(env), busy)
    ensures ExGood(p, Exec(p, s, env, st), outer, busy)
    decreases st.fuel, 8, 0
  {
    hide Sound, Leaky, EnvRefs, InitOnly;
    BalanceEval(p, s.init, env, st, outer + EnvRefs(env), busy);
    var x := Eval(p, s.init, env, st);
    if x.Ok? {
      var n := Slot(s.name, x.v, true);
      BalanceDeclare(p, env, n, x.st, taken, outer, busy);
      GoesOn(p, Declare(env, n), Lose(x.st, env, s.name), outer, busy);
    }
  }

  lemma {:induction false} BalanceAssign(p: Program, s: Stmt, env: Env, st: St, outer: multiset<Oid>, busy: set<Oid>)
    requires s.Assign? && WellFormed(p)
    requires Held(env, outer) && EnvIn(env, outer + EnvRefs(env)) && Sound(p, st, outer + EnvRefs(env), busy)
    ensures ExGood(p, Exec(p, s, env, st), outer, busy)
    decreases st.fuel, 8, 0
  {
    hide Sound, Leaky, EnvRefs, InitOnly;
    BalanceEval(p, s.e, env, st, outer + EnvRefs(env), busy);
    var x := Eval(p, s.e, env, st);
    if x.Ok? {
      BalanceCombine(p, env, s.name, s.op, s.t, x.v, x.st, outer + EnvRefs(env), busy);
      var y := Combine(env, s.name, s.op, s.t, x.v, x.st);
      var was := FindSlot(env, s.name);
      if y.Ok? {
        Dangles(p, y.st, outer + EnvRefs(env), Refs(y.v), busy);
      }
      if y.Ok? && was.Some? {
        var after := SetVar(env, s.name, y.v);
        SetVarRefs(env, s.name, y.v, outer);
        Regroup(outer, EnvRefs(env), Refs(y.v), EnvRefs(after), OwnedRefs(was.value));
        if was.value.owned {
          SoundRelease(p, was.value.val, y.st, outer + EnvRefs(after), busy);
        } else {
          assert outer + EnvRefs(after) + OwnedRefs(was.value) == outer + EnvRefs(after);
          SoundLeaks(p, y.st, outer + EnvRefs(after), busy);
        }
        var d := if was.value.owned then Release(p, was.value.val, y.st) else Done(y.st);
        if d.Done? {
          GoesOn(p, after, d.st, outer, busy);
        }
      }
    }
  }

  lemma Regroup(outer: multiset<Oid>, a: multiset<Oid>, x: multiset<Oid>, b: multiset<Oid>, y: multiset<Oid>)
    requires b + y == a + x
    ensures outer + a + x == outer + b + y
  {
    assert outer + a + x == outer + (a + x);
    assert outer + b + y == outer + (b + y);
  }

  lemma BalanceCombine(p: Program, env: Env, name: Name, op: Option<BinaryOp>, t: IntType, v: Value, st: St,
                       owed: multiset<Oid>, busy: set<Oid>)
    requires Sound(p, st, owed + Refs(v), busy)
    ensures var y := Combine(env, name, op, t, v, st);
      EvGood(p, y, owed, busy)
  {
    hide Sound, Leaky, EnvRefs, InitOnly;
    Dangles(p, st, owed, Refs(v), busy);
    var y := Combine(env, name, op, t, v, st);
    if y.Ok? && op.Some? {
      ScalarGood(p, v, st, owed, busy);
      ScalarGood(p, y.v, st, owed, busy);
    }
  }

  lemma {:induction false} BalanceFieldAssign(p: Program, s: Stmt, env: Env, st: St, outer: multiset<Oid>, busy: set<Oid>,
                                              name: Name, field: Name, e: Expr)
    requires s == FieldAssign(name, field, e) || (s == SelfFieldAssign(field, e) && name == SELF)
    requires WellFormed(p) && (InitOnly(p) ==> ScalarName(p, field))
    requires Held(env, outer) && EnvIn(env, outer + EnvRefs(env)) && Sound(p, st, outer + EnvRefs(env), busy)
    ensures ExGood(p, Exec(p, s, env, st), outer, busy)
    decreases st.fuel, 8, 0
  {
    hide Sound, Leaky, EnvRefs, InitOnly;
    var owed := outer + EnvRefs(env);
    LookupIn(env, name, owed);
    SoundLeaks(p, st, owed, busy);
    var holder := Lookup(env, name);
    if holder.Some? {
      BalanceEval(p, e, env, st, owed, busy);
      var x := Eval(p, e, env, st);
      if x.Ok? {
        BalanceReplace(p, holder.value, field, x.v, x.st, owed, busy);
        var d := Replace(p, holder.value, field, x.v, x.st);
        if d.Done? {
          GoesOn(p, env, d.st, outer, busy);
        }
      }
    }
  }

  lemma {:induction false} BalanceExprStmt(p: Program, s: Stmt, env: Env, st: St, outer: multiset<Oid>, busy: set<Oid>)
    requires s.ExprStmt? && WellFormed(p)
    requires Held(env, outer) && EnvIn(env, outer + EnvRefs(env)) && Sound(p, st, outer + EnvRefs(env), busy)
    ensures ExGood(p, Exec(p, s, env, st), outer, busy)
    decreases st.fuel, 8, 0
  {
    hide Sound, Leaky, EnvRefs, InitOnly;
    var owed := outer + EnvRefs(env);
    BalanceEval(p, s.e, env, st, owed, busy);
    var x := Eval(p, s.e, env, st);
    if x.Ok? {
      SoundRelease(p, x.v, x.st, owed, busy);
      var d := Release(p, x.v, x.st);
      if d.Done? {
        GoesOn(p, env, d.st, outer, busy);
      }
    }
  }

  lemma {:induction false} BalancePrint(p: Program, s: Stmt, env: Env, st: St, outer: multiset<Oid>, busy: set<Oid>)
    requires s.Print? && WellFormed(p)
    requires Held(env, outer) && EnvIn(env, outer + EnvRefs(env)) && Sound(p, st, outer + EnvRefs(env), busy)
    ensures ExGood(p, Exec(p, s, env, st), outer, busy)
    decreases st.fuel, 8, 0
  {
    hide Sound, Leaky, EnvRefs, InitOnly;
    BalanceParts(p, s.parts, env, st, outer + EnvRefs(env), busy);
    var l := EvalParts(p, s.parts, env, st);
    if l.Line? {
      SameSound(p, l.st, l.st.(out := l.st.out + [l.ps]), outer + EnvRefs(env), busy);
      GoesOn(p, env, l.st.(out := l.st.out + [l.ps]), outer, busy);
    }
  }

  lemma {:induction false} BalanceReturn(p: Program, s: Stmt, env: Env, st: St, outer: multiset<Oid>, busy: set<Oid>)
    requires s.Return? && WellFormed(p)
    requires Held(env, outer) && EnvIn(env, outer + EnvRefs(env)) && Sound(p, st, outer + EnvRefs(env), busy)
    ensures ExGood(p, Exec(p, s, env, st), outer, busy)
    decreases st.fuel, 8, 0
  {
    hide Sound, Leaky, EnvRefs, InitOnly;
    if s.result.Some? {
      BalanceEval(p, s.result.value, env, st, outer + EnvRefs(env), busy);
    } else {
      EndsHere(p, Returns(VNone), env, st, outer, busy);
    }
  }

  lemma {:induction false} BalanceIf(p: Program, s: Stmt, env: Env, st: St, taken: set<Name>, outer: multiset<Oid>, busy: set<Oid>)
    requires s.If? && WellFormed(p) && FitsStmt(p, s, taken)
    requires Held(env, outer) && EnvIn(env, outer + EnvRefs(env)) && Sound(p, st, outer + EnvRefs(env), busy)
    ensures ExGood(p, Exec(p, s, env, st), outer, busy)
    decreases st.fuel, 8, 0
  {
    hide Sound, Leaky, EnvRefs, InitOnly;
    BalanceEval(p, s.cond, env, st, outer + EnvRefs(env), busy);
    var x := Eval(p, s.cond, env, st);
    if x.Ok? {
      Dangles(p, x.st, outer + EnvRefs(env), Refs(x.v), busy);
    }
    if x.Ok? && x.v.VBool? {
      ScalarGood(p, x.v, x.st, outer + EnvRefs(env), busy);
      if x.v.b || s.elseB.ElseBlock? {
        var body := if x.v.b then s.thenB else s.elseB.body;
        PushRefs(env, outer);
        BalanceBlock(p, body, Push(env), x.st, {}, outer, busy);
        BalancePop(p, Block(p, body, Push(env), x.st), outer, busy);
      } else {
        GoesOn(p, env, x.st, outer, busy);
      }
    }
  }

  lemma PoppedRefs(env: Env, outer: multiset<Oid>)
    requires env != []
    ensures var n := |env| - 1;
      outer + EnvRefs(env) == outer + EnvRefs(env[..n]) + AllRefs(Owned(env[n]))
    ensures Held(env, outer) ==> Held(env[..|env| - 1], outer)
  {
  }

  lemma BalancePop(p: Program, x: Ex, outer: multiset<Oid>, busy: set<Oid>)
    requires WellFormed(p) && ExGood(p, x, outer, busy)
    ensures ExGood(p, Pop(p, x), outer, busy)
  {
    hide Sound, Leaky, EnvRefs, Held, InitOnly;
    if x.env == [] {
      AlreadyEmpty(p, x, outer, busy);
    } else {
      var n := |x.env| - 1;
      var vs := Owned(x.env[n]);
      var kept := outer + EnvRefs(x.env[..n]);
      PoppedRefs(x.env, outer);
      if x.flow.Stops? {
        LeakyReleaseAll(p, vs, x.st, kept, busy);
      } else {
        BalanceLocals(p, vs, AllRefs(vs), x.st, kept, FlowRefs(x.flow), busy);
        var d := ReleaseAll(p, vs, x.st);
        if d.Failed? {
          Weaken(p, d.why, d.st, kept, FlowRefs(x.flow), busy);
        }
      }
    }
  }

  lemma AlreadyEmpty(p: Program, x: Ex, outer: multiset<Oid>, busy: set<Oid>)
    requires ExGood(p, x, outer, busy)
    ensures Leaky(p, x.st, outer + EnvRefs(x.env), busy)
  {
    hide Sound, Leaky, EnvRefs, Held, InitOnly;
    if !x.flow.Stops? {
      Dangles(p, x.st, outer + EnvRefs(x.env), FlowRefs(x.flow), busy);
    }
  }

  lemma BalanceRound(p: Program, x: Ex, outer: multiset<Oid>, busy: set<Oid>)
    requires WellFormed(p) && ExGood(p, x, outer, busy)
    ensures ExGood(p, Round(p, x), outer, busy)
  {
    hide Sound, Leaky, EnvRefs, InitOnly;
    if Inside(x.flow) {
      BalancePop(p, x, outer, busy);
      BalancePop(p, x.(flow := Next), outer, busy);
    }
  }

  /** One round of a loop. */
  lemma {:induction false} BalanceBody(p: Program, body: seq<Stmt>, env: Env, s: Scope, st: St, taken: set<Name>,
                                       outer: multiset<Oid>, busy: set<Oid>)
    requires WellFormed(p) && Fits(p, body, taken) && env != [] && (Scoped(p) ==> NamesIn(s, taken))
    requires Held(env + [s], outer) && Sound(p, st, outer + EnvRefs(env + [s]), busy)
    ensures var x := Round(p, Block(p, body, env + [s], st));
      && ExGood(p, Broken(x), outer, busy)
      && (x.flow.Next? ==> x.env != [] && Held(x.env, outer) && Sound(p, x.st, outer + EnvRefs(x.env), busy))
    decreases st.fuel, 7, 0, 0
  {
    hide Sound, Leaky, EnvRefs, InitOnly;
    var inner := Block(p, body, env + [s], st);
    BalanceBlock(p, body, env + [s], st, taken, outer, busy);
    BalanceRound(p, inner, outer, busy);
    DepthBlock(p, body, env + [s], st);
    RoundDepth(p, inner, |env|);
    var x := Round(p, inner);
    if x.flow.Next? {
      assert outer + EnvRefs(x.env) + multiset{} == outer + EnvRefs(x.env);
    }
  }

  /** The scope of a range loop's body holds the loop variable. */
  lemma LoopScope(env: Env, n: Slot, outer: multiset<Oid>)
    requires Held(env, outer) && n.owned && !n.val.VObj?
    ensures Declare(Push(env), n) == env + [[n]]
    ensures Held(env + [[n]], outer) && EnvRefs(env + [[n]]) == EnvRefs(env)
  {
    PushRefs(env, outer);
    DeclareOwned(Push(env), n, outer);
    assert SlotOf(Top(Push(env)), n.name).None?;
    assert EnvRefs(env) + Refs(n.val) == EnvRefs(env);
    assert EnvRefs(env + [[n]]) + multiset{} == EnvRefs(env + [[n]]);
  }

  lemma {:induction false} BalanceIterate(p: Program, loopVar: Name, i: int, hi: int, body: seq<Stmt>,
                                          env: Env, st: St, outer: multiset<Oid>, busy: set<Oid>)
    returns (r: Ex)
    requires WellFormed(p) && Fits(p, body, {loopVar}) && env != []
    requires Held(env, outer) && Sound(p, st, outer + EnvRefs(env), busy)
    ensures r == Iterate(p, loopVar, i, hi, body, env, st) && ExGood(p, r, outer, busy)
    decreases st.fuel, 7, if i < hi then hi - i else 0, 1
  {
    hide Sound, Leaky, EnvRefs, InitOnly, Declare, Push, ExGood;
    if i >= hi {
      r := Ex(Next, env, st);
      GoesOn(p, env, st, outer, busy);
    } else {
      var n := Slot(loopVar, VInt(i), true);
      LoopScope(env, n, outer);
      BalanceBody(p, body, env, [n], st, {loopVar}, outer, busy);
      var x := Round(p, Block(p, body, Declare(Push(env), n), st));
      if x.flow.Next? {
        r := BalanceIterate(p, loopVar, i + 1, hi, body, x.env, x.st, outer, busy);
      } else {
        r := Broken(x);
      }
    }
  }

  lemma {:induction false} BalanceCounter(p: Program, s: Stmt, env: Env, st: St, taken: set<Name>, outer: multiset<Oid>, busy: set<Oid>)
    requires s.CounterLoop? && WellFormed(p) && FitsStmt(p, s, taken) && InScope(p, env, taken)
    requires Held(env, outer) && Sound(p, st, outer + EnvRefs(env), busy)
    ensures ExGood(p, Exec(p, s, env, st), outer, busy)
    decreases st.fuel, 8, 0
  {
    hide Sound, Leaky, EnvRefs, InitOnly;
    var n := Slot(s.counter, VInt(0), true);
    assert outer + EnvRefs(env) + Refs(n.val) == outer + EnvRefs(env);
    BalanceDeclare(p, env, n, st, taken, outer, busy);
    var _ := BalanceCount(p, s.counter, s.limit, s.body, 0, Declare(env, n), Lose(st, env, s.counter), outer, busy);
  }

  lemma {:induction false} BalanceCount(p: Program, counter: Name, limit: int, body: seq<Stmt>, guard: nat,
                                        env: Env, st: St, outer: multiset<Oid>, busy: set<Oid>)
    returns (r: Ex)
    requires WellFormed(p) && Fits(p, body, {}) && env != []
    requires Held(env, outer) && Sound(p, st, outer + EnvRefs(env), busy)
    ensures r == Count(p, counter, limit, body, guard, env, st) && ExGood(p, r, outer, busy)
    decreases st.fuel, 7, if guard <= GUARD_LIMIT then GUARD_LIMIT + 1 - guard else 0, 1
  {
    hide Sound, Leaky, EnvRefs, InitOnly;
    var test := CounterTest(env, counter, limit, guard);
    if test.Stops? {
      EndsHere(p, test, env, st, outer, busy);
      r := Ex(test, env, st);
    } else if test.Breaks? {
      GoesOn(p, env, st, outer, busy);
      r := Ex(Next, env, st);
    } else {
      PushRefs(env, outer);
      BalanceBody(p, body, env, [], st, {}, outer, busy);
      var x := Round(p, Block(p, body, Push(env), st));
      if x.flow.Next? {
        r := BalanceCount(p, counter, limit, body, guard + 1, x.env, x.st, outer, busy);
      } else {
        r := Broken(x);
      }
    }
  }
}

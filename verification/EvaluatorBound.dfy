/**
  Evaluation needs no fuel: above a bound computed from the program alone no run
  exhausts it, whatever the receivers that dispatch meets.  The releases are paid
  for in advance: every reference a field or a slot holds keeps back the cost of
  the teardown that its release may set off.
*/
module EvaluatorBound {
  import opened Options
  import opened Evaluator
  import opened EvaluatorRefs
  import opened EvaluatorFrame
  import opened EvaluatorScopes
  import opened EvaluatorFuel
  import opened EvaluatorOrder

  /** The fuel not kept back for the references in fields; none once it has run out. */
  function Slack(p: Program, st: St): int {
    if st.dry then 0 else st.fuel - Tolls(p, |HeapRefs(st.heap)|)
  }

  /** Nor for those in the slots of the environment. */
  function EnvSlack(p: Program, env: Env, st: St): int {
    Slack(p, st) - Tolls(p, |OwnedAll(env)|)
  }

  predicate EvLeft(p: Program, r: Ev, s: nat) {
    Slack(p, r.st) >= s
  }

  predicate EvsLeft(p: Program, r: Evs, s: nat) {
    Slack(p, r.st) >= s
  }

  predicate RelLeft(p: Program, r: Rel, s: nat) {
    Slack(p, r.st) >= s
  }

  predicate ExLeft(p: Program, x: Ex, s: nat) {
    EnvSlack(p, x.env, x.st) >= s
  }

  // ---- primitive steps -------------------------------------------------------------------

  lemma FuelIsLeft(p: Program, st: St, s: nat)
    requires s >= 1 && Slack(p, st) >= s
    ensures !st.dry
  {
  }

  lemma BurnSlack(p: Program, st: St)
    requires Slack(p, st) >= 2
    ensures Burn(st).Some? && Slack(p, Burn(st).value) == Slack(p, st) - 1
  {
  }

  lemma CountSlack(p: Program, o: Oid, rc: int, st: St)
    requires o < |st.heap|
    ensures Slack(p, WithCount(st, o, rc)) == Slack(p, st)
  {
    HeapRefsCount(st.heap, o, rc);
  }

  lemma RetainSlack(p: Program, v: Value, st: St)
    ensures Slack(p, Retain(v, st)) == Slack(p, st)
  {
    hide Slack;
    if v.VObj? && v.o < |st.heap| {
      CountSlack(p, v.o, st.heap[v.o].rc + 1, st);
    }
  }

  lemma ReadSlack(p: Program, v: Value, field: Name, st: St)
    ensures var r := ReadField(v, field, st);
      Slack(p, r.st) == Slack(p, st)
  {
    hide Slack;
    if v.VObj? && v.o < |st.heap| {
      var x := GetField(st.heap[v.o].fields, field);
      if x.Some? {
        RetainSlack(p, x.value, st);
      }
    }
  }

  lemma FieldsUpdate(h: seq<Obj>, o: Oid, fs: seq<Field>)
    requires o < |h|
    ensures |HeapRefs(h[o := h[o].(fields := fs)])| + |FieldRefs(h[o].fields)| == |HeapRefs(h)| + |FieldRefs(fs)|
  {
    HeapRefsUpdate(h, o, h[o].(fields := fs));
    var after := h[o := h[o].(fields := fs)];
    assert |HeapRefs(after) + FieldRefs(h[o].fields)| == |HeapRefs(h) + FieldRefs(fs)|;
  }

  lemma StoreRefs(h: seq<Obj>, o: Oid, field: Name, v: Value)
    requires o < |h|
    ensures |HeapRefs(h[o := h[o].(fields := SetField(h[o].fields, field, v))])| <= |HeapRefs(h)| + 1
  {
    hide HeapRefs, FieldRefs, SetField, GetField;
    var fs := h[o].fields;
    SetFieldRefs(fs, field, v);
    FieldsUpdate(h, o, SetField(fs, field, v));
    assert |FieldRefs(SetField(fs, field, v)) + OptRefs(GetField(fs, field))| == |FieldRefs(fs) + Refs(v)|;
    assert |Refs(v)| <= 1;
  }

  /** A store holds at most one more reference. */
  lemma StoreSlack(p: Program, holder: Value, field: Name, v: Value, st: St)
    ensures var r := StoreField(p, holder, field, v, st);
      Slack(p, r.st) >= Slack(p, st) - Toll(p)
  {
    hide Tolls, Toll, HeapRefs, SetField, HoldsObjects;
    var r := StoreField(p, holder, field, v, st);
    if r.Done? {
      StoreRefs(st.heap, holder.o, field, v);
      TollsGrow(p, |HeapRefs(r.st.heap)|, |HeapRefs(st.heap)| + 1);
      TollsOne(p, |HeapRefs(st.heap)|);
    }
  }

  /** Unlinking an object frees what was kept back for it. */
  lemma UnlinkSlack(p: Program, o: Oid, field: Name, st: St)
    requires o < |st.heap|
    requires !st.dry
    requires var v := GetField(st.heap[o].fields, field); v.Some? && v.value.VObj?
    ensures Slack(p, WithFields(st, o, DelField(st.heap[o].fields, field))) == Slack(p, st) + Toll(p)
  {
    hide Tolls, Toll;
    var fs := st.heap[o].fields;
    var after := DelField(fs, field);
    DelFieldRefs(fs, field);
    FieldsUpdate(st.heap, o, after);
    assert |FieldRefs(after) + OptRefs(GetField(fs, field))| == |FieldRefs(fs)|;
    TollsOne(p, |HeapRefs(WithFields(st, o, after).heap)|);
  }

  lemma GrowSlack(p: Program, cls: ClassId, st: St)
    ensures Slack(p, st.(heap := st.heap + [Obj(cls, Initial(p, Chain(p, cls), []), 1)])) == Slack(p, st)
  {
    InitialScalar(p, Chain(p, cls), []);
    HeapRefsAppend(st.heap, Obj(cls, Initial(p, Chain(p, cls), []), 1));
  }

  lemma {:induction false} SetSlotCount(s: Scope, n: Slot)
    ensures |Owned(SetSlot(s, n))| <= |Owned(s)| + if n.owned then 1 else 0
  {
    if s == [] {
      assert [n][1..] == [];
    } else if s[0].name == n.name {
      assert SetSlot(s, n)[1..] == s[1..];
    } else {
      SetSlotCount(s[1..], n);
      assert SetSlot(s, n)[1..] == SetSlot(s[1..], n);
    }
  }

  lemma DeclareCount(env: Env, n: Slot)
    ensures |OwnedAll(Declare(env, n))| <= |OwnedAll(env)| + if n.owned then 1 else 0
  {
    if env == [] {
      SetSlotCount([], n);
      assert Declare(env, n)[..0] == [];
    } else {
      SetSlotCount(env[|env| - 1], n);
      assert Declare(env, n)[..|env| - 1] == env[..|env| - 1];
    }
  }

  lemma {:induction false} SetVarCount(env: Env, name: Name, v: Value)
    ensures |OwnedAll(SetVar(env, name, v))| <= |OwnedAll(env)| + 1
  {
    if env != [] {
      var top, front := env[|env| - 1], env[..|env| - 1];
      if SlotOf(top, name).Some? {
        SetSlotCount(top, Slot(name, v, true));
        assert SetVar(env, name, v)[..|env| - 1] == front;
      } else {
        SetVarCount(front, name, v);
        var after := SetVar(front, name, v);
        assert (after + [top])[..|after|] == after;
      }
    }
  }

  lemma PushCount(env: Env)
    ensures OwnedAll(Push(env)) == OwnedAll(env)
  {
    assert Push(env)[..|env|] == env;
  }

  lemma {:induction false} ParamsCount(names: seq<Name>, vs: seq<Value>, env: Env)
    requires OwnedAll(env) == []
    ensures OwnedAll(Params(names, vs, env)) == []
  {
    if names != [] && vs != [] {
      DeclareCount(env, Slot(names[0], vs[0], false));
      ParamsCount(names[1..], vs[1..], Declare(env, Slot(names[0], vs[0], false)));
    }
  }

  /** The environment of a call owns nothing. */
  lemma CallSlack(p: Program, names: seq<Name>, vs: seq<Value>, self: Option<Value>, st: St)
    ensures EnvSlack(p, Params(names, vs, SelfEnv(self)), st) == Slack(p, st)
  {
    var env := SelfEnv(self);
    assert env[..0] == [] && OwnedAll(env) == Owned(env[0]);
    ParamsCount(names, vs, env);
    TollsOne(p, 0);
  }

  lemma DeclareSlack(p: Program, env: Env, n: Slot, st: St)
    ensures EnvSlack(p, Declare(env, n), st) >= EnvSlack(p, env, st) - Toll(p)
  {
    DeclareCount(env, n);
    TollsGrow(p, |OwnedAll(Declare(env, n))|, |OwnedAll(env)| + 1);
    TollsOne(p, |OwnedAll(env)|);
  }

  lemma LoseSlack(p: Program, env: Env, st: St, before: Env, name: Name)
    ensures EnvSlack(p, env, Lose(st, before, name)) == EnvSlack(p, env, st)
  {
  }

  lemma SetVarSlack(p: Program, env: Env, name: Name, v: Value, st: St)
    ensures EnvSlack(p, SetVar(env, name, v), st) >= EnvSlack(p, env, st) - Toll(p)
  {
    SetVarCount(env, name, v);
    TollsGrow(p, |OwnedAll(SetVar(env, name, v))|, |OwnedAll(env)| + 1);
    TollsOne(p, |OwnedAll(env)|);
  }

  // ---- releases ----------------------------------------------------------------------------

  lemma {:induction false} OwnPartsSlack(p: Program, parts: seq<Part>, env: Env, st: St)
    requires OwnFields(parts)
    ensures var l := EvalParts(p, parts, env, st);
      Slack(p, l.st) == Slack(p, st)
    decreases |parts|
  {
    hide Slack;
    if parts != [] {
      if parts[0].Lit? {
        OwnPartsSlack(p, parts[1..], env, st);
      } else {
        assert parts[0].e.SelfField?;
        var self := Lookup(env, SELF);
        if self.Some? {
          ReadSlack(p, self.value, parts[0].e.field, st);
          OwnPartsSlack(p, parts[1..], env, Eval(p, parts[0].e, env, st).st);
        }
      }
    }
  }

  lemma {:induction false} OwnPrintsSlack(p: Program, ss: seq<Stmt>, env: Env, st: St, s: nat)
    requires PrintsOwnFields(ss) && s >= 1 && Slack(p, st) >= s + |ss|
    ensures var x := Block(p, ss, env, st);
      Slack(p, x.st) >= s
    decreases |ss|
  {
    hide Slack;
    if ss != [] {
      BurnSlack(p, st);
      var b := Burn(st).value;
      OwnPartsSlack(p, ss[0].parts, env, b);
      var l := EvalParts(p, ss[0].parts, env, b);
      if l.Line? {
        var next := l.st.(out := l.st.out + [l.ps]);
        SameSlack(p, l.st, next);
        OwnPrintsSlack(p, ss[1..], env, next, s);
      }
    }
  }

  lemma SameSlack(p: Program, a: St, b: St)
    requires a.heap == b.heap && a.fuel == b.fuel && a.dry == b.dry
    ensures Slack(p, a) == Slack(p, b)
  {
  }

  lemma {:induction false} DeinitsSlack(p: Program, c: ClassId, o: Oid, st: St, s: nat)
    requires Ordered(p) && s >= 1
    requires Slack(p, st) >= s + if c < |p.classes| then DeinitLines(p, c + 1) else 0
    ensures RelLeft(p, Deinits(p, Chain(p, c), o, st), s)
    decreases c
  {
    hide Slack;
    if c < |p.classes| {
      var decl := p.classes[c];
      var rest := Chain(p, c)[1..];
      assert OrderedClass(p, c, decl);
      var st1 := st;
      if decl.deinit.Some? {
        OwnPrintsSlack(p, decl.deinit.value, SelfEnv(Some(VObj(o))), st, s + DeinitLines(p, c));
        st1 := Block(p, decl.deinit.value, SelfEnv(Some(VObj(o))), st).st;
      }
      if decl.parent.Some? && decl.parent.value < c {
        assert rest == Chain(p, decl.parent.value);
        DeinitLinesGrow(p, decl.parent.value + 1, c);
        DeinitsSlack(p, decl.parent.value, o, st1, s);
      }
    }
  }

  lemma {:induction false} PayRelease(p: Program, v: Value, st: St, s: nat)
    requires Ordered(p) && s >= 1 && Slack(p, st) >= s + Toll(p)
    ensures RelLeft(p, Release(p, v, st), s)
    decreases st.fuel, 1
  {
    hide Slack, Toll;
    if v.VObj? && v.o < |st.heap| {
      var rc := st.heap[v.o].rc - 1;
      CountSlack(p, v.o, rc, st);
      if rc == 0 {
        PayTeardown(p, v.o, WithCount(st, v.o, rc), s);
      }
    }
  }

  lemma {:induction false} PayReleaseAll(p: Program, vs: seq<Value>, st: St, s: nat)
    requires Ordered(p) && s >= 1 && Slack(p, st) >= s + Tolls(p, |vs|)
    ensures RelLeft(p, ReleaseAll(p, vs, st), s)
    decreases st.fuel, 2, |vs|
  {
    hide Slack, Toll, Tolls;
    if vs != [] {
      var n := |vs| - 1;
      TollsOne(p, n);
      PayRelease(p, vs[n], st, s + Tolls(p, n));
      var d := Release(p, vs[n], st);
      if d.Done? {
        PayReleaseAll(p, vs[..n], d.st, s);
      }
    } else {
      TollsOne(p, 0);
    }
  }

  lemma {:induction false} PayTeardown(p: Program, o: Oid, st: St, s: nat)
    requires o < |st.heap| && Ordered(p) && s >= 1 && Slack(p, st) >= s + Toll(p)
    ensures RelLeft(p, Teardown(p, o, st), s)
    decreases st.fuel, 0
  {
    var st0 := st.(torn := st.torn + [o]);
    assert Slack(p, st0) == Slack(p, st);
    BurnSlack(p, st0);
    var b := Burn(st0).value;
    hide Slack;
    var c := st.heap[o].cls;
    if c < |p.classes| {
      DeinitLinesGrow(p, c + 1, |p.classes|);
    }
    DeinitsSlack(p, c, o, b, s);
    var d := Deinits(p, Chain(p, c), o, b);
    if d.Done? {
      PayDropFields(p, FieldOrder(p, Chain(p, c)), o, d.st, s);
    }
  }

  lemma {:induction false} PayDropFields(p: Program, names: seq<Name>, o: Oid, st: St, s: nat)
    requires Ordered(p) && s >= 1 && Slack(p, st) >= s
    ensures RelLeft(p, DropFields(p, names, o, st), s)
    decreases st.fuel, 2, |names|
  {
    hide Slack, Toll;
    if names != [] && o < |st.heap| {
      var v := GetField(st.heap[o].fields, names[0]);
      if v.Some? && v.value.VObj? {
        FuelIsLeft(p, st, s);
        UnlinkSlack(p, o, names[0], st);
        var st1 := WithFields(st, o, DelField(st.heap[o].fields, names[0]));
        PayRelease(p, v.value, st1, s);
        var d := Release(p, v.value, st1);
        if d.Done? {
          PayDropFields(p, names[1..], o, d.st, s);
        }
      } else {
        PayDropFields(p, names[1..], o, st, s);
      }
    }
  }

  // ---- expressions --------------------------------------------------------------------------

  lemma {:induction false} PayEval(p: Program, h: Home, e: Expr, env: Env, st: St, s: nat)
    requires Ordered(p) && OrderedExpr(p, h, e) && s >= 1 && Slack(p, st) >= s + ExprCost(p, h, e)
    ensures EvLeft(p, Eval(p, e, env, st), s)
    decreases st.fuel, 4, e, 2
  {
    hide Slack;
    match e
    case IntLit(_, _) =>
    case BoolLit(_) =>
    case VarRef(name) =>
      if Lookup(env, name).Some? {
        RetainSlack(p, Lookup(env, name).value, st);
      }
    case SelfField(field) =>
      if Lookup(env, SELF).Some? {
        ReadSlack(p, Lookup(env, SELF).value, field, st);
      }
    case Paren(inner) => PayEval(p, h, inner, env, st, s);
    case Unary(_, x, _) => PayEval(p, h, x, env, st, s);
    case Binary(_, _, _, _) => PayBinary(p, h, e, env, st, s);
    case Cast(x, _) => PayEval(p, h, x, env, st, s);
    case IfValue(_, _, _) => PayIfValue(p, h, e, env, st, s);
    case FieldGet(_, _) => PayFieldGet(p, h, e, env, st, s);
    case NewObj(_, _) => PayNew(p, h, e, env, st, s);
    case Call(_, _) => PayCall(p, h, e, env, st, s);
    case MethodCall(_, _, _) => PayMethodCall(p, h, e, env, st, s);
    case SuperCall(_, _, _) => PaySuperCall(p, h, e, env, st, s);
  }

  lemma {:induction false} PayBinary(p: Program, h: Home, e: Expr, env: Env, st: St, s: nat)
    requires e.Binary? && Ordered(p) && OrderedExpr(p, h, e) && s >= 1 && Slack(p, st) >= s + ExprCost(p, h, e)
    ensures EvLeft(p, EvalBinary(p, e, env, st), s)
    decreases st.fuel, 4, e, 0
  {
    hide Slack, BinaryValue;
    PayEval(p, h, e.l, env, st, s + ExprCost(p, h, e.r));
    var a := Eval(p, e.l, env, st);
    if a.Ok? {
      PayEval(p, h, e.r, env, a.st, s);
      var b := Eval(p, e.r, env, a.st);
      if b.Ok? {
        MoreValue(e.bop, e.t, a.v, b.v, b.st, 0);
      }
    }
  }

  lemma {:induction false} PayIfValue(p: Program, h: Home, e: Expr, env: Env, st: St, s: nat)
    requires e.IfValue? && Ordered(p) && OrderedExpr(p, h, e) && s >= 1 && Slack(p, st) >= s + ExprCost(p, h, e)
    ensures EvLeft(p, Eval(p, e, env, st), s)
    decreases st.fuel, 4, e, 0
  {
    hide Slack;
    PayEval(p, h, e.cond, env, st, s + ExprCost(p, h, e.thenE) + ExprCost(p, h, e.elseE));
    var r := Eval(p, e.cond, env, st);
    if r.Ok? && r.v.VBool? {
      PayEval(p, h, if r.v.b then e.thenE else e.elseE, env, r.st, s);
    }
  }

  lemma {:induction false} PayFieldGet(p: Program, h: Home, e: Expr, env: Env, st: St, s: nat)
    requires e.FieldGet? && Ordered(p) && OrderedExpr(p, h, e) && s >= 1 && Slack(p, st) >= s + ExprCost(p, h, e)
    ensures EvLeft(p, Eval(p, e, env, st), s)
    decreases st.fuel, 4, e, 0
  {
    hide Slack, Toll;
    PayEval(p, h, e.base, env, st, s + Toll(p));
    var r := Eval(p, e.base, env, st);
    if r.Ok? {
      ReadSlack(p, r.v, e.field, r.st);
      var got := ReadField(r.v, e.field, r.st);
      if got.Ok? {
        PayRelease(p, r.v, got.st, s);
      }
    }
  }

  /** After a call the arguments go. */
  lemma {:induction false} PayAfter(p: Program, r: Ev, vs: seq<Value>, s: nat)
    requires Ordered(p) && s >= 1 && Slack(p, r.st) >= s + Tolls(p, |vs|)
    ensures EvLeft(p, if r.Halt? then r else Finish(r.v, ReleaseAll(p, vs, r.st)), s)
    decreases r.st.fuel, 3
  {
    hide Slack, Tolls;
    if r.Ok? {
      PayReleaseAll(p, vs, r.st, s);
    }
  }

  lemma {:induction false} PayNew(p: Program, h: Home, e: Expr, env: Env, st: St, s: nat)
    requires e.NewObj? && Ordered(p) && OrderedExpr(p, h, e) && s >= 1 && Slack(p, st) >= s + ExprCost(p, h, e)
    ensures EvLeft(p, Eval(p, e, env, st), s)
    decreases st.fuel, 4, e, 0
  {
    hide Slack, Tolls, InitCost;
    var back := s + Tolls(p, |e.args|);
    PayArgs(p, h, e.args, env, st, back + InitCost(p, e.cls));
    var vs := EvalArgs(p, e.args, env, st);
    if vs.Oks? {
      PayConstruct(p, e.cls, vs.vs, vs.st, back);
      PayAfter(p, Construct(p, e.cls, vs.vs, vs.st), vs.vs, s);
    }
  }

  lemma {:induction false} PayCall(p: Program, h: Home, e: Expr, env: Env, st: St, s: nat)
    requires e.Call? && Ordered(p) && OrderedExpr(p, h, e) && s >= 1 && Slack(p, st) >= s + ExprCost(p, h, e)
    ensures EvLeft(p, Eval(p, e, env, st), s)
    decreases st.fuel, 4, e, 0
  {
    hide Slack, Tolls, FnCost;
    var back := s + Tolls(p, |e.args|);
    PayArgs(p, h, e.args, env, st, back + FnCost(p, FnIndex(p.fns, e.fn)));
    var vs := EvalArgs(p, e.args, env, st);
    if vs.Oks? {
      PayCallFn(p, e.fn, vs.vs, vs.st, back);
      PayAfter(p, CallFn(p, e.fn, vs.vs, vs.st), vs.vs, s);
    }
  }

  lemma {:induction false} PaySuperCall(p: Program, h: Home, e: Expr, env: Env, st: St, s: nat)
    requires e.SuperCall? && Ordered(p) && OrderedExpr(p, h, e) && s >= 1 && Slack(p, st) >= s + ExprCost(p, h, e)
    ensures EvLeft(p, EvalSuperCall(p, e, env, st), s)
    decreases st.fuel, 4, e, 0
  {
    hide Slack, Tolls, SlotCost;
    var self := Lookup(env, SELF);
    var back := s + Tolls(p, |e.args|);
    if self.Some? {
      PayArgs(p, h, e.args, env, st, back + SlotCost(p, e.slot, e.owner));
      var vs := EvalArgs(p, e.args, env, st);
      if vs.Oks? {
        var chain := Chain(p, e.owner);
        var m := if chain == [] then None else Resolve(p, chain[1..], e.slot);
        if m.Some? {
          ChainBelow(p, e.owner);
          PayDispatch(p, chain[1..], e.slot, e.owner, self.value, vs.vs, vs.st, back);
          PayAfter(p, Invoke(p, m.value.params, m.value.body, m.value.hasResult, self, vs.vs, vs.st), vs.vs, s);
        }
      }
    }
  }

  lemma {:induction false} PayMethodCall(p: Program, h: Home, e: Expr, env: Env, st: St, s: nat)
    requires e.MethodCall? && Ordered(p) && OrderedExpr(p, h, e) && s >= 1 && Slack(p, st) >= s + ExprCost(p, h, e)
    ensures EvLeft(p, EvalMethodCall(p, e, env, st), s)
    decreases st.fuel, 4, e, 0
  {
    hide Slack, Toll, Tolls, SlotCost;
    var back := s + Toll(p) + Tolls(p, |e.args|);
    var body := SlotCost(p, e.slot, |p.classes|);
    PayEval(p, h, e.recv, env, st, back + body + ArgsCost(p, h, e.args));
    var o := Eval(p, e.recv, env, st);
    if o.Ok? && o.v.VObj? {
      PayArgs(p, h, e.args, env, o.st, back + body);
      var vs := EvalArgs(p, e.args, env, o.st);
      if vs.Oks? && o.v.o < |vs.st.heap| {
        var chain := Chain(p, vs.st.heap[o.v.o].cls);
        var m := Resolve(p, chain, e.slot);
        if m.Some? {
          PayDispatch(p, chain, e.slot, |p.classes|, o.v, vs.vs, vs.st, back);
          PaySent(p, Invoke(p, m.value.params, m.value.body, m.value.hasResult, Some(o.v), vs.vs, vs.st), o.v, vs.vs, s);
        }
      }
    }
  }

  /** After a method call the arguments go, then the receiver. */
  lemma {:induction false} PaySent(p: Program, r: Ev, o: Value, vs: seq<Value>, s: nat)
    requires Ordered(p) && s >= 1 && Slack(p, r.st) >= s + Toll(p) + Tolls(p, |vs|)
    ensures EvLeft(p, if r.Halt? then r
                      else
                        var d := ReleaseAll(p, vs, r.st);
                        if d.Failed? then Halt(d.why, d.st) else Finish(r.v, Release(p, o, d.st)), s)
    decreases r.st.fuel, 3
  {
    hide Slack, Toll, Tolls;
    if r.Ok? {
      PayReleaseAll(p, vs, r.st, s + Toll(p));
      var d := ReleaseAll(p, vs, r.st);
      if d.Done? {
        PayRelease(p, o, d.st, s);
      }
    }
  }

  /** Whichever implementation the chain resolves to, the slot pays for it. */
  lemma {:induction false} PayDispatch(p: Program, chain: seq<ClassId>, slot: nat, n: nat, self: Value, vs: seq<Value>, st: St, s: nat)
    requires Ordered(p) && Declared(p, chain) && Resolve(p, chain, slot).Some? && forall k :: k in chain ==> k < n
    requires s >= 1 && Slack(p, st) >= s + SlotCost(p, slot, n)
    ensures var m := Resolve(p, chain, slot).value;
      EvLeft(p, Invoke(p, m.params, m.body, m.hasResult, Some(self), vs, st), s)
    decreases st.fuel, 3, 1
  {
    hide Slack, SlotCost, Resolve;
    var k := ResolvedAt(p, chain, slot);
    SlotCostCovers(p, slot, k, n);
    var m := Resolve(p, chain, slot).value;
    PayInvoke(p, InMethod(slot, k), m.params, m.body, m.hasResult, Some(self), vs, st, s);
  }

  lemma {:induction false} PayArgs(p: Program, h: Home, es: seq<Expr>, env: Env, st: St, s: nat)
    requires Ordered(p) && OrderedArgs(p, h, es) && s >= 1 && Slack(p, st) >= s + ArgsCost(p, h, es)
    ensures var r := EvalArgs(p, es, env, st);
      EvsLeft(p, r, s) && (r.Oks? ==> |r.vs| == |es|)
    decreases st.fuel, 4, es, 0
  {
    hide Slack;
    if es != [] {
      PayEval(p, h, es[0], env, st, s + ArgsCost(p, h, es[1..]));
      var a := Eval(p, es[0], env, st);
      if a.Ok? {
        PayArgs(p, h, es[1..], env, a.st, s);
      }
    }
  }

  // ---- calls -----------------------------------------------------------------------------------

  lemma {:induction false} PayCallFn(p: Program, name: Name, vs: seq<Value>, st: St, s: nat)
    requires Ordered(p) && s >= 1 && Slack(p, st) >= s + FnCost(p, FnIndex(p.fns, name))
    ensures EvLeft(p, CallFn(p, name, vs, st), s)
    decreases st.fuel, 3, 1
  {
    BurnSlack(p, st);
    hide Slack;
    FnIndexFinds(p.fns, name);
    var i := FnIndex(p.fns, name);
    if i < |p.fns| {
      var f := p.fns[i];
      PayInvoke(p, InFn(i), f.params, f.body, f.hasResult, None, vs, st, s);
    }
  }

  lemma {:induction false} PayInvoke(p: Program, h: Home, params: seq<Name>, body: seq<Stmt>, hasResult: bool,
                                     self: Option<Value>, vs: seq<Value>, st: St, s: nat)
    requires Ordered(p) && OrderedBlock(p, h, body) && s >= 1 && Slack(p, st) >= s + 1 + BlockCost(p, h, body)
    ensures EvLeft(p, Invoke(p, params, body, hasResult, self, vs, st), s)
    decreases st.fuel, 3, 0
  {
    hide Slack, EnvSlack, BlockCost;
    BurnSlack(p, st);
    var b := Burn(st).value;
    var env := Params(params, vs, SelfEnv(self));
    CallSlack(p, params, vs, self, b);
    PayBlock(p, h, body, env, b, s);
    PayReturning(p, hasResult, Block(p, body, env, b), s);
  }

  lemma {:induction false} PayReturning(p: Program, hasResult: bool, x: Ex, s: nat)
    requires Ordered(p) && s >= 1 && ExLeft(p, x, s)
    ensures EvLeft(p, Returning(p, hasResult, x), s)
    decreases x.st.fuel, 3, 2
  {
    hide Slack, Tolls;
    PayReleaseAll(p, OwnedAll(x.env), x.st, s);
  }

  // ---- construction ------------------------------------------------------------------------------

  lemma {:induction false} PayConstruct(p: Program, cls: ClassId, vs: seq<Value>, st: St, s: nat)
    requires Ordered(p) && s >= 1 && Slack(p, st) >= s + InitCost(p, cls)
    ensures EvLeft(p, Construct(p, cls, vs, st), s)
    decreases st.fuel, 3, 0
  {
    hide Slack, RunInitCost;
    BurnSlack(p, st);
    var b := Burn(st).value;
    GrowSlack(p, cls, b);
    PayRunInit(p, cls, |st.heap|, vs, b.(heap := b.heap + [Obj(cls, Initial(p, Chain(p, cls), []), 1)]), s);
  }

  lemma {:induction false} PayRunInit(p: Program, cls: ClassId, o: Oid, vs: seq<Value>, st: St, s: nat)
    requires Ordered(p) && s >= 1 && Slack(p, st) >= s + RunInitCost(p, cls)
    ensures RelLeft(p, RunInit(p, cls, o, vs, st), s)
    decreases st.fuel, 7, cls, 1
  {
    hide Slack, EnvSlack, RunSuperCost, AssignsCost, BlockCost;
    if cls < |p.classes| && p.classes[cls].init.Some? {
      var init := p.classes[cls].init.value;
      assert OrderedClass(p, cls, p.classes[cls]);
      var h := InInit(cls);
      var self := Some(VObj(o));
      var env := Params(init.params, vs, SelfEnv(self));
      PayAssigns(p, h, init.assigns, o, env, st, s + RunSuperCost(p, cls) + BlockCost(p, h, init.post));
      var a := Assigns(p, init.assigns, o, env, st);
      if a.Done? {
        PayRunSuper(p, cls, o, env, a.st, s + BlockCost(p, h, init.post));
        var r := RunSuper(p, cls, o, env, a.st);
        if r.Done? {
          CallSlack(p, init.params, vs, self, r.st);
          PayBlock(p, h, init.post, env, r.st, s);
          SlackMore(p, Block(p, init.post, env, r.st), s);
        }
      }
    }
  }

  lemma SlackMore(p: Program, x: Ex, s: nat)
    requires ExLeft(p, x, s)
    ensures Slack(p, x.st) >= s
  {
  }

  lemma {:induction false} PayRunSuper(p: Program, cls: ClassId, o: Oid, env: Env, st: St, s: nat)
    requires cls < |p.classes| && p.classes[cls].init.Some?
    requires Ordered(p) && s >= 1 && Slack(p, st) >= s + RunSuperCost(p, cls)
    ensures RelLeft(p, RunSuper(p, cls, o, env, st), s)
    decreases st.fuel, 7, cls, 0
  {
    hide Slack, Tolls, RunInitCost;
    var sup := p.classes[cls].init.value.superArgs;
    if sup.Some? {
      assert OrderedClass(p, cls, p.classes[cls]);
      var base := p.classes[cls].parent;
      var has := base.Some? && base.value < cls;
      var back := s + Tolls(p, |sup.value|);
      PayArgs(p, InInit(cls), sup.value, env, st, back + if has then RunInitCost(p, base.value) else 0);
      var vs := EvalArgs(p, sup.value, env, st);
      if vs.Oks? && has {
        PayRunInit(p, base.value, o, vs.vs, vs.st, back);
        var r := RunInit(p, base.value, o, vs.vs, vs.st);
        if r.Done? {
          PayReleaseAll(p, vs.vs, r.st, s);
        }
      }
    }
  }

  lemma {:induction false} PayAssigns(p: Program, h: Home, todo: seq<InitAssign>, o: Oid, env: Env, st: St, s: nat)
    requires Ordered(p) && OrderedAssigns(p, h, todo) && s >= 1 && Slack(p, st) >= s + AssignsCost(p, h, todo)
    ensures RelLeft(p, Assigns(p, todo, o, env, st), s)
    decreases st.fuel, 5, |todo|
  {
    hide Slack, Toll, StoreField;
    if todo != [] && o < |st.heap| {
      var rest := s + AssignsCost(p, h, todo[1..]);
      PayEval(p, h, todo[0].e, env, st, rest + 2 * Toll(p));
      var x := Eval(p, todo[0].e, env, st);
      if x.Ok? {
        StoreSlack(p, VObj(o), todo[0].field, x.v, x.st);
        var stored := StoreField(p, VObj(o), todo[0].field, x.v, x.st);
        if stored.Done? {
          var was := GetField(st.heap[o].fields, todo[0].field);
          var gone := if was.Some? then was.value else VNone;
          PayRelease(p, gone, stored.st, rest);
          var d := Release(p, gone, stored.st);
          if d.Done? {
            PayAssigns(p, h, todo[1..], o, env, d.st, s);
          }
        }
      }
    }
  }

  lemma {:induction false} PayReplace(p: Program, holder: Value, field: Name, v: Value, st: St, s: nat)
    requires Ordered(p) && s >= 1 && Slack(p, st) >= s + 2 * Toll(p)
    ensures RelLeft(p, Replace(p, holder, field, v, st), s)
    decreases st.fuel, 2, 0
  {
    hide Slack, Toll, StoreField;
    if holder.VObj? && holder.o < |st.heap| {
      StoreSlack(p, holder, field, v, st);
      var stored := StoreField(p, holder, field, v, st);
      if stored.Done? {
        var was := GetField(st.heap[holder.o].fields, field);
        PayRelease(p, if was.Some? then was.value else VNone, stored.st, s);
      }
    }
  }

  // ---- statements ----------------------------------------------------------------------------------

  /** An expression of a statement, with the environment's slots paid for. */
  lemma {:induction false} PayIn(p: Program, h: Home, e: Expr, env: Env, st: St, s: nat)
    requires Ordered(p) && OrderedExpr(p, h, e) && s >= 1 && EnvSlack(p, env, st) >= s + ExprCost(p, h, e)
    ensures var r := Eval(p, e, env, st);
      EnvSlack(p, env, r.st) >= s
    decreases st.fuel, 4, e, 3
  {
    hide Slack, Tolls, ExprCost;
    PayEval(p, h, e, env, st, s + Tolls(p, |OwnedAll(env)|));
  }

  lemma {:induction false} PayGone(p: Program, v: Value, env: Env, st: St, s: nat)
    requires Ordered(p) && s >= 1 && EnvSlack(p, env, st) >= s + Toll(p)
    ensures var r := Release(p, v, st);
      EnvSlack(p, env, r.st) >= s
    decreases st.fuel, 2
  {
    hide Slack, Toll, Tolls;
    PayRelease(p, v, st, s + Tolls(p, |OwnedAll(env)|));
  }

  lemma {:induction false} PayParts(p: Program, h: Home, parts: seq<Part>, env: Env, st: St, s: nat)
    requires Ordered(p) && OrderedParts(p, h, parts) && s >= 1 && EnvSlack(p, env, st) >= s + PartsCost(p, h, parts)
    ensures var l := EvalParts(p, parts, env, st);
      EnvSlack(p, env, l.st) >= s
    decreases st.fuel, 5, |parts|
  {
    hide EnvSlack;
    if parts != [] {
      if parts[0].Lit? {
        PayParts(p, h, parts[1..], env, st, s);
      } else {
        PayIn(p, h, parts[0].e, env, st, s + PartsCost(p, h, parts[1..]));
        var x := Eval(p, parts[0].e, env, st);
        if x.Ok? && (x.v.VInt? || x.v.VBool?) {
          PayParts(p, h, parts[1..], env, x.st, s);
        }
      }
    }
  }

  lemma {:induction false} PayBlock(p: Program, h: Home, ss: seq<Stmt>, env: Env, st: St, s: nat)
    requires Ordered(p) && OrderedBlock(p, h, ss) && s >= 1 && EnvSlack(p, env, st) >= s + BlockCost(p, h, ss)
    ensures ExLeft(p, Block(p, ss, env, st), s)
    decreases st.fuel, 6, |ss|
  {
    hide Slack, Tolls, Exec, StmtCost;
    if ss != [] {
      BurnSlack(p, st);
      var b := Burn(st).value;
      PayExec(p, h, ss[0], env, b, s + BlockCost(p, h, ss[1..]));
      var x := Exec(p, ss[0], env, b);
      if x.flow.Next? {
        PayBlock(p, h, ss[1..], x.env, x.st, s);
      }
    }
  }

  lemma {:induction false} PayExec(p: Program, h: Home, t: Stmt, env: Env, st: St, s: nat)
    requires Ordered(p) && OrderedStmt(p, h, t) && s >= 1 && EnvSlack(p, env, st) >= s + StmtCost(p, h, t)
    ensures ExLeft(p, Exec(p, t, env, st), s)
    decreases st.fuel, 8, 1
  {
    hide EnvSlack, Toll, Times;
    match t
    case Let(name, init) =>
      PayIn(p, h, init, env, st, s + Toll(p));
      var x := Eval(p, init, env, st);
      if x.Ok? {
        DeclareSlack(p, env, Slot(name, x.v, true), x.st);
        LoseSlack(p, Declare(env, Slot(name, x.v, true)), x.st, env, name);
      }
    case Assign(_, _, _, _) => PayAssign(p, h, t, env, st, s);
    case FieldAssign(name, field, e) => PayFieldAssign(p, h, t, env, st, s, name, field, e);
    case SelfFieldAssign(field, e) => PayFieldAssign(p, h, t, env, st, s, SELF, field, e);
    case ExprStmt(e) =>
      PayIn(p, h, e, env, st, s + Toll(p));
      var x := Eval(p, e, env, st);
      if x.Ok? {
        PayGone(p, x.v, env, x.st, s);
      }
    case Print(parts) => PayPrint(p, h, t, env, st, s);
    case If(_, _, _) => PayIf(p, h, t, env, st, s);
    case ForRange(loopVar, lo, hi, inclusive, body) =>
      PayIterate(p, h, loopVar, lo, if inclusive then hi + 1 else hi, body, env, st, s);
    case CounterLoop(counter, limit, body) =>
      DeclareSlack(p, env, Slot(counter, VInt(0), true), st);
      LoseSlack(p, Declare(env, Slot(counter, VInt(0), true)), st, env, counter);
      PayCount(p, h, counter, limit, body, 0, Declare(env, Slot(counter, VInt(0), true)), Lose(st, env, counter), s);
    case Break =>
    case Continue =>
    case Return(result) =>
      if result.Some? {
        PayIn(p, h, result.value, env, st, s);
      }
    case Exit(_) =>
  }

  lemma {:induction false} PayPrint(p: Program, h: Home, t: Stmt, env: Env, st: St, s: nat)
    requires t.Print? && Ordered(p) && OrderedStmt(p, h, t) && s >= 1 && EnvSlack(p, env, st) >= s + StmtCost(p, h, t)
    ensures ExLeft(p, Exec(p, t, env, st), s)
    decreases st.fuel, 8, 0
  {
    hide Tolls;
    PayParts(p, h, t.parts, env, st, s);
  }

  lemma {:induction false} PayAssign(p: Program, h: Home, t: Stmt, env: Env, st: St, s: nat)
    requires t.Assign? && Ordered(p) && OrderedStmt(p, h, t) && s >= 1 && EnvSlack(p, env, st) >= s + StmtCost(p, h, t)
    ensures ExLeft(p, Exec(p, t, env, st), s)
    decreases st.fuel, 8, 0
  {
    hide EnvSlack, Toll, Combine;
    PayIn(p, h, t.e, env, st, s + 2 * Toll(p));
    var x := Eval(p, t.e, env, st);
    if x.Ok? {
      MoreCombine(env, t.name, t.op, t.t, x.v, x.st, 0);
      var y := Combine(env, t.name, t.op, t.t, x.v, x.st);
      var was := FindSlot(env, t.name);
      if y.Ok? && was.Some? {
        SetVarSlack(p, env, t.name, y.v, y.st);
        if was.value.owned {
          PayGone(p, was.value.val, SetVar(env, t.name, y.v), y.st, s);
        }
      }
    }
  }

  lemma {:induction false} PayFieldAssign(p: Program, h: Home, t: Stmt, env: Env, st: St, s: nat, name: Name, field: Name, e: Expr)
    requires t == FieldAssign(name, field, e) || (t == SelfFieldAssign(field, e) && name == SELF)
    requires Ordered(p) && OrderedStmt(p, h, t) && s >= 1 && EnvSlack(p, env, st) >= s + StmtCost(p, h, t)
    ensures ExLeft(p, Exec(p, t, env, st), s)
    decreases st.fuel, 8, 0
  {
    hide Slack, Toll, Tolls, Replace;
    var holder := Lookup(env, name);
    if holder.Some? {
      PayIn(p, h, e, env, st, s + 2 * Toll(p));
      var x := Eval(p, e, env, st);
      if x.Ok? {
        PayReplace(p, holder.value, field, x.v, x.st, s + Tolls(p, |OwnedAll(env)|));
      }
    }
  }

  lemma {:induction false} PayIf(p: Program, h: Home, t: Stmt, env: Env, st: St, s: nat)
    requires t.If? && Ordered(p) && OrderedStmt(p, h, t) && s >= 1 && EnvSlack(p, env, st) >= s + StmtCost(p, h, t)
    ensures ExLeft(p, Exec(p, t, env, st), s)
    decreases st.fuel, 8, 0
  {
    hide Slack, Tolls, BlockCost;
    var other := if t.elseB.ElseBlock? then BlockCost(p, h, t.elseB.body) else 0;
    PayIn(p, h, t.cond, env, st, s + BlockCost(p, h, t.thenB) + other);
    var x := Eval(p, t.cond, env, st);
    if x.Ok? && x.v.VBool? && (x.v.b || t.elseB.ElseBlock?) {
      var body := if x.v.b then t.thenB else t.elseB.body;
      PushCount(env);
      PayBlock(p, h, body, Push(env), x.st, s);
      PayPop(p, Block(p, body, Push(env), x.st), s);
    }
  }

  lemma {:induction false} PayPop(p: Program, x: Ex, s: nat)
    requires Ordered(p) && s >= 1 && ExLeft(p, x, s)
    ensures ExLeft(p, Pop(p, x), s)
    decreases x.st.fuel, 3, 2
  {
    hide Slack, Tolls;
    if x.env != [] {
      var n := |x.env| - 1;
      TollsSum(p, |OwnedAll(x.env[..n])|, |Owned(x.env[n])|);
      PayReleaseAll(p, Owned(x.env[n]), x.st, s + Tolls(p, |OwnedAll(x.env[..n])|));
    }
  }

  lemma {:induction false} PayRound(p: Program, x: Ex, s: nat)
    requires Ordered(p) && s >= 1 && ExLeft(p, x, s)
    ensures ExLeft(p, Round(p, x), s)
    decreases x.st.fuel, 3, 3
  {
    hide EnvSlack, Pop;
    PayPop(p, x, s);
    PayPop(p, x.(flow := Next), s);
  }

  lemma {:induction false} PayIterate(p: Program, h: Home, loopVar: Name, i: int, hi: int, body: seq<Stmt>, env: Env, st: St, s: nat)
    requires Ordered(p) && OrderedBlock(p, h, body) && s >= 1
    requires EnvSlack(p, env, st) >= s + Times(if i < hi then hi - i else 0, Toll(p) + BlockCost(p, h, body))
    ensures ExLeft(p, Iterate(p, loopVar, i, hi, body, env, st), s)
    decreases st.fuel, 7, if i < hi then hi - i else 0, 1
  {
    hide EnvSlack, Toll, BlockCost, Block, Round;
    if i < hi {
      var n := Slot(loopVar, VInt(i), true);
      var rest := s + Times(hi - i - 1, Toll(p) + BlockCost(p, h, body));
      PushSlack(p, env, st);
      DeclareSlack(p, Push(env), n, st);
      PayBlock(p, h, body, Declare(Push(env), n), st, rest);
      PayRound(p, Block(p, body, Declare(Push(env), n), st), rest);
      var x := Round(p, Block(p, body, Declare(Push(env), n), st));
      if x.flow.Next? {
        PayIterate(p, h, loopVar, i + 1, hi, body, x.env, x.st, s);
      }
    }
  }

  lemma PushSlack(p: Program, env: Env, st: St)
    ensures EnvSlack(p, Push(env), st) == EnvSlack(p, env, st)
  {
    PushCount(env);
  }

  lemma {:induction false} PayCount(p: Program, h: Home, counter: Name, limit: int, body: seq<Stmt>, guard: nat, env: Env, st: St, s: nat)
    requires Ordered(p) && OrderedBlock(p, h, body) && s >= 1
    requires EnvSlack(p, env, st) >= s + Times(if guard < GUARD_LIMIT then GUARD_LIMIT - guard else 0, BlockCost(p, h, body))
    ensures ExLeft(p, Count(p, counter, limit, body, guard, env, st), s)
    decreases st.fuel, 7, if guard <= GUARD_LIMIT then GUARD_LIMIT + 1 - guard else 0, 1
  {
    hide EnvSlack, BlockCost, Block, Round;
    if CounterTest(env, counter, limit, guard).Next? {
      var rest := s + Times(GUARD_LIMIT - guard - 1, BlockCost(p, h, body));
      PushSlack(p, env, st);
      PayBlock(p, h, body, Push(env), st, rest);
      PayRound(p, Block(p, body, Push(env), st), rest);
      var x := Round(p, Block(p, body, Push(env), st));
      if x.flow.Next? {
        PayCount(p, h, counter, limit, body, guard + 1, x.env, x.st, s);
      }
    }
  }

  // ---- whole calls and runs ---------------------------------------------------------------------------

  /** A method call under dynamic dispatch never exhausts fuel above the cost of its
      slot, whatever class the receiver has and whatever the heap holds; more fuel
      changes nothing about it. */
  lemma MethodsNeedNoFuel(p: Program, o: Oid, slot: nat, vs: seq<Value>, st: St, d: nat)
    requires Ordered(p) && o < |st.heap| && !st.dry
    requires st.fuel > SlotCost(p, slot, |p.classes|) + Tolls(p, |HeapRefs(st.heap)|)
    ensures var m := Resolve(p, Chain(p, st.heap[o].cls), slot);
      m.Some? ==>
        var r := Invoke(p, m.value.params, m.value.body, m.value.hasResult, Some(VObj(o)), vs, st);
        && !r.st.dry
        && Invoke(p, m.value.params, m.value.body, m.value.hasResult, Some(VObj(o)), vs, More(st, d)) == EvMore(r, d)
  {
    hide SlotCost, Tolls;
    var chain := Chain(p, st.heap[o].cls);
    var m := Resolve(p, chain, slot);
    if m.Some? {
      PayDispatch(p, chain, slot, |p.classes|, VObj(o), vs, st, 1);
      MoreInvoke(p, m.value.params, m.value.body, m.value.hasResult, Some(VObj(o)), vs, st, d);
    }
  }

  /** No run exhausts more fuel than the cost of main. */
  lemma RunsNeedNoFuel(p: Program, fuel: nat)
    requires Ordered(p) && fuel > MainCost(p)
    ensures !RanDry(Run(p, fuel))
  {
    hide BlockCost, Tolls;
    var st := St([], [], fuel, [], [], false);
    var env: Env := [[]];
    assert env[..0] == [] && OwnedAll(env) == [];
    TollsOne(p, 0);
    PayBlock(p, InMain, p.main, env, st, 1);
    var x := Block(p, p.main, env, st);
    PayReleaseAll(p, OwnedAll(x.env), x.st, 1);
  }

  /** So the outcome is a property of the program: the same for every amount of fuel
      above that bound. */
  lemma OutcomeNeedsNoFuel(p: Program, fuel: nat)
    requires Ordered(p) && fuel > MainCost(p)
    ensures Run(p, fuel) == OutcomeMore(Run(p, MainCost(p) + 1), fuel - MainCost(p) - 1)
  {
    RunsNeedNoFuel(p, MainCost(p) + 1);
    EnoughIsEnough(p, MainCost(p) + 1, fuel - MainCost(p) - 1);
  }

  // ---- the order is needed -----------------------------------------------------------------------------

  const SELF_CALL: Stmt := ExprStmt(Call("f", []))

  /** A function that calls itself. */
  const LOOPING: Program := Program([], [FnDecl("f", [], false, [SELF_CALL])], [SELF_CALL])

  lemma BodyExhausts(env: Env, st: St)
    requires Burn(st).Some? ==>
      exists r :: CallFn(LOOPING, "f", [], Burn(st).value) == Halt(Exhausted, r) && r.dry
    ensures exists r :: Block(LOOPING, [SELF_CALL], env, st) == Ex(Stops(Exhausted), env, r) && r.dry
  {
    hide CallFn;
    var b := Burn(st);
    if b.Some? {
      var r :| CallFn(LOOPING, "f", [], b.value) == Halt(Exhausted, r) && r.dry;
      assert EvalArgs(LOOPING, [], env, b.value) == Oks([], b.value);
      assert Eval(LOOPING, SELF_CALL.e, env, b.value) == CallFn(LOOPING, "f", [], b.value);
      assert Exec(LOOPING, SELF_CALL, env, b.value) == Ex(Stops(Exhausted), env, r);
      assert Block(LOOPING, [SELF_CALL], env, st) == Ex(Stops(Exhausted), env, r);
    } else {
      assert Block(LOOPING, [SELF_CALL], env, st) == Ex(Stops(Exhausted), env, Dry(st));
    }
  }

  lemma {:induction false} CallExhausts(st: St)
    ensures exists r :: CallFn(LOOPING, "f", [], st) == Halt(Exhausted, r) && r.dry
    decreases st.fuel
  {
    hide Block;
    assert FindFn(LOOPING.fns, "f") == Some(LOOPING.fns[0]);
    var b := Burn(st);
    if b.Some? {
      if Burn(b.value).Some? {
        CallExhausts(Burn(b.value).value);
      }
      var env := Params([], [], SelfEnv(None));
      BodyExhausts(env, b.value);
      var r :| Block(LOOPING, [SELF_CALL], env, b.value) == Ex(Stops(Exhausted), env, r) && r.dry;
      NothingToRelease(env, r);
      assert Invoke(LOOPING, [], [SELF_CALL], false, None, [], st) == Halt(Exhausted, r);
    } else {
      assert CallFn(LOOPING, "f", [], st) == Halt(Exhausted, Dry(st));
    }
  }

  lemma NothingToRelease(env: Env, st: St)
    requires env == Params([], [], SelfEnv(None))
    ensures Returning(LOOPING, false, Ex(Stops(Exhausted), env, st)) == Halt(Exhausted, st)
  {
    assert env == [[]] && env[..0] == [] && OwnedAll(env) == [];
  }

  /** Without the order no amount of fuel is enough. */
  lemma SelfCallNeedsAllFuel(fuel: nat)
    ensures !Ordered(LOOPING) && RanDry(Run(LOOPING, fuel)) && Run(LOOPING, fuel).NoResult?
  {
    assert FnIndex(LOOPING.fns, "f") == 0;
    assert !MayCall(InFn(0), 0);
    assert !OrderedExpr(LOOPING, InFn(0), SELF_CALL.e);
    assert !OrderedStmt(LOOPING, InFn(0), SELF_CALL);
    assert !OrderedBlock(LOOPING, InFn(0), LOOPING.fns[0].body);
    var st := St([], [], fuel, [], [], false);
    if Burn(st).Some? {
      CallExhausts(Burn(st).value);
    }
    BodyExhausts([[]], st);
  }
}

/**
  An object that nothing refers to is left alone: evaluation neither changes it
  nor comes to hold a reference to it.  The initializers of a class rely on it
  for the object under construction, and teardown for the object that is dying.
*/
module EvaluatorFrame {
  import opened Options
  import opened Evaluator
  import opened EvaluatorRefs

  /** The expression does not mention the current object. */
  predicate SelfFree(e: Expr) {
    match e
    case IntLit(_, _) => true
    case BoolLit(_) => true
    case VarRef(name) => name != SELF
    case SelfField(_) => false
    case Paren(inner) => SelfFree(inner)
    case Unary(_, x, _) => SelfFree(x)
    case Binary(_, l, r, _) => SelfFree(l) && SelfFree(r)
    case Cast(x, _) => SelfFree(x)
    case IfValue(c, x, y) => SelfFree(c) && SelfFree(x) && SelfFree(y)
    case FieldGet(base, _) => SelfFree(base)
    case NewObj(_, args) => AllSelfFree(args)
    case Call(_, args) => AllSelfFree(args)
    case MethodCall(recv, _, args) => SelfFree(recv) && AllSelfFree(args)
    case SuperCall(_, _, _) => false
  }

  predicate AllSelfFree(es: seq<Expr>) {
    forall k :: 0 <= k < |es| ==> SelfFree(es[k])
  }

  /** No slot holds the object, unless it is a self slot and those may. */
  predicate Unseen(env: Env, i: Oid, inSelf: bool) {
    forall k :: 0 <= k < |env| ==> UnseenIn(env[k], i, inSelf)
  }

  predicate UnseenIn(s: Scope, i: Oid, inSelf: bool) {
    forall j :: 0 <= j < |s| ==> s[j].val == VObj(i) ==> inSelf && s[j].name == SELF
  }

  /** The object exists and no field refers to it. */
  predicate Hidden(st: St, i: Oid) {
    i < |st.heap| && HeapRefs(st.heap)[i] == 0
  }

  /** It is as it was, and still nothing refers to it. */
  predicate Kept(st: St, after: St, i: Oid) {
    Hidden(st, i) && Hidden(after, i) && |st.heap| <= |after.heap| && after.heap[i] == st.heap[i]
  }

  // ---- the heap ---------------------------------------------------------------------

  lemma ReadHidden(h: seq<Obj>, j: nat, field: Name, i: Oid)
    requires j < |h| && HeapRefs(h)[i] == 0
    ensures GetField(h[j].fields, field) != Some(VObj(i))
  {
    GetFieldRefs(h[j].fields, field);
    HeapRefsAt(h, j);
    assert OptRefs(GetField(h[j].fields, field))[i] <= FieldRefs(h[j].fields)[i] <= HeapRefs(h)[i];
  }

  lemma CountKept(o: Oid, rc: int, st: St, i: Oid)
    requires Hidden(st, i) && o < |st.heap| && o != i
    ensures Kept(st, WithCount(st, o, rc), i)
  {
    HeapRefsCount(st.heap, o, rc);
  }

  lemma RetainKept(v: Value, st: St, i: Oid)
    requires Hidden(st, i) && v != VObj(i)
    ensures Kept(st, Retain(v, st), i)
  {
    if v.VObj? && v.o < |st.heap| {
      CountKept(v.o, st.heap[v.o].rc + 1, st, i);
    }
  }

  lemma ReadKept(v: Value, field: Name, st: St, i: Oid)
    requires Hidden(st, i)
    ensures var r := ReadField(v, field, st);
      Kept(st, r.st, i) && (r.Ok? ==> r.v != VObj(i))
  {
    if v.VObj? && v.o < |st.heap| {
      ReadHidden(st.heap, v.o, field, i);
      var x := GetField(st.heap[v.o].fields, field);
      if x.Some? {
        RetainKept(x.value, st, i);
      }
    }
  }

  lemma FieldsUpdateKept(h: seq<Obj>, o: Oid, fs: seq<Field>, i: Oid)
    requires o < |h| && HeapRefs(h)[i] == 0 && FieldRefs(fs)[i] == 0
    ensures HeapRefs(h[o := h[o].(fields := fs)])[i] == 0
  {
    var h' := h[o := h[o].(fields := fs)];
    HeapRefsUpdate(h, o, h[o].(fields := fs));
    assert HeapRefs(h')[i] <= (HeapRefs(h') + FieldRefs(h[o].fields))[i] == HeapRefs(h)[i] + FieldRefs(fs)[i];
  }

  lemma SetKept(st: St, o: Oid, field: Name, v: Value, i: Oid)
    requires Hidden(st, i) && o < |st.heap| && v != VObj(i)
    ensures HeapRefs(WithFields(st, o, SetField(st.heap[o].fields, field, v)).heap)[i] == 0
  {
    var fs := st.heap[o].fields;
    SetFieldRefs(fs, field, v);
    HeapRefsAt(st.heap, o);
    assert FieldRefs(fs)[i] <= HeapRefs(st.heap)[i];
    assert FieldRefs(SetField(fs, field, v))[i] <= (FieldRefs(fs) + Refs(v))[i];
    FieldsUpdateKept(st.heap, o, SetField(fs, field, v), i);
  }

  lemma DelKept(st: St, o: Oid, field: Name, i: Oid)
    requires Hidden(st, i) && o < |st.heap|
    ensures HeapRefs(WithFields(st, o, DelField(st.heap[o].fields, field)).heap)[i] == 0
  {
    var fs := st.heap[o].fields;
    DelFieldRefs(fs, field);
    HeapRefsAt(st.heap, o);
    assert FieldRefs(DelField(fs, field))[i] <= FieldRefs(fs)[i] <= HeapRefs(st.heap)[i];
    FieldsUpdateKept(st.heap, o, DelField(fs, field), i);
  }

  // ---- environments -------------------------------------------------------------------

  lemma {:induction false} LookupUnseen(env: Env, name: Name, i: Oid, free: bool)
    requires Unseen(env, i, free) && (free ==> name != SELF)
    ensures Lookup(env, name) != Some(VObj(i))
  {
    if env != [] {
      LookupScopeUnseen(env[|env| - 1], name, i, free);
      LookupUnseen(env[..|env| - 1], name, i, free);
    }
  }

  lemma {:induction false} LookupScopeUnseen(s: Scope, name: Name, i: Oid, free: bool)
    requires UnseenIn(s, i, free) && (free ==> name != SELF)
    ensures LookupScope(s, name) != Some(VObj(i))
  {
    if s != [] && s[0].name != name {
      LookupScopeUnseen(s[1..], name, i, free);
    }
  }

  lemma {:induction false} SetSlotUnseen(s: Scope, n: Slot, i: Oid, free: bool)
    requires UnseenIn(s, i, free) && n.val != VObj(i)
    ensures UnseenIn(SetSlot(s, n), i, free)
  {
    if s != [] && s[0].name != n.name {
      SetSlotUnseen(s[1..], n, i, free);
    }
  }

  lemma DeclareUnseen(env: Env, n: Slot, i: Oid, free: bool)
    requires Unseen(env, i, free) && n.val != VObj(i)
    ensures Unseen(Declare(env, n), i, free)
  {
    if env != [] {
      SetSlotUnseen(env[|env| - 1], n, i, free);
    }
  }

  lemma {:induction false} SetVarUnseen(env: Env, name: Name, v: Value, i: Oid)
    requires Unseen(env, i, false) && v != VObj(i)
    ensures Unseen(SetVar(env, name, v), i, false)
  {
    if env != [] {
      SetSlotUnseen(env[|env| - 1], Slot(name, v, true), i, false);
      SetVarUnseen(env[..|env| - 1], name, v, i);
    }
  }

  lemma {:induction false} FindSlotUnseen(env: Env, name: Name, i: Oid)
    requires Unseen(env, i, false) && FindSlot(env, name).Some?
    ensures FindSlot(env, name).value.val != VObj(i)
  {
    if SlotOf(env[|env| - 1], name).Some? {
      SlotOfUnseen(env[|env| - 1], name, i);
    } else {
      FindSlotUnseen(env[..|env| - 1], name, i);
    }
  }

  lemma {:induction false} SlotOfUnseen(s: Scope, name: Name, i: Oid)
    requires UnseenIn(s, i, false) && SlotOf(s, name).Some?
    ensures SlotOf(s, name).value.val != VObj(i)
  {
    if s[0].name != name {
      SlotOfUnseen(s[1..], name, i);
    }
  }

  lemma {:induction false} ParamsUnseen(names: seq<Name>, vs: seq<Value>, env: Env, i: Oid, free: bool)
    requires Unseen(env, i, free) && VObj(i) !in vs
    ensures Unseen(Params(names, vs, env), i, free)
  {
    if names != [] && vs != [] {
      DeclareUnseen(env, Slot(names[0], vs[0], false), i, free);
      ParamsUnseen(names[1..], vs[1..], Declare(env, Slot(names[0], vs[0], false)), i, free);
    }
  }

  lemma {:induction false} OwnedUnseen(s: Scope, i: Oid)
    requires UnseenIn(s, i, false)
    ensures VObj(i) !in Owned(s)
  {
    if s != [] {
      OwnedUnseen(s[1..], i);
    }
  }

  lemma {:induction false} OwnedAllUnseen(env: Env, i: Oid)
    requires Unseen(env, i, false)
    ensures VObj(i) !in OwnedAll(env)
  {
    if env != [] {
      OwnedAllUnseen(env[..|env| - 1], i);
      OwnedUnseen(env[|env| - 1], i);
    }
  }

  // ---- expressions -----------------------------------------------------------------------

  lemma {:induction false} KeptEval(p: Program, e: Expr, env: Env, st: St, i: Oid, free: bool)
    requires Hidden(st, i) && Unseen(env, i, free) && (free ==> SelfFree(e))
    ensures var r := Eval(p, e, env, st);
      Kept(st, r.st, i) && (r.Ok? ==> r.v != VObj(i))
    decreases st.fuel, 4, e, 1
  {
    hide HeapRefs, Unseen;
    match e
    case IntLit(_, _) =>
    case BoolLit(_) =>
    case VarRef(name) =>
      LookupUnseen(env, name, i, free);
      if Lookup(env, name).Some? {
        RetainKept(Lookup(env, name).value, st, i);
      }
    case SelfField(field) =>
      if Lookup(env, SELF).Some? {
        ReadKept(Lookup(env, SELF).value, field, st, i);
      }
    case Paren(inner) => KeptEval(p, inner, env, st, i, free);
    case Unary(_, x, _) => KeptEval(p, x, env, st, i, free);
    case Binary(_, _, _, _) => KeptBinary(p, e, env, st, i, free);
    case Cast(x, _) => KeptEval(p, x, env, st, i, free);
    case IfValue(c, x, y) =>
      KeptEval(p, c, env, st, i, free);
      var r := Eval(p, c, env, st);
      if r.Ok? && r.v.VBool? {
        KeptEval(p, if r.v.b then x else y, env, r.st, i, free);
      }
    case FieldGet(_, _) => KeptFieldGet(p, e, env, st, i, free);
    case NewObj(_, _) => KeptNew(p, e, env, st, i, free);
    case Call(_, _) => KeptCall(p, e, env, st, i, free);
    case MethodCall(_, _, _) => KeptMethodCall(p, e, env, st, i, free);
    case SuperCall(_, _, _) => KeptSuperCall(p, e, env, st, i);
  }

  lemma {:induction false} KeptBinary(p: Program, e: Expr, env: Env, st: St, i: Oid, free: bool)
    requires e.Binary? && Hidden(st, i) && Unseen(env, i, free) && (free ==> SelfFree(e))
    ensures var r := EvalBinary(p, e, env, st);
      Kept(st, r.st, i) && (r.Ok? ==> r.v != VObj(i))
    decreases st.fuel, 4, e, 0
  {
    hide HeapRefs, Unseen;
    KeptEval(p, e.l, env, st, i, free);
    var a := Eval(p, e.l, env, st);
    if a.Ok? {
      KeptEval(p, e.r, env, a.st, i, free);
    }
  }

  lemma {:induction false} KeptFieldGet(p: Program, e: Expr, env: Env, st: St, i: Oid, free: bool)
    requires e.FieldGet? && Hidden(st, i) && Unseen(env, i, free) && (free ==> SelfFree(e))
    ensures var r := Eval(p, e, env, st);
      Kept(st, r.st, i) && (r.Ok? ==> r.v != VObj(i))
    decreases st.fuel, 4, e, 0
  {
    hide HeapRefs, Unseen;
    KeptEval(p, e.base, env, st, i, free);
    var r := Eval(p, e.base, env, st);
    if r.Ok? {
      ReadKept(r.v, e.field, r.st, i);
      var got := ReadField(r.v, e.field, r.st);
      if got.Ok? {
        KeptRelease(p, r.v, got.st, i);
      }
    }
  }

  lemma {:induction false} KeptNew(p: Program, e: Expr, env: Env, st: St, i: Oid, free: bool)
    requires e.NewObj? && Hidden(st, i) && Unseen(env, i, free) && (free ==> SelfFree(e))
    ensures var r := Eval(p, e, env, st);
      Kept(st, r.st, i) && (r.Ok? ==> r.v != VObj(i))
    decreases st.fuel, 4, e, 0
  {
    hide HeapRefs, Unseen;
    KeptArgs(p, e.args, env, st, i, free);
    var vs := EvalArgs(p, e.args, env, st);
    if vs.Oks? {
      KeptConstruct(p, e.cls, vs.vs, vs.st, i);
      var r := Construct(p, e.cls, vs.vs, vs.st);
      if r.Ok? {
        KeptReleaseAll(p, vs.vs, r.st, i);
      }
    }
  }

  lemma {:induction false} KeptCall(p: Program, e: Expr, env: Env, st: St, i: Oid, free: bool)
    requires e.Call? && Hidden(st, i) && Unseen(env, i, free) && (free ==> SelfFree(e))
    ensures var r := Eval(p, e, env, st);
      Kept(st, r.st, i) && (r.Ok? ==> r.v != VObj(i))
    decreases st.fuel, 4, e, 0
  {
    hide HeapRefs, Unseen;
    KeptArgs(p, e.args, env, st, i, free);
    var vs := EvalArgs(p, e.args, env, st);
    if vs.Oks? {
      KeptCallFn(p, e.fn, vs.vs, vs.st, i);
      var r := CallFn(p, e.fn, vs.vs, vs.st);
      if r.Ok? {
        KeptReleaseAll(p, vs.vs, r.st, i);
      }
    }
  }

  lemma {:induction false} KeptMethodCall(p: Program, e: Expr, env: Env, st: St, i: Oid, free: bool)
    requires e.MethodCall? && Hidden(st, i) && Unseen(env, i, free) && (free ==> SelfFree(e))
    ensures var r := EvalMethodCall(p, e, env, st);
      Kept(st, r.st, i) && (r.Ok? ==> r.v != VObj(i))
    decreases st.fuel, 4, e, 0
  {
    hide HeapRefs, Unseen;
    KeptEval(p, e.recv, env, st, i, free);
    var o := Eval(p, e.recv, env, st);
    if o.Ok? && o.v.VObj? {
      KeptArgs(p, e.args, env, o.st, i, free);
      var vs := EvalArgs(p, e.args, env, o.st);
      if vs.Oks? && o.v.o < |vs.st.heap| {
        KeptDispatch(p, Resolve(p, Chain(p, vs.st.heap[o.v.o].cls), e.slot), o.v, vs.vs, vs.st, i);
        var m := Resolve(p, Chain(p, vs.st.heap[o.v.o].cls), e.slot);
        if m.Some? {
          var r := Invoke(p, m.value.params, m.value.body, m.value.hasResult, Some(o.v), vs.vs, vs.st);
          if r.Ok? {
            KeptReleaseAll(p, vs.vs, r.st, i);
            var d := ReleaseAll(p, vs.vs, r.st);
            if d.Done? {
              KeptRelease(p, o.v, d.st, i);
            }
          }
        }
      }
    }
  }

  lemma {:induction false} KeptSuperCall(p: Program, e: Expr, env: Env, st: St, i: Oid)
    requires e.SuperCall? && Hidden(st, i) && Unseen(env, i, false)
    ensures var r := EvalSuperCall(p, e, env, st);
      Kept(st, r.st, i) && (r.Ok? ==> r.v != VObj(i))
    decreases st.fuel, 4, e, 0
  {
    hide HeapRefs, Unseen;
    LookupUnseen(env, SELF, i, false);
    var self := Lookup(env, SELF);
    if self.Some? {
      KeptArgs(p, e.args, env, st, i, false);
      var vs := EvalArgs(p, e.args, env, st);
      if vs.Oks? {
        var chain := Chain(p, e.owner);
        var m := if chain == [] then None else Resolve(p, chain[1..], e.slot);
        KeptDispatch(p, m, self.value, vs.vs, vs.st, i);
        if m.Some? {
          var r := Invoke(p, m.value.params, m.value.body, m.value.hasResult, Some(self.value), vs.vs, vs.st);
          if r.Ok? {
            KeptReleaseAll(p, vs.vs, r.st, i);
          }
        }
      }
    }
  }

  lemma {:induction false} KeptDispatch(p: Program, m: Option<MethodDecl>, self: Value, vs: seq<Value>, st: St, i: Oid)
    requires Hidden(st, i) && self != VObj(i) && VObj(i) !in vs
    ensures m.Some? ==>
      var r := Invoke(p, m.value.params, m.value.body, m.value.hasResult, Some(self), vs, st);
      Kept(st, r.st, i) && (r.Ok? ==> r.v != VObj(i))
    decreases st.fuel, 3, 1
  {
    hide HeapRefs;
    if m.Some? {
      KeptInvoke(p, m.value.params, m.value.body, m.value.hasResult, Some(self), vs, st, i);
    }
  }

  lemma {:induction false} KeptArgs(p: Program, es: seq<Expr>, env: Env, st: St, i: Oid, free: bool)
    requires Hidden(st, i) && Unseen(env, i, free) && (free ==> AllSelfFree(es))
    ensures var r := EvalArgs(p, es, env, st);
      Kept(st, r.st, i) && (r.Oks? ==> VObj(i) !in r.vs)
    decreases st.fuel, 4, es, 0
  {
    hide HeapRefs, Unseen;
    if es != [] {
      KeptEval(p, es[0], env, st, i, free);
      var a := Eval(p, es[0], env, st);
      if a.Ok? {
        KeptArgs(p, es[1..], env, a.st, i, free);
      }
    }
  }

  // ---- calls -------------------------------------------------------------------------------

  lemma {:induction false} KeptCallFn(p: Program, name: Name, vs: seq<Value>, st: St, i: Oid)
    requires Hidden(st, i) && VObj(i) !in vs
    ensures var r := CallFn(p, name, vs, st);
      Kept(st, r.st, i) && (r.Ok? ==> r.v != VObj(i))
    decreases st.fuel, 3, 1
  {
    hide HeapRefs;
    var f := FindFn(p.fns, name);
    if f.Some? {
      KeptInvoke(p, f.value.params, f.value.body, f.value.hasResult, None, vs, st, i);
    }
  }

  lemma {:induction false} KeptInvoke(p: Program, params: seq<Name>, body: seq<Stmt>, hasResult: bool,
                                      self: Option<Value>, vs: seq<Value>, st: St, i: Oid)
    requires Hidden(st, i) && VObj(i) !in vs && self != Some(VObj(i))
    ensures var r := Invoke(p, params, body, hasResult, self, vs, st);
      Kept(st, r.st, i) && (r.Ok? ==> r.v != VObj(i))
    decreases st.fuel, 3, 0
  {
    hide HeapRefs;
    var b := Burn(st);
    if b.Some? {
      var env := Params(params, vs, SelfEnv(self));
      ParamsUnseen(params, vs, SelfEnv(self), i, false);
      KeptBlock(p, body, env, b.value, i);
      KeptReturning(p, hasResult, Block(p, body, env, b.value), i);
    }
  }

  lemma {:induction false} KeptReturning(p: Program, hasResult: bool, x: Ex, i: Oid)
    requires Hidden(x.st, i) && Unseen(x.env, i, false) && x.flow != Returns(VObj(i))
    ensures var r := Returning(p, hasResult, x);
      Kept(x.st, r.st, i) && (r.Ok? ==> r.v != VObj(i))
    decreases x.st.fuel, 3, 0
  {
    hide HeapRefs, Unseen;
    OwnedAllUnseen(x.env, i);
    KeptReleaseAll(p, OwnedAll(x.env), x.st, i);
  }

  // ---- releases -------------------------------------------------------------------------------

  lemma {:induction false} KeptRelease(p: Program, v: Value, st: St, i: Oid)
    requires Hidden(st, i) && v != VObj(i)
    ensures Kept(st, Release(p, v, st).st, i)
    decreases st.fuel, 1
  {
    hide HeapRefs;
    if v.VObj? && v.o < |st.heap| {
      var rc := st.heap[v.o].rc - 1;
      CountKept(v.o, rc, st, i);
      if rc == 0 {
        KeptTeardown(p, v.o, WithCount(st, v.o, rc), i);
      }
    }
  }

  lemma {:induction false} KeptReleaseAll(p: Program, vs: seq<Value>, st: St, i: Oid)
    requires Hidden(st, i) && VObj(i) !in vs
    ensures Kept(st, ReleaseAll(p, vs, st).st, i)
    decreases st.fuel, 2, |vs|
  {
    hide HeapRefs;
    if vs != [] {
      KeptRelease(p, vs[|vs| - 1], st, i);
      var d := Release(p, vs[|vs| - 1], st);
      if d.Done? {
        KeptReleaseAll(p, vs[..|vs| - 1], d.st, i);
      }
    }
  }

  lemma {:induction false} KeptTeardown(p: Program, o: Oid, st: St, i: Oid)
    requires Hidden(st, i) && o < |st.heap| && o != i
    ensures Kept(st, Teardown(p, o, st).st, i)
    decreases st.fuel, 0
  {
    hide HeapRefs;
    var b := Burn(st.(torn := st.torn + [o]));
    if b.Some? {
      var chain := Chain(p, st.heap[o].cls);
      KeptDeinits(p, chain, o, b.value, i);
      var d := Deinits(p, chain, o, b.value);
      if d.Done? {
        KeptDropFields(p, FieldOrder(p, chain), o, d.st, i);
      }
    }
  }

  lemma {:induction false} KeptDeinits(p: Program, chain: seq<ClassId>, o: Oid, st: St, i: Oid)
    requires Declared(p, chain) && Hidden(st, i) && o != i
    ensures Kept(st, Deinits(p, chain, o, st).st, i)
    decreases st.fuel, 9, |chain|
  {
    hide HeapRefs;
    if chain != [] {
      if p.classes[chain[0]].deinit.None? {
        KeptDeinits(p, chain[1..], o, st, i);
      } else {
        var body := p.classes[chain[0]].deinit.value;
        KeptBlock(p, body, SelfEnv(Some(VObj(o))), st, i);
        KeptDeinits(p, chain[1..], o, Block(p, body, SelfEnv(Some(VObj(o))), st).st, i);
      }
    }
  }

  lemma {:induction false} KeptDropFields(p: Program, names: seq<Name>, o: Oid, st: St, i: Oid)
    requires Hidden(st, i) && o != i
    ensures Kept(st, DropFields(p, names, o, st).st, i)
    decreases st.fuel, 2, |names|
  {
    hide HeapRefs;
    if names != [] && o < |st.heap| {
      var v := GetField(st.heap[o].fields, names[0]);
      if v.Some? && v.value.VObj? {
        ReadHidden(st.heap, o, names[0], i);
        DelKept(st, o, names[0], i);
        var st1 := WithFields(st, o, DelField(st.heap[o].fields, names[0]));
        KeptRelease(p, v.value, st1, i);
        var d := Release(p, v.value, st1);
        if d.Done? {
          KeptDropFields(p, names[1..], o, d.st, i);
        }
      } else {
        KeptDropFields(p, names[1..], o, st, i);
      }
    }
  }

  // ---- construction ------------------------------------------------------------------------------

  lemma {:induction false} InitialScalar(p: Program, chain: seq<ClassId>, fs: seq<Field>)
    requires Declared(p, chain) && FieldRefs(fs) == multiset{}
    ensures FieldRefs(Initial(p, chain, fs)) == multiset{}
  {
    if chain != [] {
      InitialOwnScalar(p.classes[chain[0]].fields, fs);
      InitialScalar(p, chain[1..], InitialOwn(p.classes[chain[0]].fields, fs));
    }
  }

  lemma {:induction false} InitialOwnScalar(ds: seq<FieldDecl>, fs: seq<Field>)
    requires FieldRefs(fs) == multiset{}
    ensures FieldRefs(InitialOwn(ds, fs)) == multiset{}
  {
    if ds != [] {
      var next := if ds[0].initial.Some? then SetField(fs, ds[0].name, VInt(ds[0].initial.value)) else fs;
      if ds[0].initial.Some? {
        SetFieldRefs(fs, ds[0].name, VInt(ds[0].initial.value));
      }
      assert FieldRefs(next) == multiset{};
      InitialOwnScalar(ds[1..], next);
    }
  }

  lemma {:induction false} KeptConstruct(p: Program, cls: ClassId, vs: seq<Value>, st: St, i: Oid)
    requires Hidden(st, i) && VObj(i) !in vs
    ensures var r := Construct(p, cls, vs, st);
      Kept(st, r.st, i) && (r.Ok? ==> r.v != VObj(i))
    decreases st.fuel, 3, 0
  {
    hide HeapRefs;
    var b := Burn(st);
    if b.Some? {
      var obj := Obj(cls, Initial(p, Chain(p, cls), []), 1);
      InitialScalar(p, Chain(p, cls), []);
      HeapRefsAppend(st.heap, obj);
      KeptRunInit(p, cls, |st.heap|, vs, b.value.(heap := b.value.heap + [obj]), i);
    }
  }

  lemma {:induction false} KeptRunInit(p: Program, cls: ClassId, o: Oid, vs: seq<Value>, st: St, i: Oid)
    requires Hidden(st, i) && o != i && VObj(i) !in vs
    ensures Kept(st, RunInit(p, cls, o, vs, st).st, i)
    decreases st.fuel, 7, cls, 1
  {
    hide HeapRefs;
    if cls < |p.classes| && p.classes[cls].init.Some? {
      var init := p.classes[cls].init.value;
      var env := Params(init.params, vs, SelfEnv(Some(VObj(o))));
      ParamsUnseen(init.params, vs, SelfEnv(Some(VObj(o))), i, false);
      KeptAssigns(p, init.assigns, o, env, st, i);
      var a := Assigns(p, init.assigns, o, env, st);
      if a.Done? {
        KeptRunSuper(p, cls, o, env, a.st, i);
        var s := RunSuper(p, cls, o, env, a.st);
        if s.Done? {
          KeptBlock(p, init.post, env, s.st, i);
        }
      }
    }
  }

  lemma {:induction false} KeptRunSuper(p: Program, cls: ClassId, o: Oid, env: Env, st: St, i: Oid)
    requires cls < |p.classes| && p.classes[cls].init.Some?
    requires Hidden(st, i) && o != i && Unseen(env, i, false)
    ensures Kept(st, RunSuper(p, cls, o, env, st).st, i)
    decreases st.fuel, 7, cls, 0
  {
    hide HeapRefs, Unseen;
    var sup := p.classes[cls].init.value.superArgs;
    if sup.Some? {
      KeptArgs(p, sup.value, env, st, i, false);
      var vs := EvalArgs(p, sup.value, env, st);
      if vs.Oks? && p.classes[cls].parent.Some? && p.classes[cls].parent.value < cls {
        KeptRunInit(p, p.classes[cls].parent.value, o, vs.vs, vs.st, i);
        var r := RunInit(p, p.classes[cls].parent.value, o, vs.vs, vs.st);
        if r.Done? {
          KeptReleaseAll(p, vs.vs, r.st, i);
        }
      }
    }
  }

  lemma {:induction false} KeptAssigns(p: Program, todo: seq<InitAssign>, o: Oid, env: Env, st: St, i: Oid)
    requires Hidden(st, i) && o != i && Unseen(env, i, false)
    ensures Kept(st, Assigns(p, todo, o, env, st).st, i)
    decreases st.fuel, 5, |todo|
  {
    hide HeapRefs, Unseen;
    if todo != [] && o < |st.heap| {
      ReadHidden(st.heap, o, todo[0].field, i);
      var was := GetField(st.heap[o].fields, todo[0].field);
      KeptEval(p, todo[0].e, env, st, i, false);
      var x := Eval(p, todo[0].e, env, st);
      if x.Ok? {
        SetKept(x.st, o, todo[0].field, x.v, i);
        var stored := StoreField(p, VObj(o), todo[0].field, x.v, x.st);
        if stored.Done? {
          KeptRelease(p, if was.Some? then was.value else VNone, stored.st, i);
          var d := Release(p, if was.Some? then was.value else VNone, stored.st);
          if d.Done? {
            KeptAssigns(p, todo[1..], o, env, d.st, i);
          }
        }
      }
    }
  }

  lemma {:induction false} KeptReplace(p: Program, holder: Value, field: Name, v: Value, st: St, i: Oid)
    requires Hidden(st, i) && holder != VObj(i) && v != VObj(i)
    ensures Kept(st, Replace(p, holder, field, v, st).st, i)
    decreases st.fuel, 2, 0
  {
    hide HeapRefs;
    if holder.VObj? && holder.o < |st.heap| {
      ReadHidden(st.heap, holder.o, field, i);
      var was := GetField(st.heap[holder.o].fields, field);
      SetKept(st, holder.o, field, v, i);
      var stored := StoreField(p, holder, field, v, st);
      if stored.Done? {
        KeptRelease(p, if was.Some? then was.value else VNone, stored.st, i);
      }
    }
  }

  // ---- statements ---------------------------------------------------------------------------------

  /** What a statement leaves behind. */
  predicate KeptBy(st: St, x: Ex, i: Oid) {
    && Kept(st, x.st, i)
    && Unseen(x.env, i, false)
    && x.flow != Returns(VObj(i))
  }

  lemma {:induction false} KeptBlock(p: Program, ss: seq<Stmt>, env: Env, st: St, i: Oid)
    requires Hidden(st, i) && Unseen(env, i, false)
    ensures KeptBy(st, Block(p, ss, env, st), i)
    decreases st.fuel, 6, |ss|
  {
    hide HeapRefs;
    if ss != [] {
      var b := Burn(st);
      if b.Some? {
        KeptExec(p, ss[0], env, b.value, i);
        var x := Exec(p, ss[0], env, b.value);
        if x.flow.Next? {
          KeptBlock(p, ss[1..], x.env, x.st, i);
        }
      }
    }
  }

  lemma {:induction false} KeptExec(p: Program, s: Stmt, env: Env, st: St, i: Oid)
    requires Hidden(st, i) && Unseen(env, i, false)
    ensures KeptBy(st, Exec(p, s, env, st), i)
    decreases st.fuel, 8, 1
  {
    hide HeapRefs, Unseen;
    match s
    case Let(name, init) =>
      KeptEval(p, init, env, st, i, false);
      var x := Eval(p, init, env, st);
      if x.Ok? {
        DeclareUnseen(env, Slot(name, x.v, true), i, false);
      }
    case Assign(_, _, _, _) => KeptAssign(p, s, env, st, i);
    case FieldAssign(name, field, e) => KeptFieldAssign(p, s, env, st, i, name, field, e);
    case SelfFieldAssign(field, e) => KeptFieldAssign(p, s, env, st, i, SELF, field, e);
    case ExprStmt(e) =>
      KeptEval(p, e, env, st, i, false);
      var x := Eval(p, e, env, st);
      if x.Ok? {
        KeptRelease(p, x.v, x.st, i);
      }
    case Print(parts) => KeptParts(p, parts, env, st, i);
    case If(_, _, _) => KeptIf(p, s, env, st, i);
    case ForRange(loopVar, lo, hi, inclusive, body) =>
      KeptIterate(p, loopVar, lo, if inclusive then hi + 1 else hi, body, env, st, i);
    case CounterLoop(counter, limit, body) =>
      DeclareUnseen(env, Slot(counter, VInt(0), true), i, false);
      KeptCount(p, counter, limit, body, 0, Declare(env, Slot(counter, VInt(0), true)), Lose(st, env, counter), i);
    case Break =>
    case Continue =>
    case Return(result) =>
      if result.Some? {
        KeptEval(p, result.value, env, st, i, false);
      }
    case Exit(_) =>
  }

  lemma {:induction false} KeptAssign(p: Program, s: Stmt, env: Env, st: St, i: Oid)
    requires s.Assign? && Hidden(st, i) && Unseen(env, i, false)
    ensures KeptBy(st, Exec(p, s, env, st), i)
    decreases st.fuel, 8, 0
  {
    hide HeapRefs, Unseen;
    KeptEval(p, s.e, env, st, i, false);
    var x := Eval(p, s.e, env, st);
    if x.Ok? {
      var y := Combine(env, s.name, s.op, s.t, x.v, x.st);
      if y.Ok? {
        var was := FindSlot(env, s.name);
        if was.Some? {
          FindSlotUnseen(env, s.name, i);
          SetVarUnseen(env, s.name, y.v, i);
          if was.value.owned {
            KeptRelease(p, was.value.val, y.st, i);
          }
        }
      }
    }
  }

  lemma {:induction false} KeptFieldAssign(p: Program, s: Stmt, env: Env, st: St, i: Oid,
                                           name: Name, field: Name, e: Expr)
    requires s == FieldAssign(name, field, e) || (s == SelfFieldAssign(field, e) && name == SELF)
    requires Hidden(st, i) && Unseen(env, i, false)
    ensures KeptBy(st, Exec(p, s, env, st), i)
    decreases st.fuel, 8, 0
  {
    hide HeapRefs, Unseen;
    LookupUnseen(env, name, i, false);
    var holder := Lookup(env, name);
    if holder.Some? {
      KeptEval(p, e, env, st, i, false);
      var x := Eval(p, e, env, st);
      if x.Ok? {
        KeptReplace(p, holder.value, field, x.v, x.st, i);
      }
    }
  }

  lemma {:induction false} KeptIf(p: Program, s: Stmt, env: Env, st: St, i: Oid)
    requires s.If? && Hidden(st, i) && Unseen(env, i, false)
    ensures KeptBy(st, Exec(p, s, env, st), i)
    decreases st.fuel, 8, 0
  {
    hide HeapRefs;
    KeptEval(p, s.cond, env, st, i, false);
    var x := Eval(p, s.cond, env, st);
    if x.Ok? && x.v.VBool? {
      if x.v.b {
        KeptBlock(p, s.thenB, Push(env), x.st, i);
        KeptPop(p, Block(p, s.thenB, Push(env), x.st), i);
      } else if s.elseB.ElseBlock? {
        KeptBlock(p, s.elseB.body, Push(env), x.st, i);
        KeptPop(p, Block(p, s.elseB.body, Push(env), x.st), i);
      }
    }
  }

  lemma {:induction false} KeptParts(p: Program, parts: seq<Part>, env: Env, st: St, i: Oid)
    requires Hidden(st, i) && Unseen(env, i, false)
    ensures Kept(st, EvalParts(p, parts, env, st).st, i)
    decreases st.fuel, 5, |parts|
  {
    hide HeapRefs, Unseen;
    if parts != [] {
      if parts[0].Lit? {
        KeptParts(p, parts[1..], env, st, i);
      } else {
        KeptEval(p, parts[0].e, env, st, i, false);
        var x := Eval(p, parts[0].e, env, st);
        if x.Ok? {
          KeptParts(p, parts[1..], env, x.st, i);
        }
      }
    }
  }

  lemma {:induction false} KeptPop(p: Program, x: Ex, i: Oid)
    requires Hidden(x.st, i) && Unseen(x.env, i, false) && x.flow != Returns(VObj(i))
    ensures KeptBy(x.st, Pop(p, x), i)
    decreases x.st.fuel, 3, 0
  {
    hide HeapRefs;
    if x.env != [] {
      OwnedUnseen(x.env[|x.env| - 1], i);
      KeptReleaseAll(p, Owned(x.env[|x.env| - 1]), x.st, i);
    }
  }

  lemma {:induction false} KeptRound(p: Program, x: Ex, i: Oid)
    requires Hidden(x.st, i) && Unseen(x.env, i, false) && x.flow != Returns(VObj(i))
    ensures KeptBy(x.st, Round(p, x), i)
    decreases x.st.fuel, 3, 1
  {
    hide HeapRefs, Unseen;
    KeptPop(p, x, i);
    KeptPop(p, x.(flow := Next), i);
  }

  lemma PushUnseen(env: Env, i: Oid)
    requires Unseen(env, i, false)
    ensures Unseen(Push(env), i, false)
  {
  }

  lemma {:induction false} KeptIterate(p: Program, loopVar: Name, k: int, hi: int, body: seq<Stmt>,
                                       env: Env, st: St, i: Oid)
    requires Hidden(st, i) && Unseen(env, i, false)
    ensures KeptBy(st, Iterate(p, loopVar, k, hi, body, env, st), i)
    decreases st.fuel, 7, if k < hi then hi - k else 0, 0
  {
    hide HeapRefs, Unseen, Declare, Block, Round;
    if k < hi {
      var inner := Declare(Push(env), Slot(loopVar, VInt(k), true));
      PushUnseen(env, i);
      DeclareUnseen(Push(env), Slot(loopVar, VInt(k), true), i, false);
      KeptBlock(p, body, inner, st, i);
      KeptRound(p, Block(p, body, inner, st), i);
      var x := Round(p, Block(p, body, inner, st));
      if x.flow.Next? {
        KeptIterate(p, loopVar, k + 1, hi, body, x.env, x.st, i);
      }
    }
  }

  lemma {:induction false} KeptCount(p: Program, counter: Name, limit: int, body: seq<Stmt>, guard: nat,
                                     env: Env, st: St, i: Oid)
    requires Hidden(st, i) && Unseen(env, i, false)
    ensures KeptBy(st, Count(p, counter, limit, body, guard, env, st), i)
    decreases st.fuel, 7, if guard <= GUARD_LIMIT then GUARD_LIMIT + 1 - guard else 0, 0
  {
    hide HeapRefs, Unseen, Block, Round;
    if CounterTest(env, counter, limit, guard).Next? {
      PushUnseen(env, i);
      KeptBlock(p, body, Push(env), st, i);
      KeptRound(p, Block(p, body, Push(env), st), i);
      var x := Round(p, Block(p, body, Push(env), st));
      if x.flow.Next? {
        KeptCount(p, counter, limit, body, guard + 1, x.env, x.st, i);
      }
    }
  }
}

/**
  Variables and objects through statements and expressions: what is assigned is what is
  read, and what a constructor is given is what its object holds.
*/
module EvaluatorObjects {
  import opened Options
  import opened Evaluator
  import opened EvaluatorBindings

  // ---- variables ------------------------------------------------------------------------

  /** A declared name means the value of its initializer. */
  lemma DeclaredIsRead(p: Program, name: Name, e: Expr, env: Env, st: St)
    requires env != [] && Eval(p, e, env, st).Ok?
    ensures var x := Exec(p, Let(name, e), env, st);
      && x.flow.Next? && FindSlot(x.env, name) == Some(Slot(name, Eval(p, e, env, st).v, true))
      && Lookup(x.env, name) == Some(Eval(p, e, env, st).v)
      && forall y :: y != name ==> Lookup(x.env, y) == Lookup(env, y)
  {
    var v := Eval(p, e, env, st).v;
    hide Eval, Lookup, Declare;
    LookupAfterDeclare(env, Slot(name, v, true), name);
    forall y | y != name ensures Lookup(Declare(env, Slot(name, v, true)), y) == Lookup(env, y) {
      LookupAfterDeclare(env, Slot(name, v, true), y);
    }
  }

  /** An assigned name means the value assigned, whether or not the release of the old one
      succeeds. */
  lemma AssignedIsRead(p: Program, name: Name, e: Expr, t: IntType, env: Env, st: St)
    requires Eval(p, e, env, st).Ok? && Lookup(env, name).Some?
    ensures var x := Exec(p, Assign(name, e, None, t), env, st);
      && Lookup(x.env, name) == Some(Eval(p, e, env, st).v)
      && forall y :: y != name ==> Lookup(x.env, y) == Lookup(env, y)
  {
    var v := Eval(p, e, env, st).v;
    hide Eval, Lookup, SetVar, Release, FindSlot;
    SlotHoldsMeaning(env, name);
    LookupAfterAssign(env, name, v, name);
    forall y | y != name ensures Lookup(SetVar(env, name, v), y) == Lookup(env, y) {
      LookupAfterAssign(env, name, v, y);
    }
  }

  // ---- fields ------------------------------------------------------------------------------

  /** Reading a field through a name takes a reference to the value and leaves everything
      else as it was. */
  lemma FieldIsRead(p: Program, name: Name, o: Oid, f: Name, env: Env, st: St)
    requires Lookup(env, name) == Some(VObj(o)) && o < |st.heap| && st.heap[o].rc > 0
    requires GetField(st.heap[o].fields, f).Some?
    ensures var v := GetField(st.heap[o].fields, f).value;
      Eval(p, FieldGet(VarRef(name), f), env, st) == Ok(v, Retain(v, st))
  {
    hide Teardown;
    var v := GetField(st.heap[o].fields, f).value;
    var st1 := Retain(VObj(o), st);
    assert Eval(p, VarRef(name), env, st) == Ok(VObj(o), st1);
    assert ReadField(VObj(o), f, st1) == Ok(v, Retain(v, st1));
    ReleaseUndoes(p, o, v, st);
  }

  lemma ReleaseUndoes(p: Program, o: Oid, v: Value, st: St)
    requires o < |st.heap| && st.heap[o].rc > 0
    ensures Release(p, VObj(o), Retain(v, Retain(VObj(o), st))) == Done(Retain(v, st))
  {
    hide Teardown;
    var st2 := Retain(v, Retain(VObj(o), st));
    assert st2.heap[o].rc > 1;
    assert WithCount(st2, o, st2.heap[o].rc - 1).heap == Retain(v, st).heap;
  }

  /** A field of self is the field of the object self means. */
  lemma SelfFieldIsField(p: Program, f: Name, o: Oid, env: Env, st: St)
    requires Lookup(env, SELF) == Some(VObj(o)) && o < |st.heap| && st.heap[o].rc > 0
    requires GetField(st.heap[o].fields, f).Some?
    ensures Eval(p, SelfField(f), env, st) == Eval(p, FieldGet(VarRef(SELF), f), env, st)
  {
    FieldIsRead(p, SELF, o, f, env, st);
  }

  lemma SelfAssignIsAssign(p: Program, f: Name, e: Expr, env: Env, st: St)
    ensures Exec(p, SelfFieldAssign(f, e), env, st) == Exec(p, FieldAssign(SELF, f, e), env, st)
  {
    hide Replace, Eval;
  }

  /** After an assignment to a field whose old value is a scalar, the object the name means
      holds the value assigned, and reading the field gives it. */
  lemma AssignedFieldIsRead(p: Program, name: Name, o: Oid, f: Name, e: Expr, env: Env, st: St)
    requires Lookup(env, name) == Some(VObj(o)) && Eval(p, e, env, st).Ok?
    requires var st1 := Eval(p, e, env, st).st;
      && o < |st1.heap| && st1.heap[o].rc > 0
      && (GetField(st1.heap[o].fields, f).Some? ==> !GetField(st1.heap[o].fields, f).value.VObj?)
    ensures var v := Eval(p, e, env, st).v;
      var x := Exec(p, FieldAssign(name, f, e), env, st);
      x.flow.Next? ==>
        && x.env == env && |x.st.heap| > o
        && Eval(p, FieldGet(VarRef(name), f), env, x.st) == Ok(v, Retain(v, x.st))
  {
    var r := Eval(p, e, env, st);
    var x := Exec(p, FieldAssign(name, f, e), env, st);
    assert x == Then(Replace(p, VObj(o), f, r.v, r.st), env);
    if x.flow.Next? {
      StoredFieldHolds(p, o, f, r.v, r.st);
      FieldIsRead(p, name, o, f, env, x.st);
    }
  }

  // ---- construction ----------------------------------------------------------------------------

  /** The class has an init that does nothing. */
  predicate EmptyInit(c: ClassDecl) {
    c.init == Some(InitDecl([], [], None, []))
  }

  /** An object is made with its class, one reference, and its declared defaults. */
  lemma MadeWithDefaults(p: Program, c: ClassId, i: nat, j: nat, st: St)
    requires c < |p.classes| && EmptyInit(p.classes[c]) && st.fuel > 1
    requires i < |Chain(p, c)| && j < |p.classes[Chain(p, c)[i]].fields|
    requires var d := p.classes[Chain(p, c)[i]].fields[j];
      && d.initial.Some? && OnlyHere(p.classes[Chain(p, c)[i]].fields, j)
      && forall k :: i < k < |Chain(p, c)| ==> NotAmong(p.classes[Chain(p, c)[k]].fields, d.name)
    ensures var d := p.classes[Chain(p, c)[i]].fields[j];
      var r := Construct(p, c, [], st);
      && r.Ok? && r.v == VObj(|st.heap|) && |r.st.heap| == |st.heap| + 1
      && r.st.heap[|st.heap|].cls == c && r.st.heap[|st.heap|].rc == 1
      && GetField(r.st.heap[|st.heap|].fields, d.name) == Some(VInt(d.initial.value))
  {
    hide Chain, Initial, Assigns, Block;
    DefaultIsFirstValue(p, Chain(p, c), i, j, []);
    var obj := Obj(c, Initial(p, Chain(p, c), []), 1);
    EmptyInitDone(p, c, |st.heap|, st.(fuel := st.fuel - 1, heap := st.heap + [obj]));
  }

  lemma EmptyInitDone(p: Program, c: ClassId, o: Oid, st: St)
    requires c < |p.classes| && EmptyInit(p.classes[c])
    ensures RunInit(p, c, o, [], st) == Done(st)
  {
    var env := SelfEnv(Some(VObj(o)));
    assert Params([], [], env) == env && Assigns(p, [], o, env, st) == Done(st);
    assert RunSuper(p, c, o, env, st) == Done(st) && Block(p, [], env, st) == Ex(Next, env, st);
  }

  /** An init that stores its parameter in a field: the argument is what the new object
      holds there. */
  lemma MadeWithArgument(p: Program, c: ClassId, x: Name, f: Name, v: Value, st: St)
    requires c < |p.classes| && x != SELF && st.fuel > 1 && !v.VObj?
    requires p.classes[c].init == Some(InitDecl([x], [InitAssign(f, VarRef(x))], None, []))
    requires f in FieldOrder(p, Chain(p, c))
    requires var was := GetField(Initial(p, Chain(p, c), []), f); was.Some? ==> !was.value.VObj?
    ensures var r := Construct(p, c, [v], st);
      && r.Ok? && r.v == VObj(|st.heap|) && |r.st.heap| == |st.heap| + 1
      && GetField(r.st.heap[|st.heap|].fields, f) == Some(v)
  {
    hide Initial, FieldOrder, Chain, HoldsObjects;
    var o := |st.heap|;
    var obj := Obj(c, Initial(p, Chain(p, c), []), 1);
    var st1 := st.(fuel := st.fuel - 1, heap := st.heap + [obj]);
    var env := Params([x], [v], SelfEnv(Some(VObj(o))));
    LookupParameter([x], [v], SelfEnv(Some(VObj(o))));
    assert LastOf([x], [v], 0);
    assert Eval(p, VarRef(x), env, st1) == Ok(v, st1);
    StoresOne(p, InitAssign(f, VarRef(x)), v, o, env, st1);
    FieldAfterStore(obj.fields, f, v, f);
    var st2 := WithFields(st1, o, SetField(obj.fields, f, v));
    assert RunSuper(p, c, o, env, st2) == Done(st2) && Block(p, [], env, st2) == Ex(Next, env, st2);
    assert RunInit(p, c, o, [v], st1) == Done(st2);
  }

  lemma StoresOne(p: Program, a: InitAssign, v: Value, o: Oid, env: Env, st: St)
    requires o < |st.heap| && Eval(p, a.e, env, st) == Ok(v, st) && !v.VObj?
    requires a.field in FieldOrder(p, Chain(p, st.heap[o].cls))
    requires var was := GetField(st.heap[o].fields, a.field); was.Some? ==> !was.value.VObj?
    ensures Assigns(p, [a], o, env, st) == Done(WithFields(st, o, SetField(st.heap[o].fields, a.field, v)))
  {
    hide Eval, HoldsObjects, FieldOrder;
    var st1 := WithFields(st, o, SetField(st.heap[o].fields, a.field, v));
    assert StoreField(p, VObj(o), a.field, v, st) == Done(st1);
    assert [a][1..] == [] && Assigns(p, [], o, env, st1) == Done(st1);
  }
}

/**
  Two programs at the limits of the results about counts: a name declared twice in
  one scope drops an object, and an initializer that calls a method of its own object
  makes the assertion on a negative count fail.
*/
module EvaluatorLimits {
  import opened Options
  import opened Evaluator
  import opened EvaluatorScopes
  import opened EvaluatorLeaks

  function Plain(): ClassDecl {
    ClassDecl(None, [], [], Some(InitDecl([], [], None, [])), None)
  }

  /** A main that declares one name twice: the second binding overwrites the first,
      which is never released. */
  function Redeclares(): Program {
    Program([Plain()], [], [Let("x", NewObj(0, [])), Let("x", NewObj(0, []))])
  }

  lemma {:induction false} PlainInit(p: Program, o: Oid, st: St)
    requires p.classes != [] && p.classes[0] == Plain()
    ensures RunInit(p, 0, o, [], st) == Done(st)
  {
    var env := SelfEnv(Some(VObj(o)));
    assert Params([], [], env) == env;
    assert Assigns(p, [], o, env, st) == Done(st);
    assert RunSuper(p, 0, o, env, st) == Done(st);
    assert Block(p, [], env, st) == Ex(Next, env, st);
  }

  lemma {:induction false} MakesPlain(p: Program, env: Env, st: St)
    requires p.classes != [] && p.classes[0] == Plain() && st.fuel > 1
    ensures Eval(p, NewObj(0, []), env, st) ==
      Ok(VObj(|st.heap|), st.(fuel := st.fuel - 1, heap := st.heap + [Obj(0, [], 1)]))
  {
    var st1 := st.(fuel := st.fuel - 1, heap := st.heap + [Obj(0, [], 1)]);
    assert Chain(p, 0) == [0];
    assert Initial(p, [0], []) == Initial(p, [], InitialOwn([], [])) == [];
    PlainInit(p, |st.heap|, st1);
    assert Construct(p, 0, [], st) == Ok(VObj(|st.heap|), st1);
    assert EvalArgs(p, [], env, st) == Oks([], st);
    assert ReleaseAll(p, [], st1) == Done(st1);
  }

  lemma {:induction false} LetsPlain(p: Program, ss: seq<Stmt>, scope: Scope, name: Name, st: St)
    requires p.classes != [] && p.classes[0] == Plain() && st.fuel > 2 && ss != [] && ss[0] == Let(name, NewObj(0, []))
    ensures Block(p, ss, [scope], st) ==
      Block(p, ss[1..], [SetSlot(scope, Slot(name, VObj(|st.heap|), true))],
            st.(fuel := st.fuel - 2, heap := st.heap + [Obj(0, [], 1)], lost := st.lost + Dropped([scope], name)))
  {
    var b := st.(fuel := st.fuel - 1);
    var init := NewObj(0, []);
    MakesPlain(p, [scope], b);
    var after := st.(fuel := st.fuel - 2, heap := st.heap + [Obj(0, [], 1)], lost := st.lost + Dropped([scope], name));
    assert Burn(st) == Some(b);
    assert Declare([scope], Slot(name, VObj(|st.heap|), true)) == [SetSlot(scope, Slot(name, VObj(|st.heap|), true))];
    assert Exec(p, Let(name, init), [scope], b) == Ex(Next, Declare([scope], Slot(name, VObj(|st.heap|), true)), after);
  }

  lemma {:induction false} NothingDropped(scope: Scope, name: Name)
    requires SlotOf(scope, name).None?
    ensures Dropped([scope], name) == []
  {
  }

  lemma {:induction false} TwoLets(st: St)
    requires st == St([Obj(0, [], 1), Obj(0, [], 1)], [], 6, [], [0], false)
    ensures var p := Redeclares();
      Block(p, p.main, [[]], Start(10)) == Ex(Next, [[Slot("x", VObj(1), true)]], st)
  {
    hide Exec;
    var p := Redeclares();
    var first, second := Slot("x", VObj(0), true), Slot("x", VObj(1), true);
    var st1 := St([Obj(0, [], 1)], [], 8, [], [], false);
    LetsPlain(p, p.main, [], "x", Start(10));
    assert SetSlot([], first) == [first];
    var none: Scope := [];
    NothingDropped(none, "x");
    assert Start(10).lost + Dropped([none], "x") == [];
    assert Start(10).heap + [Obj(0, [], 1)] == st1.heap;
    assert Block(p, p.main, [[]], Start(10)) == Block(p, p.main[1..], [[first]], st1);
    LetsPlain(p, p.main[1..], [first], "x", st1);
    assert st1.lost + Dropped([[first]], "x") == [0];
    assert SetSlot([first], second) == [second] + [first][1..] == [second];
    assert p.main[1..][1..] == [];
    assert st1.heap + [Obj(0, [], 1)] == st.heap;
    assert Block(p, [], [[second]], st) == Ex(Next, [[second]], st);
  }

  lemma {:induction false} NotScoped()
    ensures WellFormed(Redeclares()) && !Scoped(Redeclares())
  {
    var p := Redeclares();
    assert !WellScopedStmt(p.main[1], {"x"});
    assert p.main[1..] == [p.main[1]] && Binds(p.main[0]) == {"x"};
  }

  lemma {:induction false} OneOwned(o: Oid, env: Env)
    requires env == [[Slot("x", VObj(o), true)]]
    ensures OwnedAll(env) == [VObj(o)]
  {
    assert env[..0] == [];
    assert Owned(env[0]) == [VObj(o)] + Owned([]);
  }

  lemma {:induction false} PlainReleased(p: Program, o: Oid, st: St, after: St)
    requires p.classes != [] && p.classes[0] == Plain()
    requires o < |st.heap| && st.heap[o] == Obj(0, [], 1) && st.fuel > 1
    requires after == WithCount(st, o, 0).(torn := st.torn + [o], fuel := st.fuel - 1)
    ensures ReleaseAll(p, [VObj(o)], st) == Done(after)
  {
    hide Release;
    PlainDies(p, o, st);
    var vs := [VObj(o)];
    assert vs[..|vs| - 1] == [] && vs[|vs| - 1] == VObj(o);
    assert ReleaseAll(p, [], after) == Done(after);
  }

  lemma {:induction false} RedeclaredNameLeaks()
    ensures WellFormed(Redeclares()) && !Scoped(Redeclares())
    ensures Completed(Redeclares(), 10) && !AllTorn(Run(Redeclares(), 10).st) && Run(Redeclares(), 10).st.lost == [0]
  {
    hide Block, ReleaseAll, WellFormed, Scoped, OwnedAll;
    NotScoped();
    var p := Redeclares();
    var st := St([Obj(0, [], 1), Obj(0, [], 1)], [], 6, [], [0], false);
    TwoLets(st);
    OneOwned(1, [[Slot("x", VObj(1), true)]]);
    PlainReleased(p, 1, st, WithCount(st, 1, 0).(torn := st.torn + [1], fuel := 5));
    assert multiset(st.torn + [1])[0] == 0;
  }

  lemma {:induction false} PlainDies(p: Program, o: Oid, st: St)
    requires p.classes != [] && p.classes[0] == Plain()
    requires o < |st.heap| && st.heap[o] == Obj(0, [], 1) && st.fuel > 1
    ensures Release(p, VObj(o), st) == Done(WithCount(st, o, 0).(torn := st.torn + [o], fuel := st.fuel - 1))
  {
    var st1 := WithCount(st, o, 0);
    var st2 := st1.(torn := st.torn + [o], fuel := st.fuel - 1);
    assert Chain(p, 0) == [0];
    assert Deinits(p, [], o, st2) == Done(st2);
    assert Deinits(p, [0], o, st2) == Done(st2);
    assert [0][1..] == [];
    assert FieldOrder(p, []) == [] && Backwards(p.classes[0].fields) == [];
    assert FieldOrder(p, [0]) == [];
    assert DropFields(p, [], o, st2) == Done(st2);
    assert Teardown(p, o, st1) == Done(st2);
  }

  /** An initializer that calls a method of its own object: the method overwrites the
      field whose old value the initializer has already read. */
  function CallsItself(): Program {
    var overwrite := MethodDecl(0, [], true, [SelfFieldAssign("g", NewObj(0, [])), Return(Some(NewObj(0, [])))]);
    var init := InitDecl([], [InitAssign("g", NewObj(0, [])), InitAssign("g", MethodCall(VarRef(SELF), 0, []))], None, []);
    Program([Plain(), ClassDecl(None, [FieldDecl("g", false, None)], [overwrite], Some(init), None)], [],
            [ExprStmt(NewObj(1, []))])
  }

  const BORROWED: Env := [[Slot(SELF, VObj(0), false)]]

  function Holder(f: Oid, rc: int): Obj {
    Obj(1, [Field("g", VObj(f))], rc)
  }

  lemma {:induction false} HolderFields()
    ensures var p := CallsItself();
      && Chain(p, 1) == [1] && "g" in FieldOrder(p, [1]) && HoldsObjects(p, [1], "g")
      && Resolve(p, [1], 0) == Some(p.classes[1].methods[0])
  {
    var p := CallsItself();
    assert FieldOrder(p, [1]) == Backwards(p.classes[1].fields) + FieldOrder(p, [1][1..]);
    assert Backwards(p.classes[1].fields) == Backwards(p.classes[1].fields[1..]) + ["g"];
    assert HasClassField(p.classes[1], "g") by {
      assert p.classes[1].fields[0] == FieldDecl("g", false, None);
    }
    assert [1][0] == 1;
  }

  lemma {:induction false} StoresG(v: Oid, st: St)
    requires st.heap != [] && st.heap[0].cls == 1 && |st.heap[0].fields| <= 1
    requires st.heap[0].fields != [] ==> st.heap[0].fields[0].name == "g"
    ensures StoreField(CallsItself(), VObj(0), "g", VObj(v), st)
      == Done(st.(heap := st.heap[0 := Holder(v, st.heap[0].rc)]))
  {
    HolderFields();
    var fs := st.heap[0].fields;
    assert fs == [] || fs[1..] == [];
    assert SetField(fs, "g", VObj(v)) == [Field("g", VObj(v))];
  }

  /** The method's assignment: the object made first dies. */
  lemma {:induction false} MethodStores()
    ensures Exec(CallsItself(), SelfFieldAssign("g", NewObj(0, [])), BORROWED,
                 St([Holder(1, 2), Obj(0, [], 1)], [], 15, [], [], false))
      == Ex(Next, BORROWED, St([Holder(2, 2), Obj(0, [], 0), Obj(0, [], 1)], [], 13, [1], [], false))
  {
    hide Eval, Replace;
    var p := CallsItself();
    var st := St([Holder(1, 2), Obj(0, [], 1)], [], 15, [], [], false);
    MakesPlain(p, BORROWED, st);
    var st1 := St([Holder(1, 2), Obj(0, [], 1), Obj(0, [], 1)], [], 14, [], [], false);
    assert st.heap + [Obj(0, [], 1)] == st1.heap;
    FirstDies(st1);
    assert Lookup(BORROWED, SELF) == Some(VObj(0));
  }

  lemma {:induction false} FirstDies(st: St)
    requires st == St([Holder(1, 2), Obj(0, [], 1), Obj(0, [], 1)], [], 14, [], [], false)
    ensures Replace(CallsItself(), VObj(0), "g", VObj(2), st)
      == Done(St([Holder(2, 2), Obj(0, [], 0), Obj(0, [], 1)], [], 13, [1], [], false))
  {
    hide Release;
    var p := CallsItself();
    StoresG(2, st);
    var st2 := St([Holder(2, 2), Obj(0, [], 1), Obj(0, [], 1)], [], 14, [], [], false);
    assert st.heap[0 := Holder(2, 2)] == st2.heap;
    PlainDies(p, 1, st2);
    assert WithCount(st2, 1, 0).heap == [Holder(2, 2), Obj(0, [], 0), Obj(0, [], 1)];
    assert st2.torn + [1] == [1];
    assert GetField(st.heap[0].fields, "g") == Some(VObj(1));
  }

  const AFTER_CALL := St([Holder(2, 2), Obj(0, [], 0), Obj(0, [], 1), Obj(0, [], 1)], [], 11, [1], [], false)

  /** It then returns a third object. */
  lemma {:induction false} MethodReturns()
    ensures Block(CallsItself(), CallsItself().classes[1].methods[0].body, BORROWED,
                  St([Holder(1, 2), Obj(0, [], 1)], [], 16, [], [], false))
      == Ex(Returns(VObj(3)), BORROWED, AFTER_CALL)
  {
    hide Eval;
    var p := CallsItself();
    var body := p.classes[1].methods[0].body;
    var st1 := St([Holder(2, 2), Obj(0, [], 0), Obj(0, [], 1)], [], 13, [1], [], false);
    MethodStores();
    var st2 := st1.(fuel := 12);
    MakesPlain(p, BORROWED, st2);
    assert st2.heap + [Obj(0, [], 1)] == AFTER_CALL.heap;
    assert Exec(p, Return(Some(NewObj(0, []))), BORROWED, st2) == Ex(Returns(VObj(3)), BORROWED, AFTER_CALL);
    assert body[1..][0] == Return(Some(NewObj(0, [])));
    assert Block(p, body[1..], BORROWED, st1) == Ex(Returns(VObj(3)), BORROWED, AFTER_CALL);
  }

  lemma {:induction false} MethodReplaces()
    ensures Invoke(CallsItself(), [], CallsItself().classes[1].methods[0].body, true, Some(VObj(0)), [],
                   St([Holder(1, 2), Obj(0, [], 1)], [], 17, [], [], false))
      == Ok(VObj(3), AFTER_CALL)
  {
    hide Block;
    var p := CallsItself();
    assert Params([], [], SelfEnv(Some(VObj(0)))) == BORROWED;
    MethodReturns();
    assert OwnedAll(BORROWED) == [] by {
      assert BORROWED[..0] == [] && Owned(BORROWED[0]) == Owned([]) == [];
    }
    assert ReleaseAll(p, [], AFTER_CALL) == Done(AFTER_CALL);
  }

  /** The second initializer's expression. */
  lemma {:induction false} CallGives()
    ensures Eval(CallsItself(), MethodCall(VarRef(SELF), 0, []), BORROWED, St([Holder(1, 1), Obj(0, [], 1)], [], 17, [], [], false))
      == Ok(VObj(3), AFTER_CALL.(heap := AFTER_CALL.heap[0 := Holder(2, 1)]))
  {
    hide Invoke;
    var p := CallsItself();
    var st := St([Holder(1, 1), Obj(0, [], 1)], [], 17, [], [], false);
    var st1 := St([Holder(1, 2), Obj(0, [], 1)], [], 17, [], [], false);
    assert Retain(VObj(0), st).heap == st1.heap;
    assert Lookup(BORROWED, SELF) == Some(VObj(0));
    assert Eval(p, VarRef(SELF), BORROWED, st) == Ok(VObj(0), st1);
    assert EvalArgs(p, [], BORROWED, st1) == Oks([], st1);
    HolderFields();
    MethodReplaces();
    assert ReleaseAll(p, [], AFTER_CALL) == Done(AFTER_CALL);
    assert Release(p, VObj(0), AFTER_CALL) == Done(WithCount(AFTER_CALL, 0, 1));
  }

  lemma {:induction false} SecondAssign(st: St)
    requires st == St([Holder(1, 1), Obj(0, [], 1)], [], 17, [], [], false)
    ensures var r := Assigns(CallsItself(), CallsItself().classes[1].init.value.assigns[1..], 0, BORROWED, st);
      r.Failed? && r.why == Negative
  {
    hide Eval;
    var p := CallsItself();
    CallGives();
    var st1 := AFTER_CALL.(heap := AFTER_CALL.heap[0 := Holder(2, 1)]);
    StoresG(3, st1);
    var st2 := st1.(heap := st1.heap[0 := Holder(3, 1)]);
    assert GetField(st.heap[0].fields, "g") == Some(VObj(1));
    assert Release(p, VObj(1), st2) == Failed(Negative, WithCount(st2, 1, -1));
  }

  lemma {:induction false} BothAssigns(st: St)
    requires st == St([Obj(1, [], 1)], [], 18, [], [], false)
    ensures var r := Assigns(CallsItself(), CallsItself().classes[1].init.value.assigns, 0, BORROWED, st);
      r.Failed? && r.why == Negative
  {
    hide Eval;
    var p := CallsItself();
    MakesPlain(p, BORROWED, st);
    var st1 := St([Obj(1, [], 1), Obj(0, [], 1)], [], 17, [], [], false);
    assert st.heap + [Obj(0, [], 1)] == st1.heap;
    StoresG(1, st1);
    var st2 := St([Holder(1, 1), Obj(0, [], 1)], [], 17, [], [], false);
    assert st1.heap[0 := Holder(1, 1)] == st2.heap;
    assert GetField([], "g") == None;
    assert Release(p, VNone, st2) == Done(st2);
    SecondAssign(st2);
  }

  lemma {:induction false} ItsConstruction(st: St)
    requires st == St([], [], 19, [], [], false)
    ensures var r := Construct(CallsItself(), 1, [], st);
      r.Halt? && r.why == Negative
  {
    hide Assigns;
    var p := CallsItself();
    var st1 := St([Obj(1, [], 1)], [], 18, [], [], false);
    HolderFields();
    assert Initial(p, [1], []) == Initial(p, [], InitialOwn(p.classes[1].fields, [])) == [];
    assert st.heap + [Obj(1, [], 1)] == st1.heap;
    assert Params([], [], SelfEnv(Some(VObj(0)))) == BORROWED;
    BothAssigns(st1);
    assert RunInit(p, 1, 0, [], st1).Failed?;
  }

  lemma {:induction false} InitializerGoesNegative()
    ensures exists st :: Run(CallsItself(), 20) == NoResult(Negative, st)
  {
    hide Construct;
    var p := CallsItself();
    ItsConstruction(St([], [], 19, [], [], false));
    var e := NewObj(1, []);
    assert EvalArgs(p, [], [[]], St([], [], 19, [], [], false)) == Oks([], St([], [], 19, [], [], false));
    var r := Eval(p, e, [[]], St([], [], 19, [], [], false));
    assert Exec(p, ExprStmt(e), [[]], St([], [], 19, [], [], false)) == Ex(Stops(Negative), [[]], r.st);
    assert Block(p, p.main, [[]], Start(20)) == Ex(Stops(Negative), [[]], r.st);
    assert Run(p, 20) == NoResult(Negative, r.st);
  }
}

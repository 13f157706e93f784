/**
  When class-typed fields are written by initializers only, the objects never form
  a cycle: an initializer stores into an object that nothing refers to yet.
*/
module EvaluatorAcyclic {
  import opened Options
  import opened Evaluator
  import opened EvaluatorRefs
  import opened EvaluatorFrame
  import opened EvaluatorScopes

  // ---- cycles -------------------------------------------------------------------------

  /** A field of a refers to b. */
  ghost predicate Edge(h: seq<Obj>, a: Oid, b: Oid) {
    a < |h| && b in FieldRefs(h[a].fields)
  }

  ghost predicate Closed(h: seq<Obj>, path: seq<Oid>) {
    && |path| >= 2 && path[0] == path[|path| - 1]
    && forall k :: 0 <= k < |path| - 1 ==> Edge(h, path[k], path[k + 1])
  }

  ghost predicate Acyclic(h: seq<Obj>) {
    forall path :: !Closed(h, path)
  }

  lemma ClosedAround(h: seq<Obj>, h': seq<Obj>, o: Oid, path: seq<Oid>)
    requires Closed(h', path) && HeapRefs(h')[o] == 0
    requires forall a, b :: a != o && Edge(h', a, b) ==> Edge(h, a, b)
    ensures Closed(h, path)
  {
    var n := |path| - 1;
    forall k | 0 <= k < n ensures Edge(h, path[k], path[k + 1]) {
      assert Edge(h', path[k], path[k + 1]);
      var before := if k > 0 then k - 1 else n - 1;
      assert Edge(h', path[before], path[before + 1]);
      HeapRefsAt(h', path[before]);
    }
  }

  /** A heap whose edges all leave o or were there before stays free of cycles as
      long as nothing refers to o. */
  lemma AcyclicAround(h: seq<Obj>, h': seq<Obj>, o: Oid)
    requires Acyclic(h) && HeapRefs(h')[o] == 0
    requires forall a, b :: a != o && Edge(h', a, b) ==> Edge(h, a, b)
    ensures Acyclic(h')
  {
    forall path ensures !Closed(h', path) {
      if Closed(h', path) {
        ClosedAround(h, h', o, path);
      }
    }
  }

  /** Every edge afterwards was one before. */
  ghost predicate FewerEdges(h: seq<Obj>, h': seq<Obj>) {
    forall a, b :: Edge(h', a, b) ==> Edge(h, a, b)
  }

  lemma ClosedMore(h: seq<Obj>, h': seq<Obj>, path: seq<Oid>)
    requires Closed(h', path) && FewerEdges(h, h')
    ensures Closed(h, path)
  {
    assert forall k :: 0 <= k < |path| - 1 ==> Edge(h', path[k], path[k + 1]);
  }

  lemma AcyclicFewer(h: seq<Obj>, h': seq<Obj>)
    requires Acyclic(h) && FewerEdges(h, h')
    ensures Acyclic(h')
  {
    forall path ensures !Closed(h', path) {
      if Closed(h', path) {
        ClosedMore(h, h', path);
      }
    }
  }

  // ---- programs whose field assignments are scalar ---------------------------------------

  /** No class declares the field with a class type. */
  predicate ScalarName(p: Program, field: Name) {
    forall i :: 0 <= i < |p.classes| ==> !HasClassField(p.classes[i], field)
  }

  predicate ScalarWrites(p: Program, ss: seq<Stmt>)
    decreases ss, 1
  {
    ss == [] || (ScalarWrite(p, ss[0]) && ScalarWrites(p, ss[1..]))
  }

  predicate ScalarWrite(p: Program, s: Stmt)
    decreases s, 0
  {
    match s
    case FieldAssign(_, field, _) => ScalarName(p, field)
    case SelfFieldAssign(field, _) => ScalarName(p, field)
    case If(_, thenB, elseB) => ScalarWrites(p, thenB) && (elseB.ElseBlock? ==> ScalarWrites(p, elseB.body))
    case ForRange(_, _, _, _, body) => ScalarWrites(p, body)
    case CounterLoop(_, _, body) => ScalarWrites(p, body)
    case _ => true
  }

  predicate ScalarMethods(p: Program, c: ClassDecl) {
    forall k :: 0 <= k < |c.methods| ==> ScalarWrites(p, c.methods[k].body)
  }

  /** Class-typed fields are written by initializers only. */
  predicate InitOnly(p: Program) {
    && (forall k :: 0 <= k < |p.classes| ==> ScalarMethods(p, p.classes[k]))
    && (forall k :: 0 <= k < |p.fns| ==> ScalarWrites(p, p.fns[k].body))
    && ScalarWrites(p, p.main)
  }

  lemma {:induction false} FoundMethodScalar(p: Program, ms: seq<MethodDecl>, slot: nat)
    requires forall k :: 0 <= k < |ms| ==> ScalarWrites(p, ms[k].body)
    ensures var m := FindMethod(ms, slot);
      m.Some? ==> ScalarWrites(p, m.value.body)
  {
    if ms != [] && ms[0].slot != slot {
      FoundMethodScalar(p, ms[1..], slot);
    }
  }

  lemma {:induction false} ResolvedScalar(p: Program, chain: seq<ClassId>, slot: nat)
    requires InitOnly(p) && Declared(p, chain)
    ensures var m := Resolve(p, chain, slot);
      m.Some? ==> ScalarWrites(p, m.value.body)
  {
    if chain != [] {
      assert ScalarMethods(p, p.classes[chain[0]]);
      FoundMethodScalar(p, p.classes[chain[0]].methods, slot);
      ResolvedScalar(p, chain[1..], slot);
    }
  }

  lemma {:induction false} FoundFnScalar(p: Program, fs: seq<FnDecl>, name: Name)
    requires forall k :: 0 <= k < |fs| ==> ScalarWrites(p, fs[k].body)
    ensures var f := FindFn(fs, name);
      f.Some? ==> ScalarWrites(p, f.value.body)
  {
    if fs != [] && fs[|fs| - 1].name != name {
      FoundFnScalar(p, fs[..|fs| - 1], name);
    }
  }

  // ---- statements that may run ---------------------------------------------------------------

  predicate Fits(p: Program, ss: seq<Stmt>, taken: set<Name>) {
    (Scoped(p) ==> WellScoped(ss, taken)) && (InitOnly(p) ==> ScalarWrites(p, ss))
  }

  predicate FitsStmt(p: Program, s: Stmt, taken: set<Name>) {
    (Scoped(p) ==> WellScopedStmt(s, taken)) && (InitOnly(p) ==> ScalarWrite(p, s))
  }

  predicate FitsBody(p: Program, params: seq<Name>, body: seq<Stmt>) {
    Fits(p, body, {SELF} + ParamSet(params))
  }

  lemma ResolvedFits(p: Program, chain: seq<ClassId>, slot: nat)
    requires Declared(p, chain)
    ensures var m := Resolve(p, chain, slot);
      m.Some? ==> FitsBody(p, m.value.params, m.value.body)
  {
    if Scoped(p) {
      ResolvedScoped(p, chain, slot);
    }
    if InitOnly(p) {
      ResolvedScalar(p, chain, slot);
    }
  }

  lemma FoundFnFits(p: Program, name: Name)
    ensures var f := FindFn(p.fns, name);
      f.Some? ==> FitsBody(p, f.value.params, f.value.body)
  {
    if Scoped(p) {
      FoundFnScoped(p.fns, name);
    }
    if InitOnly(p) {
      FoundFnScalar(p, p.fns, name);
    }
  }

  // ---- primitive steps ----------------------------------------------------------------------

  lemma CountEdges(o: Oid, rc: int, st: St)
    requires o < |st.heap|
    ensures FewerEdges(st.heap, WithCount(st, o, rc).heap)
  {
  }

  lemma DeleteEdges(o: Oid, field: Name, st: St)
    requires o < |st.heap|
    ensures FewerEdges(st.heap, WithFields(st, o, DelField(st.heap[o].fields, field)).heap)
  {
    var fs := st.heap[o].fields;
    DelFieldRefs(fs, field);
    assert forall b :: b in FieldRefs(DelField(fs, field)) ==> b in FieldRefs(fs);
  }

  lemma ScalarStoreAcyclic(o: Oid, field: Name, v: Value, st: St)
    requires Acyclic(st.heap) && o < |st.heap| && !v.VObj?
    ensures Acyclic(WithFields(st, o, SetField(st.heap[o].fields, field, v)).heap)
  {
    var fs := st.heap[o].fields;
    var after := SetField(fs, field, v);
    SetFieldRefs(fs, field, v);
    forall b | b in FieldRefs(after) ensures b in FieldRefs(fs) {
      assert (FieldRefs(after) + OptRefs(GetField(fs, field)))[b] == (FieldRefs(fs) + Refs(v))[b];
    }
    AcyclicFewer(st.heap, WithFields(st, o, after).heap);
  }

  /** Storing anything but itself into an object that nothing refers to. */
  lemma HiddenStoreAcyclic(o: Oid, field: Name, v: Value, st: St)
    requires Acyclic(st.heap) && Hidden(st, o) && v != VObj(o)
    ensures Acyclic(WithFields(st, o, SetField(st.heap[o].fields, field, v)).heap)
  {
    SetKept(st, o, field, v, o);
    AcyclicAround(st.heap, WithFields(st, o, SetField(st.heap[o].fields, field, v)).heap, o);
  }

  lemma GrowAcyclic(p: Program, cls: ClassId, st: St)
    requires Acyclic(st.heap)
    ensures var st1 := st.(heap := st.heap + [Obj(cls, Initial(p, Chain(p, cls), []), 1)]);
      Acyclic(st1.heap)
  {
    var b := Obj(cls, Initial(p, Chain(p, cls), []), 1);
    InitialScalar(p, Chain(p, cls), []);
    AcyclicFewer(st.heap, st.heap + [b]);
  }
}

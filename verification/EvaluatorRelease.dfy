/**
  Releases: each takes one reference back, and what dies with it gives its own
  references up.  When a deinit body or the fuel stops a release half-way, the
  objects still dying keep their references; no count is too low even then.
*/
module EvaluatorRelease {
  import opened Options
  import opened Evaluator
  import opened EvaluatorRefs
  import opened EvaluatorFrame
  import opened EvaluatorScopes
  import opened EvaluatorAcyclic
  import opened EvaluatorExact

  /** No count is too low: some references may have no owner any more, and some dead
      objects may not have given theirs up. */
  ghost predicate Tolerable(p: Program, st: St, owed: multiset<Oid>, busy: set<Oid>) {
    exists leak: multiset<Oid>, more: set<Oid> :: Tally(p, st, owed + leak, busy + more)
  }

  lemma Tolerated(p: Program, st: St, owed: multiset<Oid>, leak: multiset<Oid>, busy: set<Oid>, more: set<Oid>)
    requires Tally(p, st, owed + leak, busy + more)
    ensures Tolerable(p, st, owed, busy)
  {
  }

  lemma TallyTolerated(p: Program, st: St, owed: multiset<Oid>, busy: set<Oid>)
    requires Tally(p, st, owed, busy)
    ensures Tolerable(p, st, owed, busy)
  {
    assert owed + multiset{} == owed && busy + {} == busy;
    Tolerated(p, st, owed, multiset{}, busy, {});
  }

  lemma TolerateMore(p: Program, st: St, owed: multiset<Oid>, leak: multiset<Oid>, busy: set<Oid>, more: set<Oid>)
    requires Tolerable(p, st, owed + leak, busy + more)
    ensures Tolerable(p, st, owed, busy)
  {
    hide Tally;
    var leak1, more1 :| Tally(p, st, owed + leak + leak1, busy + more + more1);
    assert owed + leak + leak1 == owed + (leak + leak1) && busy + more + more1 == busy + (more + more1);
    Tolerated(p, st, owed, leak + leak1, busy, more + more1);
  }

  /** What a release leaves behind: no new edges, and the counts of what is owed. */
  ghost predicate Lowered(p: Program, st: St, r: Rel, owed: multiset<Oid>, busy: set<Oid>) {
    && FewerEdges(st.heap, r.st.heap) && r.st.lost == st.lost
    && if r.Done? then Tally(p, r.st, owed, busy) else !r.why.Negative? && Tolerable(p, r.st, owed, busy)
  }

  lemma LoweredAfter(p: Program, st: St, mid: St, r: Rel, owed: multiset<Oid>, busy: set<Oid>)
    requires FewerEdges(st.heap, mid.heap) && mid.lost == st.lost && Lowered(p, mid, r, owed, busy)
    ensures Lowered(p, st, r, owed, busy)
  {
    hide Tally, Edge, Tolerable;
  }

  lemma {:induction false} TallyRelease(p: Program, v: Value, st: St, owed: multiset<Oid>, busy: set<Oid>)
    requires QuietDeinits(p) && Tally(p, st, owed + Refs(v), busy)
    ensures Lowered(p, st, Release(p, v, st), owed, busy)
    decreases st.fuel, 1
  {
    hide Tally, FewerEdges;
    if v.VObj? {
      var o := v.o;
      TallyLower(p, o, st, owed, busy);
      var st1 := WithCount(st, o, st.heap[o].rc - 1);
      CountEdges(o, st.heap[o].rc - 1, st);
      if st.heap[o].rc == 1 {
        TallyDeath(p, o, st, owed, busy);
        TallyTeardown(p, o, st1, owed, busy);
        LoweredAfter(p, st, st1, Release(p, v, st), owed, busy);
      }
    } else {
      NoEdges(st.heap);
      assert owed + Refs(v) == owed;
    }
  }

  lemma NoEdges(h: seq<Obj>)
    ensures FewerEdges(h, h)
  {
  }

  lemma {:induction false} TallyReleaseAll(p: Program, vs: seq<Value>, st: St, owed: multiset<Oid>, busy: set<Oid>)
    requires QuietDeinits(p) && Tally(p, st, owed + AllRefs(vs), busy)
    ensures Lowered(p, st, ReleaseAll(p, vs, st), owed, busy)
    decreases st.fuel, 2, |vs|
  {
    hide Tally, FewerEdges, Tolerable;
    if vs == [] {
      NoEdges(st.heap);
      assert owed + AllRefs(vs) == owed;
    } else {
      var n := |vs| - 1;
      assert owed + AllRefs(vs) == owed + AllRefs(vs[..n]) + Refs(vs[n]);
      TallyRelease(p, vs[n], st, owed + AllRefs(vs[..n]), busy);
      var d := Release(p, vs[n], st);
      if d.Done? {
        TallyReleaseAll(p, vs[..n], d.st, owed, busy);
        LoweredAfter(p, st, d.st, ReleaseAll(p, vs, st), owed, busy);
      } else {
        assert busy + {} == busy;
        TolerateMore(p, d.st, owed, AllRefs(vs[..n]), busy, {});
      }
    }
  }

  lemma {:induction false} TallyTeardown(p: Program, o: Oid, st: St, owed: multiset<Oid>, busy: set<Oid>)
    requires QuietDeinits(p) && o < |st.heap|
    requires Tally(p, st.(torn := st.torn + [o]), owed, busy + {o}) && Hidden(st, o)
    ensures Lowered(p, st, Teardown(p, o, st), owed, busy)
    decreases st.fuel, 0
  {
    hide Tally, FewerEdges, Tolerable, Hidden;
    NoEdges(st.heap);
    var st1 := st.(torn := st.torn + [o]);
    var b := Burn(st1);
    if b.None? {
      SameTally(p, st1, Dry(st1), owed, busy + {o});
      Dying(p, o, Dry(st1), owed, busy);
    } else {
      SameTally(p, st1, b.value, owed, busy + {o});
      DyingFits(p, b.value, owed, busy + {o}, o);
      var chain := Chain(p, st.heap[o].cls);
      TallyDeinits(p, chain, o, b.value, owed, busy + {o});
      var d := Deinits(p, chain, o, b.value);
      if d.Done? {
        StillHidden(st, d.st, o);
        SameTally(p, b.value, d.st, owed, busy + {o});
        TallyDropFields(p, FieldOrder(p, chain), o, d.st, owed, busy);
        LoweredAfter(p, st, d.st, Teardown(p, o, st), owed, busy);
      } else {
        assert owed + multiset{} == owed;
        TolerateMore(p, d.st, owed, multiset{}, busy, {o});
      }
    }
  }

  lemma StillHidden(a: St, b: St, o: Oid)
    requires a.heap == b.heap && Hidden(a, o)
    ensures Hidden(b, o)
  {
  }

  lemma Dying(p: Program, o: Oid, st: St, owed: multiset<Oid>, busy: set<Oid>)
    requires Tally(p, st, owed, busy + {o})
    ensures Tolerable(p, st, owed, busy)
  {
    assert owed + multiset{} == owed;
    Tolerated(p, st, owed, multiset{}, busy, {o});
  }

  lemma DyingFits(p: Program, st: St, owed: multiset<Oid>, busy: set<Oid>, o: Oid)
    requires Tally(p, st, owed, busy) && o < |st.heap|
    ensures FieldsFit(p, st.heap[o])
  {
  }

  // ---- deinit bodies ------------------------------------------------------------------------

  /** Only the output and the fuel differ. */
  predicate SameHeap(a: St, b: St) {
    a.heap == b.heap && a.torn == b.torn && a.lost == b.lost
  }

  /** What a deinit body that prints own fields does: nothing, unless it stops on a
      field that holds an object, whose reference it then keeps. */
  ghost predicate Printed(p: Program, st: St, after: St, done: bool, why: Stop, owed: multiset<Oid>, busy: set<Oid>) {
    if done then SameHeap(st, after)
    else !why.Negative? && FewerEdges(st.heap, after.heap) && after.lost == st.lost && Tolerable(p, after, owed, busy)
  }

  lemma {:induction false} TallyDeinits(p: Program, chain: seq<ClassId>, o: Oid, st: St, owed: multiset<Oid>, busy: set<Oid>)
    requires QuietDeinits(p) && Declared(p, chain) && Tally(p, st, owed, busy)
    ensures var d := Deinits(p, chain, o, st);
      Printed(p, st, d.st, d.Done?, if d.Failed? then d.why else Unsupported, owed, busy)
    decreases |chain|
  {
    hide Tally, FewerEdges, Tolerable;
    if chain != [] {
      if p.classes[chain[0]].deinit.None? {
        TallyDeinits(p, chain[1..], o, st, owed, busy);
      } else {
        var body := p.classes[chain[0]].deinit.value;
        OwnPrintsBlock(p, body, SelfEnv(Some(VObj(o))), st, owed, busy);
        var x := Block(p, body, SelfEnv(Some(VObj(o))), st);
        if x.flow.Next? {
          SameTally(p, st, x.st, owed, busy);
          TallyDeinits(p, chain[1..], o, x.st, owed, busy);
        }
      }
    }
  }

  lemma {:induction false} OwnPrintsBlock(p: Program, ss: seq<Stmt>, env: Env, st: St, owed: multiset<Oid>, busy: set<Oid>)
    requires PrintsOwnFields(ss) && Tally(p, st, owed, busy)
    ensures var x := Block(p, ss, env, st);
      && (x.flow.Next? || x.flow.Stops?)
      && Printed(p, st, x.st, x.flow.Next?, if x.flow.Stops? then x.flow.why else Unsupported, owed, busy)
    decreases |ss|
  {
    hide Tally, FewerEdges, Tolerable;
    if ss != [] {
      var b := Burn(st);
      if b.None? {
        NoEdges(st.heap);
        SameTally(p, st, Dry(st), owed, busy);
        TallyTolerated(p, Dry(st), owed, busy);
      } else {
        SameTally(p, st, b.value, owed, busy);
        OwnParts(p, ss[0].parts, env, b.value, owed, busy);
        var x := Exec(p, ss[0], env, b.value);
        if x.flow.Next? {
          SameTally(p, st, x.st, owed, busy);
          OwnPrintsBlock(p, ss[1..], x.env, x.st, owed, busy);
        }
      }
    }
  }

  lemma {:induction false} OwnParts(p: Program, parts: seq<Part>, env: Env, st: St, owed: multiset<Oid>, busy: set<Oid>)
    requires OwnFields(parts) && Tally(p, st, owed, busy)
    ensures var l := EvalParts(p, parts, env, st);
      Printed(p, st, l.st, l.Line?, if l.NoLine? then l.why else Unsupported, owed, busy)
    decreases |parts|
  {
    hide Tally, FewerEdges, Tolerable;
    if parts != [] {
      if parts[0].Lit? {
        OwnParts(p, parts[1..], env, st, owed, busy);
      } else {
        assert parts[0].e.SelfField?;
        OwnField(p, parts[0].e.field, env, st, owed, busy);
        var x := Eval(p, parts[0].e, env, st);
        if x.Ok? && !x.v.VObj? && !x.v.VNone? {
          OwnParts(p, parts[1..], env, x.st, owed, busy);
        }
      }
    }
  }

  /** A field read: an object read takes a reference. */
  lemma OwnField(p: Program, field: Name, env: Env, st: St, owed: multiset<Oid>, busy: set<Oid>)
    requires Tally(p, st, owed, busy)
    ensures var x := Eval(p, SelfField(field), env, st);
      && FewerEdges(st.heap, x.st.heap) && x.st.lost == st.lost && Tolerable(p, x.st, owed, busy)
      && (x.Halt? ==> !x.why.Negative?)
      && (x.Ok? && !x.v.VObj? ==> SameHeap(st, x.st))
  {
    hide Tally, FewerEdges, Tolerable;
    NoEdges(st.heap);
    TallyTolerated(p, st, owed, busy);
    var self := Lookup(env, SELF);
    if self.Some? && self.value.VObj? && self.value.o < |st.heap| {
      var v := GetField(st.heap[self.value.o].fields, field);
      if v.Some? {
        ReadIsLive(p, st, owed, busy, self.value.o, field);
        TallyRetain(p, v.value, st, owed, busy);
        assert busy + {} == busy;
        Tolerated(p, Retain(v.value, st), owed, Refs(v.value), busy, {});
      }
    }
  }

  // ---- the fields of the dying object ----------------------------------------------------------

  lemma {:induction false} TallyDropFields(p: Program, names: seq<Name>, o: Oid, st: St, owed: multiset<Oid>, busy: set<Oid>)
    requires QuietDeinits(p) && Tally(p, st, owed, busy + {o}) && Hidden(st, o)
    requires Distinct(st.heap[o].fields) && Under(st.heap[o].fields, names)
    ensures Lowered(p, st, DropFields(p, names, o, st), owed, busy)
    decreases st.fuel, 2, |names|, 1
  {
    hide Tally, FewerEdges, Tolerable;
    var fs := st.heap[o].fields;
    if names == [] {
      NoEdges(st.heap);
      NothingUnder(fs);
      TallyGone(p, o, st, owed, busy);
    } else {
      var v := GetField(fs, names[0]);
      if v.Some? && v.value.VObj? {
        TallyDropOne(p, names, o, st, owed, busy);
      } else {
        ScalarUnder(fs, names);
        TallyDropFields(p, names[1..], o, st, owed, busy);
      }
    }
  }

  lemma TallyGone(p: Program, o: Oid, st: St, owed: multiset<Oid>, busy: set<Oid>)
    requires Tally(p, st, owed, busy + {o}) && o < |st.heap| && FieldRefs(st.heap[o].fields) == multiset{}
    ensures Tally(p, st, owed, busy)
  {
    TalliedGone(p, o, st, HeapRefs(st.heap) + owed, busy);
  }

  lemma {:induction false} TallyDropOne(p: Program, names: seq<Name>, o: Oid, st: St, owed: multiset<Oid>, busy: set<Oid>)
    requires QuietDeinits(p) && Tally(p, st, owed, busy + {o}) && Hidden(st, o)
    requires Distinct(st.heap[o].fields) && Under(st.heap[o].fields, names)
    requires names != [] && GetField(st.heap[o].fields, names[0]).Some? && GetField(st.heap[o].fields, names[0]).value.VObj?
    ensures Lowered(p, st, DropFields(p, names, o, st), owed, busy)
    decreases st.fuel, 2, |names|, 0
  {
    hide Tally, FewerEdges, Tolerable, Distinct, Under, HeapRefs, DelField, GetField;
    var fs := st.heap[o].fields;
    var v := GetField(fs, names[0]).value;
    var st1 := WithFields(st, o, DelField(fs, names[0]));
    TallyDelete(p, o, names[0], st, owed, busy + {o});
    DeleteEdges(o, names[0], st);
    ReadHidden(st.heap, o, names[0], o);
    DelKept(st, o, names[0], o);
    TallyRelease(p, v, st1, owed, busy + {o});
    KeptRelease(p, v, st1, o);
    DelFieldUnder(fs, names);
    var d := Release(p, v, st1);
    if d.Done? {
      TallyDropFields(p, names[1..], o, d.st, owed, busy);
      LoweredAfter(p, st1, d.st, DropFields(p, names, o, st), owed, busy);
    } else {
      assert owed + multiset{} == owed;
      TolerateMore(p, d.st, owed, multiset{}, busy, {o});
    }
    LoweredAfter(p, st, st1, DropFields(p, names, o, st), owed, busy);
  }
}

/**
  The field assignments of an init: the value a field held is read before the
  expression is evaluated and given back after the new value is stored.  That keeps
  the counts if and only if the expression left the field's reference as it was read.
*/
module EvaluatorStores {
  import opened Options
  import opened Evaluator
  import opened EvaluatorRefs
  import opened EvaluatorFrame
  import opened EvaluatorScopes
  import opened EvaluatorExact
  import opened EvaluatorRelease

  /** A state is owed one multiset of references. */
  lemma OwesOne(p: Program, st: St, a: multiset<Oid>, b: multiset<Oid>, busy: set<Oid>)
    requires Tally(p, st, a, busy) && Tally(p, st, b, busy)
    ensures a == b
  {
    var h := HeapRefs(st.heap);
    forall i: Oid ensures a[i] == b[i] {
      assert (h + a)[i] == h[i] + a[i] && (h + b)[i] == h[i] + b[i];
    }
  }

  // ---- an object without references stays as it is --------------------------------------

  /** The count of the object is gone and the fields that name it are the same. */
  predicate StaysDead(st: St, after: St, b: Oid) {
    && b < |st.heap| && |after.heap| == |st.heap| && after.heap[b].rc == 0
    && HeapRefs(after.heap)[b] == HeapRefs(st.heap)[b]
  }

  lemma StaysDeadAfter(st: St, mid: St, after: St, b: Oid)
    requires StaysDead(st, mid, b) && StaysDead(mid, after, b)
    ensures StaysDead(st, after, b)
  {
  }

  lemma {:induction false} DeadRelease(p: Program, v: Value, st: St, b: Oid)
    requires QuietDeinits(p) && b < |st.heap| && st.heap[b].rc == 0
    ensures var d := Release(p, v, st);
      d.Done? ==> v != VObj(b) && StaysDead(st, d.st, b)
    decreases st.fuel, 1
  {
    hide HeapRefs;
    if v.VObj? && v.o < |st.heap| && v.o != b {
      var rc := st.heap[v.o].rc - 1;
      HeapRefsCount(st.heap, v.o, rc);
      if rc == 0 {
        DeadTeardown(p, v.o, WithCount(st, v.o, rc), b);
      }
    }
  }

  lemma {:induction false} DeadTeardown(p: Program, o: Oid, st: St, b: Oid)
    requires QuietDeinits(p) && b < |st.heap| && st.heap[b].rc == 0 && o < |st.heap|
    ensures var d := Teardown(p, o, st);
      d.Done? ==> StaysDead(st, d.st, b)
    decreases st.fuel, 0
  {
    hide HeapRefs;
    var k := Burn(st.(torn := st.torn + [o]));
    if k.Some? {
      var chain := Chain(p, st.heap[o].cls);
      QuietChain(p, chain, o, k.value);
      var d := Deinits(p, chain, o, k.value);
      if d.Done? {
        DeadDropFields(p, FieldOrder(p, chain), o, d.st, b);
      }
    }
  }

  lemma {:induction false} DeadDropFields(p: Program, names: seq<Name>, o: Oid, st: St, b: Oid)
    requires QuietDeinits(p) && b < |st.heap| && st.heap[b].rc == 0
    ensures var d := DropFields(p, names, o, st);
      d.Done? ==> StaysDead(st, d.st, b)
    decreases st.fuel, 2, |names|
  {
    hide HeapRefs;
    if names != [] && o < |st.heap| {
      var v := GetField(st.heap[o].fields, names[0]);
      if v.Some? && v.value.VObj? {
        var st1 := WithFields(st, o, DelField(st.heap[o].fields, names[0]));
        DeadRelease(p, v.value, st1, b);
        var d := Release(p, v.value, st1);
        if d.Done? {
          UnlinkOther(o, names[0], st, b);
          DeadDropFields(p, names[1..], o, d.st, b);
          StaysDeadAfter(st, st1, d.st, b);
          var r := DropFields(p, names[1..], o, d.st);
          if r.Done? {
            StaysDeadAfter(st, d.st, r.st, b);
          }
        }
      } else {
        DeadDropFields(p, names[1..], o, st, b);
      }
    }
  }

  lemma UnlinkOther(o: Oid, field: Name, st: St, b: Oid)
    requires o < |st.heap| && GetField(st.heap[o].fields, field) != Some(VObj(b))
    ensures HeapRefs(WithFields(st, o, DelField(st.heap[o].fields, field)).heap)[b] == HeapRefs(st.heap)[b]
  {
    var fs := st.heap[o].fields;
    var after := DelField(fs, field);
    var h' := WithFields(st, o, after).heap;
    DelFieldRefs(fs, field);
    HeapRefsUpdate(st.heap, o, st.heap[o].(fields := after));
    assert (FieldRefs(after) + OptRefs(GetField(fs, field)))[b] == FieldRefs(fs)[b];
    assert (HeapRefs(h') + FieldRefs(fs))[b] == (HeapRefs(st.heap) + FieldRefs(after))[b];
  }

  // ---- deinit bodies that finish --------------------------------------------------------------

  lemma {:induction false} QuietChain(p: Program, chain: seq<ClassId>, o: Oid, st: St)
    requires QuietDeinits(p) && Declared(p, chain)
    ensures var d := Deinits(p, chain, o, st);
      d.Done? ==> d.st.heap == st.heap
    decreases |chain|
  {
    if chain != [] {
      if p.classes[chain[0]].deinit.None? {
        QuietChain(p, chain[1..], o, st);
      } else {
        var body := p.classes[chain[0]].deinit.value;
        QuietBlock(p, body, SelfEnv(Some(VObj(o))), st);
        QuietChain(p, chain[1..], o, Block(p, body, SelfEnv(Some(VObj(o))), st).st);
      }
    }
  }

  lemma {:induction false} QuietBlock(p: Program, ss: seq<Stmt>, env: Env, st: St)
    requires PrintsOwnFields(ss)
    ensures var x := Block(p, ss, env, st);
      x.flow.Next? ==> x.st.heap == st.heap
    decreases |ss|
  {
    if ss != [] {
      var b := Burn(st);
      if b.Some? {
        QuietParts(p, ss[0].parts, env, b.value);
        var x := Exec(p, ss[0], env, b.value);
        QuietBlock(p, ss[1..], x.env, x.st);
      }
    }
  }

  lemma {:induction false} QuietParts(p: Program, parts: seq<Part>, env: Env, st: St)
    requires OwnFields(parts)
    ensures var l := EvalParts(p, parts, env, st);
      l.Line? ==> l.st.heap == st.heap
    decreases |parts|
  {
    if parts != [] {
      if parts[0].Lit? {
        QuietParts(p, parts[1..], env, st);
      } else {
        assert parts[0].e.SelfField?;
        QuietParts(p, parts[1..], env, Eval(p, parts[0].e, env, st).st);
      }
    }
  }

  // ---- giving back what is or is not owed ---------------------------------------------------------

  /** A reference nobody owes cannot be given back: when the release succeeds the
      counts are too low. */
  lemma {:induction false} UnowedRelease(p: Program, b: Oid, st: St, owed: multiset<Oid>, other: multiset<Oid>, busy: set<Oid>)
    requires QuietDeinits(p) && Tally(p, st, owed, busy) && b !in owed
    ensures var d := Release(p, VObj(b), st);
      d.Done? ==> !Tally(p, d.st, other, busy)
  {
    hide Release, Teardown, HeapRefs, QuietDeinits;
    var d := Release(p, VObj(b), st);
    if d.Done? {
      LastGoes(p, b, st);
      CountIs(p, b, st, owed, busy);
      if Tally(p, d.st, other, busy) {
        CountIs(p, b, d.st, other, busy);
      }
    }
  }

  lemma CountIs(p: Program, b: Oid, st: St, owed: multiset<Oid>, busy: set<Oid>)
    requires Tally(p, st, owed, busy) && b < |st.heap|
    ensures st.heap[b].rc == HeapRefs(st.heap)[b] + owed[b]
  {
    assert (HeapRefs(st.heap) + owed)[b] == HeapRefs(st.heap)[b] + owed[b];
  }

  /** One count less, and no field fewer that names the object. */
  lemma {:induction false} LastGoes(p: Program, b: Oid, st: St)
    requires QuietDeinits(p)
    ensures var d := Release(p, VObj(b), st);
      d.Done? ==>
        && b < |st.heap| && b < |d.st.heap| && d.st.heap[b].rc == st.heap[b].rc - 1
        && HeapRefs(d.st.heap)[b] == HeapRefs(st.heap)[b]
  {
    hide HeapRefs, Teardown, QuietDeinits;
    if b < |st.heap| {
      var rc := st.heap[b].rc - 1;
      HeapRefsCount(st.heap, b, rc);
      if rc == 0 {
        DeadTeardown(p, b, WithCount(st, b, rc), b);
      }
    }
  }

  lemma Without(all: multiset<Oid>, b: Oid)
    requires b in all
    ensures all - multiset{b} + multiset{b} == all
  {
  }

  lemma OwedAndNow(owed: multiset<Oid>, now: multiset<Oid>, b: Oid)
    requires b in owed + now && owed + now - multiset{b} == owed
    ensures now == multiset{b}
  {
    forall i: Oid ensures now[i] == multiset{b}[i] {
      assert (owed + now - multiset{b})[i] == owed[i];
    }
  }

  /** The release of the reference read before, when the one replaced is now. */
  lemma {:induction false} GivenBackIff(p: Program, was: Option<Value>, now: Option<Value>, st: St, owed: multiset<Oid>, busy: set<Oid>)
    requires QuietDeinits(p) && Tally(p, st, owed + OptRefs(now), busy)
    ensures var d := Release(p, if was.Some? then was.value else VNone, st);
      && (d.Done? ==> (Tally(p, d.st, owed, busy) <==> OptRefs(now) == OptRefs(was)))
      && (OptRefs(now) == OptRefs(was) ==> Lowered(p, st, d, owed, busy))
  {
    hide Tally, Release, QuietDeinits, Tolerable;
    var v := if was.Some? then was.value else VNone;
    var all := owed + OptRefs(now);
    var d := Release(p, v, st);
    if OptRefs(now) == OptRefs(was) {
      TallyRelease(p, v, st, owed, busy);
    } else if d.Done? && Tally(p, d.st, owed, busy) {
      if !v.VObj? {
        ScalarRelease(p, v, st);
        OwesOne(p, st, all, owed, busy);
        Cancelled(owed, OptRefs(now));
      } else if v.o in all {
        Without(all, v.o);
        TallyRelease(p, v, st, all - Refs(v), busy);
        OwesOne(p, d.st, all - Refs(v), owed, busy);
        OwedAndNow(owed, OptRefs(now), v.o);
      } else {
        UnowedRelease(p, v.o, st, all, owed, busy);
      }
      assert false;
    }
  }

  lemma ScalarRelease(p: Program, v: Value, st: St)
    requires !v.VObj?
    ensures Release(p, v, st) == Done(st)
  {
  }

  lemma Cancelled(owed: multiset<Oid>, now: multiset<Oid>)
    requires owed + now == owed
    ensures now == multiset{}
  {
    forall i: Oid ensures now[i] == 0 {
      assert (owed + now)[i] == owed[i] + now[i];
    }
  }

  // ---- one field assignment --------------------------------------------------------------------------

  /** What the object's field holds. */
  function Held(st: St, o: Oid, field: Name): Option<Value> {
    if o < |st.heap| then GetField(st.heap[o].fields, field) else None
  }

  /** The store of an init's assignment makes the value replaced owed. */
  lemma {:induction false} StoreOwes(p: Program, o: Oid, field: Name, v: Value, st: St, owed: multiset<Oid>, busy: set<Oid>)
    requires Tally(p, st, owed + Refs(v), busy) && o in owed
    ensures var stored := StoreField(p, VObj(o), field, v, st);
      if stored.Done? then Tally(p, stored.st, owed + OptRefs(Held(st, o, field)), busy)
      else stored.why.Stuck? && stored.st == st
  {
    hide Tally, HoldsObjects;
    OwedIsLive(p, st, owed + Refs(v), busy, o);
    if StoreField(p, VObj(o), field, v, st).Done? {
      TallyStore(p, o, field, v, st, owed, busy);
    }
  }

  /** An assignment whose expression kept the counts keeps them too if and only if the
      field then referred to what it referred to before the expression; and with that no
      count goes below zero. */
  lemma {:induction false} AssignKeepsCountsIff(p: Program, a: InitAssign, o: Oid, env: Env, st: St, owed: multiset<Oid>, busy: set<Oid>)
    requires QuietDeinits(p) && o < |st.heap| && o in owed
    requires var x := Eval(p, a.e, env, st);
      x.Ok? && Tally(p, x.st, owed + Refs(x.v), busy)
    ensures var x := Eval(p, a.e, env, st);
      var r := Assigns(p, [a], o, env, st);
      var same := OptRefs(Held(x.st, o, a.field)) == OptRefs(Held(st, o, a.field));
      && (r.Done? ==> (Tally(p, r.st, owed, busy) <==> same))
      && (same ==> r.Done? || (!r.why.Negative? && Tolerable(p, r.st, owed, busy)))
  {
    hide Tally, Eval, StoreField, Release, QuietDeinits, Tolerable;
    var x := Eval(p, a.e, env, st);
    StoreOwes(p, o, a.field, x.v, x.st, owed, busy);
    var stored := StoreField(p, VObj(o), a.field, x.v, x.st);
    var was := Held(st, o, a.field);
    if stored.Done? {
      GivenBackIff(p, was, Held(x.st, o, a.field), stored.st, owed, busy);
      var d := Release(p, if was.Some? then was.value else VNone, stored.st);
      assert d.Done? ==> Assigns(p, [a][1..], o, env, d.st) == Done(d.st);
    } else {
      assert busy + {} == busy;
      Tolerated(p, x.st, owed, Refs(x.v), busy, {});
    }
  }

  /** An expression that does not mention the object under construction, while nothing
      else refers to it, leaves the field alone. */
  lemma {:induction false} SelfFreeLeavesField(p: Program, e: Expr, o: Oid, field: Name, env: Env, st: St)
    requires SelfFree(e) && Hidden(st, o) && Unseen(env, o, true)
    ensures Held(Eval(p, e, env, st).st, o, field) == Held(st, o, field)
  {
    KeptEval(p, e, env, st, o, true);
  }

  lemma {:induction false} SelfFreeAssignKeepsCounts(p: Program, a: InitAssign, o: Oid, env: Env, st: St, owed: multiset<Oid>, busy: set<Oid>)
    requires QuietDeinits(p) && o in owed && SelfFree(a.e) && Hidden(st, o) && Unseen(env, o, true)
    requires var x := Eval(p, a.e, env, st);
      x.Ok? && Tally(p, x.st, owed + Refs(x.v), busy)
    ensures var r := Assigns(p, [a], o, env, st);
      if r.Done? then Tally(p, r.st, owed, busy) else !r.why.Negative? && Tolerable(p, r.st, owed, busy)
  {
    hide Tally, Eval, Assigns, QuietDeinits, Tolerable;
    SelfFreeLeavesField(p, a.e, o, a.field, env, st);
    AssignKeepsCountsIff(p, a, o, env, st, owed, busy);
  }
}

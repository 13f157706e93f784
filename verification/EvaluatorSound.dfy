/**
  Sound counts: they are the references of the heap, those owed, and those that a
  binding lost when its name was declared a second time in its scope.
*/
module EvaluatorSound {
  import opened Options
  import opened Evaluator
  import opened EvaluatorRefs
  import opened EvaluatorFrame
  import opened EvaluatorScopes
  import opened EvaluatorAcyclic
  import opened EvaluatorExact
  import opened EvaluatorRelease

  ghost predicate Sound(p: Program, st: St, owed: multiset<Oid>, busy: set<Oid>) {
    Exact(p, st, owed + multiset(st.lost), busy) && (Scoped(p) ==> st.lost == [])
  }

  /** No count is too low. */
  ghost predicate Leaky(p: Program, st: St, owed: multiset<Oid>, busy: set<Oid>) {
    exists leak: multiset<Oid>, more: set<Oid> :: Sound(p, st, owed + leak, busy + more)
  }

  ghost predicate Failing(p: Program, why: Stop, st: St, owed: multiset<Oid>, busy: set<Oid>) {
    !why.Negative? && Leaky(p, st, owed, busy)
  }

  ghost predicate RelGood(p: Program, r: Rel, owed: multiset<Oid>, busy: set<Oid>) {
    if r.Done? then Sound(p, r.st, owed, busy) else Failing(p, r.why, r.st, owed, busy)
  }

  lemma Behind(owed: multiset<Oid>, lost: multiset<Oid>, more: multiset<Oid>)
    ensures owed + lost + more == owed + more + lost
  {
  }

  // ---- what leaks ------------------------------------------------------------------------

  lemma Leaks(p: Program, st: St, owed: multiset<Oid>, leak: multiset<Oid>, busy: set<Oid>, more: set<Oid>)
    requires Sound(p, st, owed + leak, busy + more)
    ensures Leaky(p, st, owed, busy)
  {
  }

  /** A temporary nobody releases any more. */
  lemma Dangles(p: Program, st: St, owed: multiset<Oid>, leak: multiset<Oid>, busy: set<Oid>)
    requires Sound(p, st, owed + leak, busy)
    ensures Leaky(p, st, owed, busy)
  {
    assert busy + {} == busy;
    Leaks(p, st, owed, leak, busy, {});
  }

  lemma SoundLeaks(p: Program, st: St, owed: multiset<Oid>, busy: set<Oid>)
    requires Sound(p, st, owed, busy)
    ensures Leaky(p, st, owed, busy)
  {
    assert owed + multiset{} == owed;
    Dangles(p, st, owed, multiset{}, busy);
  }

  lemma LeaksMore(p: Program, st: St, owed: multiset<Oid>, leak: multiset<Oid>, busy: set<Oid>, more: set<Oid>)
    requires Leaky(p, st, owed + leak, busy + more)
    ensures Leaky(p, st, owed, busy)
  {
    hide Sound;
    var leak1, more1 :| Sound(p, st, owed + leak + leak1, busy + more + more1);
    assert owed + leak + leak1 == owed + (leak + leak1) && busy + more + more1 == busy + (more + more1);
    Leaks(p, st, owed, leak + leak1, busy, more + more1);
  }

  lemma Weaken(p: Program, why: Stop, st: St, owed: multiset<Oid>, more: multiset<Oid>, busy: set<Oid>)
    requires Failing(p, why, st, owed + more, busy)
    ensures Failing(p, why, st, owed, busy)
  {
    hide Leaky;
    assert busy + {} == busy;
    LeaksMore(p, st, owed, more, busy, {});
  }

  // ---- the steps of the evaluator -----------------------------------------------------------

  lemma SameSound(p: Program, a: St, b: St, owed: multiset<Oid>, busy: set<Oid>)
    requires a.heap == b.heap && a.torn == b.torn && a.lost == b.lost && Sound(p, a, owed, busy)
    ensures Sound(p, b, owed, busy)
  {
    hide InitOnly, Scoped, Acyclic;
    SameTally(p, a, b, owed + multiset(a.lost), busy);
  }

  lemma SoundOwed(p: Program, st: St, owed: multiset<Oid>, busy: set<Oid>, o: Oid)
    requires Sound(p, st, owed, busy) && o in owed
    ensures o < |st.heap| && st.heap[o].rc > 0
  {
    hide Tally, InitOnly, Scoped, Acyclic;
    assert o in owed + multiset(st.lost);
    OwedIsLive(p, st, owed + multiset(st.lost), busy, o);
  }

  lemma SoundRead(p: Program, st: St, owed: multiset<Oid>, busy: set<Oid>, j: Oid, field: Name)
    requires Sound(p, st, owed, busy) && j < |st.heap|
    ensures var x := GetField(st.heap[j].fields, field);
      x.Some? && x.value.VObj? ==> x.value.o < |st.heap| && st.heap[x.value.o].rc > 0
  {
    hide Tally, InitOnly, Scoped, Acyclic;
    ReadIsLive(p, st, owed + multiset(st.lost), busy, j, field);
  }

  lemma SoundRetain(p: Program, v: Value, st: St, owed: multiset<Oid>, busy: set<Oid>)
    requires Sound(p, st, owed, busy)
    requires v.VObj? ==> v.o < |st.heap| && st.heap[v.o].rc > 0
    ensures Sound(p, Retain(v, st), owed + Refs(v), busy)
  {
    hide Exact, Scoped;
    ExactRetain(p, v, st, owed + multiset(st.lost), busy);
    Behind(owed, multiset(st.lost), Refs(v));
  }

  lemma SoundStore(p: Program, o: Oid, field: Name, v: Value, st: St, owed: multiset<Oid>, busy: set<Oid>)
    requires Sound(p, st, owed + Refs(v), busy) && o < |st.heap| && st.heap[o].rc > 0
    requires field in FieldOrder(p, Chain(p, st.heap[o].cls))
    requires InitOnly(p) && v.VObj? ==> Hidden(st, o) && v != VObj(o)
    ensures var fs := st.heap[o].fields;
      Sound(p, WithFields(st, o, SetField(fs, field, v)), owed + OptRefs(GetField(fs, field)), busy)
  {
    hide Exact, InitOnly, Scoped;
    var lost := multiset(st.lost);
    Behind(owed, lost, Refs(v));
    ExactStore(p, o, field, v, st, owed + lost, busy);
    Behind(owed, lost, OptRefs(GetField(st.heap[o].fields, field)));
  }

  lemma SoundGrow(p: Program, cls: ClassId, st: St, owed: multiset<Oid>, busy: set<Oid>)
    requires Sound(p, st, owed, busy)
    ensures var o := |st.heap|;
      var st1 := st.(heap := st.heap + [Obj(cls, Initial(p, Chain(p, cls), []), 1)]);
      Sound(p, st1, owed + multiset{o}, busy) && Hidden(st1, o) && o !in owed
  {
    hide Exact, Scoped;
    var lost := multiset(st.lost);
    ExactGrow(p, cls, st, owed + lost, busy);
    Behind(owed, lost, multiset{|st.heap|});
    assert |st.heap| !in owed + lost;
  }

  /** A reference that nobody keeps is lost; well scoped programs lose none. */
  lemma SoundLoses(p: Program, st: St, owed: multiset<Oid>, gone: seq<Oid>, busy: set<Oid>)
    requires Sound(p, st, owed + multiset(gone), busy) && (Scoped(p) ==> gone == [])
    ensures Sound(p, st.(lost := st.lost + gone), owed, busy)
  {
    hide InitOnly, Scoped, Acyclic;
    assert owed + multiset(gone) + multiset(st.lost) == owed + multiset(st.lost + gone);
    SameTally(p, st, st.(lost := st.lost + gone), owed + multiset(st.lost + gone), busy);
  }

  // ---- releases -----------------------------------------------------------------------------

  lemma LoweredGood(p: Program, st: St, r: Rel, owed: multiset<Oid>, busy: set<Oid>)
    requires InitOnly(p) ==> Acyclic(st.heap)
    requires (Scoped(p) ==> st.lost == []) && Lowered(p, st, r, owed + multiset(st.lost), busy)
    ensures RelGood(p, r, owed, busy)
  {
    hide Tally, InitOnly, Scoped, Acyclic, FewerEdges;
    if InitOnly(p) {
      AcyclicFewer(st.heap, r.st.heap);
    }
    if r.Failed? {
      var leak, more :| Tally(p, r.st, owed + multiset(st.lost) + leak, busy + more);
      Behind(owed, multiset(st.lost), leak);
      Leaks(p, r.st, owed, leak, busy, more);
    }
  }

  lemma SoundRelease(p: Program, v: Value, st: St, owed: multiset<Oid>, busy: set<Oid>)
    requires WellFormed(p) && Sound(p, st, owed + Refs(v), busy)
    ensures RelGood(p, Release(p, v, st), owed, busy)
  {
    hide Tally, InitOnly, Scoped, Acyclic, Lowered, RelGood, WellFormed;
    Behind(owed, multiset(st.lost), Refs(v));
    WellFormedIsQuiet(p);
    TallyRelease(p, v, st, owed + multiset(st.lost), busy);
    LoweredGood(p, st, Release(p, v, st), owed, busy);
  }

  lemma SoundReleaseAll(p: Program, vs: seq<Value>, st: St, owed: multiset<Oid>, busy: set<Oid>)
    requires WellFormed(p) && Sound(p, st, owed + AllRefs(vs), busy)
    ensures RelGood(p, ReleaseAll(p, vs, st), owed, busy)
  {
    hide Tally, InitOnly, Scoped, Acyclic, Lowered, RelGood, WellFormed;
    Behind(owed, multiset(st.lost), AllRefs(vs));
    WellFormedIsQuiet(p);
    TallyReleaseAll(p, vs, st, owed + multiset(st.lost), busy);
    LoweredGood(p, st, ReleaseAll(p, vs, st), owed, busy);
  }

  /** The same from a state that leaks already. */
  lemma LeakyReleaseAll(p: Program, vs: seq<Value>, st: St, owed: multiset<Oid>, busy: set<Oid>)
    requires WellFormed(p) && Leaky(p, st, owed + AllRefs(vs), busy)
    ensures var d := ReleaseAll(p, vs, st);
      Leaky(p, d.st, owed, busy) && (d.Failed? ==> !d.why.Negative?)
  {
    hide Sound, WellFormed;
    var leak, more :| Sound(p, st, owed + AllRefs(vs) + leak, busy + more);
    Behind(owed, AllRefs(vs), leak);
    SoundReleaseAll(p, vs, st, owed + leak, busy + more);
    var d := ReleaseAll(p, vs, st);
    if d.Done? {
      Leaks(p, d.st, owed, leak, busy, more);
    } else {
      LeaksMore(p, d.st, owed, leak, busy, more);
    }
  }
}

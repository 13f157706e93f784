/**
  Exact reference counts: the count of every object is the number of fields that
  refer to it plus the number of references owed by slots and temporaries; it is
  zero for exactly the objects torn down, and each of them was torn down once.
*/
module EvaluatorExact {
  import opened Options
  import opened Evaluator
  import opened EvaluatorRefs
  import opened EvaluatorFrame
  import opened EvaluatorAcyclic

  // ---- fields of one object --------------------------------------------------------

  predicate Distinct(fs: seq<Field>) {
    forall a, b :: 0 <= a < b < |fs| ==> fs[a].name != fs[b].name
  }

  /** Only fields with these names hold objects. */
  predicate Under(fs: seq<Field>, names: seq<Name>) {
    forall a :: 0 <= a < |fs| ==> fs[a].val.VObj? ==> fs[a].name in names
  }

  predicate FieldsFit(p: Program, b: Obj) {
    Distinct(b.fields) && Under(b.fields, FieldOrder(p, Chain(p, b.cls)))
  }

  lemma {:induction false} GetFieldAt(fs: seq<Field>, name: Name)
    ensures var v := GetField(fs, name);
      v.Some? <==> exists a :: 0 <= a < |fs| && fs[a].name == name
    ensures var v := GetField(fs, name);
      v.Some? && Distinct(fs) ==> forall a :: 0 <= a < |fs| && fs[a].name == name ==> fs[a].val == v.value
  {
    if fs != [] {
      GetFieldAt(fs[1..], name);
      assert fs == [fs[0]] + fs[1..];
      if fs[0].name != name && GetField(fs, name).Some? {
        var a :| 0 <= a < |fs[1..]| && fs[1..][a].name == name;
        assert fs[a + 1].name == name;
      }
    }
  }

  /** No name but the one set is new. */
  lemma {:induction false} SetFieldNames(fs: seq<Field>, name: Name, v: Value)
    ensures forall g :: g in SetField(fs, name, v) ==> g.name == name || g in fs
  {
    if fs != [] && fs[0].name != name {
      SetFieldNames(fs[1..], name, v);
    }
  }

  lemma {:induction false} SetFieldFits(fs: seq<Field>, name: Name, v: Value, names: seq<Name>)
    requires Distinct(fs) && Under(fs, names) && name in names
    ensures Distinct(SetField(fs, name, v)) && Under(SetField(fs, name, v), names)
  {
    if fs != [] {
      TailFits(fs, names);
      if fs[0].name == name {
        ConsFits(Field(name, v), fs[1..], names);
      } else {
        hide Distinct, Under;
        SetFieldFits(fs[1..], name, v, names);
        SetFieldNames(fs[1..], name, v);
        ConsFits(fs[0], SetField(fs[1..], name, v), names);
      }
    }
  }

  lemma {:induction false} TailFits(fs: seq<Field>, names: seq<Name>)
    requires fs != [] && Distinct(fs) && Under(fs, names)
    ensures Distinct(fs[1..]) && Under(fs[1..], names) && (fs[0].val.VObj? ==> fs[0].name in names)
    ensures forall g :: g in fs[1..] ==> g.name != fs[0].name
  {
  }

  lemma {:induction false} ConsFits(f: Field, rest: seq<Field>, names: seq<Name>)
    requires Distinct(rest) && Under(rest, names) && (f.val.VObj? ==> f.name in names)
    requires forall g :: g in rest ==> g.name != f.name
    ensures Distinct([f] + rest) && Under([f] + rest, names)
  {
    var all := [f] + rest;
    forall a, b | 0 <= a < b < |all| ensures all[a].name != all[b].name {
      if a > 0 {
        assert rest[a - 1].name != rest[b - 1].name;
      } else {
        assert all[b] == rest[b - 1];
      }
    }
  }

  lemma {:induction false} DelFieldIs(fs: seq<Field>, name: Name)
    requires Distinct(fs)
    ensures var after := DelField(fs, name);
      && Distinct(after)
      && (forall a :: 0 <= a < |after| ==> after[a].name != name && after[a] in fs)
  {
    if fs != [] {
      if fs[0].name == name {
        assert DelField(fs, name) == fs[1..];
      } else {
        DelFieldIs(fs[1..], name);
        var rest := DelField(fs[1..], name);
        assert DelField(fs, name) == [fs[0]] + rest;
      }
    }
  }

  lemma DelFieldUnder(fs: seq<Field>, names: seq<Name>)
    requires names != [] && Distinct(fs) && Under(fs, names)
    ensures Distinct(DelField(fs, names[0])) && Under(DelField(fs, names[0]), names[1..])
  {
    DelFieldIs(fs, names[0]);
    var after := DelField(fs, names[0]);
    forall a | 0 <= a < |after| && after[a].val.VObj? ensures after[a].name in names[1..] {
      assert names == [names[0]] + names[1..];
    }
  }

  lemma ScalarUnder(fs: seq<Field>, names: seq<Name>)
    requires names != [] && Distinct(fs) && Under(fs, names)
    requires var v := GetField(fs, names[0]); v.Some? ==> !v.value.VObj?
    ensures Under(fs, names[1..])
  {
    GetFieldAt(fs, names[0]);
    forall a | 0 <= a < |fs| && fs[a].val.VObj? ensures fs[a].name in names[1..] {
      assert names == [names[0]] + names[1..];
    }
  }

  lemma {:induction false} NothingUnder(fs: seq<Field>)
    requires Under(fs, [])
    ensures FieldRefs(fs) == multiset{}
  {
    if fs != [] {
      NothingUnder(fs[1..]);
    }
  }

  lemma {:induction false} InitialFits(p: Program, chain: seq<ClassId>, fs: seq<Field>)
    requires Declared(p, chain) && Distinct(fs) && Under(fs, [])
    ensures var after := Initial(p, chain, fs);
      Distinct(after) && Under(after, [])
  {
    if chain != [] {
      InitialOwnFits(p.classes[chain[0]].fields, fs);
      InitialFits(p, chain[1..], InitialOwn(p.classes[chain[0]].fields, fs));
    }
  }

  lemma {:induction false} InitialOwnFits(ds: seq<FieldDecl>, fs: seq<Field>)
    requires Distinct(fs) && Under(fs, [])
    ensures Distinct(InitialOwn(ds, fs)) && Under(InitialOwn(ds, fs), [])
  {
    if ds != [] {
      if ds[0].initial.Some? {
        SetScalar(fs, ds[0].name, VInt(ds[0].initial.value));
        InitialOwnFits(ds[1..], SetField(fs, ds[0].name, VInt(ds[0].initial.value)));
      } else {
        InitialOwnFits(ds[1..], fs);
      }
    }
  }

  lemma {:induction false} SetScalar(fs: seq<Field>, name: Name, v: Value)
    requires Distinct(fs) && Under(fs, []) && !v.VObj?
    ensures Distinct(SetField(fs, name, v)) && Under(SetField(fs, name, v), [])
  {
    SetFieldFits(fs, name, v, [name]);
    SetFieldRefs(fs, name, v);
    NothingUnder(fs);
    assert FieldRefs(SetField(fs, name, v)) + OptRefs(GetField(fs, name)) == multiset{};
    NoRefsUnder(SetField(fs, name, v));
  }

  lemma {:induction false} NoRefsUnder(fs: seq<Field>)
    requires FieldRefs(fs) == multiset{}
    ensures Under(fs, [])
  {
    if fs != [] {
      assert forall o :: FieldRefs(fs)[o] == Refs(fs[0].val)[o] + FieldRefs(fs[1..])[o];
      NoRefsUnder(fs[1..]);
    }
  }

  // ---- exact counts -----------------------------------------------------------------------

  /** The counts are as in the tally. */
  ghost predicate Counted(h: seq<Obj>, tally: multiset<Oid>) {
    && (forall i :: 0 <= i < |h| ==> h[i].rc == tally[i])
    && (forall i: nat :: i >= |h| ==> tally[i] == 0)
  }

  ghost predicate TornOnce(st: St) {
    forall i: nat :: multiset(st.torn)[i] == if i < |st.heap| && st.heap[i].rc == 0 then 1 else 0
  }

  /** Dead objects hold nothing, apart from those still being torn down. */
  ghost predicate Emptied(h: seq<Obj>, busy: set<Oid>) {
    forall i :: 0 <= i < |h| ==> h[i].rc == 0 ==> i !in busy ==> FieldRefs(h[i].fields) == multiset{}
  }

  ghost predicate Formed(p: Program, h: seq<Obj>) {
    forall i :: 0 <= i < |h| ==> FieldsFit(p, h[i])
  }

  ghost predicate Tallied(p: Program, st: St, tally: multiset<Oid>, busy: set<Oid>) {
    && Counted(st.heap, tally)
    && TornOnce(st)
    && Emptied(st.heap, busy)
    && Formed(p, st.heap)
  }

  /** The counts are the references of the heap and those owed. */
  ghost predicate Tally(p: Program, st: St, owed: multiset<Oid>, busy: set<Oid>) {
    Tallied(p, st, HeapRefs(st.heap) + owed, busy)
  }

  ghost predicate Exact(p: Program, st: St, owed: multiset<Oid>, busy: set<Oid>) {
    Tally(p, st, owed, busy) && (InitOnly(p) ==> Acyclic(st.heap))
  }

  lemma OwedIsLive(p: Program, st: St, owed: multiset<Oid>, busy: set<Oid>, o: Oid)
    requires Tally(p, st, owed, busy) && o in owed
    ensures o < |st.heap| && st.heap[o].rc > 0
  {
    assert (HeapRefs(st.heap) + owed)[o] > 0;
  }

  lemma ReadIsLive(p: Program, st: St, owed: multiset<Oid>, busy: set<Oid>, j: Oid, field: Name)
    requires Tally(p, st, owed, busy) && j < |st.heap|
    ensures var x := GetField(st.heap[j].fields, field);
      x.Some? && x.value.VObj? ==> x.value.o < |st.heap| && st.heap[x.value.o].rc > 0
  {
    var x := GetField(st.heap[j].fields, field);
    if x.Some? && x.value.VObj? {
      var o := x.value.o;
      GetFieldRefs(st.heap[j].fields, field);
      HeapRefsAt(st.heap, j);
      assert 1 <= OptRefs(x)[o] <= FieldRefs(st.heap[j].fields)[o] <= HeapRefs(st.heap)[o];
      assert (HeapRefs(st.heap) + owed)[o] > 0;
    }
  }

  /** A count that stays positive. */
  lemma TalliedCount(p: Program, o: Oid, rc: nat, st: St, tally: multiset<Oid>, busy: set<Oid>)
    requires Tallied(p, st, tally, busy) && o < |st.heap| && st.heap[o].rc > 0 && rc > 0
    ensures Tallied(p, WithCount(st, o, rc), tally[o := rc], busy)
  {
    var h' := WithCount(st, o, rc).heap;
    forall i | 0 <= i < |h'|
      ensures FieldsFit(p, h'[i])
      ensures h'[i].rc == 0 ==> i !in busy ==> FieldRefs(h'[i].fields) == multiset{}
    {
      assert FieldsFit(p, st.heap[i]);
    }
  }

  /** A count that drops to zero: the object is recorded as torn and starts dying. */
  lemma TalliedDeath(p: Program, o: Oid, st: St, tally: multiset<Oid>, busy: set<Oid>)
    requires Tallied(p, st, tally, busy) && o < |st.heap| && st.heap[o].rc > 0
    ensures var st1 := WithCount(st, o, 0);
      Tallied(p, st1.(torn := st1.torn + [o]), tally[o := 0], busy + {o})
  {
    var st1 := WithCount(st, o, 0);
    var h' := st1.heap;
    forall i | 0 <= i < |h'|
      ensures FieldsFit(p, h'[i])
      ensures h'[i].rc == 0 ==> i !in busy + {o} ==> FieldRefs(h'[i].fields) == multiset{}
    {
      assert FieldsFit(p, st.heap[i]);
    }
    forall i: nat
      ensures multiset(st.torn + [o])[i] == if i < |h'| && h'[i].rc == 0 then 1 else 0
    {
      assert multiset(st.torn + [o])[i] == multiset(st.torn)[i] + multiset([o])[i];
    }
  }

  /** New fields, in an object that is alive or being torn down. */
  lemma TalliedFields(p: Program, o: Oid, fs: seq<Field>, st: St, tally: multiset<Oid>, busy: set<Oid>)
    requires Tallied(p, st, tally, busy) && o < |st.heap| && (st.heap[o].rc > 0 || o in busy)
    requires FieldsFit(p, st.heap[o].(fields := fs))
    ensures Tallied(p, WithFields(st, o, fs), tally, busy)
  {
    var h' := WithFields(st, o, fs).heap;
    forall i | 0 <= i < |h'|
      ensures FieldsFit(p, h'[i])
      ensures h'[i].rc == 0 ==> i !in busy ==> FieldRefs(h'[i].fields) == multiset{}
    {
      assert FieldsFit(p, st.heap[i]);
    }
  }

  lemma TalliedGrow(p: Program, b: Obj, st: St, tally: multiset<Oid>, busy: set<Oid>)
    requires Tallied(p, st, tally, busy) && b.rc == 1 && FieldsFit(p, b)
    ensures Tallied(p, st.(heap := st.heap + [b]), tally + multiset{|st.heap|}, busy)
  {
    var h' := st.heap + [b];
    forall i | 0 <= i < |h'|
      ensures FieldsFit(p, h'[i])
      ensures h'[i].rc == 0 ==> i !in busy ==> FieldRefs(h'[i].fields) == multiset{}
    {
      if i < |st.heap| {
        assert FieldsFit(p, st.heap[i]);
      }
    }
  }

  /** An object whose fields are gone is no longer being torn down. */
  lemma TalliedGone(p: Program, o: Oid, st: St, tally: multiset<Oid>, busy: set<Oid>)
    requires Tallied(p, st, tally, busy + {o}) && o < |st.heap| && FieldRefs(st.heap[o].fields) == multiset{}
    ensures Tallied(p, st, tally, busy)
  {
  }

  lemma SameTally(p: Program, a: St, b: St, owed: multiset<Oid>, busy: set<Oid>)
    requires a.heap == b.heap && a.torn == b.torn && Tally(p, a, owed, busy)
    ensures Tally(p, b, owed, busy)
  {
  }

  // ---- the steps of the evaluator on counted states --------------------------------------------

  lemma OneMore(h: multiset<Oid>, owed: multiset<Oid>, o: Oid)
    ensures h + (owed + multiset{o}) == (h + owed)[o := (h + owed)[o] + 1]
    ensures h + owed == (h + (owed + multiset{o}))[o := (h + owed)[o]]
    ensures (h + (owed + multiset{o}))[o] == (h + owed)[o] + 1
  {
    forall i ensures (h + (owed + multiset{o}))[i] == (h + owed)[i] + multiset{o}[i] {
    }
  }

  /** Another reference to a live object. */
  lemma TallyRaise(p: Program, o: Oid, st: St, owed: multiset<Oid>, busy: set<Oid>)
    requires Tally(p, st, owed, busy) && o < |st.heap| && st.heap[o].rc > 0
    ensures Tally(p, WithCount(st, o, st.heap[o].rc + 1), owed + multiset{o}, busy)
  {
    var rc := st.heap[o].rc + 1;
    HeapRefsCount(st.heap, o, rc);
    TalliedCount(p, o, rc, st, HeapRefs(st.heap) + owed, busy);
    OneMore(HeapRefs(st.heap), owed, o);
  }

  lemma TallyRetain(p: Program, v: Value, st: St, owed: multiset<Oid>, busy: set<Oid>)
    requires Tally(p, st, owed, busy)
    requires v.VObj? ==> v.o < |st.heap| && st.heap[v.o].rc > 0
    ensures Tally(p, Retain(v, st), owed + Refs(v), busy) && FewerEdges(st.heap, Retain(v, st).heap)
  {
    hide Tally;
    if v.VObj? {
      TallyRaise(p, v.o, st, owed, busy);
      CountEdges(v.o, st.heap[v.o].rc + 1, st);
    } else {
      assert owed + Refs(v) == owed;
    }
  }

  lemma ExactRetain(p: Program, v: Value, st: St, owed: multiset<Oid>, busy: set<Oid>)
    requires Exact(p, st, owed, busy)
    requires v.VObj? ==> v.o < |st.heap| && st.heap[v.o].rc > 0
    ensures Exact(p, Retain(v, st), owed + Refs(v), busy)
  {
    hide Tally, InitOnly, Acyclic, FewerEdges;
    TallyRetain(p, v, st, owed, busy);
    if InitOnly(p) {
      AcyclicFewer(st.heap, Retain(v, st).heap);
    }
  }

  /** A reference fewer to an object that stays alive. */
  lemma TallyLower(p: Program, o: Oid, st: St, owed: multiset<Oid>, busy: set<Oid>)
    requires Tally(p, st, owed + multiset{o}, busy)
    ensures o < |st.heap| && st.heap[o].rc > 0
    ensures st.heap[o].rc > 1 ==> Tally(p, WithCount(st, o, st.heap[o].rc - 1), owed, busy)
  {
    OwedIsLive(p, st, owed + multiset{o}, busy, o);
    var all := HeapRefs(st.heap) + (owed + multiset{o});
    var rc := st.heap[o].rc - 1;
    if rc > 0 {
      HeapRefsCount(st.heap, o, rc);
      TalliedCount(p, o, rc, st, all, busy);
      OneMore(HeapRefs(st.heap), owed, o);
    }
  }

  /** The last reference to an object goes. */
  lemma TallyDeath(p: Program, o: Oid, st: St, owed: multiset<Oid>, busy: set<Oid>)
    requires Tally(p, st, owed + multiset{o}, busy) && o < |st.heap| && st.heap[o].rc == 1
    ensures var st1 := WithCount(st, o, 0);
      Tally(p, st1.(torn := st1.torn + [o]), owed, busy + {o}) && Hidden(st1, o)
  {
    var all := HeapRefs(st.heap) + (owed + multiset{o});
    HeapRefsCount(st.heap, o, 0);
    TalliedDeath(p, o, st, all, busy);
    OneMore(HeapRefs(st.heap), owed, o);
  }

  /** Storing a value in a declared field of a live object turns the reference to
      the old value into a temporary. */
  lemma TallyStore(p: Program, o: Oid, field: Name, v: Value, st: St, owed: multiset<Oid>, busy: set<Oid>)
    requires Tally(p, st, owed + Refs(v), busy) && o < |st.heap| && st.heap[o].rc > 0
    requires field in FieldOrder(p, Chain(p, st.heap[o].cls))
    ensures var fs := st.heap[o].fields;
      Tally(p, WithFields(st, o, SetField(fs, field, v)), owed + OptRefs(GetField(fs, field)), busy)
  {
    var fs := st.heap[o].fields;
    var after := SetField(fs, field, v);
    assert FieldsFit(p, st.heap[o]);
    SetFieldFits(fs, field, v, FieldOrder(p, Chain(p, st.heap[o].cls)));
    SetFieldRefs(fs, field, v);
    TalliedFields(p, o, after, st, HeapRefs(st.heap) + (owed + Refs(v)), busy);
    HeapRefsUpdate(st.heap, o, st.heap[o].(fields := after));
    Exchange(HeapRefs(st.heap), HeapRefs(WithFields(st, o, after).heap), FieldRefs(fs), FieldRefs(after),
             Refs(v), OptRefs(GetField(fs, field)), owed);
  }

  lemma ExactStore(p: Program, o: Oid, field: Name, v: Value, st: St, owed: multiset<Oid>, busy: set<Oid>)
    requires Exact(p, st, owed + Refs(v), busy) && o < |st.heap| && st.heap[o].rc > 0
    requires field in FieldOrder(p, Chain(p, st.heap[o].cls))
    requires InitOnly(p) && v.VObj? ==> Hidden(st, o) && v != VObj(o)
    ensures var fs := st.heap[o].fields;
      Exact(p, WithFields(st, o, SetField(fs, field, v)), owed + OptRefs(GetField(fs, field)), busy)
  {
    hide Tally, InitOnly, Acyclic;
    TallyStore(p, o, field, v, st, owed, busy);
    if InitOnly(p) {
      if v.VObj? {
        HiddenStoreAcyclic(o, field, v, st);
      } else {
        ScalarStoreAcyclic(o, field, v, st);
      }
    }
  }

  lemma Exchange(h: multiset<Oid>, h': multiset<Oid>, f: multiset<Oid>, f': multiset<Oid>,
                 x: multiset<Oid>, was: multiset<Oid>, owed: multiset<Oid>)
    requires h' + f == h + f' && f' + was == f + x
    ensures h' + (owed + was) == h + (owed + x)
  {
    forall i ensures (h' + (owed + was))[i] == (h + (owed + x))[i] {
      assert (h' + f)[i] == (h + f')[i] && (f' + was)[i] == (f + x)[i];
    }
  }

  /** Unlinking a field of a dying object turns its reference into a temporary. */
  lemma TallyDelete(p: Program, o: Oid, field: Name, st: St, owed: multiset<Oid>, busy: set<Oid>)
    requires Tally(p, st, owed, busy) && o < |st.heap| && o in busy
    ensures var fs := st.heap[o].fields;
      Tally(p, WithFields(st, o, DelField(fs, field)), owed + OptRefs(GetField(fs, field)), busy)
  {
    var fs := st.heap[o].fields;
    var after := DelField(fs, field);
    assert FieldsFit(p, st.heap[o]);
    DelFieldIs(fs, field);
    assert FieldsFit(p, st.heap[o].(fields := after));
    DelFieldRefs(fs, field);
    TalliedFields(p, o, after, st, HeapRefs(st.heap) + owed, busy);
    HeapRefsUpdate(st.heap, o, st.heap[o].(fields := after));
    assert owed + multiset{} == owed;
    assert FieldRefs(fs) + multiset{} == FieldRefs(fs);
    Exchange(HeapRefs(st.heap), HeapRefs(WithFields(st, o, after).heap), FieldRefs(fs), FieldRefs(after),
             multiset{}, OptRefs(GetField(fs, field)), owed);
  }

  /** A fresh object, held by the constructor's caller. */
  lemma ExactGrow(p: Program, cls: ClassId, st: St, owed: multiset<Oid>, busy: set<Oid>)
    requires Exact(p, st, owed, busy)
    ensures var o := |st.heap|;
      var st1 := st.(heap := st.heap + [Obj(cls, Initial(p, Chain(p, cls), []), 1)]);
      Exact(p, st1, owed + multiset{o}, busy) && Hidden(st1, o) && o !in owed
  {
    hide InitOnly, Acyclic, Tally, Initial;
    if InitOnly(p) {
      GrowAcyclic(p, cls, st);
    }
    var b := Obj(cls, Initial(p, Chain(p, cls), []), 1);
    InitialFits(p, Chain(p, cls), []);
    NothingUnder(b.fields);
    TallyGrow(p, b, st, owed, busy);
  }

  lemma TallyGrow(p: Program, b: Obj, st: St, owed: multiset<Oid>, busy: set<Oid>)
    requires Tally(p, st, owed, busy) && b.rc == 1 && FieldsFit(p, b) && FieldRefs(b.fields) == multiset{}
    ensures var o := |st.heap|;
      var st1 := st.(heap := st.heap + [b]);
      Tally(p, st1, owed + multiset{o}, busy) && Hidden(st1, o) && o !in owed
  {
    hide Emptied, TornOnce, Formed, FieldsFit;
    var o := |st.heap|;
    HeapRefsAppend(st.heap, b);
    assert HeapRefs(st.heap + [b]) == HeapRefs(st.heap);
    TalliedGrow(p, b, st, HeapRefs(st.heap) + owed, busy);
    assert HeapRefs(st.heap) + (owed + multiset{o}) == HeapRefs(st.heap) + owed + multiset{o};
    assert (HeapRefs(st.heap) + owed)[o] == 0;
  }
}

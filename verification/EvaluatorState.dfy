/**
  The two objects the evaluator updates in place: the oracle, which counts
  references and tears objects down, and the scoped environment, which releases
  what it owns.  Their loops compute the functions of Evaluator.
*/
module EvaluatorState {
  import opened Options
  import opened Evaluator

  /** What an exception leaves behind: None when there was none. */
  predicate Agrees(r: Rel, why: Option<Stop>, st: St) {
    st == r.st && why == if r.Failed? then Some(r.why) else None
  }

  // ---- lists taken apart from behind ---------------------------------------------------

  lemma {:induction false} OwnedLast(s: Scope, n: Slot)
    ensures Owned(s + [n]) == if n.owned then Owned(s) + [n.val] else Owned(s)
  {
    if s != [] {
      assert (s + [n])[1..] == s[1..] + [n];
      OwnedLast(s[1..], n);
    } else {
      assert (s + [n])[1..] == [];
    }
  }

  /** Releasing a list releases its end first. */
  lemma {:induction false} ReleaseConcat(p: Program, a: seq<Value>, b: seq<Value>, st: St)
    ensures ReleaseAll(p, a + b, st) ==
      var d := ReleaseAll(p, b, st);
      if d.Failed? then d else ReleaseAll(p, a, d.st)
    decreases |b|
  {
    hide Release;
    if b == [] {
      assert a + b == a;
    } else {
      var n := |b| - 1;
      assert (a + b)[..|a + b| - 1] == a + b[..n];
      var d := Release(p, b[n], st);
      if d.Done? {
        ReleaseConcat(p, a, b[..n], d.st);
      }
    }
  }

  lemma ReleaseLast(p: Program, vs: seq<Value>, v: Value, st: St)
    ensures ReleaseAll(p, vs + [v], st) ==
      var d := Release(p, v, st);
      if d.Failed? then d else ReleaseAll(p, vs, d.st)
  {
    assert (vs + [v])[..|vs|] == vs;
  }

  lemma {:induction false} BackwardsLast(fs: seq<FieldDecl>, d: FieldDecl)
    ensures Backwards(fs + [d]) == [d.name] + Backwards(fs)
  {
    if fs != [] {
      assert (fs + [d])[1..] == fs[1..] + [d];
      BackwardsLast(fs[1..], d);
    } else {
      assert (fs + [d])[1..] == [];
    }
  }

  class Oracle {
    const p: Program
    var heap: seq<Obj>
    var out: seq<Line>
    var fuel: nat
    var torn: seq<Oid>
    var lost: seq<Oid>
    var dry: bool

    constructor (p: Program, fuel: nat)
      ensures this.p == p && State() == St([], [], fuel, [], [], false)
    {
      this.p := p;
      heap, out, this.fuel, torn, lost, dry := [], [], fuel, [], [], false;
    }

    function State(): St
      reads this
    {
      St(heap, out, fuel, torn, lost, dry)
    }

    method Become(st: St)
      modifies this
      ensures State() == st
    {
      heap, out, fuel, torn, lost, dry := st.heap, st.out, st.fuel, st.torn, st.lost, st.dry;
    }

    /** release */
    method Drop(v: Value) returns (why: Option<Stop>)
      modifies this
      ensures Agrees(Release(p, v, old(State())), why, State())
      decreases fuel, 1
    {
      if !v.VObj? {
        return None;
      }
      if v.o >= |heap| {
        return Some(Stuck);
      }
      heap := heap[v.o := heap[v.o].(rc := heap[v.o].rc - 1)];
      if heap[v.o].rc == 0 {
        why := TearDown(v.o);
      } else if heap[v.o].rc < 0 {
        why := Some(Negative);
      } else {
        why := None;
      }
    }

    /** teardown: deinit bodies, nearest class first; then the fields that hold
        objects, nearest class first and each class's last declared first. */
    method TearDown(o: Oid) returns (why: Option<Stop>)
      requires o < |heap|
      modifies this
      ensures Agrees(Teardown(p, o, old(State())), why, State())
      decreases fuel, 0
    {
      torn := torn + [o];
      if fuel <= 1 {
        dry := true;
        return Some(Exhausted);
      }
      var chain := Chain(p, heap[o].cls);
      fuel := fuel - 1;
      why := RunDeinits(chain, o);
      if why.None? {
        why := DropAll(chain, o);
      }
    }

    method RunDeinits(chain: seq<ClassId>, o: Oid) returns (why: Option<Stop>)
      requires Declared(p, chain)
      modifies this
      ensures Agrees(Deinits(p, chain, o, old(State())), why, State())
    {
      hide Block;
      var i := 0;
      while i < |chain|
        invariant i <= |chain|
        invariant Deinits(p, chain, o, old(State())) == Deinits(p, chain[i..], o, State())
      {
        assert chain[i..][1..] == chain[i + 1..];
        var body := p.classes[chain[i]].deinit;
        if body.Some? {
          var x := Block(p, body.value, SelfEnv(Some(VObj(o))), State());
          Become(x.st);
          if x.flow.Stops? {
            return Some(x.flow.why);
          } else if !x.flow.Next? {
            return Some(Stuck);
          }
        }
        i := i + 1;
      }
      why := None;
    }

    method DropAll(chain: seq<ClassId>, o: Oid) returns (why: Option<Stop>)
      requires Declared(p, chain)
      modifies this
      ensures Agrees(DropFields(p, FieldOrder(p, chain), o, old(State())), why, State())
      decreases fuel, 3
    {
      var i := 0;
      ghost var was := State();
      while i < |chain|
        invariant i <= |chain| && fuel <= was.fuel
        invariant DropFields(p, FieldOrder(p, chain), o, was) == DropFields(p, FieldOrder(p, chain[i..]), o, State())
      {
        assert chain[i..][1..] == chain[i + 1..];
        ghost var rest := FieldOrder(p, chain[i + 1..]);
        why := DropOwn(p.classes[chain[i]].fields, rest, o);
        if why.Some? {
          return;
        }
        i := i + 1;
      }
      why := None;
    }

    /** The fields one class declares; rest are those of its bases. */
    method DropOwn(fields: seq<FieldDecl>, ghost rest: seq<Name>, o: Oid) returns (why: Option<Stop>)
      modifies this
      ensures fuel <= old(fuel)
      ensures var r := DropFields(p, Backwards(fields) + rest, o, old(State()));
        if why.Some? then Agrees(r, why, State()) else r == DropFields(p, rest, o, State())
      decreases fuel, 2
    {
      var j := |fields|;
      ghost var was := State();
      assert fields[..j] == fields;
      while j > 0
        invariant 0 <= j <= |fields| && fuel <= was.fuel
        invariant DropFields(p, Backwards(fields) + rest, o, was) == DropFields(p, Backwards(fields[..j]) + rest, o, State())
      {
        j := j - 1;
        var name := fields[j].name;
        ghost var names := Backwards(fields[..j]) + rest;
        assert fields[..j + 1] == fields[..j] + [fields[j]];
        BackwardsLast(fields[..j], fields[j]);
        assert Backwards(fields[..j + 1]) + rest == [name] + names;
        assert ([name] + names)[1..] == names;
        if o >= |heap| {
          return Some(Stuck);
        }
        var v := GetField(heap[o].fields, name);
        if v.Some? && v.value.VObj? {
          heap := heap[o := heap[o].(fields := DelField(heap[o].fields, name))];
          why := Drop(v.value);
          if why.Some? {
            return;
          }
        }
      }
      assert fields[..0] == [] && [] + rest == rest;
      why := None;
    }
  }

  class Env {
    const interp: Oracle
    var scopes: seq<Scope>

    constructor (interp: Oracle)
      ensures this.interp == interp && scopes == [[]]
    {
      this.interp := interp;
      scopes := [[]];
    }

    method Open()
      modifies `scopes
      ensures scopes == Push(old(scopes))
    {
      scopes := scopes + [[]];
    }

    /** pop: release what the innermost scope owns, newest first. */
    method Close() returns (why: Option<Stop>)
      requires scopes != []
      modifies `scopes, interp
      ensures scopes == old(scopes)[..|old(scopes)| - 1]
      ensures Agrees(ReleaseAll(interp.p, Owned(old(scopes)[|scopes|]), old(interp.State())), why, interp.State())
    {
      var scope := scopes[|scopes| - 1];
      scopes := scopes[..|scopes| - 1];
      var j := |scope|;
      ghost var was := interp.State();
      assert scope[..j] == scope;
      while j > 0
        invariant 0 <= j <= |scope|
        invariant ReleaseAll(interp.p, Owned(scope), was) == ReleaseAll(interp.p, Owned(scope[..j]), interp.State())
        modifies interp
      {
        hide Release, ReleaseAll;
        j := j - 1;
        assert scope[..j + 1] == scope[..j] + [scope[j]];
        OwnedLast(scope[..j], scope[j]);
        ReleaseLast(interp.p, Owned(scope[..j]), scope[j].val, interp.State());
        if scope[j].owned {
          why := interp.Drop(scope[j].val);
          if why.Some? {
            return;
          }
        }
      }
      why := None;
    }

    method CloseAll() returns (why: Option<Stop>)
      modifies `scopes, interp
      ensures Agrees(ReleaseAll(interp.p, OwnedAll(old(scopes)), old(interp.State())), why, interp.State())
      ensures why.None? ==> scopes == []
    {
      ghost var was := interp.State();
      while scopes != []
        invariant ReleaseAll(interp.p, OwnedAll(old(scopes)), was) == ReleaseAll(interp.p, OwnedAll(scopes), interp.State())
        decreases |scopes|
      {
        hide ReleaseAll;
        ReleaseConcat(interp.p, OwnedAll(scopes[..|scopes| - 1]), Owned(scopes[|scopes| - 1]), interp.State());
        why := Close();
        if why.Some? {
          return;
        }
      }
      why := None;
    }

    method Bind(name: Name, value: Value, owned: bool)
      requires scopes != []
      modifies `scopes, interp`lost
      ensures scopes == Declare(old(scopes), Slot(name, value, owned))
      ensures interp.State() == Lose(old(interp.State()), old(scopes), name)
    {
      interp.lost := interp.lost + Dropped(scopes, name);
      scopes := scopes[|scopes| - 1 := SetSlot(scopes[|scopes| - 1], Slot(name, value, owned))];
    }

    /** lookup: None is the exception for an unbound name. */
    method Find(name: Name) returns (v: Option<Value>)
      ensures v == Lookup(scopes, name)
    {
      var i := |scopes|;
      assert scopes[..i] == scopes;
      while i > 0
        invariant 0 <= i <= |scopes| && Lookup(scopes, name) == Lookup(scopes[..i], name)
      {
        i := i - 1;
        assert scopes[..i + 1][..i] == scopes[..i];
        v := LookupScope(scopes[i], name);
        if v.Some? {
          return;
        }
      }
      v := None;
    }

    /** assign: overwrite the innermost binding, then release what it owned. */
    method Put(name: Name, value: Value) returns (why: Option<Stop>)
      modifies `scopes, interp
      ensures var was := FindSlot(old(scopes), name);
        if was.None? then why == Some(Unsupported) && scopes == old(scopes) && interp.State() == old(interp.State())
        else
          && scopes == SetVar(old(scopes), name, value)
          && var r := if was.value.owned then Release(interp.p, was.value.val, old(interp.State()))
                      else Done(old(interp.State()));
             Agrees(r, why, interp.State())
    {
      var i := |scopes|;
      assert scopes[..i] == scopes && scopes[i..] == [];
      while i > 0
        invariant 0 <= i <= |scopes| && scopes == old(scopes) && interp.State() == old(interp.State())
        invariant FindSlot(scopes, name) == FindSlot(scopes[..i], name)
        invariant SetVar(scopes, name, value) == SetVar(scopes[..i], name, value) + scopes[i..]
      {
        i := i - 1;
        ghost var front := scopes[..i + 1];
        assert front[..i] == scopes[..i] && front[i] == scopes[i];
        var here := SlotOf(scopes[i], name);
        if here.Some? {
          scopes := scopes[i := SetSlot(scopes[i], Slot(name, value, true))];
          if here.value.owned {
            why := interp.Drop(here.value.val);
          } else {
            why := None;
          }
          return;
        }
      }
      why := Some(Unsupported);
    }
  }
}

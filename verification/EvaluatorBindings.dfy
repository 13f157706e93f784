/**
  Names and fields: what a lookup finds after a declaration, an assignment, a push of a
  scope or the binding of parameters, and what a field holds after a store.
*/
module EvaluatorBindings {
  import opened Options
  import opened Evaluator

  // ---- scopes ---------------------------------------------------------------------------

  lemma {:induction false} ScopeAfterSet(s: Scope, n: Slot, x: Name)
    ensures LookupScope(SetSlot(s, n), x) == if x == n.name then Some(n.val) else LookupScope(s, x)
    ensures SlotOf(SetSlot(s, n), x) == if x == n.name then Some(n) else SlotOf(s, x)
    ensures SlotOf(s, x).Some? <==> LookupScope(s, x).Some?
  {
    if s != [] {
      ScopeAfterSet(s[1..], n, x);
      if s[0].name != n.name {
        assert SetSlot(s, n)[1..] == SetSlot(s[1..], n);
      } else {
        assert SetSlot(s, n)[1..] == s[1..];
      }
    }
  }

  /** The slot an assignment will overwrite holds what the name means. */
  lemma {:induction false} SlotHoldsMeaning(env: Env, x: Name)
    ensures Lookup(env, x) == if FindSlot(env, x).Some? then Some(FindSlot(env, x).value.val) else None
  {
    if env != [] {
      SlotInScope(env[|env| - 1], x);
      SlotHoldsMeaning(env[..|env| - 1], x);
    }
  }

  lemma {:induction false} SlotInScope(s: Scope, x: Name)
    ensures LookupScope(s, x) == if SlotOf(s, x).Some? then Some(SlotOf(s, x).value.val) else None
  {
    if s != [] {
      SlotInScope(s[1..], x);
    }
  }

  /** A new scope hides nothing. */
  lemma LookupAfterPush(env: Env, x: Name)
    ensures Lookup(Push(env), x) == Lookup(env, x) && FindSlot(Push(env), x) == FindSlot(env, x)
  {
    assert Push(env)[..|env|] == env;
  }

  /** What a scope binds hides the bindings outside it, and nothing else does. */
  lemma LookupInside(env: Env, s: Scope, x: Name)
    ensures Lookup(env + [s], x) == if LookupScope(s, x).Some? then LookupScope(s, x) else Lookup(env, x)
  {
    assert (env + [s])[..|env|] == env;
  }

  /** A declaration is what its name means from then on, whatever it meant before, and no
      other name changes its meaning. */
  lemma LookupAfterDeclare(env: Env, n: Slot, x: Name)
    requires env != []
    ensures Lookup(Declare(env, n), x) == if x == n.name then Some(n.val) else Lookup(env, x)
    ensures FindSlot(Declare(env, n), n.name) == Some(n)
  {
    var k := |env| - 1;
    ScopeAfterSet(env[k], n, x);
    ScopeAfterSet(env[k], n, n.name);
    assert Declare(env, n)[..k] == env[..k];
  }

  /** And when its scope is popped the old meaning is back. */
  lemma LookupAfterScope(env: Env, n: Slot, x: Name)
    ensures var after := Declare(Push(env), n);
      |after| == |env| + 1 && Lookup(after[..|after| - 1], x) == Lookup(env, x)
  {
    assert Declare(Push(env), n)[..|env|] == env;
  }

  /** An assignment changes what its name means and nothing else, and the name owns its
      value; without a binding it changes nothing. */
  lemma {:induction false} LookupAfterAssign(env: Env, name: Name, v: Value, x: Name)
    ensures Lookup(SetVar(env, name, v), x) ==
      if x == name && Lookup(env, name).Some? then Some(v) else Lookup(env, x)
    ensures Lookup(env, name).Some? ==> FindSlot(SetVar(env, name, v), name) == Some(Slot(name, v, true))
    ensures Lookup(env, name).None? ==> SetVar(env, name, v) == env
  {
    if env != [] {
      var k := |env| - 1;
      var after := SetVar(env, name, v);
      ScopeAfterSet(env[k], Slot(name, v, true), x);
      ScopeAfterSet(env[k], Slot(name, v, true), name);
      if SlotOf(env[k], name).Some? {
        assert after[..k] == env[..k];
      } else {
        LookupAfterAssign(env[..k], name, v, x);
        SameScopes(env[..k], name, v);
        assert after[..|after| - 1] == SetVar(env[..k], name, v) && after[|after| - 1] == env[k];
        if x != name {
          ScopeAfterSet(env[k], Slot(name, v, true), x);
        }
      }
    }
  }

  /** The binding overwritten is the innermost: scopes inside and outside it stay. */
  lemma {:induction false} SameScopes(env: Env, name: Name, v: Value)
    ensures |SetVar(env, name, v)| == |env|
    ensures forall k :: 0 <= k < |env| ==>
      if SlotOf(env[k], name).Some? && forall j :: k < j < |env| ==> SlotOf(env[j], name).None?
      then SetVar(env, name, v)[k] == SetSlot(env[k], Slot(name, v, true))
      else SetVar(env, name, v)[k] == env[k]
  {
    if env != [] {
      SameScopes(env[..|env| - 1], name, v);
    }
  }

  // ---- parameters --------------------------------------------------------------------------

  /** The last parameter of a name that got a value. */
  predicate LastOf(names: seq<Name>, vs: seq<Value>, k: nat) {
    k < |names| && k < |vs| && forall j :: k < j < |names| && j < |vs| ==> names[j] != names[k]
  }

  /** Parameters are bound to the values in order; a name given twice means the later, and
      a name that is no parameter means what it meant. */
  lemma {:induction false} LookupParameter(names: seq<Name>, vs: seq<Value>, env: Env)
    requires env != []
    ensures forall k: nat :: LastOf(names, vs, k) ==> Lookup(Params(names, vs, env), names[k]) == Some(vs[k])
    ensures forall x :: x !in names ==> Lookup(Params(names, vs, env), x) == Lookup(env, x)
  {
    if names != [] && vs != [] {
      var n := Slot(names[0], vs[0], false);
      var env1 := Declare(env, n);
      LookupParameter(names[1..], vs[1..], env1);
      forall k: nat | LastOf(names, vs, k) ensures Lookup(Params(names, vs, env), names[k]) == Some(vs[k]) {
        if k > 0 {
          LastAfter(names, vs, k);
        } else {
          LookupAfterDeclare(env, n, names[0]);
          FirstOnly(names, vs, env1);
        }
      }
      forall x | x !in names ensures Lookup(Params(names, vs, env), x) == Lookup(env, x) {
        LookupAfterDeclare(env, n, x);
      }
    }
  }

  lemma LastAfter(names: seq<Name>, vs: seq<Value>, k: nat)
    requires k > 0 && LastOf(names, vs, k)
    ensures LastOf(names[1..], vs[1..], k - 1) && names[1..][k - 1] == names[k] && vs[1..][k - 1] == vs[k]
  {
    forall j | k - 1 < j < |names[1..]| && j < |vs[1..]| ensures names[1..][j] != names[k] {
      assert names[1..][j] == names[j + 1];
    }
  }

  /** A name that gets no value from the rest keeps the one it has. */
  lemma {:induction false} Kept(names: seq<Name>, vs: seq<Value>, env: Env, x: Name)
    requires env != [] && forall j :: 0 <= j < |names| && j < |vs| ==> names[j] != x
    ensures Lookup(Params(names, vs, env), x) == Lookup(env, x)
  {
    if names != [] && vs != [] {
      LookupAfterDeclare(env, Slot(names[0], vs[0], false), x);
      Kept(names[1..], vs[1..], Declare(env, Slot(names[0], vs[0], false)), x);
    }
  }

  lemma FirstOnly(names: seq<Name>, vs: seq<Value>, env1: Env)
    requires env1 != [] && LastOf(names, vs, 0)
    ensures Lookup(Params(names[1..], vs[1..], env1), names[0]) == Lookup(env1, names[0])
  {
    forall j | 0 <= j < |names[1..]| && j < |vs[1..]| ensures names[1..][j] != names[0] {
      assert names[1..][j] == names[j + 1];
    }
    Kept(names[1..], vs[1..], env1, names[0]);
  }

  /** A method sees its receiver as self, unless a parameter takes the name. */
  lemma SelfIsBound(names: seq<Name>, vs: seq<Value>, v: Value)
    requires SELF !in names
    ensures Lookup(Params(names, vs, SelfEnv(Some(v))), SELF) == Some(v)
  {
    LookupParameter(names, vs, SelfEnv(Some(v)));
  }

  // ---- fields ---------------------------------------------------------------------------------

  /** A store changes the one field. */
  lemma {:induction false} FieldAfterStore(fs: seq<Field>, f: Name, v: Value, g: Name)
    ensures GetField(SetField(fs, f, v), g) == if g == f then Some(v) else GetField(fs, g)
  {
    if fs != [] {
      FieldAfterStore(fs[1..], f, v, g);
      if fs[0].name == f {
        assert SetField(fs, f, v)[1..] == fs[1..];
      } else {
        assert SetField(fs, f, v)[1..] == SetField(fs[1..], f, v);
      }
    }
  }

  /** A default is the field's first value, when no other class of the line declares it. */
  lemma {:induction false} DefaultIsFirstValue(p: Program, chain: seq<ClassId>, i: nat, j: nat, fs: seq<Field>)
    requires Declared(p, chain) && i < |chain| && j < |p.classes[chain[i]].fields|
    requires var d := p.classes[chain[i]].fields[j];
      && d.initial.Some?
      && OnlyHere(p.classes[chain[i]].fields, j)
      && forall k :: i < k < |chain| ==> NotAmong(p.classes[chain[k]].fields, d.name)
    ensures var d := p.classes[chain[i]].fields[j];
      GetField(Initial(p, chain, fs), d.name) == Some(VInt(d.initial.value))
    decreases |chain|
  {
    var d := p.classes[chain[i]].fields[j];
    var own := InitialOwn(p.classes[chain[0]].fields, fs);
    if i == 0 {
      DefaultOwn(p.classes[chain[0]].fields, j, fs);
      forall k | 0 <= k < |chain[1..]| ensures NotAmong(p.classes[chain[1..][k]].fields, d.name) {
        assert chain[1..][k] == chain[k + 1];
      }
      Untouched(p, chain[1..], d.name, own);
    } else {
      assert chain[1..][i - 1] == chain[i];
      forall k | i - 1 < k < |chain[1..]| ensures NotAmong(p.classes[chain[1..][k]].fields, d.name) {
        assert chain[1..][k] == chain[k + 1];
      }
      DefaultIsFirstValue(p, chain[1..], i - 1, j, own);
    }
  }

  predicate NotAmong(ds: seq<FieldDecl>, name: Name) {
    forall k :: 0 <= k < |ds| ==> ds[k].name != name
  }

  predicate OnlyHere(ds: seq<FieldDecl>, j: nat)
    requires j < |ds|
  {
    forall k :: 0 <= k < |ds| && k != j ==> ds[k].name != ds[j].name
  }

  lemma {:induction false} DefaultOwn(ds: seq<FieldDecl>, j: nat, fs: seq<Field>)
    requires j < |ds| && ds[j].initial.Some? && OnlyHere(ds, j)
    ensures GetField(InitialOwn(ds, fs), ds[j].name) == Some(VInt(ds[j].initial.value))
  {
    var own := if ds[0].initial.Some? then SetField(fs, ds[0].name, VInt(ds[0].initial.value)) else fs;
    if j == 0 {
      FieldAfterStore(fs, ds[0].name, VInt(ds[0].initial.value), ds[0].name);
      forall k | 0 <= k < |ds[1..]| ensures ds[1..][k].name != ds[0].name {
        assert ds[1..][k] == ds[k + 1];
      }
      UntouchedOwn(ds[1..], ds[0].name, own);
    } else {
      assert ds[1..][j - 1] == ds[j];
      forall k | 0 <= k < |ds[1..]| && k != j - 1 ensures ds[1..][k].name != ds[j].name {
        assert ds[1..][k] == ds[k + 1];
      }
      DefaultOwn(ds[1..], j - 1, own);
    }
  }

  lemma {:induction false} UntouchedOwn(ds: seq<FieldDecl>, name: Name, fs: seq<Field>)
    requires NotAmong(ds, name)
    ensures GetField(InitialOwn(ds, fs), name) == GetField(fs, name)
  {
    if ds != [] {
      if ds[0].initial.Some? {
        FieldAfterStore(fs, ds[0].name, VInt(ds[0].initial.value), name);
      }
      UntouchedOwn(ds[1..], name, if ds[0].initial.Some? then SetField(fs, ds[0].name, VInt(ds[0].initial.value)) else fs);
    }
  }

  lemma {:induction false} Untouched(p: Program, chain: seq<ClassId>, name: Name, fs: seq<Field>)
    requires Declared(p, chain) && forall k :: 0 <= k < |chain| ==> NotAmong(p.classes[chain[k]].fields, name)
    ensures GetField(Initial(p, chain, fs), name) == GetField(fs, name)
    decreases |chain|
  {
    if chain != [] {
      UntouchedOwn(p.classes[chain[0]].fields, name, fs);
      Untouched(p, chain[1..], name, InitialOwn(p.classes[chain[0]].fields, fs));
    }
  }

  /** A field assignment whose old value is a scalar: the object holds the new value, and
      its other fields, the other objects and all counts are as they were. */
  lemma StoredFieldHolds(p: Program, o: Oid, f: Name, v: Value, st: St)
    requires Replace(p, VObj(o), f, v, st).Done? && o < |st.heap|
    requires var was := GetField(st.heap[o].fields, f); was.Some? ==> !was.value.VObj?
    ensures var st' := Replace(p, VObj(o), f, v, st).st;
      && |st'.heap| == |st.heap| && st'.out == st.out && st'.torn == st.torn
      && (forall g :: GetField(st'.heap[o].fields, g) == if g == f then Some(v) else GetField(st.heap[o].fields, g))
      && (forall k :: 0 <= k < |st.heap| && k != o ==> st'.heap[k] == st.heap[k])
      && st'.heap[o].rc == st.heap[o].rc && st'.heap[o].cls == st.heap[o].cls
  {
    hide HoldsObjects, FieldOrder;
    forall g ensures GetField(SetField(st.heap[o].fields, f, v), g) == if g == f then Some(v) else GetField(st.heap[o].fields, g) {
      FieldAfterStore(st.heap[o].fields, f, v, g);
    }
  }
}

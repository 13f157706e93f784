/**
  Every step of the evaluator keeps the counts sound: a value just computed is one
  reference more, a value released is one fewer, and a statement moves references
  between the slots of its environment and the fields of the heap.
*/
module EvaluatorCounts {
  import opened Options
  import opened Evaluator
  import opened EvaluatorRefs
  import opened EvaluatorScopes
  import opened EvaluatorSound

  // ---- what the steps promise ---------------------------------------------------------

  ghost predicate EvGood(p: Program, r: Ev, owed: multiset<Oid>, busy: set<Oid>) {
    if r.Ok? then Sound(p, r.st, owed + Refs(r.v), busy) else Failing(p, r.why, r.st, owed, busy)
  }

  ghost predicate EvsGood(p: Program, r: Evs, owed: multiset<Oid>, busy: set<Oid>) {
    if r.Oks? then Sound(p, r.st, owed + AllRefs(r.vs), busy) else Failing(p, r.why, r.st, owed, busy)
  }

  function FlowRefs(f: Flow): multiset<Oid> {
    if f.Returns? then Refs(f.v) else multiset{}
  }

  /** outer is what the callers of the running function owe. */
  ghost predicate ExGood(p: Program, x: Ex, outer: multiset<Oid>, busy: set<Oid>) {
    && Held(x.env, outer)
    && if x.flow.Stops? then Failing(p, x.flow.why, x.st, outer + EnvRefs(x.env), busy)
       else Sound(p, x.st, outer + EnvRefs(x.env) + FlowRefs(x.flow), busy)
  }

  // ---- environments -----------------------------------------------------------------------

  predicate ScopeIn(s: Scope, owed: multiset<Oid>) {
    forall j :: 0 <= j < |s| ==> s[j].val.VObj? ==> s[j].val.o in owed
  }

  /** Every object in scope is owed by someone, so it is alive. */
  predicate EnvIn(env: Env, owed: multiset<Oid>) {
    forall k :: 0 <= k < |env| ==> ScopeIn(env[k], owed)
  }

  predicate ScopeHeld(s: Scope, outer: multiset<Oid>) {
    forall j :: 0 <= j < |s| ==> !s[j].owned ==> s[j].val.VObj? ==> s[j].val.o in outer
  }

  /** Borrowed bindings are owed by the callers. */
  predicate Held(env: Env, outer: multiset<Oid>) {
    forall k :: 0 <= k < |env| ==> ScopeHeld(env[k], outer)
  }

  predicate ValsIn(vs: seq<Value>, owed: multiset<Oid>) {
    forall k :: 0 <= k < |vs| ==> vs[k].VObj? ==> vs[k].o in owed
  }

  function OwnedRefs(n: Slot): multiset<Oid> {
    if n.owned then Refs(n.val) else multiset{}
  }

  lemma {:induction false} AllRefsIn(vs: seq<Value>, owed: multiset<Oid>)
    requires AllRefs(vs) <= owed
    ensures ValsIn(vs, owed)
  {
    if vs != [] {
      var n := |vs| - 1;
      AllRefsIn(vs[..n], owed);
      forall k | 0 <= k < |vs| && vs[k].VObj? ensures vs[k].o in owed {
        if k < n {
          assert vs[k] == vs[..n][k];
        } else {
          assert AllRefs(vs)[vs[n].o] >= Refs(vs[n])[vs[n].o];
        }
      }
    }
  }

  lemma {:induction false} LookupIn(env: Env, name: Name, owed: multiset<Oid>)
    requires EnvIn(env, owed)
    ensures var v := Lookup(env, name);
      v.Some? && v.value.VObj? ==> v.value.o in owed
  {
    if env != [] {
      LookupScopeIn(env[|env| - 1], name, owed);
      LookupIn(env[..|env| - 1], name, owed);
    }
  }

  lemma {:induction false} LookupScopeIn(s: Scope, name: Name, owed: multiset<Oid>)
    requires ScopeIn(s, owed)
    ensures var v := LookupScope(s, name);
      v.Some? && v.value.VObj? ==> v.value.o in owed
  {
    if s != [] {
      LookupScopeIn(s[1..], name, owed);
    }
  }

  lemma {:induction false} OwnedIn(s: Scope)
    ensures forall j :: 0 <= j < |s| ==> s[j].owned ==> s[j].val.VObj? ==> s[j].val.o in ScopeRefs(s)
  {
    if s != [] {
      OwnedIn(s[1..]);
      var first := if s[0].owned then [s[0].val] else [];
      AllRefsConcat(first, Owned(s[1..]));
      AllRefsOne(s[0].val);
      forall j | 0 <= j < |s| && s[j].owned && s[j].val.VObj? ensures s[j].val.o in ScopeRefs(s) {
        if j > 0 {
          assert s[j] == s[1..][j - 1];
        }
      }
    }
  }

  lemma {:induction false} ScopeRefsAt(env: Env, k: nat)
    requires k < |env|
    ensures ScopeRefs(env[k]) <= EnvRefs(env)
  {
    if k < |env| - 1 {
      ScopeRefsAt(env[..|env| - 1], k);
    }
  }

  lemma HeldIsIn(env: Env, outer: multiset<Oid>)
    requires Held(env, outer)
    ensures EnvIn(env, outer + EnvRefs(env))
  {
    forall k | 0 <= k < |env| ensures ScopeIn(env[k], outer + EnvRefs(env)) {
      OwnedIn(env[k]);
      ScopeRefsAt(env, k);
    }
  }

  lemma EnvInMore(env: Env, owed: multiset<Oid>, more: multiset<Oid>)
    requires EnvIn(env, owed)
    ensures EnvIn(env, owed + more)
  {
    forall k | 0 <= k < |env| ensures ScopeIn(env[k], owed + more) {
    }
  }

  lemma {:induction false} OwnedAppend(s: Scope, n: Slot)
    ensures ScopeRefs(s + [n]) == ScopeRefs(s) + OwnedRefs(n)
  {
    hide AllRefs;
    if s == [] {
      ScopeRefsHead(n, []);
      assert s + [n] == [n] + [];
    } else {
      var rest := s[1..];
      OwnedAppend(rest, n);
      ScopeRefsHead(s[0], rest);
      ScopeRefsHead(s[0], rest + [n]);
      assert s == [s[0]] + rest;
      assert s + [n] == [s[0]] + (rest + [n]);
    }
  }

  /** What a declaration overwrites. */
  function Overwritten(env: Env, name: Name): multiset<Oid> {
    multiset(Dropped(env, name))
  }

  lemma OverwrittenSlot(env: Env, name: Name)
    requires env != []
    ensures var was := SlotOf(Top(env), name);
      Overwritten(env, name) == if was.Some? then OwnedRefs(was.value) else multiset{}
  {
  }

  lemma {:induction false} SetSlotGains(s: Scope, n: Slot, outer: multiset<Oid>)
    requires n.owned && ScopeHeld(s, outer)
    ensures var was := SlotOf(s, n.name);
      ScopeRefs(SetSlot(s, n)) + (if was.Some? then OwnedRefs(was.value) else multiset{}) == ScopeRefs(s) + Refs(n.val)
    ensures ScopeHeld(SetSlot(s, n), outer)
  {
    if SlotOf(s, n.name).Some? {
      SetSlotRefs(s, n, outer);
    } else {
      SetSlotNames(s, n);
      OwnedAppend(s, n);
    }
  }

  lemma DeclareOwned(env: Env, n: Slot, outer: multiset<Oid>)
    requires env != [] && n.owned && Held(env, outer)
    ensures EnvRefs(Declare(env, n)) + Overwritten(env, n.name) == EnvRefs(env) + Refs(n.val)
    ensures Held(Declare(env, n), outer)
  {
    SetSlotGains(Top(env), n, outer);
    OverwrittenSlot(env, n.name);
    var after := Declare(env, n);
    var front := env[..|env| - 1];
    assert after[..|after| - 1] == front;
    Swap(EnvRefs(front), ScopeRefs(Top(after)), Overwritten(env, n.name), ScopeRefs(Top(env)), Refs(n.val));
    forall k | 0 <= k < |after| ensures ScopeHeld(after[k], outer) {
      assert k < |after| - 1 ==> ScopeHeld(env[k], outer);
    }
  }

  /** A declaration keeps the references of the environment exact, the new one added,
      if and only if it overwrites no owned object. */
  lemma DeclareIsExactIff(env: Env, n: Slot, outer: multiset<Oid>)
    requires env != [] && n.owned && Held(env, outer)
    ensures EnvRefs(Declare(env, n)) == EnvRefs(env) + Refs(n.val) <==> Dropped(env, n.name) == []
  {
    DeclareOwned(env, n, outer);
    var after, gone := EnvRefs(Declare(env, n)), Overwritten(env, n.name);
    assert |after + gone| == |after| + |gone|;
    if gone == multiset{} {
      assert after + gone == after;
    }
  }

  /** A name not declared before overwrites nothing. */
  lemma FreshName(env: Env, name: Name, taken: set<Name>)
    requires env != [] && NamesIn(Top(env), taken) && name !in taken
    ensures Dropped(env, name) == []
  {
    NotTaken(Top(env), taken, name);
  }

  lemma PushRefs(env: Env, outer: multiset<Oid>)
    requires Held(env, outer)
    ensures EnvRefs(Push(env)) == EnvRefs(env) && Held(Push(env), outer)
  {
    assert Push(env)[..|env|] == env;
  }

  lemma ScopeRefsHead(n: Slot, rest: Scope)
    ensures ScopeRefs([n] + rest) == OwnedRefs(n) + ScopeRefs(rest)
  {
    assert ([n] + rest)[1..] == rest;
    AllRefsOne(n.val);
    AllRefsConcat(if n.owned then [n.val] else [], Owned(rest));
  }

  lemma {:induction false} SetSlotRefs(s: Scope, n: Slot, outer: multiset<Oid>)
    requires SlotOf(s, n.name).Some? && n.owned && ScopeHeld(s, outer)
    ensures ScopeRefs(SetSlot(s, n)) + OwnedRefs(SlotOf(s, n.name).value) == ScopeRefs(s) + Refs(n.val)
    ensures ScopeHeld(SetSlot(s, n), outer)
  {
    assert s == [s[0]] + s[1..];
    ScopeRefsHead(s[0], s[1..]);
    if s[0].name == n.name {
      ScopeRefsHead(n, s[1..]);
    } else {
      SetSlotRefs(s[1..], n, outer);
      ScopeRefsHead(s[0], SetSlot(s[1..], n));
      Swap(OwnedRefs(s[0]), ScopeRefs(SetSlot(s[1..], n)), OwnedRefs(SlotOf(s, n.name).value),
           ScopeRefs(s[1..]), Refs(n.val));
    }
  }

  /** The slot an assignment overwrites gives up its reference, if it had one. */
  lemma {:induction false} SetVarRefs(env: Env, name: Name, v: Value, outer: multiset<Oid>)
    requires FindSlot(env, name).Some? && Held(env, outer)
    ensures EnvRefs(SetVar(env, name, v)) + OwnedRefs(FindSlot(env, name).value) == EnvRefs(env) + Refs(v)
    ensures Held(SetVar(env, name, v), outer)
  {
    hide SetSlot, ScopeRefs, ScopeHeld, OwnedRefs, SameNames;
    var n := |env| - 1;
    var top, front := env[n], env[..n];
    var after := SetVar(env, name, v);
    assert ScopeHeld(top, outer);
    SetVarNames(env, name, v);
    if SlotOf(top, name).Some? {
      SetSlotRefs(top, Slot(name, v, true), outer);
      assert after[..n] == front;
      Swap(EnvRefs(front), ScopeRefs(after[n]), OwnedRefs(FindSlot(env, name).value), ScopeRefs(top), Refs(v));
    } else {
      SetVarRefs(front, name, v, outer);
      SetVarNames(front, name, v);
      assert after[..n] == SetVar(front, name, v);
      Swap(ScopeRefs(top), EnvRefs(after[..n]), OwnedRefs(FindSlot(env, name).value), EnvRefs(front), Refs(v));
    }
  }

  predicate NoneOwned(s: Scope) {
    forall j :: 0 <= j < |s| ==> !s[j].owned
  }

  lemma {:induction false} NoneOwnedRefs(s: Scope)
    requires NoneOwned(s)
    ensures ScopeRefs(s) == multiset{}
  {
    if s != [] {
      NoneOwnedRefs(s[1..]);
      assert Owned(s) == Owned(s[1..]);
    }
  }

  lemma {:induction false} BorrowSlot(s: Scope, n: Slot, taken: set<Name>, owed: multiset<Oid>)
    requires NoneOwned(s) && NamesIn(s, taken) && ScopeIn(s, owed)
    requires !n.owned && n.name in taken && (n.val.VObj? ==> n.val.o in owed)
    ensures var after := SetSlot(s, n);
      NoneOwned(after) && NamesIn(after, taken) && ScopeIn(after, owed)
  {
    if s != [] && s[0].name != n.name {
      BorrowSlot(s[1..], n, taken, owed);
    }
  }

  /** Parameters are borrowed. */
  lemma {:induction false} ParamsBorrow(names: seq<Name>, vs: seq<Value>, s: Scope, taken: set<Name>, owed: multiset<Oid>)
    requires NoneOwned(s) && NamesIn(s, taken) && ScopeIn(s, owed)
    requires ValsIn(vs, owed) && ParamSet(names) <= taken
    ensures var env := Params(names, vs, [s]);
      |env| == 1 && NoneOwned(env[0]) && NamesIn(env[0], taken) && ScopeIn(env[0], owed)
  {
    if names != [] && vs != [] {
      var n := Slot(names[0], vs[0], false);
      assert names[0] in ParamSet(names);
      BorrowSlot(s, n, taken, owed);
      assert Declare([s], n) == [SetSlot(s, n)];
      assert ParamSet(names[1..]) <= ParamSet(names);
      ParamsBorrow(names[1..], vs[1..], SetSlot(s, n), taken, owed);
    }
  }

  /** The environment of a call. */
  lemma CallEnv(params: seq<Name>, vs: seq<Value>, self: Option<Value>, owed: multiset<Oid>)
    requires ValsIn(vs, owed) && (self.Some? && self.value.VObj? ==> self.value.o in owed)
    ensures var env := Params(params, vs, SelfEnv(self));
      && env != [] && NamesIn(Top(env), {SELF} + ParamSet(params))
      && EnvIn(env, owed) && Held(env, owed) && EnvRefs(env) == multiset{}
  {
    var s := SelfEnv(self)[0];
    assert SelfEnv(self) == [s];
    ParamsBorrow(params, vs, s, {SELF} + ParamSet(params), owed);
    var env := Params(params, vs, [s]);
    NoneOwnedRefs(env[0]);
    assert env[..0] == [];
  }
}

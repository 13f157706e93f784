/**
  Dynamic dispatch: which method a call runs, said by the place of its declaration in
  the line of bases, and which function a name means.
*/
module EvaluatorDispatch {
  import opened Options
  import opened Evaluator

  // ---- declarations ---------------------------------------------------------------------

  /** The class declares a method for the slot. */
  predicate Declares(c: ClassDecl, slot: nat) {
    exists k :: 0 <= k < |c.methods| && c.methods[k].slot == slot
  }

  /** m is the first method the class declares for the slot. */
  predicate IsFirst(c: ClassDecl, slot: nat, m: MethodDecl) {
    exists k :: 0 <= k < |c.methods| && c.methods[k] == m && m.slot == slot && NoneBefore(c.methods, slot, k)
  }

  predicate NoneBefore(ms: seq<MethodDecl>, slot: nat, k: nat)
    requires k <= |ms|
  {
    forall j :: 0 <= j < k ==> ms[j].slot != slot
  }

  /** The nearest class of the chain that declares the slot declares m for it. */
  ghost predicate Nearest(p: Program, chain: seq<ClassId>, slot: nat, m: MethodDecl)
    requires Declared(p, chain)
  {
    exists i :: 0 <= i < |chain| && IsFirst(p.classes[chain[i]], slot, m) && NoneNearer(p, chain, slot, i)
  }

  predicate NoneNearer(p: Program, chain: seq<ClassId>, slot: nat, i: nat)
    requires Declared(p, chain) && i <= |chain|
  {
    forall j :: 0 <= j < i ==> !Declares(p.classes[chain[j]], slot)
  }

  /** No class of the chain declares the slot. */
  predicate NothingDeclares(p: Program, chain: seq<ClassId>, slot: nat)
    requires Declared(p, chain)
  {
    NoneNearer(p, chain, slot, |chain|)
  }

  // ---- looking a slot up ------------------------------------------------------------------

  lemma {:induction false} FindMethodFinds(ms: seq<MethodDecl>, slot: nat)
    ensures var r := FindMethod(ms, slot);
      if r.Some? then exists k :: 0 <= k < |ms| && ms[k] == r.value && r.value.slot == slot && NoneBefore(ms, slot, k)
      else NoneBefore(ms, slot, |ms|)
  {
    if ms != [] && ms[0].slot != slot {
      FindMethodFinds(ms[1..], slot);
      var r := FindMethod(ms[1..], slot);
      if r.Some? {
        var k :| 0 <= k < |ms[1..]| && ms[1..][k] == r.value && r.value.slot == slot && NoneBefore(ms[1..], slot, k);
        forall j | 0 <= j < k + 1 ensures ms[j].slot != slot {
          assert j > 0 ==> ms[1..][j - 1] == ms[j];
        }
        assert ms[k + 1] == r.value && NoneBefore(ms, slot, k + 1);
      } else {
        forall j | 0 <= j < |ms| ensures ms[j].slot != slot {
          assert j > 0 ==> ms[1..][j - 1] == ms[j];
        }
      }
    }
  }

  lemma FirstIsUnique(c: ClassDecl, slot: nat, m: MethodDecl, n: MethodDecl)
    requires IsFirst(c, slot, m) && IsFirst(c, slot, n)
    ensures m == n
  {
    var k :| 0 <= k < |c.methods| && c.methods[k] == m && m.slot == slot && NoneBefore(c.methods, slot, k);
    var l :| 0 <= l < |c.methods| && c.methods[l] == n && n.slot == slot && NoneBefore(c.methods, slot, l);
    NotBefore(c.methods, slot, k, l);
    NotBefore(c.methods, slot, l, k);
  }

  lemma NotBefore(ms: seq<MethodDecl>, slot: nat, k: nat, l: nat)
    requires l <= |ms| && NoneBefore(ms, slot, l) && k < |ms| && ms[k].slot == slot
    ensures k >= l
  {
  }

  /** What one class contributes. */
  lemma FindMethodIs(c: ClassDecl, slot: nat)
    ensures var r := FindMethod(c.methods, slot);
      (r.Some? <==> Declares(c, slot)) && (r.Some? ==> IsFirst(c, slot, r.value))
  {
    FindMethodFinds(c.methods, slot);
  }

  lemma {:induction false} ResolveFinds(p: Program, chain: seq<ClassId>, slot: nat)
    requires Declared(p, chain)
    ensures var r := Resolve(p, chain, slot);
      if r.Some? then Nearest(p, chain, slot, r.value) else NoneNearer(p, chain, slot, |chain|)
  {
    hide FindMethod, Declares, IsFirst;
    if chain != [] {
      FindMethodIs(p.classes[chain[0]], slot);
      var m := FindMethod(p.classes[chain[0]].methods, slot);
      if m.Some? {
        assert NoneNearer(p, chain, slot, 0);
      } else {
        ResolveFinds(p, chain[1..], slot);
        Further(p, chain, slot);
      }
    }
  }

  /** A class that does not declare the slot is passed over. */
  lemma Further(p: Program, chain: seq<ClassId>, slot: nat)
    requires Declared(p, chain) && chain != [] && !Declares(p.classes[chain[0]], slot)
    ensures forall i :: 0 <= i <= |chain| - 1 && NoneNearer(p, chain[1..], slot, i) ==> NoneNearer(p, chain, slot, i + 1)
    ensures forall m :: Nearest(p, chain[1..], slot, m) ==> Nearest(p, chain, slot, m)
  {
    hide Declares, IsFirst;
    var rest := chain[1..];
    forall i | 0 <= i <= |rest| && NoneNearer(p, rest, slot, i) ensures NoneNearer(p, chain, slot, i + 1) {
      forall j | 0 <= j < i + 1 ensures !Declares(p.classes[chain[j]], slot) {
        assert j > 0 ==> chain[j] == rest[j - 1];
      }
    }
    forall m | Nearest(p, rest, slot, m) ensures Nearest(p, chain, slot, m) {
      var i :| 0 <= i < |rest| && IsFirst(p.classes[rest[i]], slot, m) && NoneNearer(p, rest, slot, i);
      assert chain[i + 1] == rest[i] && NoneNearer(p, chain, slot, i + 1);
    }
  }

  lemma FirstDeclares(c: ClassDecl, slot: nat, m: MethodDecl)
    requires IsFirst(c, slot, m)
    ensures Declares(c, slot)
  {
  }

  lemma NearestIsUnique(p: Program, chain: seq<ClassId>, slot: nat, m: MethodDecl, n: MethodDecl)
    requires Declared(p, chain) && Nearest(p, chain, slot, m) && Nearest(p, chain, slot, n)
    ensures m == n
  {
    hide Declares, IsFirst;
    var i :| 0 <= i < |chain| && IsFirst(p.classes[chain[i]], slot, m) && NoneNearer(p, chain, slot, i);
    var j :| 0 <= j < |chain| && IsFirst(p.classes[chain[j]], slot, n) && NoneNearer(p, chain, slot, j);
    FirstDeclares(p.classes[chain[i]], slot, m);
    FirstDeclares(p.classes[chain[j]], slot, n);
    NotNearer(p, chain, slot, i, j);
    NotNearer(p, chain, slot, j, i);
    FirstIsUnique(p.classes[chain[i]], slot, m, n);
  }

  lemma NotNearer(p: Program, chain: seq<ClassId>, slot: nat, i: nat, j: nat)
    requires Declared(p, chain) && j <= |chain| && NoneNearer(p, chain, slot, j)
    requires i < |chain| && Declares(p.classes[chain[i]], slot)
    ensures i >= j
  {
  }

  /** resolve_impl answers a method if and only if it is the first its class declares for
      the slot and no class nearer to the start of the chain declares the slot; it answers
      nothing if and only if no class does. */
  lemma ResolveIff(p: Program, chain: seq<ClassId>, slot: nat)
    requires Declared(p, chain)
    ensures forall m :: Resolve(p, chain, slot) == Some(m) <==> Nearest(p, chain, slot, m)
    ensures Resolve(p, chain, slot).None? <==> NothingDeclares(p, chain, slot)
  {
    hide Resolve, Declares, IsFirst;
    ResolveFinds(p, chain, slot);
    forall m ensures Resolve(p, chain, slot) == Some(m) <==> Nearest(p, chain, slot, m) {
      if Nearest(p, chain, slot, m) {
        NearestDeclares(p, chain, slot, m);
        NearestIsUnique(p, chain, slot, m, Resolve(p, chain, slot).value);
      }
    }
    if r: MethodDecl :| Resolve(p, chain, slot) == Some(r) {
      NearestDeclares(p, chain, slot, r);
    }
  }

  lemma NearestDeclares(p: Program, chain: seq<ClassId>, slot: nat, m: MethodDecl)
    requires Declared(p, chain) && Nearest(p, chain, slot, m)
    ensures exists i :: 0 <= i < |chain| && Declares(p.classes[chain[i]], slot)
    ensures !NoneNearer(p, chain, slot, |chain|)
  {
    hide Declares, IsFirst;
    var i :| 0 <= i < |chain| && IsFirst(p.classes[chain[i]], slot, m) && NoneNearer(p, chain, slot, i);
    FirstDeclares(p.classes[chain[i]], slot, m);
  }

  // ---- the line of bases ---------------------------------------------------------------------

  /** The class a class extends: one declared before it. */
  function Base(p: Program, c: ClassId): Option<ClassId> {
    if c < |p.classes| && p.classes[c].parent.Some? && p.classes[c].parent.value < c then p.classes[c].parent else None
  }

  /** The chain of a class starts with it, goes from each class to the one it extends, and
      ends with one that extends nothing. */
  lemma {:induction false} ChainIsTheLine(p: Program, c: ClassId)
    requires c < |p.classes|
    ensures var chain := Chain(p, c);
      && |chain| > 0 && chain[0] == c
      && (forall i :: 0 <= i < |chain| - 1 ==> Base(p, chain[i]) == Some(chain[i + 1]))
      && Base(p, chain[|chain| - 1]).None?
  {
    if Base(p, c).Some? {
      var rest := Chain(p, p.classes[c].parent.value);
      ChainIsTheLine(p, p.classes[c].parent.value);
      assert Chain(p, c) == [c] + rest;
      var chain := Chain(p, c);
      forall i | 0 <= i < |chain| - 1 ensures Base(p, chain[i]) == Some(chain[i + 1]) {
        assert i > 0 ==> chain[i] == rest[i - 1];
        assert chain[i + 1] == rest[i];
      }
      assert chain[|chain| - 1] == rest[|rest| - 1];
    }
  }

  // ---- calls -----------------------------------------------------------------------------------

  /** A method call runs the nearest implementation as seen from the class of the object,
      on that object and the evaluated arguments; the arguments and then the receiver are
      released after it. */
  lemma CallRunsTheNearest(p: Program, e: Expr, env: Env, st: St, m: MethodDecl)
    requires e.MethodCall?
    requires var o := Eval(p, e.recv, env, st);
      && o.Ok? && o.v.VObj?
      && var vs := EvalArgs(p, e.args, env, o.st);
         vs.Oks? && o.v.o < |vs.st.heap| && Nearest(p, Chain(p, vs.st.heap[o.v.o].cls), e.slot, m)
    ensures var o := Eval(p, e.recv, env, st);
      var vs := EvalArgs(p, e.args, env, o.st);
      var r := Invoke(p, m.params, m.body, m.hasResult, Some(o.v), vs.vs, vs.st);
      Eval(p, e, env, st) ==
        if r.Halt? then r
        else
          var d := ReleaseAll(p, vs.vs, r.st);
          if d.Failed? then Halt(d.why, d.st) else Finish(r.v, Release(p, o.v, d.st))
  {
    hide Invoke, ReleaseAll, Release, EvalArgs, Resolve, Nearest;
    var o := Eval(p, e.recv, env, st);
    var vs := EvalArgs(p, e.args, env, o.st);
    ResolveIff(p, Chain(p, vs.st.heap[o.v.o].cls), e.slot);
  }

  /** One for a slot that no class of the line declares is refused, in the state after
      the arguments. */
  lemma CallOfNothing(p: Program, e: Expr, env: Env, st: St)
    requires e.MethodCall?
    requires var o := Eval(p, e.recv, env, st);
      && o.Ok? && o.v.VObj?
      && var vs := EvalArgs(p, e.args, env, o.st);
         vs.Oks? && o.v.o < |vs.st.heap|
         && NothingDeclares(p, Chain(p, vs.st.heap[o.v.o].cls), e.slot)
    ensures Eval(p, e, env, st) == Halt(Unsupported, EvalArgs(p, e.args, env, Eval(p, e.recv, env, st).st).st)
  {
    hide Invoke, EvalArgs, Resolve, NothingDeclares;
    var o := Eval(p, e.recv, env, st);
    var vs := EvalArgs(p, e.args, env, o.st);
    ResolveIff(p, Chain(p, vs.st.heap[o.v.o].cls), e.slot);
  }

  /** A super call runs the nearest implementation strictly above the class it stands in,
      whatever the class of self. */
  lemma SuperRunsTheNearestAbove(p: Program, e: Expr, env: Env, st: St, base: ClassId, m: MethodDecl)
    requires e.SuperCall? && Lookup(env, SELF).Some? && Base(p, e.owner) == Some(base)
    requires EvalArgs(p, e.args, env, st).Oks? && Nearest(p, Chain(p, base), e.slot, m)
    ensures var vs := EvalArgs(p, e.args, env, st);
      var r := Invoke(p, m.params, m.body, m.hasResult, Lookup(env, SELF), vs.vs, vs.st);
      Eval(p, e, env, st) == if r.Halt? then r else Finish(r.v, ReleaseAll(p, vs.vs, r.st))
  {
    hide Invoke, ReleaseAll, EvalArgs, Resolve, Nearest;
    assert Chain(p, e.owner)[1..] == Chain(p, base);
    ResolveIff(p, Chain(p, base), e.slot);
  }

  // ---- functions -------------------------------------------------------------------------------

  /** A name means the last function declared under it. */
  lemma {:induction false} FunctionIff(fs: seq<FnDecl>, name: Name)
    ensures var r := FindFn(fs, name);
      if r.Some? then
        exists i :: 0 <= i < |fs| && fs[i] == r.value && fs[i].name == name
          && forall j :: i < j < |fs| ==> fs[j].name != name
      else forall i :: 0 <= i < |fs| ==> fs[i].name != name
  {
    if fs != [] {
      var n := |fs| - 1;
      var front := fs[..n];
      if fs[n].name != name {
        FunctionIff(front, name);
        var r := FindFn(front, name);
        if r.Some? {
          var i :| 0 <= i < |front| && front[i] == r.value && front[i].name == name
            && forall j :: i < j < |front| ==> front[j].name != name;
          forall j | i < j < |fs| ensures fs[j].name != name {
            assert j < n ==> front[j] == fs[j];
          }
          assert fs[i] == r.value;
        } else {
          forall i | 0 <= i < |fs| ensures fs[i].name != name {
            assert i < n ==> front[i] == fs[i];
          }
        }
      }
    }
  }
}

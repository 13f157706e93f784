/**
  Whole runs: the failed assertion on a negative count is unreachable, the counts
  at the end are exact unless a declaration dropped an object, and then and only
  then everything outside cycles is torn down.
*/
module EvaluatorLeaks {
  import opened Evaluator
  import opened EvaluatorRefs
  import opened EvaluatorScopes
  import opened EvaluatorAcyclic
  import opened EvaluatorExact
  import opened EvaluatorSound
  import opened EvaluatorCounts
  import opened EvaluatorBalance

  function Start(fuel: nat): St {
    St([], [], fuel, [], [], false)
  }

  /** Main came to its end and its locals were released. */
  predicate Completed(p: Program, fuel: nat) {
    CameToEnd(p, Block(p, p.main, [[]], Start(fuel)))
  }

  predicate CameToEnd(p: Program, x: Ex) {
    x.flow.Next? && ReleaseAll(p, OwnedAll(x.env), x.st).Done?
  }

  lemma StartSound(p: Program, fuel: nat)
    ensures Sound(p, Start(fuel), multiset{}, {})
  {
    NoRefsAcyclic([]);
  }

  /** However main ends, its counts are not too low, and no release found one below zero. */
  lemma RunIsSound(p: Program, fuel: nat)
    requires WellFormed(p)
    ensures var r := Run(p, fuel);
      && Leaky(p, r.st, multiset{}, {})
      && (r.NoResult? ==> !r.why.Negative?)
      && (Completed(p, fuel) ==> r.code == 0 && Sound(p, r.st, multiset{}, {}))
  {
    hide Sound, Leaky, Exact, EnvRefs, InitOnly, Block;
    StartSound(p, fuel);
    var env: Env := [[]];
    MainScope(env);
    MainFits(p);
    BalanceBlock(p, p.main, env, Start(fuel), {}, multiset{}, {});
    EndingIsSound(p, Block(p, p.main, env, Start(fuel)));
  }

  lemma EndingIsSound(p: Program, x: Ex)
    requires WellFormed(p) && ExGood(p, x, multiset{}, {})
    ensures var r := Ending(p, x);
      && Leaky(p, r.st, multiset{}, {})
      && (r.NoResult? ==> !r.why.Negative?)
      && (CameToEnd(p, x) ==> r.Result? && r.code == 0 && Sound(p, r.st, multiset{}, {}))
  {
    hide Sound, Leaky, EnvRefs, InitOnly, ReleaseAll;
    var owed := multiset{} + EnvRefs(x.env);
    var none: set<Oid> := {};
    assert none + none == none;
    if x.flow.Next? {
      EnvRefsOwned(x.env);
      assert owed + multiset{} == multiset{} + AllRefs(OwnedAll(x.env));
      SoundReleaseAll(p, OwnedAll(x.env), x.st, multiset{}, {});
      var d := ReleaseAll(p, OwnedAll(x.env), x.st);
      if d.Done? {
        SoundLeaks(p, d.st, multiset{}, {});
      }
    } else if x.flow.Stops? {
      LeaksMore(p, x.st, multiset{}, EnvRefs(x.env), none, none);
    } else {
      assert owed + FlowRefs(x.flow) == multiset{} + (EnvRefs(x.env) + FlowRefs(x.flow));
      Dangles(p, x.st, multiset{}, EnvRefs(x.env) + FlowRefs(x.flow), none);
    }
  }

  lemma MainScope(env: Env)
    requires env == [[]]
    ensures NamesIn(Top(env), {}) && Held(env, multiset{}) && multiset{} + EnvRefs(env) == multiset{}
  {
    assert env[..0] == [] && ScopeRefs([]) == multiset{};
    assert EnvRefs([]) == multiset{};
  }

  lemma MainFits(p: Program)
    ensures Fits(p, p.main, {})
  {
  }

  /** The assertion on a negative reference count cannot fail, whatever a program's
      scopes declare and however its evaluation ends. */
  lemma NegativeCountUnreachable(p: Program, fuel: nat)
    requires WellFormed(p)
    ensures forall st :: Run(p, fuel) != NoResult(Negative, st)
  {
    RunIsSound(p, fuel);
  }

  /** No object is torn down twice or while a field refers to it, however the run ends. */
  lemma NothingDiesEarly(p: Program, fuel: nat)
    requires WellFormed(p)
    ensures var st := Run(p, fuel).st;
      forall i :: 0 <= i < |st.heap| ==>
        && st.heap[i].rc >= HeapRefs(st.heap)[i]
        && multiset(st.torn)[i] == (if st.heap[i].rc == 0 then 1 else 0)
        && (i in multiset(st.torn) ==> HeapRefs(st.heap)[i] == 0)
  {
    RunIsSound(p, fuel);
    var st := Run(p, fuel).st;
    var leak: multiset<Oid>, more: set<Oid> :| Sound(p, st, multiset{} + leak, {} + more);
    CountsAre(p, st, multiset{} + leak, {} + more);
  }

  lemma CountsAre(p: Program, st: St, owed: multiset<Oid>, busy: set<Oid>)
    requires Sound(p, st, owed, busy)
    ensures forall i :: 0 <= i < |st.heap| ==>
      && st.heap[i].rc == HeapRefs(st.heap)[i] + owed[i] + multiset(st.lost)[i]
      && multiset(st.torn)[i] == (if st.heap[i].rc == 0 then 1 else 0)
  {
    forall i | 0 <= i < |st.heap|
      ensures st.heap[i].rc == HeapRefs(st.heap)[i] + owed[i] + multiset(st.lost)[i]
    {
      assert (HeapRefs(st.heap) + (owed + multiset(st.lost)))[i] == HeapRefs(st.heap)[i] + owed[i] + multiset(st.lost)[i];
    }
  }

  /** At the end of a run every count is the number of fields that refer to the object
      and of the bindings of it that were declared over; the objects torn down, each
      once, are those with none. */
  lemma FinalCountsAre(p: Program, fuel: nat)
    requires WellFormed(p) && Completed(p, fuel)
    ensures var st := Run(p, fuel).st;
      forall i :: 0 <= i < |st.heap| ==>
        && st.heap[i].rc == HeapRefs(st.heap)[i] + multiset(st.lost)[i]
        && multiset(st.torn)[i] == (if st.heap[i].rc == 0 then 1 else 0)
  {
    RunIsSound(p, fuel);
    CountsAre(p, Run(p, fuel).st, multiset{}, {});
  }

  /** Every object whose binding was declared over exists. */
  lemma LostExist(p: Program, fuel: nat)
    requires WellFormed(p) && Completed(p, fuel)
    ensures var st := Run(p, fuel).st; forall o :: o in st.lost ==> o < |st.heap|
  {
    RunIsSound(p, fuel);
    var st := Run(p, fuel).st;
    forall o | o in st.lost ensures o < |st.heap| {
      assert (HeapRefs(st.heap) + (multiset{} + multiset(st.lost)))[o] > 0;
    }
  }

  /** They are exact if and only if no declaration dropped an object. */
  lemma ExactIffNothingLost(p: Program, fuel: nat)
    requires WellFormed(p) && Completed(p, fuel)
    ensures var st := Run(p, fuel).st;
      (forall i :: 0 <= i < |st.heap| ==> st.heap[i].rc == HeapRefs(st.heap)[i]) <==> st.lost == []
  {
    FinalCountsAre(p, fuel);
    LostExist(p, fuel);
    var st := Run(p, fuel).st;
    if st.lost != [] {
      var o := st.lost[0];
      assert o in st.lost && o in multiset(st.lost) && st.heap[o].rc != HeapRefs(st.heap)[o];
    }
  }

  /** A program that declares names once in a scope drops nothing, however it ends. */
  lemma ScopedLosesNothing(p: Program, fuel: nat)
    requires WellFormed(p) && Scoped(p)
    ensures Run(p, fuel).st.lost == []
  {
    hide Exact, Scoped;
    RunIsSound(p, fuel);
    var st := Run(p, fuel).st;
    var leak: multiset<Oid>, more: set<Oid> :| Sound(p, st, multiset{} + leak, {} + more);
  }

  // ---- leaks and cycles ------------------------------------------------------------------

  /** Every object ever made was torn down exactly once. */
  ghost predicate AllTorn(st: St) {
    forall i: nat :: multiset(st.torn)[i] == if i < |st.heap| then 1 else 0
  }

  lemma {:induction false} Referrer(h: seq<Obj>, i: Oid) returns (j: Oid)
    requires i in HeapRefs(h)
    ensures Edge(h, j, i)
  {
    var n := |h| - 1;
    assert HeapRefs(h)[i] == HeapRefs(h[..n])[i] + FieldRefs(h[n].fields)[i];
    if i in FieldRefs(h[n].fields) {
      j := n;
    } else {
      j := Referrer(h[..n], i);
      assert h[..n][j] == h[j];
    }
  }

  /** Consecutive entries are linked by a field. */
  ghost predicate Walk(h: seq<Obj>, path: seq<Oid>) {
    forall k :: 0 <= k < |path| - 1 ==> Edge(h, path[k], path[k + 1])
  }

  /** A live object that no slot refers to hangs from another live one. */
  lemma LiveReferrer(p: Program, st: St, i: Oid) returns (j: Oid)
    requires Sound(p, st, multiset{}, {}) && st.lost == [] && i < |st.heap| && st.heap[i].rc > 0
    ensures j < |st.heap| && Edge(st.heap, j, i) && st.heap[j].rc > 0
  {
    hide InitOnly, Acyclic;
    CountsAre(p, st, multiset{}, {});
    j := Referrer(st.heap, i);
    assert st.heap[j].rc != 0;
  }

  /** From a live object one can walk back along references as far as one likes. */
  lemma {:induction false} WalkBack(p: Program, st: St, i: Oid, n: nat) returns (path: seq<Oid>)
    requires Sound(p, st, multiset{}, {}) && st.lost == [] && i < |st.heap| && st.heap[i].rc > 0
    ensures |path| == n + 1 && Walk(st.heap, path) && path[n] == i
    ensures forall k :: 0 <= k < |path| ==> path[k] < |st.heap|
    decreases n
  {
    hide Exact, Edge;
    if n == 0 {
      path := [i];
    } else {
      var j := LiveReferrer(p, st, i);
      var before := WalkBack(p, st, j, n - 1);
      path := before + [i];
    }
  }

  /** More entries than values: one occurs twice. */
  lemma {:induction false} Repeats(path: seq<Oid>, n: nat) returns (a: nat, b: nat)
    requires |path| > n && forall k :: 0 <= k < |path| ==> path[k] < n
    ensures a < b < |path| && path[a] == path[b]
    decreases n
  {
    if k :| 0 <= k < |path| - 1 && path[k] == path[|path| - 1] {
      a, b := k, |path| - 1;
    } else {
      var last := path[|path| - 1];
      var rest := seq(|path| - 1, k requires 0 <= k < |path| - 1 => if path[k] == n - 1 then last else path[k]);
      a, b := Repeats(rest, n - 1);
    }
  }

  lemma WalkCloses(h: seq<Obj>, path: seq<Oid>)
    requires Walk(h, path) && |path| > |h| && forall k :: 0 <= k < |path| ==> path[k] < |h|
    ensures !Acyclic(h)
  {
    var a, b := Repeats(path, |h|);
    var cycle := path[a..b + 1];
    forall k | 0 <= k < |cycle| - 1 ensures Edge(h, cycle[k], cycle[k + 1]) {
      assert Edge(h, path[a + k], path[a + k + 1]);
    }
    assert Closed(h, cycle);
  }

  /** Reference counting reclaims everything if and only if no objects refer to each
      other in a circle when main ends, and no declaration dropped an object. */
  lemma AllTornIffAcyclic(p: Program, fuel: nat)
    requires WellFormed(p) && Completed(p, fuel)
    ensures var st := Run(p, fuel).st;
      AllTorn(st) <==> Acyclic(st.heap) && st.lost == []
  {
    FinalCountsAre(p, fuel);
    var st := Run(p, fuel).st;
    LostExist(p, fuel);
    if st.lost != [] {
      LostOutlives(st);
    }
    if AllTorn(st) {
      TornIsAcyclic(p, fuel);
    } else if Acyclic(st.heap) && st.lost == [] {
      RunIsSound(p, fuel);
      StillLive(p, st);
    }
  }

  /** An object whose binding was declared over outlives main. */
  lemma LostOutlives(st: St)
    requires st.lost != [] && forall o :: o in st.lost ==> o < |st.heap|
    requires forall i :: 0 <= i < |st.heap| ==>
      && st.heap[i].rc == HeapRefs(st.heap)[i] + multiset(st.lost)[i]
      && multiset(st.torn)[i] == (if st.heap[i].rc == 0 then 1 else 0)
    ensures !AllTorn(st)
  {
    var o := st.lost[0];
    assert o in st.lost && o in multiset(st.lost);
    assert multiset(st.torn)[o] == 0;
  }

  lemma NoRefsAcyclic(h: seq<Obj>)
    requires forall i :: 0 <= i < |h| ==> FieldRefs(h[i].fields) == multiset{}
    ensures Acyclic(h)
  {
    forall path ensures !Closed(h, path) {
      if |path| >= 2 {
        assert !Edge(h, path[0], path[0 + 1]);
      }
    }
  }

  lemma TornIsAcyclic(p: Program, fuel: nat)
    requires WellFormed(p) && Completed(p, fuel) && AllTorn(Run(p, fuel).st)
    ensures Acyclic(Run(p, fuel).st.heap)
  {
    RunIsSound(p, fuel);
    var st := Run(p, fuel).st;
    forall i | 0 <= i < |st.heap| ensures FieldRefs(st.heap[i].fields) == multiset{} {
      assert multiset(st.torn)[i] == 1;
    }
    NoRefsAcyclic(st.heap);
  }

  /** An object that outlives main hangs from a cycle. */
  lemma StillLive(p: Program, st: St)
    requires Sound(p, st, multiset{}, {}) && st.lost == [] && !AllTorn(st)
    ensures !Acyclic(st.heap)
  {
    hide InitOnly, Acyclic;
    CountsAre(p, st, multiset{}, {});
    var i: nat :| multiset(st.torn)[i] != if i < |st.heap| then 1 else 0;
    var path := WalkBack(p, st, i, |st.heap|);
    WalkCloses(st.heap, path);
  }

  /** When initializers alone write class-typed fields, as in every generated
      program, each object is torn down exactly once by the end of main, if and only
      if no declaration dropped one. */
  lemma NothingLeaks(p: Program, fuel: nat)
    requires WellFormed(p) && InitOnly(p) && Completed(p, fuel)
    ensures AllTorn(Run(p, fuel).st) <==> Run(p, fuel).st.lost == []
  {
    RunIsSound(p, fuel);
    AllTornIffAcyclic(p, fuel);
  }
}

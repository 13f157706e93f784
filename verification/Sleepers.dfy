/**
  The timers of a worker: a binary min-heap of deadlines in a growable array, with
  removal of any entry by fiber.
*/
module Sleepers {
  type FiberId = nat
  datatype Sleeper = Sleeper(deadline: int, fiber: FiberId)

  function Parent(i: nat): nat
    requires i > 0
  {
    (i - 1) / 2
  }

  // ---- heap order ---------------------------------------------------------------------

  predicate Ordered(s: seq<Sleeper>, i: nat)
    requires 0 < i < |s|
  {
    s[Parent(i)].deadline <= s[i].deadline
  }

  predicate Heap(s: seq<Sleeper>) {
    forall i :: 0 < i < |s| ==> Ordered(s, i)
  }

  /** A heap but for the entry at the hole; around it the order holds across. */
  predicate Holed(s: seq<Sleeper>, at: nat)
    requires at < |s|
  {
    && (forall i :: 0 < i < |s| ==> i != at ==> Parent(i) != at ==> Ordered(s, i))
    && (at > 0 ==> forall i :: 0 < i < |s| ==> Parent(i) == at ==> s[Parent(at)].deadline <= s[i].deadline)
  }

  predicate AboveFits(s: seq<Sleeper>, at: nat)
    requires at < |s|
  {
    at > 0 ==> Ordered(s, at)
  }

  predicate BelowFits(s: seq<Sleeper>, at: nat)
    requires at < |s|
  {
    forall i :: 0 < i < |s| ==> Parent(i) == at ==> Ordered(s, i)
  }

  lemma HoleFilled(s: seq<Sleeper>, at: nat)
    requires at < |s| && Holed(s, at) && AboveFits(s, at) && BelowFits(s, at)
    ensures Heap(s)
  {
  }

  lemma FitsAbove(s: seq<Sleeper>, at: nat)
    requires at < |s|
    ensures AboveFits(s, at) <==> at == 0 || s[Parent(at)].deadline <= s[at].deadline
  {
  }

  lemma FitsBelow(s: seq<Sleeper>, at: nat)
    requires at < |s|
    ensures BelowFits(s, at) <==> 2 * at + 1 >= |s| || s[LeastChild(s, at)].deadline >= s[at].deadline
  {
    if 2 * at + 1 < |s| {
      var c := LeastChild(s, at);
      assert Parent(2 * at + 1) == at;
      assert BelowFits(s, at) ==> Ordered(s, c);
      forall i | 0 < i < |s| && Parent(i) == at ensures i == 2 * at + 1 || i == 2 * at + 2 {
      }
    }
  }

  lemma HeapPrefix(s: seq<Sleeper>, n: nat)
    requires Heap(s) && n <= |s|
    ensures Heap(s[..n])
  {
    forall i | 0 < i < n ensures Ordered(s[..n], i) {
      assert Ordered(s, i);
    }
  }

  /** The first entry is due no later than any other. */
  lemma {:induction false} HeadIsLeast(s: seq<Sleeper>, i: nat)
    requires Heap(s) && i < |s|
    ensures s[0].deadline <= s[i].deadline
  {
    if i > 0 {
      assert Ordered(s, i);
      HeadIsLeast(s, Parent(i));
    }
  }

  /** The same entries in some order. */
  predicate Permuted(s: seq<Sleeper>, t: seq<Sleeper>) {
    |s| == |t| && multiset(s) == multiset(t)
  }

  lemma PermutedSelf(s: seq<Sleeper>)
    ensures Permuted(s, s)
  {
  }

  /** Swapping two entries loses none. */
  lemma SwapKeeps(s: seq<Sleeper>, i: nat, j: nat)
    requires i < |s| && j < |s|
    ensures multiset(s[i := s[j]][j := s[i]]) == multiset(s)
  {
  }

  /** Overwriting an entry exchanges it. */
  lemma ReplaceExchanges(s: seq<Sleeper>, i: nat, x: Sleeper)
    requires i < |s|
    ensures multiset(s[i := x]) == multiset(s) - multiset{s[i]} + multiset{x}
  {
  }

  /** The last entry in the place of another: that one is gone. */
  lemma Taken(before: seq<Sleeper>, i: nat, after: seq<Sleeper>)
    requires i < |before| - 1
    requires Permuted(after, before[..|before| - 1][i := before[|before| - 1]])
    ensures multiset(after) == multiset(before) - multiset{before[i]}
  {
    DropLast(before);
    ReplaceExchanges(before[..|before| - 1], i, before[|before| - 1]);
  }

  lemma DropLast(s: seq<Sleeper>)
    requires s != []
    ensures multiset(s) == multiset(s[..|s| - 1]) + multiset{s[|s| - 1]}
  {
    assert s == s[..|s| - 1] + [s[|s| - 1]];
  }

  /** Moving the parent down moves the hole up. */
  lemma HoleUp(s: seq<Sleeper>, at: nat, first: seq<Sleeper>)
    requires Permuted(s, first) && 0 < at < |s| && Holed(s, at) && s[Parent(at)].deadline > s[at].deadline
    ensures var p := Parent(at);
      var t := s[at := s[p]][p := s[at]];
      Holed(t, p) && BelowFits(t, p) && Permuted(t, first)
  {
    var p := Parent(at);
    var t := s[at := s[p]][p := s[at]];
    SwapKeeps(s, at, p);
    forall i | 0 < i < |t|
      ensures i != p && Parent(i) != p ==> Ordered(t, i)
      ensures Parent(i) == p ==> Ordered(t, i) && (p > 0 ==> t[Parent(p)].deadline <= t[i].deadline)
    {
      if i != at && Parent(i) != at {
        assert Ordered(s, i);
      }
      if p > 0 {
        assert Ordered(s, p);
      }
    }
  }

  /** The earlier of the children of a node. */
  function LeastChild(s: seq<Sleeper>, at: nat): nat
    requires 2 * at + 1 < |s|
  {
    var child := 2 * at + 1;
    if child + 1 < |s| && s[child + 1].deadline < s[child].deadline then child + 1 else child
  }

  /** Moving the earlier child up moves the hole down. */
  lemma HoleDown(s: seq<Sleeper>, at: nat, first: seq<Sleeper>)
    requires Permuted(s, first) && 2 * at + 1 < |s| && Holed(s, at) && AboveFits(s, at)
    requires s[LeastChild(s, at)].deadline < s[at].deadline
    ensures var c := LeastChild(s, at);
      var t := s[at := s[c]][c := s[at]];
      Holed(t, c) && AboveFits(t, c) && Permuted(t, first)
  {
    var c := LeastChild(s, at);
    var t := s[at := s[c]][c := s[at]];
    SwapKeeps(s, at, c);
    forall i | 0 < i < |t|
      ensures i != c && Parent(i) != c ==> Ordered(t, i)
      ensures Parent(i) == c ==> t[at].deadline <= t[i].deadline
    {
      if i != at && Parent(i) != at {
        assert Ordered(s, i);
      }
    }
  }

  /** A hole in a heap, or at its new end. */
  lemma HoleAnywhere(s: seq<Sleeper>, at: nat, x: Sleeper)
    requires Heap(s) && at < |s|
    ensures Holed(s[at := x], at)
  {
    var t := s[at := x];
    forall i | 0 < i < |t|
      ensures i != at && Parent(i) != at ==> Ordered(t, i)
      ensures at > 0 && Parent(i) == at ==> t[Parent(at)].deadline <= t[i].deadline
    {
      assert Ordered(s, i);
      if at > 0 {
        assert Ordered(s, at);
      }
    }
  }

  /** Copying an entry into the hole swaps it with the one that fills the hole. */
  lemma HoleMoves(before: seq<Sleeper>, s: seq<Sleeper>, at: nat, next: nat, x: Sleeper)
    requires at < |before| && next < |before| && at != next && s == before[at := x]
    ensures before[at := before[next]][next := x] == s[at := s[next]][next := s[at]]
  {
  }

  // ---- the worker's heap ----------------------------------------------------------------

  class Timers {
    var sleepers: array<Sleeper>
    var count: nat

    ghost predicate Valid()
      reads this, sleepers
    {
      count <= sleepers.Length && Heap(Contents())
    }

    ghost function Contents(): (s: seq<Sleeper>)
      requires count <= sleepers.Length
      reads this, sleepers
    {
      sleepers[..count]
    }

    constructor ()
      ensures Valid() && Contents() == [] && fresh(sleepers)
    {
      sleepers := new Sleeper[0];
      count := 0;
    }

    /** Sift up: entries later than x move down until x fits at the result. */
    method SiftUp(start: nat, x: Sleeper) returns (at: nat)
      requires start < count <= sleepers.Length
      requires Holed(sleepers[..count][start := x], start)
      modifies sleepers
      ensures at < count && at <= start
      ensures var s := sleepers[..count][at := x];
        && Permuted(s, old(sleepers[..count])[start := x])
        && Holed(s, at) && AboveFits(s, at)
        && (at == start || BelowFits(s, at))
      ensures at == start ==> sleepers[..count] == old(sleepers[..count])
      ensures old(sleepers[count..]) == sleepers[count..]
    {
      hide Holed, AboveFits, BelowFits, Heap, Permuted;
      at := start;
      ghost var first := sleepers[..count][start := x];
      ghost var s := first;
      assert Permuted(s, first) by {
        PermutedSelf(s);
      }
      while at > 0
        invariant at <= start && s == sleepers[..count][at := x]
        invariant Holed(s, at) && Permuted(s, first)
        invariant if at == start then sleepers[..count] == old(sleepers[..count]) else BelowFits(s, at)
        invariant old(sleepers[count..]) == sleepers[count..]
      {
        var parent := (at - 1) / 2;
        if sleepers[parent].deadline <= x.deadline {
          break;
        }
        HoleUp(s, at, first);
        ghost var before := sleepers[..count];
        sleepers[at] := sleepers[parent];
        assert sleepers[..count] == before[at := before[parent]];
        HoleMoves(before, s, at, parent, x);
        s := s[at := s[parent]][parent := s[at]];
        at := parent;
      }
      FitsAbove(s, at);
    }

    /** Sift down: entries earlier than x move up until x fits at the result. */
    method SiftDown(start: nat, x: Sleeper) returns (at: nat)
      requires start < count <= sleepers.Length
      requires var s := sleepers[..count][start := x]; Holed(s, start) && AboveFits(s, start)
      modifies sleepers
      ensures at < count
      ensures var s := sleepers[..count][at := x];
        Permuted(s, old(sleepers[..count])[start := x]) && Heap(s)
      ensures old(sleepers[count..]) == sleepers[count..]
    {
      hide Holed, AboveFits, BelowFits, Heap, Permuted;
      at := start;
      ghost var first := sleepers[..count][start := x];
      ghost var s := first;
      assert Permuted(s, first) by {
        PermutedSelf(s);
      }
      while true
        invariant at < count && s == sleepers[..count][at := x]
        invariant Holed(s, at) && AboveFits(s, at) && Permuted(s, first)
        invariant old(sleepers[count..]) == sleepers[count..]
        decreases count - at
      {
        FitsBelow(s, at);
        var child := 2 * at + 1;
        if child >= count {
          break;
        }
        if child + 1 < count && sleepers[child + 1].deadline < sleepers[child].deadline {
          child := child + 1;
        }
        assert child == LeastChild(s, at);
        if sleepers[child].deadline >= x.deadline {
          break;
        }
        HoleDown(s, at, first);
        ghost var before := sleepers[..count];
        sleepers[at] := sleepers[child];
        assert sleepers[..count] == before[at := before[child]];
        HoleMoves(before, s, at, child, x);
        s := s[at := s[child]][child := s[at]];
        at := child;
      }
      HoleFilled(s, at);
    }

    /** sleeper_push: the array doubles, from 16, when it is full. */
    method Push(deadline: int, fiber: FiberId)
      requires Valid()
      modifies this, sleepers
      ensures Valid()
      ensures multiset(Contents()) == multiset(old(Contents())) + multiset{Sleeper(deadline, fiber)}
      ensures if old(count) < old(sleepers.Length) then sleepers == old(sleepers) else fresh(sleepers)
      ensures sleepers.Length == if old(count) < old(sleepers.Length) then old(sleepers.Length)
                                 else if old(sleepers.Length) == 0 then 16 else 2 * old(sleepers.Length)
    {
      hide Holed, AboveFits, BelowFits, Heap;
      var x := Sleeper(deadline, fiber);
      ghost var before := Contents();
      if count == sleepers.Length {
        var cap := if sleepers.Length != 0 then 2 * sleepers.Length else 16;
        var grown := new Sleeper[cap];
        forall i | 0 <= i < count {
          grown[i] := sleepers[i];
        }
        sleepers := grown;
      }
      assert sleepers[..count] == before;
      count := count + 1;
      ghost var s := sleepers[..count][count - 1 := x];
      assert s == before + [x];
      Appended(before, x);
      var at := SiftUp(count - 1, x);
      ghost var t := sleepers[..count][at := x];
      sleepers[at] := x;
      assert sleepers[..count] == t;
      assert at == count - 1 ==> t == s;
      HoleFilled(t, at);
    }

    /** sleeper_pop_min: the first entry goes. */
    method PopMin()
      requires Valid() && count > 0
      modifies this`count, sleepers
      ensures Valid() && count == old(count) - 1
      ensures multiset(Contents()) == multiset(old(Contents())) - multiset{old(Contents())[0]}
    {
      hide Holed, AboveFits, BelowFits, Heap, Permuted;
      ghost var before := Contents();
      count := count - 1;
      var last := sleepers[count];
      HeapPrefix(before, count);
      ghost var rest := sleepers[..count];
      assert rest == before[..count];
      if count > 0 {
        HoleAnywhere(rest, 0, last);
        FitsAbove(rest[0 := last], 0);
        var at := SiftDown(0, last);
        ghost var s := sleepers[..count][at := last];
        sleepers[at] := last;
        assert sleepers[..count] == s;
        Taken(before, 0, s);
      } else {
        assert before == [before[0]];
      }
    }

    /** sleeper_remove: the first entry of the fiber goes, wherever it is; a fiber
        without one changes nothing. */
    method Remove(fiber: FiberId)
      requires Valid()
      modifies this`count, sleepers
      ensures Valid()
      ensures (forall x :: x in old(Contents()) ==> x.fiber != fiber) ==> Contents() == old(Contents())
      ensures var was := old(Contents());
        (exists x :: x in was && x.fiber == fiber) ==>
        exists i :: 0 <= i < |was| && was[i].fiber == fiber && (forall k :: 0 <= k < i ==> was[k].fiber != fiber)
                    && multiset(Contents()) == multiset(was) - multiset{was[i]}
    {
      var i := 0;
      while i < count
        invariant i <= count
        invariant forall k :: 0 <= k < i ==> sleepers[k].fiber != fiber
      {
        if sleepers[i].fiber == fiber {
          RemoveAt(i);
          return;
        }
        i := i + 1;
      }
    }

    /** The body of sleeper_remove once the entry is found. */
    method RemoveAt(i: nat)
      requires Valid() && i < count
      modifies this`count, sleepers
      ensures Valid()
      ensures multiset(Contents()) == multiset(old(Contents())) - multiset{old(Contents())[i]}
    {
      hide Holed, AboveFits, BelowFits, Heap, Permuted;
      ghost var before := Contents();
      count := count - 1;
      var last := sleepers[count];
      HeapPrefix(before, count);
      ghost var rest := sleepers[..count];
      assert rest == before[..count];
      if i == count {
        DropLast(before);
        return;
      }
      HoleAnywhere(rest, i, last);
      var at := SiftUp(i, last);
      ghost var s := sleepers[..count][at := last];
      if at == i {
        at := SiftDown(at, last);
      } else {
        HoleFilled(s, at);
      }
      ghost var t := sleepers[..count][at := last];
      sleepers[at] := last;
      assert sleepers[..count] == t;
      Taken(before, i, t);
    }

    /** sleeper_fire_due, with the fibers it resumes in that order: exactly the
        entries that are due, earliest first. */
    method FireDue(now: int) returns (fired: seq<Sleeper>)
      requires Valid()
      modifies this`count, sleepers
      ensures Valid()
      ensures Fired(fired, Contents(), old(Contents()), now)
      ensures forall x :: x in Contents() ==> x.deadline > now
    {
      hide Holed, AboveFits, BelowFits, Heap, Fired;
      fired := [];
      assert Fired(fired, Contents(), Contents(), now) by {
        FireNone(Contents(), now);
      }
      while count > 0 && sleepers[0].deadline <= now
        invariant Valid() && Fired(fired, Contents(), old(Contents()), now)
        decreases count
      {
        ghost var before := Contents();
        var first := sleepers[0];
        PopMin();
        FireOne(fired, before, Contents(), old(Contents()), now);
        fired := fired + [first];
      }
      if count > 0 {
        AllLater(Contents());
      }
    }
  }

  /** The fired entries and the rest are all there were; those fired were due, in
      the order of their deadlines, and none of the rest was due before them. */
  predicate Fired(fired: seq<Sleeper>, rest: seq<Sleeper>, all: seq<Sleeper>, now: int) {
    && multiset(fired) + multiset(rest) == multiset(all)
    && (forall k :: 0 <= k < |fired| ==> fired[k].deadline <= now)
    && (forall k :: 0 < k < |fired| ==> fired[k - 1].deadline <= fired[k].deadline)
    && (fired != [] ==> forall x :: x in rest ==> fired[|fired| - 1].deadline <= x.deadline)
  }

  lemma FireNone(all: seq<Sleeper>, now: int)
    ensures Fired([], all, all, now)
  {
    assert multiset([]) + multiset(all) == multiset(all);
  }

  lemma FireOne(fired: seq<Sleeper>, before: seq<Sleeper>, after: seq<Sleeper>, all: seq<Sleeper>, now: int)
    requires Fired(fired, before, all, now) && Heap(before) && before != [] && before[0].deadline <= now
    requires multiset(after) == multiset(before) - multiset{before[0]}
    ensures Fired(fired + [before[0]], after, all, now)
  {
    RestLater(before, after);
    MoveFirst(fired, before, after);
    assert before[0] in before;
  }

  /** What stays after the first entry is popped is due no earlier. */
  lemma RestLater(before: seq<Sleeper>, after: seq<Sleeper>)
    requires Heap(before) && before != [] && multiset(after) == multiset(before) - multiset{before[0]}
    ensures forall x :: x in after ==> before[0].deadline <= x.deadline
  {
    hide Heap;
    AllLater(before);
    forall x | x in after ensures before[0].deadline <= x.deadline {
      assert x in multiset(after);
    }
  }

  lemma MoveFirst(fired: seq<Sleeper>, before: seq<Sleeper>, after: seq<Sleeper>)
    requires before != [] && multiset(after) == multiset(before) - multiset{before[0]}
    ensures multiset(fired + [before[0]]) + multiset(after) == multiset(fired) + multiset(before)
  {
    assert before[0] in multiset(before);
  }

  lemma AllLater(s: seq<Sleeper>)
    requires Heap(s) && s != []
    ensures forall x :: x in s ==> s[0].deadline <= x.deadline
  {
    forall i | 0 <= i < |s| ensures s[0].deadline <= s[i].deadline {
      HeadIsLeast(s, i);
    }
  }

  lemma Appended(s: seq<Sleeper>, x: Sleeper)
    requires Heap(s)
    ensures Holed(s + [x], |s|) && BelowFits(s + [x], |s|)
  {
    var t := s + [x];
    forall i | 0 < i < |s| ensures Ordered(t, i) {
      assert Ordered(s, i);
    }
  }
}

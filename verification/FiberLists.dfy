/**
  The intrusive lists of a worker.  One link in the fiber's record serves the run
  queue, the inbox and the pool in turn; two more serve the list of all fibers.
*/
module FiberLists {
  import FiberWorker

  class Record {
    var queueNext: Record?
    var allNext: Record?
    var allPrev: Record?
    var reserve: nat

    constructor (reserve: nat)
      ensures this.reserve == reserve && queueNext == null
    {
      this.reserve := reserve;
      queueNext, allNext, allPrev := null, null, null;
    }
  }

  function At(s: seq<Record>, i: int): Record? {
    if 0 <= i < |s| then s[i] else null
  }

  lemma AtSkipped(s: seq<Record>, k: nat, i: int)
    requires k < |s|
    ensures At(s[..k] + s[k + 1..], i) == At(s, if i < k then i else i + 1)
  {
  }

  lemma DistinctSkipped(s: seq<Record>, k: nat)
    requires k < |s| && Distinct(s)
    ensures Distinct(s[..k] + s[k + 1..]) && s[k] !in s[..k] + s[k + 1..]
  {
  }

  predicate Distinct(s: seq<Record>) {
    forall i, j :: 0 <= i < j < |s| ==> s[i] != s[j]
  }

  predicate Apart(s: seq<Record>, t: seq<Record>) {
    forall r :: r in s ==> r !in t
  }

  predicate Within(s: seq<Record>, t: seq<Record>) {
    forall r :: r in s ==> r in t
  }

  function Without(s: seq<Record>, f: Record): seq<Record> {
    if s == [] then [] else if s[0] == f then s[1..] else [s[0]] + Without(s[1..], f)
  }

  lemma {:induction false} WithoutAt(s: seq<Record>, k: nat)
    requires k < |s| && Distinct(s)
    ensures Without(s, s[k]) == s[..k] + s[k + 1..]
  {
    if k > 0 {
      assert s[1..][k - 1] == s[k];
      WithoutAt(s[1..], k - 1);
    }
  }

  /** The records from head on, along the queue link. */
  ghost predicate Queue(head: Record?, s: seq<Record>)
    reads s`queueNext
  {
    && head == At(s, 0) && Distinct(s)
    && forall i {:trigger s[i].queueNext} :: 0 <= i < |s| ==> s[i].queueNext == At(s, i + 1)
  }

  /** The records from head on, linked both ways. */
  ghost predicate Doubly(head: Record?, s: seq<Record>)
    reads s`allNext, s`allPrev
  {
    && head == At(s, 0) && Distinct(s)
    && (forall i {:trigger s[i].allNext} :: 0 <= i < |s| ==> s[i].allNext == At(s, i + 1))
    && (forall i {:trigger s[i].allPrev} :: 0 <= i < |s| ==> s[i].allPrev == At(s, i - 1))
  }

  /** The head and the tail of the run queue or of the inbox. */
  class Fifo {
    var head: Record?
    var tail: Record?
    ghost var items: seq<Record>

    ghost predicate Valid()
      reads this, items`queueNext
    {
      Queue(head, items) && tail == At(items, |items| - 1)
    }

    constructor ()
      ensures Valid() && items == []
    {
      head, tail, items := null, null, [];
    }

    /** ready_push, and the part of inbox_post done under the lock */
    method Push(f: Record)
      requires Valid() && f !in items
      modifies this, f`queueNext, {tail}`queueNext
      ensures Valid() && items == old(items) + [f] && tail == f
    {
      f.queueNext := null;
      if tail != null {
        tail.queueNext := f;
      } else {
        head := f;
      }
      tail := f;
      items := items + [f];
    }

    /** ready_pop */
    method Pop() returns (f: Record?)
      requires Valid()
      modifies this, {head}`queueNext
      ensures Valid() && f == At(old(items), 0)
      ensures items == if old(items) == [] then [] else old(items)[1..]
      ensures f != null ==> f !in items
    {
      f := head;
      if f == null {
        return;
      }
      head := f.queueNext;
      if head == null {
        tail := null;
      }
      f.queueNext := null;
      items := items[1..];
    }

    /** The whole queue is taken away; its records stay linked. */
    method Detach() returns (first: Record?)
      requires Valid()
      modifies this
      ensures Valid() && items == [] && Queue(first, old(items))
    {
      first := head;
      head, tail, items := null, null, [];
    }
  }

  /** The pool of finished fibers' records, newest first. */
  class Pool {
    var head: Record?
    var count: nat
    ghost var items: seq<Record>

    ghost predicate Valid()
      reads this, items`queueNext
    {
      Queue(head, items) && count == |items|
    }

    constructor ()
      ensures Valid() && items == []
    {
      head, count, items := null, 0, [];
    }

    /** fiber_retire: false when the record is freed instead. */
    method Retire(f: Record) returns (kept: bool)
      requires Valid() && f !in items
      modifies this, f`queueNext
      ensures Valid() && kept == (|old(items)| < FiberWorker.POOL_MAX)
      ensures items == if kept then [f] + old(items) else old(items)
    {
      if count < FiberWorker.POOL_MAX {
        f.queueNext := head;
        head := f;
        count := count + 1;
        items := [f] + items;
        return true;
      }
      return false;
    }

    /** The search of beans_fiber_spawn: the first record whose reservation is big
        enough leaves the pool, and no link but its predecessor's changes. */
    method Take(need: nat) returns (f: Record?)
      requires Valid()
      modifies this, items`queueNext
      ensures Valid()
      ensures f == null ==> items == old(items) && forall r :: r in items ==> r.reserve < need
      ensures f != null ==> TookFirst(old(items), f, need) && items == Without(old(items), f) && f !in items
    {
      var prev: Record? := null;
      f := head;
      ghost var k := 0;
      while f != null && f.reserve < need
        invariant k <= |items| && f == At(items, k) && prev == At(items, k - 1)
        invariant forall j :: 0 <= j < k ==> items[j].reserve < need
        decreases |items| - k
      {
        prev := f;
        f := f.queueNext;
        k := k + 1;
      }
      if f != null {
        Unlink(prev, f, k);
      }
    }

    method Unlink(prev: Record?, f: Record, ghost k: nat)
      requires Valid() && k < |items| && f == items[k] && prev == At(items, k - 1)
      modifies this, {prev}`queueNext
      ensures Valid() && items == Without(old(items), f) && f !in items
    {
      hide Without;
      if prev == null {
        head := f.queueNext;
      } else {
        prev.queueNext := f.queueNext;
      }
      Skipped(head, items, k);
      WithoutAt(items, k);
      count := count - 1;
      items := items[..k] + items[k + 1..];
    }

    /** The link before the record at k skips it, the others are as they were. */
    lemma Skipped(first: Record?, s: seq<Record>, k: nat)
      requires k < |s| && Distinct(s) && first == if k > 0 then s[0] else At(s, 1)
      requires forall i {:trigger s[i].queueNext} :: 0 <= i < |s| && i != k ==> s[i].queueNext == At(s, if i == k - 1 then k + 1 else i + 1)
      ensures Queue(first, s[..k] + s[k + 1..]) && s[k] !in s[..k] + s[k + 1..]
    {
      var t := s[..k] + s[k + 1..];
      DistinctSkipped(s, k);
      AtSkipped(s, k, 0);
      hide At, Distinct;
      forall i | 0 <= i < |t|
        ensures t[i].queueNext == At(t, i + 1)
      {
        AtSkipped(s, k, i + 1);
        assert t[i] == s[if i < k then i else i + 1];
      }
    }
  }

  /** f is the first of the records whose reservation is big enough. */
  ghost predicate TookFirst(s: seq<Record>, f: Record, need: nat)
    reads s`reserve
  {
    exists k :: 0 <= k < |s| && s[k] == f && f.reserve >= need && forall j :: 0 <= j < k ==> s[j].reserve < need
  }

  /** All fibers of the worker, newest first. */
  class Table {
    var head: Record?
    ghost var items: seq<Record>

    ghost predicate Valid()
      reads this, items`allNext, items`allPrev
    {
      Doubly(head, items)
    }

    constructor ()
      ensures Valid() && items == []
    {
      head, items := null, [];
    }

    /** all_add */
    method Add(f: Record)
      requires Valid() && f !in items
      modifies this, f`allNext, f`allPrev, {head}`allPrev
      ensures Valid() && items == [f] + old(items)
    {
      f.allPrev := null;
      f.allNext := head;
      if head != null {
        head.allPrev := f;
      }
      head := f;
      items := [f] + items;
    }

    /** all_remove: the neighbours are linked to each other. */
    method Remove(f: Record)
      requires Valid() && f in items
      modifies this, f`allNext, f`allPrev, {f.allPrev}`allNext, {f.allNext}`allPrev
      ensures Valid() && items == Without(old(items), f) && f !in items
    {
      hide Without;
      ghost var k :| 0 <= k < |items| && items[k] == f;
      assert f.allPrev == At(items, k - 1) && f.allNext == At(items, k + 1);
      if f.allPrev != null {
        f.allPrev.allNext := f.allNext;
      } else {
        head := f.allNext;
      }
      if f.allNext != null {
        f.allNext.allPrev := f.allPrev;
      }
      f.allNext, f.allPrev := null, null;
      ClosedUp(head, items, k);
      WithoutAt(items, k);
      items := items[..k] + items[k + 1..];
    }

    /** Around the record at k the links skip it, elsewhere they are as they were. */
    lemma ClosedUp(first: Record?, s: seq<Record>, k: nat)
      requires k < |s| && Distinct(s) && first == if k > 0 then s[0] else At(s, 1)
      requires forall i {:trigger s[i].allNext} :: 0 <= i < |s| && i != k ==> s[i].allNext == At(s, if i == k - 1 then k + 1 else i + 1)
      requires forall i {:trigger s[i].allPrev} :: 0 <= i < |s| && i != k ==> s[i].allPrev == At(s, if i == k + 1 then k - 1 else i - 1)
      ensures Doubly(first, s[..k] + s[k + 1..]) && s[k] !in s[..k] + s[k + 1..]
    {
      var t := s[..k] + s[k + 1..];
      DistinctSkipped(s, k);
      AtSkipped(s, k, 0);
      hide At, Distinct;
      forall i | 0 <= i < |t|
        ensures t[i].allNext == At(t, i + 1) && t[i].allPrev == At(t, i - 1)
      {
        AtSkipped(s, k, i - 1);
        AtSkipped(s, k, i + 1);
        assert t[i] == s[if i < k then i else i + 1];
      }
    }

    /** fiber_deadlock_report's walk: every fiber once. */
    method Report() returns (seen: seq<Record>)
      requires Valid()
      ensures seen == items
    {
      seen := [];
      var f := head;
      while f != null
        invariant seen <= items && f == At(items, |seen|)
        decreases |items| - |seen|
      {
        seen := seen + [f];
        f := f.allNext;
      }
    }
  }

  lemma TookOne(s: seq<Record>, f: Record, need: nat)
    requires TookFirst(s, f, need)
    ensures f in s && f.reserve >= need
  {
  }

  /** The lists of a worker. */
  class Lists {
    const ready: Fifo
    const inbox: Fifo
    const pool: Pool
    const all: Table

    /** No record is on two of the lists that share a link: queued fibers are among
        all fibers, on one queue only, and pooled records are not. */
    ghost predicate Valid()
      reads this, ready, inbox, pool, all
      reads ready.items`queueNext, inbox.items`queueNext, pool.items`queueNext, all.items`allNext, all.items`allPrev
    {
      && ready != inbox && ready.Valid() && inbox.Valid() && pool.Valid() && all.Valid()
      && Apart(ready.items, inbox.items) && Apart(pool.items, all.items)
      && Within(ready.items, all.items) && Within(inbox.items, all.items)
    }

    /** A fiber on neither queue. */
    ghost predicate Loose(f: Record)
      reads this, ready, inbox, all
    {
      f in all.items && f !in ready.items && f !in inbox.items
    }

    constructor ()
      ensures Valid() && fresh(ready) && fresh(inbox) && fresh(pool) && fresh(all)
      ensures ready.items == [] && inbox.items == [] && pool.items == [] && all.items == []
    {
      ready := new Fifo();
      inbox := new Fifo();
      pool := new Pool();
      all := new Table();
    }

    lemma EndsIn(q: Fifo)
      requires q.Valid()
      ensures q.head != null ==> q.head in q.items
      ensures q.tail != null ==> q.tail in q.items
    {
    }

    /** Make a fiber ready to run. */
    method ReadyPush(f: Record)
      requires Valid() && Loose(f)
      modifies ready, f`queueNext, {ready.tail}`queueNext
      ensures Valid() && ready.items == old(ready.items) + [f] && ready.tail == f
    {
      hide Queue, Doubly;
      EndsIn(ready);
      ready.Push(f);
    }

    method ReadyPop() returns (f: Record?)
      requires Valid()
      modifies ready, {ready.head}`queueNext
      ensures Valid() && f == At(old(ready.items), 0)
      ensures ready.items == if f == null then [] else old(ready.items)[1..]
      ensures f != null ==> Loose(f)
    {
      hide Queue, Doubly;
      EndsIn(ready);
      f := ready.Pop();
    }

    method InboxPost(f: Record)
      requires Valid() && Loose(f)
      modifies inbox, f`queueNext, {inbox.tail}`queueNext
      ensures Valid() && inbox.items == old(inbox.items) + [f]
    {
      hide Queue, Doubly;
      EndsIn(inbox);
      inbox.Push(f);
    }

    /** inbox_drain: the fibers posted become ready, in the order of their posting,
        behind those that were. */
    method InboxDrain()
      requires Valid()
      modifies ready, inbox, inbox.items`queueNext, {ready.tail}`queueNext
      ensures Valid() && inbox.items == [] && ready.items == old(ready.items) + old(inbox.items)
    {
      hide Queue, Doubly;
      ghost var was, posted, tail := ready.items, inbox.items, ready.tail;
      EndsIn(ready);
      var head := inbox.Detach();
      ghost var moved, left := 0, posted;
      while head != null
        invariant Valid() && inbox.items == []
        invariant moved <= |posted| && left == posted[moved..] && ready.items == was + posted[..moved]
        invariant Queue(head, left) && Apart(left, ready.items) && Within(left, all.items)
        invariant ready.tail == tail || ready.tail in posted
        decreases |left|
      {
        assert head == posted[moved] by {
          QueueNext(head, left);
        }
        assert was + posted[..moved] + [head] == was + posted[..moved + 1];
        head := MoveFirst(head, left);
        moved, left := moved + 1, left[1..];
      }
      QueueEnds(left);
    }

    /** One round of inbox_drain's loop. */
    method MoveFirst(f: Record, ghost left: seq<Record>) returns (next: Record?)
      requires Valid() && inbox.items == []
      requires Queue(f, left) && Apart(left, ready.items) && Within(left, all.items)
      modifies ready, f`queueNext, {ready.tail}`queueNext
      ensures Valid() && left != [] && ready.items == old(ready.items) + [f] && ready.tail == f
      ensures Queue(next, left[1..]) && Apart(left[1..], ready.items) && Within(left[1..], all.items)
    {
      hide Queue, Doubly;
      QueueNext(f, left);
      EndsIn(ready);
      next := f.queueNext;
      ReadyPush(f);
    }

    lemma QueueNext(head: Record, s: seq<Record>)
      requires Queue(head, s)
      ensures s != [] && s[0] == head && head !in s[1..] && Queue(head.queueNext, s[1..])
    {
    }

    lemma QueueEnds(s: seq<Record>)
      requires Queue(null, s)
      ensures s == []
    {
    }

    /** A new fiber, or a pooled one again, is counted among all fibers. */
    method AllAdd(f: Record)
      requires Valid() && f !in all.items && f !in pool.items
      modifies all, f`allNext, f`allPrev, {all.head}`allPrev
      ensures Valid() && all.items == [f] + old(all.items) && Loose(f)
    {
      hide Queue, Doubly;
      all.Add(f);
    }

    method AllRemove(f: Record)
      requires Valid() && Loose(f)
      modifies all, f`allNext, f`allPrev, {f.allPrev}`allNext, {f.allNext}`allPrev
      ensures Valid() && all.items == Without(old(all.items), f) && f !in all.items
    {
      hide Queue, Doubly;
      WithoutKeeps(all.items, f);
      all.Remove(f);
    }

    lemma {:induction false} WithoutKeeps(s: seq<Record>, f: Record)
      ensures Within(Without(s, f), s) && forall r :: r in s && r != f ==> r in Without(s, f)
    {
      if s != [] && s[0] != f {
        WithoutKeeps(s[1..], f);
      }
    }

    method Retire(f: Record) returns (kept: bool)
      requires Valid() && f !in all.items && f !in pool.items
      modifies pool, f`queueNext
      ensures Valid() && kept == (|old(pool.items)| < FiberWorker.POOL_MAX)
      ensures pool.items == if kept then [f] + old(pool.items) else old(pool.items)
    {
      hide Queue, Doubly;
      kept := pool.Retire(f);
    }

    method TakePooled(need: nat) returns (f: Record?)
      requires Valid()
      modifies pool, pool.items`queueNext
      ensures Valid()
      ensures f == null ==> pool.items == old(pool.items) && forall r :: r in pool.items ==> r.reserve < need
      ensures f != null ==>
        TookFirst(old(pool.items), f, need) && pool.items == Without(old(pool.items), f) &&
        f !in pool.items && f !in all.items
    {
      hide Queue, Doubly, TookFirst, Without;
      ghost var was := pool.items;
      assert Apart(ready.items, was) && Apart(inbox.items, was);
      f := pool.Take(need);
      if f != null {
        TookOne(was, f, need);
        WithoutKeeps(was, f);
      }
      assert forall r :: r in ready.items || r in inbox.items ==> r.queueNext == old(r.queueNext);
    }

    /** memset of a record taken from the pool; the reservation is kept. */
    method Clear(f: Record)
      requires Valid() && f !in all.items && f !in pool.items
      modifies f`queueNext, f`allNext, f`allPrev
      ensures Valid()
    {
      hide Queue, Doubly;
      f.queueNext, f.allNext, f.allPrev := null, null, null;
    }

    /** The lists of beans_fiber_spawn: a pooled record with its links cleared, or a
        new one, joins all fibers and the run queue. */
    method Spawn(need: nat, memory: bool) returns (f: Record?)
      requires Valid()
      modifies pool, all, ready, {all.head}`allPrev, {ready.tail}`queueNext
      modifies pool.items`queueNext, pool.items`allNext, pool.items`allPrev
      ensures Valid()
      ensures f == null ==>
        !memory && ready.items == old(ready.items) && all.items == old(all.items) && pool.items == old(pool.items)
      ensures f != null ==>
        f !in old(all.items) && all.items == [f] + old(all.items) && ready.items == old(ready.items) + [f]
      ensures f != null ==>
        if f in old(pool.items) then TookFirst(old(pool.items), f, need) && pool.items == Without(old(pool.items), f)
        else f.reserve == need && pool.items == old(pool.items) && forall r :: r in pool.items ==> r.reserve < need
    {
      hide Queue, Doubly, TookFirst, Without;
      EndsIn(ready);
      ghost var was := pool.items;
      f := TakePooled(need);
      if f == null {
        if !memory {
          return;
        }
        f := new Record(need);
      } else {
        TookOne(was, f, need);
        Clear(f);
      }
      AllAdd(f);
      ReadyPush(f);
    }
  }
}

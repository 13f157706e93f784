/**
  The io bookkeeping of a worker in the kqueue build: registrations queued for the
  next poller wait, the slot each fiber has in that queue, and the number of armed
  fibers.
*/
module ChangeList {
  /** The io fields of a fiber.  ioQueued is its slot in the queue plus one. */
  class IoFiber {
    var ioQueued: nat
    var ioArmed: bool
    var ioSignalled: bool
    var ioFd: int
    var ioWrite: bool

    constructor ()
      ensures ioQueued == 0 && !ioArmed
    {
      ioQueued, ioArmed, ioSignalled, ioFd, ioWrite := 0, false, false, 0, false;
    }
  }

  datatype Change = Change(fd: int, write: bool, fiber: IoFiber)

  class Poller {
    var queue: seq<Change>
    var capacity: nat
    var ioWaiters: int
    /** Every fiber of the worker, those armed, and those with a registration in the kernel. */
    ghost var fibers: set<IoFiber>
    ghost var armed: set<IoFiber>
    ghost var kernel: set<IoFiber>

    /** Entry i names a fiber whose slot is i. */
    ghost predicate Entry(i: nat)
      requires i < |queue|
      reads `queue, `fibers, fibers`ioQueued
    {
      queue[i].fiber in fibers && queue[i].fiber.ioQueued == i + 1
    }

    /** A fiber with a slot is the one named there. */
    ghost predicate Slot(f: IoFiber)
      reads `queue, f`ioQueued
    {
      f.ioQueued > 0 ==> f.ioQueued <= |queue| && queue[f.ioQueued - 1].fiber == f
    }

    /** The queue and the slots are inverse to each other. */
    ghost predicate Inverse()
      reads `queue, `fibers, fibers`ioQueued
    {
      && (forall i :: 0 <= i < |queue| ==> Entry(i))
      && (forall f :: f in fibers ==> Slot(f))
    }

    /** An armed fiber waits in the queue or in the kernel, not in both. */
    ghost predicate Booked(f: IoFiber)
      reads `armed, `kernel, f`ioArmed, f`ioQueued
    {
      && (f.ioArmed <==> f in armed)
      && (f.ioArmed <==> (f.ioQueued > 0 || f in kernel))
      && (f in kernel ==> f.ioQueued == 0)
    }

    ghost predicate Registered()
      reads `armed, `kernel, `fibers, fibers`ioArmed, fibers`ioQueued
    {
      kernel <= fibers && armed <= fibers && forall f :: f in fibers ==> Booked(f)
    }

    ghost predicate Valid()
      reads `queue, `capacity, `ioWaiters, `fibers, `armed, `kernel, fibers`ioArmed, fibers`ioQueued
    {
      && |queue| <= capacity
      && Inverse()
      && Registered()
      && ioWaiters == |armed|
    }

    constructor ()
      ensures Valid() && fibers == {} && queue == []
    {
      queue, capacity, ioWaiters := [], 0, 0;
      fibers, armed, kernel := {}, {}, {};
      new;
      assert Inverse() && Registered();
      assert ioWaiters == |armed|;
    }

    /** A fiber joins the worker. */
    method Add(f: IoFiber)
      requires Valid() && f !in fibers && f.ioQueued == 0 && !f.ioArmed
      modifies `fibers
      ensures Valid() && fibers == old(fibers) + {f}
    {
      fibers := fibers + {f};
      forall i | 0 <= i < |queue| ensures Entry(i) {
        assert old(Entry(i));
      }
      forall g | g in fibers ensures Slot(g) && Booked(g) {
        assert g != f ==> old(Slot(g)) && old(Booked(g));
      }
    }

    /** The queue doubles, from 64, when it is full and there is memory for it. */
    method Room(memory: bool) returns (ok: bool)
      requires |queue| <= capacity
      modifies `capacity
      ensures ok == (|queue| < old(capacity) || memory)
      ensures if ok then |queue| < capacity else capacity == old(capacity)
    {
      ok := |queue| < capacity || memory;
      if |queue| == capacity && memory {
        capacity := if capacity != 0 then 2 * capacity else 64;
      }
    }

    /** A change joins the queue. */
    method Enqueue(c: Change)
      requires Inverse() && c.fiber in fibers && c.fiber.ioQueued == 0
      modifies `queue, c.fiber`ioQueued
      ensures Inverse() && queue == old(queue) + [c] && c.fiber.ioQueued == |queue|
    {
      var f := c.fiber;
      queue := queue + [c];
      f.ioQueued := |queue|;
      forall i | 0 <= i < |queue| - 1 ensures Entry(i) {
        assert old(Entry(i));
      }
      forall g | g in fibers ensures Slot(g) {
        assert old(Slot(g));
      }
    }

    /** poller_arm */
    method PollerArm(f: IoFiber, fd: int, write: bool, memory: bool) returns (ok: bool)
      requires |queue| <= capacity && Inverse() && f in fibers && f.ioQueued == 0
      modifies `queue, `capacity, f`ioQueued
      ensures |queue| <= capacity && Inverse()
      ensures ok == (|old(queue)| < old(capacity) || memory)
      ensures if ok then queue == old(queue) + [Change(fd, write, f)] && f.ioQueued == |queue|
              else queue == old(queue) && f.ioQueued == 0
    {
      hide Inverse;
      ok := Room(memory);
      if ok {
        Enqueue(Change(fd, write, f));
      }
    }

    /** The start of beans_fiber_wait_io; growing the queue may fail. */
    method Arm(f: IoFiber, fd: int, write: bool, memory: bool) returns (ok: bool)
      requires Valid() && f in fibers && !f.ioArmed
      modifies `queue, `capacity, `ioWaiters, `armed, f
      ensures Valid()
      ensures ok == (|old(queue)| < old(capacity) || memory)
      ensures if ok then
          && queue == old(queue) + [Change(fd, write, f)] && armed == old(armed) + {f}
          && !f.ioSignalled && f.ioFd == fd && f.ioWrite == write
        else
          queue == old(queue) && armed == old(armed) && !f.ioArmed
    {
      assert kernel <= fibers && armed <= fibers && forall g :: g in fibers ==> Booked(g);
      assert f.ioQueued == 0 && f !in kernel && f !in armed;
      hide Inverse, Slot, Entry, Booked, Registered;
      ok := PollerArm(f, fd, write, memory);
      if ok {
        BeginWait(f, fd, write);
      } else {
        StillRegistered();
      }
    }

    lemma StillRegistered()
      requires kernel <= fibers && armed <= fibers && forall g :: g in fibers ==> Booked(g)
      ensures Registered()
    {
    }

    /** A fiber with a queued change counts as armed. */
    method BeginWait(f: IoFiber, fd: int, write: bool)
      requires f in fibers && f.ioQueued > 0 && f !in kernel && f !in armed
      requires kernel <= fibers && armed <= fibers && forall g :: g in fibers && g != f ==> Booked(g)
      modifies `ioWaiters, `armed, f`ioArmed, f`ioSignalled, f`ioFd, f`ioWrite
      ensures Registered() && armed == old(armed) + {f} && ioWaiters == old(ioWaiters) + 1
      ensures !f.ioSignalled && f.ioFd == fd && f.ioWrite == write
    {
      f.ioArmed, f.ioSignalled, f.ioFd, f.ioWrite := true, false, fd, write;
      armed := armed + {f};
      ioWaiters := ioWaiters + 1;
      forall g | g in fibers ensures Booked(g) {
        assert g != f ==> old(Booked(g));
      }
    }

    /** A fiber with nothing queued or registered is not armed. */
    method Lower(f: IoFiber)
      requires f in fibers && f.ioQueued == 0 && f !in kernel
      requires kernel <= fibers && armed <= fibers && forall g :: g in fibers && g != f ==> Booked(g)
      modifies `ioWaiters, `armed, f`ioArmed
      ensures Registered() && !f.ioArmed && armed == old(armed) - {f} && ioWaiters == old(ioWaiters) - 1
    {
      f.ioArmed := false;
      armed := armed - {f};
      ioWaiters := ioWaiters - 1;
      forall g | g in fibers ensures Booked(g) {
        assert g != f ==> old(Booked(g));
      }
    }

    /** Takes a fiber's change out of the queue: the last one moves into its slot. */
    method DropSlot(f: IoFiber)
      requires Inverse() && f in fibers && f.ioQueued > 0
      modifies `queue, fibers`ioQueued
      ensures Inverse() && f.ioQueued == 0
      ensures queue == SwapRemove(old(queue), old(f.ioQueued) - 1)
      ensures forall g :: g in fibers && g != f ==> (g.ioQueued > 0 <==> old(g.ioQueued) > 0)
    {
      var slot := f.ioQueued - 1;
      var last := |queue| - 1;
      assert Slot(f) && Entry(last);
      if slot != last {
        queue := queue[slot := queue[last]];
        var moved := queue[slot].fiber;
        moved.ioQueued := slot + 1;
      }
      queue := queue[..last];
      f.ioQueued := 0;
      assert old(Slot(f)) && old(Entry(last));
      forall i | 0 <= i < last ensures Entry(i) {
        assert old(Entry(i)) && old(Entry(slot));
      }
      forall g | g in fibers ensures Slot(g) {
        assert old(Slot(g));
      }
    }

    /** poller_disarm: the books stay in order exactly when the fiber was armed. */
    method Disarm(f: IoFiber)
      requires Valid() && f in fibers
      modifies `queue, `ioWaiters, `armed, `kernel, fibers`ioQueued, f`ioArmed
      ensures Inverse() && Registered() && !f.ioArmed && f.ioQueued == 0
      ensures armed == old(armed) - {f} && kernel == old(kernel) - {f}
      ensures ioWaiters == old(ioWaiters) - 1
      ensures Valid() <==> old(f.ioArmed)
      ensures queue == if old(f.ioQueued) == 0 then old(queue) else SwapRemove(old(queue), old(f.ioQueued) - 1)
    {
      assert Booked(f) && kernel <= fibers && armed <= fibers && ioWaiters == |armed|;
      hide Inverse, Slot, Entry, Booked, Registered, SwapRemove;
      Fewer(armed, f);
      Unregister(f);
      Lower(f);
    }

    lemma Fewer(s: set<IoFiber>, f: IoFiber)
      ensures |s - {f}| == |s| - if f in s then 1 else 0
    {
      if f !in s {
        assert s - {f} == s;
      }
    }

    /** The registration goes out of the queue, or out of the kernel when it is there. */
    method Unregister(f: IoFiber)
      requires Inverse() && Registered() && f in fibers
      modifies `queue, `kernel, fibers`ioQueued
      ensures Inverse() && f.ioQueued == 0 && kernel == old(kernel) - {f}
      ensures forall g :: g in fibers && g != f ==> Booked(g)
      ensures queue == if old(f.ioQueued) == 0 then old(queue) else SwapRemove(old(queue), old(f.ioQueued) - 1)
    {
      assert Booked(f);
      hide Inverse, Slot, Entry, SwapRemove;
      if f.ioQueued > 0 {
        DropSlot(f);
      } else {
        kernel := kernel - {f};
      }
      forall g | g in fibers && g != f ensures Booked(g) {
        assert old(Booked(g));
      }
    }

    /** The cancel path of beans_fiber_wait_io, on a fiber whose wait has been armed
        and perhaps answered: it disarms without asking which.  The count of waiters
        stays right exactly when readiness was not delivered first. */
    method CancelWait(f: IoFiber)
      requires Valid() && f in fibers && (f.ioSignalled <==> !f.ioArmed)
      modifies `queue, `ioWaiters, `armed, `kernel, fibers`ioQueued, f`ioArmed
      ensures Valid() <==> !old(f.ioSignalled)
      ensures armed == old(armed) - {f}
      ensures old(f.ioSignalled) ==> ioWaiters == |armed| - 1
    {
      Disarm(f);
    }

    /** The deadline path: it runs only while nothing was delivered. */
    method TimeOut(f: IoFiber) returns (answered: bool)
      requires Valid() && f in fibers && (f.ioSignalled <==> !f.ioArmed)
      modifies `queue, `ioWaiters, `armed, `kernel, fibers`ioQueued, f`ioArmed
      ensures Valid() && !f.ioArmed && answered == old(f.ioSignalled)
    {
      answered := f.ioSignalled;
      if !answered {
        Disarm(f);
      }
    }

    /** poller_drain, first half: every queued change goes to the kernel, and its
        slot is given back before the call. */
    method Submit() returns (changes: seq<Change>)
      requires Valid()
      modifies `queue, `kernel, fibers`ioQueued
      ensures Valid() && queue == [] && changes == old(queue) && kernel == armed
    {
      changes := queue;
      GiveBack();
      queue := [];
      kernel := armed;
      forall f | f in fibers ensures Slot(f) && Booked(f) {
        assert old(Booked(f));
      }
    }

    method GiveBack()
      requires Inverse()
      modifies fibers`ioQueued
      ensures forall f :: f in fibers ==> f.ioQueued == 0
    {
      forall k | 0 <= k < |queue| ensures queue[k].fiber in fibers {
        assert Entry(k);
      }
      forall f | f in fibers ensures Slot(f) {
      }
      for i := 0 to |queue|
        invariant forall f :: f in fibers && f.ioQueued > 0 ==>
          f.ioQueued == old(f.ioQueued) && i < f.ioQueued <= |queue| && queue[f.ioQueued - 1].fiber == f
      {
        queue[i].fiber.ioQueued := 0;
      }
    }

    lemma NoSlot(f: IoFiber)
      requires Inverse() && queue == [] && f in fibers
      ensures f.ioQueued == 0
    {
      assert Slot(f);
    }

    /** poller_drain, second half: the events name fibers; one that is no longer
        armed is skipped, so each is resumed at most once. */
    method Deliver(events: seq<IoFiber>) returns (resumed: seq<IoFiber>)
      requires Valid() && queue == [] && forall k :: 0 <= k < |events| ==> events[k] in fibers
      modifies `ioWaiters, `armed, `kernel, fibers`ioArmed, fibers`ioSignalled
      ensures Valid() && queue == []
      ensures forall f :: f in fibers ==> (f in resumed <==> f in events && old(f.ioArmed))
      ensures forall j, k :: 0 <= j < k < |resumed| ==> resumed[j] != resumed[k]
      ensures armed == old(armed) - set f | f in events
      ensures forall k :: 0 <= k < |resumed| ==> resumed[k].ioSignalled
      ensures ioWaiters == old(ioWaiters) - |resumed|
    {
      hide Inverse, Slot, Entry;
      resumed := [];
      for i := 0 to |events|
        invariant Valid() && queue == []
        invariant forall f :: f in fibers ==> (f.ioArmed <==> old(f.ioArmed) && f !in events[..i])
        invariant forall f :: f in fibers ==> (f in resumed <==> f in events[..i] && old(f.ioArmed))
        invariant forall f :: f in resumed ==> f in fibers && f.ioSignalled
        invariant forall j, k :: 0 <= j < k < |resumed| ==> resumed[j] != resumed[k]
        invariant ioWaiters == old(ioWaiters) - |resumed|
      {
        var f := events[i];
        assert Booked(f);
        NoSlot(f);
        assert events[..i + 1] == events[..i] + [f];
        if f.ioArmed {
          f.ioSignalled := true;
          kernel := kernel - {f};
          Lower(f);
          resumed := resumed + [f];
        }
      }
      assert events[..|events|] == events;
    }
  }

  /** The count of waiters really goes wrong: from a fresh worker, a fiber whose wait
      is cancelled after its readiness was delivered is counted down twice. */
  method CancelAfterDelivery(fd: int, write: bool) returns (p: Poller)
    ensures fresh(p) && p.armed == {} && p.ioWaiters == -1 && !p.Valid()
  {
    p := new Poller();
    var f := new IoFiber();
    p.Add(f);
    var ok := p.Arm(f, fd, write, true);
    var changes := p.Submit();
    var resumed := p.Deliver([f]);
    assert f in [f];
    p.CancelWait(f);
  }

  /** The last entry takes the place of the one that goes. */
  function SwapRemove(q: seq<Change>, slot: nat): seq<Change>
    requires slot < |q|
  {
    q[slot := q[|q| - 1]][..|q| - 1]
  }

  /** Only the entry of that slot is gone. */
  lemma SwapRemoveTakesOne(q: seq<Change>, slot: nat)
    requires slot < |q|
    ensures multiset(SwapRemove(q, slot)) == multiset(q) - multiset{q[slot]}
  {
    var last := |q| - 1;
    var r := q[slot := q[last]];
    assert r == r[..last] + [r[last]];
    var kept, wanted := multiset(r[..last]), multiset(q) - multiset{q[slot]};
    var moved := multiset{q[last]};
    assert multiset(r) == wanted + moved;
    assert multiset(r[..last] + [r[last]]) == kept + multiset([r[last]]);
    assert r[last] == q[last] && multiset([r[last]]) == moved;
    assert kept + moved == wanted + moved;
    forall c ensures kept[c] == wanted[c] {
      assert (kept + moved)[c] == (wanted + moved)[c];
    }
  }
}

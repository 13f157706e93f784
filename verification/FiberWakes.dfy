/**
  No wake and no cancellation is lost: what a resume that has returned, or one
  still under way, leaves behind for a parked fiber.
*/
module FiberWakes {
  import opened Options
  import opened FiberWorker
  import opened FiberPlaces

  // ---- resumes under way -------------------------------------------------------

  /** t is resuming f, has stored the latch in this call, and found the latch
      consumed m times then. */
  predicate Latched(s: State, t: Tid, f: Fid, m: nat) {
    t in s.calls &&
    match s.calls[t]
    case Load(g, seen) => g == f && seen == Some(m)
    case Cas(g, seen) => g == f && seen == Some(m)
    case Latch(g, seen) => g == f && seen == Some(m)
    case Recheck(g, mark) => g == f && mark == m
    case Post(_) => false
    case ReadPoll => false
    case Kicking => false
  }

  /** t is resuming f and is still to store the latch or to win the CAS. */
  predicate Coming(s: State, t: Tid, f: Fid) {
    t in s.calls && (s.calls[t].Load? || s.calls[t].Cas? || s.calls[t].Latch?) && s.calls[t].f == f
  }

  /** t is resuming f and the fiber has not been taken yet. */
  predicate OnTarget(s: State, t: Tid, f: Fid) {
    Coming(s, t, f) || (t in s.calls && s.calls[t].Recheck? && s.calls[t].f == f)
  }

  ghost predicate SomeLatched(s: State, f: Fid) {
    exists t, m :: Latched(s, t, f, m)
  }

  ghost predicate SomeComing(s: State, f: Fid) {
    exists t :: Coming(s, t, f)
  }

  ghost predicate SomeOnTarget(s: State, f: Fid) {
    exists t :: OnTarget(s, t, f)
  }

  // ---- the invariants, with the existence of resumers as a parameter -------------

  /** A parked fiber with its latch set has a resumer that will look again. */
  predicate WakeShape(s: State, f: Fid, latched: bool) {
    f in s.fibers && s.fibers[f].state.Parked? && s.fibers[f].pending ==>
      latched || s.pc == SettleRecheck(f)
  }

  /** A latch stored when the count was m is still set or has been consumed since. */
  predicate MarkShape(s: State, f: Fid, m: nat) {
    f in s.fibers && m <= s.fibers[f].consumed && (s.fibers[f].pending || s.fibers[f].consumed > m)
  }

  /** Between its cancel check and settle's verdict. */
  predicate Committed(s: State, f: Fid)
    requires f in s.fibers
  {
    s.pc == ParkChecked(f) || s.pc == ParkStore(f) || s.pc == SettleCas(f)
    || (s.pc == Settle(f) && s.fibers[f].disposition.ToPark?)
  }

  /** A fiber that must notice a cancel and is parking or parked will be woken. */
  predicate CancelShape(s: State, f: Fid, coming: bool, onTarget: bool) {
    f in s.fibers && CancelObservable(s.fibers[f]) ==>
      && (Committed(s, f) ==> s.fibers[f].pending || coming)
      && (s.fibers[f].state.Parked? ==>
            onTarget || s.pc == SettleClaim(f) || (s.pc == SettleRecheck(f) && s.fibers[f].pending))
  }

  /** The latch is not set inside the window between reading it and publishing PARKED. */
  predicate WindowClear(s: State) {
    s.pc.SettleCas? && s.pc.f in s.fibers ==> !s.fibers[s.pc.f].pending
  }

  ghost predicate Woken(s: State) {
    && WindowClear(s)
    && (forall f :: WakeShape(s, f, SomeLatched(s, f)))
    && (forall f :: CancelShape(s, f, SomeComing(s, f), SomeOnTarget(s, f)))
  }

  predicate NoNewWindow(s: State, s': State) {
    s'.pc.SettleCas? ==> s.pc.SettleCas?
  }

  /** The worker ends no call, and a call it starts has not latched. */
  predicate CallsGrow(s: State, s': State, t: Tid) {
    && (t in s.calls ==> t in s'.calls && s'.calls[t] == s.calls[t])
    && (t !in s.calls && t in s'.calls ==> s'.calls[t].Load? && s'.calls[t].seen.None?)
  }

  /** A step that does not store the latch of a fiber inside that window. */
  predicate OutsideWindow(s: State, a: Step) {
    a.Proceed? && a.t in s.calls && s.calls[a.t].Latch? ==> s.pc != SettleCas(s.calls[a.t].f)
  }

  // ---- wakes across steps of the worker --------------------------------------

  lemma WakeLoop(s: State, l: LoopStep, f: Fid, latched: bool)
    requires PcKnown(s) && BusyAt(s, f) && WindowClear(s) && WakeShape(s, f, latched)
    requires OWNER !in s.calls && LoopEnabled(s, l)
    ensures WakeShape(AfterLoop(s, l), f, latched)
    ensures WindowClear(AfterLoop(s, l)) && NoNewWindow(s, AfterLoop(s, l))
  {}

  lemma WakeWait(s: State, w: WaitStep, f: Fid, latched: bool)
    requires PcKnown(s) && BusyAt(s, f) && WindowClear(s) && WakeShape(s, f, latched)
    requires OWNER !in s.calls && WaitEnabled(s, w)
    ensures WakeShape(AfterWait(s, w), f, latched)
    ensures WindowClear(AfterWait(s, w)) && NoNewWindow(s, AfterWait(s, w))
  {}

  lemma WakeCode(s: State, c: CodeStep, f: Fid, latched: bool)
    requires PcKnown(s) && BusyAt(s, f) && WindowClear(s) && WakeShape(s, f, latched)
    requires OWNER !in s.calls && CodeEnabled(s, c)
    ensures WakeShape(AfterCode(s, c), f, latched)
    ensures WindowClear(AfterCode(s, c)) && NoNewWindow(s, AfterCode(s, c))
  {}

  lemma WakePark(s: State, p: ParkStep, f: Fid, latched: bool)
    requires PcKnown(s) && BusyAt(s, f) && WindowClear(s) && WakeShape(s, f, latched)
    requires OWNER !in s.calls && ParkEnabled(s, p)
    ensures WakeShape(AfterPark(s, p), f, latched)
    ensures WindowClear(AfterPark(s, p)) && NoNewWindow(s, AfterPark(s, p))
  {}

  lemma WakeExit(s: State, e: ExitStep, f: Fid, latched: bool)
    requires PcKnown(s) && BusyAt(s, f) && WindowClear(s) && WakeShape(s, f, latched)
    requires OWNER !in s.calls && ExitEnabled(s, e)
    ensures WakeShape(AfterExit(s, e), f, latched)
    ensures WindowClear(AfterExit(s, e)) && NoNewWindow(s, AfterExit(s, e))
  {}

  lemma WakeMeet(s: State, j: JoinStep, f: Fid, latched: bool)
    requires PcKnown(s) && BusyAt(s, f) && WindowClear(s) && WakeShape(s, f, latched)
    requires OWNER !in s.calls && JoinEnabled(s, j)
    ensures WakeShape(AfterMeet(s, j), f, latched)
    ensures WindowClear(AfterMeet(s, j)) && NoNewWindow(s, AfterMeet(s, j))
  {}

  lemma WakeArm(g: Grain, s: State, r: ArmStep, f: Fid, latched: bool)
    requires PcKnown(s) && BusyAt(s, f) && WindowClear(s) && WakeShape(s, f, latched)
    requires OWNER !in s.calls && ArmEnabled(s, r)
    ensures WakeShape(AfterArm(g, s, r), f, latched)
    ensures WindowClear(AfterArm(g, s, r)) && (!g.Split? ==> NoNewWindow(s, AfterArm(g, s, r)))
  {}

  lemma WakeSettle(s: State, x: SettleStep, f: Fid, latched: bool)
    requires PcKnown(s) && BusyAt(s, f) && WindowClear(s) && WakeShape(s, f, latched)
    requires OWNER !in s.calls && SettleEnabled(s, x)
    ensures WakeShape(AfterSettle(s, x), f, latched)
    ensures WindowClear(AfterSettle(s, x)) && NoNewWindow(s, AfterSettle(s, x))
  {}

  // ---- cancellations across steps of the worker ------------------------------

  lemma CancelLoop(s: State, l: LoopStep, f: Fid, coming: bool, onTarget: bool)
    requires PcKnown(s) && BusyAt(s, f) && WindowClear(s) && (coming ==> onTarget)
    requires CancelShape(s, f, coming, onTarget)
    requires OWNER !in s.calls && LoopEnabled(s, l)
    ensures CancelShape(AfterLoop(s, l), f, coming, onTarget)
  {}

  lemma CancelWait(s: State, w: WaitStep, f: Fid, coming: bool, onTarget: bool)
    requires PcKnown(s) && BusyAt(s, f) && WindowClear(s) && (coming ==> onTarget)
    requires CancelShape(s, f, coming, onTarget)
    requires OWNER !in s.calls && WaitEnabled(s, w)
    ensures CancelShape(AfterWait(s, w), f, coming, onTarget)
  {}

  lemma CancelCode(s: State, c: CodeStep, f: Fid, coming: bool, onTarget: bool)
    requires PcKnown(s) && BusyAt(s, f) && WindowClear(s) && (coming ==> onTarget)
    requires CancelShape(s, f, coming, onTarget)
    requires OWNER !in s.calls && CodeEnabled(s, c)
    ensures CancelShape(AfterCode(s, c), f, coming, onTarget)
  {}

  lemma CancelPark(s: State, p: ParkStep, f: Fid, coming: bool, onTarget: bool)
    requires PcKnown(s) && BusyAt(s, f) && WindowClear(s) && (coming ==> onTarget)
    requires CancelShape(s, f, coming, onTarget)
    requires OWNER !in s.calls && ParkEnabled(s, p)
    ensures CancelShape(AfterPark(s, p), f, coming, onTarget)
  {}

  lemma CancelExit(s: State, e: ExitStep, f: Fid, coming: bool, onTarget: bool)
    requires PcKnown(s) && BusyAt(s, f) && WindowClear(s) && (coming ==> onTarget)
    requires CancelShape(s, f, coming, onTarget)
    requires OWNER !in s.calls && ExitEnabled(s, e)
    ensures CancelShape(AfterExit(s, e), f, coming, onTarget)
  {}

  lemma CancelMeet(s: State, j: JoinStep, f: Fid, coming: bool, onTarget: bool)
    requires PcKnown(s) && BusyAt(s, f) && WindowClear(s) && (coming ==> onTarget)
    requires CancelShape(s, f, coming, onTarget)
    requires OWNER !in s.calls && JoinEnabled(s, j)
    ensures CancelShape(AfterMeet(s, j), f, coming, onTarget)
  {}

  lemma CancelArm(g: Grain, s: State, r: ArmStep, f: Fid, coming: bool, onTarget: bool)
    requires PcKnown(s) && BusyAt(s, f) && WindowClear(s) && (coming ==> onTarget)
    requires CancelShape(s, f, coming, onTarget)
    requires OWNER !in s.calls && ArmEnabled(s, r)
    ensures CancelShape(AfterArm(g, s, r), f, coming, onTarget)
  {}

  lemma CancelSettle(s: State, x: SettleStep, f: Fid, coming: bool, onTarget: bool)
    requires PcKnown(s) && BusyAt(s, f) && WindowClear(s) && (coming ==> onTarget)
    requires CancelShape(s, f, coming, onTarget)
    requires OWNER !in s.calls && SettleEnabled(s, x)
    ensures CancelShape(AfterSettle(s, x), f, coming, onTarget)
  {}

  // ---- every step ---------------------------------------------------------------

  predicate ByWorker(a: Step) {
    !a.CallResume? && !a.CallCancel? && !a.Proceed?
  }

  lemma WakeWorker(g: Grain, s: State, a: Step, f: Fid, latched: bool)
    requires PcKnown(s) && BusyAt(s, f) && WindowClear(s) && WakeShape(s, f, latched)
    requires ByWorker(a) && Enabled(s, a)
    ensures WakeShape(After(g, s, a), f, latched)
    ensures WindowClear(After(g, s, a))
    ensures !g.Split? ==> NoNewWindow(s, After(g, s, a))
  {
    match a
    case Loop(l) => WakeLoop(s, l, f, latched);
    case Wait(w) => WakeWait(s, w, f, latched);
    case Code(c) => WakeCode(s, c, f, latched);
    case Park(p) => WakePark(s, p, f, latched);
    case Exit(e) => WakeExit(s, e, f, latched);
    case Meet(j) => WakeMeet(s, j, f, latched);
    case Arm(r) => WakeArm(g, s, r, f, latched);
    case Settling(x) => WakeSettle(s, x, f, latched);
  }

  lemma CancelWorker(g: Grain, s: State, a: Step, f: Fid, coming: bool, onTarget: bool)
    requires PcKnown(s) && BusyAt(s, f) && WindowClear(s) && (coming ==> onTarget)
    requires CancelShape(s, f, coming, onTarget)
    requires ByWorker(a) && Enabled(s, a)
    ensures CancelShape(After(g, s, a), f, coming, onTarget)
  {
    match a
    case Loop(l) => CancelLoop(s, l, f, coming, onTarget);
    case Wait(w) => CancelWait(s, w, f, coming, onTarget);
    case Code(c) => CancelCode(s, c, f, coming, onTarget);
    case Park(p) => CancelPark(s, p, f, coming, onTarget);
    case Exit(e) => CancelExit(s, e, f, coming, onTarget);
    case Meet(j) => CancelMeet(s, j, f, coming, onTarget);
    case Arm(r) => CancelArm(g, s, r, f, coming, onTarget);
    case Settling(x) => CancelSettle(s, x, f, coming, onTarget);
  }

  // What a step of the worker does to the calls in progress is read off the step alone.

  lemma CallsLoop(s: State, l: LoopStep, t: Tid)
    requires OWNER !in s.calls && LoopEnabled(s, l)
    ensures CallsGrow(s, AfterLoop(s, l), t)
  {}

  lemma CallsWait(s: State, w: WaitStep, t: Tid)
    requires OWNER !in s.calls && WaitEnabled(s, w)
    ensures CallsGrow(s, AfterWait(s, w), t)
  {}

  lemma CallsCode(s: State, c: CodeStep, t: Tid)
    requires CodeEnabled(s, c)
    ensures CallsGrow(s, AfterCode(s, c), t)
  {}

  lemma CallsMeet(s: State, j: JoinStep, t: Tid)
    requires JoinEnabled(s, j)
    ensures CallsGrow(s, AfterMeet(s, j), t)
  {}

  lemma CallsArm(g: Grain, s: State, r: ArmStep, t: Tid)
    requires ArmEnabled(s, r)
    ensures CallsGrow(s, AfterArm(g, s, r), t)
  {}

  lemma CallsSettle(s: State, x: SettleStep, t: Tid)
    requires OWNER !in s.calls && SettleEnabled(s, x)
    ensures CallsGrow(s, AfterSettle(s, x), t)
  {}

  lemma CallsPark(s: State, p: ParkStep, t: Tid)
    requires ParkEnabled(s, p)
    ensures CallsGrow(s, AfterPark(s, p), t)
  {}

  lemma CallsExit(s: State, e: ExitStep, t: Tid)
    requires ExitEnabled(s, e)
    ensures CallsGrow(s, AfterExit(s, e), t)
  {}

  lemma WorkerCalls(g: Grain, s: State, a: Step, t: Tid)
    requires ByWorker(a) && Enabled(s, a)
    ensures CallsGrow(s, After(g, s, a), t)
  {
    hide CallsGrow, AfterLoop, AfterWait, AfterCode, AfterPark, AfterExit, AfterMeet, AfterArm, AfterSettle;
    match a
    case Loop(l) => CallsLoop(s, l, t);
    case Wait(w) => CallsWait(s, w, t);
    case Code(c) => CallsCode(s, c, t);
    case Park(p) => CallsPark(s, p, t);
    case Exit(e) => CallsExit(s, e, t);
    case Meet(j) => CallsMeet(s, j, t);
    case Arm(r) => CallsArm(g, s, r, t);
    case Settling(x) => CallsSettle(s, x, t);
  }

  lemma WokenWorker(g: Grain, s: State, a: Step)
    requires Placed(s) && Woken(s) && ByWorker(a) && Enabled(s, a)
    ensures Woken(After(g, s, a))
  {
    var s' := After(g, s, a);
    assert BusyAt(s, 0) && WakeShape(s, 0, SomeLatched(s, 0));
    WakeWorker(g, s, a, 0, SomeLatched(s, 0));
    forall f
      ensures WakeShape(s', f, SomeLatched(s', f)) && CancelShape(s', f, SomeComing(s', f), SomeOnTarget(s', f))
    {
      assert BusyAt(s, f) && WakeShape(s, f, SomeLatched(s, f));
      assert CancelShape(s, f, SomeComing(s, f), SomeOnTarget(s, f));
      SomeKept(g, s, a, f);
      ComingOnTarget(s, f);
      WakeWorker(g, s, a, f, SomeLatched(s, f));
      CancelWorker(g, s, a, f, SomeComing(s, f), SomeOnTarget(s, f));
    }
  }

  lemma ComingOnTarget(s: State, f: Fid)
    ensures SomeComing(s, f) ==> SomeOnTarget(s, f)
  {
    if t :| Coming(s, t, f) {
      assert OnTarget(s, t, f);
    }
  }

  lemma SomeKept(g: Grain, s: State, a: Step, f: Fid)
    requires Placed(s) && Woken(s) && ByWorker(a) && Enabled(s, a)
    ensures SomeLatched(s, f) ==> SomeLatched(After(g, s, a), f)
    ensures SomeComing(s, f) ==> SomeComing(After(g, s, a), f)
    ensures SomeOnTarget(s, f) ==> SomeOnTarget(After(g, s, a), f)
  {
    var s' := After(g, s, a);
    if t, m :| Latched(s, t, f, m) {
      WorkerCalls(g, s, a, t);
      assert Latched(s', t, f, m);
    }
    if t :| Coming(s, t, f) {
      WorkerCalls(g, s, a, t);
      assert Coming(s', t, f);
    }
    if t :| OnTarget(s, t, f) {
      WorkerCalls(g, s, a, t);
      assert OnTarget(s', t, f);
    }
  }

  // A step of a resume.

  /** The stepping thread aside, every resumer stays where it is. */
  lemma OthersStay(s: State, t: Tid, u: Tid, f: Fid, m: nat)
    requires t in s.calls && CallTarget(s, s.calls[t]) && u != t
    ensures Latched(AfterCall(s, t), u, f, m) == Latched(s, u, f, m)
    ensures Coming(AfterCall(s, t), u, f) == Coming(s, u, f)
    ensures OnTarget(AfterCall(s, t), u, f) == OnTarget(s, u, f)
  {
  }

  /** A resumer that has latched stays one as long as the fiber is still parked. */
  lemma SelfLatched(s: State, t: Tid, f: Fid, m: nat)
    requires t in s.calls && CallTarget(s, s.calls[t]) && Latched(s, t, f, m)
    requires f in s.fibers && AfterCall(s, t).fibers[f].state.Parked?
    ensures exists n :: Latched(AfterCall(s, t), t, f, n)
  {
    var s' := AfterCall(s, t);
    match s.calls[t]
    case Load(_, _) => assert Latched(s', t, f, m);
    case Cas(_, _) =>
    case Latch(_, _) => assert Latched(s', t, f, s.fibers[f].consumed);
    case Recheck(_, _) => assert Latched(s', t, f, m);
  }

  lemma LatchedAfterCall(s: State, t: Tid, f: Fid)
    requires t in s.calls && CallTarget(s, s.calls[t])
    requires f in s.fibers && AfterCall(s, t).fibers[f].state.Parked?
    requires SomeLatched(s, f) || (s.calls[t].Latch? && s.calls[t].f == f)
    ensures SomeLatched(AfterCall(s, t), f)
  {
    var s' := AfterCall(s, t);
    if s.calls[t].Latch? && s.calls[t].f == f {
      assert Latched(s', t, f, s.fibers[f].consumed);
    } else {
      var u, m :| Latched(s, u, f, m);
      if u == t {
        SelfLatched(s, t, f, m);
      } else {
        OthersStay(s, t, u, f, m);
        assert Latched(s', u, f, m);
      }
    }
  }

  lemma OnTargetAfterCall(s: State, t: Tid, f: Fid)
    requires t in s.calls && CallTarget(s, s.calls[t]) && SomeOnTarget(s, f)
    requires f in s.fibers && AfterCall(s, t).fibers[f].state.Parked?
    ensures SomeOnTarget(AfterCall(s, t), f)
  {
    var u :| OnTarget(s, u, f);
    if u != t {
      OthersStay(s, t, u, f, 0);
    }
    assert OnTarget(AfterCall(s, t), u, f);
  }

  lemma ComingAfterCall(s: State, t: Tid, f: Fid)
    requires t in s.calls && CallTarget(s, s.calls[t]) && SomeComing(s, f)
    requires f in s.fibers && !s.fibers[f].state.Parked? && !s.fibers[f].state.Done?
    ensures SomeComing(AfterCall(s, t), f) || AfterCall(s, t).fibers[f].pending
  {
    var u :| Coming(s, u, f);
    if u != t {
      OthersStay(s, t, u, f, 0);
      assert Coming(AfterCall(s, t), u, f);
    } else if !s.calls[t].Latch? {
      assert Coming(AfterCall(s, t), t, f);
    }
  }

  /** A committed fiber is running or parking. */
  lemma CommittedBusy(s: State, f: Fid)
    requires Placed(s) && f in s.fibers && Committed(s, f)
    ensures s.fibers[f].state.Running? || s.fibers[f].state.Parking?
  {
    assert BusyAt(s, f);
  }

  lemma WokenCall(s: State, t: Tid)
    requires Placed(s) && Woken(s) && t in s.calls && CallTarget(s, s.calls[t])
    requires s.calls[t].Latch? ==> s.pc != SettleCas(s.calls[t].f)
    ensures Woken(AfterCall(s, t))
  {
    var s' := AfterCall(s, t);
    forall f
      ensures WakeShape(s', f, SomeLatched(s', f)) && CancelShape(s', f, SomeComing(s', f), SomeOnTarget(s', f))
    {
      assert WakeShape(s, f, SomeLatched(s, f));
      assert CancelShape(s, f, SomeComing(s, f), SomeOnTarget(s, f));
      if f in s.fibers && s'.fibers[f].state.Parked? {
        if SomeLatched(s, f) || (s.calls[t].Latch? && s.calls[t].f == f) {
          LatchedAfterCall(s, t, f);
        }
        if SomeOnTarget(s, f) {
          OnTargetAfterCall(s, t, f);
        }
      }
      if f in s.fibers && Committed(s, f) {
        CommittedBusy(s, f);
        if SomeComing(s, f) {
          ComingAfterCall(s, t, f);
        }
      }
    }
  }

  lemma WokenNewCall(s: State, t: Tid, f: Fid, b: Fiber)
    requires Woken(s) && t !in s.calls && f in s.fibers
    requires b == s.fibers[f] || b == s.fibers[f].(cancel := true)
    ensures Woken(Put(s, f, b).(calls := s.calls[t := Load(f, None)]))
  {
    var s' := Put(s, f, b).(calls := s.calls[t := Load(f, None)]);
    assert Coming(s', t, f) && OnTarget(s', t, f);
    forall h
      ensures WakeShape(s', h, SomeLatched(s', h)) && CancelShape(s', h, SomeComing(s', h), SomeOnTarget(s', h))
    {
      assert WakeShape(s, h, SomeLatched(s, h));
      assert CancelShape(s, h, SomeComing(s, h), SomeOnTarget(s, h));
      if u, m :| Latched(s, u, h, m) {
        assert Latched(s', u, h, m);
      }
      if u :| Coming(s, u, h) {
        assert Coming(s', u, h);
      }
      if u :| OnTarget(s, u, h) {
        assert OnTarget(s', u, h);
      }
    }
  }

  lemma WokenStep(g: Grain, s: State, a: Step)
    requires Placed(s) && Woken(s) && Enabled(s, a) && OutsideWindow(s, a)
    ensures Woken(After(g, s, a))
  {
    match a
    case CallResume(t, f) =>
      assert s.fibers[f := s.fibers[f]] == s.fibers;
      WokenNewCall(s, t, f, s.fibers[f]);
    case CallCancel(t, f) => WokenNewCall(s, t, f, s.fibers[f].(cancel := true));
    case Proceed(t) => WokenCall(s, t);
    case _ => WokenWorker(g, s, a);
  }

  // ---- whole runs ---------------------------------------------------------------

  /** No step of the run stores a latch inside settle's window. */
  ghost predicate AvoidsWindow(g: Grain, s: State, trace: seq<Step>)
    requires IsRun(g, s, trace)
    decreases |trace|
  {
    trace == [] || (OutsideWindow(s, trace[0]) && AvoidsWindow(g, After(g, s, trace[0]), trace[1..]))
  }

  lemma {:induction false} WholeGrainAvoidsWindow(g: Grain, s: State, trace: seq<Step>)
    requires !g.Split? && !s.pc.SettleCas? && Placed(s) && Woken(s) && IsRun(g, s, trace)
    ensures AvoidsWindow(g, s, trace)
    decreases |trace|
  {
    if trace != [] {
      var a := trace[0];
      PlacedStep(g, s, a);
      WokenStep(g, s, a);
      if ByWorker(a) {
        assert BusyAt(s, 0) && WakeShape(s, 0, SomeLatched(s, 0));
        WakeWorker(g, s, a, 0, SomeLatched(s, 0));
      }
      WholeGrainAvoidsWindow(g, After(g, s, a), trace[1..]);
    }
  }

  lemma {:induction false} WokenRun(g: Grain, s: State, trace: seq<Step>)
    requires Placed(s) && Woken(s) && IsRun(g, s, trace) && AvoidsWindow(g, s, trace)
    ensures Placed(End(g, s, trace)) && Woken(End(g, s, trace))
    decreases |trace|
  {
    if trace != [] {
      PlacedStep(g, s, trace[0]);
      WokenStep(g, s, trace[0]);
      WokenRun(g, After(g, s, trace[0]), trace[1..]);
    }
  }

  lemma WokenInit()
    ensures Placed(Init()) && Woken(Init())
  {
    PlacedInit();
  }

  /** f is parked with its latch set, and no resumer that set it will look again. */
  ghost predicate LostWake(s: State, f: Fid) {
    f in s.fibers && s.fibers[f].state.Parked? && s.fibers[f].pending
    && !SomeLatched(s, f) && s.pc != SettleRecheck(f)
  }

  /** f must notice a cancel, is parked, and nobody is on the way to wake it. */
  ghost predicate LostCancel(s: State, f: Fid) {
    f in s.fibers && s.fibers[f].state.Parked? && s.fibers[f].cancel && !s.fibers[f].masked
    && !SomeOnTarget(s, f) && s.pc != SettleClaim(f) && s.pc != SettleRecheck(f)
  }

  /** No wake is lost.  With settle's park arm in one step, or with PARKED published
      before the latch is read, this holds of every run; in the order of the source
      it holds of every run in which no latch is stored inside settle's window. */
  lemma NoWakeIsLost(g: Grain, trace: seq<Step>, f: Fid)
    requires IsRun(g, Init(), trace)
    requires g.Split? ==> AvoidsWindow(g, Init(), trace)
    ensures !LostWake(End(g, Init(), trace), f) && !LostCancel(End(g, Init(), trace), f)
  {
    WokenInit();
    if !g.Split? {
      WholeGrainAvoidsWindow(g, Init(), trace);
    }
    WokenRun(g, Init(), trace);
    var s := End(g, Init(), trace);
    assert WakeShape(s, f, SomeLatched(s, f));
    assert CancelShape(s, f, SomeComing(s, f), SomeOnTarget(s, f));
  }

  // ---- a latch stays set until it is consumed: in every run -----------------------

  lemma MarkLoop(s: State, l: LoopStep, f: Fid, m: nat)
    requires MarkShape(s, f, m) && OWNER !in s.calls && LoopEnabled(s, l)
    ensures MarkShape(AfterLoop(s, l), f, m)
  {}

  lemma MarkWait(s: State, w: WaitStep, f: Fid, m: nat)
    requires MarkShape(s, f, m) && OWNER !in s.calls && WaitEnabled(s, w)
    ensures MarkShape(AfterWait(s, w), f, m)
  {}

  lemma MarkCode(s: State, c: CodeStep, f: Fid, m: nat)
    requires MarkShape(s, f, m) && CodeEnabled(s, c)
    ensures MarkShape(AfterCode(s, c), f, m)
  {}

  lemma MarkPark(s: State, p: ParkStep, f: Fid, m: nat)
    requires MarkShape(s, f, m) && ParkEnabled(s, p)
    ensures MarkShape(AfterPark(s, p), f, m)
  {}

  lemma MarkExit(s: State, e: ExitStep, f: Fid, m: nat)
    requires MarkShape(s, f, m) && ExitEnabled(s, e)
    ensures MarkShape(AfterExit(s, e), f, m)
  {}

  lemma MarkMeet(s: State, j: JoinStep, f: Fid, m: nat)
    requires MarkShape(s, f, m) && JoinEnabled(s, j)
    ensures MarkShape(AfterMeet(s, j), f, m)
  {}

  lemma MarkArm(g: Grain, s: State, r: ArmStep, f: Fid, m: nat)
    requires MarkShape(s, f, m) && ArmEnabled(s, r)
    ensures MarkShape(AfterArm(g, s, r), f, m)
  {}

  lemma MarkSettle(s: State, x: SettleStep, f: Fid, m: nat)
    requires MarkShape(s, f, m) && OWNER !in s.calls && SettleEnabled(s, x)
    ensures MarkShape(AfterSettle(s, x), f, m)
  {}

  lemma MarkWorker(g: Grain, s: State, a: Step, f: Fid, m: nat)
    requires MarkShape(s, f, m) && ByWorker(a) && Enabled(s, a)
    ensures MarkShape(After(g, s, a), f, m)
  {
    hide MarkShape, AfterLoop, AfterWait, AfterCode, AfterPark, AfterExit, AfterMeet, AfterArm, AfterSettle;
    match a
    case Loop(l) => MarkLoop(s, l, f, m);
    case Wait(w) => MarkWait(s, w, f, m);
    case Code(c) => MarkCode(s, c, f, m);
    case Park(p) => MarkPark(s, p, f, m);
    case Exit(e) => MarkExit(s, e, f, m);
    case Meet(j) => MarkMeet(s, j, f, m);
    case Arm(r) => MarkArm(g, s, r, f, m);
    case Settling(x) => MarkSettle(s, x, f, m);
  }

  /** Every latch a resumer has stored is still set or has been consumed since. */
  ghost predicate Marked(s: State) {
    forall t, f, m :: Latched(s, t, f, m) ==> MarkShape(s, f, m)
  }

  lemma MarkAfterCall(s: State, t: Tid, u: Tid, f: Fid, m: nat)
    requires Marked(s) && t in s.calls && CallTarget(s, s.calls[t])
    requires Latched(AfterCall(s, t), u, f, m)
    ensures MarkShape(AfterCall(s, t), f, m)
  {
    if u != t {
      OthersStay(s, t, u, f, m);
    } else if !s.calls[t].Latch? {
      assert Latched(s, t, f, m);
    }
  }

  lemma MarkedStep(g: Grain, s: State, a: Step)
    requires Marked(s) && Enabled(s, a)
    ensures Marked(After(g, s, a))
  {
    forall t, f, m | Latched(After(g, s, a), t, f, m)
      ensures MarkShape(After(g, s, a), f, m)
    {
      match a
      case CallResume(u, _) => assert t != u && Latched(s, t, f, m);
      case CallCancel(u, _) => assert t != u && Latched(s, t, f, m);
      case Proceed(u) => MarkAfterCall(s, u, t, f, m);
      case _ =>
        WorkerCalls(g, s, a, t);
        assert Latched(s, t, f, m);
        MarkWorker(g, s, a, f, m);
    }
  }

  lemma {:induction false} MarkedRun(g: Grain, s: State, trace: seq<Step>)
    requires Marked(s) && IsRun(g, s, trace)
    ensures Marked(End(g, s, trace))
    decreases |trace|
  {
    if trace != [] {
      MarkedStep(g, s, trace[0]);
      MarkedRun(g, After(g, s, trace[0]), trace[1..]);
    }
  }

  /** What a resume of f leaves behind in the step that ends it, in every run. */
  lemma FinishedResumeTookEffect(g: Grain, trace: seq<Step>, t: Tid, f: Fid)
    requires IsRun(g, Init(), trace)
    requires
      var s := End(g, Init(), trace);
      Enabled(s, Proceed(t)) && !s.calls[t].ReadPoll? && !s.calls[t].Kicking? && s.calls[t].f == f
      && (t !in AfterCall(s, t).calls || AfterCall(s, t).calls[t].ReadPoll?)
    ensures
      var s := End(g, Init(), trace);
      var s' := AfterCall(s, t);
      var b := s'.fibers[f];
      || b.state.Done?                                              // nothing left to wake
      || f in s'.ready || f in s'.inbox                             // queued by this call
      || (b.pending && !b.state.Parked?)                            // latched for its next park
      || (s.calls[t].Recheck? && b.consumed > s.calls[t].mark)      // already woken by this latch
  {
    MarkedRun(g, Init(), trace);
    var s := End(g, Init(), trace);
    if s.calls[t].Recheck? {
      assert Latched(s, t, f, s.calls[t].mark);
    }
  }
}

/**
  What the worker owes its fibers: joins hand out the status the child ended
  with, a fiber waiting for a finished child is woken, the worker sleeps only when
  there is nothing to do, and it leaves its loop only when every fiber is done.
*/
module FiberDuties {
  import opened Options
  import opened FiberWorker
  import opened FiberPlaces
  import opened FiberWakes

  // ---- joins ---------------------------------------------------------------------

  /** The worker's own thread is inside a resume of f. */
  predicate OwnerOn(s: State, f: Fid) {
    OnTarget(s, OWNER, f)
  }

  /** f is on its way to being parked. */
  predicate GoingToPark(pc: Pc, f: Fid) {
    pc == Joining(f) || pc == ParkChecked(f) || pc == ParkStore(f) || pc == Settle(f)
    || pc == SettleCas(f) || pc == SettleRecheck(f) || pc == SettleClaim(f)
  }

  /** f is waiting for the child c. */
  predicate WaitsFor(s: State, f: Fid, c: Fid) {
    f in s.fibers && s.fibers[f].waiting == Some(c) && c in s.fibers
  }

  /** A fiber on its way to park waits for a child that is not done. */
  predicate LivingChild(s: State, f: Fid, c: Fid) {
    WaitsFor(s, f, c) ==> s.pc != YieldStore(f) && (GoingToPark(s.pc, f) ==> !s.fibers[c].state.Done?)
  }

  /** If its child is done, a parked joiner is being resumed by the worker, or is about to be. */
  predicate NotStranded(s: State, f: Fid, c: Fid) {
    WaitsFor(s, f, c) && s.fibers[f].state.Parked? && s.fibers[c].state.Done? ==>
      s.pc == Hook(c) || OwnerOn(s, f)
  }

  /** What the histories say about f. */
  predicate History(s: State, f: Fid) {
    && (f in s.delivered <==> f in s.fibers && s.fibers[f].joined)
    && (f in s.all <==> f in s.fibers && !s.fibers[f].state.Done?)
    && (f in s.ended ==> f in s.fibers)
    && (f in s.fibers ==>
          var b := s.fibers[f];
          && (b.joined ==> b.state.Done? && b.hooked && s.delivered[f] == b.status)
          && (b.state.Done? ==> f in s.ended && s.ended[f] == b.status && (b.hooked || s.pc == Hook(f)))
          && (s.pc == Settle(f) && b.disposition.ToFinish? ==> f in s.ended && s.ended[f] == b.status))
  }

  // ---- the loop and its sleeps -----------------------------------------------------

  /** Program points the worker reaches only with an empty run queue. */
  predicate NothingReady(pc: Pc) {
    pc.Idle? || pc.IoRaise? || pc.IoCheck? || pc.Blocked? || pc.CondEnter? || pc.CondWait?
    || pc == Take(Alone) || pc.Report?
  }

  predicate LoopOk(s: State) {
    && s.live == |s.all|
    && (s.pc.Exited? ==> s.live <= 0)
    && (NothingReady(s.pc) ==> s.ready == [])
    && (s.inPoll <==> s.pc.IoCheck? || s.pc.IoLower? || s.pc.Blocked? || s.pc.Events?)
    && (NobodyElse(s.pc) ==> s.calls == map[] && s.timers == multiset{} && s.armed == {})
    && (s.pc == Draining(Alone) || s.pc.Report? ==> s.inbox == [])
    && (s.pc.Report? ==> s.batch == [])
  }

  /** t has posted to the inbox and has not yet finished looking at the in-poll flag. */
  predicate Knocking(s: State, t: Tid) {
    t in s.calls && (s.calls[t].ReadPoll? || s.calls[t].Kicking?)
  }

  ghost predicate SomeKnocking(s: State) {
    exists t :: Knocking(s, t)
  }

  /** A post does not leave the worker asleep. */
  predicate PollShape(s: State, knocking: bool) {
    && (s.pc.Blocked? && s.inbox != [] ==> s.kick || knocking)
    && (s.pc.CondWait? && s.inbox != [] ==> s.signalled)
  }

  ghost predicate Dutiful(s: State) {
    && LoopOk(s)
    && PollShape(s, SomeKnocking(s))
    && (forall f, c :: LivingChild(s, f, c))
    && (forall f, c :: NotStranded(s, f, c))
    && (forall f :: History(s, f))
  }

  // ---- joining a living child ------------------------------------------------

  lemma LivingCall(s: State, t: Tid, f: Fid, c: Fid)
    requires LivingChild(s, f, c)
    requires t in s.calls && CallTarget(s, s.calls[t])
    ensures LivingChild(AfterCall(s, t), f, c)
  {}

  lemma LivingLoop(s: State, l: LoopStep, f: Fid, c: Fid)
    requires PcKnown(s) && BusyAt(s, f) && Paired(s, f) && LivingChild(s, f, c)
    requires OWNER !in s.calls && LoopEnabled(s, l)
    ensures LivingChild(AfterLoop(s, l), f, c)
  {}

  lemma LivingWait(s: State, w: WaitStep, f: Fid, c: Fid)
    requires PcKnown(s) && BusyAt(s, f) && Paired(s, f) && LivingChild(s, f, c)
    requires OWNER !in s.calls && WaitEnabled(s, w)
    ensures LivingChild(AfterWait(s, w), f, c)
  {}

  lemma LivingCode(s: State, x: CodeStep, f: Fid, c: Fid)
    requires PcKnown(s) && BusyAt(s, f) && Paired(s, f) && LivingChild(s, f, c)
    requires OWNER !in s.calls && CodeEnabled(s, x)
    ensures LivingChild(AfterCode(s, x), f, c)
  {}

  lemma LivingPark(s: State, p: ParkStep, f: Fid, c: Fid)
    requires PcKnown(s) && BusyAt(s, f) && Paired(s, f) && LivingChild(s, f, c)
    requires OWNER !in s.calls && ParkEnabled(s, p)
    ensures LivingChild(AfterPark(s, p), f, c)
  {}

  lemma LivingExit(s: State, e: ExitStep, f: Fid, c: Fid)
    requires PcKnown(s) && BusyAt(s, f) && Paired(s, f) && LivingChild(s, f, c)
    requires OWNER !in s.calls && ExitEnabled(s, e)
    ensures LivingChild(AfterExit(s, e), f, c)
  {}

  lemma LivingMeet(s: State, j: JoinStep, f: Fid, c: Fid)
    requires PcKnown(s) && BusyAt(s, f) && Paired(s, f) && LivingChild(s, f, c)
    requires OWNER !in s.calls && JoinEnabled(s, j)
    ensures LivingChild(AfterMeet(s, j), f, c)
  {}

  lemma LivingArm(g: Grain, s: State, r: ArmStep, f: Fid, c: Fid)
    requires PcKnown(s) && BusyAt(s, f) && Paired(s, f) && LivingChild(s, f, c)
    requires OWNER !in s.calls && ArmEnabled(s, r)
    ensures LivingChild(AfterArm(g, s, r), f, c)
  {}

  lemma LivingSettle(s: State, x: SettleStep, f: Fid, c: Fid)
    requires PcKnown(s) && BusyAt(s, f) && Paired(s, f) && LivingChild(s, f, c)
    requires OWNER !in s.calls && SettleEnabled(s, x)
    ensures LivingChild(AfterSettle(s, x), f, c)
  {}

  // ---- joiners are not stranded ----------------------------------------------

  lemma StrandedCall(s: State, t: Tid, f: Fid, c: Fid)
    requires NotStranded(s, f, c)
    requires t in s.calls && CallTarget(s, s.calls[t])
    ensures NotStranded(AfterCall(s, t), f, c)
  {}

  lemma StrandedLoop(s: State, l: LoopStep, f: Fid, c: Fid)
    requires PcKnown(s) && BusyAt(s, f) && Paired(s, f) && LivingChild(s, f, c) && NotStranded(s, f, c)
    requires OWNER !in s.calls && LoopEnabled(s, l)
    ensures NotStranded(AfterLoop(s, l), f, c)
  {
    hide AfterFire;
    match l
    case FireTimer(_) =>
    case PopReady =>
    case StartFiber =>
    case DrainPush =>
    case _ =>
  }

  lemma StrandedWait(s: State, w: WaitStep, f: Fid, c: Fid)
    requires PcKnown(s) && BusyAt(s, f) && Paired(s, f) && LivingChild(s, f, c) && NotStranded(s, f, c)
    requires OWNER !in s.calls && WaitEnabled(s, w)
    ensures NotStranded(AfterWait(s, w), f, c)
  {}

  lemma StrandedCode(s: State, x: CodeStep, f: Fid, c: Fid)
    requires PcKnown(s) && BusyAt(s, f) && Paired(s, f) && LivingChild(s, f, c) && NotStranded(s, f, c)
    requires OWNER !in s.calls && CodeEnabled(s, x)
    ensures NotStranded(AfterCode(s, x), f, c)
  {}

  lemma StrandedPark(s: State, p: ParkStep, f: Fid, c: Fid)
    requires PcKnown(s) && BusyAt(s, f) && Paired(s, f) && LivingChild(s, f, c) && NotStranded(s, f, c)
    requires OWNER !in s.calls && ParkEnabled(s, p)
    ensures NotStranded(AfterPark(s, p), f, c)
  {}

  lemma StrandedExit(s: State, e: ExitStep, f: Fid, c: Fid)
    requires PcKnown(s) && BusyAt(s, f) && Paired(s, f) && LivingChild(s, f, c) && NotStranded(s, f, c)
    requires OWNER !in s.calls && ExitEnabled(s, e)
    ensures NotStranded(AfterExit(s, e), f, c)
  {}

  lemma StrandedJoin(s: State, child: Fid, f: Fid, c: Fid)
    requires PcKnown(s) && BusyAt(s, f) && Paired(s, f) && LivingChild(s, f, c) && NotStranded(s, f, c)
    requires OWNER !in s.calls && JoinEnabled(s, Join(child))
    ensures NotStranded(AfterMeet(s, Join(child)), f, c)
  {}

  lemma StrandedMeet(s: State, j: JoinStep, f: Fid, c: Fid)
    requires PcKnown(s) && BusyAt(s, f) && Paired(s, f) && LivingChild(s, f, c) && NotStranded(s, f, c)
    requires OWNER !in s.calls && JoinEnabled(s, j)
    ensures NotStranded(AfterMeet(s, j), f, c)
  {
    if j.Join? {
      StrandedJoin(s, j.c, f, c);
    }
  }

  lemma StrandedArm(g: Grain, s: State, r: ArmStep, f: Fid, c: Fid)
    requires PcKnown(s) && BusyAt(s, f) && Paired(s, f) && LivingChild(s, f, c) && NotStranded(s, f, c)
    requires OWNER !in s.calls && ArmEnabled(s, r)
    ensures NotStranded(AfterArm(g, s, r), f, c)
  {}

  lemma StrandedHook(s: State, f: Fid, c: Fid)
    requires PcKnown(s) && BusyAt(s, f) && Paired(s, f) && LivingChild(s, f, c) && NotStranded(s, f, c)
    requires OWNER !in s.calls && SettleEnabled(s, HookDone)
    ensures NotStranded(AfterSettle(s, HookDone), f, c)
  {
    assert c == s.pc.f ==> s.fibers[c].joiner == Some(f) || !WaitsFor(s, f, c);
  }

  lemma StrandedSettle(s: State, x: SettleStep, f: Fid, c: Fid)
    requires PcKnown(s) && BusyAt(s, f) && Paired(s, f) && LivingChild(s, f, c) && NotStranded(s, f, c)
    requires OWNER !in s.calls && SettleEnabled(s, x)
    ensures NotStranded(AfterSettle(s, x), f, c)
  {
    if x.HookDone? {
      StrandedHook(s, f, c);
    } else {
      assert !OwnerOn(s, f);
    }
  }

  // ---- histories -------------------------------------------------------------

  lemma HistoryCall(s: State, t: Tid, f: Fid)
    requires History(s, f)
    requires t in s.calls && CallTarget(s, s.calls[t])
    ensures History(AfterCall(s, t), f)
  {}

  lemma HistoryLoop(s: State, l: LoopStep, f: Fid)
    requires PcKnown(s) && BusyAt(s, f) && History(s, f)
    requires OWNER !in s.calls && LoopEnabled(s, l)
    ensures History(AfterLoop(s, l), f)
  {}

  lemma HistoryWait(s: State, w: WaitStep, f: Fid)
    requires PcKnown(s) && BusyAt(s, f) && History(s, f)
    requires OWNER !in s.calls && WaitEnabled(s, w)
    ensures History(AfterWait(s, w), f)
  {}

  lemma HistoryCode(s: State, c: CodeStep, f: Fid)
    requires PcKnown(s) && BusyAt(s, f) && History(s, f)
    requires OWNER !in s.calls && CodeEnabled(s, c)
    ensures History(AfterCode(s, c), f)
  {}

  lemma HistoryPark(s: State, p: ParkStep, f: Fid)
    requires PcKnown(s) && BusyAt(s, f) && History(s, f)
    requires OWNER !in s.calls && ParkEnabled(s, p)
    ensures History(AfterPark(s, p), f)
  {}

  lemma HistoryExit(s: State, e: ExitStep, f: Fid)
    requires PcKnown(s) && BusyAt(s, f) && History(s, f)
    requires OWNER !in s.calls && ExitEnabled(s, e)
    ensures History(AfterExit(s, e), f)
  {}

  lemma HistoryMeet(s: State, j: JoinStep, f: Fid)
    requires PcKnown(s) && BusyAt(s, f) && History(s, f) && Paired(s, f)
    requires OWNER !in s.calls && JoinEnabled(s, j)
    ensures History(AfterMeet(s, j), f)
  {}

  lemma HistoryArm(g: Grain, s: State, r: ArmStep, f: Fid)
    requires PcKnown(s) && BusyAt(s, f) && History(s, f)
    requires OWNER !in s.calls && ArmEnabled(s, r)
    ensures History(AfterArm(g, s, r), f)
  {}

  lemma HistorySettle(s: State, x: SettleStep, f: Fid)
    requires PcKnown(s) && BusyAt(s, f) && History(s, f)
    requires OWNER !in s.calls && SettleEnabled(s, x)
    ensures History(AfterSettle(s, x), f)
  {}

  // ---- the loop --------------------------------------------------------------

  lemma LoopCall(s: State, t: Tid)
    requires LoopOk(s) && (OWNER in s.calls ==> OwnerMayBeCalling(s.pc))
    requires t in s.calls && CallTarget(s, s.calls[t])
    ensures LoopOk(AfterCall(s, t))
  {}

  lemma LoopLoop(s: State, l: LoopStep)
    requires PcKnown(s) && LoopOk(s)
    requires OWNER !in s.calls && LoopEnabled(s, l)
    ensures LoopOk(AfterLoop(s, l))
  {
    match l
    case FireDone =>
    case PopReady =>
    case TakeInbox =>
    case Drained =>
    case _ =>
  }

  lemma LoopWait(s: State, w: WaitStep)
    requires PcKnown(s) && LoopOk(s)
    requires OWNER !in s.calls && WaitEnabled(s, w)
    ensures LoopOk(AfterWait(s, w))
  {}

  lemma LoopCode(s: State, c: CodeStep)
    requires LoopOk(s) && (c.Spawn? ==> History(s, c.g))
    requires OWNER !in s.calls && CodeEnabled(s, c)
    ensures LoopOk(AfterCode(s, c))
  {}

  lemma LoopPark(s: State, p: ParkStep)
    requires PcKnown(s) && LoopOk(s)
    requires OWNER !in s.calls && ParkEnabled(s, p)
    ensures LoopOk(AfterPark(s, p))
  {}

  lemma LoopExit(s: State, e: ExitStep)
    requires PcKnown(s) && LoopOk(s)
    requires OWNER !in s.calls && ExitEnabled(s, e)
    ensures LoopOk(AfterExit(s, e))
  {}

  lemma LoopMeet(s: State, j: JoinStep)
    requires PcKnown(s) && LoopOk(s)
    requires OWNER !in s.calls && JoinEnabled(s, j)
    ensures LoopOk(AfterMeet(s, j))
  {}

  lemma LoopArm(g: Grain, s: State, r: ArmStep)
    requires PcKnown(s) && LoopOk(s)
    requires OWNER !in s.calls && ArmEnabled(s, r)
    ensures LoopOk(AfterArm(g, s, r))
  {}

  lemma LoopSettle(s: State, x: SettleStep)
    requires PcKnown(s) && LoopOk(s) && (s.pc.Settle? ==> BusyAt(s, s.pc.f) && History(s, s.pc.f))
    requires OWNER !in s.calls && SettleEnabled(s, x)
    ensures LoopOk(AfterSettle(s, x))
  {}

  // ---- sleeping --------------------------------------------------------------

  lemma PollCall(s: State, t: Tid, knocking: bool)
    requires LoopOk(s) && PollShape(s, knocking || Knocking(s, t))
    requires t in s.calls && CallTarget(s, s.calls[t])
    ensures PollShape(AfterCall(s, t), knocking || Knocking(AfterCall(s, t), t))
  {}

  lemma PollLoop(s: State, l: LoopStep, knocking: bool)
    requires LoopOk(s) && PollShape(s, knocking)
    requires OWNER !in s.calls && LoopEnabled(s, l)
    ensures PollShape(AfterLoop(s, l), knocking)
  {}

  lemma PollWait(s: State, w: WaitStep, knocking: bool)
    requires LoopOk(s) && PollShape(s, knocking)
    requires OWNER !in s.calls && WaitEnabled(s, w)
    ensures PollShape(AfterWait(s, w), knocking)
  {}

  lemma PollCode(s: State, c: CodeStep, knocking: bool)
    requires LoopOk(s) && PollShape(s, knocking)
    requires OWNER !in s.calls && CodeEnabled(s, c)
    ensures PollShape(AfterCode(s, c), knocking)
  {}

  lemma PollPark(s: State, p: ParkStep, knocking: bool)
    requires LoopOk(s) && PollShape(s, knocking)
    requires OWNER !in s.calls && ParkEnabled(s, p)
    ensures PollShape(AfterPark(s, p), knocking)
  {}

  lemma PollExit(s: State, e: ExitStep, knocking: bool)
    requires LoopOk(s) && PollShape(s, knocking)
    requires OWNER !in s.calls && ExitEnabled(s, e)
    ensures PollShape(AfterExit(s, e), knocking)
  {}

  lemma PollMeet(s: State, j: JoinStep, knocking: bool)
    requires LoopOk(s) && PollShape(s, knocking)
    requires OWNER !in s.calls && JoinEnabled(s, j)
    ensures PollShape(AfterMeet(s, j), knocking)
  {}

  lemma PollArm(g: Grain, s: State, r: ArmStep, knocking: bool)
    requires LoopOk(s) && PollShape(s, knocking)
    requires OWNER !in s.calls && ArmEnabled(s, r)
    ensures PollShape(AfterArm(g, s, r), knocking)
  {}

  lemma PollSettle(s: State, x: SettleStep, knocking: bool)
    requires LoopOk(s) && PollShape(s, knocking)
    requires OWNER !in s.calls && SettleEnabled(s, x)
    ensures PollShape(AfterSettle(s, x), knocking)
  {}

  // ---- every step ---------------------------------------------------------------

  lemma LivingStep(g: Grain, s: State, a: Step, f: Fid, c: Fid)
    requires Placed(s) && LivingChild(s, f, c) && Enabled(s, a)
    ensures LivingChild(After(g, s, a), f, c)
  {
    assert BusyAt(s, f) && Paired(s, f);
    match a
    case CallResume(t, h) => assert s.fibers[h := s.fibers[h]] == s.fibers;
    case CallCancel(_, _) =>
    case Proceed(t) => LivingCall(s, t, f, c);
    case Loop(l) => LivingLoop(s, l, f, c);
    case Wait(w) => LivingWait(s, w, f, c);
    case Code(x) => LivingCode(s, x, f, c);
    case Park(p) => LivingPark(s, p, f, c);
    case Exit(e) => LivingExit(s, e, f, c);
    case Meet(j) => LivingMeet(s, j, f, c);
    case Arm(r) => LivingArm(g, s, r, f, c);
    case Settling(x) => LivingSettle(s, x, f, c);
  }

  lemma StrandedStep(g: Grain, s: State, a: Step, f: Fid, c: Fid)
    requires Placed(s) && LivingChild(s, f, c) && NotStranded(s, f, c) && Enabled(s, a)
    ensures NotStranded(After(g, s, a), f, c)
  {
    assert BusyAt(s, f) && Paired(s, f);
    match a
    case CallResume(t, h) => assert s.fibers[h := s.fibers[h]] == s.fibers;
    case CallCancel(_, _) =>
    case Proceed(t) => StrandedCall(s, t, f, c);
    case Loop(l) => StrandedLoop(s, l, f, c);
    case Wait(w) => StrandedWait(s, w, f, c);
    case Code(x) => StrandedCode(s, x, f, c);
    case Park(p) => StrandedPark(s, p, f, c);
    case Exit(e) => StrandedExit(s, e, f, c);
    case Meet(j) => StrandedMeet(s, j, f, c);
    case Arm(r) => StrandedArm(g, s, r, f, c);
    case Settling(x) => StrandedSettle(s, x, f, c);
  }

  lemma HistoryStep(g: Grain, s: State, a: Step, f: Fid)
    requires Placed(s) && History(s, f) && Enabled(s, a)
    ensures History(After(g, s, a), f)
  {
    assert BusyAt(s, f) && Paired(s, f);
    match a
    case CallResume(_, _) =>
    case CallCancel(_, _) =>
    case Proceed(t) => HistoryCall(s, t, f);
    case Loop(l) => HistoryLoop(s, l, f);
    case Wait(w) => HistoryWait(s, w, f);
    case Code(c) => HistoryCode(s, c, f);
    case Park(p) => HistoryPark(s, p, f);
    case Exit(e) => HistoryExit(s, e, f);
    case Meet(j) => HistoryMeet(s, j, f);
    case Arm(r) => HistoryArm(g, s, r, f);
    case Settling(x) => HistorySettle(s, x, f);
  }

  lemma LoopStepKept(g: Grain, s: State, a: Step)
    requires Placed(s) && Dutiful(s) && Enabled(s, a)
    ensures LoopOk(After(g, s, a))
  {
    match a
    case CallResume(_, _) =>
    case CallCancel(_, _) =>
    case Proceed(t) => LoopCall(s, t);
    case Loop(l) => LoopLoop(s, l);
    case Wait(w) => LoopWait(s, w);
    case Code(c) =>
      assert c.Spawn? ==> History(s, c.g);
      LoopCode(s, c);
    case Park(p) => LoopPark(s, p);
    case Exit(e) => LoopExit(s, e);
    case Meet(j) => LoopMeet(s, j);
    case Arm(r) => LoopArm(g, s, r);
    case Settling(x) =>
      assert s.pc.Settle? ==> BusyAt(s, s.pc.f) && History(s, s.pc.f);
      LoopSettle(s, x);
  }

  lemma PollStep(g: Grain, s: State, a: Step)
    requires Placed(s) && Dutiful(s) && Enabled(s, a)
    ensures PollShape(After(g, s, a), SomeKnocking(After(g, s, a)))
  {
    var s' := After(g, s, a);
    if a.Proceed? {
      var t := a.t;
      if u :| Knocking(s, u) && u != t {
        assert Knocking(s', u);
        PollCall(s, t, true);
      } else {
        assert SomeKnocking(s) ==> Knocking(s, t);
        PollCall(s, t, false);
      }
    } else {
      if u :| Knocking(s, u) {
        if ByWorker(a) {
          WorkerCalls(g, s, a, u);
        }
        assert Knocking(s', u);
      }
      PollOther(g, s, a);
    }
  }

  lemma PollOther(g: Grain, s: State, a: Step)
    requires Dutiful(s) && Enabled(s, a) && !a.Proceed?
    ensures PollShape(After(g, s, a), SomeKnocking(s))
  {
    var k := SomeKnocking(s);
    match a
    case CallResume(_, _) =>
    case CallCancel(_, _) =>
    case Loop(l) => PollLoop(s, l, k);
    case Wait(w) => PollWait(s, w, k);
    case Code(c) => PollCode(s, c, k);
    case Park(p) => PollPark(s, p, k);
    case Exit(e) => PollExit(s, e, k);
    case Meet(j) => PollMeet(s, j, k);
    case Arm(r) => PollArm(g, s, r, k);
    case Settling(x) => PollSettle(s, x, k);
  }

  lemma DutifulStep(g: Grain, s: State, a: Step)
    requires Placed(s) && Dutiful(s) && Enabled(s, a)
    ensures Dutiful(After(g, s, a))
  {
    LoopStepKept(g, s, a);
    PollStep(g, s, a);
    forall f, c ensures LivingChild(After(g, s, a), f, c) { LivingStep(g, s, a, f, c); }
    forall f, c ensures NotStranded(After(g, s, a), f, c) { StrandedStep(g, s, a, f, c); }
    forall f ensures History(After(g, s, a), f) { HistoryStep(g, s, a, f); }
  }

  lemma {:induction false} DutifulRun(g: Grain, s: State, trace: seq<Step>)
    requires Placed(s) && Dutiful(s) && IsRun(g, s, trace)
    ensures var e := End(g, s, trace); Placed(e) && Dutiful(e)
    decreases |trace|
  {
    if trace != [] {
      PlacedStep(g, s, trace[0]);
      DutifulStep(g, s, trace[0]);
      DutifulRun(g, After(g, s, trace[0]), trace[1..]);
    }
  }

  /** Every state of every run, at every grain. */
  lemma Reached(g: Grain, trace: seq<Step>)
    requires IsRun(g, Init(), trace)
    ensures var s := End(g, Init(), trace); Placed(s) && Dutiful(s)
  {
    WokenInit();
    DutifulRun(g, Init(), trace);
  }

  /** And no wake is lost there, if no latch is stored inside settle's window. */
  lemma ReachedWoken(g: Grain, trace: seq<Step>)
    requires IsRun(g, Init(), trace)
    requires g.Split? ==> AvoidsWindow(g, Init(), trace)
    ensures Woken(End(g, Init(), trace))
  {
    WokenInit();
    if !g.Split? {
      WholeGrainAvoidsWindow(g, Init(), trace);
    }
    WokenRun(g, Init(), trace);
  }

  // ---- what it means -----------------------------------------------------------

  /** f has finished, or is parked with no finished child to collect. */
  predicate Stopped(s: State, f: Fid)
    requires f in s.fibers
  {
    var b := s.fibers[f];
    b.state.Done?
    || (b.state.Parked?
        && (b.waiting.Some? && b.waiting.value in s.fibers ==> !s.fibers[b.waiting.value].state.Done?))
  }

  /** f has stopped, and if it is parked no wake or cancellation is owed to it. */
  predicate AtRest(s: State, f: Fid)
    requires f in s.fibers
  {
    var b := s.fibers[f];
    Stopped(s, f) && (b.state.Parked? ==> !b.pending && !(b.cancel && !b.masked))
  }

  /** The worker thread has gone to sleep and nothing on the way will wake it. */
  predicate SoundAsleep(s: State) {
    (s.pc.Blocked? && !s.kick) || (s.pc.CondWait? && !s.signalled)
  }

  /** With no resume under way and no fiber on the CPU or in a list, everyone has stopped. */
  lemma QuietMeansStopped(s: State, f: Fid)
    requires Placed(s) && Dutiful(s) && f in s.fibers
    requires s.calls == map[] && s.ready == [] && s.inbox == [] && s.batch == []
    requires s.pc.Blocked? || s.pc.CondWait? || s.pc.Report?
    ensures Stopped(s, f)
  {
    assert BusyAt(s, f) && LinkOk(s, f);
    if s.fibers[f].waiting.Some? {
      assert NotStranded(s, f, s.fibers[f].waiting.value);
    }
  }

  lemma QuietMeansRest(s: State, f: Fid)
    requires Placed(s) && Woken(s) && Dutiful(s) && f in s.fibers
    requires s.calls == map[] && s.ready == [] && s.inbox == [] && s.batch == []
    requires s.pc.Blocked? || s.pc.CondWait? || s.pc.Report?
    ensures AtRest(s, f)
  {
    QuietMeansStopped(s, f);
    assert BusyAt(s, f) && LinkOk(s, f);
    assert WakeShape(s, f, SomeLatched(s, f));
    assert CancelShape(s, f, SomeComing(s, f), SomeOnTarget(s, f));
  }

  /** The worker never sleeps while a list holds someone or a joiner can be served:
      this holds of every run. */
  lemma SleepsOnlyWhenAllStopped(g: Grain, trace: seq<Step>)
    requires IsRun(g, Init(), trace)
    requires SoundAsleep(End(g, Init(), trace)) && End(g, Init(), trace).calls == map[]
    ensures
      var s := End(g, Init(), trace);
      && s.ready == [] && s.inbox == [] && s.batch == []
      && forall f <- s.fibers :: Stopped(s, f)
  {
    Reached(g, trace);
    var s := End(g, Init(), trace);
    forall f <- s.fibers ensures Stopped(s, f) { QuietMeansStopped(s, f); }
  }

  /** And where no wake is lost, nothing else is owed to a fiber while it sleeps: no
      wake, no cancellation. */
  lemma SleepsOnlyWhenAllAtRest(g: Grain, trace: seq<Step>)
    requires IsRun(g, Init(), trace)
    requires g.Split? ==> AvoidsWindow(g, Init(), trace)
    requires SoundAsleep(End(g, Init(), trace)) && End(g, Init(), trace).calls == map[]
    ensures forall f <- End(g, Init(), trace).fibers :: AtRest(End(g, Init(), trace), f)
  {
    Reached(g, trace);
    ReachedWoken(g, trace);
    var s := End(g, Init(), trace);
    forall f <- s.fibers ensures AtRest(s, f) { QuietMeansRest(s, f); }
  }

  /** A post never strands: while the worker is blocked in its poller with a
      nonempty inbox, a kick is pending or some poster has still to look at the
      in-poll flag or to kick. */
  lemma NoPostIsStranded(g: Grain, trace: seq<Step>)
    requires IsRun(g, Init(), trace)
    requires End(g, Init(), trace).pc.Blocked? && End(g, Init(), trace).inbox != []
    ensures End(g, Init(), trace).kick || SomeKnocking(End(g, Init(), trace))
  {
    Reached(g, trace);
  }

  /** The deadlock report is reached only when no timer is armed, no descriptor is
      waited for, no thread is resuming anyone, no list holds anyone, and every fiber
      is done or parked: in every run. */
  lemma DeadlockReportIsTrue(g: Grain, trace: seq<Step>)
    requires IsRun(g, Init(), trace)
    requires End(g, Init(), trace).pc.Report?
    ensures
      var s := End(g, Init(), trace);
      && s.timers == multiset{} && s.armed == {} && s.calls == map[]
      && s.ready == [] && s.inbox == [] && s.batch == []
      && forall f <- s.fibers :: Stopped(s, f)
  {
    Reached(g, trace);
    var s := End(g, Init(), trace);
    forall f <- s.fibers ensures Stopped(s, f) { QuietMeansStopped(s, f); }
  }

  /** Where no wake is lost, no parked fiber of a deadlock report has one pending. */
  lemma DeadlockHasNoPendingWake(g: Grain, trace: seq<Step>)
    requires IsRun(g, Init(), trace)
    requires g.Split? ==> AvoidsWindow(g, Init(), trace)
    requires End(g, Init(), trace).pc.Report?
    ensures forall f <- End(g, Init(), trace).fibers :: AtRest(End(g, Init(), trace), f)
  {
    Reached(g, trace);
    ReachedWoken(g, trace);
    var s := End(g, Init(), trace);
    forall f <- s.fibers ensures AtRest(s, f) { QuietMeansRest(s, f); }
  }

  /** The loop is left only when every fiber ever spawned is done, its done hook has
      run, and no list holds anyone; the count of live fibers is exact at all times. */
  lemma LeavesWhenAllDone(g: Grain, trace: seq<Step>)
    requires IsRun(g, Init(), trace)
    ensures
      var s := End(g, Init(), trace);
      && s.live == |set f <- s.fibers | !s.fibers[f].state.Done?|
      && (s.pc.Exited? ==>
            && s.ready == [] && s.inbox == [] && s.batch == []
            && (forall t <- s.calls :: !s.calls[t].Post?)
            && forall f <- s.fibers :: s.fibers[f].state.Done? && s.fibers[f].hooked)
  {
    Reached(g, trace);
    var s := End(g, Init(), trace);
    forall f ensures f in s.all <==> f in s.fibers && !s.fibers[f].state.Done? { assert History(s, f); }
    assert s.all == set f <- s.fibers | !s.fibers[f].state.Done?;
    if s.pc.Exited? {
      assert s.all == {};
      forall f <- s.fibers ensures s.fibers[f].state.Done? && s.fibers[f].hooked { assert History(s, f); }
      AllDoneAllEmpty(s);
    }
  }

  lemma HeadIn(q: seq<Fid>)
    requires q != []
    ensures exists f :: f in q
  {
    assert q[0] in q;
  }

  lemma NobodyListed(q: seq<Fid>)
    requires forall f :: f !in q
    ensures q == []
  {
    if q != [] {
      HeadIn(q);
    }
  }

  lemma AllDoneAllEmpty(s: State)
    requires Placed(s) && forall f <- s.fibers :: s.fibers[f].state.Done?
    ensures s.ready == [] && s.inbox == [] && s.batch == [] && forall t <- s.calls :: !s.calls[t].Post?
  {
    forall f ensures f !in s.ready && f !in s.batch + s.inbox { assert LinkOk(s, f); }
    NobodyListed(s.ready);
    NobodyListed(s.batch + s.inbox);
    forall t <- s.calls ensures !s.calls[t].Post? {
      assert HandOk(s, t) && CallNamed(s, t);
      assert s.calls[t].Post? ==> LinkOk(s, s.calls[t].f);
    }
  }

  /** A join hands out exactly the status its child finished with, and only after
      the child is done and its done hook has run. */
  lemma JoinDeliversTheOutcome(g: Grain, trace: seq<Step>, child: Fid)
    requires IsRun(g, Init(), trace)
    requires child in End(g, Init(), trace).delivered
    ensures
      var s := End(g, Init(), trace);
      && child in s.ended && s.delivered[child] == s.ended[child]
      && child in s.fibers && s.fibers[child].state.Done? && s.fibers[child].hooked && s.fibers[child].joined
  {
    Reached(g, trace);
    assert History(End(g, Init(), trace), child);
  }
}

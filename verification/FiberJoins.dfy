/**
  When park, yield and join return.  park and yield turn back exactly for a fiber that
  is cancelled and has not masked it; a join ends exactly when its child is done or its
  fiber is cancelled while it waits, and a wake for no reason makes it wait again.
*/
module FiberJoins {
  import opened Options
  import opened FiberWorker
  import opened FiberPlaces
  import opened FiberDuties

  // ---- park and yield ----------------------------------------------------------------

  /** The fiber on the CPU is cancelled and does not mask it. */
  predicate Cancelled(s: State, f: Fid) {
    f in s.fibers && s.fibers[f].cancel && !s.fibers[f].masked
  }

  /** park goes on to switch away exactly when no cancel is to be noticed and no wake is
      latched; a latched wake is used up. */
  lemma ParkSwitchesIff(g: Grain, s: State, f: Fid)
    requires Enabled(s, Park(ParkCheck)) && s.pc.f == f
    ensures var s1 := After(g, s, Park(ParkCheck));
      && (s1.pc == ParkChecked(f) <==> !(s.fibers[f].cancel && !s.fibers[f].masked))
      && (s1.pc != ParkChecked(f) ==> s1.pc == if s.fibers[f].waiting.Some? then JoinBack(f, false) else Run(f))
      && s1.fibers == s.fibers
      && (s1.pc == ParkChecked(f) ==>
            && Enabled(s1, Park(ParkExchange))
            && var s2 := After(g, s1, Park(ParkExchange));
               && (s2.pc == ParkStore(f) <==> !s.fibers[f].pending) && !s2.fibers[f].pending
               && (s2.pc != ParkStore(f) ==> s2.pc == if s.fibers[f].waiting.Some? then JoinBack(f, true) else Run(f)))
  {
  }

  /** yield, the same; it leaves the latch alone. */
  lemma YieldSwitchesIff(g: Grain, s: State, f: Fid)
    requires Enabled(s, Exit(YieldCheck)) && s.pc == Run(f)
    ensures var s1 := After(g, s, Exit(YieldCheck));
      && s1.fibers == s.fibers
      && s1.pc == if s.fibers[f].cancel && !s.fibers[f].masked then Run(f) else YieldStore(f)
  {
  }

  predicate SameFlags(b: Fiber, b': Fiber) {
    b'.cancel == b.cancel && b'.masked == b.masked && b'.forgotten == b.forgotten
  }

  /** A step neither starts nor ends a wait for a child, nor takes park back into join, nor
      cancels, masks, forgets or finishes a fiber. */
  predicate Apart(s: State, s': State) {
    && (forall f :: f in s.fibers ==> f in s'.fibers && Same(s.fibers[f], s'.fibers[f]))
    && (s'.pc.JoinBack? ==> s'.pc == s.pc)
    && s'.ended == s.ended
  }

  predicate Same(b: Fiber, b': Fiber) {
    b'.waiting == b.waiting && SameFlags(b, b')
  }

  lemma ApartCall(s: State, t: Tid)
    requires t in s.calls && CallTarget(s, s.calls[t])
    ensures Apart(s, AfterCall(s, t))
  {
  }

  lemma ApartLoop(s: State, l: LoopStep)
    requires LoopEnabled(s, l)
    ensures Apart(s, AfterLoop(s, l).(pc := if l.StartFiber? then s.pc else AfterLoop(s, l).pc))
    ensures l.StartFiber? ==> AfterLoop(s, l).pc == if s.fibers[s.pc.f].waiting.Some? then JoinBack(s.pc.f, false) else Run(s.pc.f)
  {
    hide AfterFire;
    match l
    case FireDone => FireGoesOn(s);
    case PopReady =>
    case DrainPush =>
    case StartFiber =>
    case _ =>
  }

  lemma FireGoesOn(s: State)
    requires Firing(s.pc)
    ensures !AfterFire(s).JoinBack?
  {
  }

  lemma ApartWait(s: State, w: WaitStep)
    requires WaitEnabled(s, w)
    ensures Apart(s, AfterWait(s, w))
  {
  }

  lemma ApartCode(s: State, c: CodeStep)
    requires CodeEnabled(s, c) && !c.Mask? && !c.Forget?
    ensures Apart(s, AfterCode(s, c))
  {
  }

  lemma FlagsCode(s: State, c: CodeStep, f: Fid)
    requires CodeEnabled(s, c) && (c.Mask? || c.Forget?) && f in s.fibers
    ensures var s' := AfterCode(s, c);
      && f in s'.fibers && s'.fibers[f].cancel == s.fibers[f].cancel && s'.fibers[f].waiting == s.fibers[f].waiting
      && s'.fibers[f].masked == (if c.Mask? && s.pc == Run(f) then c.masked else s.fibers[f].masked)
      && s'.fibers[f].forgotten == (s.fibers[f].forgotten || c == Forget(f))
  {
  }

  lemma FlagsCodeOnly(s: State, c: CodeStep)
    requires CodeEnabled(s, c) && (c.Mask? || c.Forget?)
    ensures AfterCode(s, c).ended == s.ended && AfterCode(s, c).pc == s.pc
  {
  }

  lemma ApartPark(s: State, p: ParkStep)
    requires ParkEnabled(s, p)
    ensures Apart(s, AfterPark(s, p).(pc := s.pc))
    ensures AfterPark(s, p).pc.JoinBack? ==>
      var f := AfterPark(s, p).pc.f;
      && f == s.pc.f
      && if AfterPark(s, p).pc.woken then p.ParkExchange? && s.fibers[f].pending && !AfterPark(s, p).fibers[f].pending
         else p.ParkCheck? && Cancelled(s, f)
  {
    match p
    case ParkCheck =>
    case ParkExchange =>
    case ParkCommit =>
  }

  lemma ApartExit(s: State, e: ExitStep)
    requires ExitEnabled(s, e)
    ensures Apart(s, AfterExit(s, e).(ended := s.ended))
    ensures AfterExit(s, e).ended == if e.FinishWith? then s.ended[s.pc.f := e.status] else s.ended
  {
  }

  lemma ApartArm(g: Grain, s: State, r: ArmStep)
    requires ArmEnabled(s, r)
    ensures Apart(s, AfterArm(g, s, r))
  {
  }

  lemma ApartSettle(s: State, x: SettleStep)
    requires SettleEnabled(s, x)
    ensures Apart(s, AfterSettle(s, x))
  {
  }

  lemma ApartCallers(g: Grain, s: State, t: Tid, f: Fid)
    requires Enabled(s, CallResume(t, f))
    ensures Apart(s, After(g, s, CallResume(t, f)))
  {
  }

  lemma FlagsCancel(g: Grain, s: State, t: Tid, target: Fid, f: Fid)
    requires Enabled(s, CallCancel(t, target)) && f in s.fibers
    ensures var s' := After(g, s, CallCancel(t, target));
      && f in s'.fibers && s'.fibers[f].cancel == (s.fibers[f].cancel || f == target)
      && s'.fibers[f].masked == s.fibers[f].masked && s'.fibers[f].forgotten == s.fibers[f].forgotten
      && s'.fibers[f].waiting == s.fibers[f].waiting && s'.ended == s.ended && s'.pc == s.pc
      && t in s'.calls && s'.calls[t] == Load(target, None)
  {
  }

  lemma FlagsMeet(s: State, j: JoinStep, f: Fid)
    requires JoinEnabled(s, j)
    ensures f in s.fibers ==> f in AfterMeet(s, j).fibers && SameFlags(s.fibers[f], AfterMeet(s, j).fibers[f])
    ensures AfterMeet(s, j).ended == s.ended
  {
  }

  /** The steps that cancel, mask, forget and finish fibers, join, or take park back. */
  predicate Ordinary(a: Step) {
    && !a.Meet? && !a.Park? && a != Loop(StartFiber) && !a.CallCancel?
    && (a.Code? ==> !a.c.Mask? && !a.c.Forget?) && (a.Exit? ==> !a.e.FinishWith?)
  }

  lemma ApartStep(g: Grain, s: State, a: Step)
    requires Enabled(s, a) && Ordinary(a)
    ensures Apart(s, After(g, s, a))
  {
    hide Apart;
    match a
    case CallResume(t, f) => ApartCallers(g, s, t, f);
    case Proceed(t) => ApartCall(s, t);
    case Loop(l) => ApartLoop(s, l);
    case Wait(w) => ApartWait(s, w);
    case Code(c) => ApartCode(s, c);
    case Exit(e) => ApartExit(s, e); assert AfterExit(s, e).(ended := s.ended) == AfterExit(s, e);
    case Arm(r) => ApartArm(g, s, r);
    case Settling(x) => ApartSettle(s, x);
  }

  /** What is left of a fiber's wait and of the flags another step leaves alone. */
  lemma OrdinaryOrNot(g: Grain, s: State, a: Step, f: Fid)
    requires Enabled(s, a) && f in s.fibers && !a.Meet?
    ensures f in After(g, s, a).fibers && After(g, s, a).fibers[f].waiting == s.fibers[f].waiting
    ensures Ordinary(a) || a.Park? || a == Loop(StartFiber) || a.Exit? ==> SameFlags(s.fibers[f], After(g, s, a).fibers[f])
    ensures After(g, s, a).pc.JoinBack? && After(g, s, a).pc != s.pc ==> a.Park? || a == Loop(StartFiber)
  {
    hide AfterCall, AfterLoop, AfterWait, AfterCode, AfterPark, AfterExit, AfterMeet, AfterArm, AfterSettle;
    if a.Park? {
      ApartPark(s, a.p);
    } else if a == Loop(StartFiber) {
      ApartLoop(s, StartFiber);
    } else if a.Code? && !Ordinary(a) {
      FlagsCode(s, a.c, f);
      FlagsCodeOnly(s, a.c);
    } else if a.Exit? {
      ApartExit(s, a.e);
    } else if a.CallCancel? {
      FlagsCancel(g, s, a.t, a.f, f);
    } else {
      ApartStep(g, s, a);
    }
  }

  /** A fiber is cancelled from the first cancel of it on, masks its cancel as it said last,
      and is forgotten from the first forget on, whatever anyone else does. */
  lemma FlagsFollow(g: Grain, s: State, a: Step, f: Fid)
    requires Enabled(s, a) && f in s.fibers
    ensures f in After(g, s, a).fibers
    ensures
      var b, b' := s.fibers[f], After(g, s, a).fibers[f];
      && (b'.cancel <==> b.cancel || (a.CallCancel? && a.f == f))
      && (b'.masked <==> if a.Code? && a.c.Mask? && s.pc == Run(f) then a.c.masked else b.masked)
      && (b'.forgotten <==> b.forgotten || a == Code(Forget(f)))
  {
    if a.CallCancel? {
      FlagsCancel(g, s, a.t, a.f, f);
    } else if a.Code? && (a.c.Mask? || a.c.Forget?) {
      FlagsCode(s, a.c, f);
    } else if a.Meet? {
      FlagsMeet(s, a.j, f);
    } else {
      OrdinaryOrNot(g, s, a, f);
    }
  }

  /** park answers that it was woken, without a look at the cancel flag, exactly when it
      used up the latch; otherwise it comes back cancelled or from the scheduler. */
  lemma HowParkReturns(g: Grain, s: State, a: Step, f: Fid, woken: bool)
    requires Enabled(s, a) && s.pc != JoinBack(f, woken) && After(g, s, a).pc == JoinBack(f, woken)
    ensures f in s.fibers
    ensures woken ==> a == Park(ParkExchange) && s.fibers[f].pending && !After(g, s, a).fibers[f].pending
    ensures !woken ==> a == Loop(StartFiber) || (a == Park(ParkCheck) && Cancelled(s, f))
  {
    if a.Park? {
      ApartPark(s, a.p);
    } else if a == Loop(StartFiber) {
      ApartLoop(s, StartFiber);
    } else if a.Meet? {
      MeetGoesOn(s, a.j);
    } else {
      OthersGoOn(g, s, a);
    }
  }

  lemma OthersGoOn(g: Grain, s: State, a: Step)
    requires Enabled(s, a) && !a.Meet? && !a.Park? && a != Loop(StartFiber)
    ensures After(g, s, a).pc.JoinBack? ==> After(g, s, a).pc == s.pc
  {
    hide AfterCall, AfterLoop, AfterWait, AfterCode, AfterExit, AfterArm, AfterSettle;
    if a.Code? && !Ordinary(a) {
      FlagsCodeOnly(s, a.c);
    } else if a.Exit? {
      ApartExit(s, a.e);
    } else if a.CallCancel? {
      FlagsCancel(g, s, a.t, a.f, a.f);
    } else {
      ApartStep(g, s, a);
    }
  }

  lemma MeetGoesOn(s: State, j: JoinStep)
    requires JoinEnabled(s, j)
    ensures !AfterMeet(s, j).pc.JoinBack?
  {
  }

  // ---- join -----------------------------------------------------------------------------

  /** The outcome of c is handed out: it is the status c finished with. */
  predicate HandedOut(s: State, c: Fid) {
    && c in s.fibers && s.fibers[c].state.Done? && s.fibers[c].hooked && s.fibers[c].joined
    && c in s.delivered && c in s.ended && s.delivered[c] == s.fibers[c].status == s.ended[c]
  }

  /** f waits for c. */
  predicate Awaits(s: State, f: Fid, c: Fid) {
    && f in s.fibers && s.fibers[f].waiting == Some(c)
    && c in s.fibers && s.fibers[c].joiner == Some(f) && !s.fibers[c].joined && c !in s.delivered
  }

  /** What a join does when park has returned inside it. */
  lemma JoinReturnIff(g: Grain, s: State, f: Fid)
    requires Placed(s) && Dutiful(s) && s.pc.JoinBack? && s.pc.f == f && OWNER !in s.calls
    ensures f in s.fibers && s.fibers[f].waiting.Some?
    ensures Enabled(s, Meet(JoinReturn)) && Awaits(s, f, s.fibers[f].waiting.value)
    ensures
      var c := s.fibers[f].waiting.value;
      var s' := After(g, s, Meet(JoinReturn));
      var cancelled := !s.pc.woken && s.fibers[f].cancel && !s.fibers[f].masked;
      && (s'.pc == Run(f) <==> s.fibers[c].state.Done? || cancelled)
      && (s.fibers[c].state.Done? ==> HandedOut(s', c))
      && (s'.pc == Run(f) ==> s'.fibers[f].waiting.None? && s'.fibers[c].joiner.None?)
      && (!s.fibers[c].state.Done? ==> s'.delivered == s.delivered && !s'.fibers[c].joined)
      && (s'.pc != Run(f) ==> s'.pc == Joining(f) && Awaits(s', f, c))
  {
    assert Paired(s, f);
    var c := s.fibers[f].waiting.value;
    assert Paired(s, c) && History(s, c);
  }

  /** The first test of join. */
  lemma JoinIff(g: Grain, s: State, f: Fid, c: Fid)
    requires Placed(s) && Dutiful(s) && s.pc == Run(f) && Enabled(s, Meet(Join(c)))
    ensures
      var s' := After(g, s, Meet(Join(c)));
      && (s'.pc == Run(f) <==> s.fibers[c].state.Done?)
      && (s.fibers[c].state.Done? ==> HandedOut(s', c) && s'.fibers[f].waiting.None?)
      && (!s.fibers[c].state.Done? ==> s'.pc == Joining(f) && Awaits(s', f, c))
  {
    assert Paired(s, f) && Paired(s, c) && History(s, c);
  }

  /** The only step that ends a wait for a child. */
  lemma WaitEndsInReturn(g: Grain, s: State, a: Step, f: Fid, c: Fid)
    requires Placed(s) && Enabled(s, a) && f in s.fibers && s.fibers[f].waiting == Some(c)
    requires f in After(g, s, a).fibers && After(g, s, a).fibers[f].waiting != Some(c)
    ensures a == Meet(JoinReturn) && s.pc.JoinBack? && s.pc.f == f && OWNER !in s.calls
  {
    if a.Meet? {
      assert Paired(s, f);
      if s.pc.f != f {
        OthersMeeting(s, a.j, f);
      }
    } else {
      OrdinaryOrNot(g, s, a, f);
    }
  }

  lemma OthersMeeting(s: State, j: JoinStep, f: Fid)
    requires JoinEnabled(s, j) && f in s.fibers && s.pc.f != f
    ensures f in AfterMeet(s, j).fibers && AfterMeet(s, j).fibers[f].waiting == s.fibers[f].waiting
  {
  }

  /** In every run, at every grain: the wait for a child ends only with the child done
      and its own outcome handed out, or with the fiber cancelled, its cancel not masked,
      and the latch not used up.  Any other return of park leads back to waiting. */
  lemma JoinEndsOnlyIf(g: Grain, trace: seq<Step>, a: Step, f: Fid, c: Fid)
    requires IsRun(g, Init(), trace) && Enabled(End(g, Init(), trace), a)
    ensures
      var s := End(g, Init(), trace);
      var s' := After(g, s, a);
      f in s.fibers && s.fibers[f].waiting == Some(c) && f in s'.fibers ==>
        if s'.fibers[f].waiting == Some(c) then s'.pc != Run(f) && Awaits(s', f, c)
        else
          && s'.pc == Run(f)
          && (HandedOut(s', c)
              || (s.pc == JoinBack(f, false) && s.fibers[f].cancel && !s.fibers[f].masked && s'.delivered == s.delivered))
  {
    Reached(g, trace);
    var s := End(g, Init(), trace);
    if f in s.fibers && s.fibers[f].waiting == Some(c) && f in After(g, s, a).fibers {
      if After(g, s, a).fibers[f].waiting == Some(c) {
        StillAwaits(g, s, a, f, c);
      } else {
        WaitEndsInReturn(g, s, a, f, c);
        JoinReturnIff(g, s, f);
      }
    }
  }

  lemma StillAwaits(g: Grain, s: State, a: Step, f: Fid, c: Fid)
    requires Placed(s) && Dutiful(s) && Enabled(s, a)
    requires f in After(g, s, a).fibers && After(g, s, a).fibers[f].waiting == Some(c)
    ensures After(g, s, a).pc != Run(f) && Awaits(After(g, s, a), f, c)
  {
    hide After;
    PlacedStep(g, s, a);
    DutifulStep(g, s, a);
    var s' := After(g, s, a);
    assert Paired(s', f) && Paired(s', c) && History(s', c);
  }

  /** A join of a child that is done ends at once, one of a living child waits. */
  lemma JoinWaitsIff(g: Grain, trace: seq<Step>, c: Fid)
    requires IsRun(g, Init(), trace) && Enabled(End(g, Init(), trace), Meet(Join(c)))
    ensures
      var s := End(g, Init(), trace);
      var s' := After(g, s, Meet(Join(c)));
      if s.fibers[c].state.Done? then s'.pc == s.pc && HandedOut(s', c) else s'.pc == Joining(s.pc.f) && Awaits(s', s.pc.f, c)
  {
    Reached(g, trace);
    JoinIff(g, End(g, Init(), trace), End(g, Init(), trace).pc.f, c);
  }

  // ---- statuses ----------------------------------------------------------------------------

  /** c has finished with this status in the course of the run. */
  ghost predicate FinishedIn(g: Grain, s: State, trace: seq<Step>, c: Fid, status: int)
    requires IsRun(g, s, trace)
    decreases |trace|
  {
    trace != [] &&
    ((trace[0] == Exit(FinishWith(status)) && s.pc == Run(c))
     || FinishedIn(g, After(g, s, trace[0]), trace[1..], c, status))
  }

  lemma EndedStep(g: Grain, s: State, a: Step)
    requires Enabled(s, a)
    ensures After(g, s, a).ended ==
      if a.Exit? && a.e.FinishWith? then s.ended[s.pc.f := a.e.status] else s.ended
    ensures a.Exit? && a.e.FinishWith? ==> s.pc == Run(s.pc.f)
  {
    hide AfterCall, AfterLoop, AfterWait, AfterCode, AfterPark, AfterExit, AfterMeet, AfterArm, AfterSettle;
    match a
    case CallCancel(t, f) => FlagsCancel(g, s, t, f, f);
    case Park(p) => ApartPark(s, p);
    case Meet(j) => FlagsMeet(s, j, s.pc.f);
    case Exit(e) => ApartExit(s, e);
    case Loop(l) => ApartLoop(s, l);
    case Code(c) =>
      if Ordinary(a) {
        ApartCode(s, c);
      } else {
        FlagsCodeOnly(s, c);
      }
    case _ => ApartStep(g, s, a);
  }

  lemma {:induction false} EndedInRun(g: Grain, s: State, trace: seq<Step>, c: Fid)
    requires IsRun(g, s, trace) && c in End(g, s, trace).ended
    ensures
      var status := End(g, s, trace).ended[c];
      (c in s.ended && s.ended[c] == status) || FinishedIn(g, s, trace, c, status)
    decreases |trace|
  {
    hide After;
    if trace != [] {
      EndedStep(g, s, trace[0]);
      EndedInRun(g, After(g, s, trace[0]), trace[1..], c);
    }
  }

  /** What a join hands out is a status its own child gave to finish, in every run. */
  lemma JoinGivesWhatWasFinished(g: Grain, trace: seq<Step>, c: Fid)
    requires IsRun(g, Init(), trace) && c in End(g, Init(), trace).delivered
    ensures FinishedIn(g, Init(), trace, c, End(g, Init(), trace).delivered[c])
  {
    JoinDeliversTheOutcome(g, trace, c);
    EndedInRun(g, Init(), trace, c);
  }

  // ---- records ----------------------------------------------------------------------------

  /** The record of a finished fiber goes to the front of the pool exactly when its
      outcome is collected, or when nobody wants it, and the pool has fewer than 64. */
  lemma HookRetiresIff(g: Grain, s: State, f: Fid)
    requires Placed(s) && s.pc == Hook(f) && Enabled(s, Settling(HookDone))
    ensures
      var s' := After(g, s, Settling(HookDone));
      s'.pool == if s.fibers[f].joiner.None? && s.fibers[f].forgotten && |s.pool| < 64 then [f] + s.pool else s.pool
  {
  }

  lemma JoinRetiresIff(g: Grain, s: State, j: JoinStep, c: Fid)
    requires Placed(s) && Enabled(s, Meet(j))
    requires c == if j.Join? then j.c else s.fibers[s.pc.f].waiting.value
    ensures
      var s' := After(g, s, Meet(j));
      s'.pool == if s.fibers[c].state.Done? && |s.pool| < 64 then [c] + s.pool else s.pool
  {
  }
}

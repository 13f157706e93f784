/**
  Which wait an idle worker chooses: the poller only while a descriptor is armed, a
  timed wait exactly while a sleeper is left, and a wait without a deadline only when
  there is neither.  So a worker that waits beside a sleeper can go on by itself.
*/
module FiberWaits {
  import opened Options
  import opened FiberWorker
  import opened FiberPlaces
  import opened FiberDuties

  /** Program points of the wait in the kernel poller, up to its return. */
  predicate Polling(pc: Pc) {
    pc.IoFire? || pc.IoRaise? || pc.IoCheck? || pc.IoLower? || pc.Blocked?
  }

  predicate OnCondition(pc: Pc) {
    pc.CondEnter? || pc.CondWait?
  }

  predicate WaitFits(s: State) {
    && (Polling(s.pc) ==> s.armed != {})
    && (OnCondition(s.pc) || s.pc.TimedFire? ==> s.armed == {})
    && (OnCondition(s.pc) ==> (s.pc.timed <==> s.timers != multiset{}))
  }

  /** Nobody starts or stops to wait for a descriptor or a deadline. */
  predicate SameSources(s: State, s': State) {
    s'.armed == s.armed && s'.timers == s.timers
  }

  lemma WaitFitsCall(s: State, t: Tid)
    requires WaitFits(s) && t in s.calls && CallTarget(s, s.calls[t])
    ensures WaitFits(AfterCall(s, t)) && SameSources(s, AfterCall(s, t))
  {
  }

  /** Points outside the waits. */
  predicate Awake(pc: Pc) {
    !Polling(pc) && !OnCondition(pc) && !pc.TimedFire?
  }

  lemma AwakeFits(s: State)
    requires Awake(s.pc)
    ensures WaitFits(s)
  {
  }

  lemma FireFits(s: State, f: Fid)
    requires WaitFits(s) && LoopEnabled(s, FireTimer(f))
    ensures WaitFits(AfterLoop(s, FireTimer(f)))
  {
  }

  lemma FireEndFits(s: State)
    requires WaitFits(s) && LoopEnabled(s, FireDone)
    ensures WaitFits(AfterLoop(s, FireDone))
  {
  }

  lemma LoopAwake(s: State, l: LoopStep)
    requires LoopEnabled(s, l) && !l.FireTimer? && !l.FireDone?
    ensures Awake(AfterLoop(s, l).pc)
  {
    hide AfterFire;
    match l
    case PopReady =>
    case StartFiber =>
    case TakeInbox =>
    case Drained =>
    case _ =>
  }

  lemma WaitFitsLoop(s: State, l: LoopStep)
    requires WaitFits(s) && LoopEnabled(s, l)
    ensures WaitFits(AfterLoop(s, l))
  {
    hide WaitFits, AfterLoop;
    match l
    case FireTimer(f) => FireFits(s, f);
    case FireDone => FireEndFits(s);
    case _ =>
      LoopAwake(s, l);
      AwakeFits(AfterLoop(s, l));
  }

  lemma WaitFitsWait(s: State, w: WaitStep)
    requires WaitFits(s) && WaitEnabled(s, w)
    ensures WaitFits(AfterWait(s, w))
  {
  }

  lemma WaitFitsSettle(s: State, x: SettleStep)
    requires SettleEnabled(s, x)
    ensures WaitFits(AfterSettle(s, x)) && SameSources(s, AfterSettle(s, x))
  {
  }

  lemma WaitFitsCode(s: State, c: CodeStep)
    requires CodeEnabled(s, c)
    ensures WaitFits(AfterCode(s, c))
  {
  }

  lemma WaitFitsPark(s: State, p: ParkStep)
    requires ParkEnabled(s, p)
    ensures WaitFits(AfterPark(s, p)) && SameSources(s, AfterPark(s, p))
  {
  }

  lemma WaitFitsExit(s: State, e: ExitStep)
    requires ExitEnabled(s, e)
    ensures WaitFits(AfterExit(s, e)) && SameSources(s, AfterExit(s, e))
  {
  }

  lemma WaitFitsMeet(s: State, j: JoinStep)
    requires JoinEnabled(s, j)
    ensures WaitFits(AfterMeet(s, j)) && SameSources(s, AfterMeet(s, j))
  {
  }

  lemma WaitFitsArm(g: Grain, s: State, r: ArmStep)
    requires ArmEnabled(s, r)
    ensures WaitFits(AfterArm(g, s, r)) && SameSources(s, AfterArm(g, s, r))
  {
  }

  lemma WaitFitsStep(g: Grain, s: State, a: Step)
    requires WaitFits(s) && Enabled(s, a)
    ensures WaitFits(After(g, s, a))
  {
    match a
    case CallResume(_, _) =>
    case CallCancel(_, _) =>
    case Proceed(t) => WaitFitsCall(s, t);
    case Loop(l) => WaitFitsLoop(s, l);
    case Wait(w) => WaitFitsWait(s, w);
    case Code(c) => WaitFitsCode(s, c);
    case Park(p) => WaitFitsPark(s, p);
    case Exit(e) => WaitFitsExit(s, e);
    case Meet(j) => WaitFitsMeet(s, j);
    case Arm(r) => WaitFitsArm(g, s, r);
    case Settling(x) => WaitFitsSettle(s, x);
  }

  lemma {:induction false} WaitFitsRun(g: Grain, s: State, trace: seq<Step>)
    requires WaitFits(s) && IsRun(g, s, trace)
    ensures WaitFits(End(g, s, trace))
    decreases |trace|
  {
    if trace != [] {
      WaitFitsStep(g, s, trace[0]);
      WaitFitsRun(g, After(g, s, trace[0]), trace[1..]);
    }
  }

  /** In every run, at every grain: the worker is in its poller only while a descriptor
      is armed; on its condition variable no descriptor is, and the wait has a deadline
      exactly while a sleeper is left. */
  lemma IdleWaitFits(g: Grain, trace: seq<Step>)
    requires IsRun(g, Init(), trace)
    ensures
      var s := End(g, Init(), trace);
      && (s.pc.IoFire? || s.pc.IoRaise? || s.pc.IoCheck? || s.pc.IoLower? || s.pc.Blocked? ==> s.armed != {})
      && (s.pc.TimedFire? ==> s.armed == {})
      && (s.pc.CondEnter? || s.pc.CondWait? ==> s.armed == {} && (s.pc.timed <==> s.timers != multiset{}))
  {
    WaitFitsRun(g, Init(), trace);
  }

  /** Who has a descriptor armed after a step. */
  function ArmedAfter(s: State, a: Step): set<Fid>
    requires Enabled(s, a)
  {
    if a == Code(ArmIo) then s.armed + {s.pc.f}
    else if a == Code(DisarmIo) then s.armed - {s.pc.f}
    else if a.Wait? && a.w.PollEvent? then s.armed - {a.w.f}
    else s.armed
  }

  function TimersAfter(s: State, a: Step): multiset<Fid>
    requires Enabled(s, a)
  {
    if a == Code(AddTimer) then s.timers + multiset{s.pc.f}
    else if a == Code(DropTimer) then s.timers - multiset{s.pc.f}
    else if a.Loop? && a.l.FireTimer? then s.timers - multiset{a.l.f}
    else s.timers
  }

  lemma SourcesLoop(s: State, l: LoopStep)
    requires OWNER !in s.calls && LoopEnabled(s, l)
    ensures AfterLoop(s, l).armed == s.armed && AfterLoop(s, l).timers == TimersAfter(s, Loop(l))
  {
    hide AfterFire, Back, LoopEnabled;
    match l
    case FireTimer(_) =>
    case PopReady => SourcesPop(s);
    case _ =>
  }

  lemma SourcesPop(s: State)
    requires LoopEnabled(s, PopReady)
    ensures AfterLoop(s, PopReady).armed == s.armed && AfterLoop(s, PopReady).timers == s.timers
  {
  }

  lemma SourcesWait(s: State, w: WaitStep)
    requires OWNER !in s.calls && WaitEnabled(s, w)
    ensures AfterWait(s, w).armed == ArmedAfter(s, Wait(w)) && AfterWait(s, w).timers == s.timers
  {
  }

  lemma SourcesCode(s: State, c: CodeStep)
    requires OWNER !in s.calls && CodeEnabled(s, c)
    ensures AfterCode(s, c).armed == ArmedAfter(s, Code(c)) && AfterCode(s, c).timers == TimersAfter(s, Code(c))
  {
    hide AfterSpawn;
    match c
    case Spawn(f, reuse) => SourcesSpawn(s, f, reuse);
    case _ =>
  }

  lemma SourcesSpawn(s: State, f: Fid, reuse: Option<nat>)
    requires reuse.Some? ==> reuse.value < |s.pool| && s.pool[reuse.value] in s.fibers
    ensures AfterSpawn(s, f, reuse).armed == s.armed && AfterSpawn(s, f, reuse).timers == s.timers
  {
  }

  /** A fiber waits for a descriptor or a deadline from when it arms one until it gives
      it up, or its event or deadline comes, whatever anyone else does. */
  lemma SourcesStep(g: Grain, s: State, a: Step)
    requires WaitFits(s) && Enabled(s, a)
    ensures After(g, s, a).armed == ArmedAfter(s, a) && After(g, s, a).timers == TimersAfter(s, a)
  {
    hide WaitFits, AfterCall, AfterLoop, AfterWait, AfterCode, AfterPark, AfterExit, AfterMeet, AfterArm, AfterSettle;
    match a
    case CallResume(_, _) =>
    case CallCancel(_, _) =>
    case Proceed(t) => WaitFitsCall(s, t);
    case Loop(l) => SourcesLoop(s, l);
    case Wait(w) => SourcesWait(s, w);
    case Code(c) => SourcesCode(s, c);
    case Park(p) => WaitFitsPark(s, p);
    case Exit(e) => WaitFitsExit(s, e);
    case Meet(j) => WaitFitsMeet(s, j);
    case Arm(r) => WaitFitsArm(g, s, r);
    case Settling(x) => WaitFitsSettle(s, x);
  }

  /** And then it is resumed. */
  lemma SourcesResume(g: Grain, s: State, a: Step)
    requires Enabled(s, a) && (a.Loop? || a.Wait?)
    requires (a.Loop? && a.l.FireTimer?) || (a.Wait? && a.w.PollEvent?)
    ensures After(g, s, a).calls == s.calls[OWNER := Load(if a.Wait? then a.w.f else a.l.f, None)]
  {
  }

  // ---- going on ------------------------------------------------------------------------

  /** From s the worker alone can get to the point behind its wait where timers fire. */
  ghost predicate CanFire(g: Grain, s: State) {
    exists trace :: IsRun(g, s, trace) && OfTheLoop(trace) && Firable(s, End(g, s, trace))
  }

  /** Steps of the worker's loop only: no fiber and no other thread moves. */
  predicate OfTheLoop(trace: seq<Step>) {
    forall i :: 0 <= i < |trace| ==> trace[i].Loop? || trace[i].Wait?
  }

  /** Every sleeper of s is still there and can be resumed. */
  predicate Firable(s: State, e: State) {
    e.timers == s.timers && forall f <- e.timers :: Enabled(e, Loop(FireTimer(f)))
  }

  lemma CanFireStep(g: Grain, s: State, a: Step)
    requires Enabled(s, a) && (a.Loop? || a.Wait?) && After(g, s, a).timers == s.timers && CanFire(g, After(g, s, a))
    ensures CanFire(g, s)
  {
    var s' := After(g, s, a);
    var trace :| IsRun(g, s', trace) && OfTheLoop(trace) && Firable(s', End(g, s', trace));
    assert ([a] + trace)[1..] == trace;
    assert OfTheLoop([a] + trace);
    assert IsRun(g, s, [a] + trace) && End(g, s, [a] + trace) == End(g, s', trace);
  }

  /** The batch taken from the inbox is pushed, whatever its length. */
  lemma {:induction false} DrainGoesOn(g: Grain, s: State)
    requires Placed(s) && OWNER !in s.calls && s.pc.Draining? && !s.pc.path.Alone?
    ensures CanFire(g, s)
    decreases |s.batch|
  {
    if s.batch == [] {
      var e := After(g, s, Loop(Drained));
      assert IsRun(g, e, []) && OfTheLoop([]) && Firable(e, End(g, e, []));
      CanFireStep(g, s, Loop(Drained));
    } else {
      assert s.batch[0] in s.fibers by {
        assert LinkOk(s, s.batch[0]) && s.batch[0] in s.batch + s.inbox;
      }
      PlacedStep(g, s, Loop(DrainPush));
      DrainGoesOn(g, After(g, s, Loop(DrainPush)));
      CanFireStep(g, s, Loop(DrainPush));
    }
  }

  lemma TakeGoesOn(g: Grain, s: State)
    requires Placed(s) && OWNER !in s.calls && s.pc.Take? && !s.pc.path.Alone?
    ensures CanFire(g, s)
  {
    PlacedStep(g, s, Loop(TakeInbox));
    DrainGoesOn(g, After(g, s, Loop(TakeInbox)));
    CanFireStep(g, s, Loop(TakeInbox));
  }

  lemma PollGoesOn(g: Grain, s: State)
    requires Placed(s) && OWNER !in s.calls && s.pc.Blocked?
    ensures CanFire(g, s)
  {
    var back, lower := Wait(PollReturn(false)), Wait(LowerPoll);
    var s1 := After(g, s, back);
    PlacedStep(g, s, back);
    PlacedStep(g, s1, lower);
    TakeGoesOn(g, After(g, s1, lower));
    CanFireStep(g, s1, lower);
    CanFireStep(g, s, back);
  }

  /** A sleeper is never slept through: wherever a run leaves the worker waiting while a
      sleeper is left, the wait can end by itself, and the worker then gets to fire it
      without a step of anybody else. */
  lemma SleepersCanFire(g: Grain, trace: seq<Step>)
    requires IsRun(g, Init(), trace)
    requires var s := End(g, Init(), trace);
      (s.pc.CondWait? || s.pc.Blocked?) && s.timers != multiset{}
    ensures CanFire(g, End(g, Init(), trace))
  {
    Reached(g, trace);
    IdleWaitFits(g, trace);
    var s := End(g, Init(), trace);
    if s.pc.Blocked? {
      PollGoesOn(g, s);
    } else {
      PlacedStep(g, s, Wait(WaitWake));
      DrainGoesOn(g, After(g, s, Wait(WaitWake)));
      CanFireStep(g, s, Wait(WaitWake));
    }
  }

  /** Without a sleeper the worker waits for a post: it goes on if and only if one has
      arrived. */
  lemma UntimedWaitNeedsAPost(g: Grain, trace: seq<Step>)
    requires IsRun(g, Init(), trace)
    requires var s := End(g, Init(), trace);
      s.pc.CondWait? && s.timers == multiset{}
    ensures
      var s := End(g, Init(), trace);
      && Enabled(s, Wait(WaitWake))
      && (After(g, s, Wait(WaitWake)).pc == s.pc <==> s.inbox == [])
  {
    Reached(g, trace);
    IdleWaitFits(g, trace);
  }

  /** Nor do busy fibers keep a sleeper waiting: every round of the loop comes to the point
      where timers fire before it starts a fiber. */
  lemma RoundsCanFire(g: Grain, trace: seq<Step>)
    requires IsRun(g, Init(), trace)
    requires var s := End(g, Init(), trace); s.pc.Top? && s.live > 0 && OWNER !in s.calls
    ensures CanFire(g, End(g, Init(), trace))
  {
    Reached(g, trace);
    var s := End(g, Init(), trace);
    PlacedStep(g, s, Loop(LoopTop));
    TakeGoesOn(g, After(g, s, Loop(LoopTop)));
    CanFireStep(g, s, Loop(LoopTop));
  }
}

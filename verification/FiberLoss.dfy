/**
  The window in settle's park arm, at the grain of the source: a latch stored by
  another thread between the exchange and the compare-and-swap can be lost, and
  from every state in which such a store is about to happen there is a run that
  loses it.  Together with FiberWakes.NoWakeIsLost this says exactly when the
  order of the source is safe: when no latch is stored inside the window.
*/
module FiberLoss {
  import opened Options
  import opened FiberWorker
  import opened FiberPlaces
  import opened FiberWakes

  // ---- composing runs -----------------------------------------------------------

  lemma {:induction false} RunConcat(g: Grain, s: State, one: seq<Step>, two: seq<Step>)
    requires IsRun(g, s, one) && IsRun(g, End(g, s, one), two)
    ensures IsRun(g, s, one + two) && End(g, s, one + two) == End(g, End(g, s, one), two)
    decreases |one|
  {
    if one == [] {
      assert one + two == two;
    } else {
      var a, s1 := one[0], After(g, s, one[0]);
      assert (one + two)[0] == a && (one + two)[1..] == one[1..] + two;
      assert End(g, s, one) == End(g, s1, one[1..]);
      RunConcat(g, s1, one[1..], two);
    }
  }

  lemma RunOne(g: Grain, s: State, a: Step)
    requires Enabled(s, a)
    ensures IsRun(g, s, [a]) && End(g, s, [a]) == After(g, s, a)
  {
    assert [a][1..] == [];
  }

  // ---- finishing the resumers of a fiber that is inside the window -----------------

  /** f is between settle's exchange and its compare-and-swap, with its latch set. */
  predicate InWindow(s: State, f: Fid) {
    f in s.fibers && s.pc == SettleCas(f) && OWNER !in s.calls
    && s.fibers[f].state.Parking? && s.fibers[f].pending
  }

  function StepsLeft(c: Call): nat {
    match c
    case Cas(_, _) => 4
    case Load(_, _) => 3
    case Latch(_, _) => 2
    case _ => 1
  }

  /** One resumer of f runs to its end: it finds the fiber PARKING and returns. */
  lemma {:induction false} FinishOne(s: State, t: Tid, f: Fid) returns (trace: seq<Step>)
    requires InWindow(s, f) && OnTarget(s, t, f)
    ensures IsRun(Split, s, trace)
    ensures InWindow(End(Split, s, trace), f) && End(Split, s, trace).calls == s.calls - {t}
    decreases StepsLeft(s.calls[t])
  {
    var a := Proceed(t);
    var s1 := After(Split, s, a);
    RunOne(Split, s, a);
    if s.calls[t].Recheck? {
      trace := [a];
    } else {
      var rest := FinishOne(s1, t, f);
      assert s1.calls - {t} == s.calls - {t};
      RunConcat(Split, s, [a], rest);
      trace := [a] + rest;
    }
  }

  /** All of them run to their end. */
  lemma {:induction false} FinishAll(s: State, f: Fid) returns (trace: seq<Step>)
    requires InWindow(s, f)
    ensures IsRun(Split, s, trace)
    ensures InWindow(End(Split, s, trace), f) && !SomeOnTarget(End(Split, s, trace), f)
    decreases |s.calls.Keys|
  {
    if t :| OnTarget(s, t, f) {
      var one := FinishOne(s, t, f);
      var s1 := End(Split, s, one);
      assert s1.calls.Keys == s.calls.Keys - {t};
      var rest := FinishAll(s1, f);
      RunConcat(Split, s, one, rest);
      trace := one + rest;
    } else {
      trace := [];
    }
  }

  lemma LatchedIsOnTarget(s: State, f: Fid)
    requires !SomeOnTarget(s, f)
    ensures !SomeLatched(s, f)
  {
    forall t, m ensures !Latched(s, t, f, m) {
      if Latched(s, t, f, m) {
        LatchedTargets(s, t, f, m);
      }
    }
  }

  lemma LatchedTargets(s: State, t: Tid, f: Fid, m: nat)
    requires Latched(s, t, f, m)
    ensures OnTarget(s, t, f)
  {
  }

  /** Whenever a thread is about to store f's latch inside the window, the run can
      go on so that the wake is lost: f is parked, its latch is set, and every
      resumer has returned. */
  lemma LatchInWindowCanBeLost(trace: seq<Step>, t: Tid, f: Fid) returns (more: seq<Step>)
    requires IsRun(Split, Init(), trace)
    requires !OutsideWindow(End(Split, Init(), trace), Proceed(t))
    requires End(Split, Init(), trace).pc == SettleCas(f)
    ensures more != [] && more[0] == Proceed(t)
    ensures IsRun(Split, Init(), trace + more) && LostWake(End(Split, Init(), trace + more), f)
  {
    var s := End(Split, Init(), trace);
    PlacedInit();
    PlacedRun(Split, Init(), trace);
    assert BusyAt(s, f) && CallNamed(s, t);
    var a := Proceed(t);
    var s1 := After(Split, s, a);
    RunOne(Split, s, a);
    var rest := FinishAll(s1, f);
    var s2 := End(Split, s1, rest);
    var b := Arm(ParkPublish);
    RunOne(Split, s2, b);
    var s3 := After(Split, s2, b);
    LatchedIsOnTarget(s2, f);
    NobodyAppears(s2, f);
    RunConcat(Split, s1, rest, [b]);
    RunConcat(Split, s, [a], rest + [b]);
    more := [a] + (rest + [b]);
    RunConcat(Split, Init(), trace, more);
  }

  lemma NobodyAppears(s: State, f: Fid)
    requires InWindow(s, f) && !SomeLatched(s, f)
    ensures !SomeLatched(After(Split, s, Arm(ParkPublish)), f)
  {
    if t, m :| Latched(After(Split, s, Arm(ParkPublish)), t, f, m) {
      assert Latched(s, t, f, m);
    }
  }

  /** A worker with one fiber. */
  function Small(b: Fiber, ready: seq<Fid>, pc: Pc, calls: map<Tid, Call>): State {
    State(map[0 := b], ready, [], [], [], {0}, 1, pc, calls, false, false, false, multiset{}, {}, map[], map[])
  }

  /** A one-fiber worker's run grows by one step. */
  lemma Grow(trace: seq<Step>, s: State, a: Step, s': State)
    requires IsRun(Split, Init(), trace) && End(Split, Init(), trace) == s
    requires Enabled(s, a) && After(Split, s, a) == s'
    ensures IsRun(Split, Init(), trace + [a]) && End(Split, Init(), trace + [a]) == s'
  {
    RunOne(Split, s, a);
    RunConcat(Split, Init(), trace, [a]);
  }

  /** The window is reached, and a wake lost, by one fiber and one other thread. */
  lemma SourceOrderLosesAWake() returns (trace: seq<Step>)
    ensures IsRun(Split, Init(), trace) && LostWake(End(Split, Init(), trace), 0)
  {
    var t1 := ReachesFire();
    var t2 := ReachesRun(t1);
    var t3 := ReachesWindow(t2);
    var more := LatchInWindowCanBeLost(t3, 1, 0);
    trace := t3 + more;
  }

  lemma ReachesFire() returns (trace: seq<Step>)
    ensures IsRun(Split, Init(), trace)
    ensures End(Split, Init(), trace) == Small(NewFiber(), [0], Fire(FromLoop), map[])
  {
    var b := NewFiber();
    RunOne(Split, Init(), Code(Spawn(0, None)));
    assert After(Split, Init(), Code(Spawn(0, None))) == Small(b, [0], Setup, map[]);
    Grow([Code(Spawn(0, None))], Small(b, [0], Setup, map[]), Loop(Enter), Small(b, [0], Top, map[]));
    trace := [Code(Spawn(0, None))] + [Loop(Enter)];
    Grow(trace, Small(b, [0], Top, map[]), Loop(LoopTop), Small(b, [0], Take(FromLoop), map[]));
    trace := trace + [Loop(LoopTop)];
    Grow(trace, Small(b, [0], Take(FromLoop), map[]), Loop(TakeInbox), Small(b, [0], Draining(FromLoop), map[]));
    trace := trace + [Loop(TakeInbox)];
    Grow(trace, Small(b, [0], Draining(FromLoop), map[]), Loop(Drained), Small(b, [0], Fire(FromLoop), map[]));
    trace := trace + [Loop(Drained)];
  }

  function Going(): Fiber {
    NewFiber().(state := Running, link := Unlinked)
  }

  lemma ReachesStart(lead: seq<Step>) returns (trace: seq<Step>)
    requires IsRun(Split, Init(), lead)
    requires End(Split, Init(), lead) == Small(NewFiber(), [0], Fire(FromLoop), map[])
    ensures IsRun(Split, Init(), trace)
    ensures End(Split, Init(), trace) == Small(Going(), [], Run(0), map[])
  {
    hide IsRun, End;
    var b := NewFiber();
    var held := b.(link := WithScheduler);
    Grow(lead, Small(b, [0], Fire(FromLoop), map[]), Loop(FireDone), Small(b, [0], Pop, map[]));
    trace := lead + [Loop(FireDone)];
    Grow(trace, Small(b, [0], Pop, map[]), Loop(PopReady), Small(held, [], Start(0), map[]));
    trace := trace + [Loop(PopReady)];
    Grow(trace, Small(held, [], Start(0), map[]), Loop(StartFiber), Small(Going(), [], Run(0), map[]));
    trace := trace + [Loop(StartFiber)];
  }

  lemma ReachesRun(lead: seq<Step>) returns (trace: seq<Step>)
    requires IsRun(Split, Init(), lead)
    requires End(Split, Init(), lead) == Small(NewFiber(), [0], Fire(FromLoop), map[])
    ensures IsRun(Split, Init(), trace)
    ensures End(Split, Init(), trace) == Small(Going(), [], Run(0), map[1 := Latch(0, None)])
  {
    hide IsRun, End;
    trace := ReachesStart(lead);
    Grow(trace, Small(Going(), [], Run(0), map[]), CallResume(1, 0), Small(Going(), [], Run(0), map[1 := Load(0, None)]));
    trace := trace + [CallResume(1, 0)];
    Grow(trace, Small(Going(), [], Run(0), map[1 := Load(0, None)]), Proceed(1),
         Small(Going(), [], Run(0), map[1 := Latch(0, None)]));
    trace := trace + [Proceed(1)];
  }

  lemma ReachesWindow(lead: seq<Step>) returns (trace: seq<Step>)
    requires IsRun(Split, Init(), lead)
    requires End(Split, Init(), lead) == Small(Going(), [], Run(0), map[1 := Latch(0, None)])
    ensures IsRun(Split, Init(), trace)
    ensures End(Split, Init(), trace).pc == SettleCas(0)
    ensures End(Split, Init(), trace).calls == map[1 := Latch(0, None)] && 0 in End(Split, Init(), trace).fibers
  {
    hide IsRun, End;
    var calls: map<Tid, Call> := map[1 := Latch(0, None)];
    var away := Going().(state := Parking, disposition := ToPark);
    Grow(lead, Small(Going(), [], Run(0), calls), Park(ParkCheck), Small(Going(), [], ParkChecked(0), calls));
    trace := lead + [Park(ParkCheck)];
    Grow(trace, Small(Going(), [], ParkChecked(0), calls), Park(ParkExchange), Small(Going(), [], ParkStore(0), calls));
    trace := trace + [Park(ParkExchange)];
    Grow(trace, Small(Going(), [], ParkStore(0), calls), Park(ParkCommit), Small(away, [], Settle(0), calls));
    trace := trace + [Park(ParkCommit)];
    Grow(trace, Small(away, [], Settle(0), calls), Arm(ParkFirst), Small(away, [], SettleCas(0), calls));
    trace := trace + [Arm(ParkFirst)];
  }
}

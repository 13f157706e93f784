/**
  Turns: fibers are started in the order in which they joined the run queue, and fibers
  posted by other threads join it in the order of their posts.
*/
module FiberOrder {
  import opened FiberWorker
  import opened FiberPlaces

  /** The fiber popped and not yet started. */
  function Next(s: State): seq<Fid> {
    if s.pc.Start? then [s.pc.f] else []
  }

  /** Whom a step gives the CPU. */
  function Starts(s: State, a: Step): seq<Fid> {
    if a == Loop(StartFiber) then Next(s) else []
  }

  /** The fibers that get the CPU during a run. */
  ghost function Started(g: Grain, s: State, trace: seq<Step>): seq<Fid>
    requires IsRun(g, s, trace)
    decreases |trace|
  {
    if trace == [] then []
    else Starts(s, trace[0]) + Started(g, After(g, s, trace[0]), trace[1..])
  }

  /** The fibers that wait for the CPU, the next one first. */
  function Line(s: State): seq<Fid> {
    Next(s) + s.ready
  }

  /** What a step starts and what is in line afterwards is what was in line, and perhaps
      more behind it. */
  predicate InTurn(s: State, started: seq<Fid>, s': State) {
    Line(s) <= started + Line(s')
  }

  /** The fibers other threads have posted and the run queue has not yet got, the first
      post first. */
  function Posted(s: State): seq<Fid> {
    s.batch + s.inbox
  }

  /** Whom a step of a drain puts at the end of the run queue. */
  function Queues(a: Step, s': State): seq<Fid> {
    if a == Loop(DrainPush) && s'.ready != [] then [s'.ready[|s'.ready| - 1]] else []
  }

  ghost function Queued(g: Grain, s: State, trace: seq<Step>): seq<Fid>
    requires IsRun(g, s, trace)
    decreases |trace|
  {
    if trace == [] then []
    else
      var s' := After(g, s, trace[0]);
      Queues(trace[0], s') + Queued(g, s', trace[1..])
  }

  predicate PostsInTurn(s: State, queued: seq<Fid>, s': State) {
    Posted(s) <= queued + Posted(s')
  }

  lemma TurnCall(s: State, t: Tid)
    requires t in s.calls && CallTarget(s, s.calls[t])
    ensures InTurn(s, [], AfterCall(s, t))
    ensures PostsInTurn(s, [], AfterCall(s, t))
  {
  }

  lemma TurnPop(s: State)
    requires LoopEnabled(s, PopReady)
    ensures InTurn(s, [], AfterLoop(s, PopReady)) && PostsInTurn(s, [], AfterLoop(s, PopReady))
  {
    if s.ready != [] {
      assert s.ready == [s.ready[0]] + s.ready[1..];
    }
  }

  lemma TurnDrain(s: State)
    requires LoopEnabled(s, DrainPush)
    ensures var s' := AfterLoop(s, DrainPush);
      InTurn(s, [], s') && PostsInTurn(s, Queues(Loop(DrainPush), s'), s')
  {
    var s' := AfterLoop(s, DrainPush);
    assert Line(s) <= Line(s');
    assert Posted(s) == [s.batch[0]] + Posted(s');
  }

  lemma TurnLoop(s: State, l: LoopStep)
    requires LoopEnabled(s, l) && (s.batch != [] ==> s.pc.Draining?)
    ensures InTurn(s, Starts(s, Loop(l)), AfterLoop(s, l))
    ensures PostsInTurn(s, Queues(Loop(l), AfterLoop(s, l)), AfterLoop(s, l))
  {
    if l.PopReady? {
      TurnPop(s);
    } else if l.DrainPush? {
      TurnDrain(s);
    } else {
      TurnRest(s, l);
    }
  }

  lemma TurnRest(s: State, l: LoopStep)
    requires LoopEnabled(s, l) && (s.batch != [] ==> s.pc.Draining?) && !l.PopReady? && !l.DrainPush?
    ensures InTurn(s, Starts(s, Loop(l)), AfterLoop(s, l)) && PostsInTurn(s, [], AfterLoop(s, l))
  {
  }

  lemma TurnWait(s: State, w: WaitStep)
    requires WaitEnabled(s, w) && (s.batch != [] ==> s.pc.Draining?)
    ensures InTurn(s, [], AfterWait(s, w))
    ensures PostsInTurn(s, [], AfterWait(s, w))
  {
  }

  lemma TurnCode(s: State, c: CodeStep)
    requires CodeEnabled(s, c)
    ensures InTurn(s, [], AfterCode(s, c))
    ensures PostsInTurn(s, [], AfterCode(s, c))
  {
  }

  lemma TurnPark(s: State, p: ParkStep)
    requires ParkEnabled(s, p)
    ensures InTurn(s, [], AfterPark(s, p))
    ensures PostsInTurn(s, [], AfterPark(s, p))
  {
  }

  lemma TurnExit(s: State, e: ExitStep)
    requires ExitEnabled(s, e)
    ensures InTurn(s, [], AfterExit(s, e))
    ensures PostsInTurn(s, [], AfterExit(s, e))
  {
  }

  lemma TurnMeet(s: State, j: JoinStep)
    requires JoinEnabled(s, j)
    ensures InTurn(s, [], AfterMeet(s, j))
    ensures PostsInTurn(s, [], AfterMeet(s, j))
  {
  }

  lemma TurnArm(g: Grain, s: State, r: ArmStep)
    requires ArmEnabled(s, r)
    ensures InTurn(s, [], AfterArm(g, s, r))
    ensures PostsInTurn(s, [], AfterArm(g, s, r))
  {
  }

  lemma TurnSettle(s: State, x: SettleStep)
    requires SettleEnabled(s, x)
    ensures InTurn(s, [], AfterSettle(s, x))
    ensures PostsInTurn(s, [], AfterSettle(s, x))
  {
  }

  lemma TurnStep(g: Grain, s: State, a: Step)
    requires Enabled(s, a) && (s.batch != [] ==> s.pc.Draining?)
    ensures InTurn(s, Starts(s, a), After(g, s, a))
    ensures PostsInTurn(s, Queues(a, After(g, s, a)), After(g, s, a))
  {
    hide InTurn, PostsInTurn;
    match a
    case CallResume(_, _) => Quiet(g, s, a);
    case CallCancel(_, _) => Quiet(g, s, a);
    case Proceed(t) => TurnCall(s, t);
    case Loop(l) => TurnLoop(s, l);
    case Wait(w) => TurnWait(s, w);
    case Code(c) => TurnCode(s, c);
    case Park(p) => TurnPark(s, p);
    case Exit(e) => TurnExit(s, e);
    case Meet(j) => TurnMeet(s, j);
    case Arm(r) => TurnArm(g, s, r);
    case Settling(x) => TurnSettle(s, x);
  }

  lemma Quiet(g: Grain, s: State, a: Step)
    requires Enabled(s, a) && (a.CallResume? || a.CallCancel?)
    ensures InTurn(s, [], After(g, s, a)) && PostsInTurn(s, [], After(g, s, a))
  {
  }

  lemma {:induction false} TurnsRun(g: Grain, s: State, trace: seq<Step>)
    requires Placed(s) && IsRun(g, s, trace)
    ensures InTurn(s, Started(g, s, trace), End(g, s, trace))
    ensures PostsInTurn(s, Queued(g, s, trace), End(g, s, trace))
    decreases |trace|
  {
    hide Line, Posted, After, Starts, Queues;
    if trace != [] {
      var s' := After(g, s, trace[0]);
      PlacedStep(g, s, trace[0]);
      TurnStep(g, s, trace[0]);
      TurnsRun(g, s', trace[1..]);
      Prefixes(Line(s), Starts(s, trace[0]), Line(s'), Started(g, s', trace[1..]), Line(End(g, s, trace)));
      Prefixes(Posted(s), Queues(trace[0], s'), Posted(s'), Queued(g, s', trace[1..]), Posted(End(g, s, trace)));
    }
  }

  lemma Prefixes(a: seq<Fid>, now: seq<Fid>, b: seq<Fid>, later: seq<Fid>, end: seq<Fid>)
    requires a <= now + b && b <= later + end
    ensures a <= now + later + end
  {
    assert now + b <= now + (later + end) == now + later + end;
  }

  // ---- whole runs ------------------------------------------------------------------------

  lemma PlacedAt(g: Grain, before: seq<Step>)
    requires IsRun(g, Init(), before)
    ensures Placed(End(g, Init(), before))
  {
    PlacedInit();
    PlacedRun(g, Init(), before);
  }

  /** However a run goes on: the fibers in line are the first to be started, in their
      order, and nobody comes between them. */
  lemma StartedInTurn(g: Grain, before: seq<Step>, trace: seq<Step>)
    requires IsRun(g, Init(), before) && IsRun(g, End(g, Init(), before), trace)
    ensures var s := End(g, Init(), before);
      Line(s) <= Started(g, s, trace) + Line(End(g, s, trace))
  {
    PlacedAt(g, before);
    TurnsRun(g, End(g, Init(), before), trace);
  }

  /** And the fibers in the inbox are the first that drains put on the run queue, in the
      order of their posts. */
  lemma QueuedInOrderOfPosts(g: Grain, before: seq<Step>, trace: seq<Step>)
    requires IsRun(g, Init(), before) && IsRun(g, End(g, Init(), before), trace)
    ensures var s := End(g, Init(), before);
      Posted(s) <= Queued(g, s, trace) + Posted(End(g, s, trace))
  {
    PlacedAt(g, before);
    TurnsRun(g, End(g, Init(), before), trace);
  }

  /** So the fiber with k others in front of it is started after exactly those k. */
  lemma StartedAfterThoseInFront(g: Grain, before: seq<Step>, trace: seq<Step>, k: nat)
    requires IsRun(g, Init(), before) && IsRun(g, End(g, Init(), before), trace)
    requires k < |Line(End(g, Init(), before))| && k < |Started(g, End(g, Init(), before), trace)|
    ensures var s := End(g, Init(), before);
      Started(g, s, trace)[..k + 1] == Line(s)[..k + 1]
  {
    StartedInTurn(g, before, trace);
    var s := End(g, Init(), before);
    var all := Started(g, s, trace) + Line(End(g, s, trace));
    assert Line(s) == all[..|Line(s)|];
    assert all[..k + 1] == Started(g, s, trace)[..k + 1];
  }
}

/**
  Where every fiber of a worker is.  The two invariants here say which fiber
  the worker thread is busy with and which list each READY fiber is linked on;
  they are kept by every atomic step, whatever the grain of settle.
*/
module FiberPlaces {
  import opened Options
  import opened FiberWorker

  predicate NoDup(q: seq<Fid>) {
    forall i, j :: 0 <= i < j < |q| ==> q[i] != q[j]
  }

  /** The fiber whose code the worker thread is executing. */
  predicate OnCpu(pc: Pc, f: Fid) {
    pc == Run(f) || pc == Joining(f) || (pc.JoinBack? && pc.f == f)
    || pc == ParkChecked(f) || pc == ParkStore(f) || pc == YieldStore(f)
  }

  /** The fiber has stored PARKING and settle has not yet published a verdict. */
  predicate Switching(pc: Pc, f: Fid) {
    pc == Settle(f) || pc == SettleCas(f) || pc == Requeue(f)
  }

  /** Program points at which the worker's own thread may be inside a resume. */
  predicate OwnerMayBeCalling(pc: Pc) {
    pc.Run? || pc.Hook? || pc.Setup? || pc.Top? || Firing(pc) || pc.Events?
  }

  predicate PcKnown(s: State) {
    match s.pc
    case Start(f) => f in s.fibers && s.fibers[f].state.Ready?
    case Push(f) => f in s.fibers && s.fibers[f].state.Ready?
    case Run(f) => f in s.fibers
    case Joining(f) => f in s.fibers
    case JoinBack(f, _) => f in s.fibers
    case ParkChecked(f) => f in s.fibers
    case ParkStore(f) => f in s.fibers
    case YieldStore(f) => f in s.fibers
    case Settle(f) => f in s.fibers && !s.fibers[f].disposition.NoVerdict?
    case SettleCas(f) => f in s.fibers
    case Requeue(f) => f in s.fibers
    case SettleRecheck(f) => f in s.fibers && (s.fibers[f].state.Parked? || s.fibers[f].state.Ready?)
    case SettleClaim(f) => f in s.fibers && (s.fibers[f].state.Parked? || s.fibers[f].state.Ready?)
    case Hook(f) => f in s.fibers && s.fibers[f].state.Done?
    case _ => true
  }

  /** What the worker thread is doing agrees with the fibers' states. */
  predicate BusyAt(s: State, f: Fid) {
    f in s.fibers ==>
      (s.fibers[f].state.Running? <==> OnCpu(s.pc, f)) && (s.fibers[f].state.Parking? <==> Switching(s.pc, f))
  }

  ghost predicate Busy(s: State) {
    && PcKnown(s)
    && (OWNER in s.calls ==> OwnerMayBeCalling(s.pc))
    && (forall f :: BusyAt(s, f))
  }

  /** The names that appear anywhere are names of fibers. */
  ghost predicate Named(s: State) {
    && (forall t :: CallNamed(s, t))
    && (forall f :: f in s.timers || f in s.armed ==> f in s.fibers)
    && (forall f :: Paired(s, f))
  }

  predicate CallNamed(s: State, t: Tid) {
    t in s.calls ==> CallTarget(s, s.calls[t])
  }

  /** A fiber waits for a child exactly while it is that child's joiner, and the
      outcome of a child with a joiner has not been handed out. */
  predicate Paired(s: State, f: Fid) {
    f in s.fibers ==>
      && (s.fibers[f].waiting.Some? ==>
            var c := s.fibers[f].waiting.value;
            c in s.fibers && c != f && s.fibers[c].joiner == Some(f) && s.pc != Run(f))
      && (s.fibers[f].joiner.Some? ==>
            var j := s.fibers[f].joiner.value;
            j in s.fibers && s.fibers[j].waiting == Some(f)
            && !s.fibers[f].joined && !s.fibers[f].forgotten)
      && (s.pc == Joining(f) || (s.pc.JoinBack? && s.pc.f == f) ==> s.fibers[f].waiting.Some?)
  }

  /** What the lists say about f is exactly what its link says, and its link fits its state. */
  predicate LinkOk(s: State, f: Fid) {
    if f !in s.fibers then
      f !in s.ready && f !in s.batch + s.inbox && f !in s.pool
    else
      var b := s.fibers[f];
      && (f in s.ready <==> b.link.OnReady?)
      && (f in s.batch + s.inbox <==> b.link.OnInbox?)
      && (f in s.pool <==> b.link.OnPool?)
      && (b.link.WithScheduler? <==> s.pc == Start(f) || s.pc == Push(f))
      && (b.link.InHand? ==> b.link.t in s.calls && s.calls[b.link.t] == Post(f))
      && (b.state.Ready? <==> !b.link.Unlinked? && !b.link.OnPool?)
      && (b.link.OnPool? ==> b.state.Done? && (b.joined || b.forgotten) && s.pc != Hook(f))
  }

  /** The winner of the CAS to READY is the one thread holding that fiber. */
  predicate HandOk(s: State, t: Tid) {
    t in s.calls && s.calls[t].Post? ==>
      s.calls[t].f in s.fibers && s.fibers[s.calls[t].f].link == InHand(t)
  }

  /** No list holds a fiber twice. */
  predicate Distinct(s: State) {
    NoDup(s.ready) && NoDup(s.batch + s.inbox) && NoDup(s.pool)
  }

  ghost predicate Linked(s: State) {
    && Distinct(s)
    && (forall f :: LinkOk(s, f))
    && (forall t :: HandOk(s, t))
    && (s.batch != [] ==> s.pc.Draining?)
  }

  ghost predicate Placed(s: State) {
    Busy(s) && Named(s) && Linked(s)
  }

  // ---- sequences without repetition -------------------------------------------

  lemma TailIn(q: seq<Fid>, f: Fid)
    requires NoDup(q) && q != []
    ensures f in q[1..] <==> f in q && f != q[0]
    ensures NoDup(q[1..])
  {
    assert q == [q[0]] + q[1..];
  }

  lemma CutIn(q: seq<Fid>, i: nat, f: Fid)
    requires NoDup(q) && i < |q|
    ensures f in q[..i] + q[i + 1..] <==> f in q && f != q[i]
    ensures NoDup(q[..i] + q[i + 1..])
  {
    assert q == q[..i] + [q[i]] + q[i + 1..];
  }

  // ---- the worker's pc -------------------------------------------------------

  lemma PcCall(s: State, t: Tid)
    requires Busy(s) && Named(s)
    requires t in s.calls && CallTarget(s, s.calls[t])
    ensures PcKnown(AfterCall(s, t)) && (OWNER in AfterCall(s, t).calls ==> OwnerMayBeCalling(AfterCall(s, t).pc))
  {}

  lemma PcLoop(s: State, l: LoopStep)
    requires Busy(s) && Named(s) && Linked(s)
    requires OWNER !in s.calls && LoopEnabled(s, l)
    ensures PcKnown(AfterLoop(s, l)) && (OWNER in AfterLoop(s, l).calls ==> OwnerMayBeCalling(AfterLoop(s, l).pc))
  {
    if l.PopReady? && s.ready != [] {
      assert LinkOk(s, s.ready[0]);
    }
  }

  lemma PcWait(s: State, w: WaitStep)
    requires Busy(s) && Named(s)
    requires OWNER !in s.calls && WaitEnabled(s, w)
    ensures PcKnown(AfterWait(s, w)) && (OWNER in AfterWait(s, w).calls ==> OwnerMayBeCalling(AfterWait(s, w).pc))
  {}

  lemma PcCode(s: State, c: CodeStep)
    requires Busy(s) && Named(s)
    requires OWNER !in s.calls && CodeEnabled(s, c)
    ensures PcKnown(AfterCode(s, c)) && (OWNER in AfterCode(s, c).calls ==> OwnerMayBeCalling(AfterCode(s, c).pc))
  {}

  lemma PcPark(s: State, p: ParkStep)
    requires Busy(s) && Named(s)
    requires OWNER !in s.calls && ParkEnabled(s, p)
    ensures PcKnown(AfterPark(s, p)) && (OWNER in AfterPark(s, p).calls ==> OwnerMayBeCalling(AfterPark(s, p).pc))
  {}

  lemma PcExit(s: State, e: ExitStep)
    requires Busy(s) && Named(s)
    requires OWNER !in s.calls && ExitEnabled(s, e)
    ensures PcKnown(AfterExit(s, e)) && (OWNER in AfterExit(s, e).calls ==> OwnerMayBeCalling(AfterExit(s, e).pc))
  {}

  lemma PcMeet(s: State, j: JoinStep)
    requires Busy(s) && Named(s)
    requires OWNER !in s.calls && JoinEnabled(s, j)
    ensures PcKnown(AfterMeet(s, j)) && (OWNER in AfterMeet(s, j).calls ==> OwnerMayBeCalling(AfterMeet(s, j).pc))
  {}

  lemma PcArm(g: Grain, s: State, r: ArmStep)
    requires Busy(s) && Named(s)
    requires OWNER !in s.calls && ArmEnabled(s, r)
    ensures PcKnown(AfterArm(g, s, r)) && (OWNER in AfterArm(g, s, r).calls ==> OwnerMayBeCalling(AfterArm(g, s, r).pc))
  {}

  lemma PcSettle(s: State, x: SettleStep)
    requires Busy(s) && Named(s)
    requires OWNER !in s.calls && SettleEnabled(s, x)
    ensures PcKnown(AfterSettle(s, x)) && (OWNER in AfterSettle(s, x).calls ==> OwnerMayBeCalling(AfterSettle(s, x).pc))
  {}

  // ---- busy with which fiber -------------------------------------------------

  lemma BusyAtCall(s: State, t: Tid, f: Fid)
    requires PcKnown(s) && BusyAt(s, f)
    requires t in s.calls && CallTarget(s, s.calls[t])
    ensures BusyAt(AfterCall(s, t), f)
  {}

  lemma BusyAtLoop(s: State, l: LoopStep, f: Fid)
    requires PcKnown(s) && BusyAt(s, f)
    requires OWNER !in s.calls && LoopEnabled(s, l)
    ensures BusyAt(AfterLoop(s, l), f)
  {}

  lemma BusyAtWait(s: State, w: WaitStep, f: Fid)
    requires PcKnown(s) && BusyAt(s, f)
    requires OWNER !in s.calls && WaitEnabled(s, w)
    ensures BusyAt(AfterWait(s, w), f)
  {}

  lemma BusyAtCode(s: State, c: CodeStep, f: Fid)
    requires PcKnown(s) && BusyAt(s, f)
    requires OWNER !in s.calls && CodeEnabled(s, c)
    ensures BusyAt(AfterCode(s, c), f)
  {}

  lemma BusyAtPark(s: State, p: ParkStep, f: Fid)
    requires PcKnown(s) && BusyAt(s, f)
    requires OWNER !in s.calls && ParkEnabled(s, p)
    ensures BusyAt(AfterPark(s, p), f)
  {}

  lemma BusyAtExit(s: State, e: ExitStep, f: Fid)
    requires PcKnown(s) && BusyAt(s, f)
    requires OWNER !in s.calls && ExitEnabled(s, e)
    ensures BusyAt(AfterExit(s, e), f)
  {}

  lemma BusyAtMeet(s: State, j: JoinStep, f: Fid)
    requires PcKnown(s) && BusyAt(s, f)
    requires OWNER !in s.calls && JoinEnabled(s, j)
    ensures BusyAt(AfterMeet(s, j), f)
  {}

  lemma BusyAtArm(g: Grain, s: State, r: ArmStep, f: Fid)
    requires PcKnown(s) && BusyAt(s, f)
    requires OWNER !in s.calls && ArmEnabled(s, r)
    ensures BusyAt(AfterArm(g, s, r), f)
  {}

  lemma BusyAtSettle(s: State, x: SettleStep, f: Fid)
    requires PcKnown(s) && BusyAt(s, f)
    requires OWNER !in s.calls && SettleEnabled(s, x)
    ensures BusyAt(AfterSettle(s, x), f)
  {}

  // ---- links -----------------------------------------------------------------

  lemma LinkCall(s: State, t: Tid, f: Fid)
    requires PcKnown(s) && LinkOk(s, f) && HandOk(s, t)
    requires t in s.calls && CallTarget(s, s.calls[t])
    ensures LinkOk(AfterCall(s, t), f)
  {
    var c := s.calls[t];
    assert AfterCall(s, t).batch + AfterCall(s, t).inbox
        == if c.Post? && t != OWNER then (s.batch + s.inbox) + [c.f] else s.batch + s.inbox;
  }

  lemma LinkDrain(s: State, f: Fid)
    requires Distinct(s) && LinkOk(s, f) && LoopEnabled(s, DrainPush)
    ensures LinkOk(AfterLoop(s, DrainPush), f)
  {
    TailIn(s.batch + s.inbox, f);
    assert AfterLoop(s, DrainPush).batch + AfterLoop(s, DrainPush).inbox == (s.batch + s.inbox)[1..];
  }

  lemma LinkPop(s: State, f: Fid)
    requires Distinct(s) && LinkOk(s, f) && LoopEnabled(s, PopReady)
    ensures LinkOk(AfterLoop(s, PopReady), f)
  {
    if s.ready != [] {
      TailIn(s.ready, f);
    }
  }

  lemma LinkLoop(s: State, l: LoopStep, f: Fid)
    requires Distinct(s) && PcKnown(s) && LinkOk(s, f) && BusyAt(s, f) && (s.batch != [] ==> s.pc.Draining?)
    requires OWNER !in s.calls && LoopEnabled(s, l)
    ensures LinkOk(AfterLoop(s, l), f)
  {
    if l.DrainPush? {
      LinkDrain(s, f);
    } else if l.PopReady? {
      LinkPop(s, f);
    } else {
      assert AfterLoop(s, l).batch + AfterLoop(s, l).inbox == s.batch + s.inbox;
    }
  }

  lemma LinkWait(s: State, w: WaitStep, f: Fid)
    requires LinkOk(s, f) && (s.batch != [] ==> s.pc.Draining?)
    requires OWNER !in s.calls && WaitEnabled(s, w)
    ensures LinkOk(AfterWait(s, w), f)
  {
    assert AfterWait(s, w).batch + AfterWait(s, w).inbox == s.batch + s.inbox;
  }

  lemma LinkSpawn(s: State, g: Fid, reuse: Option<nat>, f: Fid)
    requires Distinct(s) && LinkOk(s, f) && CodeEnabled(s, Spawn(g, reuse)) && PcKnown(s)
    ensures LinkOk(AfterCode(s, Spawn(g, reuse)), f)
  {
    if reuse.Some? {
      CutIn(s.pool, reuse.value, f);
    }
  }

  lemma LinkCode(s: State, c: CodeStep, f: Fid)
    requires Distinct(s) && PcKnown(s) && LinkOk(s, f) && BusyAt(s, f)
    requires OWNER !in s.calls && CodeEnabled(s, c)
    ensures LinkOk(AfterCode(s, c), f)
  {
    if c.Spawn? {
      LinkSpawn(s, c.g, c.reuse, f);
    }
  }

  lemma LinkPark(s: State, p: ParkStep, f: Fid)
    requires PcKnown(s) && LinkOk(s, f) && BusyAt(s, f)
    requires OWNER !in s.calls && ParkEnabled(s, p)
    ensures LinkOk(AfterPark(s, p), f)
  {}

  lemma LinkExit(s: State, e: ExitStep, f: Fid)
    requires PcKnown(s) && LinkOk(s, f) && BusyAt(s, f)
    requires OWNER !in s.calls && ExitEnabled(s, e)
    ensures LinkOk(AfterExit(s, e), f)
  {}

  lemma LinkMeet(s: State, j: JoinStep, f: Fid)
    requires PcKnown(s) && LinkOk(s, f) && BusyAt(s, f)
    requires OWNER !in s.calls && JoinEnabled(s, j)
    ensures LinkOk(AfterMeet(s, j), f)
  {}

  lemma LinkArm(g: Grain, s: State, r: ArmStep, f: Fid)
    requires PcKnown(s) && LinkOk(s, f) && BusyAt(s, f)
    requires OWNER !in s.calls && ArmEnabled(s, r)
    ensures LinkOk(AfterArm(g, s, r), f)
  {}

  lemma LinkSettle(s: State, x: SettleStep, f: Fid)
    requires PcKnown(s) && LinkOk(s, f) && BusyAt(s, f)
    requires OWNER !in s.calls && SettleEnabled(s, x)
    ensures LinkOk(AfterSettle(s, x), f)
  {}

  // ---- hands -----------------------------------------------------------------

  lemma HandCall(s: State, t: Tid, u: Tid)
    requires HandOk(s, u) && HandOk(s, t) && (u in s.calls && s.calls[u].Post? ==> LinkOk(s, s.calls[u].f))
    requires t in s.calls && CallTarget(s, s.calls[t])
    ensures HandOk(AfterCall(s, t), u)
  {}

  lemma HandLoop(s: State, l: LoopStep, u: Tid)
    requires PcKnown(s) && HandOk(s, u) && (u in s.calls && s.calls[u].Post? ==> LinkOk(s, s.calls[u].f) && BusyAt(s, s.calls[u].f))
    requires OWNER !in s.calls && LoopEnabled(s, l)
    ensures HandOk(AfterLoop(s, l), u)
  {}

  lemma HandWait(s: State, w: WaitStep, u: Tid)
    requires PcKnown(s) && HandOk(s, u) && (u in s.calls && s.calls[u].Post? ==> LinkOk(s, s.calls[u].f) && BusyAt(s, s.calls[u].f))
    requires OWNER !in s.calls && WaitEnabled(s, w)
    ensures HandOk(AfterWait(s, w), u)
  {}

  lemma HandCode(s: State, c: CodeStep, u: Tid)
    requires PcKnown(s) && HandOk(s, u) && (u in s.calls && s.calls[u].Post? ==> LinkOk(s, s.calls[u].f) && BusyAt(s, s.calls[u].f))
    requires OWNER !in s.calls && CodeEnabled(s, c)
    ensures HandOk(AfterCode(s, c), u)
  {}

  lemma HandPark(s: State, p: ParkStep, u: Tid)
    requires PcKnown(s) && HandOk(s, u) && (u in s.calls && s.calls[u].Post? ==> LinkOk(s, s.calls[u].f) && BusyAt(s, s.calls[u].f))
    requires OWNER !in s.calls && ParkEnabled(s, p)
    ensures HandOk(AfterPark(s, p), u)
  {}

  lemma HandExit(s: State, e: ExitStep, u: Tid)
    requires PcKnown(s) && HandOk(s, u) && (u in s.calls && s.calls[u].Post? ==> LinkOk(s, s.calls[u].f) && BusyAt(s, s.calls[u].f))
    requires OWNER !in s.calls && ExitEnabled(s, e)
    ensures HandOk(AfterExit(s, e), u)
  {}

  lemma HandMeet(s: State, j: JoinStep, u: Tid)
    requires PcKnown(s) && HandOk(s, u) && (u in s.calls && s.calls[u].Post? ==> LinkOk(s, s.calls[u].f) && BusyAt(s, s.calls[u].f))
    requires OWNER !in s.calls && JoinEnabled(s, j)
    ensures HandOk(AfterMeet(s, j), u)
  {}

  lemma HandArm(g: Grain, s: State, r: ArmStep, u: Tid)
    requires PcKnown(s) && HandOk(s, u) && (u in s.calls && s.calls[u].Post? ==> LinkOk(s, s.calls[u].f) && BusyAt(s, s.calls[u].f))
    requires OWNER !in s.calls && ArmEnabled(s, r)
    ensures HandOk(AfterArm(g, s, r), u)
  {}

  lemma HandSettle(s: State, x: SettleStep, u: Tid)
    requires PcKnown(s) && HandOk(s, u) && (u in s.calls && s.calls[u].Post? ==> LinkOk(s, s.calls[u].f) && BusyAt(s, s.calls[u].f))
    requires OWNER !in s.calls && SettleEnabled(s, x)
    ensures HandOk(AfterSettle(s, x), u)
  {}

  // ---- lists without repetition ----------------------------------------------

  lemma DistinctCall(s: State, t: Tid)
    requires Busy(s) && Named(s) && Linked(s)
    requires t in s.calls && CallTarget(s, s.calls[t])
    ensures Distinct(AfterCall(s, t)) && (AfterCall(s, t).batch != [] ==> AfterCall(s, t).pc.Draining?)
  {
    assert HandOk(s, t);
    var c := s.calls[t];
    if c.Post? {
      assert LinkOk(s, c.f);
      if t != OWNER {
        assert s.batch + (s.inbox + [c.f]) == (s.batch + s.inbox) + [c.f];
      }
    }
  }

  lemma DistinctLoop(s: State, l: LoopStep)
    requires Busy(s) && Named(s) && Linked(s)
    requires OWNER !in s.calls && LoopEnabled(s, l)
    ensures Distinct(AfterLoop(s, l)) && (AfterLoop(s, l).batch != [] ==> AfterLoop(s, l).pc.Draining?)
  {
    match l
    case DrainPush =>
      TailIn(s.batch + s.inbox, s.batch[0]);
      assert AfterLoop(s, l).batch + AfterLoop(s, l).inbox == (s.batch + s.inbox)[1..];
      assert LinkOk(s, (s.batch + s.inbox)[0]);
    case TakeInbox => assert s.inbox + [] == s.batch + s.inbox;
    case _ =>
  }

  lemma DistinctWait(s: State, w: WaitStep)
    requires Busy(s) && Named(s) && Linked(s)
    requires OWNER !in s.calls && WaitEnabled(s, w)
    ensures Distinct(AfterWait(s, w)) && (AfterWait(s, w).batch != [] ==> AfterWait(s, w).pc.Draining?)
  {
    assert AfterWait(s, w).batch + AfterWait(s, w).inbox == s.batch + s.inbox;
  }

  lemma DistinctCode(s: State, c: CodeStep)
    requires Busy(s) && Named(s) && Linked(s)
    requires OWNER !in s.calls && CodeEnabled(s, c)
    ensures Distinct(AfterCode(s, c)) && (AfterCode(s, c).batch != [] ==> AfterCode(s, c).pc.Draining?)
  {
    if c.Spawn? {
      assert LinkOk(s, c.g);
      if c.reuse.Some? {
        CutIn(s.pool, c.reuse.value, c.g);
      }
    }
  }

  lemma DistinctPark(s: State, p: ParkStep)
    requires Busy(s) && Named(s) && Linked(s)
    requires OWNER !in s.calls && ParkEnabled(s, p)
    ensures Distinct(AfterPark(s, p)) && (AfterPark(s, p).batch != [] ==> AfterPark(s, p).pc.Draining?)
  {}

  lemma DistinctExit(s: State, e: ExitStep)
    requires Busy(s) && Named(s) && Linked(s)
    requires OWNER !in s.calls && ExitEnabled(s, e)
    ensures Distinct(AfterExit(s, e)) && (AfterExit(s, e).batch != [] ==> AfterExit(s, e).pc.Draining?)
  {}

  lemma DistinctMeet(s: State, j: JoinStep)
    requires Busy(s) && Named(s) && Linked(s)
    requires OWNER !in s.calls && JoinEnabled(s, j)
    ensures Distinct(AfterMeet(s, j)) && (AfterMeet(s, j).batch != [] ==> AfterMeet(s, j).pc.Draining?)
  {
    if j.Join? {
      assert LinkOk(s, j.c);
    } else {
      var child := s.fibers[s.pc.f].waiting.value;
      assert Paired(s, s.pc.f) && Paired(s, child) && LinkOk(s, child);
    }
  }

  lemma DistinctArm(g: Grain, s: State, r: ArmStep)
    requires Busy(s) && Named(s) && Linked(s)
    requires OWNER !in s.calls && ArmEnabled(s, r)
    ensures Distinct(AfterArm(g, s, r)) && (AfterArm(g, s, r).batch != [] ==> AfterArm(g, s, r).pc.Draining?)
  {}

  lemma DistinctSettle(s: State, x: SettleStep)
    requires Busy(s) && Named(s) && Linked(s)
    requires OWNER !in s.calls && SettleEnabled(s, x)
    ensures Distinct(AfterSettle(s, x)) && (AfterSettle(s, x).batch != [] ==> AfterSettle(s, x).pc.Draining?)
  {
    assert LinkOk(s, s.pc.f);
  }

  // ---- names in calls, timers and registrations ------------------------------

  lemma NamedCall(s: State, t: Tid, u: Tid, f: Fid)
    requires CallNamed(s, t) && CallNamed(s, u) && (f in s.timers || f in s.armed ==> f in s.fibers)
    requires t in s.calls && CallTarget(s, s.calls[t])
    ensures CallNamed(AfterCall(s, t), u) && (f in AfterCall(s, t).timers || f in AfterCall(s, t).armed ==> f in AfterCall(s, t).fibers)
  {}

  lemma NamedLoop(s: State, l: LoopStep, u: Tid, f: Fid)
    requires CallNamed(s, u) && (f in s.timers || f in s.armed ==> f in s.fibers) && (l.FireTimer? ==> l.f in s.fibers)
    requires OWNER !in s.calls && LoopEnabled(s, l)
    ensures CallNamed(AfterLoop(s, l), u) && (f in AfterLoop(s, l).timers || f in AfterLoop(s, l).armed ==> f in AfterLoop(s, l).fibers)
  {}

  lemma NamedWait(s: State, w: WaitStep, u: Tid, f: Fid)
    requires CallNamed(s, u) && (f in s.timers || f in s.armed ==> f in s.fibers) && (w.PollEvent? ==> w.f in s.fibers)
    requires OWNER !in s.calls && WaitEnabled(s, w)
    ensures CallNamed(AfterWait(s, w), u) && (f in AfterWait(s, w).timers || f in AfterWait(s, w).armed ==> f in AfterWait(s, w).fibers)
  {}

  lemma NamedCode(s: State, c: CodeStep, u: Tid, f: Fid)
    requires PcKnown(s) && CallNamed(s, u) && (f in s.timers || f in s.armed ==> f in s.fibers)
    requires OWNER !in s.calls && CodeEnabled(s, c)
    ensures CallNamed(AfterCode(s, c), u) && (f in AfterCode(s, c).timers || f in AfterCode(s, c).armed ==> f in AfterCode(s, c).fibers)
  {}

  lemma NamedPark(s: State, p: ParkStep, u: Tid, f: Fid)
    requires CallNamed(s, u) && (f in s.timers || f in s.armed ==> f in s.fibers)
    requires OWNER !in s.calls && ParkEnabled(s, p)
    ensures CallNamed(AfterPark(s, p), u) && (f in AfterPark(s, p).timers || f in AfterPark(s, p).armed ==> f in AfterPark(s, p).fibers)
  {}

  lemma NamedExit(s: State, e: ExitStep, u: Tid, f: Fid)
    requires CallNamed(s, u) && (f in s.timers || f in s.armed ==> f in s.fibers)
    requires OWNER !in s.calls && ExitEnabled(s, e)
    ensures CallNamed(AfterExit(s, e), u) && (f in AfterExit(s, e).timers || f in AfterExit(s, e).armed ==> f in AfterExit(s, e).fibers)
  {}

  lemma NamedMeet(s: State, j: JoinStep, u: Tid, f: Fid)
    requires CallNamed(s, u) && (f in s.timers || f in s.armed ==> f in s.fibers)
    requires OWNER !in s.calls && JoinEnabled(s, j)
    ensures CallNamed(AfterMeet(s, j), u) && (f in AfterMeet(s, j).timers || f in AfterMeet(s, j).armed ==> f in AfterMeet(s, j).fibers)
  {}

  lemma NamedArm(g: Grain, s: State, r: ArmStep, u: Tid, f: Fid)
    requires CallNamed(s, u) && (f in s.timers || f in s.armed ==> f in s.fibers)
    requires OWNER !in s.calls && ArmEnabled(s, r)
    ensures CallNamed(AfterArm(g, s, r), u) && (f in AfterArm(g, s, r).timers || f in AfterArm(g, s, r).armed ==> f in AfterArm(g, s, r).fibers)
  {}

  lemma NamedSettle(s: State, x: SettleStep, u: Tid, f: Fid)
    requires (s.pc.Hook? ==> Paired(s, s.pc.f)) && CallNamed(s, u) && (f in s.timers || f in s.armed ==> f in s.fibers)
    requires OWNER !in s.calls && SettleEnabled(s, x)
    ensures CallNamed(AfterSettle(s, x), u) && (f in AfterSettle(s, x).timers || f in AfterSettle(s, x).armed ==> f in AfterSettle(s, x).fibers)
  {}

  // ---- joiners and the fibers they wait for ----------------------------------

  lemma PairedCall(s: State, t: Tid, f: Fid)
    requires Paired(s, f)
    requires t in s.calls && CallTarget(s, s.calls[t])
    ensures Paired(AfterCall(s, t), f)
  {}

  lemma PairedLoop(s: State, l: LoopStep, f: Fid)
    requires PcKnown(s) && Paired(s, f)
    requires OWNER !in s.calls && LoopEnabled(s, l)
    ensures Paired(AfterLoop(s, l), f)
  {}

  lemma PairedWait(s: State, w: WaitStep, f: Fid)
    requires PcKnown(s) && Paired(s, f)
    requires OWNER !in s.calls && WaitEnabled(s, w)
    ensures Paired(AfterWait(s, w), f)
  {}

  lemma PairedCode(s: State, c: CodeStep, f: Fid)
    requires PcKnown(s) && Paired(s, f)
    requires OWNER !in s.calls && CodeEnabled(s, c)
    ensures Paired(AfterCode(s, c), f)
  {}

  lemma PairedPark(s: State, p: ParkStep, f: Fid)
    requires PcKnown(s) && Paired(s, f)
    requires OWNER !in s.calls && ParkEnabled(s, p)
    ensures Paired(AfterPark(s, p), f)
  {}

  lemma PairedExit(s: State, e: ExitStep, f: Fid)
    requires PcKnown(s) && Paired(s, f)
    requires OWNER !in s.calls && ExitEnabled(s, e)
    ensures Paired(AfterExit(s, e), f)
  {}

  lemma PairedJoinDone(s: State, f: Fid, child: Fid, g: Fid)
    requires f in s.fibers && child in s.fibers && child != f && s.pc == Run(f)
    requires s.fibers[child].state.Done? && s.fibers[child].joiner.None?
    requires Paired(s, f) && Paired(s, child) && Paired(s, g)
    ensures Paired(AfterJoin(s, f, child), g)
  {
  }

  lemma PairedJoinWait(s: State, f: Fid, child: Fid, g: Fid)
    requires f in s.fibers && child in s.fibers && child != f && s.pc == Run(f)
    requires !s.fibers[child].state.Done? && s.fibers[child].joiner.None?
    requires !s.fibers[child].joined && !s.fibers[child].forgotten
    requires Paired(s, f) && Paired(s, child) && Paired(s, g)
    ensures Paired(AfterJoin(s, f, child), g)
  {
    if g == f || g == child {
    } else {
    }
  }

  lemma PairedReturn(s: State, f: Fid)
    requires Paired(s, f) && JoinEnabled(s, JoinReturn) && Paired(s, s.pc.f)
    requires Paired(s, s.fibers[s.pc.f].waiting.value)
    ensures Paired(AfterMeet(s, JoinReturn), f)
  {
  }

  lemma PairedMeet(s: State, j: JoinStep, f: Fid)
    requires (forall g :: Paired(s, g))
    requires OWNER !in s.calls && JoinEnabled(s, j)
    ensures Paired(AfterMeet(s, j), f)
  {
    assert Paired(s, s.pc.f);
    if j.Join? {
      assert Paired(s, j.c) && Paired(s, f);
      if s.fibers[j.c].state.Done? {
        PairedJoinDone(s, s.pc.f, j.c, f);
      } else {
        PairedJoinWait(s, s.pc.f, j.c, f);
      }
    } else {
      assert Paired(s, s.fibers[s.pc.f].waiting.value) && Paired(s, f);
      PairedReturn(s, f);
    }
  }

  lemma PairedArm(g: Grain, s: State, r: ArmStep, f: Fid)
    requires PcKnown(s) && Paired(s, f)
    requires OWNER !in s.calls && ArmEnabled(s, r)
    ensures Paired(AfterArm(g, s, r), f)
  {}

  lemma PairedSettle(s: State, x: SettleStep, f: Fid)
    requires PcKnown(s) && Paired(s, f)
    requires OWNER !in s.calls && SettleEnabled(s, x)
    ensures Paired(AfterSettle(s, x), f)
  {}

  // ---- every step ------------------------------------------------------------

  lemma PcStep(g: Grain, s: State, a: Step)
    requires Placed(s) && Enabled(s, a)
    ensures PcKnown(After(g, s, a)) && (OWNER in After(g, s, a).calls ==> OwnerMayBeCalling(After(g, s, a).pc))
  {
    match a
    case CallResume(_, _) =>
    case CallCancel(_, _) =>
    case Proceed(t) => PcCall(s, t);
    case Loop(l) => PcLoop(s, l);
    case Wait(w) => PcWait(s, w);
    case Code(c) => PcCode(s, c);
    case Park(p) => PcPark(s, p);
    case Exit(e) => PcExit(s, e);
    case Meet(j) => PcMeet(s, j);
    case Arm(r) => PcArm(g, s, r);
    case Settling(x) => PcSettle(s, x);
  }

  lemma BusyAtStep(g: Grain, s: State, a: Step, f: Fid)
    requires Placed(s) && Enabled(s, a)
    ensures BusyAt(After(g, s, a), f)
  {
    assert BusyAt(s, f);
    match a
    case CallResume(_, _) =>
    case CallCancel(_, _) =>
    case Proceed(t) => BusyAtCall(s, t, f);
    case Loop(l) => BusyAtLoop(s, l, f);
    case Wait(w) => BusyAtWait(s, w, f);
    case Code(c) => BusyAtCode(s, c, f);
    case Park(p) => BusyAtPark(s, p, f);
    case Exit(e) => BusyAtExit(s, e, f);
    case Meet(j) => BusyAtMeet(s, j, f);
    case Arm(r) => BusyAtArm(g, s, r, f);
    case Settling(x) => BusyAtSettle(s, x, f);
  }

  lemma LinkStep(g: Grain, s: State, a: Step, f: Fid)
    requires Placed(s) && Enabled(s, a)
    ensures LinkOk(After(g, s, a), f)
  {
    assert LinkOk(s, f) && BusyAt(s, f);
    match a
    case CallResume(_, _) =>
    case CallCancel(_, _) =>
    case Proceed(t) => assert HandOk(s, t); LinkCall(s, t, f);
    case Loop(l) => LinkLoop(s, l, f);
    case Wait(w) => LinkWait(s, w, f);
    case Code(c) => LinkCode(s, c, f);
    case Park(p) => LinkPark(s, p, f);
    case Exit(e) => LinkExit(s, e, f);
    case Meet(j) => LinkMeet(s, j, f);
    case Arm(r) => LinkArm(g, s, r, f);
    case Settling(x) => LinkSettle(s, x, f);
  }

  lemma HandStep(g: Grain, s: State, a: Step, u: Tid)
    requires Placed(s) && Enabled(s, a)
    ensures HandOk(After(g, s, a), u)
  {
    assert HandOk(s, u);
    if u in s.calls && s.calls[u].Post? {
      assert LinkOk(s, s.calls[u].f) && BusyAt(s, s.calls[u].f);
    }
    match a
    case CallResume(_, _) =>
    case CallCancel(_, _) =>
    case Proceed(t) => assert HandOk(s, t); HandCall(s, t, u);
    case Loop(l) => HandLoop(s, l, u);
    case Wait(w) => HandWait(s, w, u);
    case Code(c) => HandCode(s, c, u);
    case Park(p) => HandPark(s, p, u);
    case Exit(e) => HandExit(s, e, u);
    case Meet(j) => HandMeet(s, j, u);
    case Arm(r) => HandArm(g, s, r, u);
    case Settling(x) => HandSettle(s, x, u);
  }

  lemma DistinctStep(g: Grain, s: State, a: Step)
    requires Placed(s) && Enabled(s, a)
    ensures Distinct(After(g, s, a)) && (After(g, s, a).batch != [] ==> After(g, s, a).pc.Draining?)
  {
    match a
    case CallResume(_, _) =>
    case CallCancel(_, _) =>
    case Proceed(t) => DistinctCall(s, t);
    case Loop(l) => DistinctLoop(s, l);
    case Wait(w) => DistinctWait(s, w);
    case Code(c) => DistinctCode(s, c);
    case Park(p) => DistinctPark(s, p);
    case Exit(e) => DistinctExit(s, e);
    case Meet(j) => DistinctMeet(s, j);
    case Arm(r) => DistinctArm(g, s, r);
    case Settling(x) => DistinctSettle(s, x);
  }

  lemma NamedStep(g: Grain, s: State, a: Step, u: Tid, f: Fid)
    requires Placed(s) && Enabled(s, a)
    ensures CallNamed(After(g, s, a), u) && (f in After(g, s, a).timers || f in After(g, s, a).armed ==> f in After(g, s, a).fibers)
  {
    assert CallNamed(s, u);
    match a
    case CallResume(_, _) =>
    case CallCancel(_, _) =>
    case Proceed(t) => assert CallNamed(s, t); NamedCall(s, t, u, f);
    case Loop(l) => NamedLoop(s, l, u, f);
    case Wait(w) => NamedWait(s, w, u, f);
    case Code(c) => NamedCode(s, c, u, f);
    case Park(p) => NamedPark(s, p, u, f);
    case Exit(e) => NamedExit(s, e, u, f);
    case Meet(j) => NamedMeet(s, j, u, f);
    case Arm(r) => NamedArm(g, s, r, u, f);
    case Settling(x) => assert s.pc.Hook? ==> Paired(s, s.pc.f); NamedSettle(s, x, u, f);
  }

  lemma PairedStep(g: Grain, s: State, a: Step, f: Fid)
    requires Placed(s) && Enabled(s, a)
    ensures Paired(After(g, s, a), f)
  {
    assert Paired(s, f);
    match a
    case CallResume(_, _) =>
    case CallCancel(_, _) =>
    case Proceed(t) => PairedCall(s, t, f);
    case Loop(l) => PairedLoop(s, l, f);
    case Wait(w) => PairedWait(s, w, f);
    case Code(c) => PairedCode(s, c, f);
    case Park(p) => PairedPark(s, p, f);
    case Exit(e) => PairedExit(s, e, f);
    case Meet(j) => PairedMeet(s, j, f);
    case Arm(r) => PairedArm(g, s, r, f);
    case Settling(x) => PairedSettle(s, x, f);
  }

  lemma PlacedStep(g: Grain, s: State, a: Step)
    requires Placed(s) && Enabled(s, a)
    ensures Placed(After(g, s, a))
  {
    PcStep(g, s, a);
    DistinctStep(g, s, a);
    var s' := After(g, s, a);
    forall f ensures BusyAt(s', f) { BusyAtStep(g, s, a, f); }
    forall f ensures LinkOk(s', f) { LinkStep(g, s, a, f); }
    forall f ensures Paired(s', f) { PairedStep(g, s, a, f); }
    forall u ensures HandOk(s', u) { HandStep(g, s, a, u); }
    forall u ensures CallNamed(s', u) { NamedStep(g, s, a, u, 0); }
    forall f | f in s'.timers || f in s'.armed ensures f in s'.fibers { NamedStep(g, s, a, 0, f); }
  }

  lemma {:induction false} PlacedRun(g: Grain, s: State, trace: seq<Step>)
    requires Placed(s) && IsRun(g, s, trace)
    ensures Placed(End(g, s, trace))
    decreases |trace|
  {
    if trace != [] {
      PlacedStep(g, s, trace[0]);
      PlacedRun(g, After(g, s, trace[0]), trace[1..]);
    }
  }

  lemma PlacedInit()
    ensures Placed(Init())
  {
  }

  // ---- what it means -----------------------------------------------------------

  /** A spot where a queue link, or a hand, can hold a fiber. */
  datatype Spot =
    | InReady(i: nat) | InInbox(i: nat) | InBatch(i: nat) | InPool(i: nat)
    | Held(t: Tid) | Scheduling

  predicate At(s: State, p: Spot, f: Fid) {
    match p
    case InReady(i) => i < |s.ready| && s.ready[i] == f
    case InInbox(i) => i < |s.inbox| && s.inbox[i] == f
    case InBatch(i) => i < |s.batch| && s.batch[i] == f
    case InPool(i) => i < |s.pool| && s.pool[i] == f
    case Held(t) => t in s.calls && s.calls[t] == Post(f)
    case Scheduling => s.pc == Start(f) || s.pc == Push(f)
  }

  /** Two different spots never hold the same fiber: the one queue link of a
      fiber is never threaded on two lists. */
  lemma SpotUnique(s: State, f: Fid, p: Spot, q: Spot)
    requires Placed(s) && At(s, p, f) && At(s, q, f)
    ensures p == q
  {
    assert LinkOk(s, f);
    AtLink(s, f, p);
    AtLink(s, f, q);
    assert NoDup(s.batch + s.inbox);
    if p.InBatch? {
      assert (s.batch + s.inbox)[p.i] == f;
    } else if p.InInbox? {
      assert (s.batch + s.inbox)[|s.batch| + p.i] == f;
    }
    if q.InBatch? {
      assert (s.batch + s.inbox)[q.i] == f;
    } else if q.InInbox? {
      assert (s.batch + s.inbox)[|s.batch| + q.i] == f;
    }
  }

  /** The spot tells the link. */
  lemma AtLink(s: State, f: Fid, p: Spot)
    requires Placed(s) && At(s, p, f)
    ensures f in s.fibers
    ensures s.fibers[f].link ==
            match p {
              case InReady(_) => OnReady
              case InInbox(_) => OnInbox
              case InBatch(_) => OnInbox
              case InPool(_) => OnPool
              case Held(t) => InHand(t)
              case Scheduling => WithScheduler
            }
  {
    assert LinkOk(s, f);
    match p
    case InInbox(i) => assert (s.batch + s.inbox)[|s.batch| + i] == f;
    case InBatch(i) => assert (s.batch + s.inbox)[i] == f;
    case Held(t) => assert HandOk(s, t);
    case _ =>
  }

  /** Every READY fiber has a spot other than the pool. */
  lemma ReadyHasSpot(s: State, f: Fid) returns (p: Spot)
    requires Placed(s) && f in s.fibers && s.fibers[f].state.Ready?
    ensures At(s, p, f) && !p.InPool?
  {
    assert LinkOk(s, f);
    match s.fibers[f].link
    case OnReady =>
      var i :| 0 <= i < |s.ready| && s.ready[i] == f;
      p := InReady(i);
    case OnInbox =>
      var i :| 0 <= i < |s.batch + s.inbox| && (s.batch + s.inbox)[i] == f;
      p := if i < |s.batch| then InBatch(i) else InInbox(i - |s.batch|);
    case InHand(t) => p := Held(t);
    case _ => p := Scheduling;
  }

  /** In every run, at every grain: a fiber is READY exactly when it is in one spot
      outside the pool, and then in that one only; only finished fibers are pooled;
      RUNNING is exactly the fiber on the CPU. */
  lemma EveryFiberInOnePlace(g: Grain, trace: seq<Step>, f: Fid)
    requires IsRun(g, Init(), trace)
    ensures
      var s := End(g, Init(), trace);
      && (f in s.fibers && s.fibers[f].state.Ready? <==> exists p :: At(s, p, f) && !p.InPool?)
      && (forall p, q :: At(s, p, f) && At(s, q, f) ==> p == q)
      && (forall p :: At(s, p, f) && p.InPool? ==> f in s.fibers && s.fibers[f].state.Done?)
      && (f in s.fibers ==> (s.fibers[f].state.Running? <==> OnCpu(s.pc, f)))
  {
    PlacedInit();
    PlacedRun(g, Init(), trace);
    var s := End(g, Init(), trace);
    assert BusyAt(s, f) && LinkOk(s, f);
    if f in s.fibers && s.fibers[f].state.Ready? {
      var p := ReadyHasSpot(s, f);
    }
    forall p | At(s, p, f)
      ensures f in s.fibers && (s.fibers[f].state.Ready? || (p.InPool? && s.fibers[f].state.Done?))
    {
      AtLink(s, f, p);
    }
    forall p, q | At(s, p, f) && At(s, q, f)
      ensures p == q
    {
      SpotUnique(s, f, p, q);
    }
  }

  /** settle's compare-and-swap from PARKING to PARKED cannot fail, because nobody but
      the worker changes a PARKING fiber; and settle always finds a verdict. */
  lemma SettleNeverSurprised(g: Grain, trace: seq<Step>)
    requires IsRun(g, Init(), trace)
    ensures
      var s := End(g, Init(), trace);
      && (s.pc.SettleCas? ==> s.pc.f in s.fibers && s.fibers[s.pc.f].state.Parking?)
      && (s.pc.Settle? ==> s.pc.f in s.fibers && !s.fibers[s.pc.f].disposition.NoVerdict?)
  {
    PlacedInit();
    PlacedRun(g, Init(), trace);
    var s := End(g, Init(), trace);
    if s.pc.SettleCas? {
      assert BusyAt(s, s.pc.f);
    }
  }
}

/**
  One scheduler worker of the fiber runtime as a state machine.

  The worker thread and any number of other threads take turns.  Every access
  to an atomic variable (a fiber's state, its pending-wake latch, its cancel
  flag, the in-poll flag) and every critical section of the inbox mutex is a
  step of its own; work on fields that only the worker thread touches is
  attached to the neighbouring step.  Thread 0 is the worker's own thread: the
  resumes that fibers, timers, the poller and a finishing child make run there,
  and the worker does nothing else until such a call has returned.
*/
module FiberWorker {
  import opened Options

  type Fid = nat
  type Tid = nat

  const OWNER: Tid := 0
  const POOL_MAX := 64

  datatype FState = Running | Ready | Parking | Parked | Done

  datatype Disposition = NoVerdict | ToPark | ToYield | ToFinish

  /** Which list the fiber's single queue link currently threads, or whose hand
      holds the fiber.  OnInbox covers the inbox and the batch just drained from it. */
  datatype Link = Unlinked | OnReady | OnInbox | InHand(t: Tid) | WithScheduler | OnPool

  datatype Fiber = Fiber(
    state: FState,
    pending: bool,            // the pending-wake latch
    cancel: bool,
    masked: bool,             // cancel masked, or already unwinding
    disposition: Disposition,
    status: int,
    joiner: Option<Fid>,      // fiber parked on this one
    waiting: Option<Fid>,     // child this fiber is joining
    forgotten: bool,
    joined: bool,
    hooked: bool,             // the done hook has run
    consumed: nat,            // history: how often the latch has been consumed
    link: Link)

  /** A resume in progress.  seen tells whether this call has stored the latch,
      and how often the latch had been consumed at that moment. */
  datatype Call =
    | Load(f: Fid, seen: Option<nat>)
    | Cas(f: Fid, seen: Option<nat>)
    | Post(f: Fid)
    | Latch(f: Fid, seen: Option<nat>)
    | Recheck(f: Fid, mark: nat)
    | ReadPoll
    | Kicking

  /** Why the inbox is being drained. */
  datatype Path = FromLoop | AfterIdle | Alone

  /** Where the worker thread stands. */
  datatype Pc =
    | Setup | Top | Exited | Report
    | Take(path: Path) | Draining(path: Path) | Fire(path: Path) | Pop | Start(f: Fid)
    | Run(f: Fid) | Joining(f: Fid) | JoinBack(f: Fid, woken: bool)
    | ParkChecked(f: Fid) | ParkStore(f: Fid) | YieldStore(f: Fid)
    | Settle(f: Fid) | SettleCas(f: Fid) | SettleRecheck(f: Fid) | SettleClaim(f: Fid)
    | Requeue(f: Fid) | Push(f: Fid) | Hook(f: Fid)
    | Idle | IoFire | IoRaise | IoCheck | IoLower | Blocked | Events
    | TimedFire | CondEnter(timed: bool) | CondWait(timed: bool)

  /** How the park arm of settle is cut into atomic steps.
      Merged: reading the latch and publishing PARKED are one step.
      Split: they are two, in the order of the source.
      Fixed: PARKED is published first and the latch is read again afterwards. */
  datatype Grain = Merged | Split | Fixed

  datatype State = State(
    fibers: map<Fid, Fiber>,
    ready: seq<Fid>,
    inbox: seq<Fid>,
    batch: seq<Fid>,
    pool: seq<Fid>,
    all: set<Fid>,
    live: int,
    pc: Pc,
    calls: map<Tid, Call>,
    inPoll: bool,
    kick: bool,
    signalled: bool,
    timers: multiset<Fid>,
    armed: set<Fid>,
    ended: map<Fid, int>,      // history: status each fiber finished with
    delivered: map<Fid, int>)  // history: status each join handed out

  datatype Step =
    // any thread
    | CallResume(t: Tid, f: Fid)
    | CallCancel(t: Tid, f: Fid)
    | Proceed(t: Tid)
    // the worker thread
    | Loop(l: LoopStep)
    | Wait(w: WaitStep)
    | Code(c: CodeStep)
    | Park(p: ParkStep)
    | Exit(e: ExitStep)
    | Meet(j: JoinStep)
    | Arm(r: ArmStep)
    | Settling(x: SettleStep)

  /** The worker loop. */
  datatype LoopStep =
    | Enter | LoopTop | TakeInbox | DrainPush | Drained
    | FireTimer(f: Fid) | FireDone | PopReady | StartFiber

  /** The idle waits. */
  datatype WaitStep =
    | GoIdle(alone: bool) | RaisePoll | CheckInbox | LowerPoll
    | PollReturn(kicked: bool) | PollEvent(f: Fid)
    | WaitEnter | WaitWake

  /** Calls the running fiber makes that do not switch away. */
  datatype CodeStep =
    | Spawn(g: Fid, reuse: Option<nat>)
    | Mask(masked: bool) | Forget(g: Fid) | ArmIo | DisarmIo | AddTimer | DropTimer

  /** park, up to the switch to the scheduler. */
  datatype ParkStep =
    | ParkCheck | ParkExchange | ParkCommit

  /** yield and finish, up to the switch to the scheduler. */
  datatype ExitStep =
    | YieldCheck | YieldCommit | FinishWith(status: int)

  /** join: its first test, and its return from park. */
  datatype JoinStep =
    | Join(c: Fid) | JoinReturn

  /** settle completing a park. */
  datatype ArmStep =
    | ParkFirst | ParkPublish | ParkAgain | ParkTakeBack

  /** settle completing anything else, and its final push. */
  datatype SettleStep =
    | Requeued | Pushed | Yielded | Finished | HookDone

  // ---- small helpers ---------------------------------------------------------

  function NewFiber(): Fiber {
    Fiber(Ready, false, false, false, NoVerdict, 0, None, None, false, false, false, 0, OnReady)
  }

  function Put(s: State, f: Fid, b: Fiber): State {
    s.(fibers := s.fibers[f := b])
  }

  predicate CancelObservable(b: Fiber) {
    b.cancel && !b.masked
  }

  /** Where control goes when park returns to fiber f.  woken: the latch was consumed,
      and park answers WOKEN without looking at the cancel flag again. */
  function Back(s: State, f: Fid, woken: bool): Pc
    requires f in s.fibers
  {
    if s.fibers[f].waiting.Some? then JoinBack(f, woken) else Run(f)
  }

  predicate OwnerMayCall(pc: Pc) {
    pc.Run? || pc.Hook? || pc.Setup?
  }

  predicate NobodyElse(pc: Pc) {
    pc == Take(Alone) || pc == Draining(Alone) || pc == Report
  }

  /** The latch after an atomic exchange with zero. */
  function Consume(b: Fiber): Fiber {
    b.(pending := false, consumed := if b.pending then b.consumed + 1 else b.consumed)
  }

  /** Store READY with the fiber in the scheduler's hand, about to be pushed. */
  function InSchedulersHand(b: Fiber): Fiber {
    b.(state := Ready, link := WithScheduler)
  }

  /** fiber_retire keeps a record only while the pool has room. */
  predicate PoolHasRoom(s: State) {
    |s.pool| < POOL_MAX
  }

  function RetiredLink(s: State, b: Fiber): Link {
    if PoolHasRoom(s) then OnPool else b.link
  }

  function RetiredPool(s: State, f: Fid): seq<Fid> {
    if PoolHasRoom(s) then [f] + s.pool else s.pool
  }

  // ---- which steps are possible ----------------------------------------------

  predicate Enabled(s: State, a: Step) {
    match a
    case CallResume(t, f) => MayCall(s, t) && f in s.fibers
    case CallCancel(t, f) => MayCall(s, t) && f in s.fibers
    case Proceed(t) => t in s.calls && CallTarget(s, s.calls[t])
    case Loop(l) => OWNER !in s.calls && LoopEnabled(s, l)
    case Wait(w) => OWNER !in s.calls && WaitEnabled(s, w)
    case Code(c) => OWNER !in s.calls && CodeEnabled(s, c)
    case Park(p) => OWNER !in s.calls && ParkEnabled(s, p)
    case Exit(e) => OWNER !in s.calls && ExitEnabled(s, e)
    case Meet(j) => OWNER !in s.calls && JoinEnabled(s, j)
    case Arm(r) => OWNER !in s.calls && ArmEnabled(s, r)
    case Settling(x) => OWNER !in s.calls && SettleEnabled(s, x)
  }

  predicate MayCall(s: State, t: Tid) {
    t !in s.calls && (if t == OWNER then OwnerMayCall(s.pc) else !NobodyElse(s.pc))
  }

  predicate CallTarget(s: State, c: Call) {
    match c
    case Load(f, _) => f in s.fibers
    case Cas(f, _) => f in s.fibers
    case Post(f) => f in s.fibers
    case Latch(f, _) => f in s.fibers
    case Recheck(f, _) => f in s.fibers
    case ReadPoll => true
    case Kicking => true
  }

  predicate LoopEnabled(s: State, l: LoopStep) {
    match l
    case Enter => s.pc.Setup?
    case LoopTop => s.pc.Top?
    case TakeInbox => s.pc.Take?
    case DrainPush => s.pc.Draining? && s.batch != [] && s.batch[0] in s.fibers
    case Drained => s.pc.Draining? && s.batch == []
    case FireTimer(f) => Firing(s.pc) && f in s.timers
    case FireDone => Firing(s.pc)
    case PopReady => s.pc.Pop? && (s.ready != [] ==> s.ready[0] in s.fibers)
    case StartFiber => s.pc.Start? && s.pc.f in s.fibers
  }

  predicate WaitEnabled(s: State, w: WaitStep) {
    match w
    case GoIdle(alone) =>
      s.pc.Idle? && (alone ==> s.armed == {} && s.timers == multiset{} && s.calls == map[])
    case RaisePoll => s.pc.IoRaise?
    case CheckInbox => s.pc.IoCheck?
    case LowerPoll => s.pc.IoLower? || s.pc.Events?
    case PollReturn(kicked) => s.pc.Blocked? && (kicked ==> s.kick)
    case PollEvent(f) => s.pc.Events? && f in s.armed
    case WaitEnter => s.pc.CondEnter?
    case WaitWake => s.pc.CondWait?
  }

  predicate Firing(pc: Pc) {
    pc.Fire? || pc.IoFire? || pc.TimedFire?
  }

  predicate CodeEnabled(s: State, c: CodeStep) {
    match c
    case Spawn(g, reuse) =>
      (s.pc.Run? || s.pc.Setup?) && g !in s.fibers
      && (reuse.Some? ==> reuse.value < |s.pool| && s.pool[reuse.value] in s.fibers)
    case Mask(_) => s.pc.Run? && s.pc.f in s.fibers
    case Forget(g) => s.pc.Run? && g in s.fibers && !s.fibers[g].joined && s.fibers[g].joiner.None?
    case ArmIo => s.pc.Run?
    case DisarmIo => s.pc.Run?
    case AddTimer => s.pc.Run?
    case DropTimer => s.pc.Run?
  }

  predicate ParkEnabled(s: State, p: ParkStep) {
    match p
    case ParkCheck => (s.pc.Run? || s.pc.Joining?) && s.pc.f in s.fibers
    case ParkExchange => s.pc.ParkChecked? && s.pc.f in s.fibers
    case ParkCommit => s.pc.ParkStore? && s.pc.f in s.fibers
  }

  predicate ExitEnabled(s: State, e: ExitStep) {
    match e
    case YieldCheck => s.pc.Run? && s.pc.f in s.fibers
    case YieldCommit => s.pc.YieldStore? && s.pc.f in s.fibers
    case FinishWith(_) => s.pc.Run? && s.pc.f in s.fibers
  }

  predicate JoinEnabled(s: State, j: JoinStep) {
    match j
    case Join(child) =>
      // the handle is single-use: one joiner, never a forgotten fiber
      s.pc.Run? && s.pc.f in s.fibers && child in s.fibers && child != s.pc.f
      && !s.fibers[child].joined && !s.fibers[child].forgotten && s.fibers[child].joiner.None?
    case JoinReturn =>
      s.pc.JoinBack? && s.pc.f in s.fibers && s.fibers[s.pc.f].waiting.Some?
      && s.fibers[s.pc.f].waiting.value in s.fibers
  }

  predicate ArmEnabled(s: State, r: ArmStep) {
    match r
    case ParkFirst => s.pc.Settle? && s.pc.f in s.fibers && s.fibers[s.pc.f].disposition.ToPark?
    case ParkPublish => s.pc.SettleCas? && s.pc.f in s.fibers
    case ParkAgain => s.pc.SettleRecheck? && s.pc.f in s.fibers
    case ParkTakeBack => s.pc.SettleClaim? && s.pc.f in s.fibers
  }

  predicate SettleEnabled(s: State, x: SettleStep) {
    match x
    case Requeued => s.pc.Requeue? && s.pc.f in s.fibers
    case Pushed => s.pc.Push? && s.pc.f in s.fibers
    case Yielded => s.pc.Settle? && s.pc.f in s.fibers && s.fibers[s.pc.f].disposition.ToYield?
    case Finished => s.pc.Settle? && s.pc.f in s.fibers && s.fibers[s.pc.f].disposition.ToFinish?
    case HookDone => s.pc.Hook? && s.pc.f in s.fibers
  }

  // ---- what a step does ------------------------------------------------------

  function After(g: Grain, s: State, a: Step): State
    requires Enabled(s, a)
  {
    match a
    case CallResume(t, f) => s.(calls := s.calls[t := Load(f, None)])
    case CallCancel(t, f) =>
      Put(s, f, s.fibers[f].(cancel := true)).(calls := s.calls[t := Load(f, None)])
    case Proceed(t) => AfterCall(s, t)
    case Loop(l) => AfterLoop(s, l)
    case Wait(w) => AfterWait(s, w)
    case Code(c) => AfterCode(s, c)
    case Park(p) => AfterPark(s, p)
    case Exit(e) => AfterExit(s, e)
    case Meet(j) => AfterMeet(s, j)
    case Arm(r) => AfterArm(g, s, r)
    case Settling(x) => AfterSettle(s, x)
  }

  // One atomic step of beans_fiber_resume, and of inbox_post inside it.

  /** Where the call stands after its next atomic step; None once it has returned. */
  function NextCall(s: State, t: Tid, c: Call): Option<Call>
    requires CallTarget(s, c)
  {
    match c
    case Load(f, seen) =>
      if s.fibers[f].state.Parked? then Some(Cas(f, seen))
      else if s.fibers[f].state.Done? then None
      else Some(Latch(f, seen))
    case Cas(f, seen) => if s.fibers[f].state.Parked? then Some(Post(f)) else Some(Load(f, seen))
    case Post(f) => if t == OWNER then None else Some(ReadPoll)
    case Latch(f, _) => Some(Recheck(f, s.fibers[f].consumed))
    case Recheck(f, mark) => if s.fibers[f].state.Parked? then Some(Load(f, Some(mark))) else None
    case ReadPoll => if s.inPoll then Some(Kicking) else None
    case Kicking => None
  }

  /** What the step does to the fiber being resumed. */
  function NextTarget(t: Tid, c: Call, b: Fiber): Fiber {
    match c
    case Cas(_, _) => if b.state.Parked? then b.(state := Ready, link := InHand(t)) else b
    case Post(_) => b.(link := if t == OWNER then OnReady else OnInbox)
    case Latch(_, _) => b.(pending := true)
    case Load(_, _) => b
    case Recheck(_, _) => b
    case ReadPoll => b
    case Kicking => b
  }

  function AfterCall(s: State, t: Tid): State
    requires t in s.calls && CallTarget(s, s.calls[t])
  {
    var c := s.calls[t];
    var next := NextCall(s, t, c);
    var post := c.Post?;
    s.(fibers := if c.ReadPoll? || c.Kicking? then s.fibers
                 else s.fibers[c.f := NextTarget(t, c, s.fibers[c.f])],
       calls := if next.None? then s.calls - {t} else s.calls[t := next.value],
       ready := if post && t == OWNER then s.ready + [c.f] else s.ready,
       inbox := if post && t != OWNER then s.inbox + [c.f] else s.inbox,
       signalled := s.signalled || (post && t != OWNER),
       kick := s.kick || c.Kicking?)
  }

  // The worker loop.

  function AfterLoop(s: State, l: LoopStep): State
    requires LoopEnabled(s, l)
  {
    match l
    case Enter => s.(pc := Top)
    case LoopTop => s.(pc := if s.live > 0 then Take(FromLoop) else Exited)
    case TakeInbox => TakeAll(s, true, s.pc.path, s.pc)
    case DrainPush =>
      var f := s.batch[0];
      Put(s, f, s.fibers[f].(link := OnReady)).(ready := s.ready + [f], batch := s.batch[1..])
    case Drained =>
      s.(pc := if s.pc.path.Alone? then (if s.ready != [] then Top else Report) else Fire(s.pc.path))
    case FireTimer(f) =>
      s.(timers := s.timers - multiset{f}, calls := s.calls[OWNER := Load(f, None)])
    case FireDone => s.(pc := AfterFire(s))
    case PopReady =>
      var some := s.ready != [];
      s.(pc := if some then Start(s.ready[0]) else if s.live == 0 then Exited else Idle,
         ready := if some then s.ready[1..] else [],
         fibers := if some then s.fibers[s.ready[0] := s.fibers[s.ready[0]].(link := WithScheduler)]
                   else s.fibers)
    case StartFiber =>
      var f := s.pc.f;
      Put(s, f, s.fibers[f].(state := Running, disposition := NoVerdict, link := Unlinked))
        .(pc := Back(s, f, false))
  }

  function AfterWait(s: State, w: WaitStep): State
    requires WaitEnabled(s, w)
  {
    match w
    case GoIdle(alone) =>
      s.(pc := if alone then Take(Alone)
               else if s.armed != {} then IoFire
               else if s.timers != multiset{} then TimedFire
               else CondEnter(false))
    case RaisePoll => s.(inPoll := true, pc := IoCheck)
    case CheckInbox => s.(pc := if s.inbox != [] then IoLower else Blocked)
    case LowerPoll => s.(inPoll := false, pc := Take(AfterIdle))
    case PollReturn(kicked) => s.(kick := s.kick && !kicked, pc := Events)
    case PollEvent(f) =>
      s.(armed := s.armed - {f}, calls := s.calls[OWNER := Load(f, None)])
    case WaitEnter => TakeAll(s, s.inbox != [], AfterIdle, CondWait(s.pc.timed))
    case WaitWake => TakeAll(s, s.inbox != [] || s.pc.timed, AfterIdle, s.pc)
  }

  /** The critical section of an inbox drain: take everything, or sleep on. */
  function TakeAll(s: State, take: bool, path: Path, otherwise: Pc): State {
    s.(batch := if take then s.inbox else s.batch,
       inbox := if take then [] else s.inbox,
       signalled := take && s.signalled,
       pc := if take then Draining(path) else otherwise)
  }

  function AfterFire(s: State): Pc
    requires Firing(s.pc)
  {
    if s.pc.Fire? then (if s.pc.path.FromLoop? then Pop else Top)
    else if s.ready != [] then Top
    else if s.pc.IoFire? then IoRaise
    else if s.timers == multiset{} then Top
    else CondEnter(true)
  }

  // The running fiber.

  function AfterCode(s: State, c: CodeStep): State
    requires CodeEnabled(s, c)
  {
    match c
    case Spawn(g, reuse) => AfterSpawn(s, g, reuse)
    case Mask(m) => Put(s, s.pc.f, s.fibers[s.pc.f].(masked := m))
    case Forget(g) => Put(s, g, s.fibers[g].(forgotten := true))
    case ArmIo => s.(armed := s.armed + {s.pc.f})
    case DisarmIo => s.(armed := s.armed - {s.pc.f})
    case AddTimer => s.(timers := s.timers + multiset{s.pc.f})
    case DropTimer => s.(timers := s.timers - multiset{s.pc.f})
  }

  function AfterPark(s: State, p: ParkStep): State
    requires ParkEnabled(s, p)
  {
    match p
    case ParkCheck =>
      s.(pc := if CancelObservable(s.fibers[s.pc.f]) then Back(s, s.pc.f, false) else ParkChecked(s.pc.f))
    case ParkExchange =>
      var f := s.pc.f;
      Put(s, f, Consume(s.fibers[f]))
        .(pc := if s.fibers[f].pending then Back(s, f, true) else ParkStore(f))
    case ParkCommit => SwitchAway(s, s.pc.f, s.fibers[s.pc.f].(disposition := ToPark))
  }

  function AfterExit(s: State, e: ExitStep): State
    requires ExitEnabled(s, e)
  {
    match e
    case YieldCheck =>
      s.(pc := if CancelObservable(s.fibers[s.pc.f]) then s.pc else YieldStore(s.pc.f))
    case YieldCommit => SwitchAway(s, s.pc.f, s.fibers[s.pc.f].(disposition := ToYield))
    case FinishWith(status) =>
      SwitchAway(s, s.pc.f, s.fibers[s.pc.f].(disposition := ToFinish, status := status))
        .(ended := s.ended[s.pc.f := status])
  }

  function AfterMeet(s: State, j: JoinStep): State
    requires JoinEnabled(s, j)
  {
    match j
    case Join(child) => AfterJoin(s, s.pc.f, child)
    case JoinReturn => AfterJoinReturn(s, s.pc.f, s.fibers[s.pc.f].waiting.value, s.pc.woken)
  }

  /** Store PARKING and switch to the scheduler. */
  function SwitchAway(s: State, f: Fid, b: Fiber): State {
    Put(s, f, b.(state := Parking)).(pc := Settle(f))
  }

  /** The first test of join: hand the outcome out at once, or start to wait. */
  function AfterJoin(s: State, f: Fid, child: Fid): State
    requires f in s.fibers && child in s.fibers
  {
    var b := s.fibers[child];
    var done := b.state.Done?;
    s.(fibers := s.fibers[child := if done then b.(joined := true, link := RetiredLink(s, b))
                                   else b.(joiner := Some(f))]
                         [f := s.fibers[f].(waiting := if done then None else Some(child))],
       pool := if done then RetiredPool(s, child) else s.pool,
       delivered := if done then s.delivered[child := b.status] else s.delivered,
       pc := if done then Run(f) else Joining(f))
  }

  /** park has returned inside join: outcome ready, cancelled, or wait again. */
  function AfterJoinReturn(s: State, f: Fid, child: Fid, woken: bool): State
    requires f in s.fibers && child in s.fibers
  {
    var b := s.fibers[child];
    var done := b.state.Done?;
    var leave := done || (!woken && CancelObservable(s.fibers[f]));
    var left := b.(joiner := if leave then None else Some(f), joined := b.joined || done,
                   link := if done then RetiredLink(s, b) else b.link);
    s.(fibers := s.fibers[child := left][f := s.fibers[f].(waiting := if leave then None else Some(child))],
       pool := if done then RetiredPool(s, child) else s.pool,
       delivered := if done then s.delivered[child := b.status] else s.delivered,
       pc := if leave then Run(f) else Joining(f))
  }

  /** beans_fiber_spawn; the record is a pooled one when reuse names its place. */
  function AfterSpawn(s: State, g: Fid, reuse: Option<nat>): State
    requires reuse.Some? ==> reuse.value < |s.pool| && s.pool[reuse.value] in s.fibers
  {
    s.(fibers := (if reuse.None? then s.fibers
                  else s.fibers[s.pool[reuse.value] := s.fibers[s.pool[reuse.value]].(link := Unlinked)])
                 [g := NewFiber()],
       pool := if reuse.None? then s.pool else s.pool[..reuse.value] + s.pool[reuse.value + 1..],
       live := s.live + 1,
       all := s.all + {g},
       ready := s.ready + [g])
  }

  // settle.

  function AfterArm(g: Grain, s: State, r: ArmStep): State
    requires ArmEnabled(s, r)
  {
    var f := s.pc.f;
    var b := s.fibers[f];
    match r
    case ParkFirst =>
      Put(s, f, if g.Fixed? then b.(state := Parked)
                else Consume(b).(state := if g.Merged? && !b.pending then Parked else b.state))
        .(pc := if g.Fixed? then SettleRecheck(f)
                else if b.pending then Requeue(f)
                else if g.Merged? then Top
                else SettleCas(f))
    case ParkPublish =>
      Put(s, f, b.(state := if b.state.Parking? then Parked else b.state))
        .(pc := if b.state.Parking? then Top else Requeue(f))
    case ParkAgain =>
      Put(s, f, Consume(b)).(pc := if b.pending then SettleClaim(f) else Top)
    case ParkTakeBack =>
      Put(s, f, if b.state.Parked? then InSchedulersHand(b) else b)
        .(pc := if b.state.Parked? then Push(f) else Top)
  }

  function AfterSettle(s: State, x: SettleStep): State
    requires SettleEnabled(s, x)
  {
    var f := s.pc.f;
    var b := s.fibers[f];
    match x
    case Requeued => Put(s, f, InSchedulersHand(b)).(pc := Push(f))
    case Yielded => Put(s, f, InSchedulersHand(b)).(pc := Push(f))
    case Pushed => Put(s, f, b.(link := OnReady)).(ready := s.ready + [f], pc := Top)
    case Finished =>
      Put(s, f, b.(state := Done)).(live := s.live - 1, all := s.all - {f}, pc := Hook(f))
    case HookDone =>
      var retire := b.joiner.None? && b.forgotten;
      s.(fibers := s.fibers[f := b.(hooked := true, link := if retire then RetiredLink(s, b) else b.link)],
         pool := if retire then RetiredPool(s, f) else s.pool,
         calls := if b.joiner.Some? then s.calls[OWNER := Load(b.joiner.value, None)] else s.calls,
         pc := Top)
  }

  // ---- runs --------------------------------------------------------------------

  /** A fresh worker, before its loop is entered. */
  function Init(): State {
    State(map[], [], [], [], [], {}, 0, Setup, map[], false, false, false,
          multiset{}, {}, map[], map[])
  }

  /** trace is a run from s: each step is possible where it is taken. */
  ghost predicate IsRun(g: Grain, s: State, trace: seq<Step>)
    decreases |trace|
  {
    trace == [] || (Enabled(s, trace[0]) && IsRun(g, After(g, s, trace[0]), trace[1..]))
  }

  /** The state a run ends in. */
  ghost function End(g: Grain, s: State, trace: seq<Step>): State
    requires IsRun(g, s, trace)
    decreases |trace|
  {
    if trace == [] then s else End(g, After(g, s, trace[0]), trace[1..])
  }
}

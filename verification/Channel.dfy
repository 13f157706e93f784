/**
  A bounded channel: a queue under a mutex with one condition variable for readers
  and one for writers.  What happens between taking the lock and giving it back or
  waiting is one step; any number of threads take part.
*/
module Channel {
  import opened Options

  type Tid = nat

  /** waiting threads sleep on a condition variable; woken ones have been notified
      and not yet looked again.  sent and received are histories. */
  datatype State = State(
    capacity: nat, values: seq<int>, closed: bool,
    waitingR: set<Tid>, wokenR: set<Tid>,
    waitingW: map<Tid, int>, wokenW: map<Tid, int>,
    sent: seq<int>, received: seq<int>, ended: set<Tid>)

  datatype Step =
    | Put(t: Tid, v: int, wake: Option<Tid>)
    | PutWaits(t: Tid, v: int)
    | Take(t: Tid, wake: Option<Tid>)
    | TakeWaits(t: Tid)
    | TakeEnds(t: Tid)
    | Close

  function Init(capacity: nat): State {
    State(capacity, [], false, {}, {}, map[], map[], [], [], {})
  }

  /** The thread is in a send of v: on its way in, notified, or awake for no reason. */
  predicate Sending(s: State, t: Tid, v: int) {
    && t !in s.waitingR && t !in s.wokenR
    && (t in s.waitingW ==> s.waitingW[t] == v) && (t in s.wokenW ==> s.wokenW[t] == v)
  }

  predicate Receiving(s: State, t: Tid) {
    t !in s.waitingW && t !in s.wokenW
  }

  /** notify_one wakes one of those who wait, if there is one. */
  predicate Wakes(wake: Option<Tid>, waiting: set<Tid>) {
    if wake.Some? then wake.value in waiting else waiting == {}
  }

  predicate Enabled(s: State, step: Step) {
    match step
    case Put(t, v, wake) => Sending(s, t, v) && |s.values| < s.capacity && Wakes(wake, s.waitingR)
    case PutWaits(t, v) => Sending(s, t, v) && |s.values| >= s.capacity
    case Take(t, wake) => Receiving(s, t) && s.values != [] && Wakes(wake, s.waitingW.Keys)
    case TakeWaits(t) => Receiving(s, t) && s.values == [] && !s.closed
    case TakeEnds(t) => Receiving(s, t) && s.values == [] && s.closed
    case Close => true
  }

  /** The reader notified, if any, leaves the waiting ones. */
  function WakeReader(s: State, wake: Option<Tid>): State {
    if wake.None? then s
    else s.(waitingR := s.waitingR - {wake.value}, wokenR := s.wokenR + {wake.value})
  }

  function WakeWriter(s: State, wake: Option<Tid>): State {
    if wake.None? || wake.value !in s.waitingW then s
    else s.(waitingW := s.waitingW - {wake.value}, wokenW := s.wokenW[wake.value := s.waitingW[wake.value]])
  }

  function After(s: State, step: Step): State
    requires Enabled(s, step)
  {
    match step
    case Put(t, v, wake) =>
      WakeReader(s.(values := s.values + [v], sent := s.sent + [v],
                    waitingW := s.waitingW - {t}, wokenW := s.wokenW - {t}), wake)
    case PutWaits(t, v) => s.(waitingW := s.waitingW[t := v], wokenW := s.wokenW - {t})
    case Take(t, wake) =>
      WakeWriter(s.(values := s.values[1..], received := s.received + [s.values[0]],
                    waitingR := s.waitingR - {t}, wokenR := s.wokenR - {t}), wake)
    case TakeWaits(t) => s.(waitingR := s.waitingR + {t}, wokenR := s.wokenR - {t})
    case TakeEnds(t) => s.(waitingR := s.waitingR - {t}, wokenR := s.wokenR - {t}, ended := s.ended + {t})
    case Close => s.(closed := true, waitingR := {}, wokenR := s.wokenR + s.waitingR)
  }

  predicate IsRun(s: State, steps: seq<Step>)
    decreases |steps|
  {
    steps == [] || (Enabled(s, steps[0]) && IsRun(After(s, steps[0]), steps[1..]))
  }

  function End(s: State, steps: seq<Step>): State
    requires IsRun(s, steps)
    decreases |steps|
  {
    if steps == [] then s else End(After(s, steps[0]), steps[1..])
  }

  // ---- what every step keeps ---------------------------------------------------------------

  /** Nothing is lost, doubled or reordered. */
  predicate InOrder(s: State) {
    s.received + s.values == s.sent && |s.values| <= s.capacity
  }

  /** While readers sleep, every item has a reader on its way to it; while writers
      sleep, every free place has a writer on its way to it. */
  predicate NoWakeupLost(s: State) {
    && (s.waitingR != {} && !s.closed ==> |s.values| <= |s.wokenR|)
    && (s.closed ==> s.waitingR == {})
    && (s.waitingW.Keys != {} ==> s.capacity - |s.values| <= |s.wokenW.Keys|)
  }

  /** A thread waits in one place. */
  predicate Apart(s: State) {
    s.waitingR !! s.wokenR && s.waitingW.Keys !! s.wokenW.Keys
  }

  predicate Good(s: State) {
    InOrder(s) && NoWakeupLost(s) && Apart(s)
  }

  lemma GoodPut(s: State, t: Tid, v: int, wake: Option<Tid>)
    requires Good(s) && Enabled(s, Put(t, v, wake))
    ensures Good(After(s, Put(t, v, wake)))
  {
    var s' := After(s, Put(t, v, wake));
    assert s'.received + s'.values == s.received + s.values + [v];
    assert s'.waitingW.Keys == s.waitingW.Keys - {t} && s'.wokenW.Keys == s.wokenW.Keys - {t};
    RemoveOne(s.wokenW.Keys, t);
    if wake.Some? {
      assert wake.value !in s.wokenR;
    }
  }

  lemma GoodTake(s: State, t: Tid, wake: Option<Tid>)
    requires Good(s) && Enabled(s, Take(t, wake))
    ensures Good(After(s, Take(t, wake)))
  {
    TakeInOrder(s, t, wake);
    TakeWakes(s, t, wake);
  }

  lemma TakeInOrder(s: State, t: Tid, wake: Option<Tid>)
    requires Good(s) && Enabled(s, Take(t, wake))
    ensures InOrder(After(s, Take(t, wake)))
  {
    var s' := After(s, Take(t, wake));
    assert s.values == [s.values[0]] + s.values[1..];
    assert s'.received + s'.values == s.received + s.values;
  }

  /** One of the sleeping writers is on its way. */
  lemma WriterWoken(s: State, w: Tid)
    requires w in s.waitingW && w !in s.wokenW
    ensures var s' := WakeWriter(s, Some(w));
      && s'.waitingW.Keys == s.waitingW.Keys - {w} && s'.wokenW.Keys == s.wokenW.Keys + {w}
      && |s'.wokenW.Keys| == |s.wokenW.Keys| + 1
  {
    var s' := WakeWriter(s, Some(w));
    assert s'.wokenW.Keys == s.wokenW.Keys + {w};
  }

  lemma TakeWakes(s: State, t: Tid, wake: Option<Tid>)
    requires Good(s) && Enabled(s, Take(t, wake))
    ensures NoWakeupLost(After(s, Take(t, wake))) && Apart(After(s, Take(t, wake)))
  {
    var s1 := s.(values := s.values[1..], received := s.received + [s.values[0]],
                 waitingR := s.waitingR - {t}, wokenR := s.wokenR - {t});
    RemoveOne(s.wokenR, t);
    assert |s1.values| == |s.values| - 1;
    assert After(s, Take(t, wake)) == WakeWriter(s1, wake);
    if wake.Some? {
      hide WakeWriter, InOrder, After;
      WriterWoken(s1, wake.value);
      SameButWriters(s1, wake);
    }
  }

  lemma SameButWriters(s: State, wake: Option<Tid>)
    ensures var s' := WakeWriter(s, wake);
      && s'.values == s.values && s'.capacity == s.capacity && s'.closed == s.closed
      && s'.waitingR == s.waitingR && s'.wokenR == s.wokenR
  {
  }

  lemma RemoveOne<T>(a: set<T>, x: T)
    ensures |a - {x}| == if x in a then |a| - 1 else |a|
  {
    if x !in a {
      assert a - {x} == a;
    }
  }

  lemma GoodPutWaits(s: State, t: Tid, v: int)
    requires Good(s) && Enabled(s, PutWaits(t, v))
    ensures Good(After(s, PutWaits(t, v)))
  {
    var s' := s.(waitingW := s.waitingW[t := v], wokenW := s.wokenW - {t});
    assert s'.waitingW.Keys == s.waitingW.Keys + {t} && s'.wokenW.Keys == s.wokenW.Keys - {t};
  }

  /** A reader that finds nothing, and the close. */
  lemma GoodEmpty(s: State, step: Step)
    requires Good(s) && Enabled(s, step) && (step.TakeWaits? || step.TakeEnds? || step.Close?)
    ensures Good(After(s, step))
  {
  }

  lemma GoodStep(s: State, step: Step)
    requires Good(s) && Enabled(s, step)
    ensures Good(After(s, step))
  {
    hide Good;
    if step.Put? {
      GoodPut(s, step.t, step.v, step.wake);
    } else if step.Take? {
      GoodTake(s, step.t, step.wake);
    } else if step.PutWaits? {
      GoodPutWaits(s, step.t, step.v);
    } else {
      GoodEmpty(s, step);
    }
  }

  lemma {:induction false} GoodRun(s: State, steps: seq<Step>)
    requires Good(s) && IsRun(s, steps)
    ensures Good(End(s, steps))
    decreases |steps|
  {
    if steps != [] {
      GoodStep(s, steps[0]);
      GoodRun(After(s, steps[0]), steps[1..]);
    }
  }

  // ---- over whole runs ------------------------------------------------------------------------

  /** The items received are the items sent, in order, but for those in the buffer,
      which never holds more than it may. */
  lemma FirstInFirstOut(capacity: nat, steps: seq<Step>)
    requires IsRun(Init(capacity), steps)
    ensures var s := End(Init(capacity), steps);
      s.received + s.values == s.sent && |s.values| <= capacity
  {
    GoodRun(Init(capacity), steps);
    SameCapacity(Init(capacity), steps);
  }

  lemma {:induction false} SameCapacity(s: State, steps: seq<Step>)
    requires IsRun(s, steps)
    ensures End(s, steps).capacity == s.capacity
    decreases |steps|
  {
    if steps != [] {
      SameCapacity(After(s, steps[0]), steps[1..]);
    }
  }

  /** No one sleeps beside work: when nobody has been notified, a reader sleeps only
      on an empty open channel, and a writer only on a full one.  So readers and
      writers never sleep at the same time for good. */
  lemma NobodySleepsBesideWork(capacity: nat, steps: seq<Step>)
    requires IsRun(Init(capacity), steps)
    ensures var s := End(Init(capacity), steps);
      && (s.waitingR != {} && s.wokenR == {} ==> s.values == [] && !s.closed)
      && (s.waitingW.Keys != {} && s.wokenW.Keys == {} ==> |s.values| == capacity)
      && (capacity > 0 && s.wokenR == {} && s.wokenW.Keys == {} ==> s.waitingR == {} || s.waitingW.Keys == {})
  {
    GoodRun(Init(capacity), steps);
    SameCapacity(Init(capacity), steps);
  }

  /** While a reader sleeps on an open channel, every buffered item has a notified reader
      of its own; while a writer sleeps, every free place has a notified writer. */
  lemma EveryItemHasAReaderOnItsWay(capacity: nat, steps: seq<Step>)
    requires IsRun(Init(capacity), steps)
    ensures var s := End(Init(capacity), steps);
      && (s.waitingR != {} ==> !s.closed && |s.values| <= |s.wokenR|)
      && (s.waitingW.Keys != {} ==> capacity - |s.values| <= |s.wokenW.Keys|)
  {
    GoodRun(Init(capacity), steps);
    SameCapacity(Init(capacity), steps);
  }

  /** A receive ends empty-handed only after the close, with everything received. */
  lemma EndsOnlyWhenDrained(capacity: nat, steps: seq<Step>, t: Tid)
    requires IsRun(Init(capacity), steps) && Enabled(End(Init(capacity), steps), TakeEnds(t))
    ensures var s := End(Init(capacity), steps);
      s.closed && s.received == s.sent
  {
    FirstInFirstOut(capacity, steps);
    var s := End(Init(capacity), steps);
    assert s.received + [] == s.received;
  }

  // ---- steps that can be taken -------------------------------------------------------------------

  ghost predicate CanTake(s: State, t: Tid) {
    exists wake :: Enabled(s, Take(t, wake))
  }

  ghost predicate CanPut(s: State, t: Tid, v: int) {
    exists wake :: Enabled(s, Put(t, v, wake))
  }

  /** Somebody, or nobody, can be notified. */
  lemma SomeWake(waiting: set<Tid>) returns (wake: Option<Tid>)
    ensures Wakes(wake, waiting)
  {
    if t :| t in waiting {
      wake := Some(t);
    } else {
      wake := None;
    }
  }

  /** In every run, a receiver can always go on, and in one way only: it takes the oldest
      item if there is one, it waits on an empty open channel, and on an empty closed one
      its receive ends empty-handed. */
  lemma ReceiverGoesOn(capacity: nat, steps: seq<Step>, t: Tid)
    requires IsRun(Init(capacity), steps) && Receiving(End(Init(capacity), steps), t)
    ensures var s := End(Init(capacity), steps);
      && (CanTake(s, t) <==> |s.values| > 0)
      && (Enabled(s, TakeWaits(t)) <==> |s.values| == 0 && !s.closed)
      && (Enabled(s, TakeEnds(t)) <==> |s.values| == 0 && s.closed)
    ensures var s := End(Init(capacity), steps);
      forall wake :: Enabled(s, Take(t, wake)) ==>
        var s' := After(s, Take(t, wake));
        s'.received == s.received + [s.values[0]] && s'.values == s.values[1..] && s'.sent == s.sent
  {
    var s := End(Init(capacity), steps);
    var wake := SomeWake(s.waitingW.Keys);
    assert |s.values| > 0 ==> Enabled(s, Take(t, wake));
  }

  /** So can a sender: it puts its item behind the others if there is room, and waits only
      on a full channel. */
  lemma SenderGoesOn(capacity: nat, steps: seq<Step>, t: Tid, v: int)
    requires IsRun(Init(capacity), steps) && Sending(End(Init(capacity), steps), t, v)
    ensures var s := End(Init(capacity), steps);
      && (CanPut(s, t, v) <==> |s.values| < capacity)
      && (Enabled(s, PutWaits(t, v)) <==> |s.values| == capacity)
    ensures var s := End(Init(capacity), steps);
      forall wake :: Enabled(s, Put(t, v, wake)) ==>
        var s' := After(s, Put(t, v, wake));
        s'.sent == s.sent + [v] && s'.values == s.values + [v] && s'.received == s.received
  {
    FirstInFirstOut(capacity, steps);
    SameCapacity(Init(capacity), steps);
    var s := End(Init(capacity), steps);
    var wake := SomeWake(s.waitingR);
    assert |s.values| < capacity ==> Enabled(s, Put(t, v, wake));
  }
}

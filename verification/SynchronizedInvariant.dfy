/** The invariant behind "no lost wake-up", and what the queue contributes to it. */
module SynchronizedInvariant {
  import opened Options
  import opened Protocol
  import opened ProtocolInvariant
  import opened ProtocolSteps
  import opened ProtocolFlow
  import opened ProtocolOutcomes
  import opened Synchronized
  import A = AtomicWaker
  import L = WakerList

  // ---------------------------------------------------------------- control

  /** A thread at this point of a non-blocking dequeue was not asked to resize. */
  predicate PlainDequeue(pc: Pc) {
    match pc
    case DeqLock(resize) => resize == NoResize
    case DeqStart(resize, _, _, _) => resize == NoResize
    case DeqLoad(next) => !next.resized && next.inserted == []
    case DeqSwap(next, _, _) => !next.resized && next.inserted == []
    case DeqCapacity(next, _, _) => !next.resized && next.inserted == []
    case DeqNotify(next, _, _) => !next.resized && next.inserted == []
    case _ => (Dequeuing(pc) && !pc.DeqAdd?) || pc.DeqReturned? || pc.Slice?
  }

  /** A thread at this point of a non-blocking enqueue is enqueuing `value`. */
  predicate EnqueueOf(pc: Pc, value: seq<Value>) {
    if Enqueuing(pc) then pc.value == value else pc.EnqNotify? || pc.EnqReturned?
  }

  predicate RegistersWaker(pc: A.Pc) {
    A.Registers(pc) || pc.RegStart? || pc.RegUnpark? || pc.RegSelf? || pc.Done?
  }

  predicate WakesWaker(pc: A.Pc) {
    A.Takes(pc) || pc.WakeStart? || pc.WakeUnpark? || pc.Done?
  }

  predicate RegistersInList(pc: L.Pc) {
    pc.RegLock? || pc.RegFlag? || pc.RegPush? || pc.Done?
  }

  predicate WakesList(pc: L.Pc) {
    pc.WakeLoad? || pc.WakeCas? || L.Drains(pc) || pc.Done?
  }

  predicate Dequeues(sp: SyncPc) {
    sp.DSpin? || sp.DSpinCall? || sp.DRegister? || sp.DRetry? || sp.DRetryCall? || sp.DPark?
  }

  /** The parts of a thread's control state fit together. */
  ghost predicate LinkOk(qp: Pc, ap: A.Pc, lp: L.Pc, sp: SyncPc, isConsumer: bool) {
    && (ap != A.Idle ==> (sp.DRegister? && RegistersWaker(ap)) || (NotifiesDequeue(qp) && WakesWaker(ap)))
    && (lp != L.Idle ==> (sp.ERegister? && RegistersInList(lp)) || (NotifiesEnqueue(qp) && WakesList(lp)))
    && (Dequeues(sp) ==> isConsumer)
    && match sp
       case Free => true
       case DSpinCall(_) => PlainDequeue(qp)
       case DRetryCall => PlainDequeue(qp)
       case ESpinCall(_, value) => EnqueueOf(qp, value)
       case ERetryCall(value) => EnqueueOf(qp, value)
       case _ => qp.Idle?
  }

  ghost predicate Linked(s: Sys, t: Tid) {
    LinkOk(s.q.PcOf(t), s.waker.PcOf(t), s.list.PcOf(t), s.SyncOf(t), t == s.consumer)
  }

  // ---------------------------------------------------------------- the consumer

  /** The thread has the consumer's waker and is about to unpark it. */
  predicate InHand(pc: A.Pc, consumer: Tid) {
    pc == A.WakeClear(Some(consumer)) || pc == A.WakeUnpark(consumer)
  }

  /** The thread still has to start the wake-up that follows its insertion or its closing. */
  predicate WillWake(qp: Pc, ap: A.Pc) {
    qp.EnqIndex? || qp.EnqInsert? || (NotifiesDequeue(qp) && (ap.Idle? || ap.WakeStart?))
  }

  ghost predicate SomeInHand(s: Sys) {
    exists t: Tid :: InHand(s.waker.PcOf(t), s.consumer)
  }

  ghost predicate SomeWillWake(s: Sys) {
    exists t: Tid :: WillWake(s.q.PcOf(t), s.waker.PcOf(t))
  }

  /** A wake-up finds the consumer. */
  ghost predicate Registered(s: Sys) {
    s.consumer in s.tokens || s.waker.cell == Some(s.consumer) || SomeInHand(s)
  }

  /** ... and one is on its way, unless none is needed. */
  ghost predicate Covered(s: Sys) {
    || s.consumer in s.tokens
    || SomeInHand(s)
    || (s.waker.cell == Some(s.consumer) && (s.waker.bits.waking || SomeWillWake(s) || Quiet(s.q)))
  }

  /** The consumer has registered and not parked and woken up since. */
  predicate PastRegister(s: Sys) {
    var sp := s.SyncOf(s.consumer);
    sp.DRetry? || sp.DRetryCall? || sp.DPark? || (sp.DRegister? && s.waker.PcOf(s.consumer).Done?)
  }

  /** The non-blocking dequeue is going to return `Empty` or `Pending`. */
  predicate GivesUp(pc: Pc) {
    Committed(pc, Empty) || Committed(pc, Pending) || pc.DeqSave?
  }

  predicate Decided(s: Sys) {
    s.SyncOf(s.consumer).DPark? || (s.SyncOf(s.consumer).DRetryCall? && GivesUp(s.q.PcOf(s.consumer)))
  }

  ghost predicate ConsumerOk(s: Sys) {
    (PastRegister(s) ==> Registered(s)) && (Decided(s) ==> Covered(s) || s.unannounced)
  }

  // ---------------------------------------------------------------- enqueuers

  /** The thread has made room or closed the queue, and its look at the waker list is still to come. */
  predicate WillWakeList(qp: Pc, lp: L.Pc) {
    || qp.DeqCapacity? || qp.CloseNotifyDequeue?
    || (NotifiesEnqueue(qp) && (lp.Idle? || lp.WakeLoad? || lp.WakeCas?))
  }

  ghost predicate SomeWillWakeList(s: Sys) {
    exists t: Tid :: WillWakeList(s.q.PcOf(t), s.list.PcOf(t))
  }

  /** The queue is open and has no room for the value; and, once the enqueuer has `checked` that, will
      have some, the capacity of the queue being large enough. */
  predicate Full(q: State, value: seq<Value>, checked: bool) {
    !q.enq.closed && q.enq.remaining < |value| && (checked ==> |value| <= q.capacity)
  }

  /** The enqueuer `t` is going to be unparked when it should look again: because there is room for its
      value or, having `checked` the capacity, because there never will be. */
  ghost predicate EnqueuerCovered(s: Sys, t: Tid, value: seq<Value>, checked: bool) {
    || t in s.tokens
    || (t in s.list.list && (Full(s.q, value, checked) || s.list.drainer.Some? || SomeWillWakeList(s)))
  }

  ghost predicate EnqueuerOk(s: Sys, t: Tid) {
    match s.SyncOf(t)
    case ERegister(_) => s.list.PcOf(t).Done? ==> t in s.tokens || t in s.list.list
    case ERetry(_) => t in s.tokens || t in s.list.list
    case ERetryCall(value) =>
      && (t in s.tokens || t in s.list.list)
      && (s.q.PcOf(t) == EnqReturned(InsufficientCapacity) ==> EnqueuerCovered(s, t, value, false))
    case ERetryCheck(value) => EnqueuerCovered(s, t, value, false)
    case EPark(value) => EnqueuerCovered(s, t, value, true)
    case _ => true
  }

  ghost predicate SysInv(s: Sys) {
    && Inv(s.q) && A.Inv(s.waker) && L.Inv(s.list)
    && (forall t: Tid :: Linked(s, t))
    && ConsumerOk(s)
    && (forall t: Tid :: EnqueuerOk(s, t))
  }

  // ---------------------------------------------------------------- what the queue guarantees

  /** Only a reservation, a close or a pre-insertion ends the quiet, and the thread that does it is
      going to wake the consumer, or is the one that pre-inserts. */
  lemma {:induction false} QuietStep(q: State, t: Tid, a: Action)
    requires Inv(q) && Enabled(q, t, a) && Quiet(q) && !Quiet(Apply(q, t, a))
    ensures var pc' := Apply(q, t, a).PcOf(t);
            pc'.EnqIndex? || pc'.CloseNotifyDequeue? || pc'.DeqAdd?
  {
    ControlFlow(q, t, a);
    var pc, pc' := q.PcOf(t), Apply(q, t, a).PcOf(t);
    if !pc'.EnqIndex? && !pc'.DeqAdd? && !a.Close? && !a.Reopen? && !pc.RelLength?
        && !(pc.DeqSwap? && pc'.DeqCapacity?) {
      QueuedStep(q, t, a);
    }
  }

  /** Only a swap, the store of the capacity after it, or a close makes room for a value or lets its
      enqueuer fail, and the thread that does it is going to wake the enqueuers. */
  lemma {:induction false} FullStep(q: State, t: Tid, a: Action, value: seq<Value>, checked: bool)
    requires Inv(q) && Enabled(q, t, a) && Full(q, value, checked) && !Full(Apply(q, t, a), value, checked)
    ensures var pc' := Apply(q, t, a).PcOf(t);
            pc'.DeqCapacity? || pc'.CloseNotifyDequeue? || (q.PcOf(t).DeqCapacity? && pc'.DeqNotify?)
  {
    var pc, pc' := q.PcOf(t), Apply(q, t, a).PcOf(t);
    if pc.DeqCapacity? {
      ControlFlow(q, t, a);
    } else {
      CapacityStep(q, t, a);
    }
    if pc'.EnqIndex? || pc'.DeqAdd? {
      KeepsFull(q, t, a, value);
    } else if !a.Close? && !a.Reopen? && !pc.RelLength? && !(pc.DeqSwap? && pc'.DeqCapacity?) {
      QueuedStep(q, t, a);
    }
  }

  /** A reservation takes room, and a pre-insertion is not visible in the enqueuing word. */
  lemma {:induction false} KeepsFull(q: State, t: Tid, a: Action, value: seq<Value>)
    requires Enabled(q, t, a) && Full(q, value, false)
    requires Apply(q, t, a).PcOf(t).EnqIndex? || Apply(q, t, a).PcOf(t).DeqAdd?
    ensures Full(Apply(q, t, a), value, false)
  {
    ControlFlow(q, t, a);
  }

  /** A call that gives up waiting leaves behind a thread that is still inserting. */
  lemma {:induction false} PendingHasInserter(q: State, t: Tid, a: Action)
    requires Inv(q) && Enabled(q, t, a) && q.PcOf(t).DeqSpin? && Apply(q, t, a).PcOf(t).DeqSave?
    ensures exists u: Tid :: q.PcOf(u).EnqIndex? || q.PcOf(u).EnqInsert?
  {
    ThreadAt(q, t);
    var i := q.PcOf(t).index;
    var side := q.At(i);
    InFlightSettled(side.own);
    assert !Settled(side.own);
    var p :| 0 <= p < |side.own| && side.own[p].Some?;
    var u := side.own[p].value;
    assert OwnersOk(q, i);
    assert Claims(q.PcOf(u), i);
    assert Holds(q.PcOf(t)) && q.holder == Some(t);
    assert u != t;
    assert !Holds(q.PcOf(u));
  }
}

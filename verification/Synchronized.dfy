/** `src/synchronized.rs`: the blocking operations, composed of the queue (module Protocol), the
    dequeuer's waker cell (module AtomicWaker) and the enqueuers' waker list (module WakerList).

    A thread in a blocking call spins on the non-blocking one, registers, tries once more and parks.
    Parking consumes the thread's token, if any; unparking sets it.  One thread, the consumer, uses
    the blocking dequeue; any number of threads use the blocking enqueue; all of them may use the
    non-blocking operations too.  Suspending an asynchronous task and scheduling it again are parking
    and unparking it. */
module Synchronized {
  import opened Options
  import opened Protocol
  import A = AtomicWaker
  import L = WakerList

  /** Where a thread is in a blocking call. */
  datatype SyncPc =
    | Free
    | DSpin(n: nat)
    | DSpinCall(n: nat)
    | DRegister
    | DRetry
    | DRetryCall
    | DPark
    | ESpin(n: nat, value: seq<Value>)
    | ESpinCall(n: nat, value: seq<Value>)
    | ESpinCheck(n: nat, value: seq<Value>)
    | ERegister(value: seq<Value>)
    | ERetry(value: seq<Value>)
    | ERetryCall(value: seq<Value>)
    | ERetryCheck(value: seq<Value>)
    | EPark(value: seq<Value>)

  /** History: `unannounced` says that a thread other than the consumer has pre-inserted values since
      the consumer last registered, and that the queue has not been quiet since. */
  datatype Sys = Sys(
    q: State,
    waker: A.State,
    list: L.State,
    sync: map<Tid, SyncPc>,
    tokens: set<Tid>,
    consumer: Tid,
    unannounced: bool
  ) {
    function SyncOf(t: Tid): SyncPc {
      if t in sync then sync[t] else Free
    }

    function Go(t: Tid, pc: SyncPc): Sys {
      this.(sync := sync[t := pc])
    }
  }

  datatype Move =
    | QueueMove(a: Action)
    | NotifyMove
    | WakerMove
    | ListMove
    | BeginDequeue
    | BeginEnqueue(value: seq<Value>)
    | CallMove
    | RegisterMove
    | ResumeMove
    | WakeUp
    | Deadline

  /** The next step of the thread is `notify_dequeue`, or `notify_enqueue`. */
  predicate NotifiesDequeue(pc: Pc) {
    pc.EnqNotify? || pc.CloseNotifyDequeue?
  }

  predicate NotifiesEnqueue(pc: Pc) {
    pc.DeqNotify? || pc.CloseNotifyEnqueue?
  }

  predicate QueueEnabled(s: Sys, t: Tid, a: Action) {
    var pc := s.q.PcOf(t);
    && Enabled(s.q, t, a)
    && !NotifiesDequeue(pc) && !NotifiesEnqueue(pc)
    && (pc.Idle? || pc.EnqReturned? || pc.DeqReturned? || pc.Slice? || pc.Iter? ==> s.SyncOf(t).Free?)
  }

  predicate ResumeEnabled(s: Sys, t: Tid) {
    var pc := s.q.PcOf(t);
    match s.SyncOf(t)
    case DSpinCall(_) => pc.DeqReturned? || pc.Slice?
    case DRetryCall => pc.DeqReturned? || pc.Slice?
    case DRegister => s.waker.PcOf(t).Done?
    case ESpinCall(_, _) => pc.EnqReturned?
    case ERetryCall(_) => pc.EnqReturned?
    case ERegister(_) => s.list.PcOf(t).Done?
    case ESpinCheck(_, _) => true
    case ERetryCheck(_) => true
    case _ => false
  }

  predicate MoveEnabled(s: Sys, t: Tid, m: Move) {
    var pc, sp := s.q.PcOf(t), s.SyncOf(t);
    match m
    case QueueMove(a) => QueueEnabled(s, t, a)
    case NotifyMove =>
      || (NotifiesDequeue(pc) && (s.waker.PcOf(t).Idle? || s.waker.PcOf(t).Done?))
      || (NotifiesEnqueue(pc) && (s.list.PcOf(t).Idle? || s.list.PcOf(t).Done?))
    case WakerMove => A.Enabled(s.waker, t, A.Advance)
    case ListMove => L.Enabled(s.list, t, L.Advance)
    case BeginDequeue => sp.Free? && pc.Idle? && t == s.consumer
    case BeginEnqueue(value) => sp.Free? && pc.Idle? && |value| < SIZE_LIMIT
    case CallMove => (sp.DSpin? || sp.DRetry? || ((sp.ESpin? || sp.ERetry?) && |sp.value| < SIZE_LIMIT)) && pc.Idle?
    case RegisterMove => (sp.DRegister? && s.waker.PcOf(t).Idle?) || (sp.ERegister? && s.list.PcOf(t).Idle?)
    case ResumeMove => ResumeEnabled(s, t)
    case WakeUp => sp.DPark? || sp.EPark?
    case Deadline => (sp.DPark? || (sp.EPark? && |sp.value| < SIZE_LIMIT)) && pc.Idle?
  }

  function Unpark(tokens: set<Tid>, who: Option<Tid>): set<Tid> {
    if who.Some? then tokens + {who.value} else tokens
  }

  /** `notify_dequeue` and `notify_enqueue` are calls into the wakers: they start, and when they have
      returned the queue operation goes on. */
  function NotifyStep(s: Sys, t: Tid): Sys
    requires MoveEnabled(s, t, NotifyMove)
  {
    if NotifiesDequeue(s.q.PcOf(t)) then
      if s.waker.PcOf(t).Idle? then s.(waker := A.Apply(s.waker, t, A.StartWake))
      else s.(waker := A.Apply(s.waker, t, A.Finish), q := Apply(s.q, t, Advance))
    else
      if s.list.PcOf(t).Idle? then s.(list := L.Apply(s.list, t, L.StartWake))
      else s.(list := L.Apply(s.list, t, L.Finish), q := Apply(s.q, t, Advance))
  }

  /** Starts the non-blocking call that a blocking one is made of. */
  function CallStep(s: Sys, t: Tid): Sys
    requires MoveEnabled(s, t, CallMove)
  {
    match s.SyncOf(t)
    case DSpin(n) => s.(q := Apply(s.q, t, StartDequeue(NoResize))).Go(t, DSpinCall(n))
    case DRetry => s.(q := Apply(s.q, t, StartDequeue(NoResize))).Go(t, DRetryCall)
    case ESpin(n, value) => s.(q := Apply(s.q, t, StartEnqueue(value))).Go(t, ESpinCall(n, value))
    case ERetry(value) => s.(q := Apply(s.q, t, StartEnqueue(value))).Go(t, ERetryCall(value))
    case _ => s
  }

  /** Where a blocking dequeue goes with the result of its non-blocking call; the call is over when
      the result is neither `Empty` nor `Pending`. */
  function AfterDequeue(pc: Pc, again: SyncPc): SyncPc {
    if pc == DeqReturned(Empty) || pc == DeqReturned(Pending) then again else Free
  }

  function AfterEnqueue(pc: Pc, again: SyncPc): SyncPc {
    if pc == EnqReturned(InsufficientCapacity) then again else Free
  }

  /** The local computation of a blocking call between two calls it makes; a value larger than the
      capacity of the queue is given up on. */
  function ResumeStep(s: Sys, t: Tid): Sys
    requires ResumeEnabled(s, t)
  {
    var pc := s.q.PcOf(t);
    var returned := if pc.DeqReturned? || pc.EnqReturned? then s.(q := Apply(s.q, t, Advance)) else s;
    match s.SyncOf(t)
    case DSpinCall(n) => returned.Go(t, AfterDequeue(pc, if n > 1 then DSpin(n - 1) else DRegister))
    case DRetryCall => returned.Go(t, AfterDequeue(pc, DPark))
    case DRegister => s.(waker := A.Apply(s.waker, t, A.Finish), unannounced := false).Go(t, DRetry)
    case ESpinCall(n, value) => returned.Go(t, AfterEnqueue(pc, ESpinCheck(n, value)))
    case ERetryCall(value) => returned.Go(t, AfterEnqueue(pc, ERetryCheck(value)))
    case ERegister(value) => s.(list := L.Apply(s.list, t, L.Finish)).Go(t, ERetry(value))
    case ESpinCheck(n, value) =>
      s.Go(t, if |value| > s.q.capacity then Free else if n > 1 then ESpin(n - 1, value) else ERegister(value))
    case ERetryCheck(value) => s.Go(t, if |value| > s.q.capacity then Free else EPark(value))
    case _ => s
  }

  /** This step of `t` inserts values into the next buffer, and `t` is not the consumer. */
  predicate PreInsertsUnannounced(s: Sys, t: Tid, a: Action)
    requires Enabled(s.q, t, a)
  {
    t != s.consumer && s.q.PcOf(t).DeqStart? && Apply(s.q, t, a).PcOf(t).DeqAdd?
  }

  /** Nothing is queued and the queue is open: the consumer has every reason to be parked. */
  predicate Quiet(q: State) {
    q.sides.zero.vals == [] && q.sides.one.vals == [] && !q.enq.closed
  }

  function QueueStep(s: Sys, t: Tid, a: Action): Sys
    requires Enabled(s.q, t, a)
  {
    var q' := Apply(s.q, t, a);
    s.(q := q', unannounced := (s.unannounced || PreInsertsUnannounced(s, t, a)) && !Quiet(q'))
  }

  function MoveStep(s: Sys, t: Tid, m: Move): Sys
    requires MoveEnabled(s, t, m)
  {
    match m
    case QueueMove(a) => QueueStep(s, t, a)
    case NotifyMove => NotifyStep(s, t)
    case WakerMove =>
      s.(waker := A.Apply(s.waker, t, A.Advance), tokens := Unpark(s.tokens, A.Unparks(t, s.waker.PcOf(t))))
    case ListMove =>
      s.(list := L.Apply(s.list, t, L.Advance), tokens := Unpark(s.tokens, L.Unparks(s.list, s.list.PcOf(t))))
    case BeginDequeue => s.Go(t, DSpin(SPIN_LIMIT))
    case BeginEnqueue(value) => s.Go(t, ESpin(SPIN_LIMIT, value))
    case CallMove => CallStep(s, t)
    case RegisterMove =>
      if s.SyncOf(t).DRegister? then s.(waker := A.Apply(s.waker, t, A.StartRegister))
      else s.(list := L.Apply(s.list, t, L.StartRegister))
    case ResumeMove => ResumeStep(s, t)
    case WakeUp =>
      s.(tokens := s.tokens - {t}).Go(t, if s.SyncOf(t).DPark? then DSpin(SPIN_LIMIT)
          else ESpin(SPIN_LIMIT, s.SyncOf(t).value))
    case Deadline =>
      s.(q := Apply(s.q, t, if s.SyncOf(t).DPark? then StartDequeue(NoResize) else StartEnqueue(s.SyncOf(t).value)))
      .Go(t, Free)
  }

  predicate Fresh(s: Sys) {
    Init(s.q) && s.waker == A.Created && s.list == L.Created && s.sync == map[] && s.tokens == {} && !s.unannounced
  }

  datatype Turn = Turn(t: Tid, m: Move)

  /** Any interleaving of any threads, from a new queue. */
  ghost predicate Run(states: seq<Sys>, turns: seq<Turn>) {
    && |states| == |turns| + 1
    && Fresh(states[0])
    && (forall k :: 0 <= k < |turns| ==>
         MoveEnabled(states[k], turns[k].t, turns[k].m) && states[k + 1] == MoveStep(states[k], turns[k].t, turns[k].m))
  }
}

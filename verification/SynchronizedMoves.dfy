/** Every move of every thread keeps the invariant of the composed system. */
module SynchronizedMoves {
  import opened Options
  import opened Protocol
  import opened ProtocolInvariant
  import opened ProtocolSteps
  import opened ProtocolFlow
  import opened ProtocolOutcomes
  import opened Synchronized
  import opened SynchronizedInvariant
  import opened SynchronizedSteps
  import A = AtomicWaker
  import L = WakerList

  /** Threads other than `t` are where they were. */
  ghost predicate OthersStay(s: Sys, s': Sys, t: Tid) {
    && s'.consumer == s.consumer
    && (forall u: Tid :: u != t ==>
         && s'.q.PcOf(u) == s.q.PcOf(u) && s'.waker.PcOf(u) == s.waker.PcOf(u)
         && s'.list.PcOf(u) == s.list.PcOf(u) && s'.SyncOf(u) == s.SyncOf(u))
  }

  /** Enqueuers other than `t` can still count on being unparked. */
  ghost predicate EnqueuersStay(s: Sys, s': Sys, t: Tid) {
    && (forall u: Tid :: u != t && (u in s.tokens || u in s.list.list) ==> u in s'.tokens || u in s'.list.list)
    && (forall u: Tid, v, c :: u != t && EnqueuerCovered(s, u, v, c) ==> EnqueuerCovered(s', u, v, c))
  }

  lemma {:induction false} LinksKept(s: Sys, s': Sys, t: Tid)
    requires (forall u: Tid :: Linked(s, u)) && OthersStay(s, s', t) && Linked(s', t)
    ensures forall u: Tid :: Linked(s', u)
  {
    forall u: Tid ensures Linked(s', u) {
      if u != t { assert Linked(s, u); }
    }
  }

  lemma {:induction false} EnqueuersKept(s: Sys, s': Sys, t: Tid)
    requires (forall u: Tid :: EnqueuerOk(s, u)) && OthersStay(s, s', t) && EnqueuersStay(s, s', t) && EnqueuerOk(s', t)
    ensures forall u: Tid :: EnqueuerOk(s', u)
  {
    forall u: Tid ensures EnqueuerOk(s', u) {
      if u != t { assert EnqueuerOk(s, u); }
    }
  }

  lemma {:induction false} Assemble(s: Sys, s': Sys, t: Tid)
    requires SysInv(s) && Inv(s'.q) && A.Inv(s'.waker) && L.Inv(s'.list)
    requires OthersStay(s, s', t) && EnqueuersStay(s, s', t)
    requires Linked(s', t) && ConsumerOk(s') && EnqueuerOk(s', t)
    ensures SysInv(s')
  {
    LinksKept(s, s', t);
    EnqueuersKept(s, s', t);
  }

  // ---------------------------------------------------------------- steps of the queue

  lemma {:induction false} QueueEnqueuersStay(s: Sys, s': Sys, t: Tid, a: Action)
    requires SysInv(s) && QueueMoved(s, s', t, a) && NotWaking(s, s', t)
    ensures EnqueuersStay(s, s', t)
  {
    assert Linked(s, t);
    forall u: Tid, v, c | u != t && EnqueuerCovered(s, u, v, c) ensures EnqueuerCovered(s', u, v, c) {
      QueueKeepsEnqueuer(s, s', t, a, u, v, c);
    }
  }

  lemma {:induction false} NoPreInsertionStep(s: Sys, t: Tid, a: Action)
    requires Enabled(s.q, t, a) && (PlainDequeue(s.q.PcOf(t)) || s.q.PcOf(t).Idle?)
    ensures !Apply(s.q, t, a).PcOf(t).DeqAdd?
  {
    ControlFlow(s.q, t, a);
  }

  lemma {:induction false} OtherQueueStep(s: Sys, s': Sys, t: Tid, a: Action)
    requires SysInv(s) && QueueMoved(s, s', t, a) && NotWaking(s, s', t) && OthersStay(s, s', t) && t != s.consumer
    ensures ConsumerOk(s')
  {
    assert Linked(s, t);
    QueueKeepsCovered(s, s', t, a);
  }

  /** When the consumer's last attempt fails, a wake-up is on its way or none is needed. */
  lemma {:induction false} GivingUpIsCovered(s: Sys, a: Action)
    requires Inv(s.q) && Linked(s, s.consumer) && Registered(s) && Enabled(s.q, s.consumer, a)
    requires s.SyncOf(s.consumer).DRetryCall? && !GivesUp(s.q.PcOf(s.consumer))
    requires GivesUp(Apply(s.q, s.consumer, a).PcOf(s.consumer))
    ensures Covered(s)
  {
    var c := s.consumer;
    ControlFlow(s.q, c, a);
    if Committed(Apply(s.q, c, a).PcOf(c), Empty) {
      CommitStep(s.q, c, a, Empty);
      assert Quiet(s.q);
    } else {
      GivesUpFrom(s.q.PcOf(c), Apply(s.q, c, a).PcOf(c));
      PendingHasInserter(s.q, c, a);
      var u: Tid :| s.q.PcOf(u).EnqIndex? || s.q.PcOf(u).EnqInsert?;
      assert WillWake(s.q.PcOf(u), s.waker.PcOf(u));
    }
  }

  lemma {:induction false} GivesUpFrom(pc: Pc, pc': Pc)
    requires Follows(pc, pc') && !GivesUp(pc) && GivesUp(pc') && !Committed(pc', Empty)
    ensures pc.DeqSpin? && pc'.DeqSave?
  {
  }

  lemma {:induction false} ConsumerQueueStep(s: Sys, s': Sys, a: Action)
    requires Inv(s.q) && Linked(s, s.consumer) && ConsumerOk(s)
    requires QueueMoved(s, s', s.consumer, a) && NotWaking(s, s', s.consumer)
    requires s'.SyncOf(s.consumer) == s.SyncOf(s.consumer)
    ensures ConsumerOk(s')
  {
    var c := s.consumer;
    if PastRegister(s') {
      NoPreInsertionStep(s, c, a);
      QueueKeepsCovered(s, s', c, a);
      if Decided(s') && !Decided(s) {
        NowDecided(s, s', a);
      }
    }
  }

  lemma {:induction false} NowDecided(s: Sys, s': Sys, a: Action)
    requires Inv(s.q) && Linked(s, s.consumer) && ConsumerOk(s) && QueueMoved(s, s', s.consumer, a)
    requires s'.SyncOf(s.consumer) == s.SyncOf(s.consumer) && Decided(s') && !Decided(s)
    ensures Covered(s)
  {
    GivingUpIsCovered(s, a);
  }

  lemma {:induction false} PlainFollows(pc: Pc, pc': Pc)
    requires Follows(pc, pc') && PlainDequeue(pc) && !pc.DeqReturned? && !pc.Slice?
    ensures PlainDequeue(pc')
  {
  }

  lemma {:induction false} EnqueueFollowsOn(pc: Pc, pc': Pc, value: seq<Value>)
    requires Follows(pc, pc') && EnqueueOf(pc, value) && !pc.EnqReturned?
    ensures EnqueueOf(pc', value)
  {
  }

  /** The control state of a thread after a step of its own in the queue. */
  lemma {:induction false} QueueLink(s: Sys, s': Sys, t: Tid, a: Action)
    requires Linked(s, t) && QueueEnabled(s, t, a) && s' == QueueStep(s, t, a)
    ensures Linked(s', t) && NotWaking(s, s', t) && QueueMoved(s, s', t, a)
  {
    var pc, pc', sp := s.q.PcOf(t), s'.q.PcOf(t), s.SyncOf(t);
    ControlFlow(s.q, t, a);
    if sp.DSpinCall? || sp.DRetryCall? {
      PlainFollows(pc, pc');
    } else if sp.ESpinCall? || sp.ERetryCall? {
      EnqueueFollowsOn(pc, pc', sp.value);
    }
  }

  lemma {:induction false} QueueOthersStay(s: Sys, s': Sys, t: Tid, a: Action)
    requires Enabled(s.q, t, a) && s'.q == Apply(s.q, t, a) && s'.consumer == s.consumer
    requires forall u: Tid :: u != t ==>
               s'.waker.PcOf(u) == s.waker.PcOf(u) && s'.list.PcOf(u) == s.list.PcOf(u) && s'.SyncOf(u) == s.SyncOf(u)
    ensures OthersStay(s, s', t)
  {
    forall u: Tid | u != t ensures s'.q.PcOf(u) == s.q.PcOf(u) {
      OnlyMover(s.q, t, a, u);
    }
  }

  lemma {:induction false} QueueMoveConsumer(s: Sys, s': Sys, t: Tid, a: Action)
    requires SysInv(s) && QueueMoved(s, s', t, a) && NotWaking(s, s', t) && OthersStay(s, s', t)
    requires s'.SyncOf(t) == s.SyncOf(t)
    ensures ConsumerOk(s')
  {
    ThreadLinked(s, s.consumer);
    if t == s.consumer {
      ConsumerQueueStep(s, s', a);
    } else {
      OtherQueueStep(s, s', t, a);
    }
  }

  /** A step of `t` in the queue, its control state being in order. */
  lemma {:induction false} QueueLikeKeeps(s: Sys, s': Sys, t: Tid, a: Action)
    requires SysInv(s) && QueueMoved(s, s', t, a) && NotWaking(s, s', t) && s'.sync == s.sync
    requires A.Inv(s'.waker) && L.Inv(s'.list) && Linked(s', t) && EnqueuerOk(s', t)
    ensures SysInv(s')
  {
    QueueLikeFacts(s, s', t, a);
    StepKeeps(s.q, t, a);
    Assemble(s, s', t);
  }

  lemma {:induction false} QueueLikeFacts(s: Sys, s': Sys, t: Tid, a: Action)
    requires SysInv(s) && QueueMoved(s, s', t, a) && NotWaking(s, s', t) && s'.sync == s.sync
    ensures OthersStay(s, s', t) && EnqueuersStay(s, s', t) && ConsumerOk(s')
  {
    QueueOthersStay(s, s', t, a);
    QueueEnqueuersStay(s, s', t, a);
    QueueMoveConsumer(s, s', t, a);
  }

  lemma {:induction false} QueueMoveKeeps(s: Sys, t: Tid, a: Action)
    requires SysInv(s) && QueueEnabled(s, t, a)
    ensures SysInv(QueueStep(s, t, a))
  {
    var s' := QueueStep(s, t, a);
    QueueLink(s, s', t, a);
    QueueMoveEnqueuer(s, s', t, a);
    QueueLikeKeeps(s, s', t, a);
  }

  /** The enqueuer whose last attempt fails is in the list, and the queue is full. */
  lemma {:induction false} QueueMoveEnqueuer(s: Sys, s': Sys, t: Tid, a: Action)
    requires SysInv(s) && QueueEnabled(s, t, a) && s' == QueueStep(s, t, a)
    ensures EnqueuerOk(s', t)
  {
    assert Linked(s, t) && EnqueuerOk(s, t);
    var sp := s.SyncOf(t);
    if sp.ERetryCall? && s'.q.PcOf(t) == EnqReturned(InsufficientCapacity) {
      ControlFlow(s.q, t, a);
      FailedEnqueue(s.q, t, a, sp.value);
    }
  }

  lemma {:induction false} FailedEnqueue(q: State, t: Tid, a: Action, value: seq<Value>)
    requires Enabled(q, t, a) && EnqueueOf(q.PcOf(t), value) && !q.PcOf(t).EnqReturned?
    requires Apply(q, t, a).PcOf(t) == EnqReturned(InsufficientCapacity)
    ensures Full(Apply(q, t, a), value, false)
  {
  }

  // ---------------------------------------------------------------- starting and finishing wake-ups

  lemma {:induction false} WakerFinish(w: A.State, t: Tid)
    requires A.Inv(w) && w.PcOf(t).Done?
    ensures var w' := A.Apply(w, t, A.Finish);
            && A.Inv(w') && w'.cell == w.cell && w'.bits == w.bits && w'.PcOf(t).Idle?
            && (forall u: Tid :: u != t ==> w'.PcOf(u) == w.PcOf(u))
  {
  }

  lemma {:induction false} ListFinish(l: L.State, t: Tid)
    requires L.Inv(l) && l.PcOf(t).Done?
    ensures var l' := L.Apply(l, t, L.Finish);
            && L.Inv(l') && l'.list == l.list && l'.drainer == l.drainer && l'.PcOf(t).Idle?
            && (forall u: Tid :: u != t ==> l'.PcOf(u) == l.PcOf(u))
  {
  }

  lemma {:induction false} NotifiedDequeue(s: Sys, t: Tid)
    requires SysInv(s) && Enabled(s.q, t, Advance) && NotifiesDequeue(s.q.PcOf(t)) && s.waker.PcOf(t).Done?
    ensures SysInv(s.(waker := A.Apply(s.waker, t, A.Finish), q := Apply(s.q, t, Advance)))
  {
    var s' := s.(waker := A.Apply(s.waker, t, A.Finish), q := Apply(s.q, t, Advance));
    WakerFinish(s.waker, t);
    ThreadLinked(s, t);
    NotifiedDequeueLink(s, s', t);
    NotifiedMoved(s, s', t);
    QueueLikeKeeps(s, s', t, Advance);
  }

  lemma {:induction false} NotifiedDequeueLink(s: Sys, s': Sys, t: Tid)
    requires Linked(s, t) && EnqueuerOk(s, t) && Enabled(s.q, t, Advance) && NotifiesDequeue(s.q.PcOf(t))
    requires s' == s.(waker := s'.waker, q := Apply(s.q, t, Advance)) && s'.waker.PcOf(t).Idle?
    ensures Linked(s', t) && EnqueuerOk(s', t) && s.list.PcOf(t).Idle?
  {
    ControlFlow(s.q, t, Advance);
  }

  lemma {:induction false} NotifiedEnqueue(s: Sys, t: Tid)
    requires SysInv(s) && Enabled(s.q, t, Advance) && NotifiesEnqueue(s.q.PcOf(t)) && s.list.PcOf(t).Done?
    ensures SysInv(s.(list := L.Apply(s.list, t, L.Finish), q := Apply(s.q, t, Advance)))
  {
    var s' := s.(list := L.Apply(s.list, t, L.Finish), q := Apply(s.q, t, Advance));
    ListFinish(s.list, t);
    ThreadLinked(s, t);
    NotifiedEnqueueLink(s, s', t);
    NotifiedMoved(s, s', t);
    QueueLikeKeeps(s, s', t, Advance);
  }

  /** The notification has returned, and the queue operation goes on. */
  lemma {:induction false} NotifiedMoved(s: Sys, s': Sys, t: Tid)
    requires Enabled(s.q, t, Advance) && s' == s.(waker := s'.waker, list := s'.list, q := Apply(s.q, t, Advance))
    requires s'.waker.cell == s.waker.cell && s'.waker.bits == s.waker.bits
    requires s'.list.list == s.list.list && s'.list.drainer == s.list.drainer
    requires forall u: Tid :: u != t ==> s'.waker.PcOf(u) == s.waker.PcOf(u) && s'.list.PcOf(u) == s.list.PcOf(u)
    requires
      || (NotifiesEnqueue(s.q.PcOf(t)) && s.list.PcOf(t).Done? && s'.list.PcOf(t).Idle? && s'.waker == s.waker)
      || (NotifiesDequeue(s.q.PcOf(t)) && s.waker.PcOf(t).Done? && s'.waker.PcOf(t).Idle? && s'.list == s.list)
    ensures QueueMoved(s, s', t, Advance) && NotWaking(s, s', t)
  {
    ControlFlow(s.q, t, Advance);
  }

  lemma {:induction false} NotifiedEnqueueLink(s: Sys, s': Sys, t: Tid)
    requires Linked(s, t) && EnqueuerOk(s, t) && Enabled(s.q, t, Advance) && NotifiesEnqueue(s.q.PcOf(t))
    requires s' == s.(list := s'.list, q := Apply(s.q, t, Advance)) && s'.list.PcOf(t).Idle?
    ensures Linked(s', t) && EnqueuerOk(s', t) && s.waker.PcOf(t).Idle?
  {
    ControlFlow(s.q, t, Advance);
    if s.SyncOf(t).DSpinCall? || s.SyncOf(t).DRetryCall? {
      PlainFollows(s.q.PcOf(t), s'.q.PcOf(t));
    }
  }

  // ---------------------------------------------------------------- steps of the wakers

  /** More tokens and nothing else for the enqueuers. */
  lemma {:induction false} MoreTokens(s: Sys, s': Sys)
    requires s.tokens <= s'.tokens && s'.q == s.q && s'.list == s.list && s'.sync == s.sync
    ensures forall u: Tid, v, c :: EnqueuerCovered(s, u, v, c) ==> EnqueuerCovered(s', u, v, c)
    ensures forall u: Tid :: EnqueuerOk(s, u) ==> EnqueuerOk(s', u)
  {
  }

  lemma {:induction false} WakerMoveConsumer(s: Sys, s': Sys, t: Tid)
    requires A.Inv(s.waker) && (forall u: Tid :: Linked(s, u)) && ConsumerOk(s) && WakerMoved(s, s', t)
    ensures ConsumerOk(s')
  {
    assert Linked(s, t);
    if RegistersWaker(s.waker.PcOf(t)) {
      RegistrarIsConsumer(s, t);
      if s'.waker.PcOf(t).Done? {
        RegistrationRegisters(s, s');
      }
    } else {
      WakerKeepsCovered(s, s', t);
      if s.consumer != t {
        OnlyWakerMover(s.waker, t, A.Advance, s.consumer);
      }
    }
  }

  lemma {:induction false} WakerLink(s: Sys, s': Sys, t: Tid)
    requires Linked(s, t) && WakerMoved(s, s', t)
    ensures Linked(s', t)
  {
  }

  lemma {:induction false} WakerMoveKeeps(s: Sys, s': Sys, t: Tid)
    requires SysInv(s) && WakerMoved(s, s', t)
    ensures SysInv(s')
  {
    A.StepKeeps(s.waker, t, A.Advance);
    WakerLink(s, s', t);
    WakerMoveConsumer(s, s', t);
    MoreTokens(s, s');
    forall u: Tid | u != t ensures s'.waker.PcOf(u) == s.waker.PcOf(u) {
      OnlyWakerMover(s.waker, t, A.Advance, u);
    }
    Assemble(s, s', t);
  }

  lemma {:induction false} ListMoveConsumer(s: Sys, s': Sys)
    requires ConsumerOk(s) && s' == s.(list := s'.list, tokens := s'.tokens) && s.tokens <= s'.tokens
    ensures ConsumerOk(s')
  {
  }

  lemma {:induction false} ListLink(s: Sys, s': Sys, t: Tid)
    requires Linked(s, t) && EnqueuerOk(s, t) && ListMoved(s, s', t)
    ensures Linked(s', t) && EnqueuerOk(s', t)
  {
  }

  lemma {:induction false} ListMoveKeeps(s: Sys, s': Sys, t: Tid)
    requires SysInv(s) && ListMoved(s, s', t)
    ensures SysInv(s')
  {
    L.StepKeeps(s.list, t, L.Advance);
    ListLink(s, s', t);
    ListMoveConsumer(s, s');
    ListEnqueuersStay(s, s', t);
    forall u: Tid | u != t ensures s'.list.PcOf(u) == s.list.PcOf(u) {
      OnlyListMover(s.list, t, L.Advance, u);
    }
    Assemble(s, s', t);
  }

  lemma {:induction false} ListEnqueuersStay(s: Sys, s': Sys, t: Tid)
    requires L.Inv(s.list) && Linked(s, t) && ListMoved(s, s', t)
    ensures EnqueuersStay(s, s', t)
  {
  }

  // ---------------------------------------------------------------- moves that change only where a thread is

  /** The queue, the cell and the list are as they were; `t` has moved and may have used its token. */
  ghost predicate ControlMoved(s: Sys, s': Sys, t: Tid) {
    && s'.q == s.q && s'.consumer == s.consumer
    && s'.waker.cell == s.waker.cell && s'.waker.bits == s.waker.bits
    && s'.list.list == s.list.list && s'.list.drainer == s.list.drainer
    && s.tokens - {t} <= s'.tokens
    && (Decided(s') && s.unannounced ==> s'.unannounced)
    && OthersStay(s, s', t)
    && !InHand(s.waker.PcOf(t), s.consumer)
    && (WillWake(s.q.PcOf(t), s.waker.PcOf(t)) ==> WillWake(s.q.PcOf(t), s'.waker.PcOf(t)))
    && (WillWakeList(s.q.PcOf(t), s.list.PcOf(t)) ==> WillWakeList(s.q.PcOf(t), s'.list.PcOf(t)))
  }

  lemma {:induction false} ControlEnqueuersStay(s: Sys, s': Sys, t: Tid)
    requires ControlMoved(s, s', t)
    ensures EnqueuersStay(s, s', t)
  {
  }

  lemma {:induction false} ControlConsumer(s: Sys, s': Sys, t: Tid)
    requires ControlMoved(s, s', t) && ConsumerOk(s)
    requires t == s.consumer ==>
               && (PastRegister(s') ==> PastRegister(s) && s.tokens <= s'.tokens)
               && (Decided(s') ==> Decided(s))
    ensures ConsumerOk(s')
  {
  }

  lemma {:induction false} ControlKeeps(s: Sys, s': Sys, t: Tid)
    requires SysInv(s) && ControlMoved(s, s', t) && A.Inv(s'.waker) && L.Inv(s'.list)
    requires t == s.consumer ==>
               && (PastRegister(s') ==> PastRegister(s) && s.tokens <= s'.tokens)
               && (Decided(s') ==> Decided(s))
    requires Linked(s', t) && EnqueuerOk(s', t)
    ensures SysInv(s')
  {
    ControlConsumer(s, s', t);
    ControlEnqueuersStay(s, s', t);
    Assemble(s, s', t);
  }

  lemma {:induction false} WakerStart(w: A.State, t: Tid, a: A.Action)
    requires A.Inv(w) && w.PcOf(t).Idle? && A.Enabled(w, t, a)
    ensures var w' := A.Apply(w, t, a);
            && A.Inv(w') && w'.cell == w.cell && w'.bits == w.bits
            && w'.PcOf(t) == (if a.StartRegister? then A.RegStart else A.WakeStart)
            && (forall u: Tid :: u != t ==> w'.PcOf(u) == w.PcOf(u))
  {
  }

  lemma {:induction false} ListStart(l: L.State, t: Tid, a: L.Action)
    requires L.Inv(l) && l.PcOf(t).Idle? && L.Enabled(l, t, a)
    ensures var l' := L.Apply(l, t, a);
            && L.Inv(l') && l'.list == l.list && l'.drainer == l.drainer
            && l'.PcOf(t) == (if a.StartRegister? then L.RegLock else L.WakeLoad)
            && (forall u: Tid :: u != t ==> l'.PcOf(u) == l.PcOf(u))
  {
  }

  /** The cell and everybody else are as before; `t` has started an operation on the waker. */
  ghost predicate WakerStarted(w: A.State, w': A.State, t: Tid) {
    && A.Inv(w') && w'.cell == w.cell && w'.bits == w.bits
    && (forall u: Tid :: u != t ==> w'.PcOf(u) == w.PcOf(u))
  }

  lemma {:induction false} StartWakerKeeps(s: Sys, s': Sys, t: Tid)
    requires SysInv(s) && s' == s.(waker := s'.waker) && s.waker.PcOf(t).Idle? && WakerStarted(s.waker, s'.waker, t)
    requires
      || (s'.waker.PcOf(t) == A.WakeStart && NotifiesDequeue(s.q.PcOf(t)))
      || (s'.waker.PcOf(t) == A.RegStart && s.SyncOf(t).DRegister?)
    ensures SysInv(s')
  {
    ThreadLinked(s, t);
    StartWakerLink(s, s', t);
    StartWakerEnqueuer(s, s', t);
    StartWakerControl(s, s', t);
    ControlKeeps(s, s', t);
  }

  lemma {:induction false} ThreadLinked(s: Sys, t: Tid)
    requires SysInv(s)
    ensures Linked(s, t) && EnqueuerOk(s, t)
  {
  }

  lemma {:induction false} StartWakerControl(s: Sys, s': Sys, t: Tid)
    requires s' == s.(waker := s'.waker) && s.waker.PcOf(t).Idle? && WakerStarted(s.waker, s'.waker, t)
    requires s'.waker.PcOf(t) == A.WakeStart || (s'.waker.PcOf(t) == A.RegStart && !WillWake(s.q.PcOf(t), A.Idle))
    ensures ControlMoved(s, s', t)
  {
  }

  lemma {:induction false} StartWakeKeeps(s: Sys, t: Tid)
    requires SysInv(s) && s.waker.PcOf(t).Idle? && NotifiesDequeue(s.q.PcOf(t))
    ensures SysInv(s.(waker := A.Apply(s.waker, t, A.StartWake)))
  {
    WakerStart(s.waker, t, A.StartWake);
    StartWakerKeeps(s, s.(waker := A.Apply(s.waker, t, A.StartWake)), t);
  }

  lemma {:induction false} StartRegisterKeeps(s: Sys, t: Tid)
    requires SysInv(s) && s.waker.PcOf(t).Idle? && s.SyncOf(t).DRegister?
    ensures SysInv(s.(waker := A.Apply(s.waker, t, A.StartRegister)))
  {
    WakerStart(s.waker, t, A.StartRegister);
    StartWakerKeeps(s, s.(waker := A.Apply(s.waker, t, A.StartRegister)), t);
  }

  lemma {:induction false} StartWakerLink(s: Sys, s': Sys, t: Tid)
    requires Linked(s, t) && s' == s.(waker := s'.waker) && s.waker.PcOf(t).Idle?
    requires
      || (s'.waker.PcOf(t) == A.WakeStart && NotifiesDequeue(s.q.PcOf(t)))
      || (s'.waker.PcOf(t) == A.RegStart && s.SyncOf(t).DRegister?)
    ensures Linked(s', t)
    ensures t == s.consumer ==> (PastRegister(s') ==> PastRegister(s)) && (Decided(s') ==> Decided(s))
  {
  }

  lemma {:induction false} StartWakerEnqueuer(s: Sys, s': Sys, t: Tid)
    requires EnqueuerOk(s, t) && s' == s.(waker := s'.waker)
    ensures EnqueuerOk(s', t)
  {
  }

  lemma {:induction false} StartListKeeps(s: Sys, t: Tid, a: L.Action)
    requires SysInv(s) && s.list.PcOf(t).Idle?
    requires (a.StartWake? && NotifiesEnqueue(s.q.PcOf(t))) || (a.StartRegister? && s.SyncOf(t).ERegister?)
    ensures SysInv(s.(list := L.Apply(s.list, t, a)))
  {
    ListStart(s.list, t, a);
    StartedListKeeps(s, s.(list := L.Apply(s.list, t, a)), t);
  }

  /** The list and everybody else are as before; `t` has started an operation on the list. */
  ghost predicate ListStarted(l: L.State, l': L.State, t: Tid) {
    && L.Inv(l') && l'.list == l.list && l'.drainer == l.drainer
    && (forall u: Tid :: u != t ==> l'.PcOf(u) == l.PcOf(u))
  }

  lemma {:induction false} StartedListKeeps(s: Sys, s': Sys, t: Tid)
    requires SysInv(s) && s' == s.(list := s'.list) && s.list.PcOf(t).Idle? && ListStarted(s.list, s'.list, t)
    requires
      || (s'.list.PcOf(t) == L.WakeLoad && NotifiesEnqueue(s.q.PcOf(t)))
      || (s'.list.PcOf(t) == L.RegLock && s.SyncOf(t).ERegister?)
    ensures SysInv(s')
  {
    ThreadLinked(s, t);
    StartListLink(s, s', t);
    StartListControl(s, s', t);
    ControlKeeps(s, s', t);
  }

  lemma {:induction false} StartListControl(s: Sys, s': Sys, t: Tid)
    requires s' == s.(list := s'.list) && s.list.PcOf(t).Idle? && ListStarted(s.list, s'.list, t)
    requires !InHand(s.waker.PcOf(t), s.consumer)
    requires s'.list.PcOf(t) == L.WakeLoad || (s'.list.PcOf(t) == L.RegLock && !WillWakeList(s.q.PcOf(t), L.Idle))
    ensures ControlMoved(s, s', t)
  {
  }

  lemma {:induction false} StartListLink(s: Sys, s': Sys, t: Tid)
    requires Linked(s, t) && s' == s.(list := s'.list) && s.list.PcOf(t).Idle?
    requires
      || (s'.list.PcOf(t) == L.WakeLoad && NotifiesEnqueue(s.q.PcOf(t)))
      || (s'.list.PcOf(t) == L.RegLock && s.SyncOf(t).ERegister?)
    ensures Linked(s', t) && EnqueuerOk(s', t) && !InHand(s.waker.PcOf(t), s.consumer)
  {
  }

  // ---------------------------------------------------------------- moves of a blocking call between its calls

  /** A move of `t` that changes only its place in the blocking call. */
  lemma {:induction false} SyncMoveKeeps(s: Sys, s': Sys, t: Tid, sp': SyncPc)
    requires SysInv(s) && s' == s.(tokens := s'.tokens).Go(t, sp') && s.tokens - {t} <= s'.tokens
    requires s.q.PcOf(t).Idle? && s.waker.PcOf(t).Idle? && s.list.PcOf(t).Idle?
    requires Dequeues(sp') ==> t == s.consumer
    requires !sp'.DSpinCall? && !sp'.DRetryCall? && !sp'.DRetry? && !sp'.DPark? && !sp'.ESpinCall? && !sp'.ERetryCall?
    requires EnqueuerOk(s', t)
    ensures SysInv(s')
  {
    assert Linked(s', t) by { assert Linked(s, t); }
    ControlKeeps(s, s', t);
  }

  /** The registration of the consumer is over: it tries once more. */
  lemma {:induction false} RegisteredKeeps(s: Sys, t: Tid)
    requires SysInv(s) && s.SyncOf(t).DRegister? && s.waker.PcOf(t).Done?
    ensures SysInv(s.(waker := A.Apply(s.waker, t, A.Finish), unannounced := false).Go(t, DRetry))
  {
    var s' := s.(waker := A.Apply(s.waker, t, A.Finish), unannounced := false).Go(t, DRetry);
    WakerFinish(s.waker, t);
    assert Linked(s, t);
    ControlKeeps(s, s', t);
  }

  lemma {:induction false} ListedKeeps(s: Sys, t: Tid, value: seq<Value>)
    requires SysInv(s) && s.SyncOf(t) == ERegister(value) && s.list.PcOf(t).Done?
    ensures SysInv(s.(list := L.Apply(s.list, t, L.Finish)).Go(t, ERetry(value)))
  {
    var s' := s.(list := L.Apply(s.list, t, L.Finish)).Go(t, ERetry(value));
    ListFinish(s.list, t);
    ListedLink(s, s', t, value);
    ListedControl(s, s', t);
    ControlKeeps(s, s', t);
  }

  lemma {:induction false} ListedControl(s: Sys, s': Sys, t: Tid)
    requires s' == s.(list := s'.list).Go(t, s'.SyncOf(t)) && s.waker.PcOf(t).Idle? && s.q.PcOf(t).Idle?
    requires s'.list.list == s.list.list && s'.list.drainer == s.list.drainer && !Dequeues(s'.SyncOf(t))
    requires forall u: Tid :: u != t ==> s'.list.PcOf(u) == s.list.PcOf(u)
    ensures ControlMoved(s, s', t)
  {
  }

  lemma {:induction false} ListedLink(s: Sys, s': Sys, t: Tid, value: seq<Value>)
    requires Linked(s, t) && EnqueuerOk(s, t) && s.SyncOf(t) == ERegister(value) && s.list.PcOf(t).Done?
    requires s' == s.(list := s'.list).Go(t, ERetry(value)) && s'.list.PcOf(t).Idle? && s'.list.list == s.list.list
    ensures Linked(s', t) && EnqueuerOk(s', t) && s.waker.PcOf(t).Idle? && s.q.PcOf(t).Idle?
  {
  }

  // ---------------------------------------------------------------- calls into the queue

  /** A step in the queue that starts or ends a call made by a blocking operation. */
  ghost predicate CallMoved(s: Sys, s': Sys, t: Tid, a: Action, sp': SyncPc) {
    && Enabled(s.q, t, a)
    && s' == s.(q := Apply(s.q, t, a)).Go(t, sp')
    && (s.q.PcOf(t).Idle? || s.q.PcOf(t).EnqReturned? || s.q.PcOf(t).DeqReturned?)
    && s.waker.PcOf(t).Idle? && s.list.PcOf(t).Idle?
  }

  lemma {:induction false} CallKeeps(s: Sys, s': Sys, t: Tid, a: Action, sp': SyncPc)
    requires SysInv(s) && CallMoved(s, s', t, a, sp')
    requires Linked(s', t) && EnqueuerOk(s', t)
    requires t == s.consumer ==> (PastRegister(s') ==> PastRegister(s)) && (Decided(s') ==> Decided(s))
    ensures SysInv(s')
  {
    CallFacts(s, s', t, a, sp');
    StepKeeps(s.q, t, a);
    Assemble(s, s', t);
  }

  lemma {:induction false} CallFacts(s: Sys, s': Sys, t: Tid, a: Action, sp': SyncPc)
    requires SysInv(s) && CallMoved(s, s', t, a, sp')
    requires t == s.consumer ==> (PastRegister(s') ==> PastRegister(s)) && (Decided(s') ==> Decided(s))
    ensures OthersStay(s, s', t) && EnqueuersStay(s, s', t) && ConsumerOk(s')
  {
    ThreadLinked(s, t);
    CallIsQueueMove(s, s', t, a, sp');
    QueueOthersStay(s, s', t, a);
    QueueEnqueuersStay(s, s', t, a);
    if t == s.consumer {
      CallConsumer(s, s', a, sp');
    } else {
      OtherQueueStep(s, s', t, a);
    }
  }

  lemma {:induction false} CallIsQueueMove(s: Sys, s': Sys, t: Tid, a: Action, sp': SyncPc)
    requires CallMoved(s, s', t, a, sp') && Linked(s, t)
    ensures QueueMoved(s, s', t, a) && NotWaking(s, s', t)
    ensures forall u: Tid :: u != t ==> s'.SyncOf(u) == s.SyncOf(u)
  {
    ControlFlow(s.q, t, a);
  }

  lemma {:induction false} CallConsumer(s: Sys, s': Sys, a: Action, sp': SyncPc)
    requires Inv(s.q) && Linked(s, s.consumer) && ConsumerOk(s) && CallMoved(s, s', s.consumer, a, sp')
    requires (PastRegister(s') ==> PastRegister(s)) && (Decided(s') ==> Decided(s))
    ensures ConsumerOk(s')
  {
    CallIsQueueMove(s, s', s.consumer, a, sp');
    ControlFlow(s.q, s.consumer, a);
    QueueKeepsCovered(s, s', s.consumer, a);
  }

  lemma {:induction false} CallMoveKeeps(s: Sys, t: Tid)
    requires SysInv(s) && MoveEnabled(s, t, CallMove)
    ensures SysInv(CallStep(s, t))
  {
    var s' := CallStep(s, t);
    CallLink(s, s', t);
    if s.SyncOf(t).DSpin? || s.SyncOf(t).DRetry? {
      CallDequeue(s, s', t);
    } else {
      CallEnqueue(s, s', t);
    }
  }

  lemma {:induction false} CallDequeue(s: Sys, s': Sys, t: Tid)
    requires SysInv(s) && MoveEnabled(s, t, CallMove) && s' == CallStep(s, t) && Linked(s', t) && EnqueuerOk(s', t)
    requires t == s.consumer ==> (PastRegister(s') ==> PastRegister(s)) && (Decided(s') ==> Decided(s))
    requires s.waker.PcOf(t).Idle? && s.list.PcOf(t).Idle?
    requires s.SyncOf(t).DSpin? || s.SyncOf(t).DRetry?
    ensures SysInv(s')
  {
    CallKeeps(s, s', t, StartDequeue(NoResize), if s.SyncOf(t).DSpin? then DSpinCall(s.SyncOf(t).n) else DRetryCall);
  }

  lemma {:induction false} CallEnqueue(s: Sys, s': Sys, t: Tid)
    requires SysInv(s) && MoveEnabled(s, t, CallMove) && s' == CallStep(s, t) && Linked(s', t) && EnqueuerOk(s', t)
    requires t == s.consumer ==> (PastRegister(s') ==> PastRegister(s)) && (Decided(s') ==> Decided(s))
    requires s.waker.PcOf(t).Idle? && s.list.PcOf(t).Idle?
    requires s.SyncOf(t).ESpin? || s.SyncOf(t).ERetry?
    ensures SysInv(s')
  {
    var value := s.SyncOf(t).value;
    var sp' := if s.SyncOf(t).ESpin? then ESpinCall(s.SyncOf(t).n, value) else ERetryCall(value);
    EnqueueCalled(s, s', t, value, sp');
    CallKeeps(s, s', t, StartEnqueue(value), sp');
  }

  lemma {:induction false} EnqueueCalled(s: Sys, s': Sys, t: Tid, value: seq<Value>, sp': SyncPc)
    requires MoveEnabled(s, t, CallMove) && s' == CallStep(s, t) && s.waker.PcOf(t).Idle? && s.list.PcOf(t).Idle?
    requires (s.SyncOf(t).ESpin? && sp' == ESpinCall(s.SyncOf(t).n, value))
             || (s.SyncOf(t).ERetry? && sp' == ERetryCall(value))
    requires value == s.SyncOf(t).value
    ensures CallMoved(s, s', t, StartEnqueue(value), sp')
  {
  }

  lemma {:induction false} CallLink(s: Sys, s': Sys, t: Tid)
    requires Linked(s, t) && EnqueuerOk(s, t) && MoveEnabled(s, t, CallMove) && s' == CallStep(s, t)
    ensures Linked(s', t) && EnqueuerOk(s', t) && s.waker.PcOf(t).Idle? && s.list.PcOf(t).Idle?
    ensures t == s.consumer ==> (PastRegister(s') ==> PastRegister(s)) && (Decided(s') ==> Decided(s))
  {
    if s.SyncOf(t).DSpin? || s.SyncOf(t).DRetry? {
      DequeueCallLink(s, s', t);
    } else {
      EnqueueCallLink(s, s', t);
    }
  }

  lemma {:induction false} DequeueCallLink(s: Sys, s': Sys, t: Tid)
    requires Linked(s, t) && MoveEnabled(s, t, CallMove) && (s.SyncOf(t).DSpin? || s.SyncOf(t).DRetry?)
    requires s' == CallStep(s, t)
    ensures Linked(s', t) && EnqueuerOk(s', t) && s.waker.PcOf(t).Idle? && s.list.PcOf(t).Idle?
    ensures t == s.consumer ==> (PastRegister(s') ==> PastRegister(s)) && (Decided(s') ==> Decided(s))
  {
  }

  lemma {:induction false} EnqueueCallLink(s: Sys, s': Sys, t: Tid)
    requires Linked(s, t) && EnqueuerOk(s, t) && MoveEnabled(s, t, CallMove)
             && (s.SyncOf(t).ESpin? || s.SyncOf(t).ERetry?)
    requires s' == CallStep(s, t)
    ensures Linked(s', t) && EnqueuerOk(s', t) && s.waker.PcOf(t).Idle? && s.list.PcOf(t).Idle?
    ensures t == s.consumer ==> (PastRegister(s') ==> PastRegister(s)) && (Decided(s') ==> Decided(s))
  {
  }

  /** The result of a non-blocking call comes back to the blocking one. */
  lemma {:induction false} ReturnKeeps(s: Sys, t: Tid, sp': SyncPc)
    requires SysInv(s) && Enabled(s.q, t, Advance)
    requires var pc := s.q.PcOf(t);
             match s.SyncOf(t)
             case DSpinCall(n) => pc.DeqReturned? && sp' == AfterDequeue(pc, if n > 1 then DSpin(n - 1) else DRegister)
             case DRetryCall => pc.DeqReturned? && sp' == AfterDequeue(pc, DPark)
             case ESpinCall(n, value) => pc.EnqReturned? && sp' == AfterEnqueue(pc, ESpinCheck(n, value))
             case ERetryCall(value) => pc.EnqReturned? && sp' == AfterEnqueue(pc, ERetryCheck(value))
             case _ => false
    ensures SysInv(s.(q := Apply(s.q, t, Advance)).Go(t, sp'))
  {
    var s' := s.(q := Apply(s.q, t, Advance)).Go(t, sp');
    ReturnLink(s, s', t, sp');
    if s.SyncOf(t).ERetryCall? && sp'.ERetryCheck? {
      QueueKeepsEnqueuer(s, s', t, Advance, t, sp'.value, false);
    }
    CallKeeps(s, s', t, Advance, sp');
  }

  lemma {:induction false} ReturnLink(s: Sys, s': Sys, t: Tid, sp': SyncPc)
    requires Linked(s, t) && EnqueuerOk(s, t) && Enabled(s.q, t, Advance)
    requires s' == s.(q := Apply(s.q, t, Advance)).Go(t, sp')
    requires s.q.PcOf(t).DeqReturned? || s.q.PcOf(t).EnqReturned?
    requires var pc := s.q.PcOf(t);
             match s.SyncOf(t)
             case DSpinCall(n) => pc.DeqReturned? && sp' == AfterDequeue(pc, if n > 1 then DSpin(n - 1) else DRegister)
             case DRetryCall => pc.DeqReturned? && sp' == AfterDequeue(pc, DPark)
             case ESpinCall(n, value) => pc.EnqReturned? && sp' == AfterEnqueue(pc, ESpinCheck(n, value))
             case ERetryCall(value) => pc.EnqReturned? && sp' == AfterEnqueue(pc, ERetryCheck(value))
             case _ => false
    ensures Linked(s', t) && CallMoved(s, s', t, Advance, sp')
    ensures s.SyncOf(t).ERetryCall? && sp'.ERetryCheck? ==>
              EnqueuerCovered(s, t, sp'.value, false) && sp'.value == s.SyncOf(t).value
    ensures !sp'.ERetryCheck? ==> EnqueuerOk(s', t)
    ensures t == s.consumer ==> (PastRegister(s') ==> PastRegister(s)) && (Decided(s') ==> Decided(s))
  {
    ControlFlow(s.q, t, Advance);
  }

  /** A blocking call that got a slice is over. */
  lemma {:induction false} GotSliceKeeps(s: Sys, t: Tid)
    requires SysInv(s) && (s.SyncOf(t).DSpinCall? || s.SyncOf(t).DRetryCall?) && s.q.PcOf(t).Slice?
    ensures SysInv(s.Go(t, Free))
  {
    var s' := s.Go(t, Free);
    ThreadLinked(s, t);
    GotSliceControl(s, s', t);
    ControlKeeps(s, s', t);
  }

  lemma {:induction false} GotSliceControl(s: Sys, s': Sys, t: Tid)
    requires Linked(s, t) && (s.SyncOf(t).DSpinCall? || s.SyncOf(t).DRetryCall?) && s.q.PcOf(t).Slice?
    requires s' == s.Go(t, Free)
    ensures Linked(s', t) && EnqueuerOk(s', t) && ControlMoved(s, s', t)
  {
  }

  lemma {:induction false} ChecksIdle(s: Sys, t: Tid)
    requires Linked(s, t)
    requires s.SyncOf(t).ESpinCheck? || s.SyncOf(t).ERetryCheck? || s.SyncOf(t).DPark? || s.SyncOf(t).EPark?
             || (s.SyncOf(t).Free? && s.q.PcOf(t).Idle?)
    ensures s.q.PcOf(t).Idle? && s.waker.PcOf(t).Idle? && s.list.PcOf(t).Idle?
  {
  }

  lemma {:induction false} CheckKeeps(s: Sys, t: Tid, sp': SyncPc)
    requires SysInv(s)
    requires match s.SyncOf(t)
             case ESpinCheck(n, value) =>
               sp' == if |value| > s.q.capacity then Free else if n > 1 then ESpin(n - 1, value) else ERegister(value)
             case ERetryCheck(value) => sp' == if |value| > s.q.capacity then Free else EPark(value)
             case _ => false
    ensures SysInv(s.Go(t, sp'))
  {
    var s' := s.Go(t, sp');
    ChecksIdle(s, t);
    CheckEnqueuer(s, s', t, sp');
    SyncMoveKeeps(s, s', t, sp');
  }

  lemma {:induction false} CheckEnqueuer(s: Sys, s': Sys, t: Tid, sp': SyncPc)
    requires EnqueuerOk(s, t) && s' == s.Go(t, sp') && s.list.PcOf(t).Idle?
    requires sp'.Free? || sp'.ESpin? || sp'.ERegister?
             || (sp'.EPark? && s.SyncOf(t) == ERetryCheck(sp'.value) && |sp'.value| <= s.q.capacity)
    ensures EnqueuerOk(s', t)
  {
  }

  lemma {:induction false} ResumeKeeps(s: Sys, t: Tid)
    requires SysInv(s) && ResumeEnabled(s, t)
    ensures SysInv(ResumeStep(s, t))
  {
    var pc := s.q.PcOf(t);
    var s' := ResumeStep(s, t);
    match s.SyncOf(t)
    case DSpinCall(n) =>
      if pc.Slice? { GotSliceKeeps(s, t); } else { ReturnKeeps(s, t, s'.SyncOf(t)); }
    case DRetryCall =>
      if pc.Slice? { GotSliceKeeps(s, t); } else { ReturnKeeps(s, t, s'.SyncOf(t)); }
    case DRegister => RegisteredKeeps(s, t);
    case ESpinCall(n, value) => ReturnKeeps(s, t, s'.SyncOf(t));
    case ERetryCall(value) => ReturnKeeps(s, t, s'.SyncOf(t));
    case ERegister(value) => ListedKeeps(s, t, value);
    case ESpinCheck(n, value) => CheckKeeps(s, t, s'.SyncOf(t));
    case ERetryCheck(value) => CheckKeeps(s, t, s'.SyncOf(t));
  }

  lemma {:induction false} BeginKeeps(s: Sys, t: Tid, sp': SyncPc)
    requires SysInv(s) && s.SyncOf(t).Free? && s.q.PcOf(t).Idle?
    requires (sp'.DSpin? && t == s.consumer) || sp'.ESpin?
    ensures SysInv(s.Go(t, sp'))
  {
    ChecksIdle(s, t);
    SyncMoveKeeps(s, s.Go(t, sp'), t, sp');
  }

  lemma {:induction false} WakeUpKeeps(s: Sys, t: Tid, sp': SyncPc)
    requires SysInv(s)
    requires match s.SyncOf(t)
             case DPark => sp' == DSpin(SPIN_LIMIT)
             case EPark(value) => sp' == ESpin(SPIN_LIMIT, value)
             case _ => false
    ensures SysInv(s.(tokens := s.tokens - {t}).Go(t, sp'))
  {
    ChecksIdle(s, t);
    assert Linked(s, t);
    SyncMoveKeeps(s, s.(tokens := s.tokens - {t}).Go(t, sp'), t, sp');
  }

  lemma {:induction false} DeadlineKeeps(s: Sys, t: Tid, a: Action)
    requires SysInv(s) && (s.SyncOf(t).DPark? || s.SyncOf(t).EPark?) && Enabled(s.q, t, a)
    requires a == StartDequeue(NoResize) || a.StartEnqueue?
    ensures SysInv(s.(q := Apply(s.q, t, a)).Go(t, Free))
  {
    var s' := s.(q := Apply(s.q, t, a)).Go(t, Free);
    ChecksIdle(s, t);
    DeadlineLink(s, s', t, a);
    CallKeeps(s, s', t, a, Free);
  }

  lemma {:induction false} DeadlineLink(s: Sys, s': Sys, t: Tid, a: Action)
    requires Linked(s, t) && s.q.PcOf(t).Idle? && s.waker.PcOf(t).Idle? && s.list.PcOf(t).Idle? && Enabled(s.q, t, a)
    requires (a == StartDequeue(NoResize) || a.StartEnqueue?) && s' == s.(q := Apply(s.q, t, a)).Go(t, Free)
    ensures Linked(s', t) && EnqueuerOk(s', t)
    ensures t == s.consumer ==> !PastRegister(s') && !Decided(s')
  {
  }
}

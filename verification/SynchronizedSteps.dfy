/** What one step of the queue, of the waker cell or of the waker list does for the wake-ups that are due. */
module SynchronizedSteps {
  import opened Options
  import opened Protocol
  import opened ProtocolInvariant
  import opened ProtocolSteps
  import opened ProtocolFlow
  import opened ProtocolOutcomes
  import opened Synchronized
  import opened SynchronizedInvariant
  import A = AtomicWaker
  import L = WakerList

  lemma {:induction false} OnlyWakerMover(w: A.State, t: Tid, a: A.Action, u: Tid)
    requires A.Enabled(w, t, a) && u != t
    ensures A.Apply(w, t, a).PcOf(u) == w.PcOf(u)
  {
  }

  lemma {:induction false} OnlyListMover(l: L.State, t: Tid, a: L.Action, u: Tid)
    requires L.Enabled(l, t, a) && u != t
    ensures L.Apply(l, t, a).PcOf(u) == l.PcOf(u)
  {
  }

  // ---------------------------------------------------------------- a step of the queue

  /** Thread `t` has taken step `a` in the queue; the wakers are as they were. */
  ghost predicate QueueMoved(s: Sys, s': Sys, t: Tid, a: Action) {
    && Enabled(s.q, t, a) && s'.q == Apply(s.q, t, a)
    && s'.waker.cell == s.waker.cell && s'.waker.bits == s.waker.bits
    && s'.list.list == s.list.list && s'.list.drainer == s.list.drainer
    && s'.tokens == s.tokens && s'.consumer == s.consumer
    && (s.unannounced ==> s'.unannounced || Quiet(s'.q))
    && (s'.q.PcOf(t).DeqAdd? && t != s.consumer ==> s'.unannounced || Quiet(s'.q))
    && (forall u: Tid :: u != t ==> s'.waker.PcOf(u) == s.waker.PcOf(u) && s'.list.PcOf(u) == s.list.PcOf(u))
  }

  /** A thread that is going to wake the consumer still is after a step of the queue that does not
      belong to the wake-up. */
  lemma {:induction false} StillWillWake(qp: Pc, qp': Pc, ap: A.Pc)
    requires Follows(qp, qp') && (qp.EnqIndex? || qp.EnqInsert?) && ap.Idle?
    ensures WillWake(qp', ap)
  {
  }

  lemma {:induction false} QueueKeepsWilling(s: Sys, s': Sys, t: Tid, a: Action)
    requires QueueMoved(s, s', t, a) && Linked(s, t) && SomeWillWake(s)
    requires s'.waker.PcOf(t) == s.waker.PcOf(t) || (NotifiesDequeue(s.q.PcOf(t)) && s.waker.PcOf(t).Done?)
    requires NotifiesDequeue(s.q.PcOf(t)) ==> s.waker.PcOf(t).Done?
    ensures SomeWillWake(s')
  {
    var u: Tid :| WillWake(s.q.PcOf(u), s.waker.PcOf(u));
    if u == t {
      ControlFlow(s.q, t, a);
      StillWillWake(s.q.PcOf(t), s'.q.PcOf(t), s.waker.PcOf(t));
      assert WillWake(s'.q.PcOf(t), s'.waker.PcOf(t));
    } else {
      OnlyMover(s.q, t, a, u);
      assert WillWake(s'.q.PcOf(u), s'.waker.PcOf(u));
    }
  }

  /** The wake-up calls of `t` are not running, or have just returned. */
  ghost predicate NotWaking(s: Sys, s': Sys, t: Tid) {
    && (s'.waker.PcOf(t) == s.waker.PcOf(t)
         || (NotifiesDequeue(s.q.PcOf(t)) && s.waker.PcOf(t).Done? && s'.waker.PcOf(t).Idle?))
    && (s'.list.PcOf(t) == s.list.PcOf(t)
         || (NotifiesEnqueue(s.q.PcOf(t)) && s.list.PcOf(t).Done? && s'.list.PcOf(t).Idle?))
    && (NotifiesDequeue(s.q.PcOf(t)) ==> s.waker.PcOf(t).Done?)
    && (NotifiesEnqueue(s.q.PcOf(t)) ==> s.list.PcOf(t).Done?)
    && (s.q.PcOf(t).Idle? ==> s.waker.PcOf(t).Idle?)
  }

  lemma {:induction false} QueueKeepsInHand(s: Sys, s': Sys, t: Tid, a: Action)
    requires QueueMoved(s, s', t, a) && NotWaking(s, s', t) && SomeInHand(s)
    ensures SomeInHand(s')
  {
  }

  lemma {:induction false} QueueEndsQuiet(s: Sys, s': Sys, t: Tid, a: Action)
    requires Inv(s.q) && QueueMoved(s, s', t, a) && NotWaking(s, s', t)
    requires Quiet(s.q) && !Quiet(s'.q) && !s'.q.PcOf(t).DeqAdd?
    ensures SomeWillWake(s')
  {
    QuietStep(s.q, t, a);
    ControlFlow(s.q, t, a);
    assert WillWake(s'.q.PcOf(t), s'.waker.PcOf(t));
  }

  /** Only a pre-insertion, which no wake-up follows, leaves the consumer uncovered. */
  lemma {:induction false} QueueKeepsCovered(s: Sys, s': Sys, t: Tid, a: Action)
    requires Inv(s.q) && QueueMoved(s, s', t, a) && NotWaking(s, s', t) && Linked(s, t)
    ensures Registered(s) ==> Registered(s')
    ensures Covered(s) ==> Covered(s') || s'.q.PcOf(t).DeqAdd?
  {
    if SomeInHand(s) {
      QueueKeepsInHand(s, s', t, a);
    }
    if SomeWillWake(s) {
      QueueKeepsWilling(s, s', t, a);
    }
    if Quiet(s.q) && !Quiet(s'.q) && !s'.q.PcOf(t).DeqAdd? {
      QueueEndsQuiet(s, s', t, a);
    }
  }

  lemma {:induction false} QueueKeepsWillingList(s: Sys, s': Sys, t: Tid, a: Action)
    requires QueueMoved(s, s', t, a) && NotWaking(s, s', t) && Linked(s, t) && SomeWillWakeList(s)
    ensures SomeWillWakeList(s')
  {
    var u: Tid :| WillWakeList(s.q.PcOf(u), s.list.PcOf(u));
    if u == t {
      ControlFlow(s.q, t, a);
      assert WillWakeList(s'.q.PcOf(t), s'.list.PcOf(t));
    } else {
      OnlyMover(s.q, t, a, u);
      assert WillWakeList(s'.q.PcOf(u), s'.list.PcOf(u));
    }
  }

  lemma {:induction false} QueueKeepsEnqueuer(s: Sys, s': Sys, t: Tid, a: Action, u: Tid, value: seq<Value>,
      checked: bool)
    requires Inv(s.q) && QueueMoved(s, s', t, a) && NotWaking(s, s', t) && Linked(s, t)
    ensures EnqueuerCovered(s, u, value, checked) ==> EnqueuerCovered(s', u, value, checked)
  {
    if SomeWillWakeList(s) {
      QueueKeepsWillingList(s, s', t, a);
    }
    if Full(s.q, value, checked) && !Full(s'.q, value, checked) {
      FullStep(s.q, t, a, value, checked);
      assert WillWakeList(s'.q.PcOf(t), s'.list.PcOf(t));
    }
  }

  // ---------------------------------------------------------------- a step of the waker cell

  ghost predicate WakerMoved(s: Sys, s': Sys, t: Tid) {
    && A.Enabled(s.waker, t, A.Advance)
    && s' == s.(waker := A.Apply(s.waker, t, A.Advance), tokens := Unpark(s.tokens, A.Unparks(t, s.waker.PcOf(t))))
  }

  /** Only the consumer registers. */
  lemma {:induction false} RegistrarIsConsumer(s: Sys, t: Tid)
    requires Linked(s, t) && RegistersWaker(s.waker.PcOf(t)) && !s.waker.PcOf(t).Done?
    ensures t == s.consumer && s.SyncOf(t).DRegister?
  {
  }

  lemma {:induction false} RegisteringMeansConsumer(s: Sys)
    requires A.Inv(s.waker) && (forall u: Tid :: Linked(s, u)) && s.waker.bits.registering
    ensures A.Registers(s.waker.PcOf(s.consumer))
  {
    var u := s.waker.owner.value;
    assert A.OwnerOk(s.waker, u, s.waker.PcOf(u));
    RegistrarIsConsumer(s, u);
  }

  lemma {:induction false} WakerKeepsInHand(s: Sys, s': Sys, t: Tid)
    requires WakerMoved(s, s', t) && SomeInHand(s)
    ensures SomeInHand(s') || s'.consumer in s'.tokens
  {
    var u: Tid :| InHand(s.waker.PcOf(u), s.consumer);
    if u != t {
      OnlyWakerMover(s.waker, t, A.Advance, u);
      assert InHand(s'.waker.PcOf(u), s'.consumer);
    } else if s.waker.PcOf(t).WakeClear? {
      assert InHand(s'.waker.PcOf(t), s'.consumer);
    }
  }

  /** A step of a wake-up finds the consumer's waker, or leaves it for the one under way. */
  lemma {:induction false} WakeKeepsCell(s: Sys, s': Sys, t: Tid)
    requires WakerMoved(s, s', t) && A.Inv(s.waker) && !RegistersWaker(s.waker.PcOf(t))
    requires s.waker.cell == Some(s.consumer)
    ensures s'.waker.cell == Some(s'.consumer) || SomeInHand(s')
    ensures s.waker.bits.waking ==> s'.waker.bits.waking || SomeInHand(s')
    ensures s.waker.PcOf(t).WakeStart? ==> s'.waker.cell == Some(s'.consumer) && s'.waker.bits.waking
  {
    assert A.OwnerOk(s.waker, t, s.waker.PcOf(t));
    if s.waker.PcOf(t).WakeTake? {
      assert InHand(s'.waker.PcOf(t), s'.consumer);
    }
  }

  lemma {:induction false} WakerKeepsWilling(s: Sys, s': Sys, t: Tid)
    requires WakerMoved(s, s', t) && SomeWillWake(s) && !s.waker.PcOf(t).WakeStart?
    ensures SomeWillWake(s')
  {
  }

  lemma {:induction false} WakerKeepsCovered(s: Sys, s': Sys, t: Tid)
    requires WakerMoved(s, s', t) && A.Inv(s.waker) && !RegistersWaker(s.waker.PcOf(t))
    ensures Registered(s) ==> Registered(s')
    ensures Covered(s) ==> Covered(s')
  {
    if SomeInHand(s) {
      WakerKeepsInHand(s, s', t);
    }
    if s.waker.cell == Some(s.consumer) {
      WakeKeepsCell(s, s', t);
    }
    if SomeWillWake(s) && !s.waker.PcOf(t).WakeStart? {
      WakerKeepsWilling(s, s', t);
    }
  }

  /** When a registration is over, a wake-up finds the consumer, or it has been unparked already. */
  lemma {:induction false} RegistrationRegisters(s: Sys, s': Sys)
    requires WakerMoved(s, s', s.consumer) && A.Inv(s.waker) && (forall u: Tid :: Linked(s, u))
    requires RegistersWaker(s.waker.PcOf(s.consumer)) && s'.waker.PcOf(s.consumer).Done?
    ensures Registered(s')
  {
    var c := s.consumer;
    assert A.OwnerOk(s.waker, c, s.waker.PcOf(c));
    if s.waker.PcOf(c).RegStart? && s.waker.bits.registering {
      RegisteringMeansConsumer(s);
    }
  }

  // ---------------------------------------------------------------- a step of the waker list

  ghost predicate ListMoved(s: Sys, s': Sys, t: Tid) {
    && L.Enabled(s.list, t, L.Advance)
    && s' == s.(list := L.Apply(s.list, t, L.Advance), tokens := Unpark(s.tokens, L.Unparks(s.list, s.list.PcOf(t))))
  }
}

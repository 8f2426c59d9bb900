/** No wake-up is lost, in any run of the composed system. */
module SynchronizedTheorems {
  import opened Options
  import opened Protocol
  import opened ProtocolInvariant
  import opened ProtocolFlow
  import opened ProtocolOutcomes
  import opened ProtocolTheorems
  import opened Synchronized
  import opened SynchronizedInvariant
  import opened SynchronizedSteps
  import opened SynchronizedMoves
  import A = AtomicWaker
  import L = WakerList

  lemma {:induction false} NotifyKeeps(s: Sys, t: Tid)
    requires SysInv(s) && MoveEnabled(s, t, NotifyMove)
    ensures SysInv(NotifyStep(s, t))
  {
    if NotifiesDequeue(s.q.PcOf(t)) {
      if s.waker.PcOf(t).Idle? { StartWakeKeeps(s, t); } else { NotifiedDequeue(s, t); }
    } else {
      if s.list.PcOf(t).Idle? { StartListKeeps(s, t, L.StartWake); } else { NotifiedEnqueue(s, t); }
    }
  }

  /** Every move of every thread keeps the invariant of the composed system. */
  lemma {:induction false} MoveKeeps(s: Sys, t: Tid, m: Move)
    requires SysInv(s) && MoveEnabled(s, t, m)
    ensures SysInv(MoveStep(s, t, m))
  {
    var s' := MoveStep(s, t, m);
    match m
    case QueueMove(a) => QueueMoveKeeps(s, t, a);
    case NotifyMove => NotifyKeeps(s, t);
    case WakerMove => WakerMoveKeeps(s, s', t);
    case ListMove => ListMoveKeeps(s, s', t);
    case BeginDequeue => BeginKeeps(s, t, DSpin(SPIN_LIMIT));
    case BeginEnqueue(value) => BeginKeeps(s, t, ESpin(SPIN_LIMIT, value));
    case CallMove => CallMoveKeeps(s, t);
    case RegisterMove =>
      if s.SyncOf(t).DRegister? { StartRegisterKeeps(s, t); } else { StartListKeeps(s, t, L.StartRegister); }
    case ResumeMove => ResumeKeeps(s, t);
    case WakeUp => WakeUpKeeps(s, t, s'.SyncOf(t));
    case Deadline =>
      DeadlineKeeps(s, t, if s.SyncOf(t).DPark? then StartDequeue(NoResize) else StartEnqueue(s.SyncOf(t).value));
  }

  lemma {:induction false} FreshOk(s: Sys)
    requires Fresh(s)
    ensures SysInv(s)
  {
    InitOk(s.q);
  }

  lemma {:induction false} RunInv(states: seq<Sys>, turns: seq<Turn>, k: nat)
    requires Run(states, turns) && k < |states|
    ensures SysInv(states[k])
  {
    if k == 0 {
      FreshOk(states[0]);
    } else {
      RunInv(states, turns, k - 1);
      MoveKeeps(states[k - 1], turns[k - 1].t, turns[k - 1].m);
    }
  }

  // ---------------------------------------------------------------- the consumer

  /** Thread `t` still has to complete a wake-up that reaches the parked consumer: it has its waker in
      hand, is about to take it from the cell, or has not started the wake-up after its insertion or
      closing while the waker is in the cell. */
  predicate Reaches(s: Sys, t: Tid) {
    || InHand(s.waker.PcOf(t), s.consumer)
    || (s.waker.cell == Some(s.consumer) && (s.waker.PcOf(t).WakeTake? || WillWake(s.q.PcOf(t), s.waker.PcOf(t))))
  }

  lemma {:induction false} WakingTakes(s: Sys)
    requires A.Inv(s.waker) && (forall u: Tid :: Linked(s, u)) && Decided(s)
    requires s.waker.cell == Some(s.consumer) && s.waker.bits.waking
    ensures exists t: Tid :: s.waker.PcOf(t).WakeTake?
  {
    assert Linked(s, s.consumer);
    if s.waker.bits.registering {
      RegisteringMeansConsumer(s);
    } else {
      var u := s.waker.owner.value;
      assert A.OwnerOk(s.waker, u, s.waker.PcOf(u));
      assert s.waker.PcOf(u).WakeTake?;
    }
  }

  lemma {:induction false} QuietIsEmpty(q: State)
    requires Inv(q) && Quiet(q)
    ensures NothingQueued(q)
  {
    assert q.At(Hidden(q)).vals == [] && q.At(q.enq.index).vals == [];
    assert q.log == q.consumed + [] + [];
  }

  /** The consumer is parked, or has given up and is about to park, without a token; there is something
      to dequeue or the queue is closed; and nobody is going to wake it up. */
  ghost predicate Stranded(s: Sys) {
    && Decided(s) && s.consumer !in s.tokens
    && !(NothingQueued(s.q) && !s.q.enq.closed)
    && (forall t: Tid :: !Reaches(s, t))
  }

  lemma {:induction false} ReachingCovers(s: Sys, t: Tid)
    requires A.Inv(s.waker) && Reaches(s, t)
    ensures Covered(s)
  {
    assert A.OwnerOk(s.waker, t, s.waker.PcOf(t));
  }

  lemma {:induction false} CoveredIsReached(s: Sys)
    requires SysInv(s) && Decided(s) && Covered(s)
    ensures !Stranded(s)
  {
    if SomeInHand(s) {
      var t: Tid :| InHand(s.waker.PcOf(t), s.consumer);
      assert Reaches(s, t);
    } else if s.consumer in s.tokens {
    } else if s.waker.bits.waking {
      WakingTakes(s);
      var t: Tid :| s.waker.PcOf(t).WakeTake?;
      assert Reaches(s, t);
    } else if SomeWillWake(s) {
      var t: Tid :| WillWake(s.q.PcOf(t), s.waker.PcOf(t));
      assert Reaches(s, t);
    } else {
      QuietIsEmpty(s.q);
    }
  }

  /** For a consumer that has given up, being covered and being stranded are opposites. */
  lemma {:induction false} StrandedIffUncovered(s: Sys)
    requires SysInv(s) && Decided(s)
    ensures Stranded(s) <==> !Covered(s)
  {
    if Covered(s) {
      CoveredIsReached(s);
    } else {
      forall t: Tid ensures !Reaches(s, t) {
        if Reaches(s, t) { ReachingCovers(s, t); }
      }
      assert PastRegister(s) && Registered(s) by { assert Linked(s, s.consumer); }
    }
  }

  // ---------------------------------------------------------------- exactly when a wake-up is lost

  /** The flag is never read: without it every move does the same. */
  lemma {:induction false} FlagIsHistory(s: Sys, t: Tid, m: Move, flag: bool)
    requires MoveEnabled(s, t, m)
    ensures MoveEnabled(s.(unannounced := flag), t, m)
    ensures var s', r' := MoveStep(s, t, m), MoveStep(s.(unannounced := flag), t, m);
            && s' == r'.(unannounced := s'.unannounced)
            && (r'.unannounced ==> flag || (m.QueueMove? && PreInsertsUnannounced(s, t, m.a)))
  {
  }

  lemma {:induction false} Unflagged(s: Sys)
    requires SysInv(s) && !Stranded(s)
    ensures SysInv(s.(unannounced := false))
  {
    if Decided(s) {
      StrandedIffUncovered(s);
    }
    var r := s.(unannounced := false);
    forall u: Tid ensures Linked(r, u) && EnqueuerOk(r, u) {
      assert Linked(s, u) && EnqueuerOk(s, u);
    }
  }

  lemma {:induction false} SameStranding(s: Sys, r: Sys)
    requires s == r.(unannounced := s.unannounced)
    ensures Stranded(s) <==> Stranded(r)
  {
    forall t: Tid ensures Reaches(s, t) <==> Reaches(r, t) {}
  }

  lemma {:induction false} UnflaggedIsReached(s: Sys)
    requires SysInv(s) && !s.unannounced
    ensures !Stranded(s)
  {
    if Decided(s) {
      CoveredIsReached(s);
    }
  }

  /** Any other move leaves a consumer that is not stranded so. */
  lemma {:induction false} StaysReached(s: Sys, t: Tid, m: Move)
    requires SysInv(s) && MoveEnabled(s, t, m) && !Stranded(s)
    requires !(m.QueueMove? && PreInsertsUnannounced(s, t, m.a))
    ensures !Stranded(MoveStep(s, t, m))
  {
    var r := s.(unannounced := false);
    Unflagged(s);
    FlagIsHistory(s, t, m, false);
    MoveKeeps(r, t, m);
    UnflaggedIsReached(MoveStep(r, t, m));
    SameStranding(MoveStep(s, t, m), MoveStep(r, t, m));
  }

  /** A pre-insertion by somebody else strands a consumer nobody is about to wake. */
  lemma {:induction false} PreInsertionStrands(s: Sys, t: Tid, a: Action)
    requires MoveEnabled(s, t, QueueMove(a)) && PreInsertsUnannounced(s, t, a)
    requires Decided(s) && s.consumer !in s.tokens && (forall u: Tid :: !Reaches(s, u))
    ensures Stranded(QueueStep(s, t, a))
  {
    var s' := QueueStep(s, t, a);
    OnlyMover(s.q, t, a, s.consumer);
    forall u: Tid ensures !Reaches(s', u) {
      assert !Reaches(s, u);
      if u != t { OnlyMover(s.q, t, a, u); }
    }
    PreInsertionQueues(s.q, t, a);
  }

  lemma {:induction false} PreInsertionQueues(q: State, t: Tid, a: Action)
    requires Enabled(q, t, a) && q.PcOf(t).DeqStart? && Apply(q, t, a).PcOf(t).DeqAdd?
    ensures !NothingQueued(Apply(q, t, a))
  {
  }

  /** In every run, a consumer that has not been stranded becomes so exactly at a step in which another
      thread pre-inserts values, the consumer having given up without a token and nobody being about to
      wake it. */
  lemma {:induction false} StrandedExactlyByPreInsertion(states: seq<Sys>, turns: seq<Turn>, k: nat)
    requires Run(states, turns) && k < |turns| && !Stranded(states[k])
    ensures var s, t, m := states[k], turns[k].t, turns[k].m;
            Stranded(states[k + 1]) <==>
              && m.QueueMove? && PreInsertsUnannounced(s, t, m.a)
              && Decided(s) && s.consumer !in s.tokens && (forall u: Tid :: !Reaches(s, u))
  {
    RunInv(states, turns, k);
    var s, t, m := states[k], turns[k].t, turns[k].m;
    if !(m.QueueMove? && PreInsertsUnannounced(s, t, m.a)) {
      StaysReached(s, t, m);
    } else if Decided(s) && s.consumer !in s.tokens && (forall u: Tid :: !Reaches(s, u)) {
      PreInsertionStrands(s, t, m.a);
    } else {
      PreInsertionElsewhere(s, t, m.a);
    }
  }

  /** A consumer that has not given up, has a token or is about to be woken is not stranded by it. */
  lemma {:induction false} PreInsertionElsewhere(s: Sys, t: Tid, a: Action)
    requires MoveEnabled(s, t, QueueMove(a)) && PreInsertsUnannounced(s, t, a)
    requires !Decided(s) || s.consumer in s.tokens || (exists u: Tid :: Reaches(s, u))
    ensures !Stranded(QueueStep(s, t, a))
  {
    var s' := QueueStep(s, t, a);
    OnlyMover(s.q, t, a, s.consumer);
    if exists u: Tid :: Reaches(s, u) {
      var u: Tid :| Reaches(s, u);
      if u != t { OnlyMover(s.q, t, a, u); }
      assert Reaches(s', u);
    }
  }

  /** As long as only the consumer pre-inserts, it is never stranded. */
  lemma {:induction false} NeverStrandedOtherwise(states: seq<Sys>, turns: seq<Turn>, k: nat)
    requires Run(states, turns) && k < |states|
    requires forall j :: 0 <= j < k && turns[j].m.QueueMove? ==>
               !PreInsertsUnannounced(states[j], turns[j].t, turns[j].m.a)
    ensures !Stranded(states[k])
  {
    if k > 0 {
      NeverStrandedOtherwise(states, turns, k - 1);
      StrandedExactlyByPreInsertion(states, turns, k - 1);
    }
  }

  // ---------------------------------------------------------------- what a loss lasts

  /** Thread `t`, which is not the consumer, has pre-inserted values into the open, empty queue. */
  ghost predicate LossBegins(s: Sys, s': Sys, t: Tid) {
    && t != s.consumer && s.q.PcOf(t).DeqStart? && s'.q.PcOf(t).DeqAdd?
    && NothingQueued(s.q) && !s.q.enq.closed
  }

  /** A step of the queue that reserves nothing and closes nothing: what it adds to the log, if anything,
      are pre-inserted values, at the swap that publishes them. */
  predicate OnlyPublishes(q: State, q': State, t: Tid) {
    && (q'.log == q.log || (q.PcOf(t).DeqSwap? && q'.log == q.log + q.PcOf(t).next.inserted))
    && (!q.enq.closed ==> !q'.enq.closed)
  }

  lemma {:induction false} PublishesStep(q: State, t: Tid, a: Action)
    requires Enabled(q, t, a) && !a.Close? && !Apply(q, t, a).PcOf(t).EnqIndex?
    ensures OnlyPublishes(q, Apply(q, t, a), t)
  {
    var pc, pc' := q.PcOf(t), Apply(q, t, a).PcOf(t);
    if !a.Reopen? && !pc.DeqSwap? && !pc'.DeqAdd? && !pc.RelLength? {
      QueuedStep(q, t, a);
    }
  }

  /** A reservation or a close would have been the start of a wake-up. */
  lemma {:induction false} StrandedMeansNobodyWakes(s: Sys, t: Tid)
    requires SysInv(s) && Stranded(s)
    ensures !WillWake(s.q.PcOf(t), s.waker.PcOf(t))
  {
    assert Linked(s, s.consumer);
    assert Registered(s);
    assert !Reaches(s, t);
    if SomeInHand(s) {
      var u: Tid :| InHand(s.waker.PcOf(u), s.consumer);
      assert Reaches(s, u);
    }
  }

  lemma {:induction false} StrandedPublishes(s: Sys, t: Tid, m: Move)
    requires SysInv(s) && MoveEnabled(s, t, m) && SysInv(MoveStep(s, t, m)) && Stranded(MoveStep(s, t, m))
    ensures OnlyPublishes(s.q, MoveStep(s, t, m).q, t)
  {
    var s' := MoveStep(s, t, m);
    if m.QueueMove? {
      ThreadLinked(s, t);
      StrandedMeansNobodyWakes(s', t);
      QueueMovePublishes(s, t, m.a);
    } else if m.NotifyMove? {
      NotifyPublishes(s, t);
    } else {
      CallPublishes(s, t, m);
    }
  }

  lemma {:induction false} QueueMovePublishes(s: Sys, t: Tid, a: Action)
    requires QueueEnabled(s, t, a) && Linked(s, t)
    requires !WillWake(Apply(s.q, t, a).PcOf(t), s.waker.PcOf(t))
    ensures OnlyPublishes(s.q, Apply(s.q, t, a), t)
  {
    ControlFlow(s.q, t, a);
    PublishesStep(s.q, t, a);
  }

  lemma {:induction false} NotifyPublishes(s: Sys, t: Tid)
    requires MoveEnabled(s, t, NotifyMove)
    ensures OnlyPublishes(s.q, NotifyStep(s, t).q, t)
  {
    var pc := s.q.PcOf(t);
    if pc.DeqNotify? {
      assert DequeueStep(s.q, t) == DeqNotifyStep(s.q, t, pc.next, pc.cap, pc.won);
    }
  }

  lemma {:induction false} CallPublishes(s: Sys, t: Tid, m: Move)
    requires MoveEnabled(s, t, m) && !m.QueueMove? && !m.NotifyMove?
    ensures OnlyPublishes(s.q, MoveStep(s, t, m).q, t)
  {
  }

  ghost predicate LostAt(s: Sys) {
    Stranded(s) && !s.q.enq.closed && !NothingQueued(s.q)
  }

  /** At turn `j` another thread pre-inserts into the open, empty queue; ever since, up to `k`, the
      consumer has been stranded, nothing has been reserved, and the queue has been open and not empty. */
  ghost predicate LostSince(states: seq<Sys>, turns: seq<Turn>, j: nat, k: nat) {
    && |states| == |turns| + 1 && j < k < |states|
    && LossBegins(states[j], states[j + 1], turns[j].t)
    && (forall i :: j < i <= k ==> LostAt(states[i]))
    && (forall i {:trigger turns[i]} :: j <= i < k ==> OnlyPublishes(states[i].q, states[i + 1].q, turns[i].t))
  }

  /** What a move that leaves the consumer stranded may have done. */
  ghost predicate LossStep(s: Sys, s': Sys, t: Tid) {
    Stranded(s') ==> OnlyPublishes(s.q, s'.q, t) && (Stranded(s) || LossBegins(s, s', t))
  }

  lemma {:induction false} LossMove(s: Sys, t: Tid, m: Move)
    requires SysInv(s) && MoveEnabled(s, t, m) && SysInv(MoveStep(s, t, m))
    ensures LossStep(s, MoveStep(s, t, m), t)
  {
    if Stranded(MoveStep(s, t, m)) {
      StrandedPublishes(s, t, m);
      if !Stranded(s) {
        LossFirst(s, t, m);
      }
    }
  }

  lemma {:induction false} LossFirst(s: Sys, t: Tid, m: Move)
    requires SysInv(s) && MoveEnabled(s, t, m) && !Stranded(s) && Stranded(MoveStep(s, t, m))
    ensures LossBegins(s, MoveStep(s, t, m), t)
  {
    if !(m.QueueMove? && PreInsertsUnannounced(s, t, m.a)) {
      StaysReached(s, t, m);
    } else if !(Decided(s) && s.consumer !in s.tokens && (forall u: Tid :: !Reaches(s, u))) {
      PreInsertionElsewhere(s, t, m.a);
    }
  }

  lemma {:induction false} LossAlong(states: seq<Sys>, turns: seq<Turn>, k: nat)
    requires Run(states, turns) && k < |turns|
    ensures LossStep(states[k], states[k + 1], turns[k].t)
  {
    RunInv(states, turns, k);
    RunInv(states, turns, k + 1);
    LossMove(states[k], turns[k].t, turns[k].m);
  }

  lemma {:induction false} LostFrom(states: seq<Sys>, turns: seq<Turn>, k: nat) returns (j: nat)
    requires |states| == |turns| + 1 && k < |states| && !Stranded(states[0]) && Stranded(states[k])
    requires forall i {:trigger turns[i]} :: 0 <= i < |turns| ==> LossStep(states[i], states[i + 1], turns[i].t)
    ensures LostSince(states, turns, j, k)
  {
    assert LossStep(states[k - 1], states[k], turns[k - 1].t);
    if Stranded(states[k - 1]) {
      j := LostFrom(states, turns, k - 1);
      assert LostAt(states[k - 1]);
    } else {
      j := k - 1;
    }
  }

  /** In every run, a consumer that is stranded is so because another thread has pre-inserted values into
      the open, empty queue, and has been ever since; nothing was enqueued or closed meanwhile. */
  lemma {:induction false} LostSincePreInsertion(states: seq<Sys>, turns: seq<Turn>, k: nat) returns (j: nat)
    requires Run(states, turns) && k < |states| && Stranded(states[k])
    ensures LostSince(states, turns, j, k)
  {
    forall i | 0 <= i < |turns| ensures LossStep(states[i], states[i + 1], turns[i].t) {
      LossAlong(states, turns, i);
    }
    j := LostFrom(states, turns, k);
  }

  /** In every state of every run in which the consumer is parked without a token, nothing is queued
      and the queue is open, or some thread is going to wake it up, or another thread has pre-inserted
      values into the empty queue and the consumer has been stranded ever since. */
  lemma {:induction false} NoLostWakeUpForConsumer(states: seq<Sys>, turns: seq<Turn>, k: nat)
    requires Run(states, turns) && k < |states|
    requires states[k].SyncOf(states[k].consumer).DPark? && states[k].consumer !in states[k].tokens
    ensures || (NothingQueued(states[k].q) && !states[k].q.enq.closed)
            || (exists t: Tid :: Reaches(states[k], t))
            || (exists j :: LostSince(states, turns, j, k))
  {
    if Stranded(states[k]) {
      var j := LostSincePreInsertion(states, turns, k);
    }
  }

  // ---------------------------------------------------------------- enqueuers

  /** In every state of every run in which an enqueuer is parked without a token although its value
      fits, can no longer fit or the queue is closed, it is in the waker list, and some thread has yet to look at the
      list after its swap or close, or is committed to unpark everybody in it. */
  lemma {:induction false} NoLostWakeUpForEnqueuers(states: seq<Sys>, turns: seq<Turn>, k: nat, t: Tid)
    requires Run(states, turns) && k < |states|
    requires states[k].SyncOf(t).EPark? && t !in states[k].tokens
    requires var q, size := states[k].q, |states[k].SyncOf(t).value|;
             q.enq.closed || size <= q.enq.remaining || size > q.capacity
    ensures t in states[k].list.list
    ensures exists u: Tid ::
              WillWakeList(states[k].q.PcOf(u), states[k].list.PcOf(u)) || L.Drains(states[k].list.PcOf(u))
  {
    RunInv(states, turns, k);
    var s := states[k];
    assert EnqueuerOk(s, t);
    if s.list.drainer.Some? {
      assert L.Drains(s.list.PcOf(s.list.drainer.value));
    } else {
      var u: Tid :| WillWakeList(s.q.PcOf(u), s.list.PcOf(u));
    }
  }
}

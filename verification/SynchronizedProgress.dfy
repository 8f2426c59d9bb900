/** Wake-ups that are due do arrive: every move of the thread that has to complete one brings it closer. */
module SynchronizedProgress {
  import opened Options
  import opened Protocol
  import opened ProtocolInvariant
  import opened ProtocolSteps
  import opened ProtocolFlow
  import opened Synchronized
  import opened SynchronizedInvariant
  import opened SynchronizedSteps
  import opened SynchronizedMoves
  import opened SynchronizedTheorems
  import A = AtomicWaker
  import L = WakerList

  // ---------------------------------------------------------------- the consumer

  /** How many moves a thread has left before the consumer is unparked: those of its insertion, the one
      that starts the wake-up, and those of the wake-up. */
  function WakeRank(qp: Pc, ap: A.Pc): nat {
    match ap
    case WakeStart => 4
    case WakeTake => 3
    case WakeClear(_) => 2
    case WakeUnpark(_) => 1
    case _ =>
      if qp.EnqIndex? then 7 + |qp.value|
      else if qp.EnqInsert? && qp.done <= |qp.value| then 6 + |qp.value| - qp.done
      else 5
  }

  ghost function WakeRankOf(s: Sys, t: Tid): nat {
    WakeRank(s.q.PcOf(t), s.waker.PcOf(t))
  }

  /** The consumer is awake, or somebody has less left to do than `rank`. */
  ghost predicate Closer(s: Sys, rank: nat) {
    s.consumer in s.tokens || exists u: Tid :: Reaches(s, u) && WakeRankOf(s, u) < rank
  }

  /** The only moves of a thread that is going to wake the consumer are those of the wake-up. */
  lemma {:induction false} WakingMoves(s: Sys, t: Tid, m: Move)
    requires Linked(s, t) && MoveEnabled(s, t, m) && Reaches(s, t)
    ensures || m.WakerMove?
            || (m.NotifyMove? && NotifiesDequeue(s.q.PcOf(t)) && s.waker.PcOf(t).Idle?)
            || (m == QueueMove(Advance) && (s.q.PcOf(t).EnqIndex? || s.q.PcOf(t).EnqInsert?) && s.waker.PcOf(t).Idle?)
  {
  }

  lemma {:induction false} InsertionCloser(s: Sys, t: Tid)
    requires Inv(s.q) && Reaches(s, t) && s.waker.PcOf(t).Idle? && Enabled(s.q, t, Advance)
    requires s.q.PcOf(t).EnqIndex? || s.q.PcOf(t).EnqInsert?
    ensures Closer(QueueStep(s, t, Advance), WakeRankOf(s, t))
  {
    ThreadAt(s.q, t);
    ControlFlow(s.q, t, Advance);
    assert Reaches(QueueStep(s, t, Advance), t);
  }

  lemma {:induction false} NotifyCloser(s: Sys, t: Tid)
    requires Reaches(s, t) && NotifiesDequeue(s.q.PcOf(t)) && s.waker.PcOf(t).Idle?
    ensures Closer(s.(waker := A.Apply(s.waker, t, A.StartWake)), WakeRankOf(s, t))
  {
    assert Reaches(s.(waker := A.Apply(s.waker, t, A.StartWake)), t);
  }

  lemma {:induction false} WakerCloser(s: Sys, s': Sys, t: Tid)
    requires A.Inv(s.waker) && (forall u: Tid :: Linked(s, u)) && A.Inv(s'.waker) && (forall u: Tid :: Linked(s', u))
    requires WakerMoved(s, s', t) && s.SyncOf(s.consumer).DPark? && Reaches(s, t)
    ensures Closer(s', WakeRankOf(s, t))
  {
    assert Linked(s, t);
    assert A.OwnerOk(s.waker, t, s.waker.PcOf(t));
    if s.waker.PcOf(t).WakeStart? {
      WakingTakes(s');
      var u: Tid :| s'.waker.PcOf(u).WakeTake?;
      assert Reaches(s', u);
    } else if s.waker.PcOf(t).WakeUnpark? {
    } else {
      assert Reaches(s', t);
    }
  }

  lemma {:induction false} WakeUpCloser(s: Sys, s': Sys, t: Tid, m: Move)
    requires SysInv(s) && SysInv(s') && MoveEnabled(s, t, m) && s' == MoveStep(s, t, m)
    requires s.SyncOf(s.consumer).DPark? && Reaches(s, t)
    ensures Closer(s', WakeRankOf(s, t))
  {
    ThreadLinked(s, t);
    WakingMoves(s, t, m);
    if m.WakerMove? {
      WakerCloser(s, s', t);
    } else if m.NotifyMove? {
      NotifyCloser(s, t);
    } else {
      InsertionCloser(s, t);
    }
  }

  /** In every run, each move of a thread that is going to wake the parked consumer, from its reservation
      on, unparks the consumer or leaves somebody with strictly less to do. */
  lemma {:induction false} WakeUpArrives(states: seq<Sys>, turns: seq<Turn>, k: nat)
    requires Run(states, turns) && k < |turns|
    requires states[k].SyncOf(states[k].consumer).DPark? && Reaches(states[k], turns[k].t)
    ensures Closer(states[k + 1], WakeRankOf(states[k], turns[k].t))
  {
    RunInv(states, turns, k);
    RunInv(states, turns, k + 1);
    WakeUpCloser(states[k], states[k + 1], turns[k].t, turns[k].m);
  }

  // ---------------------------------------------------------------- enqueuers

  /** How many wakers are drained before that of `t`. */
  function Before(list: seq<Tid>, t: Tid): nat {
    if |list| == 0 || list[0] == t then 0 else 1 + Before(list[1..], t)
  }

  /** The thread has yet to look at the waker list, or is committed to draining it. */
  ghost predicate DueForList(s: Sys, u: Tid) {
    WillWakeList(s.q.PcOf(u), s.list.PcOf(u)) || L.Drains(s.list.PcOf(u))
  }

  /** How many moves a thread has left before it starts draining the list. */
  function LookRank(qp: Pc, ap: A.Pc, lp: L.Pc): nat {
    match lp
    case Drain => 1
    case DrainLock => 2
    case WakeCas => 3
    case WakeLoad => 4
    case _ =>
      if NotifiesEnqueue(qp) then 5
      else if qp.DeqCapacity? then 6
      else match ap
        case Done => 6
        case WakeUnpark(_) => 7
        case WakeClear(_) => 8
        case WakeTake => 9
        case WakeStart => 10
        case _ => 11
  }

  /** ... and before it unparks `t`. */
  ghost function ListRankOf(s: Sys, u: Tid, t: Tid): nat {
    LookRank(s.q.PcOf(u), s.waker.PcOf(u), s.list.PcOf(u)) + Before(s.list.list, t)
  }

  ghost predicate CloserFor(s: Sys, t: Tid, rank: nat) {
    t in s.tokens || (t in s.list.list && exists u: Tid :: DueForList(s, u) && ListRankOf(s, u, t) < rank)
  }

  lemma {:induction false} LookingMoves(s: Sys, u: Tid, m: Move)
    requires Linked(s, u) && MoveEnabled(s, u, m) && DueForList(s, u)
    ensures || (m.ListMove? && (L.Drains(s.list.PcOf(u)) || s.list.PcOf(u).WakeLoad? || s.list.PcOf(u).WakeCas?))
            || (m.NotifyMove? && s.list.PcOf(u).Idle?)
            || (m.WakerMove? && s.q.PcOf(u).CloseNotifyDequeue? && s.list.PcOf(u).Idle?)
            || (m == QueueMove(Advance) && s.q.PcOf(u).DeqCapacity? && s.list.PcOf(u).Idle?)
  {
  }

  lemma {:induction false} SwapCloser(s: Sys, u: Tid, t: Tid)
    requires s.q.PcOf(u).DeqCapacity? && s.list.PcOf(u).Idle? && t in s.list.list
    ensures CloserFor(QueueStep(s, u, Advance), t, ListRankOf(s, u, t))
  {
    assert DueForList(QueueStep(s, u, Advance), u);
  }

  lemma {:induction false} CloseCloser(s: Sys, s': Sys, u: Tid, t: Tid)
    requires Linked(s, u) && WakerMoved(s, s', u) && s.q.PcOf(u).CloseNotifyDequeue? && s.list.PcOf(u).Idle?
    requires t in s.list.list
    ensures CloserFor(s', t, ListRankOf(s, u, t))
  {
    assert DueForList(s', u);
  }

  lemma {:induction false} NotifyListCloser(s: Sys, u: Tid, t: Tid)
    requires MoveEnabled(s, u, NotifyMove) && Linked(s, u) && DueForList(s, u) && s.list.PcOf(u).Idle?
             && t in s.list.list
    ensures CloserFor(NotifyStep(s, u), t, ListRankOf(s, u, t))
  {
    var s' := NotifyStep(s, u);
    if NotifiesDequeue(s.q.PcOf(u)) {
      CloseNotifies(s, s', u);
    }
    assert DueForList(s', u);
  }

  /** The close that has woken the consumer is going to look at the list. */
  lemma {:induction false} CloseNotifies(s: Sys, s': Sys, u: Tid)
    requires MoveEnabled(s, u, NotifyMove) && Linked(s, u) && s.q.PcOf(u).CloseNotifyDequeue?
    requires s' == NotifyStep(s, u)
    ensures s'.list == s.list
    ensures LookRank(s'.q.PcOf(u), s'.waker.PcOf(u), s.list.PcOf(u))
              < LookRank(s.q.PcOf(u), s.waker.PcOf(u), s.list.PcOf(u))
    ensures WillWakeList(s'.q.PcOf(u), s'.list.PcOf(u))
  {
  }

  /** A look at the list that finds the flag cleared leaves it to the thread that cleared it. */
  lemma {:induction false} LookCloser(s: Sys, s': Sys, u: Tid, t: Tid)
    requires L.Inv(s.list) && ListMoved(s, s', u) && t in s.list.list && DueForList(s, u)
    requires s.list.PcOf(u).WakeLoad? || s.list.PcOf(u).WakeCas? || s.list.PcOf(u).DrainLock?
    ensures CloserFor(s', t, ListRankOf(s, u, t))
  {
    if s.list.PcOf(u).DrainLock? || s.list.flag {
      assert DueForList(s', u);
    } else {
      var d := s.list.drainer.value;
      assert L.Drains(s.list.PcOf(d)) && d != u;
      assert DueForList(s', d);
    }
  }

  lemma {:induction false} DrainCloser(s: Sys, s': Sys, u: Tid, t: Tid)
    requires ListMoved(s, s', u) && t in s.list.list && s.list.PcOf(u).Drain?
    ensures CloserFor(s', t, ListRankOf(s, u, t))
  {
    if s.list.list[0] != t {
      assert t in s.list.list[1..];
      assert DueForList(s', u);
    }
  }

  lemma {:induction false} LookingCloser(s: Sys, s': Sys, u: Tid, m: Move, t: Tid)
    requires SysInv(s) && MoveEnabled(s, u, m) && s' == MoveStep(s, u, m) && t in s.list.list && DueForList(s, u)
    ensures CloserFor(s', t, ListRankOf(s, u, t))
  {
    ThreadLinked(s, u);
    LookingMoves(s, u, m);
    if m.ListMove? {
      if s.list.PcOf(u).Drain? { DrainCloser(s, s', u, t); } else { LookCloser(s, s', u, t); }
    } else if m.NotifyMove? {
      NotifyListCloser(s, u, t);
    } else if m.WakerMove? {
      CloseCloser(s, s', u, t);
    } else {
      SwapCloser(s, u, t);
    }
  }

  /** In every run, each move of a thread that has to look at the waker list, or to drain it, unparks an
      enqueuer that is in it or leaves somebody with strictly less to do; while the list is drained, that
      is one waker less before the enqueuer's own. */
  lemma {:induction false} WakeUpArrivesForEnqueuers(states: seq<Sys>, turns: seq<Turn>, k: nat, t: Tid)
    requires Run(states, turns) && k < |turns| && t in states[k].list.list && DueForList(states[k], turns[k].t)
    ensures CloserFor(states[k + 1], t, ListRankOf(states[k], turns[k].t, t))
  {
    RunInv(states, turns, k);
    LookingCloser(states[k], states[k + 1], turns[k].t, turns[k].m, t);
  }
}

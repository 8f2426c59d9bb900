/** In the composed system nobody is stuck. */
module SynchronizedEnabled {
  import opened Options
  import opened Protocol
  import opened ProtocolInvariant
  import opened ProtocolSteps
  import opened Synchronized
  import opened SynchronizedInvariant
  import opened SynchronizedMoves
  import opened SynchronizedTheorems
  import opened SynchronizedCalls
  import A = AtomicWaker
  import L = WakerList

  /** The thread waits for the mutex of the waker list, which another one holds. */
  predicate AwaitsList(s: Sys, t: Tid) {
    (s.list.PcOf(t).RegLock? || s.list.PcOf(t).DrainLock?) && s.list.mutex.Some? && s.list.mutex.value != t
  }

  /** The size of the value in a blocking enqueue is one that `try_reserve` does not truncate. */
  predicate Sized(sp: SyncPc) {
    Waits(sp) ==> |sp.value| < SIZE_LIMIT
  }

  lemma {:induction false} SizedStep(s: Sys, u: Tid, m: Move, t: Tid)
    requires MoveEnabled(s, u, m) && Sized(s.SyncOf(t))
    ensures Sized(MoveStep(s, u, m).SyncOf(t))
  {
    if u != t {
      SyncElsewhere(s, u, m, t);
    }
  }

  lemma {:induction false} SizedRun(states: seq<Sys>, turns: seq<Turn>, k: nat, t: Tid)
    requires Run(states, turns) && k < |states|
    ensures Sized(states[k].SyncOf(t))
  {
    if k > 0 {
      SizedRun(states, turns, k - 1, t);
      SizedStep(states[k - 1], turns[k - 1].t, turns[k - 1].m, t);
    }
  }

  /** A thread whose wake-up or registration is under way can go on with it, or waits for the list. */
  lemma {:induction false} WakersMove(s: Sys, t: Tid)
    requires L.Inv(s.list) && Linked(s, t) && (s.waker.PcOf(t) != A.Idle || s.list.PcOf(t) != L.Idle)
    ensures AwaitsList(s, t) || exists m :: MoveEnabled(s, t, m)
  {
    if s.waker.PcOf(t) != A.Idle {
      assert MoveEnabled(s, t, WakerMove) || MoveEnabled(s, t, NotifyMove) || MoveEnabled(s, t, ResumeMove);
    } else if L.Enabled(s.list, t, L.Advance) {
      assert MoveEnabled(s, t, ListMove);
    } else if s.list.PcOf(t).Done? {
      assert MoveEnabled(s, t, NotifyMove) || MoveEnabled(s, t, ResumeMove);
    } else {
      assert L.Locks(s.list.PcOf(t)) <==> s.list.mutex == Some(t);
    }
  }

  /** A thread inside a call of the queue can go on with it. */
  lemma {:induction false} CallMoves(s: Sys, t: Tid)
    requires Inv(s.q) && Linked(s, t) && s.q.PcOf(t) != Idle && !s.q.PcOf(t).Panicked?
    requires s.waker.PcOf(t) == A.Idle && s.list.PcOf(t) == L.Idle
    ensures exists m :: MoveEnabled(s, t, m)
  {
    ThreadAt(s.q, t);
    var pc := s.q.PcOf(t);
    var a := if pc.Slice? || pc.Iter? then Requeue else Advance;
    assert MoveEnabled(s, t, NotifyMove) || MoveEnabled(s, t, ResumeMove) || MoveEnabled(s, t, QueueMove(a));
  }

  lemma {:induction false} OutsideMoves(s: Sys, t: Tid)
    requires Linked(s, t) && Sized(s.SyncOf(t)) && s.q.PcOf(t) == Idle
    requires s.waker.PcOf(t) == A.Idle && s.list.PcOf(t) == L.Idle
    ensures exists m :: MoveEnabled(s, t, m)
  {
    assert || MoveEnabled(s, t, BeginEnqueue([])) || MoveEnabled(s, t, CallMove) || MoveEnabled(s, t, RegisterMove)
           || MoveEnabled(s, t, ResumeMove) || MoveEnabled(s, t, WakeUp);
  }

  /** In every run every thread that has not panicked has a move, unless it waits for the mutex of the waker list,
      which another thread holds; and a thread that holds it has one. */
  lemma {:induction false} NobodyIsStuck(states: seq<Sys>, turns: seq<Turn>, k: nat, t: Tid)
    requires Run(states, turns) && k < |states| && !states[k].q.PcOf(t).Panicked?
    ensures AwaitsList(states[k], t) || exists m :: MoveEnabled(states[k], t, m)
    ensures states[k].list.mutex == Some(t) ==> exists m :: MoveEnabled(states[k], t, m)
  {
    RunInv(states, turns, k);
    SizedRun(states, turns, k, t);
    NotStuck(states[k], t);
  }

  lemma {:induction false} NotStuck(s: Sys, t: Tid)
    requires SysInv(s) && Sized(s.SyncOf(t)) && !s.q.PcOf(t).Panicked?
    ensures AwaitsList(s, t) || exists m :: MoveEnabled(s, t, m)
  {
    ThreadLinked(s, t);
    if s.waker.PcOf(t) != A.Idle || s.list.PcOf(t) != L.Idle {
      WakersMove(s, t);
    } else if s.q.PcOf(t) != Idle {
      CallMoves(s, t);
    } else {
      OutsideMoves(s, t);
    }
  }
}

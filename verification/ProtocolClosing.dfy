/** What closing the queue guarantees until it is reopened. */
module ProtocolClosing {
  import opened Options
  import opened Protocol
  import opened ProtocolInvariant
  import opened ProtocolSteps
  import opened ProtocolFlow
  import opened ProtocolTheorems

  predicate Swaps(s: State, t: Tid, a: Action)
    requires Enabled(s, t, a)
  {
    s.PcOf(t).DeqSwap? && Apply(s, t, a).PcOf(t).DeqCapacity?
  }

  lemma {:induction false} SwapEffect(s: State, t: Tid, a: Action)
    requires Enabled(s, t, a) && Swaps(s, t, a) && Inv(s)
    ensures var s' := Apply(s, t, a);
            && s'.sides == s.sides && s'.holder == s.holder == Some(t)
            && s'.enq.index == Hidden(s) && s'.enq.closed == s.enq.closed
            && s'.log == s.log + s.PcOf(t).next.inserted
  {
  }

  lemma {:induction false} NoReservationWhenClosed(s: State, t: Tid, a: Action)
    requires Inv(s) && s.enq.closed && Enabled(s, t, a)
    ensures !Apply(s, t, a).PcOf(t).EnqIndex?
  {
    ControlFlow(s, t, a);
    ThreadAt(s, t);
  }

  /** One step of a closed queue: unless it is the reopening, the queue stays closed and nothing is
      published but what the dequeuing side pre-inserts. */
  lemma {:induction false} ClosedStep(s: State, t: Tid, a: Action)
    requires Inv(s) && s.enq.closed && Enabled(s, t, a) && !a.Reopen?
    ensures var s' := Apply(s, t, a);
            && s'.enq.closed
            && s'.log == s.log + if Swaps(s, t, a) then s.PcOf(t).next.inserted else []
  {
    NoReservationWhenClosed(s, t, a);
    var pc, pc' := s.PcOf(t), Apply(s, t, a).PcOf(t);
    if Swaps(s, t, a) {
      SwapEffect(s, t, a);
    } else if pc'.DeqAdd? {
      ControlFlow(s, t, a);
    } else if !pc.RelLength? && !a.Close? {
      QueuedStep(s, t, a);
    }
  }

  // ---------------------------------------------------------------- the flag

  /** Whether the last of these steps that closes or reopens is a close. */
  function LastFlag(steps: seq<Step>): bool {
    if |steps| == 0 then false
    else
      var n := |steps| - 1;
      if steps[n].a.Close? then true else if steps[n].a.Reopen? then false else LastFlag(steps[..n])
  }

  lemma {:induction false} FlagStep(s: State, t: Tid, a: Action)
    requires Enabled(s, t, a) && !a.Close? && !a.Reopen?
    ensures Apply(s, t, a).enq.closed == s.enq.closed
  {
    var pc, pc' := s.PcOf(t), Apply(s, t, a).PcOf(t);
    if !pc'.EnqIndex? && !pc'.DeqAdd? && !pc.DeqSwap? && !pc.RelLength? {
      QueuedStep(s, t, a);
    }
  }

  lemma {:induction false} FlagChange(s: State, t: Tid, a: Action)
    requires Enabled(s, t, a) && (a.Close? || a.Reopen?)
    ensures var s' := Apply(s, t, a);
            && s' == s.(enq := s.enq.(closed := a.Close?), threads := s'.threads)
            && s'.PcOf(t) == if a.Close? then CloseNotifyDequeue else Idle
  {
  }

  /** In every execution the queue is closed exactly if it has been closed and not reopened since; closing and
      reopening change nothing but that. */
  lemma {:induction false} FlagIsLastSet(states: seq<State>, steps: seq<Step>, k: nat)
    requires Execution(states, steps) && k < |states|
    ensures states[k].enq.closed == LastFlag(steps[..k])
    ensures k < |steps| && (steps[k].a.Close? || steps[k].a.Reopen?) ==>
              states[k + 1] == states[k].(enq := states[k + 1].enq, threads := states[k + 1].threads)
              && states[k + 1].enq == states[k].enq.(closed := steps[k].a.Close?)
  {
    if k > 0 {
      FlagIsLastSet(states, steps, k - 1);
      assert steps[..k][..k - 1] == steps[..k - 1] && steps[..k][k - 1] == steps[k - 1];
      var s, t, a := states[k - 1], steps[k - 1].t, steps[k - 1].a;
      if a.Close? || a.Reopen? { FlagChange(s, t, a); } else { FlagStep(s, t, a); }
    }
    if k < |steps| && (steps[k].a.Close? || steps[k].a.Reopen?) {
      FlagChange(states[k], steps[k].t, steps[k].a);
    }
  }

  // ---------------------------------------------------------------- over a whole run

  ghost predicate NotReopened(steps: seq<Step>, c: nat, k: nat)
    requires k <= |steps|
  {
    forall m :: c <= m < k ==> !steps[m].a.Reopen?
  }

  /** Between a close and the next reopen the queue stays closed, through every swap, and no
      reservation succeeds. */
  lemma {:induction false} ClosedUntilReopened(states: seq<State>, steps: seq<Step>, c: nat, k: nat)
    requires Execution(states, steps) && c <= k <= |steps| && states[c].enq.closed && NotReopened(steps, c, k)
    ensures states[k].enq.closed
    ensures k < |steps| ==> !(states[k].PcOf(steps[k].t).EnqCas? && states[k + 1].PcOf(steps[k].t).EnqIndex?)
  {
    StaysClosed(states, steps, c, k);
    if k < |steps| {
      ReachableInv(states, steps, k);
      NoReservationWhenClosed(states[k], steps[k].t, steps[k].a);
    }
  }

  lemma {:induction false} StaysClosed(states: seq<State>, steps: seq<Step>, c: nat, k: nat)
    requires Execution(states, steps) && c <= k <= |steps| && states[c].enq.closed && NotReopened(steps, c, k)
    ensures states[k].enq.closed
  {
    if c < k {
      StaysClosed(states, steps, c, k - 1);
      ReachableInv(states, steps, k - 1);
      ClosedStep(states[k - 1], steps[k - 1].t, steps[k - 1].a);
    }
  }

  /** Somebody has the buffer being dequeued. */
  ghost predicate Out(s: State) {
    s.holder.Some? && Handed(s.PcOf(s.holder.value))
  }

  /** How many more times values can be handed out: once for a buffer waiting to be dequeued, unless
      somebody has it already, and once for what is in the enqueuing buffer. */
  ghost function Dequeuable(s: State): nat {
    (if s.At(Hidden(s)).vals != [] && !Out(s) then 1 else 0) + (if s.At(s.enq.index).vals != [] then 1 else 0)
  }

  predicate HandsOut(s: State, t: Tid, a: Action)
    requires Enabled(s, t, a)
  {
    s.PcOf(t).DeqSpin? && Apply(s, t, a).PcOf(t).Slice?
  }

  /** A step that neither reopens, nor pre-inserts, nor puts an undrained buffer back. */
  predicate Shrinking(s: State, t: Tid, a: Action)
    requires Enabled(s, t, a)
  {
    var pc := s.PcOf(t);
    && !a.Reopen?
    && !Apply(s, t, a).PcOf(t).DeqAdd?
    && !(a.Requeue? && (pc.Slice? || pc.Iter?) && pc.lo < pc.hi)
  }

  /** A buffer that is out stays out, unless its holder puts it back. */
  lemma {:induction false} OutStep(s: State, t: Tid, a: Action)
    requires Inv(s) && Enabled(s, t, a)
    ensures var s' := Apply(s, t, a);
            if s.holder.Some? && s.holder != Some(t) then Out(s') == Out(s)
            else Out(s) == Handed(s.PcOf(t)) && Out(s') == Handed(s'.PcOf(t))
  {
    StepKeeps(s, t, a);
    var s' := Apply(s, t, a);
    if s.holder.Some? && s.holder != Some(t) {
      OnlyMover(s, t, a, s.holder.value);
      HolderIs(s', s.holder.value);
    } else {
      HolderIs(s, t);
      HolderIs(s', t);
      if s'.holder.Some? {
        var u := s'.holder.value;
        HolderIs(s', u);
        HolderIs(s, u);
        if u != t {
          OnlyMover(s, t, a, u);
        }
      }
    }
  }

  lemma {:induction false} HolderIs(s: State, t: Tid)
    requires LockOk(s)
    ensures Holds(s.PcOf(t)) <==> s.holder == Some(t)
  {
  }

  /** Without requeuing, the holder of a slice gives the lock back only with an empty buffer; and
      what is handed out is not empty. */
  lemma {:induction false} BackInOnlyEmpty(s: State, t: Tid, a: Action)
    requires Enabled(s, t, a) && Shrinking(s, t, a) && Follows(s.PcOf(t), Apply(s, t, a).PcOf(t))
    requires PcOk(s.enq, s.sides, t, s.PcOf(t))
    ensures Handed(s.PcOf(t)) && !Handed(Apply(s, t, a).PcOf(t)) ==> s.At(Hidden(s)).vals == []
    ensures HandsOut(s, t, a) ==> s.At(Hidden(s)).vals != [] && Handed(Apply(s, t, a).PcOf(t))
  {
  }

  lemma {:induction false} ShrinkingSame(s: State, t: Tid, a: Action)
    requires Inv(s) && Enabled(s, t, a) && Shrinking(s, t, a) && SameQueued(s, Apply(s, t, a))
    ensures Dequeuable(Apply(s, t, a)) + (if HandsOut(s, t, a) then 1 else 0) <= Dequeuable(s)
  {
    ThreadAt(s, t);
    ControlFlow(s, t, a);
    BackInOnlyEmpty(s, t, a);
    OutStep(s, t, a);
    HolderIs(s, t);
  }

  lemma {:induction false} ShrinkingRelease(s: State, t: Tid, a: Action)
    requires Inv(s) && Enabled(s, t, a) && s.PcOf(t).RelLength?
    ensures Dequeuable(Apply(s, t, a)) <= Dequeuable(s)
  {
  }

  lemma {:induction false} ShrinkingClose(s: State, t: Tid, a: Action)
    requires Inv(s) && Enabled(s, t, a) && a.Close?
    ensures Dequeuable(Apply(s, t, a)) <= Dequeuable(s)
  {
  }

  /** Each hand-out uses up one of the dequeuable buffers, and nothing adds one. */
  lemma {:induction false} ShrinkingStep(s: State, t: Tid, a: Action)
    requires Inv(s) && s.enq.closed && Enabled(s, t, a) && Shrinking(s, t, a)
    ensures Dequeuable(Apply(s, t, a)) + (if HandsOut(s, t, a) then 1 else 0) <= Dequeuable(s)
  {
    NoReservationWhenClosed(s, t, a);
    if Swaps(s, t, a) {
      SwapEffect(s, t, a);
    } else if s.PcOf(t).RelLength? {
      ShrinkingRelease(s, t, a);
    } else if a.Close? {
      ShrinkingClose(s, t, a);
    } else {
      QueuedStep(s, t, a);
      ShrinkingSame(s, t, a);
    }
  }

  /** Step `k` of a run is one that cannot bring values back. */
  ghost predicate ShrinkingAt(states: seq<State>, steps: seq<Step>, k: nat)
    requires Segment(states, steps) && k < |steps|
  {
    Shrinking(states[k], steps[k].t, steps[k].a)
  }

  /** At step `k` of a run a slice is handed out. */
  ghost predicate HandsOutAt(states: seq<State>, steps: seq<Step>, k: nat)
    requires Shaped(states, steps) && k < |steps|
  {
    states[k].PcOf(steps[k].t).DeqSpin? && states[k + 1].PcOf(steps[k].t).Slice?
  }

  /** How many slices are handed out from step `c` to step `k`. */
  ghost function HandOuts(states: seq<State>, steps: seq<Step>, c: nat, k: nat): nat
    requires Shaped(states, steps) && c <= k <= |steps|
    decreases k
  {
    if k == c then 0
    else HandOuts(states, steps, c, k - 1) + (if HandsOutAt(states, steps, k - 1) then 1 else 0)
  }

  /** A hand-out at step `k` uses up one of the dequeuable buffers. */
  ghost predicate SupplyPays(states: seq<State>, steps: seq<Step>, k: nat)
    requires Shaped(states, steps) && k < |steps|
  {
    Dequeuable(states[k + 1]) + (if HandsOutAt(states, steps, k) then 1 else 0) <= Dequeuable(states[k])
  }

  lemma {:induction false} ShrinkingRunStep(states: seq<State>, steps: seq<Step>, c: nat, k: nat)
    requires Execution(states, steps) && c <= k < |steps| && states[c].enq.closed && NotReopened(steps, c, k)
    requires ShrinkingAt(states, steps, k)
    ensures SupplyPays(states, steps, k)
  {
    ReachableInv(states, steps, k);
    StaysClosed(states, steps, c, k);
    ShrinkingStep(states[k], steps[k].t, steps[k].a);
  }

  lemma {:induction false} SupplyPaysAll(states: seq<State>, steps: seq<Step>, c: nat, k: nat)
    requires Shaped(states, steps) && c <= k <= |steps|
    requires forall m :: c <= m < k ==> SupplyPays(states, steps, m)
    ensures HandOuts(states, steps, c, k) + Dequeuable(states[k]) <= Dequeuable(states[c])
    decreases k
  {
    if c < k {
      SupplyPaysAll(states, steps, c, k - 1);
      assert SupplyPays(states, steps, k - 1);
    }
  }

  /** After a close, as long as nothing is put back, pre-inserted or reopened, at most two more
      slices are handed out, whoever dequeues. */
  lemma {:induction false} AtMostTwoAfterClose(states: seq<State>, steps: seq<Step>, c: nat, k: nat)
    requires Execution(states, steps) && c <= k <= |steps| && states[c].enq.closed
    requires forall m :: c <= m < k ==> ShrinkingAt(states, steps, m)
    ensures HandOuts(states, steps, c, k) + Dequeuable(states[k]) <= Dequeuable(states[c]) <= 2
  {
    forall m | c <= m < k ensures !steps[m].a.Reopen? { assert ShrinkingAt(states, steps, m); }
    forall m | c <= m < k ensures SupplyPays(states, steps, m) {
      ShrinkingRunStep(states, steps, c, m);
    }
    SupplyPaysAll(states, steps, c, k);
  }

  // ---------------------------------------------------------------- a call when nothing is left

  /** How far a call without resizing has come that finds the queue closed with nothing left. */
  predicate HeadsForClosed(pc: Pc) {
    match pc
    case DeqLock(resize) => resize == NoResize
    case DeqStart(resize, _, len, retried) => resize == NoResize && len == 0 && !retried
    case DeqLoad(next) => !next.resized && next.inserted == []
    case DeqStoreBack(_, error) => error == Closed
    case DeqReturned(error) => error == Closed || error == Conflict
    case _ => false
  }

  /** With nothing left, a lock that can be taken has nothing saved with it. */
  lemma {:induction false} LocksNothing(s: State, t: Tid, resize: Resize)
    requires Inv(s) && Dequeuable(s) == 0 && s.PcOf(t) == DeqLock(resize) && resize == NoResize
    ensures HeadsForClosed(DeqLockStep(s, t, resize).PcOf(t))
  {
  }

  lemma {:induction false} LoadsClosed(s: State, t: Tid)
    requires Inv(s) && s.enq.closed && Dequeuable(s) == 0 && s.PcOf(t).DeqLoad? && HeadsForClosed(s.PcOf(t))
    ensures HeadsForClosed(DequeueStep(s, t).PcOf(t))
  {
    ThreadAt(s, t);
    HolderIs(s, t);
  }

  lemma {:induction false} HeadsOn(s: State, t: Tid, a: Action)
    requires Inv(s) && s.enq.closed && Dequeuable(s) == 0 && Enabled(s, t, a)
    requires HeadsForClosed(s.PcOf(t)) && !s.PcOf(t).DeqReturned?
    ensures HeadsForClosed(Apply(s, t, a).PcOf(t))
  {
    var pc := s.PcOf(t);
    if pc.DeqLock? {
      LocksNothing(s, t, pc.resize);
    } else if pc.DeqLoad? {
      LoadsClosed(s, t);
    } else {
      PreparesNothing(s, t);
    }
  }

  lemma {:induction false} PreparesNothing(s: State, t: Tid)
    requires HeadsForClosed(s.PcOf(t)) && (s.PcOf(t).DeqStart? || s.PcOf(t).DeqStoreBack?)
    ensures HeadsForClosed(DequeueStep(s, t).PcOf(t))
  {
  }

  /** Thread `t` calls `try_dequeue` at step `c` and has not returned before step `k`; the queue is closed,
      nothing is left in it, and nothing is put back, pre-inserted or reopened meanwhile. */
  ghost predicate LateCall(states: seq<State>, steps: seq<Step>, t: Tid, c: nat, k: nat) {
    && Execution(states, steps) && c < k <= |steps|
    && states[c].enq.closed && Dequeuable(states[c]) == 0
    && states[c].PcOf(t) == Idle && steps[c] == Step(t, StartDequeue(NoResize))
    && (forall m :: c <= m < k ==> ShrinkingAt(states, steps, m))
    && (forall m :: c < m < k ==> !states[m].PcOf(t).DeqReturned?)
  }

  lemma {:induction false} NothingComesBack(states: seq<State>, steps: seq<Step>, t: Tid, c: nat, k: nat, m: nat)
    requires LateCall(states, steps, t, c, k) && c <= m < k
    ensures states[m].enq.closed && Dequeuable(states[m]) == 0 && Inv(states[m])
  {
    forall j | c <= j < m ensures !steps[j].a.Reopen? { assert ShrinkingAt(states, steps, j); }
    StaysClosed(states, steps, c, m);
    AtMostTwoAfterClose(states, steps, c, m);
    ReachableInv(states, steps, m);
  }

  lemma {:induction false} LateCallStep(states: seq<State>, steps: seq<Step>, t: Tid, c: nat, k: nat, m: nat)
    requires LateCall(states, steps, t, c, k) && c < m < k && HeadsForClosed(states[m].PcOf(t))
    ensures HeadsForClosed(states[m + 1].PcOf(t))
  {
    NothingComesBack(states, steps, t, c, k, m);
    if steps[m].t == t {
      HeadsOn(states[m], t, steps[m].a);
    } else {
      OnlyMover(states[m], steps[m].t, steps[m].a, t);
    }
  }

  lemma {:induction false} LateCallHeads(states: seq<State>, steps: seq<Step>, t: Tid, c: nat, k: nat, m: nat)
    requires LateCall(states, steps, t, c, k) && c < m <= k
    ensures HeadsForClosed(states[m].PcOf(t))
    decreases m
  {
    if m > c + 1 {
      LateCallHeads(states, steps, t, c, k, m - 1);
      LateCallStep(states, steps, t, c, k, m - 1);
    } else {
      assert steps[c].t == t;
    }
  }

  /** Once everything has been handed out, every `try_dequeue` on the closed queue that returns, returns
      `Closed`, or `Conflict` when it did not get the lock; it never gets a slice. */
  lemma {:induction false} ThenClosed(states: seq<State>, steps: seq<Step>, t: Tid, c: nat, k: nat)
    requires LateCall(states, steps, t, c, k)
    ensures !states[k].PcOf(t).Slice?
    ensures states[k].PcOf(t).DeqReturned? ==> states[k].PcOf(t).error == Closed || states[k].PcOf(t).error == Conflict
  {
    LateCallHeads(states, steps, t, c, k, k);
  }
}

/** Dropping a queue: one last dequeue, whose slice is dropped, with nobody else using the queue. */
module ProtocolDrop {
  import opened Options
  import opened Protocol
  import opened ProtocolInvariant
  import opened ProtocolSteps
  import opened ProtocolFlow
  import opened ProtocolTheorems

  /** The thread will not do anything any more: it is idle, has panicked, or has forgotten a slice or an
      iterator. */
  predicate Gone(pc: Pc) {
    pc.Idle? || pc.Panicked? || pc.Slice? || pc.Iter?
  }

  /** No thread but `t` is doing anything. */
  ghost predicate Alone(s: State, t: Tid) {
    forall u: Tid :: u != t ==> Gone(s.PcOf(u))
  }

  /** A whole `drop`: thread `t` dequeues without resizing, drops the slice if it gets one, and is done
      when it is idle again. */
  ghost predicate DropRun(states: seq<State>, steps: seq<Step>, t: Tid) {
    && Segment(states, steps) && |steps| > 0
    && Alone(states[0], t) && states[0].PcOf(t) == Idle
    && steps[0] == Step(t, StartDequeue(NoResize))
    && (forall k :: 0 < k < |steps| ==>
         steps[k].t == t && states[k].PcOf(t) != Idle
             && (steps[k].a.Advance? || steps[k].a.FailSpuriously? || steps[k].a.Release?))
    && states[|steps|].PcOf(t) == Idle
  }

  /** The buffer that the last dequeue gets at: the one put back or pending, if there is one. */
  ghost function Target(s: State): Index {
    if AllEmpty(s.At(Hidden(s)).cells) then s.enq.index else Hidden(s)
  }

  ghost predicate TargetCleared(s0: State, s: State) {
    && AllEmpty(s.At(Target(s0)).cells)
    && s.At(Flip(Target(s0))) == s0.At(Flip(Target(s0)))
  }

  /** What is left to do before the lock is taken. */
  ghost predicate Untouched(s0: State, s: State) {
    s.sides == s0.sides && s.enq == s0.enq
  }

  /** How far a drop that started in `s0` has come. */
  ghost predicate Progress(s0: State, s: State, pc: Pc) {
    match pc
    case DeqLock(resize) => resize == NoResize && Untouched(s0, s) && s.deq == s0.deq
    case DeqStart(resize, _, _, retried) => resize == NoResize && !retried && Untouched(s0, s) && s0.deq.Saved?
    case DeqLoad(next) => Plain(next) && Untouched(s0, s) && Target(s0) == s0.enq.index && s0.deq.Saved?
    case DeqSwap(next, _, _) => Plain(next) && Untouched(s0, s) && Target(s0) == s0.enq.index && s0.deq.Saved?
    case DeqCapacity(next, _, _) => Plain(next) && s.sides == s0.sides && Hidden(s) == Target(s0) && s0.deq.Saved?
    case DeqNotify(next, _, _) => Plain(next) && s.sides == s0.sides && Hidden(s) == Target(s0) && s0.deq.Saved?
    case DeqSpin(_, _, _) => s.sides == s0.sides && Hidden(s) == Target(s0) && s0.deq.Saved?
    case Slice(_, _, _) => s.sides == s0.sides && Hidden(s) == Target(s0) && s0.deq.Saved?
    case RelLength(_) =>
      s.At(Flip(Target(s0))) == s0.At(Flip(Target(s0))) && Hidden(s) == Target(s0) && s0.deq.Saved?
    case DeqStoreBack(_, _) => Dropped(s0, s)
    case DeqReturned(_) => Dropped(s0, s)
    case RelStore(_) => Dropped(s0, s)
    case Idle => Dropped(s0, s)
    case _ => false
  }

  /** What a drop has done in the end: nothing to a queue whose dequeuing lock was left taken. */
  ghost predicate Dropped(s0: State, s: State) {
    if s0.deq.Locked? then s.sides == s0.sides else TargetCleared(s0, s)
  }

  lemma {:induction false} NothingInFlight(s: State, t: Tid, i: Index)
    requires OwnersOk(s, i) && Alone(s, t) && !Claims(s.PcOf(t), i)
    ensures Settled(s.At(i).own)
  {
  }

  /** When nobody has the lock and nothing is in flight, the buffers that hold values are those with a
      history of some. */
  ghost predicate Faithful(s: State) {
    forall i :: AllEmpty(s.At(i).cells) <==> s.At(i).vals == []
  }

  lemma {:induction false} FaithfulAtRest(s: State, t: Tid)
    requires Inv(s) && Alone(s, t) && s.PcOf(t) == Idle && s.deq.Saved?
    ensures Faithful(s)
  {
    forall i ensures AllEmpty(s.At(i).cells) <==> s.At(i).vals == [] {
      NothingInFlight(s, t, i);
      var side := s.At(i);
      assert SideOk(side) && side.residue == [];
      if side.vals == [] {
        EmptySide(side);
      } else {
        assert side.cells[side.drained] == Some(side.vals[side.drained]);
      }
    }
  }

  /** With nothing in flight the expected length is there at the first look. */
  lemma {:induction false} SpinSucceeds(s: State, t: Tid)
    requires Inv(s) && Alone(s, t) && s.PcOf(t).DeqSpin?
    ensures s.PcOf(t).len <= s.At(s.PcOf(t).index).length
  {
    ThreadAt(s, t);
    var i := s.PcOf(t).index;
    NothingInFlight(s, t, i);
    InFlightSettled(s.At(i).own);
    assert SideOk(s.At(i));
  }

  lemma {:induction false} ProgressStart(s0: State, s: State, t: Tid)
    requires Inv(s) && s.PcOf(t).DeqStart? && Faithful(s0) && Progress(s0, s, s.PcOf(t))
    ensures Progress(s0, DequeueStep(s, t), DequeueStep(s, t).PcOf(t))
  {
    ThreadAt(s, t);
    ReservesNothing(s.At(s.PcOf(t).index), t);
  }

  lemma {:induction false} ReservesNothing(side: Side, t: Tid)
    ensures Reserve(side, t, []) == side
  {
    assert side.vals + [] == side.vals && side.own + Owned(t, 0) == side.own;
  }

  lemma {:induction false} ProgressDequeue(s0: State, s: State, t: Tid)
    requires Inv(s) && Alone(s, t) && Dequeuing(s.PcOf(t)) && !s.PcOf(t).DeqSwap? && !s.PcOf(t).DeqStart?
    requires Progress(s0, s, s.PcOf(t))
    ensures Progress(s0, DequeueStep(s, t), DequeueStep(s, t).PcOf(t))
  {
    ThreadAt(s, t);
    if s.PcOf(t).DeqSpin? {
      SpinSucceeds(s, t);
    } else if s.PcOf(t).DeqLoad? {
      assert s.enq.remaining == |s.At(s.enq.index).cells| ==> s.At(s.enq.index).vals == [];
      if s.At(s.enq.index).vals == [] {
        EmptySide(s.At(s.enq.index));
      }
    }
  }

  /** The lock is free, or left taken for good. */
  lemma {:induction false} ProgressLock(s0: State, s: State, t: Tid, resize: Resize)
    requires Inv(s) && Alone(s, t) && s.PcOf(t) == DeqLock(resize) && Progress(s0, s, s.PcOf(t))
    ensures Progress(s0, DeqLockStep(s, t, resize), DeqLockStep(s, t, resize).PcOf(t))
  {
  }

  lemma {:induction false} ProgressSwap(s0: State, s: State, t: Tid, next: Next, cap: nat, seen: Word, spurious: bool)
    requires Inv(s) && s.PcOf(t) == DeqSwap(next, cap, seen) && Progress(s0, s, s.PcOf(t))
    ensures var s' := DeqSwapStep(s, t, next, cap, seen, spurious);
            Progress(s0, s', s'.PcOf(t))
  {
    ThreadAt(s, t);
  }

  lemma {:induction false} ProgressRelease(s0: State, s: State, t: Tid, i: Index, lo: nat, hi: nat)
    requires s.PcOf(t) == Slice(i, lo, hi) && i == Hidden(s) && Progress(s0, s, s.PcOf(t))
    ensures Progress(s0, ReleaseStep(s, t, i, lo, hi), ReleaseStep(s, t, i, lo, hi).PcOf(t))
  {
  }

  lemma {:induction false} ProgressReset(s0: State, s: State, t: Tid, i: Index)
    requires s.PcOf(t) == RelLength(i) && i == Hidden(s) && Progress(s0, s, s.PcOf(t)) && AllEmpty(s.At(i).cells)
    ensures Progress(s0, RelLengthStep(s, t, i), RelLengthStep(s, t, i).PcOf(t))
  {
  }

  /** A drained buffer is empty. */
  lemma {:induction false} DrainedIsEmpty(s: State, t: Tid)
    requires Inv(s) && s.PcOf(t).RelLength?
    ensures s.PcOf(t).index == Hidden(s) && AllEmpty(s.At(Hidden(s)).cells)
  {
    ThreadAt(s, t);
    assert s.holder == Some(t);
    NoResidue(s, t);
    assert SideOk(s.At(Hidden(s)));
  }

  lemma {:induction false} ProgressSlice(s0: State, s: State, t: Tid, a: Action)
    requires Inv(s) && Enabled(s, t, a) && Handed(s.PcOf(t)) && Progress(s0, s, s.PcOf(t)) && (a.Advance? || a.Release?)
    ensures Progress(s0, Apply(s, t, a), Apply(s, t, a).PcOf(t))
  {
    ThreadAt(s, t);
    var pc := s.PcOf(t);
    if pc.Slice? {
      ProgressRelease(s0, s, t, pc.index, pc.lo, pc.hi);
    } else if pc.RelLength? {
      DrainedIsEmpty(s, t);
      ProgressReset(s0, s, t, pc.index);
    }
  }

  lemma {:induction false} ProgressStep(s0: State, s: State, t: Tid, a: Action)
    requires Inv(s) && Alone(s, t) && Enabled(s, t, a) && s.PcOf(t) != Idle && Progress(s0, s, s.PcOf(t))
    requires (a.Advance? || a.FailSpuriously? || a.Release?) && (s0.deq.Saved? ==> Faithful(s0))
    ensures Progress(s0, Apply(s, t, a), Apply(s, t, a).PcOf(t))
  {
    var pc := s.PcOf(t);
    if pc.DeqLock? {
      ProgressLock(s0, s, t, pc.resize);
    } else if pc.DeqSwap? {
      ProgressSwap(s0, s, t, pc.next, pc.cap, pc.seen, a.FailSpuriously?);
    } else if Handed(pc) {
      ProgressSlice(s0, s, t, a);
    } else if pc.DeqStart? {
      ProgressStart(s0, s, t);
    } else if Dequeuing(pc) {
      ProgressDequeue(s0, s, t);
    }
  }

  lemma {:induction false} AloneStep(s: State, t: Tid, a: Action)
    requires Enabled(s, t, a) && Alone(s, t)
    ensures Alone(Apply(s, t, a), t)
  {
    forall u: Tid | u != t ensures Gone(Apply(s, t, a).PcOf(u)) {
      OnlyMover(s, t, a, u);
    }
  }

  lemma {:induction false} ProgressRun(states: seq<State>, steps: seq<Step>, t: Tid, k: nat)
    requires DropRun(states, steps, t) && Inv(states[0]) && 0 < k <= |steps|
    ensures Alone(states[k], t) && Progress(states[0], states[k], states[k].PcOf(t))
  {
    var s, a := states[k - 1], steps[k - 1].a;
    if states[0].deq.Saved? {
      FaithfulAtRest(states[0], t);
    }
    if k > 1 {
      ProgressRun(states, steps, t, k - 1);
      SegmentInv(states, steps, k - 1);
      ProgressStep(states[0], s, t, a);
    }
    AloneStep(s, t, a);
  }

  ghost predicate HoldsValues(s: State, i: Index) {
    !AllEmpty(s.At(i).cells)
  }

  /** Dropping a queue clears one buffer, the older one, unless the dequeuing lock was left taken by a
      panic or a forgotten slice, when it touches none.  So values are left in the cells exactly when both
      buffers held values, or one did and the lock was left taken. */
  lemma {:induction false} DropClearsOneBuffer(states: seq<State>, steps: seq<Step>, t: Tid)
    requires DropRun(states, steps, t) && Inv(states[0])
    ensures var s0, s := states[0], states[|steps|];
            && Dropped(s0, s)
            && (HoldsValues(s, Zero) || HoldsValues(s, One) <==>
                 || (HoldsValues(s0, Zero) && HoldsValues(s0, One))
                 || (s0.deq.Locked? && (HoldsValues(s0, Zero) || HoldsValues(s0, One))))
  {
    ProgressRun(states, steps, t, |steps|);
  }
}

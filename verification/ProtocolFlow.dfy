/** The control flow of one thread, read off the steps of module Protocol. */
module ProtocolFlow {
  import opened Options
  import opened Protocol
  import opened ProtocolInvariant
  import opened ProtocolSteps

  /** The next buffer is used as it is. */
  predicate Plain(next: Next) {
    !next.resized && next.inserted == []
  }

  /** `pc'` is where a thread at `pc` may be after one step of its own. */
  predicate Follows(pc: Pc, pc': Pc) {
    match pc
    case Idle => pc' == Idle || pc'.EnqLoad? || pc' == EnqReturned(EnqueueOk) || pc'.DeqLock? || pc'.CloseNotifyDequeue?
    case EnqLoad(value) =>
      pc' == EnqReturned(InsufficientCapacity) || pc' == EnqReturned(EnqueueClosed)
          || (pc'.EnqCas? && pc'.value == value)
    case EnqCas(value, seen) =>
      || pc' == EnqIndex(value, seen)
      || pc' == EnqReturned(InsufficientCapacity) || pc' == EnqReturned(EnqueueClosed)
          || (pc'.EnqCas? && pc'.value == value)
    case EnqIndex(value, won) => pc'.EnqInsert? && pc'.value == value && pc'.won == won
    case EnqInsert(value, won, base, done) => pc' == EnqInsert(value, won, base, done + 1) || pc' == EnqNotify
    case EnqNotify => pc' == EnqReturned(EnqueueOk)
    case EnqReturned(_) => pc' == Idle
    case DeqLock(resize) => pc' == DeqReturned(Conflict) || (pc'.DeqStart? && pc'.resize == resize && !pc'.retried)
    case DeqStart(resize, i, len, retried) =>
      || (len > 0 && pc' == DeqSpin(i, len, SPIN_LIMIT))
      || (len == 0 && pc' == Panicked(i))
      || (len == 0 && (pc'.DeqAdd? || (pc'.DeqLoad? && pc'.next.inserted == [])) && pc'.next.retried == retried
          && (resize == NoResize ==> pc'.DeqLoad? && !pc'.next.resized)
          && (resize.ResizeTo? && resize.insert == [] ==> pc'.DeqLoad?))
    case DeqAdd(next) => pc' == DeqLoad(next)
    case DeqLoad(next) =>
      || (pc'.DeqSwap? && pc'.next == next)
      || (pc'.DeqStoreBack? && pc'.index == next.index && (pc'.error == Empty || pc'.error == Closed)
          && !next.resized && next.inserted == [])
    case DeqStoreBack(_, error) => pc' == DeqReturned(error)
    case DeqSwap(next, cap, seen) =>
      pc' == DeqCapacity(next, cap, seen) || pc'.Panicked? || (pc'.DeqSwap? && pc'.next == next && pc'.cap == cap)
    case DeqCapacity(next, cap, won) => pc' == DeqNotify(next, cap, won)
    case DeqNotify(next, cap, won) =>
      if won.remaining < cap then pc' == DeqSpin(won.index, cap - won.remaining, SPIN_LIMIT)
      else if next.inserted != [] then pc' == DeqStart(NoResize, won.index, 0, true)
      else pc' == DeqStoreEmpty(won.index)
    case DeqStoreEmpty(_) => pc' == DeqReturned(Empty)
    case Panicked(_) => false
    case DeqSpin(i, len, spins) =>
      || (pc'.Slice? && pc'.index == i)
      || (if spins > 1 then pc' == DeqSpin(i, len, spins - 1) else pc' == DeqSave(i, len))
    case DeqSave(_, _) => pc' == DeqReturned(Pending)
    case DeqReturned(_) => pc' == Idle
    case Slice(i, lo, hi) => pc' == Iter(i, lo, hi) || (lo < hi && pc' == Idle) || pc' == RelLength(i)
    case Iter(i, lo, hi) =>
      pc' == Iter(i, lo, hi) || pc' == Iter(i, lo + 1, hi) || pc' == Slice(i, lo, hi) || (lo < hi && pc' == Idle)
          || pc' == RelLength(i)
    case RelLength(i) => pc' == RelStore(i)
    case RelStore(_) => pc' == Idle
    case CloseNotifyDequeue => pc' == CloseNotifyEnqueue
    case CloseNotifyEnqueue => pc' == Idle
  }

  lemma {:induction false} EnqueueFollows(s: State, t: Tid, a: Action)
    requires Enabled(s, t, a) && Enqueuing(s.PcOf(t))
    ensures Follows(s.PcOf(t), EnqueueStep(s, t, a).PcOf(t))
  {
  }

  lemma {:induction false} PrepareFollows(s: State, t: Tid)
    requires s.PcOf(t).DeqStart? || s.PcOf(t).DeqSpin?
    ensures Follows(s.PcOf(t), DequeueStep(s, t).PcOf(t))
  {
  }

  lemma {:induction false} DequeueFollows(s: State, t: Tid)
    requires Dequeuing(s.PcOf(t)) && !s.PcOf(t).DeqStart? && !s.PcOf(t).DeqSpin? && !s.PcOf(t).DeqSwap?
             && !s.PcOf(t).Panicked?
    ensures Follows(s.PcOf(t), DequeueStep(s, t).PcOf(t))
  {
  }

  lemma {:induction false} SliceFollows(s: State, t: Tid, a: Action)
    requires Enabled(s, t, a) && (s.PcOf(t).Slice? || s.PcOf(t).Iter?)
    ensures Follows(s.PcOf(t), Apply(s, t, a).PcOf(t))
  {
  }

  lemma {:induction false} ControlFlow(s: State, t: Tid, a: Action)
    requires Enabled(s, t, a)
    ensures Follows(s.PcOf(t), Apply(s, t, a).PcOf(t))
  {
    var pc := s.PcOf(t);
    if Enqueuing(pc) {
      EnqueueFollows(s, t, a);
    } else if pc.Slice? || pc.Iter? {
      SliceFollows(s, t, a);
    } else if pc.DeqStart? || pc.DeqSpin? {
      PrepareFollows(s, t);
    } else if Dequeuing(pc) && !pc.DeqSwap? {
      DequeueFollows(s, t);
    }
  }

  lemma {:induction false} OnlyPreparerMoves(s: State, t: Tid, u: Tid, resize: Resize, i: Index, len: nat,
      retried: bool)
    requires u != t
    ensures DeqStartStep(s, t, resize, i, len, retried).PcOf(u) == s.PcOf(u)
  {
  }

  lemma {:induction false} OnlyDequeuerMoves(s: State, t: Tid, u: Tid)
    requires u != t
    ensures DequeueStep(s, t).PcOf(u) == s.PcOf(u)
  {
    if s.PcOf(t).DeqStart? {
      OnlyPreparerMoves(s, t, u, s.PcOf(t).resize, s.PcOf(t).index, s.PcOf(t).len, s.PcOf(t).retried);
    }
  }

  lemma {:induction false} OnlyEnqueuerMoves(s: State, t: Tid, a: Action, u: Tid)
    requires Enabled(s, t, a) && u != t
    ensures EnqueueStep(s, t, a).PcOf(u) == s.PcOf(u)
  {
  }

  lemma {:induction false} OnlyHandedMoves(s: State, t: Tid, a: Action, u: Tid)
    requires Enabled(s, t, a) && u != t && Handed(s.PcOf(t))
    ensures Apply(s, t, a).PcOf(u) == s.PcOf(u)
  {
  }

  /** A step moves no thread but the one that takes it. */
  lemma {:induction false} OnlyMover(s: State, t: Tid, a: Action, u: Tid)
    requires Enabled(s, t, a) && u != t
    ensures Apply(s, t, a).PcOf(u) == s.PcOf(u)
  {
    var pc := s.PcOf(t);
    if Handed(pc) {
      OnlyHandedMoves(s, t, a, u);
    } else if Enqueuing(pc) {
      OnlyEnqueuerMoves(s, t, a, u);
    } else if Dequeuing(pc) {
      OnlyDequeuerMoves(s, t, u);
    }
  }

  /** Only the store after a swap changes what `capacity()` returns. */
  lemma {:induction false} CapacityStep(s: State, t: Tid, a: Action)
    requires Enabled(s, t, a) && !s.PcOf(t).DeqCapacity?
    ensures Apply(s, t, a).capacity == s.capacity
  {
    var pc := s.PcOf(t);
    if Handed(pc) {
      HandedCapacity(s, t, a);
    } else if Enqueuing(pc) {
      EnqueueCapacity(s, t, a);
    } else if Dequeuing(pc) && !pc.DeqSwap? {
      DequeueCapacity(s, t);
    }
  }

  lemma {:induction false} HandedCapacity(s: State, t: Tid, a: Action)
    requires Enabled(s, t, a) && Handed(s.PcOf(t))
    ensures Apply(s, t, a).capacity == s.capacity
  {
  }

  lemma {:induction false} EnqueueCapacity(s: State, t: Tid, a: Action)
    requires Enabled(s, t, a)
    ensures EnqueueStep(s, t, a).capacity == s.capacity
  {
  }

  lemma {:induction false} DequeueCapacity(s: State, t: Tid)
    requires !s.PcOf(t).DeqCapacity?
    ensures DequeueStep(s, t).capacity == s.capacity
  {
  }

  // ---------------------------------------------------------------- what is queued

  /** The enqueuing word and what the buffers hold, however far inserted or drained, are the same. */
  ghost predicate SameQueued(s: State, s': State) {
    && s'.enq == s.enq
    && s'.sides.zero.vals == s.sides.zero.vals && s'.sides.one.vals == s.sides.one.vals
    && s'.log == s.log
  }

  /** The log only grows. */
  lemma {:induction false} LogStep(s: State, t: Tid, a: Action)
    requires Enabled(s, t, a)
    ensures s.log <= Apply(s, t, a).log
  {
    var pc, pc' := s.PcOf(t), Apply(s, t, a).PcOf(t);
    if !a.Close? && !a.Reopen? && !pc'.EnqIndex? && !pc.DeqSwap? && !pc'.DeqAdd? && !pc.RelLength? {
      QueuedStep(s, t, a);
    }
  }

  lemma {:induction false} EnqueueQueued(s: State, t: Tid, a: Action)
    requires Enabled(s, t, a) && Enqueuing(s.PcOf(t)) && !EnqueueStep(s, t, a).PcOf(t).EnqIndex?
    ensures SameQueued(s, EnqueueStep(s, t, a))
  {
  }

  lemma {:induction false} DequeueQueued(s: State, t: Tid)
    requires s.PcOf(t).DeqStart? ==> s.PcOf(t).len > 0 || Prepare(s.At(s.PcOf(t).index).cells, s.PcOf(t).resize).Panic?
    ensures SameQueued(s, DequeueStep(s, t))
  {
  }

  lemma {:induction false} PrepareQueued(s: State, t: Tid)
    requires s.PcOf(t).DeqStart? && !DequeueStep(s, t).PcOf(t).DeqAdd?
    ensures SameQueued(s, DequeueStep(s, t))
  {
  }

  lemma {:induction false} HandedQueued(s: State, t: Tid, a: Action)
    requires Enabled(s, t, a) && (s.PcOf(t).Slice? || s.PcOf(t).Iter?)
    ensures SameQueued(s, Apply(s, t, a))
  {
  }

  /** Only a reservation, a swap, a pre-insertion, a release, closing and reopening change what is
      queued. */
  lemma {:induction false} QueuedStep(s: State, t: Tid, a: Action)
    requires Enabled(s, t, a) && !a.Close? && !a.Reopen?
    requires !Apply(s, t, a).PcOf(t).EnqIndex?
    requires !(s.PcOf(t).DeqSwap? && Apply(s, t, a).PcOf(t).DeqCapacity?)
    requires !Apply(s, t, a).PcOf(t).DeqAdd?
    requires !s.PcOf(t).RelLength?
    ensures SameQueued(s, Apply(s, t, a))
  {
    var pc := s.PcOf(t);
    if Enqueuing(pc) {
      EnqueueQueued(s, t, a);
    } else if pc.Slice? || pc.Iter? {
      HandedQueued(s, t, a);
    } else if pc.DeqStart? {
      PrepareQueued(s, t);
    } else {
      DequeueQueued(s, t);
    }
  }
}

/** The queue runs on machine words.

    Module Protocol keeps the two atomic words of `src/queue.rs` as records.  Here they are the packed
    64-bit words again: what each access does to them, and what each thread reads out of them, is
    computed with the bit operations of module PackedWords alone, and agrees with the records at every
    step of every execution. */
module PackedRefinement {
  import opened Options
  import opened Protocol
  import opened ProtocolInvariant
  import opened ProtocolSteps
  import opened ProtocolFlow
  import opened ProtocolTheorems
  import P = PackedWords

  function Bit(i: Index): nat {
    if i == Zero then 0 else 1
  }

  function IndexOf(bit: nat): Index {
    if bit == 0 then Zero else One
  }

  function PackWord(w: Word): nat {
    P.Pack(w.closed, w.remaining, Bit(w.index))
  }

  function PackDequeuing(d: DequeuingWord): nat {
    match d
    case Locked => P.DEQUEUING_LOCKED
    case Saved(i, n) => P.NewDequeuing(Bit(i), n)
  }

  // ---------------------------------------------------------------- the accesses, on words

  /** A compare-and-exchange that may fail for no reason. */
  function Exchange(w: nat, expected: nat, desired: nat, spurious: bool): nat {
    if w == expected && !spurious then desired else w
  }

  /** The word that swaps the prepared buffer in, with the flag of the word it replaces. */
  function SwappedIn(next: Next, seen: nat): Option<nat> {
    if |next.inserted| > next.capacity then None
    else
      match P.NewEnqueuing(Bit(next.index), next.capacity - |next.inserted|)
      case None => None
      case Some(n) => Some(P.WithClosed(n, seen))
  }

  /** The enqueuing word after a step of a thread at `pc`; `None` is a panic. */
  function EnqueuingAfter(w: nat, pc: Pc, a: Action): Option<nat> {
    match pc
    case Idle => Some(if a.Close? then P.CloseWord(w) else if a.Reopen? then P.ReopenWord(w) else w)
    case EnqCas(value, seen) =>
      (match P.TryReserve(PackWord(seen), |value|)
       case None => None
       case Some(reserved) => Some(Exchange(w, PackWord(seen), reserved, a.FailSpuriously?)))
    case DeqSwap(next, _, seen) =>
      (match SwappedIn(next, PackWord(seen))
       case None => None
       case Some(swapped) => Some(Exchange(w, PackWord(seen), swapped, a.FailSpuriously?)))
    case _ => Some(w)
  }

  /** The dequeuing word after a step of a thread at `pc`. */
  function DequeuingAfter(d: nat, pc: Pc, a: Action): nat {
    match pc
    case DeqLock(_) => P.DEQUEUING_LOCKED
    case DeqStoreBack(i, _) => P.NewDequeuing(Bit(i), 0)
    case DeqStoreEmpty(i) => P.NewDequeuing(Bit(i), 0)
    case DeqSave(i, len) => P.NewDequeuing(Bit(i), len)
    case RelStore(i) => P.NewDequeuing(Bit(i), 0)
    case Slice(i, lo, hi) => if a.Requeue? && lo < hi then P.NewDequeuing(Bit(i), hi - lo) else d
    case Iter(i, lo, hi) => if a.Requeue? && lo < hi then P.NewDequeuing(Bit(i), hi - lo) else d
    case _ => d
  }

  /** What `try_enqueue` makes of a word it has just read. */
  function DecideOn(value: seq<Value>, w: nat): Pc {
    if P.IsClosed(w) then EnqReturned(EnqueueClosed)
    else if P.TryReserve(w, |value|).None? then EnqReturned(InsufficientCapacity)
    else EnqCas(value, Word(false, P.RemainingCapacity(w), IndexOf(P.BufferIndex(w))))
  }

  /** What `try_dequeue_internal` makes of the enqueuing word it has just read. */
  function LoadOn(next: Next, w: nat, cap: nat): Pc {
    if P.RemainingCapacity(w) == cap && !next.resized && |next.inserted| == 0 then
      DeqStoreBack(next.index, if P.IsClosed(w) then Closed else Empty)
    else
      DeqSwap(next, cap, Word(P.IsClosed(w), P.RemainingCapacity(w), IndexOf(P.BufferIndex(w))))
  }

  /** What `lock_dequeuing` makes of the word it has swapped out. */
  function LockOn(resize: Resize, d: nat): Pc {
    if d == P.DEQUEUING_LOCKED then DeqReturned(Conflict)
    else DeqStart(resize, IndexOf(P.DequeuingIndex(d)), P.BufferLen(d), false)
  }

  // ---------------------------------------------------------------- words and records agree

  lemma {:induction false} WordFits(w: Word)
    requires w.remaining < CAPACITY_LIMIT
    ensures P.Fits(w.remaining, Bit(w.index))
    ensures P.IsClosed(PackWord(w)) == w.closed
    ensures P.RemainingCapacity(PackWord(w)) == w.remaining
    ensures IndexOf(P.BufferIndex(PackWord(w))) == w.index
  {
    P.FieldsOfPack(w.closed, w.remaining, Bit(w.index));
  }

  /** The exchange compares words; that is comparing records. */
  lemma {:induction false} SameWord(w: Word, w': Word)
    requires w.remaining < CAPACITY_LIMIT && w'.remaining < CAPACITY_LIMIT
    ensures PackWord(w) == PackWord(w') <==> w == w'
  {
    P.PackInjective(w.closed, w.remaining, Bit(w.index), w'.closed, w'.remaining, Bit(w'.index));
  }

  lemma {:induction false} ReserveAgrees(w: Word, size: nat)
    requires w.remaining < CAPACITY_LIMIT && !w.closed && size < SIZE_LIMIT
    ensures P.TryReserve(PackWord(w), size)
              == if size <= w.remaining then Some(PackWord(w.(remaining := w.remaining - size))) else None
  {
    P.ReserveExact(w.remaining, Bit(w.index), size);
  }

  lemma {:induction false} SwapAgrees(seen: Word, next: Next)
    requires seen.remaining < CAPACITY_LIMIT && |next.inserted| <= next.capacity < CAPACITY_LIMIT
    ensures SwappedIn(next, PackWord(seen)) ==
            Some(PackWord(Word(seen.closed, next.capacity - |next.inserted|, next.index)))
  {
    var capacity := next.capacity - |next.inserted|;
    P.NewEnqueuingPacks(Bit(next.index), capacity);
    P.FlagIsFieldwise(seen.closed, seen.remaining, Bit(seen.index), capacity, Bit(next.index));
  }

  lemma {:induction false} DequeuingAgrees(d: DequeuingWord)
    requires d.Saved? ==> d.length < CAPACITY_LIMIT
    ensures PackDequeuing(d) == P.DEQUEUING_LOCKED <==> d.Locked?
    ensures d.Saved? ==>
              IndexOf(P.DequeuingIndex(PackDequeuing(d))) == d.index && P.BufferLen(PackDequeuing(d)) == d.length
  {
    if d.Saved? {
      P.DequeuingFields(Bit(d.index), d.length);
    }
  }

  /** What the enqueuing threads carry is within the limits. */
  predicate CarriesFit(pc: Pc) {
    && (pc.EnqLoad? ==> |pc.value| < SIZE_LIMIT)
    && (pc.EnqCas? ==> pc.seen.remaining < CAPACITY_LIMIT && |pc.value| < SIZE_LIMIT)
  }

  ghost predicate AllFit(s: State) {
    forall t: Tid :: CarriesFit(s.PcOf(t))
  }

  lemma {:induction false} EnqueuingFits(s: State)
    requires Inv(s)
    ensures s.enq.remaining < CAPACITY_LIMIT && (s.deq.Saved? ==> s.deq.length < CAPACITY_LIMIT)
  {
  }

  lemma {:induction false} CarriedStep(s: State, t: Tid, a: Action)
    requires Enabled(s, t, a) && CarriesFit(s.PcOf(t)) && s.enq.remaining < CAPACITY_LIMIT
    ensures CarriesFit(Apply(s, t, a).PcOf(t))
  {
    if !Enqueuing(s.PcOf(t)) && !s.PcOf(t).Idle? {
      ControlFlow(s, t, a);
    }
  }

  lemma {:induction false} FitStep(s: State, t: Tid, a: Action)
    requires Inv(s) && Enabled(s, t, a) && AllFit(s)
    ensures AllFit(Apply(s, t, a))
  {
    EnqueuingFits(s);
    CarriedStep(s, t, a);
    forall u: Tid ensures CarriesFit(Apply(s, t, a).PcOf(u)) {
      if u != t {
        OnlyMover(s, t, a, u);
        assert CarriesFit(s.PcOf(u));
      }
    }
  }

  lemma {:induction false} FitRunStep(states: seq<State>, steps: seq<Step>, k: nat)
    requires Execution(states, steps) && k < |steps| && AllFit(states[k])
    ensures AllFit(states[k + 1])
  {
    ReachableInv(states, steps, k);
    FitStep(states[k], steps[k].t, steps[k].a);
  }

  lemma {:induction false} ReachableFit(states: seq<State>, steps: seq<Step>, k: nat)
    requires Execution(states, steps) && k < |states|
    ensures AllFit(states[k])
  {
    if k > 0 {
      ReachableFit(states, steps, k - 1);
      FitRunStep(states, steps, k - 1);
    }
  }

  /** Every word in memory or in the hands of a thread is within the capacity limit. */
  lemma {:induction false} WordsFit(s: State, t: Tid)
    requires Inv(s) && AllFit(s)
    ensures s.enq.remaining < CAPACITY_LIMIT && (s.deq.Saved? ==> s.deq.length < CAPACITY_LIMIT)
    ensures var pc := s.PcOf(t);
            && (pc.EnqLoad? ==> |pc.value| < SIZE_LIMIT)
            && (pc.EnqCas? ==> !pc.seen.closed && |pc.value| <= pc.seen.remaining < CAPACITY_LIMIT)
            && (pc.DeqSwap? ==>
                 pc.seen.remaining < CAPACITY_LIMIT && |pc.next.inserted| <= pc.next.capacity < CAPACITY_LIMIT)
  {
  }

  // ---------------------------------------------------------------- every step

  /** Only these steps write the enqueuing word. */
  lemma {:induction false} EnqueuingWrites(s: State, t: Tid, a: Action)
    requires Enabled(s, t, a) && !s.PcOf(t).Idle? && !s.PcOf(t).EnqCas? && !s.PcOf(t).DeqSwap?
    ensures Apply(s, t, a).enq == s.enq
  {
  }

  lemma {:induction false} FlagRefines(s: State, t: Tid, a: Action)
    requires s.PcOf(t) == Idle && Enabled(s, t, a) && s.enq.remaining < CAPACITY_LIMIT
    ensures EnqueuingAfter(PackWord(s.enq), Idle, a) == Some(PackWord(StartStep(s, t, a).enq))
  {
    P.FlagIsFieldwise(s.enq.closed, s.enq.remaining, Bit(s.enq.index), 0, 0);
  }

  lemma {:induction false} ReserveRefines(s: State, t: Tid, value: seq<Value>, seen: Word, a: Action)
    requires s.enq.remaining < CAPACITY_LIMIT && !seen.closed && |value| <= seen.remaining < CAPACITY_LIMIT
    ensures EnqueuingAfter(PackWord(s.enq), EnqCas(value, seen), a)
              == Some(PackWord(EnqCasStep(s, t, value, seen, a.FailSpuriously?).enq))
  {
  }

  lemma {:induction false} SwapRefines(s: State, t: Tid, next: Next, cap: nat, seen: Word, a: Action)
    requires s.enq.remaining < CAPACITY_LIMIT && seen.remaining < CAPACITY_LIMIT
    requires |next.inserted| <= next.capacity < CAPACITY_LIMIT
    ensures EnqueuingAfter(PackWord(s.enq), DeqSwap(next, cap, seen), a)
              == Some(PackWord(DeqSwapStep(s, t, next, cap, seen, a.FailSpuriously?).enq))
  {
    SwapAgrees(seen, next);
    SameWord(s.enq, seen);
  }

  lemma {:induction false} EnqueuingRefines(s: State, t: Tid, a: Action)
    requires Inv(s) && AllFit(s) && Enabled(s, t, a)
    ensures EnqueuingAfter(PackWord(s.enq), s.PcOf(t), a) == Some(PackWord(Apply(s, t, a).enq))
  {
    WordsFit(s, t);
    var pc := s.PcOf(t);
    if pc.Idle? {
      FlagRefines(s, t, a);
    } else if pc.EnqCas? {
      ReserveRefines(s, t, pc.value, pc.seen, a);
    } else if pc.DeqSwap? {
      SwapRefines(s, t, pc.next, pc.cap, pc.seen, a);
    } else {
      EnqueuingWrites(s, t, a);
    }
  }

  lemma {:induction false} HandedRefines(s: State, t: Tid, a: Action)
    requires Enabled(s, t, a) && Handed(s.PcOf(t))
    ensures DequeuingAfter(PackDequeuing(s.deq), s.PcOf(t), a) == PackDequeuing(Apply(s, t, a).deq)
  {
  }

  lemma {:induction false} StoreRefines(s: State, t: Tid, a: Action)
    requires Dequeuing(s.PcOf(t)) && !s.PcOf(t).DeqSwap? && Enabled(s, t, a)
    ensures DequeuingAfter(PackDequeuing(s.deq), s.PcOf(t), a) == PackDequeuing(Apply(s, t, a).deq)
  {
  }

  lemma {:induction false} DequeuingRefines(s: State, t: Tid, a: Action)
    requires Enabled(s, t, a)
    ensures DequeuingAfter(PackDequeuing(s.deq), s.PcOf(t), a) == PackDequeuing(Apply(s, t, a).deq)
  {
    if Handed(s.PcOf(t)) {
      HandedRefines(s, t, a);
    } else if Dequeuing(s.PcOf(t)) && !s.PcOf(t).DeqSwap? {
      StoreRefines(s, t, a);
    } else {
      OthersKeepLock(s, t, a);
    }
  }

  lemma {:induction false} OthersKeepLock(s: State, t: Tid, a: Action)
    requires Enabled(s, t, a) && (!Holds(s.PcOf(t)) || s.PcOf(t).DeqSwap?)
    ensures Apply(s, t, a).deq == if s.PcOf(t).DeqLock? then Locked else s.deq
  {
  }

  lemma {:induction false} DecisionRefines(s: State, t: Tid, a: Action)
    requires Inv(s) && AllFit(s) && Enabled(s, t, a)
    ensures var pc, pc' := s.PcOf(t), Apply(s, t, a).PcOf(t);
            && (pc.EnqLoad? ==> pc' == DecideOn(pc.value, PackWord(s.enq)))
            && (pc.EnqCas? && !pc'.EnqIndex? ==> pc' == DecideOn(pc.value, PackWord(s.enq)))
  {
    var pc := s.PcOf(t);
    if pc.EnqLoad? || pc.EnqCas? {
      WordsFit(s, t);
      WordFits(s.enq);
      if !s.enq.closed {
        ReserveAgrees(s.enq, |pc.value|);
      }
    }
  }

  lemma {:induction false} LoadRefines(s: State, t: Tid, a: Action)
    requires Inv(s) && AllFit(s) && Enabled(s, t, a)
    ensures var pc, pc' := s.PcOf(t), Apply(s, t, a).PcOf(t);
            && (pc.DeqLoad? ==> pc' == LoadOn(pc.next, PackWord(s.enq), |s.At(s.enq.index).cells|))
            && (pc.DeqLock? ==> pc' == LockOn(pc.resize, PackDequeuing(s.deq)))
  {
    WordsFit(s, t);
    WordFits(s.enq);
    DequeuingAgrees(s.deq);
  }

  /** In every execution, with every interleaving: the bit operations of the source, applied to the
      packed words, write exactly the packing of what module Protocol writes, and no assertion or
      overflow stops them; what the threads decide from the words they read is what Protocol decides;
      and the dequeuing word equals the lock sentinel exactly while the lock is held. */
  lemma {:induction false} WordsRefineRecords(states: seq<State>, steps: seq<Step>, k: nat)
    requires Execution(states, steps) && k < |steps|
    ensures var s, s', t, a := states[k], states[k + 1], steps[k].t, steps[k].a;
            var pc, pc', w, d := s.PcOf(t), s'.PcOf(t), PackWord(s.enq), PackDequeuing(s.deq);
            && EnqueuingAfter(w, pc, a) == Some(PackWord(s'.enq))
            && DequeuingAfter(d, pc, a) == PackDequeuing(s'.deq)
            && (d == P.DEQUEUING_LOCKED <==> s.deq.Locked?)
            && (pc.EnqLoad? ==> pc' == DecideOn(pc.value, w))
            && (pc.EnqCas? && !pc'.EnqIndex? ==> pc' == DecideOn(pc.value, w))
            && (pc.EnqCas? ==> (pc'.EnqIndex? <==> w == PackWord(pc.seen) && !a.FailSpuriously?))
            && (pc.DeqSwap? ==> (pc'.DeqCapacity? <==> w == PackWord(pc.seen) && !a.FailSpuriously?))
            && (pc.DeqLoad? ==> pc' == LoadOn(pc.next, w, |s.At(s.enq.index).cells|))
            && (pc.DeqLock? ==> pc' == LockOn(pc.resize, d))
  {
    ReachableInv(states, steps, k);
    ReachableFit(states, steps, k);
    var s, t, a := states[k], steps[k].t, steps[k].a;
    EnqueuingRefines(s, t, a);
    DequeuingRefines(s, t, a);
    DecisionRefines(s, t, a);
    LoadRefines(s, t, a);
    WordsFit(s, t);
    DequeuingAgrees(s.deq);
    ExchangeRefines(s, t, a);
  }

  lemma {:induction false} ExchangeRefines(s: State, t: Tid, a: Action)
    requires Inv(s) && AllFit(s) && Enabled(s, t, a)
    ensures var pc, pc', w := s.PcOf(t), Apply(s, t, a).PcOf(t), PackWord(s.enq);
            && (pc.EnqCas? ==> (pc'.EnqIndex? <==> w == PackWord(pc.seen) && !a.FailSpuriously?))
            && (pc.DeqSwap? ==> (pc'.DeqCapacity? <==> w == PackWord(pc.seen) && !a.FailSpuriously?))
  {
  }
}

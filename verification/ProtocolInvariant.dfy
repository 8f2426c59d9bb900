/** The invariant that every step of module Protocol keeps. */
module ProtocolInvariant {
  import opened Options
  import opened Protocol

  /** Number of reserved positions that are not acknowledged yet. */
  function InFlight(own: seq<Option<Tid>>): nat {
    if |own| == 0 then 0 else (if own[0].Some? then 1 else 0) + InFlight(own[1..])
  }

  predicate Settled(own: seq<Option<Tid>>) {
    forall p :: 0 <= p < |own| ==> own[p].None?
  }

  /** The buffer a dequeuing operation works on. */
  function Hidden(s: State): Index {
    Flip(s.enq.index)
  }

  /** Threads between a successful `lock_dequeuing` and the store that undoes it. */
  predicate Holds(pc: Pc) {
    || pc.DeqStart? || pc.DeqAdd? || pc.DeqLoad? || pc.DeqStoreBack? || pc.DeqSwap?
    || pc.DeqCapacity? || pc.DeqNotify? || pc.DeqStoreEmpty? || pc.Panicked?
    || pc.DeqSpin? || pc.DeqSave? || pc.Slice? || pc.Iter? || pc.RelLength? || pc.RelStore?
  }

  /** The thread has reserved positions of buffer `i` that it has not acknowledged. */
  predicate Claims(pc: Pc, i: Index) {
    || (pc.EnqIndex? && pc.won.index == i)
    || (pc.EnqInsert? && pc.won.index == i)
    || (pc.DeqAdd? && pc.next.index == i)
  }

  /** Bookkeeping of one buffer: the acknowledged length and the positions in flight add up to
      what was reserved, every acknowledged, undrained position holds its value, and the drained and
      free positions hold nothing but what a panicked pre-insertion has left. */
  ghost predicate SideOk(side: Side) {
    && |side.vals| == |side.own| <= |side.cells| < CAPACITY_LIMIT
    && side.length + InFlight(side.own) == |side.own|
    && side.drained <= |side.vals|
    && (side.drained > 0 ==> Settled(side.own))
    && |side.residue| <= |side.cells|
    && (side.residue != [] ==> side.vals == [])
    && (forall p :: 0 <= p < |side.cells| && (p < side.drained || |side.vals| <= p) ==>
         side.cells[p] == if p < |side.residue| then Some(side.residue[p]) else None)
    && (forall p :: side.drained <= p < |side.vals| && side.own[p].None? ==> side.cells[p] == Some(side.vals[p]))
  }

  /** The positions `base..base + |value|` are exactly those thread `t` has in flight in this
      buffer; the first `done` of them are filled. */
  ghost predicate ClaimOk(side: Side, t: Tid, base: nat, value: seq<Value>, done: nat) {
    && 0 < |value| && done <= |value|
    && base + |value| <= |side.own| == |side.vals| <= |side.cells|
    && (forall p :: base <= p < base + |value| ==>
         && side.own[p] == Some(t)
         && side.vals[p] == value[p - base]
         && side.cells[p] == if p < base + done then Some(side.vals[p]) else None)
    && (forall p :: 0 <= p < |side.own| && side.own[p] == Some(t) ==> base <= p < base + |value|)
  }

  /** What a saved length means: the undrained part, zero only for a released buffer. */
  ghost predicate SavedOk(side: Side, len: nat) {
    && len + side.drained == |side.vals|
    && (len == 0 ==> side.vals == [])
  }

  /** A buffer prepared for the swap holds exactly the pre-inserted values. */
  ghost predicate NextOk(enq: Word, sides: Sides, next: Next) {
    var side := sides.Get(Flip(enq.index));
    && next.index == Flip(enq.index)
    && |side.cells| == next.capacity
    && side.vals == next.inserted
    && side.drained == 0
    && (next.retried ==> !next.resized && next.inserted == [] && sides.Get(enq.index).vals != [])
  }

  /** The state of a dequeuing operation after its swap. */
  ghost predicate SwappedOk(enq: Word, sides: Sides, next: Next, cap: nat, won: Word) {
    var side, enqueuing := sides.Get(Flip(enq.index)), sides.Get(enq.index);
    && won.index == Flip(enq.index)
    && cap == |side.cells|
    && won.remaining + |side.vals| == cap
    && side.drained == 0
    && next.capacity == |enqueuing.cells|
    && |next.inserted| <= |enqueuing.vals|
    && (side.vals == [] ==> !next.retried && (next.resized || next.inserted != []))
  }

  /** What holds of a thread `t` that is at `pc`. */
  ghost predicate PcOk(enq: Word, sides: Sides, t: Tid, pc: Pc) {
    var hidden, enqueuing := Flip(enq.index), sides.Get(enq.index);
    match pc
    case EnqLoad(value) => value != []
    case EnqCas(value, seen) => value != [] && !seen.closed && |value| <= seen.remaining
    case EnqIndex(value, won) =>
      var side := sides.Get(won.index);
      won.remaining <= |side.cells| && ClaimOk(side, t, |side.cells| - won.remaining, value, 0)
    case EnqInsert(value, won, base, done) =>
      var side := sides.Get(won.index);
      base + won.remaining == |side.cells| && ClaimOk(side, t, base, value, done)
    case DeqStart(resize, i, len, retried) =>
      && i == hidden && SavedOk(sides.Get(i), len)
      && (retried ==> resize == NoResize && len == 0 && enqueuing.vals != [])
    case DeqAdd(next) =>
      && NextOk(enq, sides, next) && !next.retried
      && ClaimOk(sides.Get(next.index), t, 0, next.inserted, |next.inserted|)
    case DeqLoad(next) => NextOk(enq, sides, next) && Settled(sides.Get(next.index).own)
    case DeqSwap(next, cap, seen) =>
      && NextOk(enq, sides, next) && Settled(sides.Get(next.index).own)
      && seen.index == enq.index
      && cap == |enqueuing.cells|
      && enq.remaining <= seen.remaining <= cap
      && (!next.resized && next.inserted == [] ==> enqueuing.vals != [])
    case DeqCapacity(next, cap, won) => SwappedOk(enq, sides, next, cap, won)
    case DeqNotify(next, cap, won) => SwappedOk(enq, sides, next, cap, won)
    case DeqStoreBack(i, error) => i == hidden && sides.Get(i).vals == []
    case DeqStoreEmpty(i) => i == hidden && sides.Get(i).vals == []
    case Panicked(i) => i == hidden && sides.Get(i).vals == []
    case DeqSpin(i, len, spins) => i == hidden && len > 0 && SavedOk(sides.Get(i), len) && 0 < spins <= SPIN_LIMIT
    case DeqSave(i, len) => i == hidden && len > 0 && SavedOk(sides.Get(i), len)
    case Slice(i, lo, hi) => i == hidden && HandedOk(sides.Get(i), lo, hi)
    case Iter(i, lo, hi) => i == hidden && HandedOk(sides.Get(i), lo, hi)
    case RelLength(i) => i == hidden && HandedOk(sides.Get(i), |sides.Get(i).vals|, |sides.Get(i).vals|)
    case RelStore(i) => i == hidden && sides.Get(i).vals == []
    case _ => true
  }

  /** A range handed out is the undrained part of a buffer with nothing in flight. */
  ghost predicate HandedOk(side: Side, lo: nat, hi: nat) {
    Settled(side.own) && lo == side.drained && hi == |side.vals|
  }

  ghost predicate ThreadsOk(s: State) {
    forall t: Tid :: PcOk(s.enq, s.sides, t, s.PcOf(t))
  }

  /** The dequeuing lock has the holder it records, and no other. */
  ghost predicate LockOk(s: State) {
    && (s.deq.Locked? <==> s.holder.Some?)
    && (forall t: Tid :: Holds(s.PcOf(t)) <==> s.holder == Some(t))
    && (s.deq.Saved? ==> s.deq.index == Hidden(s) && SavedOk(s.At(s.deq.index), s.deq.length))
  }

  /** Every position in flight belongs to a thread that is inserting it. */
  ghost predicate OwnersOk(s: State, i: Index) {
    var own := s.At(i).own;
    forall p :: 0 <= p < |own| && own[p].Some? ==> Claims(s.PcOf(own[p].value), i)
  }

  ghost predicate EnqueuingOk(enq: Word, side: Side) {
    enq.remaining + |side.vals| == |side.cells| && side.drained == 0 && side.residue == []
  }

  /** Between the preparation of a buffer and the swap, pre-inserted values are not published. */
  predicate Unpublished(pc: Pc) {
    pc.DeqAdd? || pc.DeqLoad? || pc.DeqSwap?
  }

  /** The published values of the buffer being dequeued that have not been consumed. */
  ghost function Undrained(s: State): seq<Value> {
    var side := s.At(Hidden(s));
    if s.holder.Some? && Unpublished(s.PcOf(s.holder.value)) then []
    else if side.drained <= |side.vals| then side.vals[side.drained..]
    else []
  }

  /** Every published value has been consumed or is still in one of the buffers, in order. */
  ghost predicate LogOk(s: State) {
    s.log == s.consumed + Undrained(s) + s.At(s.enq.index).vals
  }

  /** `capacity()` is that of the enqueuing buffer, except right after a swap. */
  ghost predicate CapacityOk(s: State) {
    || s.capacity == |s.At(s.enq.index).cells|
    || (s.holder.Some? && s.PcOf(s.holder.value).DeqCapacity?)
  }

  /** Only a thread that has panicked while pre-inserting leaves values nobody reserved. */
  ghost predicate ResidueOk(s: State) {
    || (s.sides.zero.residue == [] && s.sides.one.residue == [])
    || (s.holder.Some? && s.PcOf(s.holder.value).Panicked?)
  }

  ghost predicate Inv(s: State) {
    && !s.fault
    && CapacityOk(s)
    && ResidueOk(s)
    && SideOk(s.sides.zero) && SideOk(s.sides.one)
    && LockOk(s)
    && EnqueuingOk(s.enq, s.At(s.enq.index))
    && OwnersOk(s, Zero) && OwnersOk(s, One)
    && ThreadsOk(s)
    && LogOk(s)
  }
}

/** The swap-buffer queue of `src/queue.rs` as a step system.

    Any number of threads run `try_enqueue`, `try_dequeue`, `try_dequeue_and_resize`, `close` and
    `reopen` on one queue.  A step of a thread is one atomic access (or one exclusive access to a
    buffer) followed by the local computation up to the next one; steps of different threads
    interleave arbitrarily, under sequential consistency.

    Fields marked "history" are written but never read by the steps; they only record what
    happened, so that the properties can be stated. */
module Protocol {
  import opened Options

  /** Identity of a thread. */
  type Tid = nat

  /** What one buffer cell holds; the protocol never inspects it. */
  type Value = int

  /** `usize::MAX >> 2`: every capacity is checked to be below it. */
  const CAPACITY_LIMIT: nat := 0x3FFF_FFFF_FFFF_FFFF

  /** Sizes of this or more are truncated by the shift in `try_reserve` (see module PackedWords). */
  const SIZE_LIMIT: nat := 0x8000_0000_0000_0000

  const SPIN_LIMIT: nat := 64

  datatype Index = Zero | One

  function Flip(i: Index): Index {
    if i == Zero then One else Zero
  }

  /** The enqueuing word, unpacked. */
  datatype Word = Word(closed: bool, remaining: nat, index: Index)

  /** The dequeuing word, unpacked; `Locked` is the sentinel. */
  datatype DequeuingWord = Locked | Saved(index: Index, length: nat)

  /** One of the two buffers with its acknowledged length.
      History: `vals` are the values reserved in this generation, by position; `own[p]` is the
      thread whose reservation of position `p` is not acknowledged yet; `drained` counts the
      positions already removed or cleared; `residue` is what a pre-insertion wrote before it panicked. */
  datatype Side = Side(
    cells: seq<Option<Value>>,
    length: nat,
    vals: seq<Value>,
    own: seq<Option<Tid>>,
    drained: nat,
    residue: seq<Value> := []
  )

  datatype Sides = Sides(zero: Side, one: Side) {
    function Get(i: Index): Side {
      if i == Zero then zero else one
    }

    function Set(i: Index, side: Side): Sides {
      if i == Zero then this.(zero := side) else this.(one := side)
    }
  }

  /** What `try_dequeue_and_resize` asks for; `NoResize` is plain `try_dequeue`. */
  datatype Resize = NoResize | ResizeTo(capacity: Option<nat>, insert: seq<seq<Value>>)

  datatype EnqueueResult = EnqueueOk | InsufficientCapacity | EnqueueClosed

  datatype DequeueError = Empty | Pending | Closed | Conflict

  /** What a dequeuing thread carries from the preparation of the next buffer to the swap:
      the index of that buffer, whether it was resized, the values inserted into it, its capacity,
      and whether this is the retry after an empty swap. */
  datatype Next = Next(index: Index, resized: bool, inserted: seq<Value>, capacity: nat, retried: bool)

  /** Where a thread is. */
  datatype Pc =
    | Idle
    // try_enqueue
    | EnqLoad(value: seq<Value>)
    | EnqCas(value: seq<Value>, seen: Word)
    | EnqIndex(value: seq<Value>, won: Word)
    | EnqInsert(value: seq<Value>, won: Word, base: nat, done: nat)
    | EnqNotify
    | EnqReturned(result: EnqueueResult)
    // lock_dequeuing and try_dequeue_internal
    | DeqLock(resize: Resize)
    | DeqStart(resize: Resize, index: Index, len: nat, retried: bool)
    | DeqAdd(next: Next)
    | DeqLoad(next: Next)
    | DeqStoreBack(index: Index, error: DequeueError)
    | DeqSwap(next: Next, cap: nat, seen: Word)
    | DeqCapacity(next: Next, cap: nat, won: Word)
    | DeqNotify(next: Next, cap: nat, won: Word)
    | DeqStoreEmpty(index: Index)
    | Panicked(index: Index)
    // try_dequeue_spin
    | DeqSpin(index: Index, len: nat, spins: nat)
    | DeqSave(index: Index, len: nat)
    | DeqReturned(error: DequeueError)
    // BufferSlice and BufferIter
    | Slice(index: Index, lo: nat, hi: nat)
    | Iter(index: Index, lo: nat, hi: nat)
    | RelLength(index: Index)
    | RelStore(index: Index)
    // close
    | CloseNotifyDequeue
    | CloseNotifyEnqueue

  /** The queue and everything running on it.
      History: `holder` is the thread that holds the dequeuing lock; `log` the values in the order
      of their reservation (pre-inserted ones at the swap that publishes them); `consumed` the
      values actually read out of cells by draining or clearing; `fault` is set by an access the
      buffers do not allow: reading an empty cell, overwriting a full one, leaving the bounds. */
  datatype State = State(
    enq: Word,
    deq: DequeuingWord,
    sides: Sides,
    capacity: nat,
    threads: map<Tid, Pc>,
    holder: Option<Tid>,
    log: seq<Value>,
    consumed: seq<Value>,
    fault: bool
  ) {
    function PcOf(t: Tid): Pc {
      if t in threads then threads[t] else Idle
    }

    function Go(t: Tid, pc: Pc): State {
      this.(threads := threads[t := pc])
    }

    function At(i: Index): Side {
      sides.Get(i)
    }

    function Put(i: Index, side: Side): State {
      this.(sides := sides.Set(i, side))
    }
  }

  /** What a thread does in a step: it starts an operation, advances the one it runs, fails a
      `compare_exchange_weak` for no reason, or uses the slice or iterator it holds. */
  datatype Action =
    | StartEnqueue(value: seq<Value>)
    | StartDequeue(resize: Resize)
    | Close
    | Reopen
    | Advance
    | FailSpuriously
    | Release
    | Requeue
    | IntoIter
    | IntoSlice
    | TakeNext

  function EmptyCells(n: nat): seq<Option<Value>> {
    seq(n, _ => None)
  }

  function Filled(values: seq<Value>): seq<Option<Value>> {
    seq(|values|, i requires 0 <= i < |values| => Some(values[i]))
  }

  function Owned(t: Tid, n: nat): seq<Option<Tid>> {
    seq(n, _ => Some(t))
  }

  function Unowned(n: nat): seq<Option<Tid>> {
    seq(n, _ => None)
  }

  /** Reads cells as initialised values; only meaningful when none of them is empty. */
  function Contents(cells: seq<Option<Value>>): seq<Value> {
    seq(|cells|, i requires 0 <= i < |cells| => if cells[i].Some? then cells[i].value else 0)
  }

  predicate AllFull(cells: seq<Option<Value>>) {
    forall p :: 0 <= p < |cells| ==> cells[p].Some?
  }

  predicate AllEmpty(cells: seq<Option<Value>>) {
    forall p :: 0 <= p < |cells| ==> cells[p].None?
  }

  // ---------------------------------------------------------------- try_enqueue

  /** The tests made on a freshly loaded word, before trying to reserve. */
  function Decide(value: seq<Value>, w: Word): Pc {
    if w.closed then EnqReturned(EnqueueClosed)
    else if w.remaining < |value| then EnqReturned(InsufficientCapacity)
    else EnqCas(value, w)
  }

  function EnqLoadStep(s: State, t: Tid, value: seq<Value>): State {
    s.Go(t, Decide(value, s.enq))
  }

  /** The reservation: a successful exchange takes the next `|value|` positions. */
  function EnqCasStep(s: State, t: Tid, value: seq<Value>, seen: Word, spurious: bool): State
    requires |value| <= seen.remaining
  {
    if s.enq == seen && !spurious then
      s.Put(seen.index, Reserve(s.At(seen.index), t, value))
      .(enq := seen.(remaining := seen.remaining - |value|), log := s.log + value)
      .Go(t, EnqIndex(value, seen))
    else
      s.Go(t, Decide(value, s.enq))
  }

  /** History: thread `t` has reserved the next positions, for `value`. */
  function Reserve(side: Side, t: Tid, value: seq<Value>): Side {
    side.(vals := side.vals + value, own := side.own + Owned(t, |value|))
  }

  /** Reads the capacity of the buffer to find where to insert. */
  function EnqIndexStep(s: State, t: Tid, value: seq<Value>, won: Word): State {
    var capacity := |s.At(won.index).cells|;
    if won.remaining <= capacity then
      s.Go(t, EnqInsert(value, won, capacity - won.remaining, 0))
    else
      s.(fault := true).Go(t, EnqInsert(value, won, 0, 0))
  }

  /** Inserts the next cell of the value, or acknowledges the whole value once inserted. */
  function EnqInsertStep(s: State, t: Tid, value: seq<Value>, won: Word, base: nat, done: nat): State {
    var side := s.At(won.index);
    if done < |value| then
      var p := base + done;
      var s' := if p < |side.cells| && side.cells[p].None?
                then s.Put(won.index, side.(cells := side.cells[p := Some(value[done])]))
                else s.(fault := true);
      s'.Go(t, EnqInsert(value, won, base, done + 1))
    else
      s.Put(won.index, Acked(side, base, |value|)).Go(t, EnqNotify)
  }

  /** Adds `n` to the acknowledged length, for the positions from `base`. */
  function Acked(side: Side, base: nat, n: nat): Side {
    side.(length := side.length + n, own := Acknowledge(side.own, base, n))
  }

  /** History: positions `base..base + n` are no longer in flight. */
  function Acknowledge(own: seq<Option<Tid>>, base: nat, n: nat): seq<Option<Tid>> {
    if base + n <= |own| then own[..base] + Unowned(n) + own[base + n..] else own
  }

  // ---------------------------------------------------------------- try_dequeue

  function DeqLockStep(s: State, t: Tid, resize: Resize): State {
    match s.deq
    case Locked => s.Go(t, DeqReturned(Conflict))
    case Saved(i, n) => s.(deq := Locked, holder := Some(t)).Go(t, DeqStart(resize, i, n, false))
  }

  /** What the pre-insertion loop writes: all the values it reaches, or the cells it fills before an
      insertion beyond the end of the buffer panics. */
  datatype Inserted = Fits(values: seq<Value>) | Overflows(values: seq<Value>) {
    function Behind(value: seq<Value>): Inserted {
      this.(values := value + values)
    }
  }

  /** The pre-insertion loop: empty values are skipped, the first one larger than the whole capacity
      ends the loop, and one larger than what is left is written as far as it goes. */
  function PreInsert(capacity: nat, length: nat, values: seq<seq<Value>>): (r: Inserted)
    requires length <= capacity
    ensures length + |r.values| <= capacity
    ensures r.Overflows? ==> length + |r.values| == capacity
    decreases |values|
  {
    if |values| == 0 then Fits([])
    else if |values[0]| == 0 then PreInsert(capacity, length, values[1..])
    else if |values[0]| > capacity then Fits([])
    else if length + |values[0]| > capacity then Overflows(values[0][..capacity - length])
    else PreInsert(capacity, length + |values[0]|, values[1..]).Behind(values[0])
  }

  /** What the resize closure makes of the next buffer; `clobbers` when it writes over a full cell. */
  datatype Prepared =
    | Panic(cells: seq<Option<Value>>, inserted: seq<Value>, clobbers: bool)
    | Ready(resized: bool, cells: seq<Option<Value>>, inserted: seq<Value>, clobbers: bool)

  function Prepare(cells: seq<Option<Value>>, resize: Resize): Prepared {
    match resize
    case NoResize => Ready(false, cells, [], false)
    case ResizeTo(capacity, insert) =>
      var resized := capacity.Some? && capacity.value != |cells|;
      if resized && capacity.value >= CAPACITY_LIMIT then Panic(cells, [], false)
      else
        var cells' := if resized then EmptyCells(capacity.value) else cells;
        var done := PreInsert(|cells'|, 0, insert);
        var written := Filled(done.values) + cells'[|done.values|..];
        var clobbers := !AllEmpty(cells'[..|done.values|]);
        if done.Fits? then Ready(resized, written, done.values, clobbers) else Panic(written, done.values, clobbers)
  }

  /** With a saved length, back to waiting for it; otherwise the next buffer is prepared. */
  function DeqStartStep(s: State, t: Tid, resize: Resize, i: Index, len: nat, retried: bool): State {
    if len > 0 then s.Go(t, DeqSpin(i, len, SPIN_LIMIT))
    else
      var side := s.At(i);
      match Prepare(side.cells, resize)
      case Panic(cells, written, clobbers) =>
        s.Put(i, side.(cells := cells, residue := written)).(fault := s.fault || clobbers).Go(t, Panicked(i))
      case Ready(resized, cells, inserted, clobbers) =>
        var next := Next(i, resized, inserted, |cells|, retried);
        s.Put(i, Reserve(side.(cells := cells), t, inserted))
        .(fault := s.fault || clobbers)
        .Go(t, if |inserted| > 0 then DeqAdd(next) else DeqLoad(next))
  }

  function DeqAddStep(s: State, t: Tid, next: Next): State {
    s.Put(next.index, Acked(s.At(next.index), 0, |next.inserted|)).Go(t, DeqLoad(next))
  }

  /** Loads the enqueuing word; an empty enqueuing buffer ends the call unless the next one changed. */
  function DeqLoadStep(s: State, t: Tid, next: Next): State {
    var cap := |s.At(s.enq.index).cells|;
    if s.enq.remaining == cap && !next.resized && |next.inserted| == 0 then
      s.Go(t, DeqStoreBack(next.index, if s.enq.closed then Closed else Empty))
    else
      s.Go(t, DeqSwap(next, cap, s.enq))
  }

  function DeqStoreStep(s: State, t: Tid, i: Index, len: nat, error: DequeueError): State {
    s.(deq := Saved(i, len), holder := None).Go(t, DeqReturned(error))
  }

  /** The swap: the prepared buffer becomes the enqueuing one, the closed flag is kept. */
  function DeqSwapStep(s: State, t: Tid, next: Next, cap: nat, seen: Word, spurious: bool): State {
    if s.enq == seen && !spurious then
      if |next.inserted| <= next.capacity then
        s.(enq := Word(seen.closed, next.capacity - |next.inserted|, next.index),
           log := s.log + next.inserted)
        .Go(t, DeqCapacity(next, cap, seen))
      else s.(fault := true).Go(t, Panicked(next.index))
    else s.Go(t, DeqSwap(next, cap, s.enq))
  }

  function DeqCapacityStep(s: State, t: Tid, next: Next, cap: nat, won: Word): State {
    s.(capacity := next.capacity).Go(t, DeqNotify(next, cap, won))
  }

  /** After the swap: wait for what was reserved, retry for what was pre-inserted, or give up. */
  function DeqNotifyStep(s: State, t: Tid, next: Next, cap: nat, won: Word): State {
    if won.remaining < cap then s.Go(t, DeqSpin(won.index, cap - won.remaining, SPIN_LIMIT))
    else if |next.inserted| > 0 then s.Go(t, DeqStart(NoResize, won.index, 0, true))
    else s.Go(t, DeqStoreEmpty(won.index))
  }

  /** Hands out a slice once the acknowledged length has reached the expected one. */
  function DeqSpinStep(s: State, t: Tid, i: Index, len: nat, spins: nat): State {
    var side := s.At(i);
    if side.length >= len then
      var lo, hi := side.length - len, side.length;
      var legal := hi <= |side.cells| && AllFull(side.cells[lo..hi]);
      s.(fault := s.fault || !legal).Go(t, Slice(i, lo, hi))
    else if spins > 1 then s.Go(t, DeqSpin(i, len, spins - 1))
    else s.Go(t, DeqSave(i, len))
  }

  /** The buffer after the cells `lo..hi` have been read out. */
  function Cleared(side: Side, lo: nat, hi: nat): Side
    requires lo <= hi <= |side.cells|
  {
    side.(cells := side.cells[..lo] + EmptyCells(hi - lo) + side.cells[hi..], drained := side.drained + (hi - lo))
  }

  /** Clearing reads out every cell of the range. */
  function ReleaseStep(s: State, t: Tid, i: Index, lo: nat, hi: nat): State {
    var side := s.At(i);
    if lo <= hi <= |side.cells| then
      s.Put(i, Cleared(side, lo, hi))
      .(consumed := s.consumed + Contents(side.cells[lo..hi]),
        fault := s.fault || !AllFull(side.cells[lo..hi]))
      .Go(t, RelLength(i))
    else s.(fault := true).Go(t, RelLength(i))
  }

  function RequeueStep(s: State, t: Tid, i: Index, lo: nat, hi: nat): State {
    if lo < hi then s.(deq := Saved(i, hi - lo), holder := None).Go(t, Idle)
    else ReleaseStep(s, t, i, lo, hi)
  }

  function TakeNextStep(s: State, t: Tid, i: Index, lo: nat, hi: nat): State {
    var side := s.At(i);
    if lo >= hi then s
    else if lo < |side.cells| then
      s.Put(i, Cleared(side, lo, lo + 1))
      .(consumed := s.consumed + Contents(side.cells[lo..lo + 1]),
        fault := s.fault || side.cells[lo].None?)
      .Go(t, Iter(i, lo + 1, hi))
    else s.(fault := true)
  }

  /** `get_slice` on the remaining range. */
  function IntoSliceStep(s: State, t: Tid, i: Index, lo: nat, hi: nat): State {
    var side := s.At(i);
    var legal := lo <= hi <= |side.cells| && AllFull(side.cells[lo..hi]);
    s.(fault := s.fault || !legal).Go(t, Slice(i, lo, hi))
  }

  function RelLengthStep(s: State, t: Tid, i: Index): State {
    s.Put(i, s.At(i).(length := 0, vals := [], own := [], drained := 0)).Go(t, RelStore(i))
  }

  function RelStoreStep(s: State, t: Tid, i: Index): State {
    s.(deq := Saved(i, 0), holder := None).Go(t, Idle)
  }

  // ---------------------------------------------------------------- steps

  predicate Enabled(s: State, t: Tid, a: Action) {
    match s.PcOf(t)
    case Idle =>
      || (a.StartEnqueue? && |a.value| < SIZE_LIMIT)
      || a.StartDequeue? || a.Close? || a.Reopen?
    case EnqCas(value, seen) => (a.Advance? || a.FailSpuriously?) && |value| <= seen.remaining
    case DeqSwap(_, _, _) => a.Advance? || a.FailSpuriously?
    case Slice(_, _, _) => a.Release? || a.Requeue? || a.IntoIter?
    case Iter(_, _, _) => a.TakeNext? || a.Requeue? || a.IntoSlice?
    case Panicked(_) => false
    case _ => a.Advance?
  }

  /** Steps of `try_enqueue` up to the acknowledgement. */
  function EnqueueStep(s: State, t: Tid, a: Action): State
    requires Enabled(s, t, a)
  {
    match s.PcOf(t)
    case EnqLoad(value) => EnqLoadStep(s, t, value)
    case EnqCas(value, seen) => EnqCasStep(s, t, value, seen, a.FailSpuriously?)
    case EnqIndex(value, won) => EnqIndexStep(s, t, value, won)
    case EnqInsert(value, won, base, done) => EnqInsertStep(s, t, value, won, base, done)
    case _ => s
  }

  /** Steps of `try_dequeue_internal` and `try_dequeue_spin`. */
  function DequeueStep(s: State, t: Tid): State {
    match s.PcOf(t)
    case DeqStart(resize, i, len, retried) => DeqStartStep(s, t, resize, i, len, retried)
    case DeqAdd(next) => DeqAddStep(s, t, next)
    case DeqLoad(next) => DeqLoadStep(s, t, next)
    case DeqStoreBack(i, error) => DeqStoreStep(s, t, i, 0, error)
    case DeqCapacity(next, cap, won) => DeqCapacityStep(s, t, next, cap, won)
    case DeqNotify(next, cap, won) => DeqNotifyStep(s, t, next, cap, won)
    case DeqStoreEmpty(i) => DeqStoreStep(s, t, i, 0, Empty)
    case DeqSpin(i, len, spins) => DeqSpinStep(s, t, i, len, spins)
    case DeqSave(i, len) => DeqStoreStep(s, t, i, len, Pending)
    case _ => s
  }

  /** What the owner of a slice does with it. */
  function SliceStep(s: State, t: Tid, i: Index, lo: nat, hi: nat, a: Action): State {
    match a
    case Release => ReleaseStep(s, t, i, lo, hi)
    case Requeue => RequeueStep(s, t, i, lo, hi)
    case _ => s.Go(t, Iter(i, lo, hi))
  }

  /** What the owner of an iterator does with it; dropping it is requeuing. */
  function IterStep(s: State, t: Tid, i: Index, lo: nat, hi: nat, a: Action): State {
    match a
    case TakeNext => TakeNextStep(s, t, i, lo, hi)
    case Requeue => RequeueStep(s, t, i, lo, hi)
    case _ => IntoSliceStep(s, t, i, lo, hi)
  }

  function StartStep(s: State, t: Tid, a: Action): State {
    match a
    case StartEnqueue(value) => s.Go(t, if |value| == 0 then EnqReturned(EnqueueOk) else EnqLoad(value))
    case StartDequeue(resize) => s.Go(t, DeqLock(resize))
    case Close => s.(enq := s.enq.(closed := true)).Go(t, CloseNotifyDequeue)
    case _ => s.(enq := s.enq.(closed := false)).Go(t, Idle)
  }

  /** The effect of one step. */
  function Apply(s: State, t: Tid, a: Action): State
    requires Enabled(s, t, a)
  {
    match s.PcOf(t)
    case Idle => StartStep(s, t, a)
    case EnqLoad(_) => EnqueueStep(s, t, a)
    case EnqCas(_, _) => EnqueueStep(s, t, a)
    case EnqIndex(_, _) => EnqueueStep(s, t, a)
    case EnqInsert(_, _, _, _) => EnqueueStep(s, t, a)
    case EnqNotify => s.Go(t, EnqReturned(EnqueueOk))
    case EnqReturned(_) => s.Go(t, Idle)
    case DeqLock(resize) => DeqLockStep(s, t, resize)
    case DeqSwap(next, cap, seen) => DeqSwapStep(s, t, next, cap, seen, a.FailSpuriously?)
    case DeqReturned(_) => s.Go(t, Idle)
    case Slice(i, lo, hi) => SliceStep(s, t, i, lo, hi, a)
    case Iter(i, lo, hi) => IterStep(s, t, i, lo, hi, a)
    case RelLength(i) => RelLengthStep(s, t, i)
    case RelStore(i) => RelStoreStep(s, t, i)
    case CloseNotifyDequeue => s.Go(t, CloseNotifyEnqueue)
    case CloseNotifyEnqueue => s.Go(t, Idle)
    case _ => DequeueStep(s, t)
  }

  /** A queue just created, by `new` or `with_capacity`. */
  predicate Init(s: State) {
    exists c: nat :: c < CAPACITY_LIMIT && s == Created(c)
  }

  function Created(capacity: nat): State {
    var side := Side(EmptyCells(capacity), 0, [], [], 0);
    State(Word(false, capacity, Zero), Saved(One, 0), Sides(side, side), capacity, map[], None, [], [], false)
  }
}

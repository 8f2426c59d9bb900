/** What holds of every execution of the queue. */
module ProtocolTheorems {
  import opened Options
  import opened Protocol
  import opened ProtocolInvariant
  import opened ProtocolSteps

  datatype Step = Step(t: Tid, a: Action)

  ghost predicate Shaped(states: seq<State>, steps: seq<Step>) {
    |states| == |steps| + 1
  }

  /** Consecutive states, each one step of some thread after the previous one. */
  ghost predicate Segment(states: seq<State>, steps: seq<Step>) {
    && Shaped(states, steps)
    && (forall k {:trigger steps[k]} :: 0 <= k < |steps| ==>
         Enabled(states[k], steps[k].t, steps[k].a) && states[k + 1] == Apply(states[k], steps[k].t, steps[k].a))
  }

  /** A segment that starts with a queue just created: any interleaving of any threads. */
  ghost predicate Execution(states: seq<State>, steps: seq<Step>) {
    Segment(states, steps) && Init(states[0])
  }

  /** A new queue is open and empty, with the capacity it was created with in both buffers: it has room for a
      value exactly if that is not larger. */
  lemma {:induction false} NewQueue(capacity: nat, v: seq<Value>)
    requires capacity < CAPACITY_LIMIT
    ensures var s := Created(capacity);
            && Init(s) && !s.enq.closed && s.capacity == capacity && s.deq == Saved(Hidden(s), 0) && s.log == []
            && (forall i :: |s.At(i).cells| == capacity && AllEmpty(s.At(i).cells))
            && (Decide(v, s.enq).EnqCas? <==> |v| <= capacity)
  {
    assert Init(Created(capacity));
  }

  lemma {:induction false} InitOk(s: State)
    requires Init(s)
    ensures Inv(s)
  {
  }

  lemma {:induction false} SegmentInv(states: seq<State>, steps: seq<Step>, k: nat)
    requires Segment(states, steps) && Inv(states[0]) && k < |states|
    ensures Inv(states[k])
  {
    if k > 0 {
      SegmentInv(states, steps, k - 1);
      StepKeeps(states[k - 1], steps[k - 1].t, steps[k - 1].a);
    }
  }

  lemma {:induction false} ReachableInv(states: seq<State>, steps: seq<Step>, k: nat)
    requires Execution(states, steps) && k < |states|
    ensures Inv(states[k])
  {
    InitOk(states[0]);
    SegmentInv(states, steps, k);
  }

  // ---------------------------------------------------------------- FIFO

  /** The values a slice or an iterator gives access to. */
  function View(s: State, i: Index, lo: nat, hi: nat): seq<Option<Value>> {
    var cells := s.At(i).cells;
    if lo <= hi <= |cells| then cells[lo..hi] else []
  }

  /** In every execution no thread reads an empty cell, overwrites a full one or leaves the
      bounds; what has been consumed is a prefix of what was reserved, in reservation order; and
      what a slice shows is exactly what comes next. */
  lemma {:induction false} Fifo(states: seq<State>, steps: seq<Step>, k: nat)
    requires Execution(states, steps) && k < |states|
    ensures !states[k].fault
    ensures states[k].consumed <= states[k].log
    ensures forall t: Tid :: (states[k].PcOf(t).Slice? || states[k].PcOf(t).Iter?) ==>
              var s, pc := states[k], states[k].PcOf(t);
              var n := |s.consumed|;
              && pc.lo <= pc.hi && n + (pc.hi - pc.lo) <= |s.log|
              && View(s, pc.index, pc.lo, pc.hi) == Filled(s.log[n..n + (pc.hi - pc.lo)])
  {
    ReachableInv(states, steps, k);
    var s := states[k];
    assert s.consumed <= s.consumed + Undrained(s) + s.At(s.enq.index).vals;
    forall t: Tid | s.PcOf(t).Slice? || s.PcOf(t).Iter?
      ensures var pc := s.PcOf(t);
              var n := |s.consumed|;
              && pc.lo <= pc.hi && n + (pc.hi - pc.lo) <= |s.log|
              && View(s, pc.index, pc.lo, pc.hi) == Filled(s.log[n..n + (pc.hi - pc.lo)])
    {
      HandedIsNext(s, t);
    }
  }

  lemma {:induction false} HandedIsNext(s: State, t: Tid)
    requires Inv(s) && (s.PcOf(t).Slice? || s.PcOf(t).Iter?)
    ensures var pc := s.PcOf(t);
            var n := |s.consumed|;
            && pc.lo <= pc.hi && n + (pc.hi - pc.lo) <= |s.log|
            && View(s, pc.index, pc.lo, pc.hi) == Filled(s.log[n..n + (pc.hi - pc.lo)])
  {
    ThreadAt(s, t);
    var pc := s.PcOf(t);
    var side := s.At(pc.index);
    assert Undrained(s) == side.vals[pc.lo..] by {
      assert s.holder == Some(t);
    }
    HandedIsFilled(side, pc.lo, pc.hi);
    MiddleOf(s.consumed, side.vals[pc.lo..], s.At(s.enq.index).vals);
  }

  lemma {:induction false} HandedIsFilled(side: Side, lo: nat, hi: nat)
    requires SideOk(side) && HandedOk(side, lo, hi)
    ensures lo <= hi <= |side.cells| && |side.vals[lo..]| == hi - lo
    ensures side.cells[lo..hi] == Filled(side.vals[lo..])
  {
    assert forall p :: lo <= p < hi ==> side.cells[p] == Some(side.vals[p]);
    FilledRange(side.cells, side.vals, lo);
  }

  lemma {:induction false} FilledRange(cells: seq<Option<Value>>, vals: seq<Value>, lo: nat)
    requires lo <= |vals| <= |cells| && forall p :: lo <= p < |vals| ==> cells[p] == Some(vals[p])
    ensures cells[lo..|vals|] == Filled(vals[lo..])
  {
  }

  lemma {:induction false} MiddleOf(a: seq<Value>, b: seq<Value>, c: seq<Value>)
    ensures (a + b + c)[|a|..|a| + |b|] == b
  {
  }

  /** Nothing is lost: whatever was reserved or published has been consumed or sits in one of the
      two buffers, the older ones in the buffer being dequeued. */
  lemma {:induction false} NothingLost(states: seq<State>, steps: seq<Step>, k: nat)
    requires Execution(states, steps) && k < |states|
    ensures var s := states[k];
            s.log == s.consumed + Undrained(s) + s.At(s.enq.index).vals
  {
    ReachableInv(states, steps, k);
  }

  // ---------------------------------------------------------------- exclusive access

  /** The next step of a thread at `pc` uses buffer `i` as its own: it resizes or fills it before
      the swap, shows it as a slice, drains it or clears it. */
  predicate UsesExclusively(s: State, pc: Pc, i: Index) {
    || (pc.DeqStart? && pc.index == i && pc.len == 0)
    || (pc.DeqSpin? && pc.index == i && pc.len <= s.At(i).length)
    || (pc.Slice? && pc.index == i)
    || (pc.Iter? && pc.index == i)
    || (pc.RelLength? && pc.index == i)
  }

  /** Whoever uses a buffer as its own holds the dequeuing lock alone, the buffer is not the one
      being enqueued into, and no thread has an unacknowledged reservation in it. */
  lemma {:induction false} ExclusiveAccess(states: seq<State>, steps: seq<Step>, k: nat, t: Tid, i: Index)
    requires Execution(states, steps) && k < |states| && UsesExclusively(states[k], states[k].PcOf(t), i)
    ensures states[k].deq.Locked?
    ensures i != states[k].enq.index
    ensures forall u: Tid :: u != t ==> !Holds(states[k].PcOf(u)) && !UsesExclusively(states[k], states[k].PcOf(u), i)
    ensures forall u: Tid :: !Claims(states[k].PcOf(u), i)
  {
    ReachableInv(states, steps, k);
    var s := states[k];
    ThreadAt(s, t);
    var side := s.At(i);
    if s.PcOf(t).DeqSpin? {
      SpinFindsSuffix(side, s.PcOf(t).len);
    }
    assert Settled(side.own);
    forall u: Tid ensures !Claims(s.PcOf(u), i) {
      ClaimIsOwned(s, u, i);
    }
  }

  lemma {:induction false} ClaimIsOwned(s: State, u: Tid, i: Index)
    requires ThreadsOk(s)
    ensures Claims(s.PcOf(u), i) ==> exists p :: 0 <= p < |s.At(i).own| && s.At(i).own[p] == Some(u)
  {
    if Claims(s.PcOf(u), i) {
      ThreadAt(s, u);
      assert s.At(i).own[ClaimStart(s, s.PcOf(u), i)] == Some(u);
    }
  }

  // ---------------------------------------------------------------- tiling and conservation

  /** Where a claim starts: the capacity of the buffer minus what was left when it was reserved. */
  function ClaimStart(s: State, pc: Pc, i: Index): int {
    if pc.EnqIndex? || pc.EnqInsert? then |s.At(i).cells| - pc.won.remaining else 0
  }

  function ClaimSize(pc: Pc): nat {
    if pc.EnqIndex? || pc.EnqInsert? then |pc.value| else if pc.DeqAdd? then |pc.next.inserted| else 0
  }

  /** Position `p` of buffer `i` is being inserted by thread `u`. */
  predicate InsertedBy(s: State, u: Tid, i: Index, p: int) {
    var pc := s.PcOf(u);
    Claims(pc, i) && ClaimStart(s, pc, i) <= p < ClaimStart(s, pc, i) + ClaimSize(pc)
  }

  lemma {:induction false} InsertedIffOwned(s: State, u: Tid, i: Index, p: int)
    requires Inv(s)
    ensures InsertedBy(s, u, i, p) <==> 0 <= p < |s.At(i).own| && s.At(i).own[p] == Some(u)
  {
    ThreadAt(s, u);
    assert OwnersOk(s, i);
  }

  /** The reservations of one generation of a buffer tile its reserved part: the positions below
      `capacity - remaining` are acknowledged or inserted by exactly one thread, at the index that
      thread computed from the word it exchanged, and nothing is being inserted beyond them. */
  lemma {:induction false} ReservationsTile(states: seq<State>, steps: seq<Step>, k: nat, i: Index)
    requires Execution(states, steps) && k < |states|
    ensures var s := states[k];
            var reserved := |s.At(i).vals|;
            && reserved <= |s.At(i).cells|
            && (i == s.enq.index ==> reserved == |s.At(i).cells| - s.enq.remaining)
            && (forall u: Tid, p: int :: InsertedBy(s, u, i, p) ==> 0 <= p < reserved)
            && (forall u: Tid, v: Tid, p: int :: InsertedBy(s, u, i, p) && InsertedBy(s, v, i, p) ==> u == v)
            && (forall u: Tid :: s.PcOf(u).EnqInsert? && s.PcOf(u).won.index == i ==>
                 s.PcOf(u).base == ClaimStart(s, s.PcOf(u), i))
            && (forall p: int :: 0 <= p < reserved ==>
                 || (exists u: Tid :: InsertedBy(s, u, i, p))
                 || (s.At(i).cells[p] == if p < s.At(i).drained then None else Some(s.At(i).vals[p])))
  {
    ReachableInv(states, steps, k);
    var s := states[k];
    forall u: Tid, p: int ensures InsertedBy(s, u, i, p) <==> 0 <= p < |s.At(i).own| && s.At(i).own[p] == Some(u) {
      InsertedIffOwned(s, u, i, p);
    }
    forall u: Tid | s.PcOf(u).EnqInsert? && s.PcOf(u).won.index == i
      ensures s.PcOf(u).base == ClaimStart(s, s.PcOf(u), i)
    {
      ThreadAt(s, u);
    }
    forall p: int | 0 <= p < |s.At(i).vals|
      ensures || (exists u: Tid :: InsertedBy(s, u, i, p))
              || (s.At(i).cells[p] == if p < s.At(i).drained then None else Some(s.At(i).vals[p]))
    {
      if s.At(i).own[p].Some? {
        assert InsertedBy(s, s.At(i).own[p].value, i, p);
      }
    }
  }

  /** The acknowledged length and the positions in flight add up to what was reserved, in both
      buffers; a saved dequeuing length is that total, or the undrained rest of it when nothing is
      in flight; and it never packs to the lock sentinel. */
  lemma {:induction false} Conservation(states: seq<State>, steps: seq<Step>, k: nat)
    requires Execution(states, steps) && k < |states|
    ensures var s := states[k];
            && (forall i :: s.At(i).length + InFlight(s.At(i).own) == |s.At(i).vals|)
            && s.At(s.enq.index).length + InFlight(s.At(s.enq.index).own) + s.enq.remaining == |s.At(s.enq.index).cells|
            && (s.deq.Saved? ==>
                 var side := s.At(s.deq.index);
                 && s.deq.index != s.enq.index
                 && s.deq.length < CAPACITY_LIMIT
                 && s.deq.length == |side.vals| - side.drained
                 && (side.drained > 0 ==> InFlight(side.own) == 0))
  {
    ReachableInv(states, steps, k);
    var s := states[k];
    forall i ensures SideOk(s.At(i)) {}
    if s.deq.Saved? {
      InFlightSettled(s.At(s.deq.index).own);
    }
  }

  /** Putting a buffer back: the saved length is zero exactly for a buffer with nothing left in it,
      which is then empty with its length reset; otherwise, as soon as nothing is in flight, the cells
      that hold values are exactly those of the range `length - saved..length`, and what they hold is
      what comes next in the log. */
  lemma {:induction false} SavedRangeIsLive(states: seq<State>, steps: seq<Step>, k: nat)
    requires Execution(states, steps) && k < |states| && states[k].deq.Saved?
    ensures var s := states[k];
            var side, n, m := s.At(s.deq.index), s.deq.length, |s.consumed|;
            && (n == 0 <==> side.vals == [])
            && (n == 0 ==> side.length == 0 && AllEmpty(side.cells))
            && (n > 0 && InFlight(side.own) == 0 ==>
                 && n <= side.length && m + n <= |s.log|
                 && (forall p :: 0 <= p < |side.cells| ==>
                      (side.cells[p].Some? <==> side.length - n <= p < side.length))
                 && View(s, s.deq.index, side.length - n, side.length) == Filled(s.log[m..m + n]))
  {
    ReachableInv(states, steps, k);
    var s := states[k];
    var side, n := s.At(s.deq.index), s.deq.length;
    if side.vals == [] {
      EmptySide(side);
    }
    if n > 0 && InFlight(side.own) == 0 {
      InFlightSettled(side.own);
      HandedIsFilled(side, side.drained, |side.vals|);
      assert Undrained(s) == side.vals[side.drained..];
      MiddleOf(s.consumed, side.vals[side.drained..], s.At(s.enq.index).vals);
    }
  }

  // ---------------------------------------------------------------- nobody is stuck

  /** What a thread may do next. */
  ghost predicate CanGoOn(s: State, t: Tid) {
    match s.PcOf(t)
    case Idle =>
      && (forall v :: |v| < SIZE_LIMIT ==> Enabled(s, t, StartEnqueue(v)))
      && (forall r :: Enabled(s, t, StartDequeue(r)))
      && Enabled(s, t, Close) && Enabled(s, t, Reopen)
    case Slice(_, _, _) => Enabled(s, t, Release) && Enabled(s, t, Requeue) && Enabled(s, t, IntoIter)
    case Iter(_, _, _) => Enabled(s, t, TakeNext) && Enabled(s, t, Requeue) && Enabled(s, t, IntoSlice)
    case Panicked(_) => true
    case _ => Enabled(s, t, Advance)
  }

  /** In every execution every thread that has not panicked can go on, whatever the others do: an idle one with
      any call, the owner of a slice or an iterator with any use of it, and every other one with its call. */
  lemma {:induction false} NeverStuck(states: seq<State>, steps: seq<Step>, k: nat, t: Tid)
    requires Execution(states, steps) && k < |states|
    ensures CanGoOn(states[k], t)
  {
    ReachableInv(states, steps, k);
    ThreadAt(states[k], t);
  }
}

/** Inserting values while resizing: what fits, what panics, and what a panic leaves behind. */
module ProtocolPreInsertion {
  import opened Options
  import opened Protocol
  import opened ProtocolInvariant
  import opened ProtocolSteps
  import opened ProtocolFlow
  import opened ProtocolTheorems
  import opened Sequences

  /** The values up to the first one that is larger than the whole buffer. */
  function Accepted(capacity: nat, values: seq<seq<Value>>): seq<seq<Value>> {
    if |values| == 0 || |values[0]| > capacity then [] else [values[0]] + Accepted(capacity, values[1..])
  }

  lemma {:induction false} PreInsertFrom(capacity: nat, length: nat, values: seq<seq<Value>>)
    requires length <= capacity
    ensures var all := Flat(Accepted(capacity, values));
            PreInsert(capacity, length, values)
            == if length + |all| <= capacity then Fits(all) else Overflows(all[..capacity - length])
    decreases |values|
  {
    if |values| > 0 && |values[0]| <= capacity {
      var rest := Accepted(capacity, values[1..]);
      assert ([values[0]] + rest)[1..] == rest;
      assert Flat([values[0]] + rest) == values[0] + Flat(rest);
      assert |values[0]| == 0 ==> values[0] + Flat(rest) == Flat(rest);
      if length + |values[0]| <= capacity {
        PreInsertFrom(capacity, length + |values[0]|, values[1..]);
      }
    }
  }

  /** Pre-insertion goes through exactly when all the accepted values together fit into the buffer,
      and then inserts exactly those, in order; otherwise it panics, with the buffer full of the first
      of them. */
  lemma {:induction false} PreInsertExact(capacity: nat, values: seq<seq<Value>>)
    ensures var all := Flat(Accepted(capacity, values));
            PreInsert(capacity, 0, values) == if |all| <= capacity then Fits(all) else Overflows(all[..capacity])
  {
    PreInsertFrom(capacity, 0, values);
  }

  /** Two values that each pass the guard, and do not fit together: the guard compares each value
      with the capacity of the buffer, not with what is left of it. */
  lemma {:induction false} GuardIsNotEnough()
    ensures var values := [[7], [8]];
            (forall k :: 0 <= k < |values| ==> |values[k]| <= 1) && PreInsert(1, 0, values) == Overflows([7])
  {
  }

  /** The capacity that a resize asks for. */
  function Wanted(cells: seq<Option<Value>>, resize: Resize): nat {
    if resize.ResizeTo? && resize.capacity.Some? then resize.capacity.value else |cells|
  }

  /** A resize within the capacity limit whose accepted values fit. */
  predicate Fitting(cells: seq<Option<Value>>, resize: Resize) {
    resize.ResizeTo? ==>
      var capacity := Wanted(cells, resize);
      && (capacity == |cells| || capacity < CAPACITY_LIMIT)
      && |Flat(Accepted(capacity, resize.insert))| <= capacity
  }

  lemma {:induction false} PrepareExact(cells: seq<Option<Value>>, resize: Resize)
    ensures Prepare(cells, resize).Ready? <==> Fitting(cells, resize)
    ensures Prepare(cells, resize).Ready? ==>
              && |Prepare(cells, resize).cells| == Wanted(cells, resize)
              && (Prepare(cells, resize).resized <==> Wanted(cells, resize) != |cells|)
    ensures Prepare(cells, resize).Ready? && resize.ResizeTo? ==>
              Prepare(cells, resize).inserted == Flat(Accepted(Wanted(cells, resize), resize.insert))
    ensures Prepare(cells, resize).Panic? ==> Prepare(cells, resize).cells == PanicCells(cells, resize)
  {
    if resize.ResizeTo? {
      PreInsertExact(Wanted(cells, resize), resize.insert);
    }
  }

  /** The cells after a panic: as they were if the capacity is refused, otherwise full of the first of
      the accepted values. */
  function PanicCells(cells: seq<Option<Value>>, resize: Resize): seq<Option<Value>>
    requires !Fitting(cells, resize)
  {
    var capacity := Wanted(cells, resize);
    if capacity != |cells| && capacity >= CAPACITY_LIMIT then cells
    else Filled(Flat(Accepted(capacity, resize.insert))[..capacity])
  }

  /** In every execution a dequeuing call panics exactly when what it asks for does not fit. */
  lemma {:induction false} PanicsIffUnfitting(states: seq<State>, steps: seq<Step>, k: nat)
    requires Execution(states, steps) && k < |steps|
    ensures var s, t := states[k], steps[k].t;
            states[k + 1].PcOf(t).Panicked? <==>
              s.PcOf(t).DeqStart? && s.PcOf(t).len == 0 && !Fitting(s.At(s.PcOf(t).index).cells, s.PcOf(t).resize)
  {
    ReachableInv(states, steps, k);
    var s, t, a := states[k], steps[k].t, steps[k].a;
    ThreadAt(s, t);
    ControlFlow(s, t, a);
    if s.PcOf(t).DeqStart? {
      PrepareExact(s.At(s.PcOf(t).index).cells, s.PcOf(t).resize);
    }
    NoOtherPanic(s, t, a);
  }

  lemma {:induction false} NoOtherPanic(s: State, t: Tid, a: Action)
    requires Enabled(s, t, a) && PcOk(s.enq, s.sides, t, s.PcOf(t)) && SideOk(s.At(Flip(s.enq.index)))
    ensures s.PcOf(t).DeqSwap? ==> !Apply(s, t, a).PcOf(t).Panicked?
    ensures s.PcOf(t).DeqStart? ==>
              (Apply(s, t, a).PcOf(t).Panicked? <==>
                s.PcOf(t).len == 0 && Prepare(s.At(s.PcOf(t).index).cells, s.PcOf(t).resize).Panic?)
  {
  }

  lemma {:induction false} PanicStays(s: State, u: Tid, a: Action, t: Tid)
    requires Enabled(s, u, a) && s.PcOf(t).Panicked?
    ensures Apply(s, u, a).PcOf(t) == s.PcOf(t)
  {
    assert u != t;
    OnlyMover(s, u, a, t);
  }

  lemma {:induction false} LockIsRefused(s: State, t: Tid, u: Tid, a: Action)
    requires LockOk(s) && s.PcOf(t).Panicked? && Enabled(s, u, a)
    ensures s.deq.Locked?
    ensures s.PcOf(u).DeqLock? ==> Apply(s, u, a).PcOf(u) == DeqReturned(Conflict)
  {
  }

  /** A panic there is final: the thread never moves again, and every later call that tries to take
      the dequeuing lock returns `Conflict`. */
  lemma {:induction false} PanicLocksForever(states: seq<State>, steps: seq<Step>, j: nat, k: nat, t: Tid)
    requires Execution(states, steps) && j <= k < |steps| && states[j].PcOf(t).Panicked?
    ensures states[k].PcOf(t).Panicked? && states[k].deq.Locked?
    ensures states[k].PcOf(steps[k].t).DeqLock? ==> states[k + 1].PcOf(steps[k].t) == DeqReturned(Conflict)
  {
    if j < k {
      PanicLocksForever(states, steps, j, k - 1, t);
      PanicStays(states[k - 1], steps[k - 1].t, steps[k - 1].a, t);
    }
    ReachableInv(states, steps, k);
    LockIsRefused(states[k], t, steps[k].t, steps[k].a);
  }

  /** No other thread gets at the buffer that a panicked one was preparing. */
  lemma {:induction false} PanicKeepsBuffer(s: State, u: Tid, a: Action, t: Tid)
    requires Inv(s) && Enabled(s, u, a) && s.PcOf(t).Panicked?
    ensures Apply(s, u, a).At(s.PcOf(t).index) == s.At(s.PcOf(t).index)
    ensures Apply(s, u, a).enq.index == s.enq.index
  {
    ThreadAt(s, t);
    ThreadAt(s, u);
    assert s.holder == Some(t) && u != t;
    if Enqueuing(s.PcOf(u)) {
      EnqueuerElsewhere(s, u, a, s.PcOf(t).index);
    } else {
      LocklessElsewhere(s, u, a);
    }
  }

  lemma {:induction false} EnqueuerElsewhere(s: State, u: Tid, a: Action, i: Index)
    requires Enabled(s, u, a) && Enqueuing(s.PcOf(u)) && PcOk(s.enq, s.sides, u, s.PcOf(u))
    requires i == Hidden(s) && s.At(i).vals == []
    ensures EnqueueStep(s, u, a).At(i) == s.At(i) && EnqueueStep(s, u, a).enq.index == s.enq.index
  {
  }

  lemma {:induction false} LocklessElsewhere(s: State, u: Tid, a: Action)
    requires Enabled(s, u, a) && !Holds(s.PcOf(u)) && !Enqueuing(s.PcOf(u))
    ensures Apply(s, u, a).sides == s.sides && Apply(s, u, a).enq.index == s.enq.index
  {
  }

  /** In `s`, thread `t` has panicked while preparing the buffer it started on in `s0`. */
  ghost predicate Left(s0: State, s: State, t: Tid) {
    var pc := s0.PcOf(t);
    && pc.DeqStart?
    && var cells := s0.At(pc.index).cells;
       && AllEmpty(cells) && !Fitting(cells, pc.resize)
       && s.PcOf(t) == Panicked(pc.index)
       && s.At(pc.index).cells == PanicCells(cells, pc.resize)
       && s.enq.index != pc.index
  }

  lemma {:induction false} StartIsEmpty(s: State, t: Tid)
    requires Inv(s) && s.PcOf(t).DeqStart? && s.PcOf(t).len == 0
    ensures AllEmpty(s.At(s.PcOf(t).index).cells) && s.PcOf(t).index != s.enq.index
  {
    ThreadAt(s, t);
    assert s.holder == Some(t);
    NoResidue(s, t);
    EmptySide(s.At(s.PcOf(t).index));
  }

  lemma {:induction false} LeftStart(s: State, t: Tid, a: Action)
    requires Inv(s) && Enabled(s, t, a) && s.PcOf(t).DeqStart? && Apply(s, t, a).PcOf(t).Panicked?
    ensures Left(s, Apply(s, t, a), t)
  {
    StartIsEmpty(s, t);
    PrepareExact(s.At(s.PcOf(t).index).cells, s.PcOf(t).resize);
  }

  lemma {:induction false} LeftStep(s0: State, s: State, u: Tid, a: Action, t: Tid)
    requires Inv(s) && Enabled(s, u, a) && Left(s0, s, t)
    ensures Left(s0, Apply(s, u, a), t)
  {
    PanicStays(s, u, a, t);
    PanicKeepsBuffer(s, u, a, t);
  }

  lemma {:induction false} LeftNext(states: seq<State>, steps: seq<Step>, s0: State, t: Tid, k: nat)
    requires Execution(states, steps) && k < |steps| && Left(s0, states[k], t)
    ensures Left(s0, states[k + 1], t)
  {
    ReachableInv(states, steps, k);
    LeftStep(s0, states[k], steps[k].t, steps[k].a, t);
  }

  /** What such a panic has written stays: ever after, the buffer that was being prepared holds what the
      loop had written, which is nothing if the capacity was refused and otherwise as many of the accepted
      values as it has cells; and it never becomes the one enqueued into. */
  lemma {:induction false} PanicLeaves(states: seq<State>, steps: seq<Step>, j: nat, k: nat)
    requires Execution(states, steps) && j < k < |states|
    requires states[j].PcOf(steps[j].t).DeqStart? && states[j + 1].PcOf(steps[j].t).Panicked?
    ensures Left(states[j], states[k], steps[j].t)
  {
    LeftFirst(states, steps, j);
    LeftAfter(states, steps, states[j], steps[j].t, j + 1, k);
  }

  lemma {:induction false} LeftFirst(states: seq<State>, steps: seq<Step>, j: nat)
    requires Execution(states, steps) && j < |steps|
    requires states[j].PcOf(steps[j].t).DeqStart? && states[j + 1].PcOf(steps[j].t).Panicked?
    ensures Left(states[j], states[j + 1], steps[j].t)
  {
    ReachableInv(states, steps, j);
    LeftStart(states[j], steps[j].t, steps[j].a);
  }

  lemma {:induction false} LeftAfter(states: seq<State>, steps: seq<Step>, s0: State, t: Tid, j: nat, k: nat)
    requires Execution(states, steps) && j <= k < |states| && Left(s0, states[j], t)
    ensures Left(s0, states[k], t)
  {
    if j < k {
      LeftAfter(states, steps, s0, t, j, k - 1);
      LeftNext(states, steps, s0, t, k - 1);
    }
  }
}

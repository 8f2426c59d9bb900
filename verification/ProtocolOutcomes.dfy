/** What a dequeuing call returns: when it answers `Empty` or `Closed`, and how often it retries. */
module ProtocolOutcomes {
  import opened Options
  import opened Protocol
  import opened ProtocolInvariant
  import opened ProtocolSteps
  import opened ProtocolFlow
  import opened ProtocolTheorems

  // ---------------------------------------------------------------- Empty and Closed

  /** Nothing is reserved, pending, requeued or undrained in either buffer. */
  ghost predicate NothingQueued(s: State) {
    s.sides.zero.vals == [] && s.sides.one.vals == [] && s.log == s.consumed
  }

  /** The step that decides between an error and a swap: the load of the enqueuing word, or the
      exchange that swaps an empty buffer out. */
  predicate Deciding(pc: Pc) {
    pc.DeqLoad? || pc.DeqSwap?
  }

  /** The thread will return error `e` from its call without looking at the queue again. */
  predicate Committed(pc: Pc, e: DequeueError) {
    || pc == DeqReturned(e)
    || (pc.DeqStoreBack? && pc.error == e)
    || (e == Empty && pc.DeqStoreEmpty?)
    || (e == Empty && (pc.DeqCapacity? || pc.DeqNotify?) && pc.won.remaining >= pc.cap && pc.next.inserted == [])
  }

  lemma {:induction false} CommitSource(pc: Pc, pc': Pc, e: DequeueError)
    requires Follows(pc, pc') && (e == Empty || e == Closed)
    requires Committed(pc', e) && !Committed(pc, e)
    ensures pc.DeqLoad? || (pc.DeqSwap? && pc'.DeqCapacity?)
  {
  }

  lemma {:induction false} CommitStep(s: State, t: Tid, a: Action, e: DequeueError)
    requires Inv(s) && Enabled(s, t, a) && (e == Empty || e == Closed)
    requires Committed(Apply(s, t, a).PcOf(t), e) && !Committed(s.PcOf(t), e)
    ensures Deciding(s.PcOf(t)) && NothingQueued(s) && s.PcOf(t).next.inserted == [] && !s.PcOf(t).next.retried
    ensures e == Closed <==> s.enq.closed && !s.PcOf(t).next.resized
  {
    ControlFlow(s, t, a);
    CommitSource(s.PcOf(t), Apply(s, t, a).PcOf(t), e);
    ThreadAt(s, t);
    assert s.holder == Some(t);
    assert s.log == s.consumed + [] + s.At(s.enq.index).vals;
  }

  /** At step `j` thread `t` decided to return `e`, and it was right to. */
  ghost predicate DecidedAt(states: seq<State>, steps: seq<Step>, j: nat, t: Tid, e: DequeueError)
    requires j < |steps| < |states|
  {
    var s, pc := states[j], states[j].PcOf(t);
    && steps[j].t == t && Deciding(pc) && NothingQueued(s) && pc.next.inserted == [] && !pc.next.retried
    && (e == Closed <==> s.enq.closed && !pc.next.resized)
  }

  lemma {:induction false} CommitPoint(states: seq<State>, steps: seq<Step>, k: nat, t: Tid, e: DequeueError)
    requires Execution(states, steps) && k < |steps|
    requires Committed(states[k + 1].PcOf(t), e) && (e == Empty || e == Closed)
    ensures Committed(states[k].PcOf(t), e) || DecidedAt(states, steps, k, t, e)
  {
    ReachableInv(states, steps, k);
    var s, u, a := states[k], steps[k].t, steps[k].a;
    if u != t {
      OnlyMover(s, u, a, t);
    } else if !Committed(s.PcOf(t), e) {
      CommitStep(s, t, a, e);
    }
  }

  lemma {:induction false} InitiallyIdle(states: seq<State>, steps: seq<Step>, t: Tid)
    requires Execution(states, steps)
    ensures states[0].PcOf(t) == Idle
  {
  }

  /** `Empty` and `Closed` are truthful: a call that returns one of them made its decision at a step
      `j` of its own at which nothing at all was queued, and has done nothing but return since; it
      returns `Closed` exactly when the queue was closed then and no resized buffer was swapped in. */
  lemma {:induction false} EmptyIsTruthful(states: seq<State>, steps: seq<Step>, k: nat, t: Tid, e: DequeueError)
    returns (j: nat)
    requires Execution(states, steps) && k < |states|
    requires Committed(states[k].PcOf(t), e) && (e == Empty || e == Closed)
    ensures j < k && DecidedAt(states, steps, j, t, e)
    ensures forall m :: j < m <= k ==> Committed(states[m].PcOf(t), e)
  {
    if k == 0 {
      InitiallyIdle(states, steps, t);
    } else {
      CommitPoint(states, steps, k - 1, t, e);
      if Committed(states[k - 1].PcOf(t), e) {
        j := EmptyIsTruthful(states, steps, k - 1, t, e);
      } else {
        j := k - 1;
      }
    }
  }

  // ---------------------------------------------------------------- Empty on a closed queue

  /** The call is between the preparation of the next buffer and the swap. */
  predicate Carries(pc: Pc) {
    pc.DeqAdd? || pc.DeqLoad? || pc.DeqSwap?
  }

  /** The request changes the capacity of a buffer with these cells. */
  predicate Resizes(cells: seq<Option<Value>>, resize: Resize) {
    resize.ResizeTo? && resize.capacity.Some? && resize.capacity.value != |cells|
  }

  /** At step `m` thread `t` prepared the next buffer for its request, with `next` as the outcome. */
  ghost predicate PreparedAt(states: seq<State>, steps: seq<Step>, m: nat, t: Tid, next: Next)
    requires m < |steps| < |states|
  {
    var s, pc := states[m], states[m].PcOf(t);
    && steps[m].t == t && pc.DeqStart? && pc.index == next.index && pc.retried == next.retried
    && Prepare(s.At(pc.index).cells, pc.resize).Ready?
    && next.inserted == Prepare(s.At(pc.index).cells, pc.resize).inserted
    && (next.resized <==> Resizes(s.At(pc.index).cells, pc.resize))
  }

  lemma {:induction false} CarriedFrom(s: State, t: Tid, a: Action)
    requires Enabled(s, t, a) && Carries(Apply(s, t, a).PcOf(t))
    ensures var pc, next := s.PcOf(t), Apply(s, t, a).PcOf(t).next;
            || (Carries(pc) && pc.next == next)
            || (pc.DeqStart? && pc.index == next.index && pc.retried == next.retried
                && Prepare(s.At(pc.index).cells, pc.resize).Ready?
                && next.inserted == Prepare(s.At(pc.index).cells, pc.resize).inserted
                && (next.resized <==> Resizes(s.At(pc.index).cells, pc.resize)))
  {
    ControlFlow(s, t, a);
  }

  lemma {:induction false} PreparationStep(states: seq<State>, steps: seq<Step>, k: nat, t: Tid)
    requires Execution(states, steps) && k < |steps| && Carries(states[k + 1].PcOf(t))
    ensures || (Carries(states[k].PcOf(t)) && states[k].PcOf(t).next == states[k + 1].PcOf(t).next)
            || PreparedAt(states, steps, k, t, states[k + 1].PcOf(t).next)
  {
    if steps[k].t != t {
      OnlyMover(states[k], steps[k].t, steps[k].a, t);
    } else {
      CarriedFrom(states[k], t, steps[k].a);
    }
  }

  lemma {:induction false} PreparationOf(states: seq<State>, steps: seq<Step>, k: nat, t: Tid) returns (m: nat)
    requires Execution(states, steps) && k < |states| && Carries(states[k].PcOf(t))
    ensures m < k && PreparedAt(states, steps, m, t, states[k].PcOf(t).next)
  {
    if k == 0 {
      InitiallyIdle(states, steps, t);
    } else {
      PreparationStep(states, steps, k - 1, t);
      if PreparedAt(states, steps, k - 1, t, states[k].PcOf(t).next) {
        m := k - 1;
      } else {
        m := PreparationOf(states, steps, k - 1, t);
      }
    }
  }

  /** A call that finds nothing, and had nothing to insert, answers `Closed` exactly when the queue was
      closed at its decision `j` and the request did not change the capacity of the buffer it prepared
      at `m`; on a closed queue that it did resize, it answers `Empty`. */
  lemma {:induction false} ClosedIffNotResized(states: seq<State>, steps: seq<Step>, k: nat, t: Tid, e: DequeueError)
    returns (m: nat, j: nat)
    requires Execution(states, steps) && k < |states|
    requires Committed(states[k].PcOf(t), e) && (e == Empty || e == Closed)
    ensures m < j < k && DecidedAt(states, steps, j, t, e) && PreparedAt(states, steps, m, t, states[j].PcOf(t).next)
    ensures e == Closed <==>
              states[j].enq.closed && !Resizes(states[m].At(states[m].PcOf(t).index).cells, states[m].PcOf(t).resize)
  {
    j := EmptyIsTruthful(states, steps, k, t, e);
    m := PreparationOf(states, steps, j, t);
  }

  // ---------------------------------------------------------------- how a call ends

  /** The retry after an empty swap happens at most once per call, always hands over to waiting for
      values, and giving up after a swap is reserved to calls that resized. */
  lemma {:induction false} RetryAtMostOnce(states: seq<State>, steps: seq<Step>, k: nat)
    requires Execution(states, steps) && k < |steps|
    ensures var before, after := states[k].PcOf(steps[k].t), states[k + 1].PcOf(steps[k].t);
            && (after.DeqStart? && after.retried ==>
                 before.DeqNotify? && !before.next.retried && before.next.inserted != [])
            && (before.DeqLoad? && before.next.retried ==> after.DeqSwap? && after.next.retried)
            && (before.DeqNotify? && before.next.retried ==> after.DeqSpin?)
            && (after.DeqStoreEmpty? ==> before.DeqNotify? && before.next.resized && !before.next.retried)
  {
    ReachableInv(states, steps, k);
    var s, t, a := states[k], steps[k].t, steps[k].a;
    ThreadAt(s, t);
    ControlFlow(s, t, a);
    RetrySource(s, t, a);
  }

  lemma {:induction false} RetrySource(s: State, t: Tid, a: Action)
    requires Enabled(s, t, a) && PcOk(s.enq, s.sides, t, s.PcOf(t)) && EnqueuingOk(s.enq, s.At(s.enq.index))
    ensures var before, after := s.PcOf(t), Apply(s, t, a).PcOf(t);
            && (before.DeqLoad? && before.next.retried ==> after.DeqSwap? && after.next.retried)
            && (before.DeqNotify? && before.next.retried ==> after.DeqSpin?)
            && (before.DeqNotify? && after.DeqStoreEmpty? ==> before.next.resized)
  {
  }
}

/** What the result of a call says, in terms of the arguments it was started with. */
module ProtocolCalls {
  import opened Options
  import opened Protocol
  import opened ProtocolInvariant
  import opened ProtocolSteps
  import opened ProtocolFlow
  import opened ProtocolTheorems

  // ---------------------------------------------------------------- histories

  /** A history of the queue: state `n + 1` comes from state `n` by a move of thread `movers[n]`. */
  ghost predicate History(states: seq<State>, movers: seq<Tid>) {
    |states| == |movers| + 1
  }

  /** From `j` to `k`, thread `t` adds nothing to the log. */
  ghost predicate Silent(states: seq<State>, movers: seq<Tid>, t: Tid, j: nat, k: nat)
    requires History(states, movers) && k < |states|
  {
    forall n {:trigger movers[n]} :: j <= n < k && movers[n] == t ==> states[n + 1].log == states[n].log
  }

  /** Move `m` is the last one that `t` makes before `k`. */
  ghost predicate Last(movers: seq<Tid>, t: Tid, j: nat, m: nat, k: nat)
    requires k <= |movers|
  {
    j <= m < k && movers[m] == t && forall n :: m < n < k ==> movers[n] != t
  }

  // ---------------------------------------------------------------- try_enqueue

  /** From `s` to `s'` the open queue takes the whole value, for which there is room. */
  ghost predicate Takes(s: State, s': State, v: seq<Value>) {
    && !s.enq.closed && |v| <= s.enq.remaining
    && s'.enq == s.enq.(remaining := s.enq.remaining - |v|)
    && s'.log == s.log + v
  }

  /** From `s` to `s'` the value, at the place that the word `won` stands for, is acknowledged. */
  ghost predicate Acknowledges(s: State, s': State, won: Word, v: seq<Value>) {
    var side, side' := s.At(won.index), s'.At(won.index);
    && won.remaining <= |side.cells| && |v| <= won.remaining
    && var base := |side.cells| - won.remaining;
       && side.cells[base..base + |v|] == Filled(v)
       && side'.cells == side.cells && side'.length == side.length + |v|
  }

  /** The value has been reserved at `m`, and nothing else by `t`. */
  ghost predicate ReservedAt(states: seq<State>, movers: seq<Tid>, t: Tid, v: seq<Value>, j: nat, k: nat, m: nat)
    requires History(states, movers) && k < |states|
  {
    && j <= m < k && movers[m] == t && Takes(states[m], states[m + 1], v)
    && Silent(states, movers, t, j, m) && Silent(states, movers, t, m + 1, k)
  }

  /** ... and acknowledged at `n`. */
  ghost predicate AcceptedAt(states: seq<State>, movers: seq<Tid>, t: Tid, v: seq<Value>, j: nat, k: nat, m: nat,
      n: nat)
    requires History(states, movers) && k < |states|
  {
    && ReservedAt(states, movers, t, v, j, k, m)
    && m < n < k && movers[n] == t && Acknowledges(states[n], states[n + 1], states[m].enq, v)
  }

  /** The result of a `try_enqueue` of `v` that began at `j`, known at `k`: the value is accepted once and
      as a whole, or nothing is and the word that decided it is the one read last. */
  ghost predicate Outcome(states: seq<State>, movers: seq<Tid>, t: Tid, v: seq<Value>, j: nat, k: nat, m: nat, n: nat,
      result: EnqueueResult)
    requires History(states, movers) && k < |states|
  {
    match result
    case EnqueueOk =>
      if v == [] then Silent(states, movers, t, j, k) else AcceptedAt(states, movers, t, v, j, k, m, n)
    case EnqueueClosed =>
      Silent(states, movers, t, j, k) && Last(movers, t, j, m, k) && states[m].enq.closed
    case InsufficientCapacity =>
      && Silent(states, movers, t, j, k) && Last(movers, t, j, m, k)
      && !states[m].enq.closed && states[m].enq.remaining < |v|
  }

  /** How far a `try_enqueue` of `v` that began at `j` has come at `k`. */
  ghost predicate Enqueues(states: seq<State>, movers: seq<Tid>, t: Tid, v: seq<Value>, j: nat, k: nat, m: nat, n: nat)
    requires History(states, movers) && k < |states|
  {
    match states[k].PcOf(t)
    case EnqLoad(w) => w == v && v != [] && Silent(states, movers, t, j, k)
    case EnqCas(w, _) => w == v && v != [] && Silent(states, movers, t, j, k)
    case EnqIndex(w, won) =>
      w == v && v != [] && ReservedAt(states, movers, t, v, j, k, m) && won == states[m].enq
    case EnqInsert(w, won, _, _) =>
      w == v && v != [] && ReservedAt(states, movers, t, v, j, k, m) && won == states[m].enq
    case EnqNotify => v != [] && AcceptedAt(states, movers, t, v, j, k, m, n)
    case EnqReturned(result) => Outcome(states, movers, t, v, j, k, m, n, result)
    case _ => false
  }

  /** A load or an exchange of the enqueuing word for `v`. */
  ghost predicate Attempts(s: State, s': State, t: Tid, v: seq<Value>) {
    var pc' := s'.PcOf(t);
    || (pc' == EnqIndex(v, s.enq) && Takes(s, s', v))
    || (s'.log == s.log
        && ((pc'.EnqCas? && pc'.value == v)
             || (pc' == EnqReturned(EnqueueClosed) && s.enq.closed)
             || (pc' == EnqReturned(InsufficientCapacity) && !s.enq.closed && s.enq.remaining < |v|)))
  }

  /** What a step of a thread that enqueues `v` does. */
  ghost predicate EnqueueEffect(s: State, s': State, t: Tid, v: seq<Value>) {
    var pc' := s'.PcOf(t);
    match s.PcOf(t)
    case EnqLoad(_) => Attempts(s, s', t, v)
    case EnqCas(_, _) => Attempts(s, s', t, v)
    case EnqIndex(_, won) => s'.log == s.log && pc'.EnqInsert? && pc'.value == v && pc'.won == won
    case EnqInsert(_, won, _, _) =>
      && s'.log == s.log
      && ((pc'.EnqInsert? && pc'.value == v && pc'.won == won) || (pc' == EnqNotify && Acknowledges(s, s', won, v)))
    case EnqNotify => s'.log == s.log && pc' == EnqReturned(EnqueueOk)
    case _ => false
  }

  lemma {:induction false} AttemptEffect(s: State, t: Tid, a: Action, v: seq<Value>)
    requires Inv(s) && Enabled(s, t, a)
    requires (s.PcOf(t).EnqLoad? || s.PcOf(t).EnqCas?) && s.PcOf(t).value == v
    ensures Attempts(s, EnqueueStep(s, t, a), t, v)
  {
    ThreadAt(s, t);
  }

  lemma {:induction false} InsertEffect(s: State, t: Tid, v: seq<Value>, won: Word, base: nat, done: nat)
    requires Inv(s) && s.PcOf(t) == EnqInsert(v, won, base, done)
    ensures EnqueueEffect(s, EnqInsertStep(s, t, v, won, base, done), t, v)
  {
    ThreadAt(s, t);
    if done == |v| {
      ClaimIsWritten(s.At(won.index), t, base, v);
    }
  }

  lemma {:induction false} ClaimIsWritten(side: Side, t: Tid, base: nat, v: seq<Value>)
    requires ClaimOk(side, t, base, v, |v|)
    ensures side.cells[base..base + |v|] == Filled(v)
  {
    assert forall p :: base <= p < base + |v| ==> side.cells[p] == Some(v[p - base]);
  }

  lemma {:induction false} EnqueueStepEffect(s: State, t: Tid, a: Action, v: seq<Value>)
    requires Inv(s) && Enabled(s, t, a)
    requires s.PcOf(t).EnqNotify? || (Enqueuing(s.PcOf(t)) && s.PcOf(t).value == v)
    ensures EnqueueEffect(s, Apply(s, t, a), t, v)
  {
    match s.PcOf(t)
    case EnqLoad(_) => AttemptEffect(s, t, a, v);
    case EnqCas(_, _) => AttemptEffect(s, t, a, v);
    case EnqInsert(_, won, base, done) => InsertEffect(s, t, v, won, base, done);
    case _ =>
  }

  /** A move of another thread in the history of a `try_enqueue`. */
  lemma {:induction false} EnqueuesMeanwhile(states: seq<State>, movers: seq<Tid>, t: Tid, v: seq<Value>, j: nat,
      k: nat,
      m: nat, n: nat)
    requires History(states, movers) && j <= k < |movers| && Enqueues(states, movers, t, v, j, k, m, n)
    requires movers[k] != t && states[k + 1].PcOf(t) == states[k].PcOf(t)
    ensures Enqueues(states, movers, t, v, j, k + 1, m, n)
  {
  }

  /** What a move of thread `u` means for a thread `t` that enqueues `v`; one of `t` itself may leave the queue
      as it is, while it notifies. */
  ghost predicate EnqueueMove(s: State, s': State, u: Tid, t: Tid, v: seq<Value>) {
    if u != t then s'.PcOf(t) == s.PcOf(t)
    else EnqueueEffect(s, s', t, v) || (s' == s && !s.PcOf(t).EnqReturned?)
  }

  lemma {:induction false} EnqueuesStill(states: seq<State>, movers: seq<Tid>, t: Tid, v: seq<Value>, j: nat, k: nat,
      m: nat, n: nat)
    requires History(states, movers) && j <= k < |movers| && Enqueues(states, movers, t, v, j, k, m, n)
    requires states[k + 1] == states[k] && !states[k].PcOf(t).EnqReturned?
    ensures Enqueues(states, movers, t, v, j, k + 1, m, n)
  {
  }

  /** One more move in the history of a `try_enqueue`. */
  lemma {:induction false} EnqueuesOn(states: seq<State>, movers: seq<Tid>, t: Tid, v: seq<Value>, j: nat, k: nat,
      m: nat, n: nat) returns (m': nat, n': nat)
    requires History(states, movers) && j <= k < |movers| && Enqueues(states, movers, t, v, j, k, m, n)
    requires EnqueueMove(states[k], states[k + 1], movers[k], t, v)
    ensures Enqueues(states, movers, t, v, j, k + 1, m', n')
  {
    m', n' := m, n;
    if movers[k] != t {
      EnqueuesMeanwhile(states, movers, t, v, j, k, m, n);
    } else if !EnqueueEffect(states[k], states[k + 1], t, v) {
      EnqueuesStill(states, movers, t, v, j, k, m, n);
    } else if states[k + 1].PcOf(t).EnqIndex? || (states[k + 1].PcOf(t).EnqReturned? && !states[k].PcOf(t).EnqNotify?) {
      m' := k;
    } else if states[k + 1].PcOf(t).EnqNotify? {
      n' := k;
    }
  }

  /** The thread is in a `try_enqueue` of `v`, or has its result. */
  predicate InEnqueue(pc: Pc, v: seq<Value>) {
    pc.EnqNotify? || pc.EnqReturned? || (Enqueuing(pc) && pc.value == v)
  }

  ghost predicate EnqueueLink(s: State, s': State, u: Tid, t: Tid, v: seq<Value>) {
    InEnqueue(s.PcOf(t), v) && s'.PcOf(t) != Idle ==> EnqueueMove(s, s', u, t, v)
  }

  lemma {:induction false} EnqueuesIsIn(states: seq<State>, movers: seq<Tid>, t: Tid, v: seq<Value>, j: nat, k: nat,
      m: nat, n: nat)
    requires History(states, movers) && k < |states| && Enqueues(states, movers, t, v, j, k, m, n)
    ensures InEnqueue(states[k].PcOf(t), v)
  {
  }

  lemma {:induction false} EnqueueNext(states: seq<State>, movers: seq<Tid>, t: Tid, v: seq<Value>, j: nat, k: nat,
      m: nat, n: nat) returns (m': nat, n': nat)
    requires History(states, movers) && j <= k < |movers| && Enqueues(states, movers, t, v, j, k, m, n)
    requires EnqueueLink(states[k], states[k + 1], movers[k], t, v) && states[k + 1].PcOf(t) != Idle
    ensures Enqueues(states, movers, t, v, j, k + 1, m', n')
  {
    EnqueuesIsIn(states, movers, t, v, j, k, m, n);
    m', n' := EnqueuesOn(states, movers, t, v, j, k, m, n);
  }

  /** A `try_enqueue` from `c` on, as long as it is not over. */
  lemma {:induction false} EnqueueFrom(states: seq<State>, movers: seq<Tid>, t: Tid, v: seq<Value>, j: nat, c: nat,
      k: nat, m: nat, n: nat) returns (m': nat, n': nat)
    requires History(states, movers) && j <= c <= k < |states| && Enqueues(states, movers, t, v, j, c, m, n)
    requires forall i :: c <= i <= k ==> states[i].PcOf(t) != Idle
    requires forall i {:trigger movers[i]} :: c <= i < k ==> EnqueueLink(states[i], states[i + 1], movers[i], t, v)
    ensures Enqueues(states, movers, t, v, j, k, m', n')
  {
    m', n' := m, n;
    if c < k {
      m', n' := EnqueueFrom(states, movers, t, v, j, c, k - 1, m, n);
      m', n' := EnqueueNext(states, movers, t, v, j, k - 1, m', n');
    }
  }

  // ---------------------------------------------------------------- ... in every execution

  function Movers(steps: seq<Step>): (movers: seq<Tid>)
    ensures |movers| == |steps| && forall n :: 0 <= n < |steps| ==> movers[n] == steps[n].t
  {
    seq(|steps|, n requires 0 <= n < |steps| => steps[n].t)
  }

  /** Thread `t` starts this at step `j` and is still at it in state `k`. */
  ghost predicate CallOf(states: seq<State>, steps: seq<Step>, t: Tid, a: Action, j: nat, k: nat)
    requires Shaped(states, steps) && k < |states|
  {
    j < k && steps[j] == Step(t, a) && forall i :: j < i <= k ==> states[i].PcOf(t) != Idle
  }

  lemma {:induction false} EnqueueStarts(s: State, t: Tid, v: seq<Value>)
    requires Enabled(s, t, StartEnqueue(v)) && s.PcOf(t) == Idle
    ensures var s' := Apply(s, t, StartEnqueue(v));
            s'.log == s.log && s'.PcOf(t) == if v == [] then EnqReturned(EnqueueOk) else EnqLoad(v)
  {
  }

  lemma {:induction false} EnqueueRunStep(states: seq<State>, steps: seq<Step>, t: Tid, v: seq<Value>, k: nat)
    requires Execution(states, steps) && k < |steps|
    ensures EnqueueLink(states[k], states[k + 1], steps[k].t, t, v)
  {
    ReachableInv(states, steps, k);
    EnqueueStepMeans(states[k], steps[k].t, steps[k].a, t, v);
  }

  lemma {:induction false} EnqueueStepMeans(s: State, u: Tid, a: Action, t: Tid, v: seq<Value>)
    requires Inv(s) && Enabled(s, u, a)
    ensures EnqueueLink(s, Apply(s, u, a), u, t, v)
  {
    if u != t {
      OnlyMover(s, u, a, t);
    } else if InEnqueue(s.PcOf(t), v) && !s.PcOf(t).EnqReturned? {
      EnqueueStepEffect(s, t, a, v);
    }
  }

  lemma {:induction false} EnqueueCall(states: seq<State>, steps: seq<Step>, t: Tid, v: seq<Value>, j: nat, k: nat)
    returns (m: nat, n: nat)
    requires Execution(states, steps) && k < |states| && CallOf(states, steps, t, StartEnqueue(v), j, k)
    ensures Enqueues(states, Movers(steps), t, v, j, k, m, n)
  {
    EnqueueFirst(states, steps, t, v, j);
    forall i {:trigger Movers(steps)[i]} | j < i < k
      ensures EnqueueLink(states[i], states[i + 1], Movers(steps)[i], t, v)
    {
      EnqueueRunStep(states, steps, t, v, i);
    }
    m, n := EnqueueFrom(states, Movers(steps), t, v, j, j + 1, k, 0, 0);
  }

  lemma {:induction false} EnqueueFirst(states: seq<State>, steps: seq<Step>, t: Tid, v: seq<Value>, j: nat)
    requires Execution(states, steps) && j + 1 < |states| && CallOf(states, steps, t, StartEnqueue(v), j, j + 1)
    ensures Enqueues(states, Movers(steps), t, v, j, j + 1, 0, 0)
  {
    EnqueueStarts(states[j], t, v);
  }

  lemma {:induction false} LogGrows(states: seq<State>, steps: seq<Step>, m: nat, k: nat)
    requires Segment(states, steps) && m <= k < |states|
    ensures states[m].log <= states[k].log
  {
    if m < k {
      LogGrows(states, steps, m, k - 1);
      LogStep(states[k - 1], steps[k - 1].t, steps[k - 1].a);
    }
  }

  lemma {:induction false} TakenStays(states: seq<State>, steps: seq<Step>, m: nat, k: nat, v: seq<Value>)
    requires Segment(states, steps) && m < k < |states| && states[m + 1].log == states[m].log + v
    ensures var before := |states[m].log|;
            before + |v| <= |states[k].log| && states[k].log[before..before + |v|] == v
  {
    LogGrows(states, steps, m + 1, k);
    PrefixHolds(states[m].log, v, states[m + 1].log, states[k].log);
  }

  lemma {:induction false} PrefixHolds(before: seq<Value>, v: seq<Value>, with: seq<Value>, after: seq<Value>)
    requires with == before + v && with <= after
    ensures |before| + |v| <= |after| && after[|before|..|before| + |v|] == v
  {
    assert forall p :: 0 <= p < |v| ==> after[|before| + p] == with[|before| + p] == v[p];
  }

  lemma {:induction false} NothingOwned(s: State, t: Tid, i: Index)
    requires OwnersOk(s, i) && !Claims(s.PcOf(t), i)
    ensures forall p :: 0 <= p < |s.At(i).own| ==> s.At(i).own[p] != Some(t)
  {
  }

  lemma {:induction false} NothingInFlight(states: seq<State>, steps: seq<Step>, k: nat, t: Tid)
    requires Execution(states, steps) && k < |states| && states[k].PcOf(t).EnqReturned?
    ensures forall i, p :: 0 <= p < |states[k].At(i).own| ==> states[k].At(i).own[p] != Some(t)
  {
    ReachableInv(states, steps, k);
    forall i ensures forall p :: 0 <= p < |states[k].At(i).own| ==> states[k].At(i).own[p] != Some(t) {
      NothingOwned(states[k], t, i);
    }
  }

  /** In every execution a `try_enqueue` that has returned accepted its value exactly once and as a whole, or
      nothing of it.  It answers `EnqueueOk` if it was accepted, in an open queue with room for it, and then
      the value is acknowledged at its place and stays in the log for good; an empty value is accepted without
      a trace.  It answers `EnqueueClosed` if the word it read last was closed, and `InsufficientCapacity` if
      that was open and had less room than the value needs. */
  lemma {:induction false} EnqueueResults(states: seq<State>, steps: seq<Step>, t: Tid, v: seq<Value>, j: nat, k: nat)
    returns (m: nat, n: nat)
    requires Execution(states, steps) && k < |states| && CallOf(states, steps, t, StartEnqueue(v), j, k)
    requires states[k].PcOf(t).EnqReturned?
    ensures Outcome(states, Movers(steps), t, v, j, k, m, n, states[k].PcOf(t).result)
    ensures forall i, p :: 0 <= p < |states[k].At(i).own| ==> states[k].At(i).own[p] != Some(t)
    ensures states[k].PcOf(t).result == EnqueueOk && v != [] ==>
              var before := |states[m].log|;
              before + |v| <= |states[k].log| && states[k].log[before..before + |v|] == v
  {
    m, n := EnqueueCall(states, steps, t, v, j, k);
    NothingInFlight(states, steps, k, t);
    if states[k].PcOf(t).result == EnqueueOk && v != [] {
      TakenStays(states, steps, m, k, v);
    }
  }
}

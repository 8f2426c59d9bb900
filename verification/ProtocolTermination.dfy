/** A dequeuing call ends: what bounds the number of its steps. */
module ProtocolTermination {
  import opened Options
  import opened Protocol
  import opened ProtocolInvariant
  import opened ProtocolSteps
  import opened ProtocolFlow
  import opened ProtocolTheorems

  /** The thread is inside `try_dequeue` or `try_dequeue_and_resize`. */
  predicate InCall(pc: Pc) {
    pc.DeqLock? || Dequeuing(pc)
  }

  /** An upper bound on the steps left, not counting failed exchanges. */
  function Rank(pc: Pc): nat {
    match pc
    case DeqLock(_) => 20 + SPIN_LIMIT
    case DeqStart(_, _, _, retried) => Pass(9, retried)
    case DeqAdd(next) => Pass(8, next.retried)
    case DeqLoad(next) => Pass(7, next.retried)
    case DeqSwap(next, _, _) => Pass(6, next.retried)
    case DeqCapacity(next, _, _) => Pass(5, next.retried)
    case DeqNotify(next, _, _) => Pass(4, next.retried)
    case DeqSpin(_, _, spins) => if spins <= SPIN_LIMIT then spins + 1 else 0
    case DeqSave(_, _) => 1
    case DeqStoreBack(_, _) => 1
    case DeqStoreEmpty(_) => 1
    case _ => 0
  }

  /** The second pass of the retry ranks below the first one. */
  function Pass(n: nat, retried: bool): nat {
    SPIN_LIMIT + n + (if retried then 0 else 9)
  }

  lemma {:induction false} RankStep(pc: Pc, pc': Pc)
    requires Follows(pc, pc') && InCall(pc)
    requires pc.DeqNotify? && pc.next.retried ==> pc.won.remaining < pc.cap
    requires pc.DeqSpin? ==> 0 < pc.spins <= SPIN_LIMIT
    ensures if pc.DeqSwap? && pc'.DeqSwap? then Rank(pc') == Rank(pc) else Rank(pc') < Rank(pc)
  {
  }

  /** Step `k` is an exchange of the buffers attempted by `t` that failed. */
  ghost predicate SwapFails(states: seq<State>, steps: seq<Step>, t: Tid, k: nat)
    requires Shaped(states, steps) && k < |steps|
  {
    steps[k].t == t && states[k].PcOf(t).DeqSwap? && states[k + 1].PcOf(t).DeqSwap?
  }

  /** Step `k` is the load with which `t` enters the exchange loop. */
  ghost predicate EntersLoop(states: seq<State>, steps: seq<Step>, t: Tid, k: nat)
    requires Shaped(states, steps) && k < |steps|
  {
    steps[k].t == t && states[k].PcOf(t).DeqLoad? && states[k + 1].PcOf(t).DeqSwap?
  }

  /** The steps of `t`, its failed exchanges, the spurious ones among them, the changes of the closed flag
      by anybody, the exchange loops `t` entered and the capacity left when it entered them. */
  datatype Tally = Tally(own: nat, failed: nat, spurious: nat, flips: nat, loops: nat, room: nat) {
    function Plus(n: Tally): Tally {
      Tally(own + n.own, failed + n.failed, spurious + n.spurious, flips + n.flips, loops + n.loops, room + n.room)
    }
  }

  /** What step `k` contributes. */
  ghost function Adds(states: seq<State>, steps: seq<Step>, t: Tid, k: nat): Tally
    requires Shaped(states, steps) && k < |steps|
  {
    var fails, enters := SwapFails(states, steps, t, k), EntersLoop(states, steps, t, k);
    Tally(if steps[k].t == t then 1 else 0,
          if fails then 1 else 0,
          if fails && steps[k].a.FailSpuriously? then 1 else 0,
          if states[k].enq.closed != states[k + 1].enq.closed then 1 else 0,
          if enters then 1 else 0,
          if enters then states[k + 1].PcOf(t).seen.remaining else 0)
  }

  /** The count from step `c` to step `k`. */
  ghost function Count(states: seq<State>, steps: seq<Step>, t: Tid, c: nat, k: nat): Tally
    requires Shaped(states, steps) && c <= k <= |steps|
    decreases k
  {
    if k == c then Tally(0, 0, 0, 0, 0, 0) else Count(states, steps, t, c, k - 1).Plus(Adds(states, steps, t, k - 1))
  }

  // ---------------------------------------------------------------- steps not counting failed exchanges

  ghost function RankAt(states: seq<State>, t: Tid, k: nat): nat
    requires k < |states|
  {
    Rank(states[k].PcOf(t))
  }

  /** Step `k` is paid for by the rank, unless it is a failed exchange. */
  ghost predicate RankPays(states: seq<State>, steps: seq<Step>, t: Tid, k: nat)
    requires Shaped(states, steps) && k < |steps|
  {
    var n := Adds(states, steps, t, k);
    n.own + RankAt(states, t, k + 1) <= RankAt(states, t, k) + n.failed
  }

  lemma {:induction false} RankRunStep(states: seq<State>, steps: seq<Step>, t: Tid, k: nat)
    requires Execution(states, steps) && k < |steps| && InCall(states[k].PcOf(t))
    ensures RankPays(states, steps, t, k)
  {
    ReachableInv(states, steps, k);
    var s, u, a := states[k], steps[k].t, steps[k].a;
    if u != t {
      OnlyMover(s, u, a, t);
    } else {
      ThreadAt(s, t);
      ControlFlow(s, t, a);
      RankStep(s.PcOf(t), states[k + 1].PcOf(t));
    }
  }

  lemma {:induction false} RankPaysAll(states: seq<State>, steps: seq<Step>, t: Tid, c: nat, k: nat)
    requires Shaped(states, steps) && c <= k <= |steps|
    requires forall m :: c <= m < k ==> RankPays(states, steps, t, m)
    ensures var n := Count(states, steps, t, c, k);
            n.own + RankAt(states, t, k) <= RankAt(states, t, c) + n.failed
    decreases k
  {
    if c < k {
      RankPaysAll(states, steps, t, c, k - 1);
      assert RankPays(states, steps, t, k - 1);
    }
  }

  lemma {:induction false} RankBound(pc: Pc)
    ensures Rank(pc) <= 84
  {
  }

  /** A dequeuing call takes at most 84 steps of its own, plus one for each failed exchange. */
  lemma {:induction false} CallSteps(states: seq<State>, steps: seq<Step>, t: Tid, c: nat, k: nat)
    requires Execution(states, steps) && c <= k <= |steps|
    requires forall m :: c <= m < k ==> InCall(states[m].PcOf(t))
    ensures var n := Count(states, steps, t, c, k);
            n.own + RankAt(states, t, k) <= RankAt(states, t, c) + n.failed
    ensures RankAt(states, t, c) <= 84
  {
    RankBound(states[c].PcOf(t));
    forall m | c <= m < k ensures RankPays(states, steps, t, m) {
      RankRunStep(states, steps, t, m);
    }
    RankPaysAll(states, steps, t, c, k);
  }

  // ---------------------------------------------------------------- failed exchanges

  /** The word a thread at the exchange expects has an outdated flag. */
  ghost function Stale(s: State, t: Tid): nat
    requires s.PcOf(t).DeqSwap?
  {
    if s.PcOf(t).seen.closed != s.enq.closed then 1 else 0
  }

  /** What is left for the exchange loop to use up. */
  ghost function Left(s: State, t: Tid): nat {
    if s.PcOf(t).DeqSwap? then s.PcOf(t).seen.remaining + Stale(s, t) else 0
  }

  /** A failed exchange at step `k` uses up capacity, unless it is spurious or the flag has changed;
      entering a loop provides the capacity it can use up, and one more. */
  ghost predicate RoomPays(states: seq<State>, steps: seq<Step>, t: Tid, k: nat)
    requires Shaped(states, steps) && k < |steps|
  {
    var n := Adds(states, steps, t, k);
    n.failed + Left(states[k + 1], t) <= Left(states[k], t) + n.spurious + n.flips + n.room + n.loops
  }

  lemma {:induction false} SwapRunStep(states: seq<State>, steps: seq<Step>, t: Tid, k: nat)
    requires Execution(states, steps) && k < |steps|
    requires states[k].PcOf(t).DeqSwap? && states[k + 1].PcOf(t).DeqSwap?
    ensures RoomPays(states, steps, t, k)
  {
    ReachableInv(states, steps, k);
    var s, u, a := states[k], steps[k].t, steps[k].a;
    ThreadAt(s, t);
    if u != t {
      OnlyMover(s, u, a, t);
    }
  }

  /** Entering the loop, the word just loaded is up to date; leaving it, nothing is left to fail. */
  lemma {:induction false} LeftRunStep(states: seq<State>, steps: seq<Step>, t: Tid, k: nat)
    requires Execution(states, steps) && k < |steps|
    requires !(states[k].PcOf(t).DeqSwap? && states[k + 1].PcOf(t).DeqSwap?)
    ensures RoomPays(states, steps, t, k)
  {
    var s, u, a := states[k], steps[k].t, steps[k].a;
    if u != t {
      OnlyMover(s, u, a, t);
    } else if s.PcOf(t).DeqLoad? && states[k + 1].PcOf(t).DeqSwap? {
      EnteredUpToDate(s, t, a);
    } else {
      ControlFlow(s, t, a);
    }
  }

  lemma {:induction false} EnteredUpToDate(s: State, t: Tid, a: Action)
    requires Enabled(s, t, a) && s.PcOf(t).DeqLoad? && Apply(s, t, a).PcOf(t).DeqSwap?
    ensures Apply(s, t, a).PcOf(t).seen == Apply(s, t, a).enq
  {
  }

  lemma {:induction false} RoomPaysAll(states: seq<State>, steps: seq<Step>, t: Tid, c: nat, k: nat)
    requires Shaped(states, steps) && c <= k <= |steps|
    requires forall m :: c <= m < k ==> RoomPays(states, steps, t, m)
    ensures var n := Count(states, steps, t, c, k);
            n.failed + Left(states[k], t) <= Left(states[c], t) + n.spurious + n.flips + n.room + n.loops
    decreases k
  {
    if c < k {
      RoomPaysAll(states, steps, t, c, k - 1);
      assert RoomPays(states, steps, t, k - 1);
    }
  }

  lemma {:induction false} EntersNoLoop(states: seq<State>, steps: seq<Step>, t: Tid, c: nat, k: nat)
    requires Shaped(states, steps) && c <= k <= |steps|
    requires forall m :: c <= m <= k ==> states[m].PcOf(t).DeqSwap?
    ensures Count(states, steps, t, c, k).loops == 0 && Count(states, steps, t, c, k).room == 0
    decreases k
  {
    if c < k {
      EntersNoLoop(states, steps, t, c, k - 1);
    }
  }

  /** Remaining capacity is what the exchange loop uses up: its failures are bounded by the capacity
      left when it started, the spurious failures and the changes of the closed flag. */
  lemma {:induction false} SwapFailuresBounded(states: seq<State>, steps: seq<Step>, t: Tid, c: nat, k: nat)
    requires Execution(states, steps) && c <= k <= |steps|
    requires forall m :: c <= m <= k ==> states[m].PcOf(t).DeqSwap?
    ensures var n := Count(states, steps, t, c, k);
            n.failed + Left(states[k], t) <= Left(states[c], t) + n.spurious + n.flips
    ensures Left(states[c], t) <= states[c].PcOf(t).seen.remaining + 1
  {
    forall m | c <= m < k ensures RoomPays(states, steps, t, m) {
      SwapRunStep(states, steps, t, m);
    }
    RoomPaysAll(states, steps, t, c, k);
    EntersNoLoop(states, steps, t, c, k);
  }

  // ---------------------------------------------------------------- a whole call

  /** How many exchange loops a call can still enter: one, and one for the retry. */
  function LoopsLeft(pc: Pc): nat {
    match pc
    case DeqLock(_) => 2
    case DeqStart(_, _, _, retried) => if retried then 1 else 2
    case DeqAdd(next) => if next.retried then 1 else 2
    case DeqLoad(next) => if next.retried then 1 else 2
    case DeqSwap(next, _, _) => if next.retried then 0 else 1
    case DeqCapacity(next, _, _) => if next.retried then 0 else 1
    case DeqNotify(next, _, _) => if next.retried then 0 else 1
    case _ => 0
  }

  lemma {:induction false} LoopsStep(pc: Pc, pc': Pc)
    requires Follows(pc, pc') && InCall(pc)
    requires pc.DeqNotify? && pc.next.retried ==> pc.won.remaining < pc.cap
    ensures LoopsLeft(pc') + (if pc.DeqLoad? && pc'.DeqSwap? then 1 else 0) <= LoopsLeft(pc)
  {
  }

  ghost predicate LoopsPay(states: seq<State>, steps: seq<Step>, t: Tid, k: nat)
    requires Shaped(states, steps) && k < |steps|
  {
    LoopsLeft(states[k + 1].PcOf(t)) + Adds(states, steps, t, k).loops <= LoopsLeft(states[k].PcOf(t))
  }

  lemma {:induction false} LoopsRunStep(states: seq<State>, steps: seq<Step>, t: Tid, k: nat)
    requires Execution(states, steps) && k < |steps| && InCall(states[k].PcOf(t))
    ensures LoopsPay(states, steps, t, k)
  {
    ReachableInv(states, steps, k);
    var s, u, a := states[k], steps[k].t, steps[k].a;
    if u != t {
      OnlyMover(s, u, a, t);
    } else {
      ThreadAt(s, t);
      ControlFlow(s, t, a);
      LoopsStep(s.PcOf(t), states[k + 1].PcOf(t));
    }
  }

  lemma {:induction false} LoopsPayAll(states: seq<State>, steps: seq<Step>, t: Tid, c: nat, k: nat)
    requires Shaped(states, steps) && c <= k <= |steps|
    requires forall m :: c <= m < k ==> LoopsPay(states, steps, t, m)
    ensures Count(states, steps, t, c, k).loops + LoopsLeft(states[k].PcOf(t)) <= LoopsLeft(states[c].PcOf(t))
    decreases k
  {
    if c < k {
      LoopsPayAll(states, steps, t, c, k - 1);
      assert LoopsPay(states, steps, t, k - 1);
    }
  }

  lemma {:induction false} EveryStepPays(states: seq<State>, steps: seq<Step>, t: Tid, k: nat)
    requires Execution(states, steps) && k < |steps| && InCall(states[k].PcOf(t))
    ensures RoomPays(states, steps, t, k) && LoopsPay(states, steps, t, k)
  {
    LoopsRunStep(states, steps, t, k);
    if states[k].PcOf(t).DeqSwap? && states[k + 1].PcOf(t).DeqSwap? {
      SwapRunStep(states, steps, t, k);
    } else {
      LeftRunStep(states, steps, t, k);
    }
  }

  /** A whole dequeuing call: it enters at most two exchange loops, and takes at most 86 steps of its own,
      plus the capacity left at each of those loops, plus the spurious failures and the changes of the
      closed flag meanwhile. */
  lemma {:induction false} WholeCallSteps(states: seq<State>, steps: seq<Step>, t: Tid, c: nat, k: nat)
    requires Execution(states, steps) && c <= k <= |steps| && states[c].PcOf(t).DeqLock?
    requires forall m :: c <= m < k ==> InCall(states[m].PcOf(t))
    ensures var n := Count(states, steps, t, c, k);
            n.loops <= 2 && n.own <= 86 + n.room + n.spurious + n.flips
  {
    CallSteps(states, steps, t, c, k);
    forall m | c <= m < k ensures RoomPays(states, steps, t, m) && LoopsPay(states, steps, t, m) {
      EveryStepPays(states, steps, t, m);
    }
    RoomPaysAll(states, steps, t, c, k);
    LoopsPayAll(states, steps, t, c, k);
  }
}

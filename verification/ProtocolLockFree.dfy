/** A `try_enqueue` ends: only the progress of others can delay it. */
module ProtocolLockFree {
  import opened Options
  import opened Protocol
  import opened ProtocolInvariant
  import opened ProtocolSteps
  import opened ProtocolFlow
  import opened ProtocolTheorems

  /** The thread is inside `try_enqueue`. */
  predicate Inside(pc: Pc) {
    Enqueuing(pc) || pc.EnqNotify?
  }

  /** The steps left, not counting failed exchanges. */
  function StepsLeft(pc: Pc): nat {
    match pc
    case EnqLoad(v) => |v| + 5
    case EnqCas(v, _) => |v| + 4
    case EnqIndex(v, _) => |v| + 3
    case EnqInsert(v, _, _, done) => if done <= |v| then |v| - done + 2 else 0
    case EnqNotify => 1
    case _ => 0
  }

  /** The word a thread at the exchange expects is not the current one. */
  function Outdated(s: State, t: Tid): nat {
    if s.PcOf(t).EnqCas? && s.PcOf(t).seen != s.enq then 1 else 0
  }

  /** The steps of `t`, its failed exchanges, the spurious ones among them, and the changes of the enqueuing
      word by other threads. */
  datatype Effort = Effort(own: nat, failed: nat, spurious: nat, changes: nat) {
    function Plus(n: Effort): Effort {
      Effort(own + n.own, failed + n.failed, spurious + n.spurious, changes + n.changes)
    }
  }

  /** What a step of thread `u` from `s` to `s'` contributes. */
  ghost function Costs(s: State, s': State, u: Tid, a: Action, t: Tid): Effort {
    var fails := u == t && s.PcOf(t).EnqCas? && s'.PcOf(t).EnqCas?;
    Effort(if u == t then 1 else 0,
           if fails then 1 else 0,
           if fails && a.FailSpuriously? then 1 else 0,
           if u != t && s'.enq != s.enq then 1 else 0)
  }

  ghost function Total(states: seq<State>, steps: seq<Step>, t: Tid, c: nat, k: nat): Effort
    requires Shaped(states, steps) && c <= k <= |steps|
    decreases k
  {
    if k == c then Effort(0, 0, 0, 0)
    else
      Total(states, steps, t, c, k - 1).Plus(Costs(states[k - 1], states[k], steps[k - 1].t, steps[k - 1].a, t))
  }

  /** A step is paid for by the steps left, unless it is a failed exchange; and that by the word having been
      outdated, which takes a change by another thread, unless it is spurious. */
  ghost predicate Paid(s: State, s': State, u: Tid, a: Action, t: Tid) {
    var n := Costs(s, s', u, a, t);
    && n.own + StepsLeft(s'.PcOf(t)) <= StepsLeft(s.PcOf(t)) + n.failed
    && n.failed + Outdated(s', t) <= Outdated(s, t) + n.spurious + n.changes
  }

  lemma {:induction false} OwnStepPaid(s: State, t: Tid, a: Action)
    requires Inv(s) && Enabled(s, t, a) && Inside(s.PcOf(t))
    ensures Paid(s, Apply(s, t, a), t, a, t)
  {
    ThreadAt(s, t);
    match s.PcOf(t)
    case EnqCas(v, seen) => ExchangePaid(s, t, a, v, seen);
    case EnqInsert(v, won, base, done) => InsertPaid(s, t, a, v, won, base, done);
    case EnqLoad(v) => LoadPaid(s, t, a, v);
    case EnqIndex(v, won) => IndexPaid(s, t, a, v, won);
    case _ =>
  }

  lemma {:induction false} LoadPaid(s: State, t: Tid, a: Action, v: seq<Value>)
    requires s.PcOf(t) == EnqLoad(v)
    ensures Paid(s, EnqLoadStep(s, t, v), t, a, t)
  {
  }

  lemma {:induction false} IndexPaid(s: State, t: Tid, a: Action, v: seq<Value>, won: Word)
    requires s.PcOf(t) == EnqIndex(v, won)
    ensures Paid(s, EnqIndexStep(s, t, v, won), t, a, t)
  {
  }

  lemma {:induction false} ExchangePaid(s: State, t: Tid, a: Action, v: seq<Value>, seen: Word)
    requires s.PcOf(t) == EnqCas(v, seen) && |v| <= seen.remaining
    ensures Paid(s, EnqCasStep(s, t, v, seen, a.FailSpuriously?), t, a, t)
  {
  }

  lemma {:induction false} InsertPaid(s: State, t: Tid, a: Action, v: seq<Value>, won: Word, base: nat, done: nat)
    requires s.PcOf(t) == EnqInsert(v, won, base, done) && done <= |v|
    ensures Paid(s, EnqInsertStep(s, t, v, won, base, done), t, a, t)
  {
  }

  lemma {:induction false} OtherStepPaid(s: State, s': State, u: Tid, a: Action, t: Tid)
    requires u != t && s'.PcOf(t) == s.PcOf(t)
    ensures Paid(s, s', u, a, t)
  {
  }

  lemma {:induction false} StepPaid(states: seq<State>, steps: seq<Step>, t: Tid, k: nat)
    requires Execution(states, steps) && k < |steps| && Inside(states[k].PcOf(t))
    ensures Paid(states[k], states[k + 1], steps[k].t, steps[k].a, t)
  {
    ReachableInv(states, steps, k);
    var s, u, a := states[k], steps[k].t, steps[k].a;
    if u == t {
      OwnStepPaid(s, t, a);
    } else {
      OnlyMover(s, u, a, t);
      OtherStepPaid(s, states[k + 1], u, a, t);
    }
  }

  lemma {:induction false} AllPaid(states: seq<State>, steps: seq<Step>, t: Tid, c: nat, k: nat)
    requires Shaped(states, steps) && c <= k <= |steps|
    requires forall m {:trigger steps[m]} :: c <= m < k ==> Paid(states[m], states[m + 1], steps[m].t, steps[m].a, t)
    ensures var n := Total(states, steps, t, c, k);
            && n.own + StepsLeft(states[k].PcOf(t)) <= StepsLeft(states[c].PcOf(t)) + n.failed
            && n.failed + Outdated(states[k], t) <= Outdated(states[c], t) + n.spurious + n.changes
    decreases k
  {
    if c < k {
      AllPaid(states, steps, t, c, k - 1);
      assert Paid(states[k - 1], states[k], steps[k - 1].t, steps[k - 1].a, t);
    }
  }

  /** A whole `try_enqueue` of a value takes at most five steps of its own and one for each cell, plus one for
      each spurious failure of the exchange and each change of the enqueuing word by another thread
      meanwhile: it waits for nobody. */
  lemma {:induction false} EnqueueSteps(states: seq<State>, steps: seq<Step>, t: Tid, c: nat, k: nat)
    requires Execution(states, steps) && c <= k <= |steps| && states[c].PcOf(t).EnqLoad?
    requires forall m :: c <= m < k ==> Inside(states[m].PcOf(t))
    ensures var n := Total(states, steps, t, c, k);
            n.own <= |states[c].PcOf(t).value| + 5 + n.spurious + n.changes
  {
    forall m {:trigger steps[m]} | c <= m < k
      ensures Paid(states[m], states[m + 1], steps[m].t, steps[m].a, t)
    {
      StepPaid(states, steps, t, m);
    }
    AllPaid(states, steps, t, c, k);
  }
}

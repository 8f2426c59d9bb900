/** A run of the composed system is, as far as the queue goes, an execution of the queue. */
module SynchronizedProjection {
  import opened Options
  import opened Protocol
  import opened ProtocolInvariant
  import opened ProtocolTheorems
  import opened Synchronized
  import opened SynchronizedInvariant
  import opened SynchronizedSteps
  import opened SynchronizedMoves
  import opened SynchronizedTheorems
  import A = AtomicWaker
  import L = WakerList

  /** From `q` to `q'` thread `t` takes a step of the queue, or none. */
  ghost predicate StepOrNone(q: State, q': State, t: Tid) {
    q' == q || exists a :: Enabled(q, t, a) && q' == Apply(q, t, a)
  }

  lemma {:induction false} MoveSteps(s: Sys, t: Tid, m: Move)
    requires MoveEnabled(s, t, m)
    ensures StepOrNone(s.q, MoveStep(s, t, m).q, t)
  {
    var q' := MoveStep(s, t, m).q;
    match m
    case QueueMove(a) => assert Enabled(s.q, t, a) && q' == Apply(s.q, t, a);
    case NotifyMove => assert q' != s.q ==> Enabled(s.q, t, Advance) && q' == Apply(s.q, t, Advance);
    case ResumeMove => assert q' != s.q ==> Enabled(s.q, t, Advance) && q' == Apply(s.q, t, Advance);
    case CallMove => CallSteps(s, t);
    case Deadline =>
      var a := if s.SyncOf(t).DPark? then StartDequeue(NoResize) else StartEnqueue(s.SyncOf(t).value);
      assert Enabled(s.q, t, a) && q' == Apply(s.q, t, a);
    case _ =>
  }

  lemma {:induction false} CallSteps(s: Sys, t: Tid)
    requires MoveEnabled(s, t, CallMove)
    ensures StepOrNone(s.q, CallStep(s, t).q, t)
  {
    var sp := s.SyncOf(t);
    var a := if sp.DSpin? || sp.DRetry? then StartDequeue(NoResize) else StartEnqueue(sp.value);
    assert Enabled(s.q, t, a) && CallStep(s, t).q == Apply(s.q, t, a);
  }

  /** A turn of `t` is a step of the execution, or none. */
  ghost predicate Advances(steps: seq<Step>, n: nat, n': nat, t: Tid) {
    n' == n || (n < |steps| && n' == n + 1 && steps[n].t == t)
  }

  /** The states of the run up to `k` are, in order, states of this execution, the steps of which are taken by
      the threads that moved. */
  ghost predicate Projected(states: seq<Sys>, turns: seq<Turn>, k: nat, qs: seq<State>, steps: seq<Step>,
      at: seq<nat>) {
    && |states| == |turns| + 1 && k < |states|
    && Execution(qs, steps) && |at| == k + 1 && at[0] == 0 && at[k] == |steps|
    && (forall i :: 0 <= i <= k ==> at[i] < |qs| && qs[at[i]] == states[i].q)
    && (forall i {:trigger turns[i]} :: 0 <= i < k ==> Advances(steps, at[i], at[i + 1], turns[i].t))
  }

  lemma {:induction false} ExecutionOn(qs: seq<State>, steps: seq<Step>, t: Tid, a: Action, q': State)
    requires Execution(qs, steps) && Enabled(qs[|steps|], t, a) && q' == Apply(qs[|steps|], t, a)
    ensures Execution(qs + [q'], steps + [Step(t, a)])
  {
    var qs', steps' := qs + [q'], steps + [Step(t, a)];
    forall k | 0 <= k < |steps'|
      ensures Enabled(qs'[k], steps'[k].t, steps'[k].a) && qs'[k + 1] == Apply(qs'[k], steps'[k].t, steps'[k].a)
    {
      if k < |steps| {
        assert qs'[k] == qs[k] && steps'[k] == steps[k] && qs'[k + 1] == qs[k + 1];
      }
    }
  }

  lemma {:induction false} ProjectedFrom(states: seq<Sys>, turns: seq<Turn>, k: nat)
    returns (qs: seq<State>, steps: seq<Step>, at: seq<nat>)
    requires |states| == |turns| + 1 && k < |states| && Init(states[0].q)
    requires forall i {:trigger turns[i]} :: 0 <= i < |turns| ==> StepOrNone(states[i].q, states[i + 1].q, turns[i].t)
    ensures Projected(states, turns, k, qs, steps, at)
  {
    if k == 0 {
      qs, steps, at := [states[0].q], [], [0];
    } else {
      qs, steps, at := ProjectedFrom(states, turns, k - 1);
      assert StepOrNone(states[k - 1].q, states[k].q, turns[k - 1].t);
      qs, steps, at := ProjectedOn(states, turns, k - 1, qs, steps, at);
    }
  }

  lemma {:induction false} ProjectedOn(states: seq<Sys>, turns: seq<Turn>, k: nat, qs: seq<State>, steps: seq<Step>,
      at: seq<nat>) returns (qs': seq<State>, steps': seq<Step>, at': seq<nat>)
    requires Projected(states, turns, k, qs, steps, at) && k < |turns|
    requires StepOrNone(states[k].q, states[k + 1].q, turns[k].t)
    ensures Projected(states, turns, k + 1, qs', steps', at')
  {
    var q, q', t := states[k].q, states[k + 1].q, turns[k].t;
    if q' == q {
      qs', steps', at' := qs, steps, at + [at[k]];
      ProjectedStill(states, turns, k, qs, steps, at);
    } else {
      var a :| Enabled(q, t, a) && q' == Apply(q, t, a);
      qs', steps', at' := qs + [q'], steps + [Step(t, a)], at + [at[k] + 1];
      ExecutionOn(qs, steps, t, a, q');
      ProjectedStep(states, turns, k, qs, steps, at, a);
    }
  }

  lemma {:induction false} ProjectedStill(states: seq<Sys>, turns: seq<Turn>, k: nat, qs: seq<State>,
      steps: seq<Step>, at: seq<nat>)
    requires Projected(states, turns, k, qs, steps, at) && k < |turns| && states[k + 1].q == states[k].q
    ensures Projected(states, turns, k + 1, qs, steps, at + [at[k]])
  {
    var at' := at + [at[k]];
    forall i | 0 <= i <= k + 1 ensures at'[i] < |qs| && qs[at'[i]] == states[i].q {
      if i <= k { assert at'[i] == at[i]; }
    }
    forall i {:trigger turns[i]} | 0 <= i < k + 1 ensures Advances(steps, at'[i], at'[i + 1], turns[i].t)
    {
      if i < k { assert at'[i] == at[i] && at'[i + 1] == at[i + 1]; }
    }
  }

  lemma {:induction false} ProjectedStep(states: seq<Sys>, turns: seq<Turn>, k: nat, qs: seq<State>,
      steps: seq<Step>, at: seq<nat>, a: Action)
    requires Projected(states, turns, k, qs, steps, at) && k < |turns|
    requires Execution(qs + [states[k + 1].q], steps + [Step(turns[k].t, a)])
    ensures Projected(states, turns, k + 1, qs + [states[k + 1].q], steps + [Step(turns[k].t, a)], at + [at[k] + 1])
  {
    var qs', steps', at' := qs + [states[k + 1].q], steps + [Step(turns[k].t, a)], at + [at[k] + 1];
    forall i | 0 <= i <= k + 1 ensures at'[i] < |qs'| && qs'[at'[i]] == states[i].q {
      if i <= k { assert at'[i] == at[i] && qs'[at[i]] == qs[at[i]]; }
    }
    forall i {:trigger turns[i]} | 0 <= i < k + 1 ensures Advances(steps', at'[i], at'[i + 1], turns[i].t)
    {
      if i < k {
        assert at'[i] == at[i] && at'[i + 1] == at[i + 1];
        assert Advances(steps, at[i], at[i + 1], turns[i].t);
      }
    }
  }

  /** Every run of the composed system runs through the states of an execution of the queue, so that everything
      proved of executions holds of the queue in it: its log, its slices, its answers. */
  lemma {:induction false} RunProjects(states: seq<Sys>, turns: seq<Turn>, k: nat)
    returns (qs: seq<State>, steps: seq<Step>, at: seq<nat>)
    requires Run(states, turns) && k < |states|
    ensures Projected(states, turns, k, qs, steps, at)
  {
    forall i {:trigger turns[i]} | 0 <= i < |turns| ensures StepOrNone(states[i].q, states[i + 1].q, turns[i].t) {
      MoveSteps(states[i], turns[i].t, turns[i].m);
    }
    qs, steps, at := ProjectedFrom(states, turns, k);
  }
}

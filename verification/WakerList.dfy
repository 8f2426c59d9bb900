/** `src/synchronized/waker_list.rs` as a step system: a list behind a mutex, and a flag that is set
    under the mutex but cleared without it. */
module WakerList {
  import opened Options

  type Tid = nat

  datatype Pc =
    | Idle
    // register: the thread registers a waker for itself
    | RegLock
    | RegFlag
    | RegPush
    // wake and wake_all
    | WakeLoad
    | WakeCas
    | DrainLock
    | Drain
    // the operation has returned
    | Done

  /** History: `drainer` is the thread that cleared the flag and has not finished draining;
      `pushed` and `woken` are the wakers registered and unparked so far, in order. */
  datatype State = State(
    flag: bool,
    list: seq<Tid>,
    mutex: Option<Tid>,
    threads: map<Tid, Pc>,
    drainer: Option<Tid>,
    pushed: seq<Tid>,
    woken: seq<Tid>
  ) {
    function PcOf(t: Tid): Pc {
      if t in threads then threads[t] else Idle
    }

    function Go(t: Tid, pc: Pc): State {
      this.(threads := threads[t := pc])
    }
  }

  datatype Action = StartRegister | StartWake | Advance | Finish

  predicate Enabled(s: State, t: Tid, a: Action) {
    match s.PcOf(t)
    case Idle => a.StartRegister? || a.StartWake?
    case RegLock => a.Advance? && s.mutex == None
    case DrainLock => a.Advance? && s.mutex == None
    case Done => a.Finish?
    case _ => a.Advance?
  }

  /** Unparks the first waker of the list, or gives the mutex back after the last one. */
  function DrainStep(s: State, t: Tid): State {
    if s.list != [] then s.(list := s.list[1..], woken := s.woken + [s.list[0]])
    else s.(mutex := None, drainer := None).Go(t, Done)
  }

  function Apply(s: State, t: Tid, a: Action): State
    requires Enabled(s, t, a)
  {
    match s.PcOf(t)
    case Idle => s.Go(t, if a.StartRegister? then RegLock else WakeLoad)
    case RegLock => s.(mutex := Some(t)).Go(t, RegFlag)
    case RegFlag => s.(flag := s.flag || s.list == []).Go(t, RegPush)
    case RegPush => s.(list := s.list + [t], pushed := s.pushed + [t], mutex := None).Go(t, Done)
    case WakeLoad => s.Go(t, if s.flag then WakeCas else Done)
    case WakeCas => if s.flag then s.(flag := false, drainer := Some(t)).Go(t, DrainLock) else s.Go(t, Done)
    case DrainLock => s.(mutex := Some(t)).Go(t, Drain)
    case Drain => DrainStep(s, t)
    case Done => s.Go(t, Idle)
  }

  /** The thread that the next step of a thread at `pc` unparks. */
  function Unparks(s: State, pc: Pc): Option<Tid> {
    if pc.Drain? && s.list != [] then Some(s.list[0]) else None
  }

  const Created: State := State(false, [], None, map[], None, [], [])

  // ---------------------------------------------------------------- invariant

  predicate Locks(pc: Pc) {
    pc.RegFlag? || pc.RegPush? || pc.Drain?
  }

  predicate Drains(pc: Pc) {
    pc.DrainLock? || pc.Drain?
  }

  /** A registrar that holds the mutex is about to push. */
  predicate Pushing(s: State) {
    s.mutex.Some? && s.PcOf(s.mutex.value).RegPush?
  }

  /** A thread has cleared the flag and is committed to unpark everything in the list. */
  predicate Committed(s: State) {
    s.drainer.Some? && (s.PcOf(s.drainer.value).DrainLock? || s.list != [])
  }

  ghost predicate Inv(s: State) {
    && (forall t: Tid :: Locks(s.PcOf(t)) <==> s.mutex == Some(t))
    && (forall t: Tid :: Drains(s.PcOf(t)) <==> s.drainer == Some(t))
    && !(s.flag && s.drainer.Some?)
    && (s.list != [] || Pushing(s) ==> s.flag || s.drainer.Some?)
    && (s.flag ==> s.list != [] || Pushing(s))
    && (s.drainer.Some? && s.PcOf(s.drainer.value).DrainLock? ==> s.list != [] || Pushing(s))
    && s.pushed == s.woken + s.list
  }

  lemma {:induction false} OthersStay(s: State, t: Tid, a: Action, u: Tid)
    requires Enabled(s, t, a) && u != t
    ensures Apply(s, t, a).PcOf(u) == s.PcOf(u)
  {
  }

  /** The mutex and the duty to drain belong to the threads that are past taking them. */
  lemma {:induction false} HoldersKept(s: State, t: Tid, a: Action)
    requires Inv(s) && Enabled(s, t, a)
    ensures var s' := Apply(s, t, a);
            forall u: Tid :: (Locks(s'.PcOf(u)) <==> s'.mutex == Some(u))
                && (Drains(s'.PcOf(u)) <==> s'.drainer == Some(u))
  {
  }

  lemma {:induction false} OrderKept(s: State, t: Tid, a: Action)
    requires s.pushed == s.woken + s.list && Enabled(s, t, a)
    ensures var s' := Apply(s, t, a);
            s'.pushed == s'.woken + s'.list
  {
  }

  lemma {:induction false} StepKeeps(s: State, t: Tid, a: Action)
    requires Inv(s) && Enabled(s, t, a)
    ensures Inv(Apply(s, t, a))
  {
    HoldersKept(s, t, a);
    OrderKept(s, t, a);
  }

  // ---------------------------------------------------------------- over every execution

  datatype Step = Step(t: Tid, a: Action)

  ghost predicate Execution(states: seq<State>, steps: seq<Step>) {
    && |states| == |steps| + 1
    && states[0] == Created
    && (forall k :: 0 <= k < |steps| ==>
         Enabled(states[k], steps[k].t, steps[k].a) && states[k + 1] == Apply(states[k], steps[k].t, steps[k].a))
  }

  lemma {:induction false} ReachableInv(states: seq<State>, steps: seq<Step>, k: nat)
    requires Execution(states, steps) && k < |states|
    ensures Inv(states[k])
  {
    if k > 0 {
      ReachableInv(states, steps, k - 1);
      StepKeeps(states[k - 1], steps[k - 1].t, steps[k - 1].a);
    }
  }

  /** In every state of every execution: somebody is registered, or about to be, exactly when the
      flag is set or one thread is committed to draining, never both; and the wakers unparked so far
      followed by those in the list are the ones registered, each once, in order. */
  lemma {:induction false} FlagOrDrainer(states: seq<State>, steps: seq<Step>, k: nat)
    requires Execution(states, steps) && k < |states|
    ensures var s := states[k];
            && (s.list != [] || Pushing(s) <==> s.flag || Committed(s))
            && !(s.flag && Committed(s))
            && (forall t: Tid, u: Tid :: Drains(s.PcOf(t)) && Drains(s.PcOf(u)) ==> t == u)
            && s.pushed == s.woken + s.list
  {
    ReachableInv(states, steps, k);
  }

  /** A `wake` that finds the flag cleared returns at once, and loses nothing: whatever is in the list
      then is going to be unparked by the thread that cleared it. */
  lemma {:induction false} WakeDelegates(states: seq<State>, steps: seq<Step>, k: nat)
    requires Execution(states, steps) && k < |steps|
    requires states[k].PcOf(steps[k].t).WakeLoad? || states[k].PcOf(steps[k].t).WakeCas?
    requires states[k + 1].PcOf(steps[k].t).Done?
    ensures states[k].list != [] ==> Committed(states[k])
  {
    ReachableInv(states, steps, k);
  }
}

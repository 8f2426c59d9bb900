/** `src/synchronized/atomic_waker.rs` as a step system: any number of threads register themselves
    and wake; a step is one access to the state word or to the waker cell.  The two bits of the
    state word are kept apart (module PackedWords packs them). */
module AtomicWaker {
  import opened Options

  type Tid = nat

  datatype Bits = Bits(registering: bool, waking: bool)

  const WAITING: Bits := Bits(false, false)

  datatype Pc =
    | Idle
    // register: the thread registers a waker for itself
    | RegStart
    | RegWrite
    | RegCas
    | RegTake
    | RegSwap(waker: Tid)
    | RegUnpark(waker: Tid)
    | RegSelf
    // wake
    | WakeStart
    | WakeTake
    | WakeClear(taken: Option<Tid>)
    | WakeUnpark(waker: Tid)
    // the operation has returned
    | Done

  /** History: `owner` is the thread that may access the cell; `fault` is set when one of the state
      assertions fails or an empty cell is unwrapped. */
  datatype State = State(bits: Bits, cell: Option<Tid>, threads: map<Tid, Pc>, owner: Option<Tid>, fault: bool) {
    function PcOf(t: Tid): Pc {
      if t in threads then threads[t] else Idle
    }

    function Go(t: Tid, pc: Pc): State {
      this.(threads := threads[t := pc])
    }
  }

  datatype Action = StartRegister | StartWake | Advance | Finish

  predicate Enabled(s: State, t: Tid, a: Action) {
    match s.PcOf(t)
    case Idle => a.StartRegister? || a.StartWake?
    case Done => a.Finish?
    case _ => a.Advance?
  }

  /** The compare-and-exchange that opens `register`, and what its outcome leads to. */
  function RegStartStep(s: State, t: Tid): State {
    if s.bits == WAITING then s.(bits := Bits(true, false), owner := Some(t)).Go(t, RegWrite)
    else if s.bits == Bits(false, true) then s.Go(t, RegSelf)
    else s.Go(t, Done)
  }

  /** The compare-and-exchange that closes `register`. */
  function RegCasStep(s: State, t: Tid): State {
    if s.bits == Bits(true, false) then s.(bits := WAITING, owner := None).Go(t, Done)
    else s.(fault := s.fault || s.bits != Bits(true, true)).Go(t, RegTake)
  }

  function RegTakeStep(s: State, t: Tid): State {
    if s.cell.Some? then s.(cell := None).Go(t, RegSwap(s.cell.value))
    else s.(fault := true).Go(t, Done)
  }

  /** The `fetch_or` that opens `wake`. */
  function WakeStartStep(s: State, t: Tid): State {
    var s' := s.(bits := s.bits.(waking := true));
    if s.bits == WAITING then s'.(owner := Some(t)).Go(t, WakeTake) else s'.Go(t, Done)
  }

  function Apply(s: State, t: Tid, a: Action): State
    requires Enabled(s, t, a)
  {
    match s.PcOf(t)
    case Idle => s.Go(t, if a.StartRegister? then RegStart else WakeStart)
    case RegStart => RegStartStep(s, t)
    case RegWrite => s.(cell := Some(t)).Go(t, RegCas)
    case RegCas => RegCasStep(s, t)
    case RegTake => RegTakeStep(s, t)
    case RegSwap(waker) => s.(bits := WAITING, owner := None).Go(t, RegUnpark(waker))
    case RegUnpark(_) => s.Go(t, Done)
    case RegSelf => s.Go(t, Done)
    case WakeStart => WakeStartStep(s, t)
    case WakeTake => s.(cell := None).Go(t, WakeClear(s.cell))
    case WakeClear(taken) =>
      s.(bits := s.bits.(waking := false), owner := None).Go(t, if taken.Some? then WakeUnpark(taken.value) else Done)
    case WakeUnpark(_) => s.Go(t, Done)
    case Done => s.Go(t, Idle)
  }

  /** The thread that the next step of a thread `t` at `pc` unparks. */
  function Unparks(t: Tid, pc: Pc): Option<Tid> {
    match pc
    case RegUnpark(waker) => Some(waker)
    case RegSelf => Some(t)
    case WakeUnpark(waker) => Some(waker)
    case _ => None
  }

  const Created: State := State(WAITING, None, map[], None, false)

  // ---------------------------------------------------------------- invariant

  predicate Registers(pc: Pc) {
    pc.RegWrite? || pc.RegCas? || pc.RegTake? || pc.RegSwap?
  }

  predicate Takes(pc: Pc) {
    pc.WakeTake? || pc.WakeClear?
  }

  /** The next step of the thread accesses the cell. */
  predicate UsesCell(pc: Pc) {
    pc.RegWrite? || pc.RegTake? || pc.WakeTake?
  }

  ghost predicate OwnerOk(s: State, t: Tid, pc: Pc) {
    match pc
    case RegWrite => s.bits.registering
    case RegCas => s.bits.registering && s.cell == Some(t)
    case RegTake => s.bits == Bits(true, true) && s.cell == Some(t)
    case RegSwap(waker) => s.bits == Bits(true, true) && s.cell == None && waker == t
    case RegUnpark(waker) => waker == t
    case WakeTake => s.bits == Bits(false, true)
    case WakeClear(_) => s.bits == Bits(false, true) && s.cell == None
    case _ => true
  }

  ghost predicate Inv(s: State) {
    && !s.fault
    && (s.bits == WAITING <==> s.owner == None)
    && (forall t: Tid :: Registers(s.PcOf(t)) || Takes(s.PcOf(t)) <==> s.owner == Some(t))
    && (forall t: Tid :: OwnerOk(s, t, s.PcOf(t)))
  }

  lemma {:induction false} StepKeeps(s: State, t: Tid, a: Action)
    requires Inv(s) && Enabled(s, t, a)
    ensures Inv(Apply(s, t, a))
  {
    var s' := Apply(s, t, a);
    assert OwnerOk(s, t, s.PcOf(t));
    forall u: Tid ensures (Registers(s'.PcOf(u)) || Takes(s'.PcOf(u)) <==> s'.owner == Some(u))
        && OwnerOk(s', u, s'.PcOf(u)) {
      assert OwnerOk(s, u, s.PcOf(u));
    }
  }

  // ---------------------------------------------------------------- over every execution

  datatype Step = Step(t: Tid, a: Action)

  ghost predicate Execution(states: seq<State>, steps: seq<Step>) {
    && |states| == |steps| + 1
    && states[0] == Created
    && (forall k :: 0 <= k < |steps| ==>
         Enabled(states[k], steps[k].t, steps[k].a) && states[k + 1] == Apply(states[k], steps[k].t, steps[k].a))
  }

  lemma {:induction false} ReachableInv(states: seq<State>, steps: seq<Step>, k: nat)
    requires Execution(states, steps) && k < |states|
    ensures Inv(states[k])
  {
    if k > 0 {
      ReachableInv(states, steps, k - 1);
      StepKeeps(states[k - 1], steps[k - 1].t, steps[k - 1].a);
    }
  }

  /** However registrations and wake-ups interleave: the assertions on the state hold, the waker is
      there when it is unwrapped, and no two threads are about to access the cell. */
  lemma {:induction false} CellIsExclusive(states: seq<State>, steps: seq<Step>, k: nat)
    requires Execution(states, steps) && k < |states|
    ensures !states[k].fault
    ensures forall t: Tid, u: Tid :: UsesCell(states[k].PcOf(t)) && UsesCell(states[k].PcOf(u)) ==> t == u
    ensures forall t: Tid :: states[k].PcOf(t).RegTake? ==> states[k].cell == Some(t)
  {
    ReachableInv(states, steps, k);
    forall t: Tid ensures states[k].PcOf(t).RegTake? ==> states[k].cell == Some(t) {
      assert OwnerOk(states[k], t, states[k].PcOf(t));
    }
  }
}

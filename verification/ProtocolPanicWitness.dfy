/** An execution in which a pre-insertion panics, and the drop of the queue it leaves behind: two values
    that each fit into the only cell, one of which stays in it for good. */
module ProtocolPanicWitness {
  import opened Options
  import opened Protocol
  import opened ProtocolInvariant
  import opened ProtocolTheorems
  import opened ProtocolDrop
  import opened ProtocolWitness

  /** The thread that drops the queue. */
  const DROPPER: Tid := 1

  /** Two values for a buffer with one cell. */
  function TwoForOne(): Resize {
    ResizeTo(None, [[7], [8]])
  }

  /** The queue while the thread that is going to panic is at `pc`. */
  function Asking(deq: DequeuingWord, pc: Pc): State {
    Solo(Word(false, 1, Zero), deq, Vacant(), Vacant(), [], pc)
  }

  /** The buffer with the value that had been written when the panic came. */
  function Leftover(): Side {
    Side([Some(7)], 0, [], [], 0, [7])
  }

  /** The queue after the panic. */
  function Stuck(threads: map<Tid, Pc>): State {
    State(Word(false, 1, Zero), Locked, Sides(Vacant(), Leftover()), 1, threads, Some(ONLY), [], [], false)
  }

  function After(): map<Tid, Pc> {
    map[ONLY := Panicked(One)]
  }

  lemma {:induction false} SecondOverflows(insert: seq<seq<Value>>)
    requires insert == [[7], [8]]
    ensures PreInsert(1, 0, insert) == Overflows([7])
  {
    assert insert[1..] == [[8]];
    assert [[8]][0][..0] == [];
    assert PreInsert(1, 1, [[8]]) == Overflows([]);
    assert [7] + [] == [7];
  }

  lemma {:induction false} FirstIsWritten()
    ensures Prepare(EmptyCells(1), TwoForOne()) == Panic([Some(7)], [7], false)
  {
    SecondOverflows([[7], [8]]);
    assert Filled([7]) + EmptyCells(1)[1..] == [Some(7)];
  }

  lemma {:induction false} Asks()
    ensures StepsTo(Created(1), StartDequeue(TwoForOne()), Asking(Saved(One, 0), DeqLock(TwoForOne())))
    ensures StepsTo(Asking(Saved(One, 0), DeqLock(TwoForOne())), Advance,
                    Asking(Locked, DeqStart(TwoForOne(), One, 0, false)))
  {
    assert Created(1).threads[ONLY := DeqLock(TwoForOne())] == map[ONLY := DeqLock(TwoForOne())];
    Goes(DeqLock(TwoForOne()), DeqStart(TwoForOne(), One, 0, false));
  }

  lemma {:induction false} Panics()
    ensures StepsTo(Asking(Locked, DeqStart(TwoForOne(), One, 0, false)), Advance, Stuck(After()))
  {
    FirstIsWritten();
    Goes(DeqStart(TwoForOne(), One, 0, false), Panicked(One));
  }

  /** A pre-insertion that passes the guard and panics, having written 7. */
  lemma {:induction false} PanicIsReached()
    ensures Reached(Stuck(After())) && Stuck(After()).PcOf(ONLY) == Panicked(One)
    ensures Stuck(After()).At(One).cells == [Some(7)]
  {
    ReachCreated(1);
    Asks();
    Then(Created(1), StartDequeue(TwoForOne()), Asking(Saved(One, 0), DeqLock(TwoForOne())));
    Then(Asking(Saved(One, 0), DeqLock(TwoForOne())), Advance, Asking(Locked, DeqStart(TwoForOne(), One, 0, false)));
    Panics();
    Then(Asking(Locked, DeqStart(TwoForOne(), One, 0, false)), Advance, Stuck(After()));
  }

  /** The drop, state by state and step by step. */
  function StuckState(k: nat): State {
    match k
    case 0 => Stuck(After())
    case 1 => Stuck(After()[DROPPER := DeqLock(NoResize)])
    case 2 => Stuck(After()[DROPPER := DeqReturned(Conflict)])
    case _ => Stuck(After()[DROPPER := Idle])
  }

  function StuckAction(k: nat): Action {
    if k == 0 then StartDequeue(NoResize) else Advance
  }

  lemma {:induction false} Replaces(pc: Pc, pc': Pc)
    ensures After()[DROPPER := pc][DROPPER := pc'] == After()[DROPPER := pc']
  {
  }

  lemma {:induction false} StuckStep(k: nat)
    requires k < 3
    ensures Moves(DROPPER, StuckState(k), StuckAction(k), StuckState(k + 1))
    ensures k > 0 ==> StuckState(k).PcOf(DROPPER) != Idle
  {
    if k == 1 {
      Replaces(DeqLock(NoResize), DeqReturned(Conflict));
    } else if k == 2 {
      Replaces(DeqReturned(Conflict), Idle);
    }
  }

  /** The drop of that queue finds the dequeuing lock taken and leaves 7 in its cell. */
  lemma {:induction false} DropLeavesWritten() returns (states: seq<State>, steps: seq<Step>)
    ensures DropRun(states, steps, DROPPER) && states[0] == Stuck(After())
    ensures states[|steps|].At(One).cells == [Some(7)] && states[|steps|].log == []
  {
    states, steps := seq(4, k requires k >= 0 => StuckState(k)),
        seq(3, k requires k >= 0 => Step(DROPPER, StuckAction(k)));
    forall k | 0 <= k < |steps|
      ensures steps[k].t == DROPPER && Moves(DROPPER, states[k], steps[k].a, states[k + 1])
      ensures k > 0 ==> states[k].PcOf(DROPPER) != Idle && steps[k].a.Advance?
    {
      StuckStep(k);
    }
    RunOfSteps(states, steps, DROPPER);
  }
}

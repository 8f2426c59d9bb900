/** Executions that show on concrete values what the queue does where one would expect something else. */
module ProtocolWitness {
  import opened Options
  import opened Protocol
  import opened ProtocolInvariant
  import opened ProtocolSteps
  import opened ProtocolTheorems
  import opened ProtocolDrop

  ghost predicate Reached(s: State) {
    exists states, steps :: Execution(states, steps) && states[|steps|] == s
  }

  lemma {:induction false} ReachCreated(capacity: nat)
    requires capacity < CAPACITY_LIMIT
    ensures Reached(Created(capacity))
  {
    assert Execution([Created(capacity)], []);
  }

  lemma {:induction false} ReachStep(s: State, t: Tid, a: Action, s': State)
    requires Reached(s) && Enabled(s, t, a) && s' == Apply(s, t, a)
    ensures Reached(s')
  {
    var states, steps :| Execution(states, steps) && states[|steps|] == s;
    var states', steps' := states + [s'], steps + [Step(t, a)];
    forall k | 0 <= k < |steps'|
      ensures Enabled(states'[k], steps'[k].t, steps'[k].a)
      ensures states'[k + 1] == Apply(states'[k], steps'[k].t, steps'[k].a)
    {
      if k < |steps| {
        assert states'[k] == states[k] && steps'[k] == steps[k] && states'[k + 1] == states[k + 1];
      }
    }
    assert Execution(states', steps') && states'[|steps'|] == s';
  }

  // ---------------------------------------------------------------- one thread at work

  const ONLY: Tid := 0

  /** A queue of capacity one on which one thread is at `pc`. */
  function Solo(enq: Word, deq: DequeuingWord, zero: Side, one: Side, log: seq<Value>, pc: Pc): State {
    State(enq, deq, Sides(zero, one), 1, map[ONLY := pc], if deq.Locked? then Some(ONLY) else None, log, [], false)
  }

  function Vacant(): Side {
    Side(EmptyCells(1), 0, [], [], 0)
  }

  /** A buffer with one value, inserted and acknowledged. */
  function Holding(v: Value): Side {
    Side([Some(v)], 1, [v], [None], 0)
  }

  lemma {:induction false} Goes(pc: Pc, pc': Pc)
    ensures map[ONLY := pc][ONLY := pc'] == map[ONLY := pc']
  {
  }

  /** The next step of thread `t` leads from `s` to `s'`. */
  predicate Moves(t: Tid, s: State, a: Action, s': State) {
    Enabled(s, t, a) && s' == Apply(s, t, a)
  }

  predicate StepsTo(s: State, a: Action, s': State) {
    Moves(ONLY, s, a, s')
  }

  lemma {:induction false} Then(s: State, a: Action, s': State)
    requires Reached(s) && StepsTo(s, a, s')
    ensures Reached(s')
  {
    ReachStep(s, ONLY, a, s');
  }

  // ---------------------------------------------------------------- Empty on a closed queue

  function ClosedQueue(enq: Word, deq: DequeuingWord, one: Side, pc: Pc): State {
    Solo(enq, deq, Vacant(), one, [], pc)
  }

  function Doubled(): Side {
    Side(EmptyCells(2), 0, [], [], 0)
  }

  function Doubling(): Next {
    Next(One, true, [], 2, false)
  }

  const SHUT: Word := Word(true, 1, Zero)
  const SWAPPED: Word := Word(true, 2, One)

  function Double(): Resize {
    ResizeTo(Some(2), [])
  }

  lemma {:induction false} ClosesSteps()
    ensures StepsTo(Created(1), Close, ClosedQueue(SHUT, Saved(One, 0), Vacant(), CloseNotifyDequeue))
    ensures StepsTo(ClosedQueue(SHUT, Saved(One, 0), Vacant(), CloseNotifyDequeue), Advance,
                    ClosedQueue(SHUT, Saved(One, 0), Vacant(), CloseNotifyEnqueue))
    ensures StepsTo(ClosedQueue(SHUT, Saved(One, 0), Vacant(), CloseNotifyEnqueue), Advance,
                    ClosedQueue(SHUT, Saved(One, 0), Vacant(), Idle))
  {
    assert Created(1).threads[ONLY := CloseNotifyDequeue] == map[ONLY := CloseNotifyDequeue];
    Goes(CloseNotifyDequeue, CloseNotifyEnqueue);
    Goes(CloseNotifyEnqueue, Idle);
  }

  lemma {:induction false} DoublingIsPrepared()
    ensures Prepare(EmptyCells(1), Double()) == Ready(true, EmptyCells(2), [], false)
  {
    assert Filled([]) + EmptyCells(2)[0..] == EmptyCells(2);
  }

  lemma {:induction false} LocksToDouble()
    ensures StepsTo(ClosedQueue(SHUT, Saved(One, 0), Vacant(), Idle), StartDequeue(Double()),
                    ClosedQueue(SHUT, Saved(One, 0), Vacant(), DeqLock(Double())))
    ensures StepsTo(ClosedQueue(SHUT, Saved(One, 0), Vacant(), DeqLock(Double())), Advance,
                    ClosedQueue(SHUT, Locked, Vacant(), DeqStart(Double(), One, 0, false)))
  {
    Goes(Idle, DeqLock(Double()));
    Goes(DeqLock(Double()), DeqStart(Double(), One, 0, false));
  }

  lemma {:induction false} Doubles()
    ensures StepsTo(ClosedQueue(SHUT, Locked, Vacant(), DeqStart(Double(), One, 0, false)), Advance,
                    ClosedQueue(SHUT, Locked, Doubled(), DeqLoad(Doubling())))
  {
    DoublingIsPrepared();
    assert Reserve(Vacant().(cells := EmptyCells(2)), ONLY, []) == Doubled() by {
      assert [] + Owned(ONLY, 0) == [];
    }
    Goes(DeqStart(Double(), One, 0, false), DeqLoad(Doubling()));
  }

  lemma {:induction false} SwapsDoubled()
    ensures StepsTo(ClosedQueue(SHUT, Locked, Doubled(), DeqLoad(Doubling())), Advance,
                    ClosedQueue(SHUT, Locked, Doubled(), DeqSwap(Doubling(), 1, SHUT)))
    ensures StepsTo(ClosedQueue(SHUT, Locked, Doubled(), DeqSwap(Doubling(), 1, SHUT)), Advance,
                    ClosedQueue(SWAPPED, Locked, Doubled(), DeqCapacity(Doubling(), 1, SHUT)))
  {
    Goes(DeqLoad(Doubling()), DeqSwap(Doubling(), 1, SHUT));
    Goes(DeqSwap(Doubling(), 1, SHUT), DeqCapacity(Doubling(), 1, SHUT));
    var log: seq<Value> := [];
    assert log + [] == log;
  }

  lemma {:induction false} GivesUp()
    ensures StepsTo(ClosedQueue(SWAPPED, Locked, Doubled(), DeqCapacity(Doubling(), 1, SHUT)), Advance,
                    ClosedQueue(SWAPPED, Locked, Doubled(), DeqNotify(Doubling(), 1, SHUT)).(capacity := 2))
    ensures StepsTo(ClosedQueue(SWAPPED, Locked, Doubled(), DeqNotify(Doubling(), 1, SHUT)).(capacity := 2), Advance,
                    ClosedQueue(SWAPPED, Locked, Doubled(), DeqStoreEmpty(Zero)).(capacity := 2))
    ensures StepsTo(ClosedQueue(SWAPPED, Locked, Doubled(), DeqStoreEmpty(Zero)).(capacity := 2), Advance,
            AnsweredEmpty())
  {
    Goes(DeqCapacity(Doubling(), 1, SHUT), DeqNotify(Doubling(), 1, SHUT));
    Goes(DeqNotify(Doubling(), 1, SHUT), DeqStoreEmpty(Zero));
    Goes(DeqStoreEmpty(Zero), DeqReturned(Empty));
  }

  function AnsweredEmpty(): State {
    ClosedQueue(SWAPPED, Saved(Zero, 0), Doubled(), DeqReturned(Empty)).(capacity := 2)
  }

  lemma {:induction false} ClosesAndLocks()
    ensures Reached(ClosedQueue(SHUT, Locked, Vacant(), DeqStart(Double(), One, 0, false)))
  {
    ReachCreated(1);
    ClosesSteps();
    Then(Created(1), Close, ClosedQueue(SHUT, Saved(One, 0), Vacant(), CloseNotifyDequeue));
    Then(ClosedQueue(SHUT, Saved(One, 0), Vacant(), CloseNotifyDequeue), Advance,
         ClosedQueue(SHUT, Saved(One, 0), Vacant(), CloseNotifyEnqueue));
    Then(ClosedQueue(SHUT, Saved(One, 0), Vacant(), CloseNotifyEnqueue), Advance,
         ClosedQueue(SHUT, Saved(One, 0), Vacant(), Idle));
    LocksToDouble();
    Then(ClosedQueue(SHUT, Saved(One, 0), Vacant(), Idle), StartDequeue(Double()),
         ClosedQueue(SHUT, Saved(One, 0), Vacant(), DeqLock(Double())));
    Then(ClosedQueue(SHUT, Saved(One, 0), Vacant(), DeqLock(Double())), Advance,
         ClosedQueue(SHUT, Locked, Vacant(), DeqStart(Double(), One, 0, false)));
  }

  /** An execution of one thread: it closes an empty queue, then dequeues with a request to resize, and is
      told `Empty`. */
  lemma {:induction false} ClosedQueueAnswersEmpty() returns (states: seq<State>, steps: seq<Step>, s: State)
    ensures Execution(states, steps) && states[|steps|] == s
    ensures s.PcOf(ONLY) == DeqReturned(Empty) && s.enq.closed && s.log == []
  {
    ClosesAndLocks();
    Doubles();
    Then(ClosedQueue(SHUT, Locked, Vacant(), DeqStart(Double(), One, 0, false)), Advance,
         ClosedQueue(SHUT, Locked, Doubled(), DeqLoad(Doubling())));
    SwapsDoubled();
    Then(ClosedQueue(SHUT, Locked, Doubled(), DeqLoad(Doubling())), Advance,
         ClosedQueue(SHUT, Locked, Doubled(), DeqSwap(Doubling(), 1, SHUT)));
    Then(ClosedQueue(SHUT, Locked, Doubled(), DeqSwap(Doubling(), 1, SHUT)), Advance,
         ClosedQueue(SWAPPED, Locked, Doubled(), DeqCapacity(Doubling(), 1, SHUT)));
    GivesUp();
    Then(ClosedQueue(SWAPPED, Locked, Doubled(), DeqCapacity(Doubling(), 1, SHUT)), Advance,
         ClosedQueue(SWAPPED, Locked, Doubled(), DeqNotify(Doubling(), 1, SHUT)).(capacity := 2));
    Then(ClosedQueue(SWAPPED, Locked, Doubled(), DeqNotify(Doubling(), 1, SHUT)).(capacity := 2), Advance,
         ClosedQueue(SWAPPED, Locked, Doubled(), DeqStoreEmpty(Zero)).(capacity := 2));
    Then(ClosedQueue(SWAPPED, Locked, Doubled(), DeqStoreEmpty(Zero)).(capacity := 2), Advance, AnsweredEmpty());
    s := AnsweredEmpty();
    states, steps :| Execution(states, steps) && states[|steps|] == s;
  }

  // ---------------------------------------------------------------- values left by a drop

  /** The queue while buffer `i` is enqueued into; the other one is `other`. */
  function Filling(i: Index, enq: Word, side: Side, other: Side, deq: DequeuingWord, log: seq<Value>, pc: Pc): State {
    if i == Zero then Solo(enq, deq, side, other, log, pc) else Solo(enq, deq, other, side, log, pc)
  }

  function Reserved(v: Value): Side {
    Side(EmptyCells(1), 0, [v], [Some(ONLY)], 0)
  }

  function Written(v: Value): Side {
    Side([Some(v)], 0, [v], [Some(ONLY)], 0)
  }

  lemma {:induction false} Reserves(i: Index, other: Side, deq: DequeuingWord, log: seq<Value>, v: Value)
    requires deq.Saved?
    ensures var w, w' := Word(false, 1, i), Word(false, 0, i);
            && StepsTo(Filling(i, w, Vacant(), other, deq, log, EnqLoad([v])), Advance,
                       Filling(i, w, Vacant(), other, deq, log, EnqCas([v], w)))
            && StepsTo(Filling(i, w, Vacant(), other, deq, log, EnqCas([v], w)), Advance,
                       Filling(i, w', Reserved(v), other, deq, log + [v], EnqIndex([v], w)))
  {
    var w := Word(false, 1, i);
    Goes(EnqLoad([v]), EnqCas([v], w));
    Goes(EnqCas([v], w), EnqIndex([v], w));
    assert Reserve(Vacant(), ONLY, [v]) == Reserved(v) by {
      assert [] + [v] == [v] && [] + Owned(ONLY, 1) == [Some(ONLY)];
    }
  }

  lemma {:induction false} Writes(i: Index, other: Side, deq: DequeuingWord, log: seq<Value>, v: Value)
    requires deq.Saved?
    ensures var w, w' := Word(false, 1, i), Word(false, 0, i);
            && StepsTo(Filling(i, w', Reserved(v), other, deq, log, EnqIndex([v], w)), Advance,
                       Filling(i, w', Reserved(v), other, deq, log, EnqInsert([v], w, 0, 0)))
            && StepsTo(Filling(i, w', Reserved(v), other, deq, log, EnqInsert([v], w, 0, 0)), Advance,
                       Filling(i, w', Written(v), other, deq, log, EnqInsert([v], w, 0, 1)))
  {
    var w := Word(false, 1, i);
    Goes(EnqIndex([v], w), EnqInsert([v], w, 0, 0));
    Goes(EnqInsert([v], w, 0, 0), EnqInsert([v], w, 0, 1));
    assert EmptyCells(1)[0 := Some(v)] == [Some(v)];
  }

  lemma {:induction false} AcknowledgesOne(i: Index, other: Side, deq: DequeuingWord, log: seq<Value>, v: Value)
    requires deq.Saved?
    ensures var w, w' := Word(false, 1, i), Word(false, 0, i);
            && StepsTo(Filling(i, w', Written(v), other, deq, log, EnqInsert([v], w, 0, 1)), Advance,
                       Filling(i, w', Holding(v), other, deq, log, EnqNotify))
            && StepsTo(Filling(i, w', Holding(v), other, deq, log, EnqNotify), Advance,
                       Filling(i, w', Holding(v), other, deq, log, EnqReturned(EnqueueOk)))
            && StepsTo(Filling(i, w', Holding(v), other, deq, log, EnqReturned(EnqueueOk)), Advance,
                       Filling(i, w', Holding(v), other, deq, log, Idle))
  {
    var w := Word(false, 1, i);
    Goes(EnqInsert([v], w, 0, 1), EnqNotify);
    Goes(EnqNotify, EnqReturned(EnqueueOk));
    Goes(EnqReturned(EnqueueOk), Idle);
    assert Acknowledge([Some(ONLY)], 0, 1) == [None];
  }

  /** One value is enqueued into an empty buffer of capacity one. */
  lemma {:induction false} Enqueues(i: Index, other: Side, deq: DequeuingWord, log: seq<Value>, v: Value)
    requires deq.Saved? && Reached(Filling(i, Word(false, 1, i), Vacant(), other, deq, log, EnqLoad([v])))
    ensures Reached(Filling(i, Word(false, 0, i), Holding(v), other, deq, log + [v], Idle))
  {
    var w, w' := Word(false, 1, i), Word(false, 0, i);
    var log' := log + [v];
    Reserves(i, other, deq, log, v);
    Then(Filling(i, w, Vacant(), other, deq, log, EnqLoad([v])), Advance,
         Filling(i, w, Vacant(), other, deq, log, EnqCas([v], w)));
    Then(Filling(i, w, Vacant(), other, deq, log, EnqCas([v], w)), Advance,
         Filling(i, w', Reserved(v), other, deq, log', EnqIndex([v], w)));
    Writes(i, other, deq, log', v);
    Then(Filling(i, w', Reserved(v), other, deq, log', EnqIndex([v], w)), Advance,
         Filling(i, w', Reserved(v), other, deq, log', EnqInsert([v], w, 0, 0)));
    Then(Filling(i, w', Reserved(v), other, deq, log', EnqInsert([v], w, 0, 0)), Advance,
         Filling(i, w', Written(v), other, deq, log', EnqInsert([v], w, 0, 1)));
    AcknowledgesOne(i, other, deq, log', v);
    Then(Filling(i, w', Written(v), other, deq, log', EnqInsert([v], w, 0, 1)), Advance,
         Filling(i, w', Holding(v), other, deq, log', EnqNotify));
    Then(Filling(i, w', Holding(v), other, deq, log', EnqNotify), Advance,
         Filling(i, w', Holding(v), other, deq, log', EnqReturned(EnqueueOk)));
    Then(Filling(i, w', Holding(v), other, deq, log', EnqReturned(EnqueueOk)), Advance,
         Filling(i, w', Holding(v), other, deq, log', Idle));
  }

  lemma {:induction false} FirstEnqueued()
    ensures Reached(Solo(Word(false, 0, Zero), Saved(One, 0), Holding(7), Vacant(), [7], Idle))
  {
    ReachCreated(1);
    var s := Filling(Zero, Word(false, 1, Zero), Vacant(), Vacant(), Saved(One, 0), [], EnqLoad([7]));
    assert Created(1).threads[ONLY := EnqLoad([7])] == map[ONLY := EnqLoad([7])];
    assert StepsTo(Created(1), StartEnqueue([7]), s);
    Then(Created(1), StartEnqueue([7]), s);
    Enqueues(Zero, Vacant(), Saved(One, 0), [], 7);
    assert [] + [7] == [7];
  }

  /** The queue while the first value is dequeued. */
  function Taking(enq: Word, deq: DequeuingWord, pc: Pc): State {
    Solo(enq, deq, Holding(7), Vacant(), [7], pc)
  }

  const FULL: Word := Word(false, 0, Zero)
  const FRESH: Word := Word(false, 1, One)

  function Other(): Next {
    Next(One, false, [], 1, false)
  }

  lemma {:induction false} StartsTaking()
    ensures StepsTo(Taking(FULL, Saved(One, 0), Idle), StartDequeue(NoResize),
            Taking(FULL, Saved(One, 0), DeqLock(NoResize)))
    ensures StepsTo(Taking(FULL, Saved(One, 0), DeqLock(NoResize)), Advance,
                    Taking(FULL, Locked, DeqStart(NoResize, One, 0, false)))
    ensures StepsTo(Taking(FULL, Locked, DeqStart(NoResize, One, 0, false)), Advance,
            Taking(FULL, Locked, DeqLoad(Other())))
  {
    Goes(Idle, DeqLock(NoResize));
    Goes(DeqLock(NoResize), DeqStart(NoResize, One, 0, false));
    Goes(DeqStart(NoResize, One, 0, false), DeqLoad(Other()));
    assert Reserve(Vacant(), ONLY, []) == Vacant() by {
      assert [] + Owned(ONLY, 0) == [];
    }
  }

  lemma {:induction false} SwapsTaking()
    ensures StepsTo(Taking(FULL, Locked, DeqLoad(Other())), Advance, Taking(FULL, Locked, DeqSwap(Other(), 1, FULL)))
    ensures StepsTo(Taking(FULL, Locked, DeqSwap(Other(), 1, FULL)), Advance,
            Taking(FRESH, Locked, DeqCapacity(Other(), 1, FULL)))
  {
    Goes(DeqLoad(Other()), DeqSwap(Other(), 1, FULL));
    Goes(DeqSwap(Other(), 1, FULL), DeqCapacity(Other(), 1, FULL));
    assert [7] + [] == [7];
  }

  lemma {:induction false} SpinsTaking()
    ensures StepsTo(Taking(FRESH, Locked, DeqCapacity(Other(), 1, FULL)), Advance,
                    Taking(FRESH, Locked, DeqNotify(Other(), 1, FULL)))
    ensures StepsTo(Taking(FRESH, Locked, DeqNotify(Other(), 1, FULL)), Advance,
                    Taking(FRESH, Locked, DeqSpin(Zero, 1, SPIN_LIMIT)))
  {
    Goes(DeqCapacity(Other(), 1, FULL), DeqNotify(Other(), 1, FULL));
    Goes(DeqNotify(Other(), 1, FULL), DeqSpin(Zero, 1, SPIN_LIMIT));
  }

  lemma {:induction false} HandsOutTaken()
    ensures StepsTo(Taking(FRESH, Locked, DeqSpin(Zero, 1, SPIN_LIMIT)), Advance,
                    Taking(FRESH, Locked, Slice(Zero, 0, 1)))
  {
    Goes(DeqSpin(Zero, 1, SPIN_LIMIT), Slice(Zero, 0, 1));
  }

  lemma {:induction false} PutsBackTaken()
    ensures StepsTo(Taking(FRESH, Locked, Slice(Zero, 0, 1)), Requeue, Taking(FRESH, Saved(Zero, 1), Idle))
  {
    Goes(Slice(Zero, 0, 1), Idle);
  }

  lemma {:induction false} Requeued()
    ensures Reached(Taking(FRESH, Saved(Zero, 1), Idle))
  {
    FirstEnqueued();
    StartsTaking();
    Then(Taking(FULL, Saved(One, 0), Idle), StartDequeue(NoResize), Taking(FULL, Saved(One, 0), DeqLock(NoResize)));
    Then(Taking(FULL, Saved(One, 0), DeqLock(NoResize)), Advance,
        Taking(FULL, Locked, DeqStart(NoResize, One, 0, false)));
    Then(Taking(FULL, Locked, DeqStart(NoResize, One, 0, false)), Advance, Taking(FULL, Locked, DeqLoad(Other())));
    SwapsTaking();
    SpinsTaking();
    Then(Taking(FULL, Locked, DeqLoad(Other())), Advance, Taking(FULL, Locked, DeqSwap(Other(), 1, FULL)));
    Then(Taking(FULL, Locked, DeqSwap(Other(), 1, FULL)), Advance,
        Taking(FRESH, Locked, DeqCapacity(Other(), 1, FULL)));
    Then(Taking(FRESH, Locked, DeqCapacity(Other(), 1, FULL)), Advance,
        Taking(FRESH, Locked, DeqNotify(Other(), 1, FULL)));
    Then(Taking(FRESH, Locked, DeqNotify(Other(), 1, FULL)), Advance,
        Taking(FRESH, Locked, DeqSpin(Zero, 1, SPIN_LIMIT)));
    HandsOutTaken();
    PutsBackTaken();
    Then(Taking(FRESH, Locked, DeqSpin(Zero, 1, SPIN_LIMIT)), Advance, Taking(FRESH, Locked, Slice(Zero, 0, 1)));
    Then(Taking(FRESH, Locked, Slice(Zero, 0, 1)), Requeue, Taking(FRESH, Saved(Zero, 1), Idle));
  }

  /** The queue with a value in each buffer, while it is dropped. */
  function Dropping(deq: DequeuingWord, zero: Side, pc: Pc): State {
    Solo(Word(false, 0, One), deq, zero, Holding(8), [7, 8], pc)
  }

  lemma {:induction false} BothHold()
    ensures Reached(Dropping(Saved(Zero, 1), Holding(7), Idle))
  {
    Requeued();
    var s := Filling(One, FRESH, Vacant(), Holding(7), Saved(Zero, 1), [7], EnqLoad([8]));
    Goes(Idle, EnqLoad([8]));
    assert StepsTo(Taking(FRESH, Saved(Zero, 1), Idle), StartEnqueue([8]), s);
    Then(Taking(FRESH, Saved(Zero, 1), Idle), StartEnqueue([8]), s);
    Enqueues(One, Holding(7), Saved(Zero, 1), [7], 8);
    assert [7] + [8] == [7, 8];
  }

  lemma {:induction false} DropTakes()
    ensures StepsTo(Dropping(Saved(Zero, 1), Holding(7), Idle), StartDequeue(NoResize),
                    Dropping(Saved(Zero, 1), Holding(7), DeqLock(NoResize)))
    ensures StepsTo(Dropping(Saved(Zero, 1), Holding(7), DeqLock(NoResize)), Advance,
                    Dropping(Locked, Holding(7), DeqStart(NoResize, Zero, 1, false)))
    ensures StepsTo(Dropping(Locked, Holding(7), DeqStart(NoResize, Zero, 1, false)), Advance,
                    Dropping(Locked, Holding(7), DeqSpin(Zero, 1, SPIN_LIMIT)))
    ensures StepsTo(Dropping(Locked, Holding(7), DeqSpin(Zero, 1, SPIN_LIMIT)), Advance,
                    Dropping(Locked, Holding(7), Slice(Zero, 0, 1)))
  {
    Goes(Idle, DeqLock(NoResize));
    Goes(DeqLock(NoResize), DeqStart(NoResize, Zero, 1, false));
    Goes(DeqStart(NoResize, Zero, 1, false), DeqSpin(Zero, 1, SPIN_LIMIT));
    Goes(DeqSpin(Zero, 1, SPIN_LIMIT), Slice(Zero, 0, 1));
  }

  function Drained(): Side {
    Side(EmptyCells(1), 1, [7], [None], 1)
  }

  lemma {:induction false} HoldingCleared(cells: seq<Option<Value>>)
    requires cells == [Some(7)]
    ensures Cleared(Holding(7), 0, 1) == Drained()
    ensures cells[0..1] == cells && [] + Contents(cells) == [7] && AllFull(cells)
  {
    assert cells[..0] + EmptyCells(1) + cells[1..] == EmptyCells(1);
  }

  lemma {:induction false} DropReads()
    ensures ReleaseStep(Dropping(Locked, Holding(7), Slice(Zero, 0, 1)), ONLY, Zero, 0, 1)
              == Dropping(Locked, Drained(), RelLength(Zero)).(consumed := [7])
  {
    HoldingCleared([Some(7)]);
    Goes(Slice(Zero, 0, 1), RelLength(Zero));
  }

  lemma {:induction false} DropClears()
    ensures StepsTo(Dropping(Locked, Holding(7), Slice(Zero, 0, 1)), Release,
                    Dropping(Locked, Drained(), RelLength(Zero)).(consumed := [7]))
  {
    DropReads();
  }

  lemma {:induction false} DropReleases()
    ensures StepsTo(Dropping(Locked, Drained(), RelLength(Zero)).(consumed := [7]), Advance,
                    Dropping(Locked, Vacant(), RelStore(Zero)).(consumed := [7]))
    ensures StepsTo(Dropping(Locked, Vacant(), RelStore(Zero)).(consumed := [7]), Advance,
                    Dropping(Saved(Zero, 0), Vacant(), Idle).(consumed := [7]))
  {
    Goes(RelLength(Zero), RelStore(Zero));
    Goes(RelStore(Zero), Idle);
  }

  /** The drop, state by state and step by step. */
  function DropState(k: nat): State {
    match k
    case 0 => Dropping(Saved(Zero, 1), Holding(7), Idle)
    case 1 => Dropping(Saved(Zero, 1), Holding(7), DeqLock(NoResize))
    case 2 => Dropping(Locked, Holding(7), DeqStart(NoResize, Zero, 1, false))
    case 3 => Dropping(Locked, Holding(7), DeqSpin(Zero, 1, SPIN_LIMIT))
    case 4 => Dropping(Locked, Holding(7), Slice(Zero, 0, 1))
    case 5 => Dropping(Locked, Drained(), RelLength(Zero)).(consumed := [7])
    case 6 => Dropping(Locked, Vacant(), RelStore(Zero)).(consumed := [7])
    case _ => Dropping(Saved(Zero, 0), Vacant(), Idle).(consumed := [7])
  }

  function DropAction(k: nat): Action {
    match k
    case 0 => StartDequeue(NoResize)
    case 4 => Release
    case _ => Advance
  }

  lemma {:induction false} DropStepAt(k: nat)
    requires k < 7
    ensures StepsTo(DropState(k), DropAction(k), DropState(k + 1))
    ensures k > 0 ==> DropState(k).PcOf(ONLY) != Idle
  {
    if k < 4 {
      DropTakes();
    } else if k == 4 {
      DropClears();
    } else {
      DropReleases();
    }
  }

  function DropStates(): seq<State> {
    seq(8, k requires k >= 0 => DropState(k))
  }

  function DropSteps(): seq<Step> {
    seq(7, k requires k >= 0 => Step(ONLY, DropAction(k)))
  }

  lemma {:induction false} SegmentOfSteps(states: seq<State>, steps: seq<Step>, t: Tid)
    requires |states| == |steps| + 1
    requires forall k :: 0 <= k < |steps| ==> steps[k].t == t && Moves(t, states[k], steps[k].a, states[k + 1])
    ensures Segment(states, steps)
  {
    forall k | 0 <= k < |steps|
      ensures Enabled(states[k], steps[k].t, steps[k].a)
      ensures states[k + 1] == Apply(states[k], steps[k].t, steps[k].a)
    {
      assert steps[k].t == t && Moves(t, states[k], steps[k].a, states[k + 1]);
    }
  }

  lemma {:induction false} DropStepIn(states: seq<State>, steps: seq<Step>, k: nat)
    requires states == DropStates() && steps == DropSteps() && k < 7
    ensures steps[k].t == ONLY && StepsTo(states[k], steps[k].a, states[k + 1])
    ensures k > 0 ==> states[k].PcOf(ONLY) != Idle && (steps[k].a.Advance? || steps[k].a.Release?)
  {
    DropStepAt(k);
    assert states[k] == DropState(k) && states[k + 1] == DropState(k + 1) && steps[k].a == DropAction(k);
  }

  lemma {:induction false} RunOfSteps(states: seq<State>, steps: seq<Step>, t: Tid)
    requires |states| == |steps| + 1 && |steps| > 0
    requires forall k :: 0 <= k < |steps| ==> steps[k].t == t && Moves(t, states[k], steps[k].a, states[k + 1])
    requires Alone(states[0], t) && states[0].PcOf(t) == Idle && steps[0].a == StartDequeue(NoResize)
    requires forall k :: 0 < k < |steps| ==>
               states[k].PcOf(t) != Idle && (steps[k].a.Advance? || steps[k].a.Release?)
    requires states[|steps|].PcOf(t) == Idle
    ensures DropRun(states, steps, t)
  {
    SegmentOfSteps(states, steps, t);
  }

  lemma {:induction false} DropIsRun(states: seq<State>, steps: seq<Step>)
    requires states == DropStates() && steps == DropSteps()
    ensures DropRun(states, steps, ONLY)
  {
    forall k | 0 <= k < |steps|
      ensures steps[k].t == ONLY && StepsTo(states[k], steps[k].a, states[k + 1])
      ensures k > 0 ==> states[k].PcOf(ONLY) != Idle && (steps[k].a.Advance? || steps[k].a.Release?)
    {
      DropStepIn(states, steps, k);
    }
    RunOfSteps(states, steps, ONLY);
  }

  /** A queue is reached, by enqueuing 7, dequeuing it, putting it back and enqueuing 8, that has a value in
      each buffer; in the state that its drop ends in, 8 is still in its buffer. */
  lemma {:induction false} DropLeavesValues()
    ensures Reached(DropState(0)) && DropState(0).At(Zero).cells == [Some(7)] && DropState(0).At(One).cells == [Some(8)]
    ensures DropState(7).At(Zero).cells == [None] && DropState(7).At(One).cells == [Some(8)]
    ensures DropState(7).consumed == [7]
  {
    BothHold();
  }

  /** ... and it does end there. */
  lemma {:induction false} DropLeadsThere() returns (states: seq<State>, steps: seq<Step>)
    ensures DropRun(states, steps, ONLY) && states[0] == DropState(0) && states[|steps|] == DropState(7)
  {
    states, steps := DropStates(), DropSteps();
    DropIsRun(states, steps);
  }
}

/** A run that loses a wake-up: the consumer parks on an empty queue, another thread pre-inserts a value
    and puts it back, and everybody is done while the consumer sleeps on. */
module SynchronizedWitness {
  import opened Options
  import opened Protocol
  import opened ProtocolInvariant
  import opened ProtocolOutcomes
  import opened Synchronized
  import opened SynchronizedInvariant
  import opened SynchronizedTheorems
  import A = AtomicWaker
  import L = WakerList

  ghost predicate Reachable(s: Sys) {
    exists states, turns :: Run(states, turns) && states[|turns|] == s
  }

  lemma {:induction false} ReachFresh(s: Sys)
    requires Fresh(s)
    ensures Reachable(s)
  {
    assert Run([s], []);
  }

  lemma {:induction false} ReachMove(s: Sys, t: Tid, m: Move)
    requires Reachable(s) && MoveEnabled(s, t, m)
    ensures Reachable(MoveStep(s, t, m))
  {
    var states, turns :| Run(states, turns) && states[|turns|] == s;
    RunExtends(states, turns, Turn(t, m), MoveStep(s, t, m));
  }

  lemma {:induction false} RunExtends(states: seq<Sys>, turns: seq<Turn>, turn: Turn, s': Sys)
    requires Run(states, turns) && MoveEnabled(states[|turns|], turn.t, turn.m)
    requires s' == MoveStep(states[|turns|], turn.t, turn.m)
    ensures Run(states + [s'], turns + [turn]) && (states + [s'])[|turns + [turn]|] == s'
  {
    var states', turns' := states + [s'], turns + [turn];
    forall k | 0 <= k < |turns'|
      ensures MoveEnabled(states'[k], turns'[k].t, turns'[k].m)
      ensures states'[k + 1] == MoveStep(states'[k], turns'[k].t, turns'[k].m)
    {
      if k < |turns| {
        assert states'[k] == states[k] && turns'[k] == turns[k] && states'[k + 1] == states[k + 1];
      }
    }
  }

  // ---------------------------------------------------------------- the consumer parks

  const SLEEPER: Tid := 0
  const OTHER: Tid := 1

  /** An empty queue of capacity one in which both threads are idle. */
  function Quiescent(threads: map<Tid, Pc>): State {
    Created(1).(threads := threads)
  }

  /** The consumer in a blocking dequeue on that queue. */
  function Waiting(threads: map<Tid, Pc>, waker: A.State, sp: SyncPc): Sys {
    Sys(Quiescent(threads), waker, L.Created, map[SLEEPER := sp], {}, SLEEPER, false)
  }

  /** What the next buffer looks like when nothing is inserted into it. */
  lemma {:induction false} NothingPrepared(q: State, t: Tid, i: Index, retried: bool)
    requires q.PcOf(t) == DeqStart(NoResize, i, 0, retried)
    ensures DeqStartStep(q, t, NoResize, i, 0, retried)
              == q.Go(t, DeqLoad(Next(i, false, [], |q.At(i).cells|, retried)))
  {
    var side := q.At(i);
    assert side.vals + [] == side.vals && side.own + Owned(t, 0) == side.own;
    assert Reserve(side.(cells := side.cells), t, []) == side;
    assert q.sides.Set(i, side) == q.sides;
  }

  lemma {:induction false} ReachQueue(s: Sys, t: Tid, a: Action, q': State)
    requires Reachable(s) && QueueEnabled(s, t, a) && q' == Apply(s.q, t, a) && !PreInsertsUnannounced(s, t, a)
    requires s.unannounced ==> !Quiet(q')
    ensures Reachable(s.(q := q'))
  {
    ReachMove(s, t, QueueMove(a));
  }

  /** The queue while the consumer holds the dequeuing lock. */
  function Held(threads: map<Tid, Pc>, t: Tid, pc: Pc): State {
    Quiescent(threads[t := pc]).(deq := Locked, holder := Some(t))
  }

  /** A dequeue of the empty queue, step by step. */
  lemma {:induction false} EmptyDequeueLocks(threads: map<Tid, Pc>, t: Tid)
    ensures Apply(Quiescent(threads[t := DeqLock(NoResize)]), t, Advance)
              == Held(threads, t, DeqStart(NoResize, One, 0, false))
  {
  }

  lemma {:induction false} EmptyDequeuePrepares(threads: map<Tid, Pc>, t: Tid)
    ensures Apply(Held(threads, t, DeqStart(NoResize, One, 0, false)), t, Advance)
              == Held(threads, t, DeqLoad(Next(One, false, [], 1, false)))
  {
    NothingPrepared(Held(threads, t, DeqStart(NoResize, One, 0, false)), t, One, false);
  }

  lemma {:induction false} EmptyDequeueLoads(threads: map<Tid, Pc>, t: Tid)
    ensures Apply(Held(threads, t, DeqLoad(Next(One, false, [], 1, false))), t, Advance)
              == Held(threads, t, DeqStoreBack(One, Empty))
  {
  }

  lemma {:induction false} EmptyDequeueUnlocks(threads: map<Tid, Pc>, t: Tid)
    ensures Apply(Held(threads, t, DeqStoreBack(One, Empty)), t, Advance) == Quiescent(threads[t := DeqReturned(Empty)])
  {
  }

  lemma {:induction false} HeldMoves(threads: map<Tid, Pc>, waker: A.State, sp: SyncPc, pc: Pc, pc': Pc)
    requires Reachable(Waiting(threads, waker, sp).(q := Held(threads, SLEEPER, pc))) && (pc.DeqStart? || pc.DeqLoad?)
    requires Apply(Held(threads, SLEEPER, pc), SLEEPER, Advance) == Held(threads, SLEEPER, pc')
    ensures Reachable(Waiting(threads, waker, sp).(q := Held(threads, SLEEPER, pc')))
  {
    ReachQueue(Waiting(threads, waker, sp).(q := Held(threads, SLEEPER, pc)), SLEEPER, Advance,
        Held(threads, SLEEPER, pc'));
  }

  /** ... as part of a blocking call. */
  lemma {:induction false} EmptyDequeue(threads: map<Tid, Pc>, waker: A.State, sp: SyncPc)
    requires Reachable(Waiting(threads[SLEEPER := DeqLock(NoResize)], waker, sp)) && !sp.Free?
    ensures Reachable(Waiting(threads[SLEEPER := DeqReturned(Empty)], waker, sp))
  {
    var start, load, store :=
      DeqStart(NoResize, One, 0, false), DeqLoad(Next(One, false, [], 1, false)), DeqStoreBack(One, Empty);
    EmptyDequeueLocks(threads, SLEEPER);
    ReachQueue(Waiting(threads[SLEEPER := DeqLock(NoResize)], waker, sp), SLEEPER, Advance,
        Held(threads, SLEEPER, start));
    EmptyDequeuePrepares(threads, SLEEPER);
    HeldMoves(threads, waker, sp, start, load);
    EmptyDequeueLoads(threads, SLEEPER);
    HeldMoves(threads, waker, sp, load, store);
    EmptyDequeueUnlocks(threads, SLEEPER);
    ReachQueue(Waiting(threads, waker, sp).(q := Held(threads, SLEEPER, store)), SLEEPER, Advance,
               Quiescent(threads[SLEEPER := DeqReturned(Empty)]));
  }

  /** Where a blocking dequeue goes after a call that found the queue empty. */
  function Called(sp: SyncPc): SyncPc {
    match sp
    case DSpin(n) => DSpinCall(n)
    case _ => DRetryCall
  }

  function Further(sp: SyncPc): SyncPc {
    match sp
    case DSpin(n) => if n > 1 then DSpin(n - 1) else DRegister
    case _ => DPark
  }

  lemma {:induction false} AttemptCalls(threads: map<Tid, Pc>, waker: A.State, sp: SyncPc)
    requires Reachable(Waiting(threads, waker, sp)) && (sp.DSpin? || sp.DRetry?)
    requires SLEEPER in threads ==> threads[SLEEPER] == Idle
    ensures Reachable(Waiting(threads[SLEEPER := DeqLock(NoResize)], waker, Called(sp)))
  {
    var s := Waiting(threads, waker, sp);
    assert map[SLEEPER := sp][SLEEPER := Called(sp)] == map[SLEEPER := Called(sp)];
    ReachMove(s, SLEEPER, CallMove);
  }

  lemma {:induction false} ReturnsFromCall(threads: map<Tid, Pc>, waker: A.State, sp: SyncPc)
    requires sp.DSpin? || sp.DRetry?
    ensures var s := Waiting(threads[SLEEPER := DeqReturned(Empty)], waker, Called(sp));
            && MoveEnabled(s, SLEEPER, ResumeMove)
            && MoveStep(s, SLEEPER, ResumeMove) == Waiting(threads[SLEEPER := Idle], waker, Further(sp))
  {
    assert map[SLEEPER := Called(sp)][SLEEPER := Further(sp)] == map[SLEEPER := Further(sp)];
    assert threads[SLEEPER := DeqReturned(Empty)][SLEEPER := Idle] == threads[SLEEPER := Idle];
  }

  /** One attempt of the blocking dequeue, which finds the queue empty. */
  lemma {:induction false} EmptyAttempt(threads: map<Tid, Pc>, waker: A.State, sp: SyncPc)
    requires Reachable(Waiting(threads, waker, sp)) && (sp.DSpin? || sp.DRetry?)
    requires SLEEPER in threads ==> threads[SLEEPER] == Idle
    ensures Reachable(Waiting(threads[SLEEPER := Idle], waker, Further(sp)))
  {
    AttemptCalls(threads, waker, sp);
    EmptyDequeue(threads, waker, Called(sp));
    ReturnsFromCall(threads, waker, sp);
    ReachMove(Waiting(threads[SLEEPER := DeqReturned(Empty)], waker, Called(sp)), SLEEPER, ResumeMove);
  }

  /** All attempts before registering. */
  lemma {:induction false} SpinsInVain(threads: map<Tid, Pc>, n: nat)
    requires 0 < n && Reachable(Waiting(threads, A.Created, DSpin(n)))
    requires threads == map[] || threads == map[SLEEPER := Idle]
    ensures Reachable(Waiting(map[SLEEPER := Idle], A.Created, DRegister))
    decreases n
  {
    EmptyAttempt(threads, A.Created, DSpin(n));
    assert threads[SLEEPER := Idle] == map[SLEEPER := Idle];
    if n > 1 {
      SpinsInVain(map[SLEEPER := Idle], n - 1);
    }
  }

  /** The waker cell while and after the consumer registers. */
  function Registering(bits: A.Bits, cell: Option<Tid>, pc: A.Pc, owner: Option<Tid>): A.State {
    A.State(bits, cell, map[SLEEPER := pc], owner, false)
  }

  function RegisteredCell(): A.State {
    Registering(A.WAITING, Some(SLEEPER), A.Idle, None)
  }

  lemma {:induction false} ReachWaker(threads: map<Tid, Pc>, waker: A.State, waker': A.State)
    requires Reachable(Waiting(threads, waker, DRegister)) && A.Enabled(waker, SLEEPER, A.Advance)
    requires waker' == A.Apply(waker, SLEEPER, A.Advance) && A.Unparks(SLEEPER, waker.PcOf(SLEEPER)) == None
    ensures Reachable(Waiting(threads, waker', DRegister))
  {
    var s := Waiting(threads, waker, DRegister);
    assert MoveStep(s, SLEEPER, WakerMove) == Waiting(threads, waker', DRegister);
    ReachMove(s, SLEEPER, WakerMove);
  }

  lemma {:induction false} RegistrationSteps(bits: A.Bits)
    requires bits == A.Bits(true, false)
    ensures A.Apply(A.Created, SLEEPER, A.StartRegister) == Registering(A.WAITING, None, A.RegStart, None)
    ensures A.Apply(Registering(A.WAITING, None, A.RegStart, None), SLEEPER, A.Advance)
              == Registering(bits, None, A.RegWrite, Some(SLEEPER))
    ensures A.Apply(Registering(bits, None, A.RegWrite, Some(SLEEPER)), SLEEPER, A.Advance)
              == Registering(bits, Some(SLEEPER), A.RegCas, Some(SLEEPER))
    ensures A.Apply(Registering(bits, Some(SLEEPER), A.RegCas, Some(SLEEPER)), SLEEPER, A.Advance)
              == Registering(A.WAITING, Some(SLEEPER), A.Done, None)
    ensures A.Apply(Registering(A.WAITING, Some(SLEEPER), A.Done, None), SLEEPER, A.Finish) == RegisteredCell()
  {
    assert forall pc: A.Pc, pc': A.Pc {:trigger map[SLEEPER := pc][SLEEPER := pc']} ::
        map[SLEEPER := pc][SLEEPER := pc'] == map[SLEEPER := pc'];
  }

  lemma {:induction false} StartsToRegister(threads: map<Tid, Pc>)
    requires Reachable(Waiting(threads, A.Created, DRegister))
    ensures Reachable(Waiting(threads, Registering(A.WAITING, None, A.RegStart, None), DRegister))
  {
    RegistrationSteps(A.Bits(true, false));
    ReachMove(Waiting(threads, A.Created, DRegister), SLEEPER, RegisterMove);
  }

  lemma {:induction false} HasRegistered(threads: map<Tid, Pc>)
    requires Reachable(Waiting(threads, Registering(A.WAITING, Some(SLEEPER), A.Done, None), DRegister))
    ensures Reachable(Waiting(threads, RegisteredCell(), DRetry))
  {
    RegistrationSteps(A.Bits(true, false));
    assert map[SLEEPER := DRegister][SLEEPER := DRetry] == map[SLEEPER := DRetry];
    ReachMove(Waiting(threads, Registering(A.WAITING, Some(SLEEPER), A.Done, None), DRegister), SLEEPER, ResumeMove);
  }

  lemma {:induction false} Registers(threads: map<Tid, Pc>)
    requires Reachable(Waiting(threads, A.Created, DRegister))
    ensures Reachable(Waiting(threads, RegisteredCell(), DRetry))
  {
    var bits := A.Bits(true, false);
    StartsToRegister(threads);
    RegistrationSteps(bits);
    ReachWaker(threads, Registering(A.WAITING, None, A.RegStart, None),
        Registering(bits, None, A.RegWrite, Some(SLEEPER)));
    ReachWaker(threads, Registering(bits, None, A.RegWrite, Some(SLEEPER)),
               Registering(bits, Some(SLEEPER), A.RegCas, Some(SLEEPER)));
    ReachWaker(threads, Registering(bits, Some(SLEEPER), A.RegCas, Some(SLEEPER)),
               Registering(A.WAITING, Some(SLEEPER), A.Done, None));
    HasRegistered(threads);
  }

  /** The consumer parks: it has looked sixty-four times, registered, and looked once more. */
  lemma {:induction false} ConsumerParks()
    ensures Reachable(Waiting(map[SLEEPER := Idle], RegisteredCell(), DPark))
  {
    var s0 := Sys(Quiescent(map[]), A.Created, L.Created, map[], {}, SLEEPER, false);
    ReachFresh(s0);
    assert MoveStep(s0, SLEEPER, BeginDequeue) == Waiting(map[], A.Created, DSpin(SPIN_LIMIT));
    ReachMove(s0, SLEEPER, BeginDequeue);
    SpinsInVain(map[], SPIN_LIMIT);
    Registers(map[SLEEPER := Idle]);
    EmptyAttempt(map[SLEEPER := Idle], RegisteredCell(), DRetry);
    assert map[SLEEPER := Idle][SLEEPER := Idle] == map[SLEEPER := Idle];
  }

  // ---------------------------------------------------------------- another thread pre-inserts

  /** The queue while the other thread works on it, its next buffer being `side`. */
  function Working(enq: Word, side: Side, log: seq<Value>, pc: Pc): State {
    State(enq, Locked, Sides(EmptySide(), side), 1, map[SLEEPER := Idle, OTHER := pc], Some(OTHER), log, [], false)
  }

  function EmptySide(): Side {
    Side(EmptyCells(1), 0, [], [], 0)
  }

  /** The buffer with the value 42, inserted and then acknowledged. */
  function FilledSide(acknowledged: bool): Side {
    if acknowledged then Side([Some(42)], 1, [42], [None], 0) else Side([Some(42)], 0, [42], [Some(OTHER)], 0)
  }

  function Request(): Resize {
    ResizeTo(None, [[42]])
  }

  const BEFORE: Word := Word(false, 1, Zero)
  const BETWEEN: Word := Word(false, 0, One)

  function First(): Next {
    Next(One, false, [42], 1, false)
  }

  function Second(): Next {
    Next(Zero, false, [], 1, true)
  }

  lemma {:induction false} RequestIsPrepared()
    ensures Prepare(EmptyCells(1), Request()) == Ready(false, [Some(42)], [42], false)
  {
    var insert: seq<seq<Value>> := [[42]];
    assert insert[1..] == [];
    assert PreInsert(1, 1, insert[1..]) == Fits([]);
    assert insert[0] + [] == [42];
    assert PreInsert(1, 0, insert) == Fits([42]);
    assert Filled([42]) + EmptyCells(1)[1..] == [Some(42)];
  }

  lemma {:induction false} PreInserts()
    ensures Apply(Working(BEFORE, EmptySide(), [], DeqStart(Request(), One, 0, false)), OTHER, Advance)
              == Working(BEFORE, FilledSide(false), [], DeqAdd(First()))
  {
    RequestIsPrepared();
    assert Reserve(EmptySide().(cells := [Some(42)]), OTHER, [42]) == FilledSide(false) by {
      assert [] + [42] == [42] && [] + Owned(OTHER, 1) == [Some(OTHER)];
    }
    OtherGoes(DeqStart(Request(), One, 0, false), DeqAdd(First()));
  }

  lemma {:induction false} OtherGoes(pc: Pc, pc': Pc)
    ensures map[SLEEPER := Idle, OTHER := pc][OTHER := pc'] == map[SLEEPER := Idle, OTHER := pc']
  {
  }

  lemma {:induction false} Acknowledges()
    ensures Apply(Working(BEFORE, FilledSide(false), [], DeqAdd(First())), OTHER, Advance)
              == Working(BEFORE, FilledSide(true), [], DeqLoad(First()))
  {
    assert Acknowledge([Some(OTHER)], 0, 1) == [None];
    OtherGoes(DeqAdd(First()), DeqLoad(First()));
  }

  lemma {:induction false} LoadsFirst()
    ensures Apply(Working(BEFORE, FilledSide(true), [], DeqLoad(First())), OTHER, Advance)
              == Working(BEFORE, FilledSide(true), [], DeqSwap(First(), 1, BEFORE))
  {
    OtherGoes(DeqLoad(First()), DeqSwap(First(), 1, BEFORE));
  }

  lemma {:induction false} SwapsFirst()
    ensures Apply(Working(BEFORE, FilledSide(true), [], DeqSwap(First(), 1, BEFORE)), OTHER, Advance)
              == Working(BETWEEN, FilledSide(true), [42], DeqCapacity(First(), 1, BEFORE))
    ensures Apply(Working(BETWEEN, FilledSide(true), [42], DeqCapacity(First(), 1, BEFORE)), OTHER, Advance)
              == Working(BETWEEN, FilledSide(true), [42], DeqNotify(First(), 1, BEFORE))
    ensures Apply(Working(BETWEEN, FilledSide(true), [42], DeqNotify(First(), 1, BEFORE)), OTHER, Advance)
              == Working(BETWEEN, FilledSide(true), [42], DeqStart(NoResize, Zero, 0, true))
  {
    assert [] + [42] == [42];
    OtherGoes(DeqSwap(First(), 1, BEFORE), DeqCapacity(First(), 1, BEFORE));
    OtherGoes(DeqCapacity(First(), 1, BEFORE), DeqNotify(First(), 1, BEFORE));
    OtherGoes(DeqNotify(First(), 1, BEFORE), DeqStart(NoResize, Zero, 0, true));
  }

  lemma {:induction false} Retries()
    ensures Apply(Working(BETWEEN, FilledSide(true), [42], DeqStart(NoResize, Zero, 0, true)), OTHER, Advance)
              == Working(BETWEEN, FilledSide(true), [42], DeqLoad(Second()))
    ensures Apply(Working(BETWEEN, FilledSide(true), [42], DeqLoad(Second())), OTHER, Advance)
              == Working(BETWEEN, FilledSide(true), [42], DeqSwap(Second(), 1, BETWEEN))
  {
    NothingPrepared(Working(BETWEEN, FilledSide(true), [42], DeqStart(NoResize, Zero, 0, true)), OTHER, Zero, true);
    OtherGoes(DeqStart(NoResize, Zero, 0, true), DeqLoad(Second()));
    OtherGoes(DeqLoad(Second()), DeqSwap(Second(), 1, BETWEEN));
  }

  lemma {:induction false} SwapsSecond()
    ensures Apply(Working(BETWEEN, FilledSide(true), [42], DeqSwap(Second(), 1, BETWEEN)), OTHER, Advance)
              == Working(BEFORE, FilledSide(true), [42], DeqCapacity(Second(), 1, BETWEEN))
    ensures Apply(Working(BEFORE, FilledSide(true), [42], DeqCapacity(Second(), 1, BETWEEN)), OTHER, Advance)
              == Working(BEFORE, FilledSide(true), [42], DeqNotify(Second(), 1, BETWEEN))
    ensures Apply(Working(BEFORE, FilledSide(true), [42], DeqNotify(Second(), 1, BETWEEN)), OTHER, Advance)
              == Working(BEFORE, FilledSide(true), [42], DeqSpin(One, 1, SPIN_LIMIT))
  {
    assert [42] + [] == [42];
    OtherGoes(DeqSwap(Second(), 1, BETWEEN), DeqCapacity(Second(), 1, BETWEEN));
    OtherGoes(DeqCapacity(Second(), 1, BETWEEN), DeqNotify(Second(), 1, BETWEEN));
    OtherGoes(DeqNotify(Second(), 1, BETWEEN), DeqSpin(One, 1, SPIN_LIMIT));
  }

  /** What is left in the end: the value is back in the queue, and nobody works on it. */
  function PutBack(): State {
    Working(BEFORE, FilledSide(true), [42], Idle).(deq := Saved(One, 1), holder := None)
  }

  lemma {:induction false} PutsBack()
    ensures Apply(Working(BEFORE, FilledSide(true), [42], DeqSpin(One, 1, SPIN_LIMIT)), OTHER, Advance)
              == Working(BEFORE, FilledSide(true), [42], Slice(One, 0, 1))
    ensures Apply(Working(BEFORE, FilledSide(true), [42], Slice(One, 0, 1)), OTHER, Requeue) == PutBack()
  {
    OtherGoes(DeqSpin(One, 1, SPIN_LIMIT), Slice(One, 0, 1));
    OtherGoes(Slice(One, 0, 1), Idle);
  }

  // ---------------------------------------------------------------- all together

  /** The consumer is parked, the queue is `q`. */
  function Asleep(q: State, list: L.State, flag: bool): Sys {
    Sys(q, RegisteredCell(), list, map[SLEEPER := DPark], {}, SLEEPER, flag)
  }

  /** A step of the other thread in the queue. */
  lemma {:induction false} AsleepMoves(q: State, q': State, list: L.State, flag: bool, a: Action)
    requires Reachable(Asleep(q, list, flag)) && Enabled(q, OTHER, a) && q' == Apply(q, OTHER, a)
    requires !NotifiesDequeue(q.PcOf(OTHER)) && !NotifiesEnqueue(q.PcOf(OTHER)) && !q'.PcOf(OTHER).DeqAdd?
    requires flag ==> !Quiet(q')
    ensures Reachable(Asleep(q', list, flag))
  {
    ReachQueue(Asleep(q, list, flag), OTHER, a, q');
  }

  /** The waker list while the other thread looks at it. */
  function Looking(pc: L.Pc): L.State {
    L.Created.(threads := map[OTHER := pc])
  }

  lemma {:induction false} Looks(list: L.State)
    requires list == L.Created || list == Looking(L.Idle)
    ensures L.Apply(list, OTHER, L.StartWake) == Looking(L.WakeLoad)
    ensures L.Apply(Looking(L.WakeLoad), OTHER, L.Advance) == Looking(L.Done)
    ensures L.Apply(Looking(L.Done), OTHER, L.Finish) == Looking(L.Idle)
  {
    assert map[OTHER := L.Idle][OTHER := L.WakeLoad] == map[OTHER := L.WakeLoad];
    assert map[OTHER := L.WakeLoad][OTHER := L.Done] == map[OTHER := L.Done];
    assert map[OTHER := L.Done][OTHER := L.Idle] == map[OTHER := L.Idle];
  }

  /** It finds nobody there. */
  lemma {:induction false} LooksInVain(q: State, list: L.State)
    requires Reachable(Asleep(q, list, true)) && (list == L.Created || list == Looking(L.Idle))
             && NotifiesEnqueue(q.PcOf(OTHER))
    ensures Reachable(Asleep(q, Looking(L.Done), true))
  {
    Looks(list);
    ReachMove(Asleep(q, list, true), OTHER, NotifyMove);
    ReachMove(Asleep(q, Looking(L.WakeLoad), true), OTHER, ListMove);
  }

  lemma {:induction false} AsleepNotifies(q: State, q': State, list: L.State)
    requires Reachable(Asleep(q, list, true)) && (list == L.Created || list == Looking(L.Idle))
    requires NotifiesEnqueue(q.PcOf(OTHER)) && q' == Apply(q, OTHER, Advance)
    ensures Reachable(Asleep(q', Looking(L.Idle), true))
  {
    LooksInVain(q, list);
    Looks(list);
    ReachMove(Asleep(q, Looking(L.Done), true), OTHER, NotifyMove);
  }

  lemma {:induction false} OtherLocks()
    ensures Apply(Quiescent(map[SLEEPER := Idle]), OTHER, StartDequeue(Request()))
              == Quiescent(map[SLEEPER := Idle, OTHER := DeqLock(Request())])
    ensures Apply(Quiescent(map[SLEEPER := Idle, OTHER := DeqLock(Request())]), OTHER, Advance)
              == Working(BEFORE, EmptySide(), [], DeqStart(Request(), One, 0, false))
  {
    assert map[SLEEPER := Idle][OTHER := DeqLock(Request())] == map[SLEEPER := Idle, OTHER := DeqLock(Request())];
    OtherGoes(DeqLock(Request()), DeqStart(Request(), One, 0, false));
  }

  lemma {:induction false} OtherHasLocked()
    ensures Reachable(Asleep(Working(BEFORE, EmptySide(), [], DeqStart(Request(), One, 0, false)), L.Created, false))
  {
    ConsumerParks();
    OtherLocks();
    var q0, q1 := Quiescent(map[SLEEPER := Idle]), Quiescent(map[SLEEPER := Idle, OTHER := DeqLock(Request())]);
    var q2 := Working(BEFORE, EmptySide(), [], DeqStart(Request(), One, 0, false));
    AsleepMoves(q0, q1, L.Created, false, StartDequeue(Request()));
    AsleepMoves(q1, q2, L.Created, false, Advance);
  }

  /** The step that strands the consumer. */
  lemma {:induction false} ConsumerIsStranded()
    ensures Reachable(Asleep(Working(BEFORE, FilledSide(false), [], DeqAdd(First())), L.Created, true))
  {
    var q2 := Working(BEFORE, EmptySide(), [], DeqStart(Request(), One, 0, false));
    OtherHasLocked();
    PreInserts();
    ReachMove(Asleep(q2, L.Created, false), OTHER, QueueMove(Advance));
  }

  lemma {:induction false} SwappedOnce()
    ensures Reachable(Asleep(Working(BETWEEN, FilledSide(true), [42], DeqStart(NoResize, Zero, 0, true)),
            Looking(L.Idle), true))
  {
    ConsumerIsStranded();
    var q0 := Working(BEFORE, FilledSide(false), [], DeqAdd(First()));
    var q1 := Working(BEFORE, FilledSide(true), [], DeqLoad(First()));
    var q2 := Working(BEFORE, FilledSide(true), [], DeqSwap(First(), 1, BEFORE));
    var q3 := Working(BETWEEN, FilledSide(true), [42], DeqCapacity(First(), 1, BEFORE));
    var q4 := Working(BETWEEN, FilledSide(true), [42], DeqNotify(First(), 1, BEFORE));
    Acknowledges();
    AsleepMoves(q0, q1, L.Created, true, Advance);
    LoadsFirst();
    AsleepMoves(q1, q2, L.Created, true, Advance);
    SwapsFirst();
    AsleepMoves(q2, q3, L.Created, true, Advance);
    AsleepMoves(q3, q4, L.Created, true, Advance);
    AsleepNotifies(q4, Apply(q4, OTHER, Advance), L.Created);
  }

  lemma {:induction false} Retried()
    ensures Reachable(Asleep(Working(BETWEEN, FilledSide(true), [42], DeqSwap(Second(), 1, BETWEEN)), Looking(L.Idle),
            true))
  {
    SwappedOnce();
    var q0 := Working(BETWEEN, FilledSide(true), [42], DeqStart(NoResize, Zero, 0, true));
    var q1 := Working(BETWEEN, FilledSide(true), [42], DeqLoad(Second()));
    var q2 := Working(BETWEEN, FilledSide(true), [42], DeqSwap(Second(), 1, BETWEEN));
    Retries();
    AsleepMoves(q0, q1, Looking(L.Idle), true, Advance);
    AsleepMoves(q1, q2, Looking(L.Idle), true, Advance);
  }

  lemma {:induction false} SwappedTwice()
    ensures Reachable(Asleep(Working(BEFORE, FilledSide(true), [42], DeqSpin(One, 1, SPIN_LIMIT)), Looking(L.Idle),
            true))
  {
    Retried();
    var q2 := Working(BETWEEN, FilledSide(true), [42], DeqSwap(Second(), 1, BETWEEN));
    var q3 := Working(BEFORE, FilledSide(true), [42], DeqCapacity(Second(), 1, BETWEEN));
    var q4 := Working(BEFORE, FilledSide(true), [42], DeqNotify(Second(), 1, BETWEEN));
    SwapsSecond();
    AsleepMoves(q2, q3, Looking(L.Idle), true, Advance);
    AsleepMoves(q3, q4, Looking(L.Idle), true, Advance);
    AsleepNotifies(q4, Apply(q4, OTHER, Advance), Looking(L.Idle));
  }

  /** Nobody is doing anything, so nobody is going to do anything for the consumer. */
  ghost predicate Over(s: Sys) {
    && (forall t: Tid :: s.q.PcOf(t) == Idle && s.waker.PcOf(t) == A.Idle && s.list.PcOf(t) == L.Idle)
    && (forall t: Tid :: t != s.consumer ==> s.SyncOf(t) == Free)
  }

  lemma {:induction false} ValueIsBack()
    ensures Reachable(Asleep(PutBack(), Looking(L.Idle), true))
  {
    SwappedTwice();
    var q0 := Working(BEFORE, FilledSide(true), [42], DeqSpin(One, 1, SPIN_LIMIT));
    var q1 := Working(BEFORE, FilledSide(true), [42], Slice(One, 0, 1));
    PutsBack();
    AsleepMoves(q0, q1, Looking(L.Idle), true, Advance);
    AsleepMoves(q1, PutBack(), Looking(L.Idle), true, Requeue);
  }

  lemma {:induction false} NobodyReaches(s: Sys)
    requires s == Asleep(PutBack(), Looking(L.Idle), true)
    ensures Over(s) && Stranded(s)
  {
  }

  /** A run of two threads that ends with the consumer parked without a token, everybody else done, and
      a value in the open queue. */
  lemma {:induction false} WakeUpIsLost() returns (states: seq<Sys>, turns: seq<Turn>, s: Sys)
    ensures Run(states, turns) && states[|turns|] == s
    ensures s.SyncOf(s.consumer).DPark? && s.consumer !in s.tokens
    ensures Over(s) && s.q.deq == Saved(One, 1) && s.q.At(One).cells == [Some(42)] && !s.q.enq.closed
    ensures Stranded(s) && s.unannounced
  {
    ValueIsBack();
    s := Asleep(PutBack(), Looking(L.Idle), true);
    NobodyReaches(s);
    states, turns :| Run(states, turns) && states[|turns|] == s;
  }
}

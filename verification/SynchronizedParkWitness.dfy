/** A run in which an enqueuer parks: the only cell holds a value, and another one is to be enqueued. */
module SynchronizedParkWitness {
  import opened Options
  import opened Protocol
  import opened ProtocolWitness
  import opened Synchronized
  import opened SynchronizedWitness
  import A = AtomicWaker
  import L = WakerList

  /** Nobody dequeues in this run. */
  const ABSENT: Tid := 1

  /** Outside of blocking calls. */
  function Plainly(q: State, waker: A.State): Sys {
    Sys(q, waker, L.Created, map[], {}, ABSENT, false)
  }

  lemma {:induction false} PlainStep(q: State, waker: A.State, a: Action, q': State)
    requires Reachable(Plainly(q, waker)) && StepsTo(q, a, q')
    requires !NotifiesDequeue(q.PcOf(ONLY)) && !NotifiesEnqueue(q.PcOf(ONLY)) && !q.PcOf(ONLY).DeqStart?
    ensures Reachable(Plainly(q', waker))
  {
    ReachQueue(Plainly(q, waker), ONLY, a, q');
  }

  /** The queue while the first value is enqueued. */
  function Storing(side: Side, log: seq<Value>, pc: Pc): State
    requires |log| <= 1
  {
    Filling(Zero, Word(false, 1 - |log|, Zero), side, Vacant(), Saved(One, 0), log, pc)
  }

  lemma {:induction false} FirstReserved()
    ensures Reachable(Plainly(Storing(Reserved(7), [7], EnqIndex([7], Word(false, 1, Zero))), A.Created))
  {
    var w := Word(false, 1, Zero);
    var q1, q2 := Storing(Vacant(), [], EnqLoad([7])), Storing(Vacant(), [], EnqCas([7], w));
    ReachFresh(Plainly(Created(1), A.Created));
    assert Created(1).threads[ONLY := EnqLoad([7])] == map[ONLY := EnqLoad([7])];
    assert StepsTo(Created(1), StartEnqueue([7]), q1);
    PlainStep(Created(1), A.Created, StartEnqueue([7]), q1);
    Reserves(Zero, Vacant(), Saved(One, 0), [], 7);
    PlainStep(q1, A.Created, Advance, q2);
    assert [] + [7] == [7];
    PlainStep(q2, A.Created, Advance, Storing(Reserved(7), [7], EnqIndex([7], w)));
  }

  lemma {:induction false} FirstWritten()
    ensures Reachable(Plainly(Storing(ProtocolWitness.Written(7), [7], EnqInsert([7], Word(false, 1, Zero), 0, 1)),
                              A.Created))
  {
    var w := Word(false, 1, Zero);
    var q3, q4 := Storing(Reserved(7), [7], EnqIndex([7], w)), Storing(Reserved(7), [7], EnqInsert([7], w, 0, 0));
    FirstReserved();
    Writes(Zero, Vacant(), Saved(One, 0), [7], 7);
    PlainStep(q3, A.Created, Advance, q4);
    PlainStep(q4, A.Created, Advance, Storing(ProtocolWitness.Written(7), [7], EnqInsert([7], w, 0, 1)));
  }

  lemma {:induction false} FirstStored()
    ensures Reachable(Plainly(Storing(Holding(7), [7], EnqNotify), A.Created))
  {
    var q5 := Storing(ProtocolWitness.Written(7), [7], EnqInsert([7], Word(false, 1, Zero), 0, 1));
    FirstWritten();
    AcknowledgesOne(Zero, Vacant(), Saved(One, 0), [7], 7);
    PlainStep(q5, A.Created, Advance, Storing(Holding(7), [7], EnqNotify));
  }

  // ---------------------------------------------------------------- it notifies nobody

  /** The empty waker cell while the thread wakes. */
  function Waking(bits: A.Bits, pc: A.Pc, owner: Option<Tid>): A.State {
    A.State(bits, None, map[ONLY := pc], owner, false)
  }

  lemma {:induction false} WakeSteps()
    ensures A.Apply(A.Created, ONLY, A.StartWake) == Waking(A.WAITING, A.WakeStart, None)
    ensures A.Apply(Waking(A.WAITING, A.WakeStart, None), ONLY, A.Advance)
              == Waking(A.Bits(false, true), A.WakeTake, Some(ONLY))
    ensures A.Apply(Waking(A.Bits(false, true), A.WakeTake, Some(ONLY)), ONLY, A.Advance)
              == Waking(A.Bits(false, true), A.WakeClear(None), Some(ONLY))
    ensures A.Apply(Waking(A.Bits(false, true), A.WakeClear(None), Some(ONLY)), ONLY, A.Advance)
              == Waking(A.WAITING, A.Done, None)
    ensures A.Apply(Waking(A.WAITING, A.Done, None), ONLY, A.Finish) == Waking(A.WAITING, A.Idle, None)
  {
    assert forall pc: A.Pc, pc': A.Pc {:trigger map[ONLY := pc][ONLY := pc']} ::
        map[ONLY := pc][ONLY := pc'] == map[ONLY := pc'];
  }

  lemma {:induction false} WakerStep(q: State, waker: A.State, waker': A.State)
    requires Reachable(Plainly(q, waker)) && A.Enabled(waker, ONLY, A.Advance)
    requires waker' == A.Apply(waker, ONLY, A.Advance) && A.Unparks(ONLY, waker.PcOf(ONLY)) == None
    ensures Reachable(Plainly(q, waker'))
  {
    assert MoveStep(Plainly(q, waker), ONLY, WakerMove) == Plainly(q, waker');
    ReachMove(Plainly(q, waker), ONLY, WakerMove);
  }

  lemma {:induction false} StartsToNotify(q: State)
    requires q == Storing(Holding(7), [7], EnqNotify) && Reachable(Plainly(q, A.Created))
    ensures Reachable(Plainly(q, Waking(A.WAITING, A.WakeStart, None)))
  {
    WakeSteps();
    ReachMove(Plainly(q, A.Created), ONLY, NotifyMove);
  }

  lemma {:induction false} HasNotified(q: State, q': State)
    requires q == Storing(Holding(7), [7], EnqNotify) && q' == Storing(Holding(7), [7], EnqReturned(EnqueueOk))
    requires Reachable(Plainly(q, Waking(A.WAITING, A.Done, None)))
    ensures Reachable(Plainly(q', Waking(A.WAITING, A.Idle, None)))
  {
    WakeSteps();
    AcknowledgesOne(Zero, Vacant(), Saved(One, 0), [7], 7);
    ReachMove(Plainly(q, Waking(A.WAITING, A.Done, None)), ONLY, NotifyMove);
  }

  /** The queue is full, and the first call over. */
  function Full(pc: Pc): State {
    Storing(Holding(7), [7], pc)
  }

  function WokenCell(): A.State {
    Waking(A.WAITING, A.Idle, None)
  }

  lemma {:induction false} FirstWakes()
    ensures Reachable(Plainly(Storing(Holding(7), [7], EnqNotify), Waking(A.WAITING, A.Done, None)))
  {
    var q, waking := Storing(Holding(7), [7], EnqNotify), A.Bits(false, true);
    FirstStored();
    StartsToNotify(q);
    WakeSteps();
    WakerStep(q, Waking(A.WAITING, A.WakeStart, None), Waking(waking, A.WakeTake, Some(ONLY)));
    WakerStep(q, Waking(waking, A.WakeTake, Some(ONLY)), Waking(waking, A.WakeClear(None), Some(ONLY)));
    WakerStep(q, Waking(waking, A.WakeClear(None), Some(ONLY)), Waking(A.WAITING, A.Done, None));
  }

  lemma {:induction false} FirstReturned()
    ensures Reachable(Plainly(Full(Idle), WokenCell()))
  {
    var q := Storing(Holding(7), [7], EnqNotify);
    FirstWakes();
    HasNotified(q, Full(EnqReturned(EnqueueOk)));
    AcknowledgesOne(Zero, Vacant(), Saved(One, 0), [7], 7);
    PlainStep(Full(EnqReturned(EnqueueOk)), WokenCell(), Advance, Full(Idle));
  }

  // ---------------------------------------------------------------- a blocking enqueue

  /** The thread in a blocking enqueue of 8 on the full queue. */
  function Blocked(pc: Pc, list: L.State, sp: SyncPc): Sys {
    Sys(Full(pc), WokenCell(), list, map[ONLY := sp], {}, ABSENT, false)
  }

  lemma {:induction false} SyncGoes(sp: SyncPc, sp': SyncPc)
    ensures map[ONLY := sp][ONLY := sp'] == map[ONLY := sp']
  {
  }

  function CalledFrom(sp: SyncPc): SyncPc {
    match sp
    case ESpin(n, v) => ESpinCall(n, v)
    case _ => ERetryCall([8])
  }

  function CheckAfter(sp: SyncPc): SyncPc {
    match sp
    case ESpin(n, v) => ESpinCheck(n, v)
    case _ => ERetryCheck([8])
  }

  function FurtherFrom(sp: SyncPc): SyncPc {
    match sp
    case ESpin(n, v) => if n > 1 then ESpin(n - 1, v) else ERegister(v)
    case _ => EPark([8])
  }

  lemma {:induction false} AttemptStarts(list: L.State, sp: SyncPc)
    requires Reachable(Blocked(Idle, list, sp)) && (sp.ESpin? || sp.ERetry?) && sp.value == [8]
    ensures Reachable(Blocked(EnqLoad([8]), list, CalledFrom(sp)))
  {
    SyncGoes(sp, CalledFrom(sp));
    Goes(Idle, EnqLoad([8]));
    ReachMove(Blocked(Idle, list, sp), ONLY, CallMove);
  }

  lemma {:induction false} AttemptFails(list: L.State, sp: SyncPc)
    requires Reachable(Blocked(EnqLoad([8]), list, sp)) && !sp.Free?
    ensures Reachable(Blocked(EnqReturned(InsufficientCapacity), list, sp))
  {
    Goes(EnqLoad([8]), EnqReturned(InsufficientCapacity));
    ReachQueue(Blocked(EnqLoad([8]), list, sp), ONLY, Advance, Full(EnqReturned(InsufficientCapacity)));
  }

  lemma {:induction false} AttemptReturns(list: L.State, sp: SyncPc)
    requires sp.ESpin? || sp.ERetry?
    requires sp.value == [8] && Reachable(Blocked(EnqReturned(InsufficientCapacity), list, CalledFrom(sp)))
    ensures Reachable(Blocked(Idle, list, CheckAfter(sp)))
  {
    ReturnStep(list, sp);
    ReachMove(Blocked(EnqReturned(InsufficientCapacity), list, CalledFrom(sp)), ONLY, ResumeMove);
  }

  lemma {:induction false} ReturnStep(list: L.State, sp: SyncPc)
    requires (sp.ESpin? || sp.ERetry?) && sp.value == [8]
    ensures var s := Blocked(EnqReturned(InsufficientCapacity), list, CalledFrom(sp));
            && MoveEnabled(s, ONLY, ResumeMove)
            && MoveStep(s, ONLY, ResumeMove) == Blocked(Idle, list, CheckAfter(sp))
  {
    SyncGoes(CalledFrom(sp), CheckAfter(sp));
    Goes(EnqReturned(InsufficientCapacity), Idle);
  }

  lemma {:induction false} CheckPasses(list: L.State, sp: SyncPc)
    requires (sp.ESpin? || sp.ERetry?) && sp.value == [8] && Reachable(Blocked(Idle, list, CheckAfter(sp)))
    ensures Reachable(Blocked(Idle, list, FurtherFrom(sp)))
  {
    CheckStep(list, sp);
    ReachMove(Blocked(Idle, list, CheckAfter(sp)), ONLY, ResumeMove);
  }

  lemma {:induction false} CheckStep(list: L.State, sp: SyncPc)
    requires (sp.ESpin? || sp.ERetry?) && sp.value == [8]
    ensures var s := Blocked(Idle, list, CheckAfter(sp));
            && MoveEnabled(s, ONLY, ResumeMove)
            && MoveStep(s, ONLY, ResumeMove) == Blocked(Idle, list, FurtherFrom(sp))
  {
    SyncGoes(CheckAfter(sp), FurtherFrom(sp));
  }

  /** One attempt, for which there is no room. */
  lemma {:induction false} FullAttempt(list: L.State, sp: SyncPc)
    requires Reachable(Blocked(Idle, list, sp)) && (sp.ESpin? || sp.ERetry?) && sp.value == [8]
    ensures Reachable(Blocked(Idle, list, FurtherFrom(sp)))
  {
    AttemptStarts(list, sp);
    AttemptFails(list, CalledFrom(sp));
    AttemptReturns(list, sp);
    CheckPasses(list, sp);
  }

  lemma {:induction false} SpinsOnFull(n: nat)
    requires 0 < n && Reachable(Blocked(Idle, L.Created, ESpin(n, [8])))
    ensures Reachable(Blocked(Idle, L.Created, ERegister([8])))
    decreases n
  {
    FullAttempt(L.Created, ESpin(n, [8]));
    if n > 1 {
      SpinsOnFull(n - 1);
    }
  }

  /** The waker list while and after the thread registers. */
  function Listing(flag: bool, list: seq<Tid>, mutex: Option<Tid>, pc: L.Pc): L.State {
    L.State(flag, list, mutex, map[ONLY := pc], None, list, [])
  }

  lemma {:induction false} ListingSteps()
    ensures L.Apply(L.Created, ONLY, L.StartRegister) == Listing(false, [], None, L.RegLock)
    ensures L.Apply(Listing(false, [], None, L.RegLock), ONLY, L.Advance) == Listing(false, [], Some(ONLY), L.RegFlag)
    ensures L.Apply(Listing(false, [], Some(ONLY), L.RegFlag), ONLY, L.Advance)
              == Listing(true, [], Some(ONLY), L.RegPush)
    ensures L.Apply(Listing(true, [], Some(ONLY), L.RegPush), ONLY, L.Advance) == Listing(true, [ONLY], None, L.Done)
    ensures L.Apply(Listing(true, [ONLY], None, L.Done), ONLY, L.Finish) == Listing(true, [ONLY], None, L.Idle)
  {
    assert forall pc: L.Pc, pc': L.Pc {:trigger map[ONLY := pc][ONLY := pc']} ::
        map[ONLY := pc][ONLY := pc'] == map[ONLY := pc'];
    assert [] + [ONLY] == [ONLY];
  }

  lemma {:induction false} ListStep(list: L.State, list': L.State)
    requires Reachable(Blocked(Idle, list, ERegister([8]))) && L.Enabled(list, ONLY, L.Advance)
    requires list' == L.Apply(list, ONLY, L.Advance) && L.Unparks(list, list.PcOf(ONLY)) == None
    ensures Reachable(Blocked(Idle, list', ERegister([8])))
  {
    var s := Blocked(Idle, list, ERegister([8]));
    assert MoveStep(s, ONLY, ListMove) == Blocked(Idle, list', ERegister([8]));
    ReachMove(s, ONLY, ListMove);
  }

  lemma {:induction false} EntersList()
    requires Reachable(Blocked(Idle, L.Created, ERegister([8])))
    ensures Reachable(Blocked(Idle, Listing(true, [ONLY], None, L.Done), ERegister([8])))
  {
    ListingSteps();
    ReachMove(Blocked(Idle, L.Created, ERegister([8])), ONLY, RegisterMove);
    ListStep(Listing(false, [], None, L.RegLock), Listing(false, [], Some(ONLY), L.RegFlag));
    ListStep(Listing(false, [], Some(ONLY), L.RegFlag), Listing(true, [], Some(ONLY), L.RegPush));
    ListStep(Listing(true, [], Some(ONLY), L.RegPush), Listing(true, [ONLY], None, L.Done));
  }

  lemma {:induction false} IsListed()
    requires Reachable(Blocked(Idle, Listing(true, [ONLY], None, L.Done), ERegister([8])))
    ensures Reachable(Blocked(Idle, Listing(true, [ONLY], None, L.Idle), ERetry([8])))
  {
    ListingSteps();
    SyncGoes(ERegister([8]), ERetry([8]));
    ReachMove(Blocked(Idle, Listing(true, [ONLY], None, L.Done), ERegister([8])), ONLY, ResumeMove);
  }

  lemma {:induction false} ParkedIsReachable()
    ensures Reachable(Blocked(Idle, Listing(true, [ONLY], None, L.Idle), EPark([8])))
  {
    FirstReturned();
    ReachMove(Plainly(Full(Idle), WokenCell()), ONLY, BeginEnqueue([8]));
    assert map[][ONLY := ESpin(SPIN_LIMIT, [8])] == map[ONLY := ESpin(SPIN_LIMIT, [8])];
    SpinsOnFull(SPIN_LIMIT);
    EntersList();
    IsListed();
    FullAttempt(Listing(true, [ONLY], None, L.Idle), ERetry([8]));
  }

  /** A run that ends with an enqueuer parked and listed, its value not larger than the open queue, whose only cell
      holds the one before. */
  lemma {:induction false} EnqueuerParks() returns (states: seq<Sys>, turns: seq<Turn>, s: Sys)
    ensures Run(states, turns) && states[|turns|] == s
    ensures s.SyncOf(ONLY) == EPark([8]) && ONLY !in s.tokens && s.list.list == [ONLY]
    ensures s.q.At(Zero).cells == [Some(7)] && s.q.capacity == 1 && !s.q.enq.closed && s.q.enq.remaining == 0
  {
    ParkedIsReachable();
    s := Blocked(Idle, Listing(true, [ONLY], None, L.Idle), EPark([8]));
    states, turns :| Run(states, turns) && states[|turns|] == s;
  }
}

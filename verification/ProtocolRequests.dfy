/** What a dequeuing call does, in terms of the request it was started with. */
module ProtocolRequests {
  import opened Options
  import opened Protocol
  import opened ProtocolInvariant
  import opened ProtocolSteps
  import opened ProtocolFlow
  import opened ProtocolTheorems
  import opened ProtocolPreInsertion
  import opened ProtocolCalls
  import opened Sequences

  /** The values that a request gets inserted into a buffer with these cells. */
  function AskedFor(cells: seq<Option<Value>>, r: Resize): seq<Value> {
    if r.ResizeTo? then Flat(Accepted(Wanted(cells, r), r.insert)) else []
  }

  /** The next buffer, prepared from these cells, is the one asked for. */
  predicate AsAsked(next: Next, cells: seq<Option<Value>>, r: Resize) {
    && !next.retried
    && next.capacity == Wanted(cells, r)
    && next.inserted == AskedFor(cells, r)
    && (next.resized <==> next.capacity != |cells|)
  }

  /** From `s` to `s'` the prepared buffer becomes the enqueuing one, with the flag kept, and what was
      inserted into it enters the log. */
  ghost predicate SwapsIn(s: State, s': State, next: Next) {
    && |next.inserted| <= next.capacity == |s'.At(next.index).cells|
    && s'.enq == Word(s.enq.closed, next.capacity - |next.inserted|, next.index)
    && s'.log == s.log + next.inserted
  }

  /** At `p` thread `t` prepared the next buffer as asked for. */
  ghost predicate PreparedFor(states: seq<State>, movers: seq<Tid>, t: Tid, r: Resize, j: nat, k: nat, p: nat,
      next: Next)
    requires History(states, movers) && k < |states|
  {
    && j < p < k && movers[p] == t && states[p].PcOf(t) == DeqStart(r, next.index, 0, false)
    && AsAsked(next, states[p].At(next.index).cells, r)
  }

  /** At `q` it swapped it in; to the log it has added nothing else. */
  ghost predicate Published(states: seq<State>, movers: seq<Tid>, t: Tid, r: Resize, j: nat, k: nat, p: nat, q: nat)
    requires History(states, movers) && k < |states|
  {
    && p < q < k && movers[q] == t && states[q].PcOf(t).DeqSwap?
    && PreparedFor(states, movers, t, r, j, q, p, states[q].PcOf(t).next)
    && SwapsIn(states[q], states[q + 1], states[q].PcOf(t).next)
    && Silent(states, movers, t, j, q) && Silent(states, movers, t, q + 1, k)
  }

  predicate NothingThere(e: DequeueError) {
    e == Empty || e == Closed
  }

  /** Past the swaps of the call, if it came to them, and not refused the lock. */
  predicate Late(pc: Pc) {
    || (pc.DeqStoreBack? && NothingThere(pc.error)) || pc.DeqStoreEmpty? || pc.DeqSpin? || pc.DeqSave?
    || pc.Slice? || pc.Iter? || pc.RelLength? || pc.RelStore? || (pc.DeqReturned? && pc.error != Conflict)
  }

  /** How far a dequeuing call has come: nothing is prepared yet, the next buffer is, or it has been swapped
      in. */
  datatype Stage = Fresh | Prepared(next: Next) | Swapped(next: Next)

  /** What has happened in a call with request `r` that began at `j` and is at this stage at `k`. */
  ghost predicate Passed(states: seq<State>, movers: seq<Tid>, t: Tid, r: Resize, j: nat, k: nat, p: nat, q: nat,
      stage: Stage)
    requires History(states, movers) && k < |states|
  {
    match stage
    case Fresh => Silent(states, movers, t, j, k)
    case Prepared(next) => PreparedFor(states, movers, t, r, j, k, p, next) && Silent(states, movers, t, j, k)
    case Swapped(next) => Published(states, movers, t, r, j, k, p, q) && states[q].PcOf(t).next == next
  }

  /** The stage of a call with request `r` that is at `pc`. */
  predicate AtStage(pc: Pc, r: Resize, stage: Stage) {
    if Late(pc) then true
    else match pc
      case DeqLock(request) => request == r && stage.Fresh?
      case DeqReturned(_) => stage.Fresh?
      case DeqStart(request, _, len, retried) =>
        if retried then request == NoResize && len == 0 && stage.Swapped? else request == r && stage.Fresh?
      case Panicked(_) => stage.Fresh?
      case DeqAdd(next) => NextAt(next, stage)
      case DeqLoad(next) => NextAt(next, stage)
      case DeqSwap(next, _, _) => NextAt(next, stage)
      case DeqCapacity(next, _, _) => stage.Swapped? && (if next.retried then Plain(next) else stage.next == next)
      case DeqNotify(next, _, _) => stage.Swapped? && (if next.retried then Plain(next) else stage.next == next)
      case _ => false
  }

  predicate NextAt(next: Next, stage: Stage) {
    if next.retried then stage.Swapped? && Plain(next) else stage == Prepared(next)
  }

  // ---------------------------------------------------------------- what a step does

  ghost predicate LockEffect(s: State, s': State, r: Resize, pc': Pc) {
    s'.log == s.log
    && ((s.deq.Locked? && pc' == DeqReturned(Conflict))
        || (s.deq.Saved? && pc' == DeqStart(r, s.deq.index, s.deq.length, false)))
  }

  ghost predicate StartEffect(s: State, s': State, r: Resize, i: Index, len: nat, retried: bool, pc': Pc) {
    s'.log == s.log
    && ((len > 0 && pc'.DeqSpin?)
        || (len == 0 && r.ResizeTo? && pc' == Panicked(i))
        || (len == 0 && (pc'.DeqAdd? || pc'.DeqLoad?) && pc'.next.index == i && pc'.next.retried == retried
            && (if retried then r == NoResize ==> Plain(pc'.next) else AsAsked(pc'.next, s.At(i).cells, r))))
  }

  /** What a step of a dequeuing thread does. */
  ghost predicate DequeueEffect(s: State, s': State, t: Tid) {
    var pc, pc' := s.PcOf(t), s'.PcOf(t);
    if Late(pc) then s'.log == s.log && (Late(pc') || pc' == Idle)
    else match pc
      case DeqLock(r) => LockEffect(s, s', r, pc')
      case DeqStart(r, i, len, retried) => StartEffect(s, s', r, i, len, retried, pc')
      case DeqAdd(next) => s'.log == s.log && pc' == DeqLoad(next)
      case DeqLoad(next) => s'.log == s.log && ((pc'.DeqSwap? && pc'.next == next) || Late(pc'))
      case DeqSwap(next, _, _) =>
        || (s'.log == s.log && pc'.DeqSwap? && pc'.next == next)
        || (SwapsIn(s, s', next) && pc'.DeqCapacity? && pc'.next == next)
      case DeqCapacity(next, _, _) => s'.log == s.log && pc'.DeqNotify? && pc'.next == next
      case DeqNotify(next, _, _) =>
        s'.log == s.log && (Late(pc')
            || (next.inserted != [] && pc'.DeqStart? && pc'.resize == NoResize && pc'.len == 0 && pc'.retried))
      case DeqReturned(_) => s'.log == s.log && pc' == Idle
      case _ => false
  }

  lemma {:induction false} StartStepEffect(s: State, t: Tid, r: Resize, i: Index, len: nat, retried: bool)
    requires s.PcOf(t) == DeqStart(r, i, len, retried)
    ensures var s' := DeqStartStep(s, t, r, i, len, retried);
            StartEffect(s, s', r, i, len, retried, s'.PcOf(t))
  {
    PrepareExact(s.At(i).cells, r);
  }

  lemma {:induction false} SwapStepEffect(s: State, t: Tid, next: Next, cap: nat, seen: Word, spurious: bool)
    requires Inv(s) && s.PcOf(t) == DeqSwap(next, cap, seen)
    ensures DequeueEffect(s, DeqSwapStep(s, t, next, cap, seen, spurious), t)
  {
    ThreadAt(s, t);
  }

  lemma {:induction false} LateStepEffect(s: State, t: Tid, a: Action)
    requires Enabled(s, t, a) && Late(s.PcOf(t))
    ensures DequeueEffect(s, Apply(s, t, a), t)
  {
    ControlFlow(s, t, a);
    if !s.PcOf(t).RelLength? {
      QueuedStep(s, t, a);
    }
  }

  lemma {:induction false} MiddleStepEffect(s: State, t: Tid)
    requires var pc := s.PcOf(t);
             pc.DeqAdd? || pc.DeqLoad? || pc.DeqCapacity? || pc.DeqNotify?
    ensures DequeueEffect(s, DequeueStep(s, t), t)
  {
    DequeueFollows(s, t);
  }

  /** The thread is in a dequeuing call, or has what it handed out. */
  predicate InCallOrOut(pc: Pc) {
    pc.DeqLock? || pc.DeqReturned? || (Holds(pc) && (pc.DeqStoreBack? ==> NothingThere(pc.error)))
  }

  lemma {:induction false} DequeueStepEffect(s: State, t: Tid, a: Action)
    requires Inv(s) && Enabled(s, t, a)
    requires InCallOrOut(s.PcOf(t))
    ensures DequeueEffect(s, Apply(s, t, a), t)
  {
    var pc := s.PcOf(t);
    if Late(pc) {
      LateStepEffect(s, t, a);
    } else if pc.DeqStart? {
      StartStepEffect(s, t, pc.resize, pc.index, pc.len, pc.retried);
    } else if pc.DeqSwap? {
      SwapStepEffect(s, t, pc.next, pc.cap, pc.seen, a.FailSpuriously?);
    } else if pc.DeqAdd? || pc.DeqLoad? || pc.DeqCapacity? || pc.DeqNotify? {
      MiddleStepEffect(s, t);
    }
  }

  // ---------------------------------------------------------------- histories

  /** A move that adds nothing to the log, or is not of the thread, keeps the stage. */
  lemma {:induction false} ReachedOn(states: seq<State>, movers: seq<Tid>, t: Tid, r: Resize, j: nat, k: nat, p: nat,
      q: nat, stage: Stage)
    requires History(states, movers) && j < k < |movers| && Passed(states, movers, t, r, j, k, p, q, stage)
    requires movers[k] == t ==> states[k + 1].log == states[k].log
    ensures Passed(states, movers, t, r, j, k + 1, p, q, stage)
  {
  }

  /** The preparation. */
  lemma {:induction false} ReachedPrepared(states: seq<State>, movers: seq<Tid>, t: Tid, r: Resize, j: nat, k: nat,
      q: nat, next: Next)
    requires History(states, movers) && j < k < |movers| && Silent(states, movers, t, j, k)
    requires movers[k] == t && states[k].PcOf(t) == DeqStart(r, next.index, 0, false)
    requires states[k + 1].log == states[k].log && AsAsked(next, states[k].At(next.index).cells, r)
    ensures Passed(states, movers, t, r, j, k + 1, k, q, Prepared(next))
  {
  }

  /** The swap. */
  lemma {:induction false} ReachedSwapped(states: seq<State>, movers: seq<Tid>, t: Tid, r: Resize, j: nat, k: nat,
      p: nat, q: nat, next: Next)
    requires History(states, movers) && j < k < |movers|
    requires Passed(states, movers, t, r, j, k, p, q, Prepared(next))
    requires movers[k] == t && states[k].PcOf(t).DeqSwap? && states[k].PcOf(t).next == next
    requires SwapsIn(states[k], states[k + 1], next)
    ensures Passed(states, movers, t, r, j, k + 1, p, k, Swapped(next))
  {
  }

  /** The stage after a step from `s` to `s'`. */
  ghost function NextStage(s: State, s': State, t: Tid, stage: Stage): Stage {
    var pc, pc' := s.PcOf(t), s'.PcOf(t);
    if pc.DeqStart? && !pc.retried && (pc'.DeqAdd? || pc'.DeqLoad?) then Prepared(pc'.next)
    else if pc.DeqSwap? && !pc.next.retried && pc'.DeqCapacity? then Swapped(pc.next)
    else stage
  }

  lemma {:induction false} StageStep(s: State, s': State, t: Tid, r: Resize, stage: Stage)
    requires AtStage(s.PcOf(t), r, stage) && DequeueEffect(s, s', t) && s'.PcOf(t) != Idle
    ensures AtStage(s'.PcOf(t), r, NextStage(s, s', t, stage))
    ensures NextStage(s, s', t, stage) == stage ==> s'.log == s.log || (stage.Swapped? && s.PcOf(t).DeqSwap?)
  {
  }

  /** A swap of what was there as it was adds nothing. */
  lemma {:induction false} SilentStep(s: State, s': State, t: Tid, r: Resize, stage: Stage)
    requires AtStage(s.PcOf(t), r, stage) && DequeueEffect(s, s', t) && NextStage(s, s', t, stage) == stage
    ensures s'.log == s.log
  {
    var pc := s.PcOf(t);
    if pc.DeqSwap? {
      assert s.log + [] == s.log;
    }
  }

  lemma {:induction false} PreparesFrom(s: State, s': State, t: Tid, r: Resize, stage: Stage)
    requires AtStage(s.PcOf(t), r, stage) && DequeueEffect(s, s', t) && NextStage(s, s', t, stage) != stage
    requires s.PcOf(t).DeqStart?
    ensures stage.Fresh? && s'.log == s.log
    ensures var next := NextStage(s, s', t, stage).next;
            && NextStage(s, s', t, stage) == Prepared(next)
            && s.PcOf(t) == DeqStart(r, next.index, 0, false) && AsAsked(next, s.At(next.index).cells, r)
  {
  }

  lemma {:induction false} SwapsFrom(s: State, s': State, t: Tid, r: Resize, stage: Stage)
    requires AtStage(s.PcOf(t), r, stage) && DequeueEffect(s, s', t) && NextStage(s, s', t, stage) != stage
    requires !s.PcOf(t).DeqStart?
    ensures s.PcOf(t).DeqSwap? && stage == Prepared(s.PcOf(t).next)
    ensures NextStage(s, s', t, stage) == Swapped(s.PcOf(t).next) && SwapsIn(s, s', s.PcOf(t).next)
  {
  }

  /** How far a dequeuing call with request `r` that began at `j` has come at `k`. */
  ghost predicate Dequeues(states: seq<State>, movers: seq<Tid>, t: Tid, r: Resize, j: nat, k: nat, p: nat, q: nat,
      stage: Stage)
    requires History(states, movers) && k < |states|
  {
    AtStage(states[k].PcOf(t), r, stage) && Passed(states, movers, t, r, j, k, p, q, stage)
  }

  lemma {:induction false} DequeuesByItself(states: seq<State>, movers: seq<Tid>, t: Tid, r: Resize, j: nat, k: nat,
      p: nat, q: nat, stage: Stage) returns (p': nat, q': nat, stage': Stage)
    requires History(states, movers) && j < k < |movers| && Dequeues(states, movers, t, r, j, k, p, q, stage)
    requires movers[k] == t && DequeueEffect(states[k], states[k + 1], t) && states[k + 1].PcOf(t) != Idle
    ensures Dequeues(states, movers, t, r, j, k + 1, p', q', stage')
  {
    var s, s' := states[k], states[k + 1];
    p', q', stage' := p, q, NextStage(s, s', t, stage);
    StageStep(s, s', t, r, stage);
    if stage' == stage {
      SilentStep(s, s', t, r, stage);
      ReachedOn(states, movers, t, r, j, k, p, q, stage);
    } else if s.PcOf(t).DeqStart? {
      PreparesFrom(s, s', t, r, stage);
      p' := k;
      ReachedPrepared(states, movers, t, r, j, k, q, stage'.next);
    } else {
      SwapsFrom(s, s', t, r, stage);
      q' := k;
      ReachedSwapped(states, movers, t, r, j, k, p, q, stage.next);
    }
  }

  /** What a step means for a thread in a dequeuing call. */
  ghost predicate DequeueMove(s: State, s': State, u: Tid, t: Tid) {
    if u == t then DequeueEffect(s, s', t) else s'.PcOf(t) == s.PcOf(t)
  }

  /** One more move in the history of a dequeuing call. */
  lemma {:induction false} DequeuesOn(states: seq<State>, movers: seq<Tid>, t: Tid, r: Resize, j: nat, k: nat, p: nat,
      q: nat, stage: Stage) returns (p': nat, q': nat, stage': Stage)
    requires History(states, movers) && j < k < |movers| && Dequeues(states, movers, t, r, j, k, p, q, stage)
    requires DequeueMove(states[k], states[k + 1], movers[k], t) && states[k + 1].PcOf(t) != Idle
    ensures Dequeues(states, movers, t, r, j, k + 1, p', q', stage')
  {
    if movers[k] == t {
      p', q', stage' := DequeuesByItself(states, movers, t, r, j, k, p, q, stage);
    } else {
      p', q', stage' := p, q, stage;
      ReachedOn(states, movers, t, r, j, k, p, q, stage);
    }
  }

  // ---------------------------------------------------------------- ... in every execution

  lemma {:induction false} DequeueStarts(s: State, t: Tid, r: Resize)
    requires Enabled(s, t, StartDequeue(r)) && s.PcOf(t) == Idle
    ensures Apply(s, t, StartDequeue(r)).log == s.log && Apply(s, t, StartDequeue(r)).PcOf(t) == DeqLock(r)
  {
  }

  lemma {:induction false} DequeueFirst(states: seq<State>, steps: seq<Step>, t: Tid, r: Resize, j: nat)
    requires Execution(states, steps) && j + 1 < |states| && CallOf(states, steps, t, StartDequeue(r), j, j + 1)
    ensures Dequeues(states, Movers(steps), t, r, j, j + 1, 0, 0, Fresh)
  {
    DequeueStarts(states[j], t, r);
  }

  lemma {:induction false} DequeueRunStep(states: seq<State>, steps: seq<Step>, t: Tid, k: nat)
    requires Execution(states, steps) && k < |steps| && InCallOrOut(states[k].PcOf(t))
    ensures DequeueMove(states[k], states[k + 1], steps[k].t, t)
  {
    ReachableInv(states, steps, k);
    if steps[k].t != t {
      OnlyMover(states[k], steps[k].t, steps[k].a, t);
    } else {
      DequeueStepEffect(states[k], t, steps[k].a);
    }
  }

  lemma {:induction false} StageIsIn(pc: Pc, r: Resize, stage: Stage)
    requires AtStage(pc, r, stage)
    ensures InCallOrOut(pc)
  {
  }

  ghost predicate DequeueLink(s: State, s': State, u: Tid, t: Tid) {
    InCallOrOut(s.PcOf(t)) ==> DequeueMove(s, s', u, t)
  }

  lemma {:induction false} DequeueFrom(states: seq<State>, movers: seq<Tid>, t: Tid, r: Resize, j: nat, k: nat)
    returns (p: nat, q: nat, stage: Stage)
    requires History(states, movers) && j < k < |states| && Dequeues(states, movers, t, r, j, j + 1, 0, 0, Fresh)
    requires forall i :: j < i <= k ==> states[i].PcOf(t) != Idle
    requires forall i {:trigger movers[i]} :: j < i < k ==> DequeueLink(states[i], states[i + 1], movers[i], t)
    ensures Dequeues(states, movers, t, r, j, k, p, q, stage)
  {
    if k == j + 1 {
      p, q, stage := 0, 0, Fresh;
    } else {
      p, q, stage := DequeueFrom(states, movers, t, r, j, k - 1);
      p, q, stage := DequeueNext(states, movers, t, r, j, k - 1, p, q, stage);
    }
  }

  lemma {:induction false} DequeueNext(states: seq<State>, movers: seq<Tid>, t: Tid, r: Resize, j: nat, k: nat, p: nat,
      q: nat, stage: Stage) returns (p': nat, q': nat, stage': Stage)
    requires History(states, movers) && j < k < |movers| && Dequeues(states, movers, t, r, j, k, p, q, stage)
    requires DequeueLink(states[k], states[k + 1], movers[k], t) && states[k + 1].PcOf(t) != Idle
    ensures Dequeues(states, movers, t, r, j, k + 1, p', q', stage')
  {
    StageIsIn(states[k].PcOf(t), r, stage);
    p', q', stage' := DequeuesOn(states, movers, t, r, j, k, p, q, stage);
  }

  lemma {:induction false} DequeueCall(states: seq<State>, steps: seq<Step>, t: Tid, r: Resize, j: nat, k: nat)
    returns (p: nat, q: nat, stage: Stage)
    requires Execution(states, steps) && k < |states| && CallOf(states, steps, t, StartDequeue(r), j, k)
    ensures Dequeues(states, Movers(steps), t, r, j, k, p, q, stage)
  {
    DequeueFirst(states, steps, t, r, j);
    forall i {:trigger Movers(steps)[i]} | j < i < k
      ensures DequeueLink(states[i], states[i + 1], Movers(steps)[i], t)
    {
      if InCallOrOut(states[i].PcOf(t)) {
        DequeueRunStep(states, steps, t, i);
      }
    }
    p, q, stage := DequeueFrom(states, Movers(steps), t, r, j, k);
  }

  /** A swap is always that of the buffer asked for: in every execution the first swap of a call puts in, for
      enqueuing, a buffer of the capacity asked for (or that it had, if none was), with exactly the accepted
      values inserted, which enter the log there; a second one puts the other buffer in, as it is. */
  lemma {:induction false} SwapIsAsAsked(states: seq<State>, steps: seq<Step>, t: Tid, r: Resize, j: nat, k: nat)
    returns (p: nat)
    requires Execution(states, steps) && k < |steps| && CallOf(states, steps, t, StartDequeue(r), j, k)
    requires steps[k].t == t && states[k].PcOf(t).DeqSwap? && states[k + 1].PcOf(t).DeqCapacity?
    ensures var s, s', next := states[k], states[k + 1], states[k].PcOf(t).next;
            var i := next.index;
            if next.retried then
              && s'.enq == Word(s.enq.closed, |s'.At(i).cells|, i) && s'.log == s.log
            else
              && j < p < k && steps[p].t == t && states[p].PcOf(t) == DeqStart(r, i, 0, false)
              && var c, all := Wanted(states[p].At(i).cells, r), AskedFor(states[p].At(i).cells, r);
                 && |all| <= c == |s'.At(i).cells|
                 && s'.enq == Word(s.enq.closed, c - |all|, i) && s'.log == s.log + all
  {
    var q, stage;
    p, q, stage := DequeueCall(states, steps, t, r, j, k);
    DequeueRunStep(states, steps, t, k);
  }

  /** ... and `capacity()` says so as soon as it is stored, before anybody is notified; but for the moment in
      between it is always the capacity of the enqueuing buffer. */
  lemma {:induction false} CapacityIsCurrent(states: seq<State>, steps: seq<Step>, k: nat)
    requires Execution(states, steps) && k < |states|
    requires forall t: Tid :: !states[k].PcOf(t).DeqCapacity?
    ensures states[k].capacity == |states[k].At(states[k].enq.index).cells|
  {
    ReachableInv(states, steps, k);
    if states[k].holder.Some? {
      assert !states[k].PcOf(states[k].holder.value).DeqCapacity?;
    }
  }

  /** A dequeuing call adds to the log nothing but what it was asked to insert, once, at its first swap. */
  lemma {:induction false} AddsOnlyAsked(states: seq<State>, steps: seq<Step>, t: Tid, r: Resize, j: nat, k: nat)
    returns (p: nat, q: nat)
    requires Execution(states, steps) && k < |states| && CallOf(states, steps, t, StartDequeue(r), j, k)
    ensures Silent(states, Movers(steps), t, j, k) || Published(states, Movers(steps), t, r, j, k, p, q)
  {
    var stage;
    p, q, stage := DequeueCall(states, steps, t, r, j, k);
  }

  lemma {:induction false} RefusedBy(s: State, s': State, t: Tid)
    requires DequeueEffect(s, s', t) && s'.PcOf(t) == DeqReturned(Conflict) && InCallOrOut(s.PcOf(t))
    ensures s.PcOf(t).DeqLock? && s.deq.Locked?
  {
  }

  ghost predicate InCallMove(s: State, s': State, u: Tid, t: Tid) {
    InCallOrOut(s.PcOf(t)) && DequeueMove(s, s', u, t)
  }

  lemma {:induction false} InCallRunMove(states: seq<State>, steps: seq<Step>, t: Tid, r: Resize, j: nat, k: nat,
      i: nat)
    requires Execution(states, steps) && j < i < k < |states| && CallOf(states, steps, t, StartDequeue(r), j, k)
    ensures InCallMove(states[i], states[i + 1], steps[i].t, t)
  {
    var p, q, stage := DequeueCall(states, steps, t, r, j, i);
    StageIsIn(states[i].PcOf(t), r, stage);
    DequeueRunStep(states, steps, t, i);
  }

  lemma {:induction false} RefusedFrom(states: seq<State>, movers: seq<Tid>, t: Tid, j: nat, k: nat) returns (m: nat)
    requires History(states, movers) && j < k < |states| && states[j + 1].PcOf(t).DeqLock?
    requires forall i {:trigger movers[i]} :: j < i < k ==> InCallMove(states[i], states[i + 1], movers[i], t)
    requires states[k].PcOf(t) == DeqReturned(Conflict)
    ensures Last(movers, t, j, m, k) && states[m].deq.Locked?
  {
    assert k > j + 1;
    assert InCallMove(states[k - 1], states[k], movers[k - 1], t);
    if movers[k - 1] == t {
      m := k - 1;
      RefusedBy(states[m], states[k], t);
    } else {
      m := RefusedFrom(states, movers, t, j, k - 1);
    }
  }

  /** `Conflict` is answered only when the lock was taken at the one look the call had at it, and then the
      call has done nothing. */
  lemma {:induction false} ConflictMeansLocked(states: seq<State>, steps: seq<Step>, t: Tid, r: Resize, j: nat, k: nat)
    returns (m: nat)
    requires Execution(states, steps) && k < |states| && CallOf(states, steps, t, StartDequeue(r), j, k)
    requires states[k].PcOf(t) == DeqReturned(Conflict)
    ensures Last(Movers(steps), t, j, m, k) && states[m].deq.Locked? && Silent(states, Movers(steps), t, j, k)
  {
    var p, q, stage := DequeueCall(states, steps, t, r, j, k);
    DequeueStarts(states[j], t, r);
    assert stage.Fresh?;
    forall i {:trigger Movers(steps)[i]} | j < i < k
      ensures InCallMove(states[i], states[i + 1], Movers(steps)[i], t)
    {
      InCallRunMove(states, steps, t, r, j, k, i);
    }
    m := RefusedFrom(states, Movers(steps), t, j, k);
  }

  // ---------------------------------------------------------------- waiting

  /** How often, from `j` to `k`, thread `t` looks whether the length it expects is acknowledged. */
  ghost function Looks(states: seq<State>, movers: seq<Tid>, t: Tid, j: nat, k: nat): nat
    requires History(states, movers) && j <= k < |states|
    decreases k
  {
    if k == j then 0
    else Looks(states, movers, t, j, k - 1) + if movers[k - 1] == t && states[k - 1].PcOf(t).DeqSpin? then 1 else 0
  }

  /** None of those looks finds it. */
  ghost predicate InVain(states: seq<State>, movers: seq<Tid>, t: Tid, j: nat, k: nat)
    requires History(states, movers) && k < |states|
  {
    forall i {:trigger movers[i]} :: j <= i < k && movers[i] == t ==> NotYet(states[i], t)
  }

  predicate NotYet(s: State, t: Tid) {
    s.PcOf(t).DeqSpin? ==> s.At(s.PcOf(t).index).length < s.PcOf(t).len
  }

  /** The looks a call that is at `pc` has made. */
  predicate LooksAt(pc: Pc, looks: nat) {
    match pc
    case DeqSpin(_, _, spins) => 0 < spins && looks + spins == 64
    case DeqSave(_, _) => looks == 64
    case DeqReturned(error) => error == Pending ==> looks == 64
    case Slice(_, _, _) => true
    case Iter(_, _, _) => true
    case RelLength(_) => true
    case RelStore(_) => true
    case DeqStoreBack(_, error) => NothingThere(error)
    case _ => looks == 0
  }

  lemma {:induction false} LookStep(s: State, t: Tid, a: Action, looks: nat)
    requires Enabled(s, t, a) && InCallOrOut(s.PcOf(t)) && LooksAt(s.PcOf(t), looks)
    requires Apply(s, t, a).PcOf(t) != Idle
    ensures LooksAt(Apply(s, t, a).PcOf(t), looks + if s.PcOf(t).DeqSpin? then 1 else 0)
    ensures !Handed(Apply(s, t, a).PcOf(t)) ==> !Handed(s.PcOf(t)) && NotYet(s, t)
  {
    ControlFlow(s, t, a);
  }

  /** What a step means for the looks of a thread in a dequeuing call. */
  ghost predicate LookMove(s: State, s': State, u: Tid, t: Tid) {
    var pc, pc' := s.PcOf(t), s'.PcOf(t);
    if u != t then pc' == pc
    else
      && (forall looks: nat :: LooksAt(pc, looks) ==> LooksAt(pc', looks + if pc.DeqSpin? then 1 else 0))
      && (!Handed(pc') ==> !Handed(pc) && NotYet(s, t))
  }

  lemma {:induction false} LookRunMove(states: seq<State>, steps: seq<Step>, t: Tid, r: Resize, j: nat, k: nat, i: nat)
    requires Execution(states, steps) && j < i < k < |states| && CallOf(states, steps, t, StartDequeue(r), j, k)
    ensures LookMove(states[i], states[i + 1], steps[i].t, t)
  {
    InCallRunMove(states, steps, t, r, j, k, i);
    var s, s', a := states[i], states[i + 1], steps[i].a;
    if steps[i].t == t {
      forall looks: nat | LooksAt(s.PcOf(t), looks)
        ensures LooksAt(s'.PcOf(t), looks + if s.PcOf(t).DeqSpin? then 1 else 0)
      {
        LookStep(s, t, a, looks);
      }
      if !Handed(s'.PcOf(t)) {
        LookFails(s, t, a);
      }
    }
  }

  lemma {:induction false} LookFails(s: State, t: Tid, a: Action)
    requires Enabled(s, t, a) && InCallOrOut(s.PcOf(t)) && Apply(s, t, a).PcOf(t) != Idle
    requires !Handed(Apply(s, t, a).PcOf(t))
    ensures !Handed(s.PcOf(t)) && NotYet(s, t)
  {
    ControlFlow(s, t, a);
  }

  lemma {:induction false} LooksFrom(states: seq<State>, movers: seq<Tid>, t: Tid, j: nat, k: nat)
    requires History(states, movers) && j < k < |states|
    requires states[j].PcOf(t) == Idle && states[j + 1].PcOf(t).DeqLock?
    requires forall i {:trigger movers[i]} :: j < i < k ==> LookMove(states[i], states[i + 1], movers[i], t)
    ensures LooksAt(states[k].PcOf(t), Looks(states, movers, t, j, k))
    ensures !Handed(states[k].PcOf(t)) ==> InVain(states, movers, t, j, k)
    decreases k
  {
    if k == j + 1 {
      assert Looks(states, movers, t, j, j) == 0;
    } else {
      LooksFrom(states, movers, t, j, k - 1);
      assert LookMove(states[k - 1], states[k], movers[k - 1], t);
    }
  }

  /** `Pending` is answered only after sixty-four looks at the acknowledged length, each of which found it
      shorter than expected. */
  lemma {:induction false} PendingAfterLooks(states: seq<State>, steps: seq<Step>, t: Tid, r: Resize, j: nat, k: nat)
    requires Execution(states, steps) && k < |states| && CallOf(states, steps, t, StartDequeue(r), j, k)
    requires states[k].PcOf(t) == DeqReturned(Pending)
    ensures Looks(states, Movers(steps), t, j, k) == 64 && InVain(states, Movers(steps), t, j, k)
  {
    DequeueStarts(states[j], t, r);
    forall i {:trigger Movers(steps)[i]} | j < i < k
      ensures LookMove(states[i], states[i + 1], Movers(steps)[i], t)
    {
      LookRunMove(states, steps, t, r, j, k, i);
    }
    LooksFrom(states, Movers(steps), t, j, k);
  }
}

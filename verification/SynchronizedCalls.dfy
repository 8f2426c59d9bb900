/** With what a blocking call ends, in terms of the arguments it was started with. */
module SynchronizedCalls {
  import opened Options
  import opened Protocol
  import opened ProtocolInvariant
  import opened ProtocolSteps
  import opened ProtocolFlow
  import opened ProtocolCalls
  import opened Synchronized
  import opened SynchronizedInvariant
  import opened SynchronizedSteps
  import opened SynchronizedMoves
  import opened SynchronizedTheorems
  import opened SynchronizedBounds
  import A = AtomicWaker
  import L = WakerList

  /** The queue along a run. */
  function Queues(states: seq<Sys>): (qs: seq<State>)
    ensures |qs| == |states| && forall i :: 0 <= i < |states| ==> qs[i] == states[i].q
  {
    seq(|states|, i requires 0 <= i < |states| => states[i].q)
  }

  function Threads(turns: seq<Turn>): (movers: seq<Tid>)
    ensures |movers| == |turns| && forall i :: 0 <= i < |turns| ==> movers[i] == turns[i].t
  {
    seq(|turns|, i requires 0 <= i < |turns| => turns[i].t)
  }

  lemma {:induction false} SyncElsewhere(s: Sys, t: Tid, m: Move, u: Tid)
    requires MoveEnabled(s, t, m) && u != t
    ensures MoveStep(s, t, m).SyncOf(u) == s.SyncOf(u)
  {
  }

  // ---------------------------------------------------------------- non-blocking calls inside a run

  lemma {:induction false} NotifyMeans(s: Sys, t: Tid, v: seq<Value>)
    requires Inv(s.q) && MoveEnabled(s, t, NotifyMove) && InEnqueue(s.q.PcOf(t), v)
    ensures EnqueueMove(s.q, NotifyStep(s, t).q, t, t, v)
  {
    if NotifyStep(s, t).q != s.q {
      EnqueueStepEffect(s.q, t, Advance, v);
    }
  }

  /** Every other move leaves the queue as it is, or would end the call. */
  lemma {:induction false} OtherMeans(s: Sys, t: Tid, m: Move, v: seq<Value>)
    requires Linked(s, t) && MoveEnabled(s, t, m) && InEnqueue(s.q.PcOf(t), v) && !m.QueueMove? && !m.NotifyMove?
    requires MoveStep(s, t, m).q.PcOf(t) != Idle
    ensures MoveStep(s, t, m).q == s.q && !s.q.PcOf(t).EnqReturned?
  {
    OnlyWakers(s, t, m, v);
  }

  lemma {:induction false} OnlyWakers(s: Sys, t: Tid, m: Move, v: seq<Value>)
    requires Linked(s, t) && MoveEnabled(s, t, m) && InEnqueue(s.q.PcOf(t), v) && !m.QueueMove? && !m.NotifyMove?
    requires m.ResumeMove? ==> ResumeStep(s, t).q.PcOf(t) != Idle
    ensures (m.WakerMove? || m.ListMove?) && !s.q.PcOf(t).EnqReturned?
  {
  }

  lemma {:induction false} OwnMoveMeans(s: Sys, t: Tid, m: Move, v: seq<Value>)
    requires Inv(s.q) && Linked(s, t) && MoveEnabled(s, t, m) && InEnqueue(s.q.PcOf(t), v)
    requires MoveStep(s, t, m).q.PcOf(t) != Idle
    ensures EnqueueMove(s.q, MoveStep(s, t, m).q, t, t, v)
  {
    if m.NotifyMove? {
      NotifyMeans(s, t, v);
    } else if !m.QueueMove? {
      OtherMeans(s, t, m, v);
    } else if !s.q.PcOf(t).EnqReturned? {
      EnqueueStepEffect(s.q, t, m.a, v);
    }
  }

  lemma {:induction false} MoveMeans(s: Sys, u: Tid, m: Move, t: Tid, v: seq<Value>)
    requires SysInv(s) && MoveEnabled(s, u, m) && InEnqueue(s.q.PcOf(t), v)
    requires MoveStep(s, u, m).q.PcOf(t) != Idle
    ensures EnqueueMove(s.q, MoveStep(s, u, m).q, u, t, v)
  {
    if u == t {
      ThreadLinked(s, t);
      OwnMoveMeans(s, t, m, v);
    } else {
      QueueElsewhere(s, u, m, t);
    }
  }

  // ---------------------------------------------------------------- a blocking enqueue, move by move

  /** The thread is in a blocking enqueue. */
  predicate Waits(sp: SyncPc) {
    || sp.ESpin? || sp.ESpinCall? || sp.ESpinCheck? || sp.ERegister? || sp.ERetry? || sp.ERetryCall?
    || sp.ERetryCheck? || sp.EPark?
  }

  /** A `try_enqueue` of `v` starts. */
  ghost predicate Starts(q: State, q': State, t: Tid, v: seq<Value>) {
    q'.log == q.log && q'.PcOf(t) == if v == [] then EnqReturned(EnqueueOk) else EnqLoad(v)
  }

  /** It goes on, or comes back: as `again` if there was no room, and for good otherwise. */
  ghost predicate CallGoesOn(s: Sys, s': Sys, t: Tid, v: seq<Value>, again: SyncPc) {
    || (s'.SyncOf(t) == s.SyncOf(t) && s'.q.PcOf(t) != Idle && EnqueueMove(s.q, s'.q, t, t, v))
    || (s.q.PcOf(t).EnqReturned? && s'.q.PcOf(t) == Idle && s'.q.log == s.q.log
        && s'.SyncOf(t) == if s.q.PcOf(t).result == InsufficientCapacity then again else Free)
  }

  /** What a move of a thread in a blocking enqueue does. */
  ghost predicate EnqueuerEffect(s: Sys, s': Sys, t: Tid, deadline: bool) {
    var sp' := s'.SyncOf(t);
    match s.SyncOf(t)
    case ESpin(n, v) => sp' == ESpinCall(n, v) && Starts(s.q, s'.q, t, v)
    case ESpinCall(n, v) => CallGoesOn(s, s', t, v, ESpinCheck(n, v))
    case ESpinCheck(n, v) =>
      s'.q == s.q && sp' == if |v| > s.q.capacity then Free else if n > 1 then ESpin(n - 1, v) else ERegister(v)
    case ERegister(v) => s'.q == s.q && (sp' == ERegister(v) || sp' == ERetry(v))
    case ERetry(v) => sp' == ERetryCall(v) && Starts(s.q, s'.q, t, v)
    case ERetryCall(v) => CallGoesOn(s, s', t, v, ERetryCheck(v))
    case ERetryCheck(v) => s'.q == s.q && sp' == if |v| > s.q.capacity then Free else EPark(v)
    case EPark(v) =>
      if deadline then sp' == Free && Starts(s.q, s'.q, t, v)
      else s'.q == s.q && sp' == ESpin(SPIN_LIMIT, v)
    case _ => false
  }

  lemma {:induction false} InCallEffect(s: Sys, t: Tid, m: Move)
    requires Inv(s.q) && Linked(s, t) && MoveEnabled(s, t, m) && (s.SyncOf(t).ESpinCall? || s.SyncOf(t).ERetryCall?)
    ensures EnqueuerEffect(s, MoveStep(s, t, m), t, m.Deadline?)
  {
    var s', v := MoveStep(s, t, m), s.SyncOf(t).value;
    if !m.ResumeMove? {
      StaysInCall(s, t, m);
      OwnMoveMeans(s, t, m, v);
    } else {
      Resumes(s, t);
    }
  }

  lemma {:induction false} StaysInCall(s: Sys, t: Tid, m: Move)
    requires Linked(s, t) && MoveEnabled(s, t, m) && (s.SyncOf(t).ESpinCall? || s.SyncOf(t).ERetryCall?)
    requires !m.ResumeMove?
    ensures MoveStep(s, t, m).SyncOf(t) == s.SyncOf(t) && MoveStep(s, t, m).q.PcOf(t) != Idle
    ensures InEnqueue(s.q.PcOf(t), s.SyncOf(t).value)
  {
    if m.QueueMove? {
      ControlFlow(s.q, t, m.a);
    } else if m.NotifyMove? && MoveStep(s, t, m).q != s.q {
      ControlFlow(s.q, t, Advance);
    }
  }

  lemma {:induction false} Resumes(s: Sys, t: Tid)
    requires ResumeEnabled(s, t) && (s.SyncOf(t).ESpinCall? || s.SyncOf(t).ERetryCall?)
    ensures EnqueuerEffect(s, ResumeStep(s, t), t, false)
  {
  }

  lemma {:induction false} OutOfCallEffect(s: Sys, t: Tid, m: Move)
    requires Linked(s, t) && MoveEnabled(s, t, m) && Waits(s.SyncOf(t))
    requires !s.SyncOf(t).ESpinCall? && !s.SyncOf(t).ERetryCall?
    ensures EnqueuerEffect(s, MoveStep(s, t, m), t, m.Deadline?)
  {
  }

  // ---------------------------------------------------------------- a blocking enqueue, from its start

  /** At `c` it was told that there is no room, and it has not moved since. */
  ghost predicate RefusedAt(qs: seq<State>, movers: seq<Tid>, t: Tid, v: seq<Value>, j: nat, k: nat, m: nat, n: nat,
      c: nat)
    requires History(qs, movers) && k < |qs|
  {
    && Last(movers, t, j, c, k) && qs[c].PcOf(t) == EnqReturned(InsufficientCapacity)
    && Outcome(qs, movers, t, v, j, c, m, n, InsufficientCapacity)
  }

  /** How far a blocking enqueue of `v` that began at `j` has come at `k`, where it is at `sp`. */
  ghost predicate Waited(qs: seq<State>, movers: seq<Tid>, t: Tid, v: seq<Value>, j: nat, k: nat, m: nat, n: nat,
      c: nat, sp: SyncPc)
    requires History(qs, movers) && k < |qs|
  {
    && Waits(sp) && sp.value == v
    && if sp.ESpinCall? || sp.ERetryCall? then Enqueues(qs, movers, t, v, j, k, m, n)
       else
         && Silent(qs, movers, t, j, k)
         && (sp.ESpinCheck? || sp.ERetryCheck? ==> RefusedAt(qs, movers, t, v, j, k, m, n, c))
  }

  /** What a move of thread `u` means for a thread `t` in a blocking enqueue. */
  ghost predicate WaitMove(s: Sys, s': Sys, u: Tid, t: Tid, deadline: bool) {
    if u != t then s'.SyncOf(t) == s.SyncOf(t) && s'.q.PcOf(t) == s.q.PcOf(t)
    else EnqueuerEffect(s, s', t, deadline)
  }

  lemma {:induction false} WaitedMeanwhile(qs: seq<State>, movers: seq<Tid>, t: Tid, v: seq<Value>, j: nat, k: nat,
      m: nat, n: nat, c: nat, sp: SyncPc)
    requires History(qs, movers) && j < k < |movers| && Waited(qs, movers, t, v, j, k, m, n, c, sp)
    requires movers[k] != t && qs[k + 1].PcOf(t) == qs[k].PcOf(t)
    ensures Waited(qs, movers, t, v, j, k + 1, m, n, c, sp)
  {
    if sp.ESpinCall? || sp.ERetryCall? {
      EnqueuesMeanwhile(qs, movers, t, v, j, k, m, n);
    }
  }

  lemma {:induction false} StartedAt(qs: seq<State>, movers: seq<Tid>, t: Tid, v: seq<Value>, j: nat, k: nat)
    requires History(qs, movers) && j < k < |movers| && Silent(qs, movers, t, j, k)
    requires movers[k] == t && Starts(qs[k], qs[k + 1], t, v)
    ensures Enqueues(qs, movers, t, v, j, k + 1, 0, 0)
  {
  }

  /** The result of a call that did not get the value in: nothing has been added to the log. */
  lemma {:induction false} RefusedSilently(qs: seq<State>, movers: seq<Tid>, t: Tid, v: seq<Value>, j: nat, k: nat,
      m: nat, n: nat)
    requires History(qs, movers) && j < k < |movers| && Enqueues(qs, movers, t, v, j, k, m, n)
    requires qs[k].PcOf(t) == EnqReturned(InsufficientCapacity) && movers[k] == t && qs[k + 1].log == qs[k].log
    ensures Silent(qs, movers, t, j, k + 1) && RefusedAt(qs, movers, t, v, j, k + 1, m, n, k)
  {
  }

  lemma {:induction false} WaitedCall(qs: seq<State>, movers: seq<Tid>, t: Tid, v: seq<Value>, j: nat, k: nat,
      m: nat, n: nat, c: nat, s: Sys, s': Sys, again: SyncPc) returns (m': nat, n': nat, c': nat)
    requires History(qs, movers) && j < k < |movers| && qs[k] == s.q && qs[k + 1] == s'.q && movers[k] == t
    requires Waited(qs, movers, t, v, j, k, m, n, c, s.SyncOf(t))
    requires s.SyncOf(t).ESpinCall? || s.SyncOf(t).ERetryCall?
    requires (again.ESpinCheck? || again.ERetryCheck?) && again.value == v
    requires CallGoesOn(s, s', t, v, again) && s'.SyncOf(t) != Free
    ensures Waited(qs, movers, t, v, j, k + 1, m', n', c', s'.SyncOf(t))
  {
    m', n', c' := m, n, c;
    if s'.q.PcOf(t) == Idle {
      c' := k;
      RefusedSilently(qs, movers, t, v, j, k, m, n);
    } else {
      m', n' := EnqueuesOn(qs, movers, t, v, j, k, m, n);
    }
  }

  lemma {:induction false} WaitedOn(qs: seq<State>, movers: seq<Tid>, t: Tid, v: seq<Value>, j: nat, k: nat,
      m: nat, n: nat, c: nat, s: Sys, s': Sys, deadline: bool) returns (m': nat, n': nat, c': nat)
    requires History(qs, movers) && j < k < |movers| && qs[k] == s.q && qs[k + 1] == s'.q
    requires Waited(qs, movers, t, v, j, k, m, n, c, s.SyncOf(t))
    requires WaitMove(s, s', movers[k], t, deadline) && s'.SyncOf(t) != Free
    ensures Waited(qs, movers, t, v, j, k + 1, m', n', c', s'.SyncOf(t))
  {
    m', n', c' := m, n, c;
    if movers[k] != t {
      WaitedMeanwhile(qs, movers, t, v, j, k, m, n, c, s.SyncOf(t));
    } else {
      match s.SyncOf(t)
      case ESpinCall(i, _) => m', n', c' := WaitedCall(qs, movers, t, v, j, k, m, n, c, s, s', ESpinCheck(i, v));
      case ERetryCall(_) => m', n', c' := WaitedCall(qs, movers, t, v, j, k, m, n, c, s, s', ERetryCheck(v));
      case ESpin(_, _) => m', n' := 0, 0; StartedAt(qs, movers, t, v, j, k);
      case ERetry(_) => m', n' := 0, 0; StartedAt(qs, movers, t, v, j, k);
      case _ =>
    }
  }

  // ---------------------------------------------------------------- ... in every run

  lemma {:induction false} WaitTurn(s: Sys, u: Tid, m: Move, t: Tid)
    requires SysInv(s) && MoveEnabled(s, u, m) && Waits(s.SyncOf(t))
    ensures WaitMove(s, MoveStep(s, u, m), u, t, m.Deadline?)
  {
    if u != t {
      QueueElsewhere(s, u, m, t);
      SyncElsewhere(s, u, m, t);
    } else {
      ThreadLinked(s, t);
      if s.SyncOf(t).ESpinCall? || s.SyncOf(t).ERetryCall? {
        InCallEffect(s, t, m);
      } else {
        OutOfCallEffect(s, t, m);
      }
    }
  }

  ghost predicate WaitLink(s: Sys, s': Sys, turn: Turn, t: Tid) {
    Waits(s.SyncOf(t)) ==> WaitMove(s, s', turn.t, t, turn.m.Deadline?)
  }

  lemma {:induction false} WaitRunTurn(states: seq<Sys>, turns: seq<Turn>, t: Tid, k: nat)
    requires Run(states, turns) && k < |turns|
    ensures WaitLink(states[k], states[k + 1], turns[k], t)
  {
    RunInv(states, turns, k);
    if Waits(states[k].SyncOf(t)) {
      WaitTurn(states[k], turns[k].t, turns[k].m, t);
    }
  }

  lemma {:induction false} WaitedFrom(states: seq<Sys>, turns: seq<Turn>, t: Tid, v: seq<Value>, j: nat, k: nat)
    returns (m: nat, n: nat, c: nat)
    requires |states| == |turns| + 1 && j < k < |states|
    requires states[j + 1].q.log == states[j].q.log && states[j + 1].SyncOf(t) == ESpin(SPIN_LIMIT, v)
    requires forall i :: j < i <= k ==> states[i].SyncOf(t) != Free
    requires forall i {:trigger turns[i]} :: j < i < k ==> WaitLink(states[i], states[i + 1], turns[i], t)
    ensures Waited(Queues(states), Threads(turns), t, v, j, k, m, n, c, states[k].SyncOf(t))
  {
    var qs, movers := Queues(states), Threads(turns);
    if k == j + 1 {
      m, n, c := 0, 0, 0;
    } else {
      m, n, c := WaitedFrom(states, turns, t, v, j, k - 1);
      assert WaitLink(states[k - 1], states[k], turns[k - 1], t);
      m, n, c := WaitedOn(qs, movers, t, v, j, k - 1, m, n, c, states[k - 1], states[k], turns[k - 1].m.Deadline?);
    }
  }

  /** Thread `t` begins a blocking call at turn `j` and is still in it in state `k`. */
  ghost predicate BlockedIn(states: seq<Sys>, turns: seq<Turn>, t: Tid, m: Move, j: nat, k: nat)
    requires |states| == |turns| + 1
  {
    j < k < |states| && turns[j] == Turn(t, m) && forall i :: j < i <= k ==> states[i].SyncOf(t) != Free
  }

  lemma {:induction false} BlockingEnqueue(states: seq<Sys>, turns: seq<Turn>, t: Tid, v: seq<Value>, j: nat, k: nat)
    returns (m: nat, n: nat, c: nat)
    requires Run(states, turns) && BlockedIn(states, turns, t, BeginEnqueue(v), j, k)
    ensures Waited(Queues(states), Threads(turns), t, v, j, k, m, n, c, states[k].SyncOf(t))
  {
    forall i {:trigger turns[i]} | j < i < k ensures WaitLink(states[i], states[i + 1], turns[i], t) {
      WaitRunTurn(states, turns, t, i);
    }
    m, n, c := WaitedFrom(states, turns, t, v, j, k);
  }

  /** What a blocking enqueue of `v` that began at `j` may end with at turn `k`: the value is accepted, once and
      as a whole; or the queue is closed; or it was told that there is no room and then found the value larger
      than the whole queue; or its deadline is over and one last `try_enqueue` of the same value starts. */
  ghost predicate EnqueueEnds(states: seq<Sys>, turns: seq<Turn>, t: Tid, v: seq<Value>, j: nat, k: nat, m: nat,
      n: nat, c: nat)
    requires |states| == |turns| + 1 && k < |turns|
  {
    var qs, movers := Queues(states), Threads(turns);
    if turns[k].m.Deadline? then
      states[k].SyncOf(t).EPark? && Enqueues(qs, movers, t, v, j, k + 1, m, n)
    else match qs[k].PcOf(t)
      case EnqReturned(EnqueueOk) => Outcome(qs, movers, t, v, j, k, m, n, EnqueueOk)
      case EnqReturned(EnqueueClosed) => Outcome(qs, movers, t, v, j, k, m, n, EnqueueClosed)
      case Idle => RefusedAt(qs, movers, t, v, j, k, m, n, c) && |v| > qs[k].capacity
      case _ => false
  }

  lemma {:induction false} EndsBy(states: seq<Sys>, turns: seq<Turn>, t: Tid, v: seq<Value>, j: nat, k: nat, m: nat,
      n: nat, c: nat)
    requires |states| == |turns| + 1 && j < k < |turns|
    requires Waited(Queues(states), Threads(turns), t, v, j, k, m, n, c, states[k].SyncOf(t))
    requires WaitLink(states[k], states[k + 1], turns[k], t) && states[k + 1].SyncOf(t) == Free
    requires states[k].SyncOf(t).ESpinCheck? || states[k].SyncOf(t).ERetryCheck? ==> states[k].q.PcOf(t) == Idle
    requires turns[k].m.Deadline? && turns[k].t == t ==> states[k].SyncOf(t).EPark?
    ensures turns[k].t == t
    ensures EnqueueEnds(states, turns, t, v, j, k, if turns[k].m.Deadline? then 0 else m,
                        if turns[k].m.Deadline? then 0 else n, c)
  {
    if turns[k].m.Deadline? {
      StartedAt(Queues(states), Threads(turns), t, v, j, k);
    }
  }

  /** In every run a blocking enqueue ends in one of these ways, and by a move of its own. */
  lemma {:induction false} BlockingEnqueueEnds(states: seq<Sys>, turns: seq<Turn>, t: Tid, v: seq<Value>, j: nat,
      k: nat) returns (m: nat, n: nat, c: nat)
    requires Run(states, turns) && k < |turns| && BlockedIn(states, turns, t, BeginEnqueue(v), j, k)
    requires states[k + 1].SyncOf(t) == Free
    ensures turns[k].t == t && EnqueueEnds(states, turns, t, v, j, k, m, n, c)
  {
    m, n, c := BlockingEnqueue(states, turns, t, v, j, k);
    WaitRunTurn(states, turns, t, k);
    AtTurn(states, turns, t, k);
    EndsBy(states, turns, t, v, j, k, m, n, c);
    if turns[k].m.Deadline? {
      m, n := 0, 0;
    }
  }

  lemma {:induction false} AtTurn(states: seq<Sys>, turns: seq<Turn>, t: Tid, k: nat)
    requires Run(states, turns) && k < |turns| && Waits(states[k].SyncOf(t))
    ensures states[k].SyncOf(t).ESpinCheck? || states[k].SyncOf(t).ERetryCheck? ==> states[k].q.PcOf(t) == Idle
    ensures turns[k].m.Deadline? && turns[k].t == t ==> states[k].SyncOf(t).EPark?
  {
    RunInv(states, turns, k);
    AtMove(states[k], turns[k].t, turns[k].m, t);
  }

  lemma {:induction false} AtMove(s: Sys, u: Tid, m: Move, t: Tid)
    requires SysInv(s) && MoveEnabled(s, u, m) && Waits(s.SyncOf(t))
    ensures s.SyncOf(t).ESpinCheck? || s.SyncOf(t).ERetryCheck? ==> s.q.PcOf(t) == Idle
    ensures m.Deadline? && u == t ==> s.SyncOf(t).EPark?
  {
    ThreadLinked(s, t);
  }

  lemma {:induction false} EnqueueTurn(states: seq<Sys>, turns: seq<Turn>, t: Tid, v: seq<Value>, k: nat)
    requires Run(states, turns) && k < |turns|
    ensures EnqueueLink(states[k].q, states[k + 1].q, turns[k].t, t, v)
  {
    RunInv(states, turns, k);
    if InEnqueue(states[k].q.PcOf(t), v) && states[k + 1].q.PcOf(t) != Idle {
      MoveMeans(states[k], turns[k].t, turns[k].m, t, v);
    }
  }

  /** A `try_enqueue` inside a run, such as the last one after a deadline, ends as one of the value it started
      with. */
  lemma {:induction false} EnqueueInRun(states: seq<Sys>, turns: seq<Turn>, t: Tid, v: seq<Value>, j: nat, c: nat,
      k: nat, m: nat, n: nat) returns (m': nat, n': nat)
    requires Run(states, turns) && j <= c <= k < |states|
    requires Enqueues(Queues(states), Threads(turns), t, v, j, c, m, n)
    requires forall i :: c <= i <= k ==> states[i].q.PcOf(t) != Idle
    ensures Enqueues(Queues(states), Threads(turns), t, v, j, k, m', n')
  {
    forall i {:trigger Threads(turns)[i]} | c <= i < k
      ensures EnqueueLink(Queues(states)[i], Queues(states)[i + 1], Threads(turns)[i], t, v)
    {
      EnqueueTurn(states, turns, t, v, i);
    }
    m', n' := EnqueueFrom(Queues(states), Threads(turns), t, v, j, c, k, m, n);
  }

  // ---------------------------------------------------------------- a blocking dequeue

  lemma {:induction false} FetchingStays(s: Sys, u: Tid, m: Move, t: Tid)
    requires MoveEnabled(s, u, m) && Dequeues(s.SyncOf(t))
    ensures var sp' := MoveStep(s, u, m).SyncOf(t);
            sp' == Free || Dequeues(sp')
  {
    if u != t {
      SyncElsewhere(s, u, m, t);
    }
  }

  lemma {:induction false} Fetching(states: seq<Sys>, turns: seq<Turn>, t: Tid, j: nat, k: nat)
    requires Run(states, turns) && BlockedIn(states, turns, t, BeginDequeue, j, k)
    ensures Dequeues(states[k].SyncOf(t))
  {
    if k > j + 1 {
      Fetching(states, turns, t, j, k - 1);
      FetchingStays(states[k - 1], turns[k - 1].t, turns[k - 1].m, t);
    }
  }

  /** What a blocking dequeue may end with: a slice, `Closed` or `Conflict`, or its deadline is over and one last
      `try_dequeue` starts. */
  ghost predicate DequeueEnds(s: Sys, s': Sys, turn: Turn) {
    var pc, pc' := s.q.PcOf(turn.t), s'.q.PcOf(turn.t);
    if turn.m.Deadline? then pc' == DeqLock(NoResize)
    else if pc.Slice? then pc' == pc
    else (pc == DeqReturned(Closed) || pc == DeqReturned(Conflict)) && pc' == Idle
  }

  lemma {:induction false} AnswerOf(s: Sys, t: Tid)
    requires Linked(s, t) && ResumeEnabled(s, t) && (s.SyncOf(t).DSpinCall? || s.SyncOf(t).DRetryCall?)
    ensures s.q.PcOf(t).DeqReturned? || s.q.PcOf(t).Slice?
    ensures !NoUse(s.q.PcOf(t)) && s.q.PcOf(t).DeqReturned? ==>
              s.q.PcOf(t) == DeqReturned(Closed) || s.q.PcOf(t) == DeqReturned(Conflict)
  {
    if s.q.PcOf(t).DeqReturned? {
      match s.q.PcOf(t).error
      case Empty => assert NoUse(s.q.PcOf(t));
      case Pending => assert NoUse(s.q.PcOf(t));
      case _ =>
    }
  }

  lemma {:induction false} FetchingResumes(s: Sys, t: Tid)
    requires Linked(s, t) && ResumeEnabled(s, t) && Dequeues(s.SyncOf(t)) && ResumeStep(s, t).SyncOf(t) == Free
    ensures DequeueEnds(s, ResumeStep(s, t), Turn(t, ResumeMove))
  {
    assert s.SyncOf(t).DSpinCall? || s.SyncOf(t).DRetryCall?;
    AnswerOf(s, t);
  }

  lemma {:induction false} FetchingGivesUp(s: Sys, t: Tid, m: Move)
    requires Linked(s, t) && MoveEnabled(s, t, m) && Dequeues(s.SyncOf(t)) && MoveStep(s, t, m).SyncOf(t) == Free
    requires !m.ResumeMove?
    ensures DequeueEnds(s, MoveStep(s, t, m), Turn(t, m))
  {
    assert m.Deadline? && s.SyncOf(t).DPark?;
  }

  lemma {:induction false} FetchingEnds(s: Sys, u: Tid, m: Move, t: Tid)
    requires SysInv(s) && MoveEnabled(s, u, m) && Dequeues(s.SyncOf(t)) && MoveStep(s, u, m).SyncOf(t) == Free
    ensures u == t && DequeueEnds(s, MoveStep(s, u, m), Turn(u, m))
  {
    if u != t {
      SyncElsewhere(s, u, m, t);
    } else {
      ThreadLinked(s, t);
      if m.ResumeMove? { FetchingResumes(s, t); } else { FetchingGivesUp(s, t, m); }
    }
  }

  /** In every run a blocking dequeue ends in one of these ways, and by a move of its own: never with `Empty`, and
      never with `Pending`. */
  lemma {:induction false} BlockingDequeueEnds(states: seq<Sys>, turns: seq<Turn>, t: Tid, j: nat, k: nat)
    requires Run(states, turns) && k < |turns| && BlockedIn(states, turns, t, BeginDequeue, j, k)
    requires states[k + 1].SyncOf(t) == Free
    ensures turns[k].t == t && DequeueEnds(states[k], states[k + 1], turns[k])
  {
    Fetching(states, turns, t, j, k);
    RunInv(states, turns, k);
    FetchingEnds(states[k], turns[k].t, turns[k].m, t);
  }

  // ---------------------------------------------------------------- an attempt ends the call, or not

  /** The answers on which a blocking call goes on waiting. */
  predicate NoUse(pc: Pc) {
    pc == DeqReturned(Empty) || pc == DeqReturned(Pending) || pc == EnqReturned(InsufficientCapacity)
  }

  /** In every run a blocking call whose attempt has come back goes on exactly if it got nowhere. */
  lemma {:induction false} GoesOnIffNoUse(states: seq<Sys>, turns: seq<Turn>, k: nat)
    requires Run(states, turns) && k < |turns| && turns[k].m == ResumeMove
    requires var sp := states[k].SyncOf(turns[k].t);
             sp.DSpinCall? || sp.DRetryCall? || sp.ESpinCall? || sp.ERetryCall?
    ensures states[k + 1].SyncOf(turns[k].t) != Free <==> NoUse(states[k].q.PcOf(turns[k].t))
  {
  }
}

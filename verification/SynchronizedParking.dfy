/** When a blocking call parks, and what wakes it up. */
module SynchronizedParking {
  import opened Options
  import opened Protocol
  import opened Synchronized
  import opened SynchronizedCalls
  import A = AtomicWaker
  import L = WakerList

  // ---------------------------------------------------------------- how often it tries before it parks

  /** The attempts of `t` from turn `j` to turn `k`. */
  function Attempts(turns: seq<Turn>, t: Tid, j: nat, k: nat): nat
    requires j <= k <= |turns|
    decreases k
  {
    if k == j then 0 else Attempts(turns, t, j, k - 1) + if turns[k - 1] == Turn(t, CallMove) then 1 else 0
  }

  /** The attempts a blocking call that is at `sp` has made since it began or was last woken. */
  predicate AttemptsAt(sp: SyncPc, attempts: nat) {
    match sp
    case DSpin(n) => 0 < n && attempts + n == 64
    case ESpin(n, _) => 0 < n && attempts + n == 64
    case DSpinCall(n) => 0 < n && attempts + n == 65
    case ESpinCall(n, _) => 0 < n && attempts + n == 65
    case ESpinCheck(n, _) => 0 < n && attempts + n == 65
    case DRegister => attempts == 64
    case ERegister(_) => attempts == 64
    case DRetry => attempts == 64
    case ERetry(_) => attempts == 64
    case Free => true
    case _ => attempts == 65
  }

  /** The move begins a blocking call, or wakes a parked thread up. */
  predicate Begins(m: Move) {
    m.BeginDequeue? || m.BeginEnqueue? || m.WakeUp?
  }

  lemma {:induction false} AttemptStep(s: Sys, u: Tid, m: Move, t: Tid, attempts: nat)
    requires MoveEnabled(s, u, m) && AttemptsAt(s.SyncOf(t), attempts) && !(u == t && Begins(m))
    ensures AttemptsAt(MoveStep(s, u, m).SyncOf(t), attempts + if u == t && m == CallMove then 1 else 0)
  {
    if u != t {
      SyncElsewhere(s, u, m, t);
    }
  }

  lemma {:induction false} AttemptsBegin(s: Sys, t: Tid, m: Move)
    requires MoveEnabled(s, t, m) && Begins(m)
    ensures AttemptsAt(MoveStep(s, t, m).SyncOf(t), 0)
  {
  }

  lemma {:induction false} StillBlocked(s: Sys, u: Tid, m: Move, t: Tid)
    requires MoveEnabled(s, u, m) && MoveStep(s, u, m).SyncOf(t) != Free && !(u == t && Begins(m))
    ensures s.SyncOf(t) != Free
  {
    if u != t {
      SyncElsewhere(s, u, m, t);
    }
  }

  /** What a turn means for the attempts of `t`. */
  ghost predicate AttemptLink(s: Sys, s': Sys, turn: Turn, t: Tid) {
    if turn.t == t && Begins(turn.m) then AttemptsAt(s'.SyncOf(t), 0)
    else
      && (s'.SyncOf(t) != Free ==> s.SyncOf(t) != Free)
      && (forall n: nat :: AttemptsAt(s.SyncOf(t), n) ==>
           AttemptsAt(s'.SyncOf(t), n + if turn == Turn(t, CallMove) then 1 else 0))
  }

  lemma {:induction false} AttemptTurn(s: Sys, u: Tid, m: Move, t: Tid)
    requires MoveEnabled(s, u, m)
    ensures AttemptLink(s, MoveStep(s, u, m), Turn(u, m), t)
  {
    if u == t && Begins(m) {
      AttemptsBegin(s, t, m);
    } else {
      if MoveStep(s, u, m).SyncOf(t) != Free {
        StillBlocked(s, u, m, t);
      }
      forall n: nat | AttemptsAt(s.SyncOf(t), n)
        ensures AttemptsAt(MoveStep(s, u, m).SyncOf(t), n + if Turn(u, m) == Turn(t, CallMove) then 1 else 0)
      {
        AttemptStep(s, u, m, t, n);
      }
    }
  }

  lemma {:induction false} AttemptRunTurn(states: seq<Sys>, turns: seq<Turn>, t: Tid, k: nat)
    requires Run(states, turns) && k < |turns|
    ensures AttemptLink(states[k], states[k + 1], turns[k], t)
  {
    AttemptTurn(states[k], turns[k].t, turns[k].m, t);
  }

  lemma {:induction false} AttemptsSince(states: seq<Sys>, turns: seq<Turn>, t: Tid, k: nat) returns (j: nat)
    requires |states| == |turns| + 1 && k < |states| && states[0].SyncOf(t) == Free && states[k].SyncOf(t) != Free
    requires forall i {:trigger turns[i]} :: 0 <= i < |turns| ==> AttemptLink(states[i], states[i + 1], turns[i], t)
    ensures j < k && turns[j].t == t && Begins(turns[j].m)
    ensures forall i :: j < i < k && turns[i].t == t ==> !Begins(turns[i].m)
    ensures AttemptsAt(states[k].SyncOf(t), Attempts(turns, t, j + 1, k))
  {
    assert AttemptLink(states[k - 1], states[k], turns[k - 1], t);
    if turns[k - 1].t == t && Begins(turns[k - 1].m) {
      j := k - 1;
      assert Attempts(turns, t, k, k) == 0;
    } else {
      j := AttemptsSince(states, turns, t, k - 1);
    }
  }

  /** In every run a thread that is parked has made, since it began its blocking call or was last woken, sixty-five
      attempts: sixty-four before it registered, and one after. */
  lemma {:induction false} ParksAfterAttempts(states: seq<Sys>, turns: seq<Turn>, t: Tid, k: nat) returns (j: nat)
    requires Run(states, turns) && k < |states| && (states[k].SyncOf(t).DPark? || states[k].SyncOf(t).EPark?)
    ensures j < k && turns[j].t == t && Begins(turns[j].m)
    ensures forall i :: j < i < k && turns[i].t == t ==> !Begins(turns[i].m)
    ensures Attempts(turns, t, j + 1, k) == 65
  {
    forall i {:trigger turns[i]} | 0 <= i < |turns| ensures AttemptLink(states[i], states[i + 1], turns[i], t) {
      AttemptRunTurn(states, turns, t, i);
    }
    j := AttemptsSince(states, turns, t, k);
  }

  // ---------------------------------------------------------------- park tokens

  /** The turn unparks `t`: it is the move of a wake-up, a registration or a drain that does. */
  predicate UnparksAt(s: Sys, turn: Turn, t: Tid) {
    || (turn.m.WakerMove? && A.Unparks(turn.t, s.waker.PcOf(turn.t)) == Some(t))
    || (turn.m.ListMove? && L.Unparks(s.list, s.list.PcOf(turn.t)) == Some(t))
  }

  /** Whether `t` has been unparked up to `k` and has not woken up since. */
  function Unparked(states: seq<Sys>, turns: seq<Turn>, t: Tid, k: nat): bool
    requires k <= |turns| < |states|
  {
    k > 0
    && (UnparksAt(states[k - 1], turns[k - 1], t)
        || (turns[k - 1] != Turn(t, WakeUp) && Unparked(states, turns, t, k - 1)))
  }

  lemma {:induction false} TokenStep(s: Sys, u: Tid, m: Move, t: Tid)
    requires MoveEnabled(s, u, m)
    ensures t in MoveStep(s, u, m).tokens
            <==> UnparksAt(s, Turn(u, m), t) || (Turn(u, m) != Turn(t, WakeUp) && t in s.tokens)
  {
  }

  /** In every run a thread has its park token exactly if it has been unparked since it last woke up. */
  lemma {:induction false} TokenIsLastUnpark(states: seq<Sys>, turns: seq<Turn>, t: Tid, k: nat)
    requires Run(states, turns) && k < |states|
    ensures t in states[k].tokens <==> Unparked(states, turns, t, k)
  {
    if k > 0 {
      TokenIsLastUnpark(states, turns, t, k - 1);
      TokenStep(states[k - 1], turns[k - 1].t, turns[k - 1].m, t);
    }
  }
}

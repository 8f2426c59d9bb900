/** How long wake-ups that are due can take: over a whole run, the moves of the threads that complete one are
    bounded by what the first of them had left to do. */
module SynchronizedBounds {
  import opened Options
  import opened Protocol
  import opened ProtocolInvariant
  import opened ProtocolSteps
  import opened ProtocolFlow
  import opened Synchronized
  import opened SynchronizedInvariant
  import opened SynchronizedSteps
  import opened SynchronizedMoves
  import opened SynchronizedTheorems
  import opened SynchronizedProgress
  import A = AtomicWaker
  import L = WakerList

  // ---------------------------------------------------------------- what a move of another thread leaves alone

  lemma {:induction false} QueueElsewhere(s: Sys, t: Tid, m: Move, u: Tid)
    requires MoveEnabled(s, t, m) && u != t
    ensures MoveStep(s, t, m).q.PcOf(u) == s.q.PcOf(u)
  {
    if m.QueueMove? {
      OnlyMover(s.q, t, m.a, u);
    } else if MoveStep(s, t, m).q != s.q {
      match m
      case NotifyMove => OnlyMover(s.q, t, Advance, u);
      case ResumeMove => OnlyMover(s.q, t, Advance, u);
      case CallMove =>
        OnlyMover(s.q, t, if s.SyncOf(t).DSpin? || s.SyncOf(t).DRetry? then StartDequeue(NoResize)
                          else StartEnqueue(s.SyncOf(t).value), u);
      case Deadline =>
        OnlyMover(s.q, t, if s.SyncOf(t).DPark? then StartDequeue(NoResize) else StartEnqueue(s.SyncOf(t).value), u);
    }
  }

  lemma {:induction false} WakerElsewhere(s: Sys, t: Tid, m: Move, u: Tid)
    requires MoveEnabled(s, t, m) && u != t
    ensures MoveStep(s, t, m).waker.PcOf(u) == s.waker.PcOf(u)
    ensures MoveStep(s, t, m).consumer == s.consumer
  {
    var w' := MoveStep(s, t, m).waker;
    if w' != s.waker {
      match m
      case NotifyMove => OnlyWakerMover(s.waker, t, if s.waker.PcOf(t).Idle? then A.StartWake else A.Finish, u);
      case WakerMove => OnlyWakerMover(s.waker, t, A.Advance, u);
      case RegisterMove => OnlyWakerMover(s.waker, t, A.StartRegister, u);
      case ResumeMove => OnlyWakerMover(s.waker, t, A.Finish, u);
    }
  }

  lemma {:induction false} ListElsewhere(s: Sys, t: Tid, m: Move, u: Tid)
    requires MoveEnabled(s, t, m) && u != t
    ensures MoveStep(s, t, m).list.PcOf(u) == s.list.PcOf(u)
  {
    var l' := MoveStep(s, t, m).list;
    if l' != s.list {
      match m
      case NotifyMove => OnlyListMover(s.list, t, if s.list.PcOf(t).Idle? then L.StartWake else L.Finish, u);
      case ListMove => OnlyListMover(s.list, t, L.Advance, u);
      case RegisterMove => OnlyListMover(s.list, t, L.StartRegister, u);
      case ResumeMove => OnlyListMover(s.list, t, L.Finish, u);
    }
  }

  // ---------------------------------------------------------------- the consumer

  /** The consumer is parked without a token. */
  predicate Asleep(s: Sys) {
    s.SyncOf(s.consumer).DPark? && s.consumer !in s.tokens
  }

  /** Only the consumer, or a wake-up that takes its waker, changes the cell. */
  lemma {:induction false} CellElsewhere(s: Sys, t: Tid, m: Move)
    requires Linked(s, t) && MoveEnabled(s, t, m) && t != s.consumer && !s.waker.PcOf(t).WakeTake?
    ensures MoveStep(s, t, m).waker.cell == s.waker.cell
  {
  }

  lemma {:induction false} SleeperStays(s: Sys, t: Tid, m: Move)
    requires Linked(s, t) && MoveEnabled(s, t, m) && s.SyncOf(s.consumer).DPark? && Asleep(MoveStep(s, t, m))
    ensures t != s.consumer
  {
  }

  /** A move of a thread that does not reach the consumer changes nothing for those that do. */
  lemma {:induction false} OthersKeepReaching(s: Sys, t: Tid, m: Move, u: Tid)
    requires Linked(s, t) && MoveEnabled(s, t, m) && Asleep(s) && Asleep(MoveStep(s, t, m))
    requires Reaches(s, u) && !Reaches(s, t)
    ensures Reaches(MoveStep(s, t, m), u) && WakeRankOf(MoveStep(s, t, m), u) == WakeRankOf(s, u)
  {
    SleeperStays(s, t, m);
    QueueElsewhere(s, t, m, u);
    WakerElsewhere(s, t, m, u);
    if !s.waker.PcOf(t).WakeTake? {
      CellElsewhere(s, t, m);
    }
  }

  /** The thread to follow after a move: the same one, unless it moves itself or another one takes the
      consumer's waker from the cell before it. */
  ghost predicate TakesOver(s: Sys, s': Sys, t: Tid, u: Tid, u': Tid) {
    && Reaches(s', u')
    && (t != u && Reaches(s', u) ==> u' == u)
    && WakeRankOf(s', u') + (if t == u then 1 else 0) <= WakeRankOf(s, u)
  }

  lemma {:induction false} WillingRank(s: Sys, u: Tid)
    requires Linked(s, u) && WillWake(s.q.PcOf(u), s.waker.PcOf(u))
    ensures WakeRankOf(s, u) > 3
  {
  }

  lemma {:induction false} OnlyTakerIsFirst(s: Sys, t: Tid, m: Move, u: Tid)
    requires SysInv(s) && MoveEnabled(s, t, m) && Asleep(s) && Asleep(MoveStep(s, t, m)) && u != t
    requires Reaches(s, u) && !Reaches(MoveStep(s, t, m), u)
    ensures s.waker.PcOf(t).WakeTake? && s.waker.cell == Some(s.consumer)
    ensures s.waker.PcOf(u).WakeTake? || WillWake(s.q.PcOf(u), s.waker.PcOf(u))
  {
    ThreadLinked(s, t);
    SleeperStays(s, t, m);
    QueueElsewhere(s, t, m, u);
    WakerElsewhere(s, t, m, u);
    if !s.waker.PcOf(t).WakeTake? {
      CellElsewhere(s, t, m);
    }
  }

  lemma {:induction false} OneTaker(s: Sys, t: Tid, u: Tid)
    requires A.Inv(s.waker) && s.waker.PcOf(t).WakeTake? && s.waker.PcOf(u).WakeTake?
    ensures t == u
  {
    assert A.OwnerOk(s.waker, t, s.waker.PcOf(t)) && A.OwnerOk(s.waker, u, s.waker.PcOf(u));
  }

  lemma {:induction false} TakerHasIt(s: Sys, t: Tid)
    requires s.waker.PcOf(t).WakeTake? && s.waker.cell == Some(s.consumer)
    ensures Reaches(MoveStep(s, t, WakerMove), t) && WakeRankOf(MoveStep(s, t, WakerMove), t) == 2
  {
  }

  /** The thread that takes the waker has less left to do than those that have not come so far. */
  lemma {:induction false} TakerIsCloser(s: Sys, t: Tid, m: Move, u: Tid)
    requires SysInv(s) && MoveEnabled(s, t, m) && Asleep(s) && Asleep(MoveStep(s, t, m)) && u != t
    requires Reaches(s, u) && !Reaches(MoveStep(s, t, m), u)
    ensures TakesOver(s, MoveStep(s, t, m), t, u, t)
  {
    ThreadLinked(s, t);
    ThreadLinked(s, u);
    OnlyTakerIsFirst(s, t, m, u);
    if s.waker.PcOf(u).WakeTake? {
      OneTaker(s, t, u);
    } else {
      WillingRank(s, u);
    }
    WakingMoves(s, t, m);
    TakerHasIt(s, t);
  }

  /** After every move there is a thread to follow. */
  lemma {:induction false} NextToFollow(s: Sys, s': Sys, t: Tid, m: Move, u: Tid) returns (u': Tid)
    requires SysInv(s) && SysInv(s') && MoveEnabled(s, t, m) && s' == MoveStep(s, t, m)
    requires Asleep(s) && Asleep(s') && Reaches(s, u)
    ensures TakesOver(s, s', t, u, u')
  {
    if t == u {
      WakeUpCloser(s, s', t, m);
      u' :| Reaches(s', u') && WakeRankOf(s', u') < WakeRankOf(s, u);
    } else if Reaches(s', u) {
      QueueElsewhere(s, t, m, u);
      WakerElsewhere(s, t, m, u);
      u' := u;
    } else {
      TakerIsCloser(s, t, m, u);
      u' := t;
    }
  }

  /** How many of the turns are moves of the thread that is followed at that time. */
  function OwnMoves(turns: seq<Turn>, followed: seq<Tid>): nat
    requires |turns| <= |followed|
  {
    if |turns| == 0 then 0
    else
      var n := |turns| - 1;
      OwnMoves(turns[..n], followed) + if turns[n].t == followed[n] then 1 else 0
  }

  /** At every turn the thread followed, or the one that takes over from it, is followed on. */
  ghost predicate Chain(over: (nat, Tid, Tid) -> bool, followed: seq<Tid>) {
    |followed| > 0 && forall i :: 0 <= i < |followed| - 1 ==> over(i, followed[i], followed[i + 1])
  }

  /** Somebody can take over from everybody who is due. */
  ghost predicate Lasts(over: (nat, Tid, Tid) -> bool, due: (nat, Tid) -> bool, i: nat) {
    forall u: Tid :: due(i, u) ==> exists u': Tid :: over(i, u, u') && due(i + 1, u')
  }

  lemma {:induction false} ChainFrom(over: (nat, Tid, Tid) -> bool, due: (nat, Tid) -> bool, n: nat, u: Tid)
    returns (followed: seq<Tid>)
    requires due(0, u) && forall i :: 0 <= i < n ==> Lasts(over, due, i)
    ensures |followed| == n + 1 && followed[0] == u && Chain(over, followed) && due(n, followed[n])
  {
    followed := [u];
    if n > 0 {
      var before := ChainFrom(over, due, n - 1, u);
      assert Lasts(over, due, n - 1);
      var u': Tid :| over(n - 1, before[n - 1], u') && due(n, u');
      followed := before + [u'];
    }
  }

  /** A turn costs one of the rank of the thread that is followed if it is a move of that thread. */
  ghost predicate Spends(over: (nat, Tid, Tid) -> bool, rank: (nat, Tid) -> nat, i: nat, t: Tid) {
    forall u: Tid, u': Tid :: over(i, u, u') ==> rank(i + 1, u') + (if t == u then 1 else 0) <= rank(i, u)
  }

  lemma {:induction false} ChainSpends(over: (nat, Tid, Tid) -> bool, rank: (nat, Tid) -> nat, turns: seq<Turn>,
      followed: seq<Tid>)
    requires |followed| == |turns| + 1 && Chain(over, followed)
    requires forall i :: 0 <= i < |turns| ==> Spends(over, rank, i, turns[i].t)
    ensures OwnMoves(turns, followed) + rank(|turns|, followed[|turns|]) <= rank(0, followed[0])
  {
    if |turns| > 0 {
      var n := |turns| - 1;
      ChainSpends(over, rank, turns[..n], followed[..n + 1]);
      SameFront(turns[..n], followed[..n + 1], followed);
      assert Spends(over, rank, n, turns[n].t);
      assert over(n, followed[n], followed[n + 1]);
    }
  }

  lemma {:induction false} SameFront(turns: seq<Turn>, a: seq<Tid>, b: seq<Tid>)
    requires |turns| <= |a| && a <= b
    ensures OwnMoves(turns, a) == OwnMoves(turns, b)
  {
    if |turns| > 0 {
      SameFront(turns[..|turns| - 1], a, b);
    }
  }

  /** Who takes over from whom at each turn. */
  ghost function Over(states: seq<Sys>, turns: seq<Turn>): (nat, Tid, Tid) -> bool
    requires |states| == |turns| + 1
  {
    (i: nat, u: Tid, u': Tid) => i < |turns| && TakesOver(states[i], states[i + 1], turns[i].t, u, u')
  }

  ghost function Due(states: seq<Sys>): (nat, Tid) -> bool {
    (i: nat, u: Tid) => i < |states| && Reaches(states[i], u)
  }

  ghost function Left(states: seq<Sys>): (nat, Tid) -> nat {
    (i: nat, u: Tid) => if i < |states| then WakeRankOf(states[i], u) else 0
  }

  ghost predicate CanFollow(s: Sys, s': Sys, t: Tid) {
    forall u: Tid :: Reaches(s, u) ==> exists u': Tid :: TakesOver(s, s', t, u, u')
  }

  lemma {:induction false} FollowOne(states: seq<Sys>, turns: seq<Turn>, k: nat)
    requires Run(states, turns) && k < |turns| && Asleep(states[k]) && Asleep(states[k + 1])
    ensures CanFollow(states[k], states[k + 1], turns[k].t)
  {
    RunInv(states, turns, k);
    RunInv(states, turns, k + 1);
    var s, s', t := states[k], states[k + 1], turns[k].t;
    forall u: Tid | Reaches(s, u) ensures exists u': Tid :: TakesOver(s, s', t, u, u') {
      var u' := NextToFollow(s, s', t, turns[k].m, u);
    }
  }

  lemma {:induction false} FollowLasts(states: seq<Sys>, turns: seq<Turn>, i: nat)
    requires |states| == |turns| + 1 && i < |turns| && CanFollow(states[i], states[i + 1], turns[i].t)
    ensures Lasts(Over(states, turns), Due(states), i)
    ensures Spends(Over(states, turns), Left(states), i, turns[i].t)
  {
    var s, s', t := states[i], states[i + 1], turns[i].t;
    forall u: Tid | Due(states)(i, u)
      ensures exists u': Tid :: Over(states, turns)(i, u, u') && Due(states)(i + 1, u')
    {
      var u': Tid :| TakesOver(s, s', t, u, u');
      assert Over(states, turns)(i, u, u') && Due(states)(i + 1, u');
    }
  }

  /** In every run, as long as the parked consumer has no token, a thread that is going to wake it can be
      followed, to whoever takes over, and the moves made by the thread followed and those it has left
      are together no more than those that the first one had left. */
  lemma {:induction false} WakeUpIsBounded(states: seq<Sys>, turns: seq<Turn>, c: nat, k: nat, t: Tid)
    returns (followed: seq<Tid>)
    requires Run(states, turns) && c <= k < |states| && Reaches(states[c], t)
    requires forall i :: c <= i <= k ==> Asleep(states[i])
    ensures |followed| == k - c + 1 && followed[0] == t && Reaches(states[k], followed[k - c])
    ensures Chain(Over(states[c..k + 1], turns[c..k]), followed)
    ensures OwnMoves(turns[c..k], followed) + WakeRankOf(states[k], followed[k - c]) <= WakeRankOf(states[c], t)
  {
    forall i {:trigger turns[i]} | c <= i < k ensures CanFollow(states[i], states[i + 1], turns[i].t) {
      FollowOne(states, turns, i);
    }
    followed := FollowBetween(states, turns, c, k, t);
  }

  lemma {:induction false} FollowBetween(states: seq<Sys>, turns: seq<Turn>, c: nat, k: nat, t: Tid)
    returns (followed: seq<Tid>)
    requires |states| == |turns| + 1 && c <= k < |states| && Reaches(states[c], t)
    requires forall i {:trigger turns[i]} :: c <= i < k ==> CanFollow(states[i], states[i + 1], turns[i].t)
    ensures |followed| == k - c + 1 && followed[0] == t && Reaches(states[k], followed[k - c])
    ensures Chain(Over(states[c..k + 1], turns[c..k]), followed)
    ensures OwnMoves(turns[c..k], followed) + WakeRankOf(states[k], followed[k - c]) <= WakeRankOf(states[c], t)
  {
    var ss, tt := states[c..k + 1], turns[c..k];
    forall i | 0 <= i < k - c ensures CanFollow(ss[i], ss[i + 1], tt[i].t) {
      assert tt[i] == turns[c + i];
    }
    followed := FollowThrough(ss, tt, t);
  }

  lemma {:induction false} FollowThrough(states: seq<Sys>, turns: seq<Turn>, t: Tid) returns (followed: seq<Tid>)
    requires |states| == |turns| + 1 && Reaches(states[0], t)
    requires forall i :: 0 <= i < |turns| ==> CanFollow(states[i], states[i + 1], turns[i].t)
    ensures |followed| == |states| && followed[0] == t && Reaches(states[|turns|], followed[|turns|])
    ensures Chain(Over(states, turns), followed)
    ensures OwnMoves(turns, followed) + WakeRankOf(states[|turns|], followed[|turns|]) <= WakeRankOf(states[0], t)
  {
    forall i | 0 <= i < |turns|
      ensures Lasts(Over(states, turns), Due(states), i) && Spends(Over(states, turns), Left(states), i, turns[i].t)
    {
      assert CanFollow(states[i], states[i + 1], turns[i].t);
      FollowLasts(states, turns, i);
    }
    followed := ChainFrom(Over(states, turns), Due(states), |turns|, t);
    ChainSpends(Over(states, turns), Left(states), turns, followed);
  }

  // ---------------------------------------------------------------- enqueuers

  /** The enqueuer is in the waker list, without a token. */
  predicate Listed(s: Sys, t: Tid) {
    t in s.list.list && t !in s.tokens
  }

  lemma {:induction false} BeforeAppended(list: seq<Tid>, t: Tid, u: Tid)
    requires t in list
    ensures Before(list + [u], t) == Before(list, t)
  {
    if list[0] != t {
      assert (list + [u])[1..] == list[1..] + [u];
      BeforeAppended(list[1..], t, u);
    }
  }

  /** Until it is unparked, no enqueuer falls behind in the list. */
  lemma {:induction false} NeverBehind(s: Sys, w: Tid, m: Move, t: Tid)
    requires MoveEnabled(s, w, m) && Listed(s, t) && t !in MoveStep(s, w, m).tokens
    ensures t in MoveStep(s, w, m).list.list
    ensures Before(MoveStep(s, w, m).list.list, t) <= Before(s.list.list, t)
  {
    if m.ListMove? && s.list.PcOf(w).RegPush? {
      BeforeAppended(s.list.list, t, w);
    } else if m.ListMove? && s.list.PcOf(w).Drain? {
      assert s.list.list[0] != t;
    }
  }

  /** The thread to follow after a move: the same one, unless it moves itself. */
  ghost predicate TakesOverFor(s: Sys, s': Sys, t: Tid, w: Tid, u: Tid, u': Tid) {
    && DueForList(s', u')
    && (w != u ==> u' == u)
    && ListRankOf(s', u', t) + (if w == u then 1 else 0) <= ListRankOf(s, u, t)
  }

  lemma {:induction false} NextToLook(s: Sys, s': Sys, t: Tid, w: Tid, m: Move, u: Tid) returns (u': Tid)
    requires SysInv(s) && MoveEnabled(s, w, m) && s' == MoveStep(s, w, m)
    requires Listed(s, t) && t !in s'.tokens && DueForList(s, u)
    ensures TakesOverFor(s, s', t, w, u, u')
  {
    if w == u {
      LookingCloser(s, s', u, m, t);
      u' :| DueForList(s', u') && ListRankOf(s', u', t) < ListRankOf(s, u, t);
    } else {
      QueueElsewhere(s, w, m, u);
      WakerElsewhere(s, w, m, u);
      ListElsewhere(s, w, m, u);
      NeverBehind(s, w, m, t);
      u' := u;
    }
  }

  ghost predicate CanLook(s: Sys, s': Sys, t: Tid, w: Tid) {
    forall u: Tid :: DueForList(s, u) ==> exists u': Tid :: TakesOverFor(s, s', t, w, u, u')
  }

  lemma {:induction false} LookOne(states: seq<Sys>, turns: seq<Turn>, k: nat, t: Tid)
    requires Run(states, turns) && k < |turns| && Listed(states[k], t) && t !in states[k + 1].tokens
    ensures CanLook(states[k], states[k + 1], t, turns[k].t) && Listed(states[k + 1], t)
  {
    RunInv(states, turns, k);
    var s, s', w := states[k], states[k + 1], turns[k].t;
    NeverBehind(s, w, turns[k].m, t);
    forall u: Tid | DueForList(s, u) ensures exists u': Tid :: TakesOverFor(s, s', t, w, u, u') {
      var u' := NextToLook(s, s', t, w, turns[k].m, u);
    }
  }

  ghost predicate StaysIn(s: Sys, s': Sys, t: Tid) {
    Listed(s, t) && t !in s'.tokens ==> Listed(s', t)
  }

  lemma {:induction false} ListedFrom(states: seq<Sys>, turns: seq<Turn>, c: nat, k: nat, t: Tid)
    requires |states| == |turns| + 1 && c <= k < |states| && t in states[c].list.list
    requires forall i :: c <= i <= k ==> t !in states[i].tokens
    requires forall i :: c <= i < k ==> StaysIn(states[i], states[i + 1], t)
    ensures Listed(states[k], t)
  {
    if c < k {
      ListedFrom(states, turns, c, k - 1, t);
      assert StaysIn(states[k - 1], states[k - 1 + 1], t);
    }
  }

  lemma {:induction false} StaysListed(states: seq<Sys>, turns: seq<Turn>, c: nat, k: nat, t: Tid)
    requires Run(states, turns) && c <= k < |states| && t in states[c].list.list
    requires forall i :: c <= i <= k ==> t !in states[i].tokens
    ensures Listed(states[k], t)
  {
    forall i | c <= i < k ensures StaysIn(states[i], states[i + 1], t) {
      if Listed(states[i], t) && t !in states[i + 1].tokens {
        LookOne(states, turns, i, t);
      }
    }
    ListedFrom(states, turns, c, k, t);
  }

  ghost function OverFor(states: seq<Sys>, turns: seq<Turn>, t: Tid): (nat, Tid, Tid) -> bool
    requires |states| == |turns| + 1
  {
    (i: nat, u: Tid, u': Tid) => i < |turns| && TakesOverFor(states[i], states[i + 1], t, turns[i].t, u, u')
  }

  ghost function DueFor(states: seq<Sys>): (nat, Tid) -> bool {
    (i: nat, u: Tid) => i < |states| && DueForList(states[i], u)
  }

  ghost function LeftFor(states: seq<Sys>, t: Tid): (nat, Tid) -> nat {
    (i: nat, u: Tid) => if i < |states| then ListRankOf(states[i], u, t) else 0
  }

  lemma {:induction false} LookLasts(states: seq<Sys>, turns: seq<Turn>, t: Tid, i: nat)
    requires |states| == |turns| + 1 && i < |turns| && CanLook(states[i], states[i + 1], t, turns[i].t)
    ensures Lasts(OverFor(states, turns, t), DueFor(states), i)
    ensures Spends(OverFor(states, turns, t), LeftFor(states, t), i, turns[i].t)
  {
    var s, s', w := states[i], states[i + 1], turns[i].t;
    forall u: Tid | DueFor(states)(i, u)
      ensures exists u': Tid :: OverFor(states, turns, t)(i, u, u') && DueFor(states)(i + 1, u')
    {
      var u': Tid :| TakesOverFor(s, s', t, w, u, u');
      assert OverFor(states, turns, t)(i, u, u') && DueFor(states)(i + 1, u');
    }
  }

  /** In every run, as long as an enqueuer in the waker list has no token, it stays there, and a thread that
      is due to look at the list can be followed, to whoever has to drain it instead; the moves made by the
      thread followed, those it has left and the wakers before the enqueuer's own are together no more than
      at the start. */
  lemma {:induction false} WakeUpIsBoundedForEnqueuers(states: seq<Sys>, turns: seq<Turn>, c: nat, k: nat, t: Tid,
      u: Tid) returns (followed: seq<Tid>)
    requires Run(states, turns) && c <= k < |states| && t in states[c].list.list && DueForList(states[c], u)
    requires forall i :: c <= i <= k ==> t !in states[i].tokens
    ensures |followed| == k - c + 1 && followed[0] == u && DueForList(states[k], followed[k - c])
    ensures t in states[k].list.list && Chain(OverFor(states[c..k + 1], turns[c..k], t), followed)
    ensures OwnMoves(turns[c..k], followed) + ListRankOf(states[k], followed[k - c], t) <= ListRankOf(states[c], u, t)
  {
    forall i {:trigger turns[i]} | c <= i < k ensures CanLook(states[i], states[i + 1], t, turns[i].t) {
      StaysListed(states, turns, c, i, t);
      LookOne(states, turns, i, t);
    }
    StaysListed(states, turns, c, k, t);
    followed := LookBetween(states, turns, c, k, t, u);
  }

  lemma {:induction false} LookBetween(states: seq<Sys>, turns: seq<Turn>, c: nat, k: nat, t: Tid, u: Tid)
    returns (followed: seq<Tid>)
    requires |states| == |turns| + 1 && c <= k < |states| && DueForList(states[c], u)
    requires forall i {:trigger turns[i]} :: c <= i < k ==> CanLook(states[i], states[i + 1], t, turns[i].t)
    ensures |followed| == k - c + 1 && followed[0] == u && DueForList(states[k], followed[k - c])
    ensures Chain(OverFor(states[c..k + 1], turns[c..k], t), followed)
    ensures OwnMoves(turns[c..k], followed) + ListRankOf(states[k], followed[k - c], t) <= ListRankOf(states[c], u, t)
  {
    var ss, tt := states[c..k + 1], turns[c..k];
    forall i | 0 <= i < k - c ensures CanLook(ss[i], ss[i + 1], t, tt[i].t) {
      assert tt[i] == turns[c + i];
    }
    followed := LookThrough(ss, tt, t, u);
  }

  lemma {:induction false} LookThrough(states: seq<Sys>, turns: seq<Turn>, t: Tid, u: Tid) returns (followed: seq<Tid>)
    requires |states| == |turns| + 1 && DueForList(states[0], u)
    requires forall i :: 0 <= i < |turns| ==> CanLook(states[i], states[i + 1], t, turns[i].t)
    ensures |followed| == |states| && followed[0] == u && DueForList(states[|turns|], followed[|turns|])
    ensures Chain(OverFor(states, turns, t), followed)
    ensures OwnMoves(turns, followed) + ListRankOf(states[|turns|], followed[|turns|], t) <= ListRankOf(states[0], u, t)
  {
    forall i | 0 <= i < |turns|
      ensures Lasts(OverFor(states, turns, t), DueFor(states), i)
      ensures Spends(OverFor(states, turns, t), LeftFor(states, t), i, turns[i].t)
    {
      assert CanLook(states[i], states[i + 1], t, turns[i].t);
      LookLasts(states, turns, t, i);
    }
    followed := ChainFrom(OverFor(states, turns, t), DueFor(states), |turns|, u);
    ChainSpends(OverFor(states, turns, t), LeftFor(states, t), turns, followed);
  }
}

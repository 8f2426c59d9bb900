/** Every step of module Protocol keeps the invariant. */
module ProtocolSteps {
  import opened Options
  import opened Protocol
  import opened ProtocolInvariant

  // ---------------------------------------------------------------- counting positions in flight

  lemma {:induction false} InFlightConcat(a: seq<Option<Tid>>, b: seq<Option<Tid>>)
    ensures InFlight(a + b) == InFlight(a) + InFlight(b)
  {
    if |a| == 0 {
      assert a + b == b;
    } else {
      assert (a + b)[1..] == a[1..] + b;
      InFlightConcat(a[1..], b);
    }
  }

  lemma {:induction false} InFlightOwned(own: seq<Option<Tid>>)
    requires forall p :: 0 <= p < |own| ==> own[p].Some?
    ensures InFlight(own) == |own|
  {
    if |own| > 0 {
      InFlightOwned(own[1..]);
    }
  }

  lemma {:induction false} InFlightSettled(own: seq<Option<Tid>>)
    ensures InFlight(own) <= |own|
    ensures InFlight(own) == 0 <==> Settled(own)
  {
    if |own| > 0 {
      InFlightSettled(own[1..]);
      assert Settled(own) <==> own[0].None? && Settled(own[1..]) by {
        assert forall p :: 0 < p < |own| ==> own[p] == own[1..][p - 1];
      }
    }
  }

  lemma {:induction false} InFlightAcknowledge(own: seq<Option<Tid>>, base: nat, n: nat)
    requires base + n <= |own|
    requires forall p :: base <= p < base + n ==> own[p].Some?
    ensures InFlight(Acknowledge(own, base, n)) == InFlight(own) - n
  {
    var a, b, c := own[..base], own[base..base + n], own[base + n..];
    InFlightSplit(own, a, b, c);
    InFlightOwned(b);
    InFlightSplit(Acknowledge(own, base, n), a, Unowned(n), c);
    InFlightSettled(Unowned(n));
  }

  lemma {:induction false} InFlightSplit(own: seq<Option<Tid>>, a: seq<Option<Tid>>, b: seq<Option<Tid>>,
      c: seq<Option<Tid>>)
    requires own == a + b + c
    ensures InFlight(own) == InFlight(a) + InFlight(b) + InFlight(c)
  {
    InFlightConcat(a + b, c);
    InFlightConcat(a, b);
  }

  // ---------------------------------------------------------------- what a step leaves alone

  /** What a step of thread `t` that is inserting may do to a buffer. */
  ghost predicate Inserts(t: Tid, side: Side, side': Side) {
    && |side.vals| == |side.own| <= |side.cells| == |side'.cells|
    && |side'.vals| == |side'.own| <= |side'.cells|
    && side.vals <= side'.vals
    && side'.drained == side.drained && side'.residue == side.residue
    && (forall p :: 0 <= p < |side.own| && side.own[p] != Some(t) ==>
         side'.own[p] == side.own[p] && side'.cells[p] == side.cells[p])
    && (forall p :: 0 <= p < |side.own| && side.own[p] == Some(t) ==>
         side'.own[p] == Some(t) || side'.own[p] == None)
    && (forall p :: |side.own| <= p < |side'.own| ==> side'.own[p] == Some(t))
  }

  lemma {:induction false} ClaimKept(t: Tid, side: Side, side': Side, u: Tid, base: nat, value: seq<Value>, done: nat)
    requires u != t && Inserts(t, side, side')
    requires ClaimOk(side, u, base, value, done)
    ensures ClaimOk(side', u, base, value, done)
  {
  }

  lemma {:induction false} HolderKept(enq: Word, enq': Word, sides: Sides, sides': Sides, t: Tid, u: Tid, pc: Pc)
    requires PcOk(enq, sides, u, pc) && Holds(pc) && !pc.DeqAdd?
    requires Inserts(t, sides.zero, sides'.zero) && Inserts(t, sides.one, sides'.one)
    requires sides'.Get(Flip(enq.index)).vals == sides.Get(Flip(enq.index)).vals
    requires enq'.index == enq.index && enq'.remaining <= enq.remaining
    ensures PcOk(enq', sides', u, pc)
  {
    var h, h' := sides.Get(Flip(enq.index)), sides'.Get(Flip(enq.index));
    assert Settled(h.own) ==> Settled(h'.own);
    var e, e' := sides.Get(enq.index), sides'.Get(enq.index);
    assert e.vals != [] ==> e'.vals != [];
  }

  lemma {:induction false} ClaimantKept(enq: Word, enq': Word, sides: Sides, sides': Sides, t: Tid, u: Tid, pc: Pc)
    requires u != t && PcOk(enq, sides, u, pc) && (Claims(pc, Zero) || Claims(pc, One))
    requires Inserts(t, sides.zero, sides'.zero) && Inserts(t, sides.one, sides'.one)
    requires sides'.Get(Flip(enq.index)).vals == sides.Get(Flip(enq.index)).vals
    requires enq'.index == enq.index
    ensures PcOk(enq', sides', u, pc)
  {
    match pc
    case EnqIndex(value, won) =>
      var side, side' := sides.Get(won.index), sides'.Get(won.index);
      assert Inserts(t, side, side');
      ClaimKept(t, side, side', u, |side.cells| - won.remaining, value, 0);
    case EnqInsert(value, won, base, done) =>
      var side, side' := sides.Get(won.index), sides'.Get(won.index);
      assert Inserts(t, side, side');
      ClaimKept(t, side, side', u, base, value, done);
    case DeqAdd(next) =>
      var side, side' := sides.Get(next.index), sides'.Get(next.index);
      assert Inserts(t, side, side');
      ClaimKept(t, side, side', u, 0, next.inserted, |next.inserted|);
  }

  /** Other threads do not notice what an inserting thread does. */
  lemma {:induction false} OtherKept(enq: Word, enq': Word, sides: Sides, sides': Sides, t: Tid, u: Tid, pc: Pc)
    requires u != t && PcOk(enq, sides, u, pc)
    requires Inserts(t, sides.zero, sides'.zero) && Inserts(t, sides.one, sides'.one)
    requires sides'.Get(Flip(enq.index)).vals == sides.Get(Flip(enq.index)).vals
    requires enq'.index == enq.index && enq'.remaining <= enq.remaining
    ensures PcOk(enq', sides', u, pc)
  {
    if Claims(pc, Zero) || Claims(pc, One) {
      ClaimantKept(enq, enq', sides, sides', t, u, pc);
    } else if Holds(pc) {
      HolderKept(enq, enq', sides, sides', t, u, pc);
    }
  }

  /** A thread that does not hold the lock only depends on the buffer it inserts into. */
  lemma {:induction false} InserterKept(enq: Word, enq': Word, sides: Sides, sides': Sides, i: Index, u: Tid, pc: Pc)
    requires !Holds(pc) && PcOk(enq, sides, u, pc)
    requires sides'.Get(Flip(i)) == sides.Get(Flip(i))
    requires forall p :: 0 <= p < |sides.Get(i).own| ==> sides.Get(i).own[p] != Some(u)
    ensures PcOk(enq', sides', u, pc)
  {
    match pc
    case EnqIndex(value, won) =>
      var base := |sides.Get(won.index).cells| - won.remaining;
      assert sides.Get(won.index).own[base] == Some(u);
    case EnqInsert(value, won, base, done) =>
      assert sides.Get(won.index).own[base] == Some(u);
    case _ =>
  }

  /** The threads other than `t` have not moved. */
  ghost predicate Moved(s: State, s': State, t: Tid, pc': Pc) {
    s'.threads == s.threads[t := pc']
  }

  /** No position of buffer `i` in flight belongs to `t`, unless `t` is still inserting there. */
  ghost predicate OwnsOnly(side: Side, t: Tid, claims: bool) {
    forall p :: 0 <= p < |side.own| && side.own[p] == Some(t) ==> claims
  }

  /** What an inserting thread may change. */
  ghost predicate InsertFrame(s: State, s': State, t: Tid, pc': Pc) {
    && Moved(s, s', t, pc')
    && s'.deq == s.deq && s'.holder == s.holder && s'.capacity == s.capacity && s'.consumed == s.consumed
    && s'.enq.index == s.enq.index && s'.enq.remaining <= s.enq.remaining
    && Inserts(t, s.sides.zero, s'.sides.zero) && Inserts(t, s.sides.one, s'.sides.one)
    && s'.At(Hidden(s)).vals == s.At(Hidden(s)).vals
    && s'.log == s.log + s'.At(s.enq.index).vals[|s.At(s.enq.index).vals|..]
  }

  lemma {:induction false} ThreadsKept(s: State, s': State, t: Tid, pc': Pc)
    requires ThreadsOk(s) && InsertFrame(s, s', t, pc')
    requires PcOk(s'.enq, s'.sides, t, pc')
    ensures ThreadsOk(s')
  {
    forall u: Tid ensures PcOk(s'.enq, s'.sides, u, s'.PcOf(u)) {
      if u != t {
        OtherKept(s.enq, s'.enq, s.sides, s'.sides, t, u, s.PcOf(u));
      }
    }
  }

  lemma {:induction false} LockKept(s: State, s': State, t: Tid, pc': Pc)
    requires LockOk(s) && InsertFrame(s, s', t, pc') && !Holds(s.PcOf(t)) && !Holds(pc')
    ensures LockOk(s')
  {
  }

  lemma {:induction false} OwnersKept(s: State, s': State, t: Tid, pc': Pc, i: Index)
    requires OwnersOk(s, i) && Moved(s, s', t, pc')
    requires Inserts(t, s.At(i), s'.At(i))
    requires OwnsOnly(s'.At(i), t, Claims(pc', i))
    ensures OwnersOk(s', i)
  {
  }

  lemma {:induction false} LogKept(s: State, s': State, t: Tid, pc': Pc)
    requires LogOk(s) && LockOk(s) && CapacityOk(s) && InsertFrame(s, s', t, pc') && !Holds(s.PcOf(t))
    ensures LogOk(s') && CapacityOk(s')
  {
  }

  /** A step of a thread that does not hold the dequeuing lock. */
  lemma {:induction false} InsertStepKeeps(s: State, s': State, t: Tid, pc': Pc)
    requires Inv(s) && InsertFrame(s, s', t, pc') && !Holds(s.PcOf(t)) && !Holds(pc') && !s'.fault
    requires SideOk(s'.sides.zero) && SideOk(s'.sides.one)
    requires EnqueuingOk(s'.enq, s'.At(s'.enq.index))
    requires OwnsOnly(s'.sides.zero, t, Claims(pc', Zero)) && OwnsOnly(s'.sides.one, t, Claims(pc', One))
    requires PcOk(s'.enq, s'.sides, t, pc')
    ensures Inv(s')
  {
    ThreadsKept(s, s', t, pc');
    LockKept(s, s', t, pc');
    OwnersKept(s, s', t, pc', Zero);
    OwnersKept(s, s', t, pc', One);
    LogKept(s, s', t, pc');
    assert ResidueOk(s') by { ResidueKept(s, s', t, pc'); }
  }

  lemma {:induction false} ResidueKept(s: State, s': State, t: Tid, pc': Pc)
    requires ResidueOk(s) && LockOk(s) && InsertFrame(s, s', t, pc') && !Holds(s.PcOf(t))
    ensures ResidueOk(s')
  {
  }

  /** What the thread that holds, takes or releases the dequeuing lock may change: the hidden
      buffer, in which nobody else has anything in flight. */
  ghost predicate HolderFrame(s: State, s': State, t: Tid, pc': Pc) {
    var h, h' := s.At(Hidden(s)), s'.At(Hidden(s));
    && Moved(s, s', t, pc')
    && (s.holder == Some(t) || s.holder == None)
    && s'.At(s.enq.index) == s.At(s.enq.index)
    && !Claims(s.PcOf(t), s.enq.index)
    && (forall p :: 0 <= p < |h.own| ==> h.own[p] == None || h.own[p] == Some(t))
    && (forall p :: 0 <= p < |h'.own| && h'.own[p].Some? ==> h'.own[p] == Some(t) && Claims(pc', Hidden(s)))
  }

  lemma {:induction false} InsertersKept(s: State, s': State, t: Tid, pc': Pc)
    requires ThreadsOk(s) && LockOk(s) && HolderFrame(s, s', t, pc')
    requires PcOk(s'.enq, s'.sides, t, pc')
    ensures ThreadsOk(s')
  {
    forall u: Tid ensures PcOk(s'.enq, s'.sides, u, s'.PcOf(u)) {
      if u != t {
        var h := s.At(Hidden(s));
        assert forall p :: 0 <= p < |h.own| ==> h.own[p] != Some(u);
        InserterKept(s.enq, s'.enq, s.sides, s'.sides, Hidden(s), u, s.PcOf(u));
      }
    }
  }

  lemma {:induction false} OwnersKeptByHolder(s: State, s': State, t: Tid, pc': Pc)
    requires OwnersOk(s, Zero) && OwnersOk(s, One) && HolderFrame(s, s', t, pc')
    ensures OwnersOk(s', Zero) && OwnersOk(s', One)
  {
  }

  /** A step of the thread that holds, takes or releases the dequeuing lock. */
  lemma {:induction false} HolderStepKeeps(s: State, s': State, t: Tid, pc': Pc)
    requires Inv(s) && HolderFrame(s, s', t, pc')
    requires s'.holder == if Holds(pc') then Some(t) else None
    requires s'.deq.Locked? <==> s'.holder.Some?
    requires s'.deq.Saved? ==> s'.deq.index == Hidden(s') && SavedOk(s'.At(s'.deq.index), s'.deq.length)
    requires SideOk(s'.At(Hidden(s)))
    requires EnqueuingOk(s'.enq, s'.At(s'.enq.index))
    requires PcOk(s'.enq, s'.sides, t, pc')
    requires LogOk(s') && CapacityOk(s') && ResidueOk(s') && !s'.fault
    ensures Inv(s')
  {
    InsertersKept(s, s', t, pc');
    OwnersKeptByHolder(s, s', t, pc');
    LockKeptByHolder(s, s', t, pc');
  }

  lemma {:induction false} LockKeptByHolder(s: State, s': State, t: Tid, pc': Pc)
    requires LockOk(s) && Moved(s, s', t, pc') && (s.holder == Some(t) || s.holder == None)
    requires s'.holder == if Holds(pc') then Some(t) else None
    requires s'.deq.Locked? <==> s'.holder.Some?
    requires s'.deq.Saved? ==> s'.deq.index == Hidden(s') && SavedOk(s'.At(s'.deq.index), s'.deq.length)
    ensures LockOk(s')
  {
    forall u: Tid ensures Holds(s'.PcOf(u)) <==> s'.holder == Some(u) {
      if u != t {
        assert s'.PcOf(u) == s.PcOf(u);
      }
    }
  }

  // ---------------------------------------------------------------- enqueuing

  /** A step of a thread that moves on without touching the buffers; the closed flag may change. */
  lemma {:induction false} PcStepKeeps(s: State, s': State, t: Tid, pc': Pc)
    requires Inv(s) && Moved(s, s', t, pc')
    requires s' == s.(threads := s'.threads, enq := s.enq.(closed := s'.enq.closed))
    requires !Holds(s.PcOf(t)) && !Holds(pc')
    requires forall i :: Claims(s.PcOf(t), i) ==> Claims(pc', i)
    requires PcOk(s'.enq, s'.sides, t, pc')
    ensures Inv(s')
  {
    forall i ensures OwnsOnly(s.At(i), t, Claims(pc', i)) {
      OwnsOnlyClaims(s, t, i);
    }
    assert s.sides.zero == s.At(Zero) && s.sides.one == s.At(One);
    InsertStepKeeps(s, s', t, pc');
  }

  lemma {:induction false} OwnsOnlyClaims(s: State, t: Tid, i: Index)
    requires OwnersOk(s, i)
    ensures OwnsOnly(s.At(i), t, Claims(s.PcOf(t), i))
  {
  }

  /** A step of a thread that works on buffer `i`, and on no other. */
  lemma {:induction false} InsertAtKeeps(s: State, s': State, t: Tid, pc': Pc, i: Index)
    requires Inv(s) && Moved(s, s', t, pc') && !Holds(s.PcOf(t)) && !Holds(pc')
    requires s' == s.(threads := s'.threads, enq := s'.enq, sides := s.sides.Set(i, s'.At(i)), log := s'.log)
    requires s'.enq.index == s.enq.index && s'.enq.remaining <= s.enq.remaining
    requires !Claims(s.PcOf(t), Flip(i))
    requires Inserts(t, s.At(i), s'.At(i)) && SideOk(s'.At(i)) && OwnsOnly(s'.At(i), t, Claims(pc', i))
    requires i != s.enq.index ==> s'.At(i).vals == s.At(i).vals
    requires EnqueuingOk(s'.enq, s'.At(s'.enq.index))
    requires PcOk(s'.enq, s'.sides, t, pc')
    requires s'.log == s.log + s'.At(s.enq.index).vals[|s.At(s.enq.index).vals|..]
    ensures Inv(s')
  {
    OwnsOnlyClaims(s, t, Flip(i));
    InsertsNothing(t, s.At(Flip(i)));
    assert InsertFrame(s, s', t, pc') by {
      assert s'.At(Flip(i)) == s.At(Flip(i));
    }
    InsertStepKeeps(s, s', t, pc');
  }

  lemma {:induction false} InsertsNothing(t: Tid, side: Side)
    requires SideOk(side)
    ensures Inserts(t, side, side)
  {
  }

  lemma {:induction false} EnqCasKeeps(s: State, t: Tid, value: seq<Value>, seen: Word)
    requires Inv(s) && s.PcOf(t) == EnqCas(value, seen) && |value| <= seen.remaining && s.enq == seen
    ensures Inv(EnqCasStep(s, t, value, seen, false))
  {
    var side', enq' := Reserve(s.At(seen.index), t, value), seen.(remaining := seen.remaining - |value|);
    ReservedSide(s, t, value);
    ReservedKeeps(s, t, value, side', enq');
    assert EnqCasStep(s, t, value, seen, false)
        == s.Put(seen.index, side').(enq := enq', log := s.log + value).Go(t, EnqIndex(value, seen));
  }

  lemma {:induction false} ReservedSide(s: State, t: Tid, value: seq<Value>)
    requires Inv(s) && s.PcOf(t) == EnqCas(value, s.enq) && |value| <= s.enq.remaining
    ensures var side, side' := s.At(s.enq.index), Reserve(s.At(s.enq.index), t, value);
            && SideOk(side') && Inserts(t, side, side')
            && PcOk(s.enq.(remaining := s.enq.remaining - |value|), s.sides.Set(s.enq.index, side'), t,
                EnqIndex(value, s.enq))
  {
    ThreadAt(s, t);
    var i := s.enq.index;
    OwnsOnlyClaims(s, t, i);
    ReserveKeepsSide(s.At(i), t, value);
    ReservedPc(s.sides, t, value, s.enq, Reserve(s.At(i), t, value));
  }

  lemma {:induction false} ReservedKeeps(s: State, t: Tid, value: seq<Value>, side': Side, enq': Word)
    requires Inv(s) && s.PcOf(t).EnqCas? && |value| <= s.enq.remaining
    requires enq' == s.enq.(remaining := s.enq.remaining - |value|)
    requires |side'.cells| == |s.At(s.enq.index).cells| && side'.vals == s.At(s.enq.index).vals + value
    requires SideOk(side') && Inserts(t, s.At(s.enq.index), side')
    requires PcOk(enq', s.sides.Set(s.enq.index, side'), t, EnqIndex(value, s.enq))
    ensures Inv(s.Put(s.enq.index, side').(enq := enq', log := s.log + value).Go(t, EnqIndex(value, s.enq)))
  {
    ReservedLog(s, s.log, value, side');
    InsertAtKeeps(s, s.Put(s.enq.index, side').(enq := enq', log := s.log + value).Go(t, EnqIndex(value, s.enq)),
                  t, EnqIndex(value, s.enq), s.enq.index);
  }

  /** The thread that reserved has the claim its word stands for. */
  lemma {:induction false} ReservedPc(sides: Sides, t: Tid, value: seq<Value>, seen: Word, side': Side)
    requires var side := sides.Get(seen.index);
             && seen.remaining + |side.vals| == |side.cells| == |side'.cells|
             && ClaimOk(side', t, |side.vals|, value, 0)
    ensures PcOk(seen.(remaining := seen.remaining - |value|), sides.Set(seen.index, side'), t, EnqIndex(value, seen))
  {
  }

  lemma {:induction false} ReservedLog(s: State, log: seq<Value>, value: seq<Value>, side': Side)
    requires side'.vals == s.At(s.enq.index).vals + value
    ensures log + value == log + side'.vals[|s.At(s.enq.index).vals|..]
  {
  }

  lemma {:induction false} ThreadAt(s: State, t: Tid)
    requires ThreadsOk(s)
    ensures PcOk(s.enq, s.sides, t, s.PcOf(t))
  {
  }

  /** Reserving at the end of a buffer gives a claim to positions that were free. */
  lemma {:induction false} ReserveKeepsSide(side: Side, t: Tid, value: seq<Value>)
    requires SideOk(side) && side.drained == 0 && side.residue == [] && OwnsOnly(side, t, false)
    requires value != [] && |side.vals| + |value| <= |side.cells|
    ensures var side' := Reserve(side, t, value);
            SideOk(side') && Inserts(t, side, side') && ClaimOk(side', t, |side.vals|, value, 0)
  {
    InFlightConcat(side.own, Owned(t, |value|));
    InFlightOwned(Owned(t, |value|));
  }

  /** A step of a thread on positions of buffer `i` that it has already reserved. */
  lemma {:induction false} WorkAtKeeps(s: State, s': State, t: Tid, pc': Pc, i: Index, side': Side)
    requires Inv(s) && !Holds(s.PcOf(t)) && !Holds(pc') && !Claims(s.PcOf(t), Flip(i))
    requires s' == s.Put(i, side').Go(t, pc')
    requires Inserts(t, s.At(i), side') && SideOk(side') && OwnsOnly(side', t, Claims(pc', i))
    requires side'.vals == s.At(i).vals
    requires PcOk(s.enq, s.sides.Set(i, side'), t, pc')
    ensures Inv(s')
  {
    var e, e' := s.At(s.enq.index), s'.At(s.enq.index);
    assert e'.vals == e.vals && |e'.cells| == |e.cells| && e'.drained == e.drained;
    assert s'.log == s.log + e'.vals[|e.vals|..];
    InsertAtKeeps(s, s', t, pc', i);
  }

  /** Filling the next cell of a claim. */
  lemma {:induction false} FillKeepsSide(side: Side, t: Tid, base: nat, value: seq<Value>, done: nat)
    requires SideOk(side) && ClaimOk(side, t, base, value, done) && done < |value|
    ensures side.cells[base + done].None?
    ensures var side' := side.(cells := side.cells[base + done := Some(value[done])]);
            SideOk(side') && Inserts(t, side, side') && ClaimOk(side', t, base, value, done + 1)
  {
  }

  lemma {:induction false} EnqFillKeeps(s: State, t: Tid, value: seq<Value>, won: Word, base: nat, done: nat)
    requires Inv(s) && s.PcOf(t) == EnqInsert(value, won, base, done) && done < |value|
    ensures Inv(EnqInsertStep(s, t, value, won, base, done))
  {
    ThreadAt(s, t);
    var s' := EnqInsertStep(s, t, value, won, base, done);
    var i := won.index;
    FillKeepsSide(s.At(i), t, base, value, done);
    OwnsOnlyClaims(s, t, i);
    WorkAtKeeps(s, s', t, EnqInsert(value, won, base, done + 1), i, s'.At(i));
  }

  lemma {:induction false} AcknowledgeAt(own: seq<Option<Tid>>, base: nat, n: nat)
    requires base + n <= |own|
    ensures var own' := Acknowledge(own, base, n);
            && |own'| == |own|
            && (forall p :: 0 <= p < |own| ==> own'[p] == if base <= p < base + n then None else own[p])
  {
  }

  /** Acknowledging a filled claim. */
  lemma {:induction false} AckKeepsSide(side: Side, t: Tid, base: nat, value: seq<Value>)
    requires SideOk(side) && ClaimOk(side, t, base, value, |value|)
    ensures var side' := Acked(side, base, |value|);
            SideOk(side') && Inserts(t, side, side') && OwnsOnly(side', t, false) && side'.vals == side.vals
  {
    var side' := Acked(side, base, |value|);
    InFlightAcknowledge(side.own, base, |value|);
    AcknowledgeAt(side.own, base, |value|);
    assert side.own[base] == Some(t);
    assert side.drained == 0;
    forall p | 0 <= p < |side'.vals| && side'.own[p].None? ensures side'.cells[p] == Some(side'.vals[p]) {
      if base <= p < base + |value| {
        assert side.own[p] == Some(t);
      } else {
        assert side'.own[p] == side.own[p];
      }
    }
  }

  lemma {:induction false} EnqAckKeeps(s: State, t: Tid, value: seq<Value>, won: Word, base: nat)
    requires Inv(s) && s.PcOf(t) == EnqInsert(value, won, base, |value|)
    ensures Inv(EnqInsertStep(s, t, value, won, base, |value|))
  {
    ThreadAt(s, t);
    var side := s.At(won.index);
    AckKeepsSide(side, t, base, value);
    WorkAtKeeps(s, EnqInsertStep(s, t, value, won, base, |value|), t, EnqNotify, won.index, Acked(side, base, |value|));
  }

  lemma {:induction false} EnqIndexKeeps(s: State, t: Tid, value: seq<Value>, won: Word)
    requires Inv(s) && s.PcOf(t) == EnqIndex(value, won)
    ensures Inv(EnqIndexStep(s, t, value, won))
  {
    ThreadAt(s, t);
    var s' := EnqIndexStep(s, t, value, won);
    PcStepKeeps(s, s', t, EnqInsert(value, won, |s.At(won.index).cells| - won.remaining, 0));
  }

  // ---------------------------------------------------------------- dequeuing

  /** Only the lock holder can have left a residue, and this one moves. */
  lemma {:induction false} ResidueOfMover(s: State, s': State, t: Tid, pc': Pc)
    requires ResidueOk(s) && Moved(s, s', t, pc') && !s.PcOf(t).Panicked?
    requires s.holder == Some(t) || s.holder == None
    requires (pc'.Panicked? && s'.holder == Some(t))
             || (s'.sides.zero.residue == s.sides.zero.residue && s'.sides.one.residue == s.sides.one.residue)
    ensures ResidueOk(s')
  {
  }

  /** A step of the dequeuing thread that leaves the buffers and the enqueuing word alone. */
  lemma {:induction false} LockStepKeeps(s: State, s': State, t: Tid, pc': Pc)
    requires Inv(s) && Moved(s, s', t, pc')
    requires s'.enq == s.enq && s'.sides == s.sides && s'.log == s.log && s'.consumed == s.consumed && !s'.fault
    requires s.holder == Some(t) || s.holder == None
    requires s'.holder == if Holds(pc') then Some(t) else None
    requires s'.deq.Locked? <==> s'.holder.Some?
    requires s'.deq.Saved? ==> s'.deq.index == Hidden(s) && SavedOk(s.At(s'.deq.index), s'.deq.length)
    requires !Claims(s.PcOf(t), Zero) && !Claims(s.PcOf(t), One)
    requires PcOk(s.enq, s.sides, t, pc')
    requires Undrained(s') == Undrained(s) && CapacityOk(s') && !s.PcOf(t).Panicked?
    ensures Inv(s')
  {
    ResidueOfMover(s, s', t, pc');
    ThreadsUnmoved(s, s', t, pc');
    LockKeptByHolder(s, s', t, pc');
  }

  lemma {:induction false} ThreadsUnmoved(s: State, s': State, t: Tid, pc': Pc)
    requires ThreadsOk(s) && OwnersOk(s, Zero) && OwnersOk(s, One) && Moved(s, s', t, pc')
    requires s'.enq == s.enq && s'.sides == s.sides && PcOk(s.enq, s.sides, t, pc')
    requires !Claims(s.PcOf(t), Zero) && !Claims(s.PcOf(t), One)
    ensures ThreadsOk(s') && OwnersOk(s', Zero) && OwnersOk(s', One)
  {
    forall u: Tid ensures PcOk(s'.enq, s'.sides, u, s'.PcOf(u)) {
      if u != t { assert s'.PcOf(u) == s.PcOf(u); }
    }
  }

  lemma {:induction false} DeqLockKeeps(s: State, t: Tid, resize: Resize)
    requires Inv(s) && s.PcOf(t) == DeqLock(resize)
    ensures Inv(DeqLockStep(s, t, resize))
  {
    var s' := DeqLockStep(s, t, resize);
    if s.deq.Locked? {
      PcStepKeeps(s, s', t, DeqReturned(Conflict));
    } else {
      LockStepKeeps(s, s', t, DeqStart(resize, s.deq.index, s.deq.length, false));
    }
  }

  /** The holder moves on, keeping the lock and changing nothing else. */
  lemma {:induction false} HolderMoveKeeps(s: State, s': State, t: Tid, pc': Pc)
    requires Inv(s) && Holds(s.PcOf(t)) && Holds(pc')
    requires s' == s.Go(t, pc')
    requires !s.PcOf(t).DeqAdd? && !s.PcOf(t).DeqCapacity? && !s.PcOf(t).Panicked?
    requires Unpublished(s.PcOf(t)) == Unpublished(pc') || s.At(Hidden(s)).vals == []
    requires PcOk(s.enq, s.sides, t, pc')
    ensures Inv(s')
  {
    assert s.holder == Some(t);
    LockStepKeeps(s, s', t, pc');
  }

  /** The holder stores the dequeuing word, giving the lock back. */
  lemma {:induction false} StoreKeeps(s: State, s': State, t: Tid, pc': Pc, len: nat)
    requires Inv(s) && Holds(s.PcOf(t)) && !Holds(pc')
    requires s' == s.(deq := Saved(Hidden(s), len), holder := None).Go(t, pc')
    requires SavedOk(s.At(Hidden(s)), len)
    requires !Unpublished(s.PcOf(t)) && !s.PcOf(t).DeqCapacity? && !s.PcOf(t).Panicked?
    requires PcOk(s.enq, s.sides, t, pc')
    ensures Inv(s')
  {
    assert s.holder == Some(t);
    LockStepKeeps(s, s', t, pc');
  }

  lemma {:induction false} DeqStoreKeeps(s: State, t: Tid, len: nat, error: DequeueError)
    requires Inv(s)
    requires
      || (s.PcOf(t) == DeqStoreBack(Hidden(s), error) && len == 0)
      || (s.PcOf(t) == DeqStoreEmpty(Hidden(s)) && len == 0)
      || s.PcOf(t) == DeqSave(Hidden(s), len)
    ensures Inv(DeqStoreStep(s, t, Hidden(s), len, error))
  {
    ThreadAt(s, t);
    StoreKeeps(s, DeqStoreStep(s, t, Hidden(s), len, error), t, DeqReturned(error), len);
  }

  lemma {:induction false} RelStoreKeeps(s: State, t: Tid, i: Index)
    requires Inv(s) && s.PcOf(t) == RelStore(i)
    ensures Inv(RelStoreStep(s, t, i))
  {
    ThreadAt(s, t);
    StoreKeeps(s, RelStoreStep(s, t, i), t, Idle, 0);
  }

  lemma {:induction false} RequeueKeeps(s: State, t: Tid, i: Index, lo: nat, hi: nat)
    requires Inv(s) && (s.PcOf(t) == Slice(i, lo, hi) || s.PcOf(t) == Iter(i, lo, hi)) && lo < hi
    ensures Inv(RequeueStep(s, t, i, lo, hi))
  {
    ThreadAt(s, t);
    var s' := s.(deq := Saved(Hidden(s), hi - lo), holder := None).Go(t, Idle);
    assert RequeueStep(s, t, i, lo, hi) == s';
    StoreKeeps(s, s', t, Idle, hi - lo);
  }

  lemma {:induction false} DeqLoadKeeps(s: State, t: Tid, next: Next)
    requires Inv(s) && s.PcOf(t) == DeqLoad(next)
    ensures Inv(DeqLoadStep(s, t, next))
  {
    ThreadAt(s, t);
    var s' := DeqLoadStep(s, t, next);
    HolderMoveKeeps(s, s', t, s'.PcOf(t));
  }

  lemma {:induction false} DeqSwapFailKeeps(s: State, t: Tid, next: Next, cap: nat, seen: Word, spurious: bool)
    requires Inv(s) && s.PcOf(t) == DeqSwap(next, cap, seen) && (s.enq != seen || spurious)
    ensures Inv(DeqSwapStep(s, t, next, cap, seen, spurious))
  {
    ThreadAt(s, t);
    HolderMoveKeeps(s, DeqSwapStep(s, t, next, cap, seen, spurious), t, DeqSwap(next, cap, s.enq));
  }

  lemma {:induction false} DeqCapacityKeeps(s: State, t: Tid, next: Next, cap: nat, won: Word)
    requires Inv(s) && s.PcOf(t) == DeqCapacity(next, cap, won)
    ensures Inv(DeqCapacityStep(s, t, next, cap, won))
  {
  }

  lemma {:induction false} DeqNotifyKeeps(s: State, t: Tid, next: Next, cap: nat, won: Word)
    requires Inv(s) && s.PcOf(t) == DeqNotify(next, cap, won)
    ensures Inv(DeqNotifyStep(s, t, next, cap, won))
  {
    ThreadAt(s, t);
    var s' := DeqNotifyStep(s, t, next, cap, won);
    HolderMoveKeeps(s, s', t, s'.PcOf(t));
  }

  /** When the acknowledged length reaches the expected one nothing is in flight, and the range
      found is the undrained part of the buffer, full. */
  lemma {:induction false} SpinFindsSuffix(side: Side, len: nat)
    requires SideOk(side) && SavedOk(side, len) && len > 0 && side.length >= len
    ensures HandedOk(side, side.length - len, side.length)
    ensures side.length <= |side.cells| && AllFull(side.cells[side.length - len..side.length])
  {
    InFlightSettled(side.own);
    assert Settled(side.own) && side.length == |side.vals|;
    HandedIsFull(side, side.drained, |side.vals|);
  }

  lemma {:induction false} HandOutStep(s: State, t: Tid, i: Index, len: nat, spins: nat)
    requires !s.fault && s.At(i).length >= len
    requires var side := s.At(i);
             side.length <= |side.cells| && AllFull(side.cells[side.length - len..side.length])
    ensures DeqSpinStep(s, t, i, len, spins) == s.Go(t, Slice(i, s.At(i).length - len, s.At(i).length))
  {
  }

  lemma {:induction false} HandOutKeeps(s: State, t: Tid, i: Index, len: nat, spins: nat)
    requires Inv(s) && s.PcOf(t) == DeqSpin(i, len, spins) && s.At(i).length >= len
    ensures Inv(DeqSpinStep(s, t, i, len, spins))
  {
    HandOutOk(s, t, i, len, spins);
    var pc' := Slice(i, s.At(i).length - len, s.At(i).length);
    HolderMoveKeeps(s, s.Go(t, pc'), t, pc');
  }

  lemma {:induction false} HandOutOk(s: State, t: Tid, i: Index, len: nat, spins: nat)
    requires Inv(s) && s.PcOf(t) == DeqSpin(i, len, spins) && s.At(i).length >= len
    ensures var pc' := Slice(i, s.At(i).length - len, s.At(i).length);
            && DeqSpinStep(s, t, i, len, spins) == s.Go(t, pc')
            && PcOk(s.enq, s.sides, t, pc')
  {
    ThreadAt(s, t);
    SpinFindsSuffix(s.At(i), len);
    HandOutStep(s, t, i, len, spins);
  }

  lemma {:induction false} WaitKeeps(s: State, t: Tid, i: Index, len: nat, spins: nat)
    requires Inv(s) && s.PcOf(t) == DeqSpin(i, len, spins) && s.At(i).length < len
    ensures Inv(DeqSpinStep(s, t, i, len, spins))
  {
    ThreadAt(s, t);
    var pc' := if spins > 1 then DeqSpin(i, len, spins - 1) else DeqSave(i, len);
    assert DeqSpinStep(s, t, i, len, spins) == s.Go(t, pc');
    HolderMoveKeeps(s, s.Go(t, pc'), t, pc');
  }

  lemma {:induction false} HandedIsFull(side: Side, lo: nat, hi: nat)
    requires SideOk(side) && HandedOk(side, lo, hi)
    ensures lo <= hi <= |side.cells| && AllFull(side.cells[lo..hi])
    ensures Contents(side.cells[lo..hi]) == side.vals[lo..hi]
  {
  }

  lemma {:induction false} IntoSliceKeeps(s: State, t: Tid, i: Index, lo: nat, hi: nat)
    requires Inv(s) && s.PcOf(t) == Iter(i, lo, hi)
    ensures Inv(IntoSliceStep(s, t, i, lo, hi))
  {
    ThreadAt(s, t);
    HandedIsFull(s.At(i), lo, hi);
    HolderMoveKeeps(s, IntoSliceStep(s, t, i, lo, hi), t, Slice(i, lo, hi));
  }

  lemma {:induction false} IntoIterKeeps(s: State, t: Tid, i: Index, lo: nat, hi: nat)
    requires Inv(s) && s.PcOf(t) == Slice(i, lo, hi)
    ensures Inv(s.Go(t, Iter(i, lo, hi)))
  {
    ThreadAt(s, t);
    HolderMoveKeeps(s, s.Go(t, Iter(i, lo, hi)), t, Iter(i, lo, hi));
  }

  // ---------------------------------------------------------------- working on the hidden buffer

  /** The holder changes the hidden buffer, in which only it may have anything in flight. */
  lemma {:induction false} HiddenStepKeeps(s: State, s': State, t: Tid, pc': Pc, side': Side)
    requires Inv(s) && Holds(s.PcOf(t)) && Holds(pc') && !s.PcOf(t).DeqCapacity? && !s.PcOf(t).Panicked?
    requires s' == s.Put(Hidden(s), side').(consumed := s'.consumed).Go(t, pc')
    requires forall p :: 0 <= p < |s.At(Hidden(s)).own| ==>
               s.At(Hidden(s)).own[p] == None || s.At(Hidden(s)).own[p] == Some(t)
    requires forall p :: 0 <= p < |side'.own| && side'.own[p].Some? ==>
               side'.own[p] == Some(t) && Claims(pc', Hidden(s))
    requires SideOk(side')
    requires PcOk(s.enq, s.sides.Set(Hidden(s), side'), t, pc')
    requires s.consumed + Undrained(s) == s'.consumed + Undrained(s')
    requires pc'.Panicked? || side'.residue == s.At(Hidden(s)).residue
    ensures Inv(s')
  {
    HiddenFrame(s, s', t, pc', side');
    ResidueOfMover(s, s', t, pc');
    HolderStepKeeps(s, s', t, pc');
  }

  lemma {:induction false} HiddenFrame(s: State, s': State, t: Tid, pc': Pc, side': Side)
    requires Inv(s) && Holds(s.PcOf(t)) && Holds(pc') && !s.PcOf(t).DeqCapacity? && !s.PcOf(t).Panicked?
    requires s' == s.Put(Hidden(s), side').(consumed := s'.consumed).Go(t, pc')
    requires forall p :: 0 <= p < |s.At(Hidden(s)).own| ==>
               s.At(Hidden(s)).own[p] == None || s.At(Hidden(s)).own[p] == Some(t)
    requires forall p :: 0 <= p < |side'.own| && side'.own[p].Some? ==>
               side'.own[p] == Some(t) && Claims(pc', Hidden(s))
    requires s.consumed + Undrained(s) == s'.consumed + Undrained(s')
    ensures s.holder == Some(t) && HolderFrame(s, s', t, pc')
    ensures LogOk(s') && CapacityOk(s') && s'.At(s.enq.index) == s.At(s.enq.index) && s'.At(Hidden(s)) == side'
  {
    ThreadAt(s, t);
  }

  /** A released buffer has no history left. */
  lemma {:induction false} EmptySide(side: Side)
    requires SideOk(side) && side.vals == []
    ensures side.own == [] && side.drained == 0 && side.length == 0
    ensures forall p :: 0 <= p < |side.cells| ==>
              side.cells[p] == if p < |side.residue| then Some(side.residue[p]) else None
    ensures side.residue == [] <==> AllEmpty(side.cells)
  {
    assert side.residue != [] ==> side.cells[0] == Some(side.residue[0]);
  }

  /** The cells the resize closure leaves, even if it panics: what it inserted, and nothing behind. */
  lemma {:induction false} PreparedCells(cells: seq<Option<Value>>, resize: Resize)
    requires AllEmpty(cells) && |cells| < CAPACITY_LIMIT
    ensures var r := Prepare(cells, resize);
            && !r.clobbers && |r.inserted| <= |r.cells| < CAPACITY_LIMIT
            && (forall p :: 0 <= p < |r.cells| ==> r.cells[p] == if p < |r.inserted| then Some(r.inserted[p]) else None)
  {
  }

  /** What the resize closure leaves in an empty buffer. */
  lemma {:induction false} PrepareKeepsSide(side: Side, resize: Resize, t: Tid)
    requires SideOk(side) && side.vals == [] && side.residue == [] && Prepare(side.cells, resize).Ready?
    ensures var r := Prepare(side.cells, resize);
            var side' := Reserve(side.(cells := r.cells), t, r.inserted);
            && side.own == [] && side.drained == 0
            && !r.clobbers && SideOk(side') && side'.vals == r.inserted
            && side'.own == Owned(t, |r.inserted|)
            && side'.drained == 0
            && (r.inserted != [] ==> ClaimOk(side', t, 0, r.inserted, |r.inserted|))
  {
    EmptySide(side);
    PreparedCells(side.cells, resize);
    var r := Prepare(side.cells, resize);
    ReservedFromEmpty(side, r.cells, r.inserted, t);
  }

  lemma {:induction false} ReservedFromEmpty(side: Side, cells: seq<Option<Value>>, inserted: seq<Value>, t: Tid)
    requires side.vals == [] && side.own == [] && side.drained == 0 && side.length == 0 && side.residue == []
    requires |inserted| <= |cells| < CAPACITY_LIMIT
    requires forall p :: 0 <= p < |cells| ==> cells[p] == if p < |inserted| then Some(inserted[p]) else None
    ensures var side' := Reserve(side.(cells := cells), t, inserted);
            && SideOk(side') && side'.vals == inserted && side'.own == Owned(t, |inserted|) && side'.drained == 0
            && (inserted != [] ==> ClaimOk(side', t, 0, inserted, |inserted|))
  {
    var side' := Reserve(side.(cells := cells), t, inserted);
    assert side'.vals == inserted && side'.own == Owned(t, |inserted|);
    InFlightOwned(side'.own);
  }

  /** An empty buffer is replaced by one that holds the pre-inserted values only. */
  lemma {:induction false} PreparedKeeps(s: State, t: Tid, next: Next, side': Side)
    requires Inv(s) && s.PcOf(t).DeqStart? && s.At(Hidden(s)).vals == []
    requires SideOk(side') && side'.vals == next.inserted && side'.own == Owned(t, |next.inserted|)
             && side'.drained == 0 && side'.residue == []
    requires next.inserted != [] ==> !next.retried && ClaimOk(side', t, 0, next.inserted, |next.inserted|)
    requires NextOk(s.enq, s.sides.Set(Hidden(s), side'), next)
    ensures Inv(s.Put(Hidden(s), side').Go(t, if |next.inserted| > 0 then DeqAdd(next) else DeqLoad(next)))
  {
    var pc' := if |next.inserted| > 0 then DeqAdd(next) else DeqLoad(next);
    var s' := s.Put(Hidden(s), side').Go(t, pc');
    EmptySide(s.At(Hidden(s)));
    assert s.holder == Some(t);
    assert Undrained(s) == [] == Undrained(s');
    HiddenStepKeeps(s, s', t, pc', side');
  }

  lemma {:induction false} PrepareKeeps(s: State, t: Tid, resize: Resize, i: Index, retried: bool)
    requires Inv(s) && s.PcOf(t) == DeqStart(resize, i, 0, retried) && Prepare(s.At(i).cells, resize).Ready?
    ensures Inv(DeqStartStep(s, t, resize, i, 0, retried))
  {
    ThreadAt(s, t);
    var side, r := s.At(i), Prepare(s.At(i).cells, resize);
    var next, side' := Next(i, r.resized, r.inserted, |r.cells|, retried),
        Reserve(side.(cells := r.cells), t, r.inserted);
    PrepareKeepsSide(side, resize, t);
    PreparedStep(s, t, resize, i, retried);
    PreparedKeeps(s, t, next, side');
  }

  lemma {:induction false} PreparedStep(s: State, t: Tid, resize: Resize, i: Index, retried: bool)
    requires !s.fault && Prepare(s.At(i).cells, resize).Ready? && !Prepare(s.At(i).cells, resize).clobbers
    ensures var r := Prepare(s.At(i).cells, resize);
            var next := Next(i, r.resized, r.inserted, |r.cells|, retried);
            DeqStartStep(s, t, resize, i, 0, retried)
            == s.Put(i, Reserve(s.At(i).(cells := r.cells), t, r.inserted))
               .Go(t, if |r.inserted| > 0 then DeqAdd(next) else DeqLoad(next))
  {
  }

  lemma {:induction false} DeqStartKeeps(s: State, t: Tid, resize: Resize, i: Index, len: nat, retried: bool)
    requires Inv(s) && s.PcOf(t) == DeqStart(resize, i, len, retried) && len > 0
    ensures Inv(DeqStartStep(s, t, resize, i, len, retried))
  {
    ThreadAt(s, t);
    var pc' := DeqSpin(i, len, SPIN_LIMIT);
    assert DeqStartStep(s, t, resize, i, len, retried) == s.Go(t, pc');
    HolderMoveKeeps(s, s.Go(t, pc'), t, pc');
  }

  /** What a panicking resize closure leaves in an empty buffer. */
  lemma {:induction false} PanicKeepsSide(side: Side, resize: Resize)
    requires SideOk(side) && side.vals == [] && side.residue == [] && Prepare(side.cells, resize).Panic?
    ensures var r := Prepare(side.cells, resize);
            && side.own == [] && !r.clobbers
            && SideOk(side.(cells := r.cells, residue := r.inserted))
  {
    EmptySide(side);
    PreparedCells(side.cells, resize);
  }

  /** The lock holder has not panicked, so both buffers are as the reservations say. */
  lemma {:induction false} NoResidue(s: State, t: Tid)
    requires Inv(s) && s.holder == Some(t) && !s.PcOf(t).Panicked?
    ensures s.At(Hidden(s)).residue == []
  {
  }

  lemma {:induction false} PanicKeeps(s: State, t: Tid, resize: Resize, i: Index, retried: bool)
    requires Inv(s) && s.PcOf(t) == DeqStart(resize, i, 0, retried) && Prepare(s.At(i).cells, resize).Panic?
    ensures Inv(DeqStartStep(s, t, resize, i, 0, retried))
  {
    ThreadAt(s, t);
    assert s.holder == Some(t);
    NoResidue(s, t);
    var r := Prepare(s.At(i).cells, resize);
    var side' := s.At(i).(cells := r.cells, residue := r.inserted);
    PanicKeepsSide(s.At(i), resize);
    assert DeqStartStep(s, t, resize, i, 0, retried) == s.Put(i, side').Go(t, Panicked(i));
    HiddenStepKeeps(s, s.Put(i, side').Go(t, Panicked(i)), t, Panicked(i), side');
  }

  lemma {:induction false} DeqAddKeeps(s: State, t: Tid, next: Next)
    requires Inv(s) && s.PcOf(t) == DeqAdd(next)
    ensures Inv(DeqAddStep(s, t, next))
  {
    ThreadAt(s, t);
    var side := s.At(next.index);
    AckKeepsSide(side, t, 0, next.inserted);
    HiddenStepKeeps(s, DeqAddStep(s, t, next), t, DeqLoad(next), Acked(side, 0, |next.inserted|));
  }

  /** The swap publishes the pre-inserted values after everything reserved so far. */
  lemma {:induction false} SwapKeepsLog(s: State, s': State, t: Tid, next: Next, pc': Pc)
    requires LogOk(s) && s.holder == Some(t) && Unpublished(s.PcOf(t)) && pc'.DeqCapacity?
    requires s.At(Hidden(s)).vals == next.inserted && s.At(s.enq.index).drained == 0 && next.index == Hidden(s)
    requires s' == s.(enq := s'.enq, log := s.log + next.inserted).Go(t, pc') && s'.enq.index == next.index
    ensures LogOk(s') && CapacityOk(s')
  {
  }

  lemma {:induction false} DeqSwapKeeps(s: State, t: Tid, next: Next, cap: nat, seen: Word)
    requires Inv(s) && s.PcOf(t) == DeqSwap(next, cap, seen) && s.enq == seen
    ensures Inv(DeqSwapStep(s, t, next, cap, seen, false))
  {
    ThreadAt(s, t);
    assert s.holder == Some(t);
    var s' := DeqSwapStep(s, t, next, cap, seen, false);
    var pc' := DeqCapacity(next, cap, seen);
    assert s' == s.(enq := Word(seen.closed, next.capacity - |next.inserted|, next.index),
                    log := s.log + next.inserted).Go(t, pc');
    SwapKeepsLog(s, s', t, next, pc');
    HolderStepKeeps(s, s', t, pc');
  }

  /** Draining or clearing the front `lo..mid` of the undrained part. */
  lemma {:induction false} DrainKeepsSide(side: Side, lo: nat, mid: nat, hi: nat)
    requires SideOk(side) && HandedOk(side, lo, hi) && lo <= mid <= hi
    ensures hi <= |side.cells| && AllFull(side.cells[lo..mid])
    ensures SideOk(Cleared(side, lo, mid)) && HandedOk(Cleared(side, lo, mid), mid, hi)
    ensures side.vals[lo..] == Contents(side.cells[lo..mid]) + side.vals[mid..]
  {
    DrainReads(side, lo, mid, hi);
    ClearedAt(side, lo, mid);
  }

  lemma {:induction false} DrainReads(side: Side, lo: nat, mid: nat, hi: nat)
    requires SideOk(side) && HandedOk(side, lo, hi) && lo <= mid <= hi
    ensures AllFull(side.cells[lo..mid])
    ensures side.vals[lo..] == Contents(side.cells[lo..mid]) + side.vals[mid..]
  {
  }

  lemma {:induction false} ClearedAt(side: Side, lo: nat, hi: nat)
    requires lo <= hi <= |side.cells|
    ensures var cells := Cleared(side, lo, hi).cells;
            && |cells| == |side.cells|
            && forall p :: 0 <= p < |side.cells| ==> cells[p] == if lo <= p < hi then None else side.cells[p]
  {
  }

  /** What was read out has been consumed, the rest is still there. */
  lemma {:induction false} DrainConsumes(s: State, s': State, t: Tid, pc': Pc, side': Side, read: seq<Value>)
    requires s.holder == Some(t) && !Unpublished(s.PcOf(t)) && !Unpublished(pc')
    requires var side := s.At(Hidden(s));
             && side'.vals == side.vals && side.drained <= side'.drained <= |side.vals|
             && side.vals[side.drained..] == read + side.vals[side'.drained..]
    requires s' == s.Put(Hidden(s), side').(consumed := s.consumed + read).Go(t, pc')
    ensures s.consumed + Undrained(s) == s'.consumed + Undrained(s')
  {
  }

  lemma {:induction false} DrainStepKeeps(s: State, s': State, t: Tid, pc': Pc, lo: nat, mid: nat, side': Side)
    requires Inv(s) && (s.PcOf(t).Slice? || s.PcOf(t).Iter?) && (pc'.Iter? || pc'.RelLength?)
    requires var side := s.At(Hidden(s));
             && SideOk(side') && HandedOk(side', mid, |side.vals|) && Settled(side.own)
             && side.drained == lo && side'.drained == mid && side'.vals == side.vals && side'.residue == side.residue
             && lo <= mid <= |side.vals| <= |side.cells|
             && side.vals[lo..] == Contents(side.cells[lo..mid]) + side.vals[mid..]
             && s' == s.Put(Hidden(s), side').(consumed := s.consumed + Contents(side.cells[lo..mid])).Go(t, pc')
    requires PcOk(s.enq, s.sides.Set(Hidden(s), side'), t, pc')
    ensures Inv(s')
  {
    assert s.holder == Some(t);
    DrainConsumes(s, s', t, pc', side', Contents(s.At(Hidden(s)).cells[lo..mid]));
    HiddenStepKeeps(s, s', t, pc', side');
  }

  lemma {:induction false} TakeNextKeeps(s: State, t: Tid, i: Index, lo: nat, hi: nat)
    requires Inv(s) && s.PcOf(t) == Iter(i, lo, hi) && lo < hi
    ensures Inv(TakeNextStep(s, t, i, lo, hi))
  {
    ThreadAt(s, t);
    var side := s.At(i);
    DrainKeepsSide(side, lo, lo + 1, hi);
    assert side.cells[lo] == side.cells[lo..lo + 1][0];
    DrainStepKeeps(s, TakeNextStep(s, t, i, lo, hi), t, Iter(i, lo + 1, hi), lo, lo + 1, Cleared(side, lo, lo + 1));
  }

  lemma {:induction false} ReleaseKeeps(s: State, t: Tid, i: Index, lo: nat, hi: nat)
    requires Inv(s) && (s.PcOf(t) == Slice(i, lo, hi) || s.PcOf(t) == Iter(i, lo, hi))
    ensures Inv(ReleaseStep(s, t, i, lo, hi))
  {
    ThreadAt(s, t);
    var side := s.At(i);
    DrainKeepsSide(side, lo, hi, hi);
    DrainStepKeeps(s, ReleaseStep(s, t, i, lo, hi), t, RelLength(i), lo, hi, Cleared(side, lo, hi));
  }

  lemma {:induction false} RelLengthKeeps(s: State, t: Tid, i: Index)
    requires Inv(s) && s.PcOf(t) == RelLength(i)
    ensures Inv(RelLengthStep(s, t, i))
  {
    ThreadAt(s, t);
    var side' := s.At(i).(length := 0, vals := [], own := [], drained := 0);
    HiddenStepKeeps(s, RelLengthStep(s, t, i), t, RelStore(i), side');
  }

  // ---------------------------------------------------------------- every step

  lemma {:induction false} FlagKeeps(s: State, t: Tid, closed: bool, pc': Pc)
    requires Inv(s) && s.PcOf(t) == Idle && (pc' == Idle || pc' == CloseNotifyDequeue)
    ensures Inv(s.(enq := s.enq.(closed := closed)).Go(t, pc'))
  {
    PcStepKeeps(s, s.(enq := s.enq.(closed := closed)).Go(t, pc'), t, pc');
  }

  /** The moves of a thread without the lock that change nothing but where it is. */
  lemma {:induction false} MoveKeeps(s: State, t: Tid, pc': Pc)
    requires Inv(s) && !Holds(s.PcOf(t)) && !Holds(pc') && !s.PcOf(t).EnqIndex? && !s.PcOf(t).EnqInsert?
    requires PcOk(s.enq, s.sides, t, pc')
    ensures Inv(s.Go(t, pc'))
  {
    PcStepKeeps(s, s.Go(t, pc'), t, pc');
  }

  lemma {:induction false} StartKeeps(s: State, t: Tid, a: Action)
    requires Inv(s) && s.PcOf(t) == Idle && Enabled(s, t, a)
    ensures Inv(Apply(s, t, a))
  {
    match a
    case StartEnqueue(value) => MoveKeeps(s, t, if |value| == 0 then EnqReturned(EnqueueOk) else EnqLoad(value));
    case StartDequeue(resize) => MoveKeeps(s, t, DeqLock(resize));
    case Close => FlagKeeps(s, t, true, CloseNotifyDequeue);
    case Reopen => FlagKeeps(s, t, false, Idle);
  }

  lemma {:induction false} RetryKeeps(s: State, t: Tid, value: seq<Value>)
    requires Inv(s) && (s.PcOf(t) == EnqLoad(value) || (s.PcOf(t).EnqCas? && s.PcOf(t).value == value))
    ensures Inv(s.Go(t, Decide(value, s.enq)))
  {
    ThreadAt(s, t);
    MoveKeeps(s, t, Decide(value, s.enq));
  }

  predicate Enqueuing(pc: Pc) {
    pc.EnqLoad? || pc.EnqCas? || pc.EnqIndex? || pc.EnqInsert?
  }

  lemma {:induction false} EnqueueKeeps(s: State, t: Tid, a: Action)
    requires Inv(s) && Enqueuing(s.PcOf(t)) && Enabled(s, t, a)
    ensures Inv(Apply(s, t, a))
  {
    match s.PcOf(t)
    case EnqLoad(value) => RetryKeeps(s, t, value);
    case EnqCas(value, seen) =>
      if s.enq == seen && a.Advance? {
        EnqCasKeeps(s, t, value, seen);
      } else {
        RetryKeeps(s, t, value);
      }
    case EnqIndex(value, won) => EnqIndexKeeps(s, t, value, won);
    case EnqInsert(value, won, base, done) =>
      if done < |value| {
        EnqFillKeeps(s, t, value, won, base, done);
      } else {
        ThreadAt(s, t);
        EnqAckKeeps(s, t, value, won, base);
      }
  }

  predicate Handed(pc: Pc) {
    pc.Slice? || pc.Iter? || pc.RelLength? || pc.RelStore?
  }

  lemma {:induction false} RequeueAnyKeeps(s: State, t: Tid, i: Index, lo: nat, hi: nat)
    requires Inv(s) && (s.PcOf(t) == Slice(i, lo, hi) || s.PcOf(t) == Iter(i, lo, hi))
    ensures Inv(RequeueStep(s, t, i, lo, hi))
  {
    if lo < hi {
      RequeueKeeps(s, t, i, lo, hi);
    } else {
      ReleaseKeeps(s, t, i, lo, hi);
    }
  }

  lemma {:induction false} SliceKeeps(s: State, t: Tid, a: Action)
    requires Inv(s) && s.PcOf(t).Slice? && Enabled(s, t, a)
    ensures Inv(Apply(s, t, a))
  {
    var Slice(i, lo, hi) := s.PcOf(t);
    if a.IntoIter? {
      IntoIterKeeps(s, t, i, lo, hi);
    } else if a.Requeue? {
      RequeueAnyKeeps(s, t, i, lo, hi);
    } else {
      ReleaseKeeps(s, t, i, lo, hi);
    }
  }

  lemma {:induction false} IterKeeps(s: State, t: Tid, i: Index, lo: nat, hi: nat, a: Action)
    requires Inv(s) && s.PcOf(t) == Iter(i, lo, hi) && Enabled(s, t, a)
    ensures Inv(Apply(s, t, a))
  {
    if a.IntoSlice? {
      assert Apply(s, t, a) == IntoSliceStep(s, t, i, lo, hi);
      IntoSliceKeeps(s, t, i, lo, hi);
    } else if a.Requeue? {
      assert Apply(s, t, a) == RequeueStep(s, t, i, lo, hi);
      RequeueAnyKeeps(s, t, i, lo, hi);
    } else if lo < hi {
      assert Apply(s, t, a) == TakeNextStep(s, t, i, lo, hi);
      TakeNextKeeps(s, t, i, lo, hi);
    }
  }

  lemma {:induction false} HandedKeeps(s: State, t: Tid, a: Action)
    requires Inv(s) && Handed(s.PcOf(t)) && Enabled(s, t, a)
    ensures Inv(Apply(s, t, a))
  {
    match s.PcOf(t)
    case Slice(_, _, _) => SliceKeeps(s, t, a);
    case Iter(i, lo, hi) => IterKeeps(s, t, i, lo, hi, a);
    case RelLength(i) => RelLengthKeeps(s, t, i);
    case RelStore(i) => RelStoreKeeps(s, t, i);
  }

  predicate Dequeuing(pc: Pc) {
    Holds(pc) && !Handed(pc)
  }

  lemma {:induction false} DequeueKeeps(s: State, t: Tid, a: Action)
    requires Inv(s) && Dequeuing(s.PcOf(t)) && Enabled(s, t, a)
    ensures Inv(Apply(s, t, a))
  {
    ThreadAt(s, t);
    match s.PcOf(t)
    case DeqStart(resize, i, len, retried) =>
      if len > 0 {
        DeqStartKeeps(s, t, resize, i, len, retried);
      } else if Prepare(s.At(i).cells, resize).Ready? {
        PrepareKeeps(s, t, resize, i, retried);
      } else {
        PanicKeeps(s, t, resize, i, retried);
      }
    case DeqAdd(next) => DeqAddKeeps(s, t, next);
    case DeqLoad(next) => DeqLoadKeeps(s, t, next);
    case DeqStoreBack(i, error) => DeqStoreKeeps(s, t, 0, error);
    case DeqSwap(next, cap, seen) =>
      if s.enq == seen && a.Advance? {
        DeqSwapKeeps(s, t, next, cap, seen);
      } else {
        DeqSwapFailKeeps(s, t, next, cap, seen, a.FailSpuriously?);
      }
    case DeqCapacity(next, cap, won) => DeqCapacityKeeps(s, t, next, cap, won);
    case DeqNotify(next, cap, won) => DeqNotifyKeeps(s, t, next, cap, won);
    case DeqStoreEmpty(i) => DeqStoreKeeps(s, t, 0, Empty);
    case DeqSpin(i, len, spins) =>
      if s.At(i).length >= len {
        HandOutKeeps(s, t, i, len, spins);
      } else {
        WaitKeeps(s, t, i, len, spins);
      }
    case DeqSave(i, len) => DeqStoreKeeps(s, t, len, Pending);
  }

  /** Every step of every thread keeps the invariant. */
  lemma {:induction false} StepKeeps(s: State, t: Tid, a: Action)
    requires Inv(s) && Enabled(s, t, a)
    ensures Inv(Apply(s, t, a))
  {
    var pc := s.PcOf(t);
    if pc.Idle? {
      StartKeeps(s, t, a);
    } else if Enqueuing(pc) {
      EnqueueKeeps(s, t, a);
    } else if Handed(pc) {
      HandedKeeps(s, t, a);
    } else if Dequeuing(pc) {
      DequeueKeeps(s, t, a);
    } else if pc.DeqLock? {
      DeqLockKeeps(s, t, pc.resize);
    } else {
      MoveKeeps(s, t, if pc.EnqNotify? then EnqReturned(EnqueueOk)
                      else if pc.CloseNotifyDequeue? then CloseNotifyEnqueue
                      else Idle);
    }
  }
}

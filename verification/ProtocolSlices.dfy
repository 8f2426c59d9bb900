/** What a slice shows and what its owner does with it. */
module ProtocolSlices {
  import opened Options
  import opened Protocol
  import opened ProtocolInvariant
  import opened ProtocolSteps
  import opened ProtocolFlow
  import opened ProtocolTheorems

  /** A slice or an iterator shows all that was published, is not consumed and is not in the enqueuing
      buffer. */
  lemma {:induction false} SliceIsTheRest(states: seq<State>, steps: seq<Step>, k: nat, t: Tid)
    requires Execution(states, steps) && k < |states|
    requires states[k].PcOf(t).Slice? || states[k].PcOf(t).Iter?
    ensures var s, pc := states[k], states[k].PcOf(t);
            && View(s, pc.index, pc.lo, pc.hi) == Filled(Undrained(s))
            && s.log == s.consumed + Undrained(s) + s.At(s.enq.index).vals
  {
    ReachableInv(states, steps, k);
    RestIs(states[k], t);
    HandedIsFilled(states[k].At(states[k].PcOf(t).index), states[k].PcOf(t).lo, states[k].PcOf(t).hi);
  }

  lemma {:induction false} RestIs(s: State, t: Tid)
    requires Inv(s) && (s.PcOf(t).Slice? || s.PcOf(t).Iter?)
    ensures var pc := s.PcOf(t);
            && s.holder == Some(t) && pc.index == Hidden(s) && pc.lo <= pc.hi
            && SideOk(s.At(pc.index)) && HandedOk(s.At(pc.index), pc.lo, pc.hi)
            && Undrained(s) == s.At(pc.index).vals[pc.lo..] && |Undrained(s)| == pc.hi - pc.lo
  {
    ThreadAt(s, t);
    assert s.holder == Some(t);
    assert SideOk(s.At(s.PcOf(t).index));
  }

  /** The values that an action of the owner takes out. */
  function Taken(rest: seq<Value>, a: Action): seq<Value> {
    match a
    case Release => rest
    case TakeNext => if rest == [] then [] else [rest[0]]
    case _ => []
  }

  /** Where the owner is afterwards. */
  ghost predicate Leads(s': State, t: Tid, a: Action, i: Index, lo: nat, hi: nat) {
    var pc' := s'.PcOf(t);
    match a
    case Release => pc' == RelLength(i)
    case Requeue => if lo < hi then pc' == Idle && s'.deq == Saved(i, hi - lo) else pc' == RelLength(i)
    case TakeNext => pc' == Iter(i, if lo < hi then lo + 1 else lo, hi)
    case IntoIter => pc' == Iter(i, lo, hi)
    case _ => pc' == Slice(i, lo, hi)
  }

  lemma {:induction false} DrainsRest(s: State, s': State, t: Tid, lo: nat, mid: nat)
    requires lo <= mid <= |s.At(Hidden(s)).vals| && Undrained(s) == s.At(Hidden(s)).vals[lo..]
    requires s.holder == Some(t) && s'.holder == Some(t) && !Unpublished(s'.PcOf(t))
    requires s'.enq == s.enq && s'.At(Hidden(s)).vals == s.At(Hidden(s)).vals && s'.At(Hidden(s)).drained == mid
    ensures Undrained(s') == Undrained(s)[mid - lo..]
  {
  }

  lemma {:induction false} ReleaseTakes(s: State, t: Tid, i: Index, lo: nat, hi: nat)
    requires Inv(s) && (s.PcOf(t) == Slice(i, lo, hi) || s.PcOf(t) == Iter(i, lo, hi))
    ensures var s' := ReleaseStep(s, t, i, lo, hi);
            && s'.consumed == s.consumed + Undrained(s) && Undrained(s') == [] && s'.PcOf(t) == RelLength(i)
  {
    RestIs(s, t);
    HandedIsFull(s.At(i), lo, hi);
    assert s.At(i).vals[lo..hi] == s.At(i).vals[lo..];
    DrainsRest(s, ReleaseStep(s, t, i, lo, hi), t, lo, hi);
  }

  lemma {:induction false} FirstTaken(side: Side, lo: nat, hi: nat)
    requires SideOk(side) && HandedOk(side, lo, hi) && lo < hi
    ensures hi <= |side.cells| && Contents(side.cells[lo..lo + 1]) == [side.vals[lo]]
  {
    HandedIsFull(side, lo, hi);
    assert side.cells[lo..lo + 1][0] == side.cells[lo..hi][0];
    assert Contents(side.cells[lo..hi])[0] == side.vals[lo];
  }

  lemma {:induction false} TakeNextTakes(s: State, t: Tid, i: Index, lo: nat, hi: nat)
    requires Inv(s) && s.PcOf(t) == Iter(i, lo, hi) && lo < hi
    ensures var s', rest := TakeNextStep(s, t, i, lo, hi), Undrained(s);
            && rest != [] && s'.consumed == s.consumed + [rest[0]] && Undrained(s') == rest[1..]
            && s'.PcOf(t) == Iter(i, lo + 1, hi)
  {
    RestIs(s, t);
    FirstTaken(s.At(i), lo, hi);
    DrainsRest(s, TakeNextStep(s, t, i, lo, hi), t, lo, lo + 1);
  }

  /** What the owner's action `a` does to the values that are left. */
  ghost predicate Uses(s: State, s': State, t: Tid, a: Action)
    requires s.PcOf(t).Slice? || s.PcOf(t).Iter?
  {
    var pc, rest := s.PcOf(t), Undrained(s);
    && s'.consumed == s.consumed + Taken(rest, a) && rest == Taken(rest, a) + Undrained(s')
    && Leads(s', t, a, pc.index, pc.lo, pc.hi)
  }

  /** Moves of the owner that take nothing out. */
  lemma {:induction false} KeepsRest(s: State, t: Tid, a: Action)
    requires Inv(s) && (s.PcOf(t).Slice? || s.PcOf(t).Iter?) && Enabled(s, t, a) && !a.Release? && !a.TakeNext?
    requires a.Requeue? ==> s.PcOf(t).lo < s.PcOf(t).hi
    ensures var s', pc := Apply(s, t, a), s.PcOf(t);
            && s'.consumed == s.consumed && Undrained(s') == Undrained(s) && Leads(s', t, a, pc.index, pc.lo, pc.hi)
  {
    RestIs(s, t);
  }

  lemma {:induction false} KeepingUses(s: State, s': State, t: Tid, a: Action)
    requires (s.PcOf(t).Slice? || s.PcOf(t).Iter?) && Taken(Undrained(s), a) == []
    requires s'.consumed == s.consumed && Undrained(s') == Undrained(s)
    requires Leads(s', t, a, s.PcOf(t).index, s.PcOf(t).lo, s.PcOf(t).hi)
    ensures Uses(s, s', t, a)
  {
    assert s.consumed + [] == s.consumed && [] + Undrained(s) == Undrained(s);
  }

  lemma {:induction false} ReleasingUses(s: State, t: Tid, a: Action)
    requires Inv(s) && (s.PcOf(t).Slice? || s.PcOf(t).Iter?) && Enabled(s, t, a)
    requires a.Release? || (a.Requeue? && s.PcOf(t).lo >= s.PcOf(t).hi)
    ensures Uses(s, ReleaseStep(s, t, s.PcOf(t).index, s.PcOf(t).lo, s.PcOf(t).hi), t, a)
  {
    RestIs(s, t);
    ReleaseTakes(s, t, s.PcOf(t).index, s.PcOf(t).lo, s.PcOf(t).hi);
  }

  lemma {:induction false} TakingUses(s: State, t: Tid, a: Action)
    requires Inv(s) && s.PcOf(t).Iter? && a.TakeNext?
    ensures Uses(s, TakeNextStep(s, t, s.PcOf(t).index, s.PcOf(t).lo, s.PcOf(t).hi), t, a)
  {
    RestIs(s, t);
    if s.PcOf(t).lo < s.PcOf(t).hi {
      TakeNextTakes(s, t, s.PcOf(t).index, s.PcOf(t).lo, s.PcOf(t).hi);
    } else {
      KeepingUses(s, s, t, a);
    }
  }

  lemma {:induction false} ReleasesOrTakes(s: State, t: Tid, a: Action)
    requires (s.PcOf(t).Slice? || s.PcOf(t).Iter?) && Enabled(s, t, a)
    ensures var pc, s' := s.PcOf(t), Apply(s, t, a);
            && (a.Release? || (a.Requeue? && pc.lo >= pc.hi) ==> s' == ReleaseStep(s, t, pc.index, pc.lo, pc.hi))
            && (a.TakeNext? ==> pc.Iter? && s' == TakeNextStep(s, t, pc.index, pc.lo, pc.hi))
  {
  }

  lemma {:induction false} UseEffect(s: State, s': State, t: Tid, a: Action)
    requires Inv(s) && (s.PcOf(t).Slice? || s.PcOf(t).Iter?) && Enabled(s, t, a)
    requires s' == Apply(s, t, a)
    ensures Uses(s, s', t, a)
  {
    var keeps := !a.Release? && !a.TakeNext? && (a.Requeue? ==> s.PcOf(t).lo < s.PcOf(t).hi);
    if keeps {
      KeepsRest(s, t, a);
      KeepingUses(s, s', t, a);
    } else {
      ReleasesOrTakes(s, t, a);
      TakenUses(s, s', t, a);
    }
  }

  lemma {:induction false} TakenUses(s: State, s': State, t: Tid, a: Action)
    requires Inv(s) && (s.PcOf(t).Slice? || s.PcOf(t).Iter?) && Enabled(s, t, a)
    requires a.TakeNext? || a.Release? || (a.Requeue? && s.PcOf(t).lo >= s.PcOf(t).hi)
    requires var pc := s.PcOf(t);
             if a.TakeNext? then pc.Iter? && s' == TakeNextStep(s, t, pc.index, pc.lo, pc.hi)
             else s' == ReleaseStep(s, t, pc.index, pc.lo, pc.hi)
    ensures Uses(s, s', t, a)
  {
    if a.TakeNext? {
      TakingUses(s, t, a);
    } else {
      ReleasingUses(s, t, a);
    }
  }

  /** In every execution the owner of a slice or an iterator takes out exactly what its action says: dropping a
      slice all that is left, `next` the first of it, everything else nothing; and what is not taken is still
      there, in order, with putting it back saving exactly its length and giving up the lock. */
  lemma {:induction false} SliceUse(states: seq<State>, steps: seq<Step>, k: nat)
    requires Execution(states, steps) && k < |steps|
    requires states[k].PcOf(steps[k].t).Slice? || states[k].PcOf(steps[k].t).Iter?
    ensures Uses(states[k], states[k + 1], steps[k].t, steps[k].a)
  {
    ReachableInv(states, steps, k);
    UseEffect(states[k], states[k + 1], steps[k].t, steps[k].a);
  }

  /** A slice is handed out as long as expected, and not empty. */
  lemma {:induction false} HandsOutExpected(states: seq<State>, steps: seq<Step>, k: nat)
    requires Execution(states, steps) && k < |steps|
    requires states[k].PcOf(steps[k].t).DeqSpin? && states[k + 1].PcOf(steps[k].t).Slice?
    ensures var before, after := states[k].PcOf(steps[k].t), states[k + 1].PcOf(steps[k].t);
            after.index == before.index && after.hi - after.lo == before.len > 0
  {
    ReachableInv(states, steps, k);
    ThreadAt(states[k], steps[k].t);
    HandOutLength(states[k], steps[k].t);
  }

  lemma {:induction false} HandOutLength(s: State, t: Tid)
    requires s.PcOf(t).DeqSpin? && DequeueStep(s, t).PcOf(t).Slice?
    ensures var before, after := s.PcOf(t), DequeueStep(s, t).PcOf(t);
            after.index == before.index && after.hi - after.lo == before.len
  {
  }
}

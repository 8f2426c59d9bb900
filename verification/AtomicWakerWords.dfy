/** The state word of `src/synchronized/atomic_waker.rs`: module AtomicWaker keeps its two bits apart; here
    the accesses are the operations of the source on one machine word, with its assertions. */
module AtomicWakerWords {
  import opened AtomicWaker
  import P = PackedWords

  /** The state word after a step of a thread at `pc`. */
  function StateAfter(w: nat, pc: Pc): nat {
    match pc
    case RegStart => if w == 0 then P.REGISTERING else w
    case RegCas => if w == P.REGISTERING then 0 else w
    case RegSwap(_) => 0
    case WakeStart => P.Or(w, P.WAKING)
    case WakeClear(_) => P.And(w, P.Not(P.WAKING))
    case _ => w
  }

  /** What the source asserts of the word a thread at `pc` has read, in the branches that do not match it
      against a constant. */
  predicate Asserted(w: nat, pc: Pc) {
    var both := P.Or(P.REGISTERING, P.WAKING);
    match pc
    case RegStart => w != 0 && w != P.WAKING ==> w == P.REGISTERING || w == both
    case RegCas => w != P.REGISTERING ==> w == both
    case WakeStart => w != 0 ==> w == P.REGISTERING || w == both || w == P.WAKING
    case _ => true
  }

  /** Where the word sends a thread at `pc`. */
  function Branch(w: nat, pc: Pc): Pc {
    match pc
    case RegStart => if w == 0 then RegWrite else if w == P.WAKING then RegSelf else Done
    case RegCas => if w == P.REGISTERING then Done else RegTake
    case _ => if w == 0 then WakeTake else Done
  }

  predicate Branches(pc: Pc) {
    pc.RegStart? || pc.RegCas? || pc.WakeStart?
  }

  /** The state word along an execution, computed from zero by the operations of the source. */
  ghost predicate WordRun(states: seq<State>, steps: seq<Step>, words: seq<nat>) {
    && Execution(states, steps) && |words| == |states| && words[0] == 0
    && (forall k :: 0 <= k < |steps| ==>
         words[k + 1] == StateAfter(words[k], states[k].PcOf(steps[k].t)))
  }

  function WordOf(bits: Bits): nat {
    P.PackBits(bits.registering, bits.waking)
  }

  lemma {:induction false} WordStep(s: State, t: Tid, a: Action)
    requires Enabled(s, t, a)
    ensures StateAfter(WordOf(s.bits), s.PcOf(t)) == WordOf(Apply(s, t, a).bits)
    ensures Branches(s.PcOf(t)) && !Apply(s, t, a).fault ==> Apply(s, t, a).PcOf(t) == Branch(WordOf(s.bits), s.PcOf(t))
  {
    P.WakerBits(s.bits.registering, s.bits.waking);
  }

  lemma {:induction false} AssertionsHold(s: State, t: Tid)
    requires Inv(s)
    ensures Asserted(WordOf(s.bits), s.PcOf(t))
  {
    P.WakerBits(true, false);
    assert OwnerOk(s, t, s.PcOf(t));
  }

  lemma {:induction false} WordIsPacked(states: seq<State>, steps: seq<Step>, words: seq<nat>, k: nat)
    requires WordRun(states, steps, words) && k < |states|
    ensures words[k] == WordOf(states[k].bits)
  {
    if k > 0 {
      WordIsPacked(states, steps, words, k - 1);
      WordStep(states[k - 1], steps[k - 1].t, steps[k - 1].a);
    }
  }

  /** However registrations and wake-ups interleave, the state word that the source's operations compute
      never leaves its four values, each of the three assertions holds of the word read, and the word read
      decides where the thread goes. */
  lemma {:induction false} StateWordRefines(states: seq<State>, steps: seq<Step>, words: seq<nat>, k: nat)
    requires WordRun(states, steps, words) && k < |steps|
    ensures words[k] in {0, P.REGISTERING, P.WAKING, P.Or(P.REGISTERING, P.WAKING)}
    ensures Asserted(words[k], states[k].PcOf(steps[k].t))
    ensures var pc := states[k].PcOf(steps[k].t);
            Branches(pc) ==> states[k + 1].PcOf(steps[k].t) == Branch(words[k], pc)
  {
    WordIsPacked(states, steps, words, k);
    ReachableInv(states, steps, k);
    ReachableInv(states, steps, k + 1);
    P.WakerBits(true, false);
    AssertionsHold(states[k], steps[k].t);
    WordStep(states[k], steps[k].t, steps[k].a);
  }
}

/** The machine words of `src/queue.rs` and `src/synchronized/atomic_waker.rs`: bit operations on
    64-bit words, and the proof that they act on the fields packed into them. */
module PackedWords {
  import opened Options

  const WORD: nat := 0x1_0000_0000_0000_0000
  const CLOSED_FLAG: nat := 0x8000_0000_0000_0000
  const DEQUEUING_LOCKED: nat := 0xFFFF_FFFF_FFFF_FFFF

  // ---------------------------------------------------------------- bit operations

  /** Bitwise conjunction. */
  function And(x: nat, y: nat): nat
    decreases x + y
  {
    if x == 0 || y == 0 then 0
    else 2 * And(x / 2, y / 2) + (if x % 2 == 1 && y % 2 == 1 then 1 else 0)
  }

  /** Bitwise disjunction. */
  function Or(x: nat, y: nat): nat
    decreases x + y
  {
    if x == 0 then y else if y == 0 then x
    else 2 * Or(x / 2, y / 2) + (if x % 2 == 1 || y % 2 == 1 then 1 else 0)
  }

  /** Complement of a word. */
  function Not(x: nat): nat
    requires x < WORD
  {
    WORD - 1 - x
  }

  /** A shift to the left by one drops the highest bit. */
  function ShiftLeft(x: nat): nat {
    2 * x % WORD
  }

  function ShiftRight(x: nat): nat {
    x / 2
  }

  function Pow2(k: nat): nat {
    if k == 0 then 1 else 2 * Pow2(k - 1)
  }

  lemma {:induction false} AndOne(x: nat)
    ensures And(x, 1) == x % 2
  {
  }

  /** A mask of low bits drops the high one. */
  lemma {:induction false} AndMask(x: nat, k: nat)
    requires x < 2 * Pow2(k)
    ensures 0 < Pow2(k) && And(x, Pow2(k) - 1) == if x < Pow2(k) then x else x - Pow2(k)
    decreases k
  {
    if k > 0 && x > 0 {
      AndMask(x / 2, k - 1);
      var m := Pow2(k - 1);
      assert (2 * m - 1) / 2 == m - 1 && (2 * m - 1) % 2 == 1;
    } else if k > 0 {
      AndMask(0, k - 1);
    }
  }

  /** A single high bit selects itself. */
  lemma {:induction false} AndBit(x: nat, k: nat)
    requires x < 2 * Pow2(k)
    ensures And(x, Pow2(k)) == if x < Pow2(k) then 0 else Pow2(k)
    decreases k
  {
    if k == 0 {
      AndOne(x);
    } else if x > 0 {
      AndBit(x / 2, k - 1);
    }
  }

  lemma {:induction false} OrBit(x: nat, k: nat)
    requires x < 2 * Pow2(k)
    ensures Or(x, Pow2(k)) == if x < Pow2(k) then x + Pow2(k) else x
    decreases k
  {
    if k == 0 {
      assert x == 1 ==> Or(1, 1) == 2 * Or(0, 0) + 1;
    } else if x > 0 {
      OrBit(x / 2, k - 1);
    }
  }

  /** The lowest bit can be set by adding it. */
  lemma {:induction false} OrLow(i: nat, y: nat)
    requires i < 2 && y % 2 == 0
    ensures Or(i, y) == i + y
  {
  }

  lemma {:induction false} OrZero(x: nat)
    ensures Or(x, 0) == x && And(x, 0) == 0 && And(0, x) == 0
  {
  }

  lemma {:induction false} HighBit()
    ensures Pow2(63) == CLOSED_FLAG
  {
    assert Pow2(8) == 0x100;
    Pow2Add(8, 8);
    Pow2Add(16, 16);
    Pow2Add(32, 16);
    Pow2Add(48, 8);
    Pow2Add(56, 7);
    assert Pow2(7) == 0x80;
  }

  lemma {:induction false} Pow2Add(a: nat, b: nat)
    ensures Pow2(a + b) == Pow2(a) * Pow2(b)
    decreases b
  {
    if b > 0 {
      Pow2Add(a, b - 1);
      assert Pow2(a + b) == 2 * Pow2(a + b - 1);
    } else {
      assert Pow2(0) == 1;
    }
  }

  // ---------------------------------------------------------------- EnqueuingCapacity

  /** `assert!` in `new` is the panic `None`. */
  function NewEnqueuing(index: nat, capacity: nat): Option<nat> {
    if ShiftLeft(capacity) < CLOSED_FLAG then Some(Or(index, ShiftLeft(capacity))) else None
  }

  function BufferIndex(w: nat): nat { And(w, 1) }

  function RemainingCapacity(w: nat): nat { ShiftRight(And(w, Not(CLOSED_FLAG))) }

  predicate IsClosed(w: nat) { And(w, CLOSED_FLAG) != 0 }

  /** `checked_sub` of the shifted size. */
  function TryReserve(w: nat, size: nat): Option<nat> {
    if ShiftLeft(size) <= w then Some(w - ShiftLeft(size)) else None
  }

  function WithClosed(w: nat, enqueuing: nat): nat { Or(w, And(enqueuing, CLOSED_FLAG)) }

  function CloseWord(w: nat): nat { Or(w, CLOSED_FLAG) }

  function ReopenWord(w: nat): nat { And(w, Not(CLOSED_FLAG)) }

  /** The layout: closed flag, remaining capacity, buffer index. */
  function Pack(closed: bool, remaining: nat, index: nat): nat {
    (if closed then CLOSED_FLAG else 0) + 2 * remaining + index
  }

  /** What fits into the layout: bounds that `check_overflow` enforces with room to spare. */
  predicate Fits(remaining: nat, index: nat) {
    remaining < 0x4000_0000_0000_0000 && index < 2
  }

  /** The accessors read the packed fields back. */
  lemma {:induction false} FieldsOfPack(closed: bool, remaining: nat, index: nat)
    requires Fits(remaining, index)
    ensures var w := Pack(closed, remaining, index);
            && w < WORD && BufferIndex(w) == index && RemainingCapacity(w) == remaining && IsClosed(w) == closed
  {
    var w := Pack(closed, remaining, index);
    HighBit();
    AndOne(w);
    AndMask(w, 63);
    AndBit(w, 63);
  }

  /** Distinct fields pack to distinct words, so comparing words is comparing fields. */
  lemma {:induction false} PackInjective(c: bool, r: nat, i: nat, c': bool, r': nat, i': nat)
    requires Fits(r, i) && Fits(r', i')
    ensures Pack(c, r, i) == Pack(c', r', i') <==> c == c' && r == r' && i == i'
  {
  }

  lemma {:induction false} NewEnqueuingPacks(index: nat, capacity: nat)
    requires Fits(capacity, index)
    ensures NewEnqueuing(index, capacity) == Some(Pack(false, capacity, index))
  {
    OrLow(index, 2 * capacity);
  }

  /** What `try_reserve` does to an open word, for every size: the shift keeps 63 bits of it. */
  lemma {:induction false} ReserveExact(remaining: nat, index: nat, size: nat)
    requires Fits(remaining, index) && size < WORD
    ensures var kept := if size < CLOSED_FLAG then size else size - CLOSED_FLAG;
            TryReserve(Pack(false, remaining, index), size)
              == if kept <= remaining then Some(Pack(false, remaining - kept, index)) else None
  {
  }

  /** `try_reserve` succeeds exactly when the size fits, for the sizes below 2^63 and for those above
      whose truncation does not fit either; for no others. */
  lemma {:induction false} ReserveIffFits(remaining: nat, index: nat, size: nat)
    requires Fits(remaining, index) && size < WORD
    ensures (TryReserve(Pack(false, remaining, index), size).Some? <==> size <= remaining)
              <==> (size < CLOSED_FLAG || size - CLOSED_FLAG > remaining)
  {
  }

  /** A size of 2^63 reserves nothing and succeeds, even on a full buffer. */
  lemma {:induction false} HugeSizeIsTruncated()
    ensures TryReserve(Pack(false, 0, 0), CLOSED_FLAG) == Some(Pack(false, 0, 0))
  {
  }

  /** Closing and reopening touch the flag only; a swap takes it over from the previous word. */
  lemma {:induction false} FlagIsFieldwise(closed: bool, remaining: nat, index: nat, remaining': nat, index': nat)
    requires Fits(remaining, index) && Fits(remaining', index')
    ensures var w := Pack(closed, remaining, index);
            && CloseWord(w) == Pack(true, remaining, index)
            && ReopenWord(w) == Pack(false, remaining, index)
            && WithClosed(Pack(false, remaining', index'), w) == Pack(closed, remaining', index')
  {
    var w, n := Pack(closed, remaining, index), Pack(false, remaining', index');
    HighBit();
    AndMask(w, 63);
    AndBit(w, 63);
    OrBit(w, 63);
    OrBit(n, 63);
    OrZero(n);
  }

  // ---------------------------------------------------------------- DequeuingLength

  function NewDequeuing(index: nat, length: nat): nat { Or(index, ShiftLeft(length)) }

  function DequeuingIndex(w: nat): nat { And(w, 1) }

  function BufferLen(w: nat): nat { ShiftRight(w) }

  /** The dequeuing word gives its fields back, and no length within the capacity limit packs to the
      lock sentinel: only the length 2^63 - 1 would. */
  lemma {:induction false} DequeuingFields(index: nat, length: nat)
    requires index < 2 && length < CLOSED_FLAG
    ensures var w := NewDequeuing(index, length);
            && w < WORD && DequeuingIndex(w) == index && BufferLen(w) == length
            && (w == DEQUEUING_LOCKED <==> index == 1 && length == CLOSED_FLAG - 1)
  {
    OrLow(index, 2 * length);
    AndOne(2 * length + index);
  }

  // ---------------------------------------------------------------- the state of AtomicWaker

  const REGISTERING: nat := 1
  const WAKING: nat := 2

  function PackBits(registering: bool, waking: bool): nat {
    (if registering then REGISTERING else 0) + (if waking then WAKING else 0)
  }

  /** `fetch_or(WAKING)` and `fetch_and(!WAKING)` set and clear one bit: the state word never takes
      more than its four values, which are distinct. */
  lemma {:induction false} WakerBits(registering: bool, waking: bool)
    ensures Or(PackBits(registering, waking), WAKING) == PackBits(registering, true)
    ensures And(PackBits(registering, waking), Not(WAKING)) == PackBits(registering, false)
    ensures forall r, w :: PackBits(r, w) == PackBits(registering, waking) <==> r == registering && w == waking
  {
    var x := PackBits(registering, waking);
    assert Pow2(1) == 2;
    OrBit(x, 1);
    var y := Not(WAKING);
    assert y % 2 == 1 && (y / 2) % 2 == 0;
    AndUnfold(x, y);
  }

  lemma {:induction false} AndUnfold(x: nat, y: nat)
    requires x < 4 && y > 3 && y % 2 == 1 && (y / 2) % 2 == 0
    ensures And(x, y) == x % 2
  {
    if x > 0 {
      assert And(x, y) == 2 * And(x / 2, y / 2) + x % 2;
      if x / 2 > 0 {
        assert And(x / 2, y / 2) == 2 * And(x / 4, y / 4);
        OrZero(y / 4);
      }
    }
  }
}

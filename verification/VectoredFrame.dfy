/** Framing of a vectored slice in place (`src/write_vectored.rs`): `frame` puts a header and a trailer
    into slots of the slice, and dropping the frame puts back what was there.

    The slots are the io-slices of the buffered elements with one slot before the first and one after
    the last.  Nothing in the code stops a frame from reusing a slot of an element, which is what a
    partial range does. */
module VectoredFrame {
  import opened Options

  datatype IoSlice = IoSlice(bytes: seq<int>)

  datatype Bound = Included(n: nat) | Excluded(n: nat) | Unbounded

  /** The range of slots a frame shows, and what it has replaced. */
  datatype Frame = Frame(lo: nat, hi: nat, header: Option<IoSlice>, trailer: Option<IoSlice>)

  // ---------------------------------------------------------------- the code

  function StartOf(start: Bound): nat {
    match start
    case Included(n) => n
    case Excluded(n) => n + 1
    case Unbounded => 0
  }

  function EndOf(end: Bound, len: nat): nat {
    match end
    case Included(n) => n + 2
    case Excluded(n) => n + 1
    case Unbounded => len
  }

  class VectoredSlice {
    const slots: array<IoSlice>

    constructor (slots: array<IoSlice>)
      ensures this.slots == slots
    {
      this.slots := slots;
    }

    /** `mem::replace` of one slot, if there is something to put there; out of bounds is a panic. */
    method Replace(i: int, o: Option<IoSlice>) returns (ok: bool, was: Option<IoSlice>)
      modifies slots
      ensures ok <==> (o.Some? ==> 0 <= i < slots.Length)
      ensures was == if ok && o.Some? then Some(old(slots[..])[i]) else None
      ensures slots[..] == PutAt(old(slots[..]), i, o)
    {
      if o.None? {
        return true, None;
      }
      if i < 0 || i >= slots.Length {
        return false, None;
      }
      ok, was := true, Some(slots[i]);
      slots[i] := o.value;
    }

    /** `None` is a panic: an index or a range out of bounds. */
    method MakeFrame(start: Bound, end: Bound, header: Option<IoSlice>, trailer: Option<IoSlice>)
        returns (r: Option<Frame>)
      modifies slots
      ensures var s, e := StartOf(start), EndOf(end, slots.Length);
              && (r.Some? <==> FrameFits(slots.Length, s, e, header, trailer))
              && (r.Some? ==> r.value == TheFrame(old(slots[..]), s, e, header, trailer))
              && slots[..] == Spliced(old(slots[..]), s, e, header, trailer)
    {
      r := FrameBetween(StartOf(start), EndOf(end, slots.Length), header, trailer);
    }

    method FrameBetween(s: nat, e: nat, header: Option<IoSlice>, trailer: Option<IoSlice>) returns (r: Option<Frame>)
      modifies slots
      ensures r.Some? <==> FrameFits(slots.Length, s, e, header, trailer)
      ensures r.Some? ==> r.value == TheFrame(old(slots[..]), s, e, header, trailer)
      ensures slots[..] == Spliced(old(slots[..]), s, e, header, trailer)
    {
      var headerFits, oldHeader := Replace(s, header);
      if !headerFits {
        return None;
      }
      var trailerFits, oldTrailer := Replace(e - 1, trailer);
      if !trailerFits {
        return None;
      }
      var lo := if header.Some? then s else s + 1;
      var hi := if trailer.Some? then e else e - 1;
      if lo > hi || hi > slots.Length {
        return None;
      }
      return Some(Frame(lo, hi, oldHeader, oldTrailer));
    }

    /** `VectoredFrame::drop`; `false` is a panic, which happens before anything is written. */
    method DropFrame(f: Frame) returns (dropped: bool)
      requires f.lo <= f.hi <= slots.Length
      modifies slots
      ensures dropped <==> DropFits(f)
      ensures slots[..] == if dropped then Restored(old(slots[..]), f) else old(slots[..])
    {
      if f.header.Some? {
        if f.lo == f.hi {
          return false;
        }
        slots[f.lo] := f.header.value;
      }
      if f.trailer.Some? {
        if f.lo == f.hi {
          return false;
        }
        slots[f.hi - 1] := f.trailer.value;
      }
      return true;
    }
  }

  // ---------------------------------------------------------------- its specification

  function AsSlots(o: Option<IoSlice>): seq<IoSlice> {
    if o.Some? then [o.value] else []
  }

  /** The range of slots shown. */
  function Lo(s: nat, header: Option<IoSlice>): nat {
    if header.Some? then s else s + 1
  }

  function Hi(e: nat, trailer: Option<IoSlice>): int {
    if trailer.Some? then e else e - 1
  }

  /** Exactly when `frame` does not panic, for the start `s` and the end `e` it works with. */
  predicate FrameFits(len: nat, s: nat, e: nat, header: Option<IoSlice>, trailer: Option<IoSlice>) {
    && Lo(s, header) <= Hi(e, trailer) <= len
    && (header.Some? ==> s < len)
    && (trailer.Some? ==> 0 < e)
  }

  function PutAt(slots: seq<IoSlice>, i: int, o: Option<IoSlice>): (r: seq<IoSlice>)
    ensures |r| == |slots|
  {
    if o.Some? && 0 <= i < |slots| then slots[i := o.value] else slots
  }

  /** The slots with the header and then the trailer written, as far as a panic lets it come. */
  function Spliced(slots: seq<IoSlice>, s: nat, e: nat, header: Option<IoSlice>, trailer: Option<IoSlice>)
      : (r: seq<IoSlice>)
    ensures |r| == |slots|
  {
    if header.Some? && s >= |slots| then slots else PutAt(PutAt(slots, s, header), e - 1, trailer)
  }

  /** What the frame remembers: the trailer slot is read after the header was written. */
  function TheFrame(slots: seq<IoSlice>, s: nat, e: nat, header: Option<IoSlice>, trailer: Option<IoSlice>): (f: Frame)
    requires FrameFits(|slots|, s, e, header, trailer)
    ensures f.lo <= f.hi <= |slots|
  {
    Frame(Lo(s, header), Hi(e, trailer),
          if header.Some? then Some(slots[s]) else None,
          if trailer.Some? then Some(PutAt(slots, s, header)[e - 1]) else None)
  }

  predicate DropFits(f: Frame) {
    f.header.Some? || f.trailer.Some? ==> f.lo < f.hi
  }

  function Restored(slots: seq<IoSlice>, f: Frame): (r: seq<IoSlice>)
    requires f.lo <= f.hi <= |slots| && DropFits(f)
  {
    var withHeader := if f.header.Some? then slots[f.lo := f.header.value] else slots;
    if f.trailer.Some? then withHeader[f.hi - 1 := f.trailer.value] else withHeader
  }

  // ---------------------------------------------------------------- what is promised

  /** `Deref` of the slice: the buffered elements, without the slots around them. */
  function Elements(slots: seq<IoSlice>): seq<IoSlice>
    requires |slots| >= 2
  {
    slots[1..|slots| - 1]
  }

  /** The end of a range of elements, as Rust means it. */
  function RangeEnd(end: Bound, count: nat): nat {
    match end
    case Included(n) => n + 1
    case Excluded(n) => n
    case Unbounded => count
  }

  /** Whether a range contains a position, as Rust means it. */
  predicate InRange(start: Bound, end: Bound, p: nat) {
    && (match start
        case Included(n) => n <= p
        case Excluded(n) => n < p
        case Unbounded => true)
    && (match end
        case Included(n) => p <= n
        case Excluded(n) => p < n
        case Unbounded => true)
  }

  /** The elements at the positions that the range contains, in order. */
  function Picked(elements: seq<IoSlice>, start: Bound, end: Bound): seq<IoSlice> {
    if |elements| == 0 then []
    else
      var n := |elements| - 1;
      Picked(elements[..n], start, end) + if InRange(start, end, n) then [elements[n]] else []
  }

  /** What a frame of a range of elements is to show. */
  function Expected(slots: seq<IoSlice>, start: Bound, end: Bound, header: Option<IoSlice>,
      trailer: Option<IoSlice>): seq<IoSlice>
    requires |slots| >= 2
  {
    AsSlots(header) + Picked(Elements(slots), start, end) + AsSlots(trailer)
  }

  /** A range within bounds contains the positions from its start to before its end. */
  lemma {:induction false} RangeIs(start: Bound, end: Bound, count: nat, p: nat)
    requires p < count
    ensures InRange(start, end, p) <==> StartOf(start) <= p < RangeEnd(end, count)
  {
  }

  /** The elements from `lo` to `hi` among the first `m`. */
  function Among(elements: seq<IoSlice>, lo: nat, hi: nat, m: nat): seq<IoSlice>
    requires lo <= hi <= |elements| && m <= |elements|
  {
    if m <= lo then [] else if m <= hi then elements[lo..m] else elements[lo..hi]
  }

  lemma {:induction false} AmongNext(elements: seq<IoSlice>, lo: nat, hi: nat, m: nat)
    requires lo <= hi <= |elements| && m < |elements|
    ensures Among(elements, lo, hi, m + 1) == Among(elements, lo, hi, m) + if lo <= m < hi then [elements[m]] else []
  {
  }

  lemma {:induction false} PickedNext(elements: seq<IoSlice>, start: Bound, end: Bound, m: nat)
    requires m < |elements|
    ensures Picked(elements[..m + 1], start, end)
            == Picked(elements[..m], start, end) + if InRange(start, end, m) then [elements[m]] else []
  {
    assert elements[..m + 1][..m] == elements[..m];
  }

  lemma {:induction false} PickedUpTo(elements: seq<IoSlice>, start: Bound, end: Bound, m: nat)
    requires m <= |elements| && StartOf(start) <= RangeEnd(end, |elements|) <= |elements|
    ensures Picked(elements[..m], start, end) == Among(elements, StartOf(start), RangeEnd(end, |elements|), m)
    decreases m
  {
    if m > 0 {
      PickedUpTo(elements, start, end, m - 1);
      PickedNext(elements, start, end, m - 1);
      RangeIs(start, end, |elements|, m - 1);
      AmongNext(elements, StartOf(start), RangeEnd(end, |elements|), m - 1);
    }
  }

  /** A range of elements within bounds contains those from its start to before its end. */
  lemma {:induction false} PickedIs(elements: seq<IoSlice>, start: Bound, end: Bound)
    requires StartOf(start) <= RangeEnd(end, |elements|) <= |elements|
    ensures Picked(elements, start, end) == elements[StartOf(start)..RangeEnd(end, |elements|)]
  {
    assert elements[..|elements|] == elements;
    PickedUpTo(elements, start, end, |elements|);
  }

  /** What a frame does show. */
  function Shown(slots: seq<IoSlice>, s: nat, e: nat, header: Option<IoSlice>, trailer: Option<IoSlice>): seq<IoSlice>
    requires FrameFits(|slots|, s, e, header, trailer)
  {
    Spliced(slots, s, e, header, trailer)[Lo(s, header)..Hi(e, trailer)]
  }

  lemma {:induction false} Put(slots: seq<IoSlice>, s: nat, e: nat, header: Option<IoSlice>, trailer: Option<IoSlice>)
    requires s + 2 <= e <= |slots|
    ensures var r := Spliced(slots, s, e, header, trailer);
            && (forall p :: s < p < e - 1 ==> r[p] == slots[p])
            && (header.Some? ==> r[s] == header.value)
            && (trailer.Some? ==> r[e - 1] == trailer.value)
  {
  }

  /** Between the slots of the header and the trailer are elements, left alone. */
  lemma {:induction false} Middle(slots: seq<IoSlice>, r: seq<IoSlice>, s: nat, e: nat)
    requires s + 2 <= e <= |slots| == |r|
    requires forall p :: s < p < e - 1 ==> r[p] == slots[p]
    ensures r[s + 1..e - 1] == Elements(slots)[s..e - 2]
  {
    var middle := Elements(slots)[s..e - 2];
    assert forall p :: 0 <= p < |middle| ==> middle[p] == Elements(slots)[s + p] == slots[s + p + 1] == r[s + p + 1];
  }

  /** A range of slots, one wider on the left or the right. */
  lemma {:induction false} Widen(r: seq<IoSlice>, lo: nat, hi: nat, header: Option<IoSlice>, trailer: Option<IoSlice>)
    requires 0 < lo <= hi < |r|
    requires header.Some? ==> r[lo - 1] == header.value
    requires trailer.Some? ==> r[hi] == trailer.value
    ensures r[if header.Some? then lo - 1 else lo..if trailer.Some? then hi + 1 else hi]
              == AsSlots(header) + r[lo..hi] + AsSlots(trailer)
  {
    assert header.Some? ==> r[lo - 1..hi] == AsSlots(header) + r[lo..hi];
    assert trailer.Some? ==> r[lo..hi + 1] == r[lo..hi] + AsSlots(trailer);
    assert header.Some? && trailer.Some? ==> r[lo - 1..hi + 1] == AsSlots(header) + r[lo..hi] + AsSlots(trailer);
    assert header.None? ==> AsSlots(header) + r[lo..hi] == r[lo..hi];
    assert trailer.None? ==> AsSlots(header) + r[lo..hi] + AsSlots(trailer) == AsSlots(header) + r[lo..hi];
  }

  lemma {:induction false} ShownIs(slots: seq<IoSlice>, s: nat, e: nat, header: Option<IoSlice>,
      trailer: Option<IoSlice>)
    requires s + 2 <= e <= |slots|
    ensures FrameFits(|slots|, s, e, header, trailer)
    ensures Shown(slots, s, e, header, trailer) == AsSlots(header) + Elements(slots)[s..e - 2] + AsSlots(trailer)
  {
    Put(slots, s, e, header, trailer);
    var r := Spliced(slots, s, e, header, trailer);
    Middle(slots, r, s, e);
    Widen(r, s + 1, e - 1, header, trailer);
  }

  /** For every start in range and an unbounded end, the frame is the optional header, exactly the
      elements from the start, and the optional trailer. */
  lemma {:induction false} UnboundedFrame(slots: seq<IoSlice>, start: Bound, header: Option<IoSlice>,
      trailer: Option<IoSlice>)
    requires |slots| >= 2 && StartOf(start) <= |slots| - 2
    ensures var s, e := StartOf(start), EndOf(Unbounded, |slots|);
            && FrameFits(|slots|, s, e, header, trailer)
            && Shown(slots, s, e, header, trailer) == Expected(slots, start, Unbounded, header, trailer)
  {
    PickedIs(Elements(slots), start, Unbounded);
    ShownIs(slots, StartOf(start), |slots|, header, trailer);
  }

  /** For every range of elements, the frame shows what it is to show exactly when the end is
      unbounded: a bounded end comes out one element short, or panics on an empty range. */
  lemma {:induction false} FrameIsExactIffUnbounded(
    slots: seq<IoSlice>, start: Bound, end: Bound, header: Option<IoSlice>, trailer: Option<IoSlice>)
    requires |slots| >= 2 && StartOf(start) <= RangeEnd(end, |slots| - 2) <= |slots| - 2
    ensures var s, e := StartOf(start), EndOf(end, |slots|);
            (FrameFits(|slots|, s, e, header, trailer)
              && Shown(slots, s, e, header, trailer) == Expected(slots, start, end, header, trailer))
            <==> end.Unbounded?
  {
    var s, e := StartOf(start), EndOf(end, |slots|);
    PickedIs(Elements(slots), start, end);
    if end.Unbounded? {
      UnboundedFrame(slots, start, header, trailer);
    } else if FrameFits(|slots|, s, e, header, trailer) {
      assert |Shown(slots, s, e, header, trailer)| < |Expected(slots, start, end, header, trailer)|;
    }
  }

  lemma {:induction false} ButLast(elements: seq<IoSlice>, lo: nat, hi: nat)
    requires lo < hi <= |elements|
    ensures elements[lo..hi][..hi - lo - 1] == elements[lo..hi - 1]
  {
  }

  /** What a bounded end does show: the elements of the range but the last one. */
  lemma {:induction false} BoundedFrameIsShort(
    slots: seq<IoSlice>, start: Bound, end: Bound, header: Option<IoSlice>, trailer: Option<IoSlice>)
    requires |slots| >= 2 && !end.Unbounded? && StartOf(start) < RangeEnd(end, |slots| - 2) <= |slots| - 2
    ensures var s, e := StartOf(start), EndOf(end, |slots|);
            && FrameFits(|slots|, s, e, header, trailer)
            && var picked := Picked(Elements(slots), start, end);
               && |picked| > 0
               && Shown(slots, s, e, header, trailer)
                    == AsSlots(header) + picked[..|picked| - 1] + AsSlots(trailer)
  {
    PickedButLast(Elements(slots), start, end);
    ShownIs(slots, StartOf(start), EndOf(end, |slots|), header, trailer);
  }

  lemma {:induction false} PickedButLast(elements: seq<IoSlice>, start: Bound, end: Bound)
    requires StartOf(start) < RangeEnd(end, |elements|) <= |elements|
    ensures var picked := Picked(elements, start, end);
            && |picked| > 0
            && picked[..|picked| - 1] == elements[StartOf(start)..RangeEnd(end, |elements|) - 1]
  {
    PickedIs(elements, start, end);
    ButLast(elements, StartOf(start), RangeEnd(end, |elements|));
  }

  /** The header and the trailer, as far as there are any, have slots of their own inside the frame. */
  predicate OwnSlots(s: nat, e: nat, header: Option<IoSlice>, trailer: Option<IoSlice>) {
    && (header.Some? || trailer.Some? ==> Lo(s, header) < Hi(e, trailer))
    && (header.Some? && trailer.Some? ==> s != e - 1)
  }

  /** For every frame, dropping it restores every slot exactly when header and trailer have slots of
      their own inside the frame, or the one slot they share held the header's bytes already. */
  lemma {:induction false} DropRestoresIff(slots: seq<IoSlice>, s: nat, e: nat, header: Option<IoSlice>,
      trailer: Option<IoSlice>)
    requires FrameFits(|slots|, s, e, header, trailer)
    ensures var f := TheFrame(slots, s, e, header, trailer);
            (DropFits(f) && Restored(Spliced(slots, s, e, header, trailer), f) == slots)
            <==>
            || OwnSlots(s, e, header, trailer)
            || (header.Some? && trailer.Some? && s == e - 1 && header.value == slots[s])
  {
    var f := TheFrame(slots, s, e, header, trailer);
    if DropFits(f) {
      var r := Restored(Spliced(slots, s, e, header, trailer), f);
      if header.Some? && trailer.Some? && s == e - 1 {
        assert r[s] == header.value;
      }
    }
  }

  /** With an unbounded end and a start in range, dropping always restores every slot. */
  lemma {:induction false} UnboundedDropRestores(slots: seq<IoSlice>, start: Bound, header: Option<IoSlice>,
      trailer: Option<IoSlice>)
    requires |slots| >= 2 && StartOf(start) <= |slots| - 2
    ensures var s, e := StartOf(start), EndOf(Unbounded, |slots|);
            && FrameFits(|slots|, s, e, header, trailer)
            && var f := TheFrame(slots, s, e, header, trailer);
               DropFits(f) && Restored(Spliced(slots, s, e, header, trailer), f) == slots
  {
  }

  /** Framing the empty range `0..0` with both leaves the header behind after the drop. */
  lemma {:induction false} SharedSlotIsLost()
    ensures var slots := [IoSlice([]), IoSlice([1]), IoSlice([])];
            var s, e, header, trailer := StartOf(Unbounded), EndOf(Excluded(0), |slots|), Some(IoSlice([8])),
                Some(IoSlice([9]));
            && FrameFits(|slots|, s, e, header, trailer)
            && var f := TheFrame(slots, s, e, header, trailer);
               DropFits(f) && Restored(Spliced(slots, s, e, header, trailer), f) == slots[0 := IoSlice([8])]
  {
  }

  // ---------------------------------------------------------------- the elements after a frame

  /** The slots once a frame has been made and dropped; a drop that panics writes nothing. */
  function AfterFrame(slots: seq<IoSlice>, s: nat, e: nat, header: Option<IoSlice>, trailer: Option<IoSlice>)
      : (r: seq<IoSlice>)
    requires FrameFits(|slots|, s, e, header, trailer)
    ensures |r| == |slots|
  {
    var f := TheFrame(slots, s, e, header, trailer);
    var framed := Spliced(slots, s, e, header, trailer);
    if DropFits(f) then Restored(framed, f) else framed
  }

  /** Putting this into slot `i` changes no element. */
  predicate Harmless(slots: seq<IoSlice>, i: int, o: Option<IoSlice>) {
    o.None? || i <= 0 || i >= |slots| - 1 || slots[i] == o.value
  }

  predicate KeepsElements(slots: seq<IoSlice>, s: nat, e: nat, header: Option<IoSlice>, trailer: Option<IoSlice>)
    requires FrameFits(|slots|, s, e, header, trailer)
  {
    || OwnSlots(s, e, header, trailer)
    || (Harmless(slots, s, header)
        && (DropFits(TheFrame(slots, s, e, header, trailer)) || Harmless(slots, e - 1, trailer)))
  }

  lemma {:induction false} SameElements(slots: seq<IoSlice>, r: seq<IoSlice>)
    requires |r| == |slots| >= 2
    ensures Elements(r) == Elements(slots) <==> forall p :: 0 < p < |slots| - 1 ==> r[p] == slots[p]
  {
    if Elements(r) == Elements(slots) {
      forall p | 0 < p < |slots| - 1 ensures r[p] == slots[p] {
        assert r[p] == Elements(r)[p - 1] && slots[p] == Elements(slots)[p - 1];
      }
    }
  }

  lemma {:induction false} AfterFrameAt(slots: seq<IoSlice>, s: nat, e: nat, header: Option<IoSlice>,
      trailer: Option<IoSlice>, p: nat)
    requires FrameFits(|slots|, s, e, header, trailer) && p < |slots|
    ensures AfterFrame(slots, s, e, header, trailer)[p]
            == if OwnSlots(s, e, header, trailer) then slots[p]
               else if DropFits(TheFrame(slots, s, e, header, trailer)) then PutAt(slots, s, header)[p]
               else PutAt(PutAt(slots, s, header), e - 1, trailer)[p]
  {
  }

  /** For every frame, a later look at the slice finds the elements unchanged exactly when header and
      trailer had slots of their own, or what stays behind in the one slot they share, or after a panic of
      the drop in theirs, is not in the slot of an element or was there before. */
  lemma {:induction false} FrameKeepsElementsIff(slots: seq<IoSlice>, s: nat, e: nat, header: Option<IoSlice>,
      trailer: Option<IoSlice>)
    requires |slots| >= 2 && FrameFits(|slots|, s, e, header, trailer)
    ensures Elements(AfterFrame(slots, s, e, header, trailer)) == Elements(slots)
            <==> KeepsElements(slots, s, e, header, trailer)
  {
    var r := AfterFrame(slots, s, e, header, trailer);
    SameElements(slots, r);
    forall p | 0 <= p < |slots| ensures r[p]
      == if OwnSlots(s, e, header, trailer) then slots[p]
         else if DropFits(TheFrame(slots, s, e, header, trailer)) then PutAt(slots, s, header)[p]
         else PutAt(PutAt(slots, s, header), e - 1, trailer)[p]
    {
      AfterFrameAt(slots, s, e, header, trailer, p);
    }
  }

  /** Framing the empty range `1..1` behind the only element with both puts the header in the place of
      that element, for good. */
  lemma {:induction false} SharedElementIsLost()
    ensures var slots := [IoSlice([]), IoSlice([1]), IoSlice([])];
            var s, e, header, trailer := StartOf(Included(1)), EndOf(Excluded(1), |slots|), Some(IoSlice([8])),
                Some(IoSlice([9]));
            && FrameFits(|slots|, s, e, header, trailer)
            && Elements(slots) == [IoSlice([1])]
            && Elements(AfterFrame(slots, s, e, header, trailer)) == [IoSlice([8])]
  {
    var slots := [IoSlice([]), IoSlice([1]), IoSlice([])];
    var r := AfterFrame(slots, 1, 2, Some(IoSlice([8])), Some(IoSlice([9])));
    assert Elements(slots) == [slots[1]] && Elements(r) == [r[1]];
    AfterFrameAt(slots, 1, 2, Some(IoSlice([8])), Some(IoSlice([9])), 1);
  }
}

/** The vectored buffer of `src/write_vectored/vec.rs`: owned values, one io-slice for each of them
    with a free slot before the first and after the last, and a running total of their sizes. */
module WriteVectoredVecBuffer {
  import opened Options
  import opened VectoredFrame
  import PackedWords

  /** An owned value, known by the bytes it refers to. */
  datatype Item = Item(bytes: seq<int>)

  /** Sizes are counted in a 64-bit word that wraps around. */
  function Wrap(n: int): nat {
    n % PackedWords.WORD
  }

  lemma {:induction false} WrapTwice(a: int, b: int)
    ensures Wrap(Wrap(a) + b) == Wrap(a + b)
  {
  }

  lemma {:induction false} WrapDifference(a: int, b: int)
    ensures Wrap(a - b) == Wrap(a) <==> Wrap(b) == 0
  {
  }

  /** The contents of a buffer. */
  datatype Contents = Contents(owned: seq<Option<Item>>, slices: seq<IoSlice>, total: nat)

  function Default(): Contents {
    Contents([], [], 0)
  }

  /** Summed sizes of the values in these cells. */
  function Live(owned: seq<Option<Item>>): nat {
    if |owned| == 0 then 0
    else (if owned[0].Some? then |owned[0].value.bytes| else 0) + Live(owned[1..])
  }

  predicate AllLive(owned: seq<Option<Item>>) {
    forall p :: 0 <= p < |owned| ==> owned[p].Some?
  }

  predicate NoneLive(owned: seq<Option<Item>>) {
    forall p :: 0 <= p < |owned| ==> owned[p].None?
  }

  function Nones(n: nat): seq<Option<Item>> {
    seq(n, _ => None)
  }

  // ---------------------------------------------------------------- operations on the contents

  /** The io-slice goes in first; a panic on the owned cell leaves it behind. */
  function Inserted(c: Contents, index: nat, value: Item): Contents {
    if index + 1 >= |c.slices| then c
    else
      var slices := c.slices[index + 1 := IoSlice(value.bytes)];
      if index >= |c.owned| then c.(slices := slices)
      else Contents(c.owned[index := Some(value)], slices, Wrap(c.total + |value.bytes|))
  }

  function Removed(c: Contents, index: nat): Contents
    requires index < |c.owned| && c.owned[index].Some?
  {
    c.(owned := c.owned[index := None], total := Wrap(c.total - |c.owned[index].value.bytes|))
  }

  /** What `clear` amounts to: the total is not that of what is left, it is zero minus what went. */
  function Cleared(c: Contents, lo: nat, hi: nat): Contents
    requires lo <= hi <= |c.owned|
  {
    c.(owned := c.owned[..lo] + Nones(hi - lo) + c.owned[hi..], total := Wrap(0 - Live(c.owned[lo..hi])))
  }

  /** New cells and slots, and the old total. */
  function Resized(c: Contents, capacity: nat): Contents {
    Contents(Nones(capacity), seq(capacity + 2, _ => IoSlice([])), c.total)
  }

  // ---------------------------------------------------------------- the buffer

  class WriteVectoredVecBuffer {
    var owned: array<Option<Item>>
    var slices: array<IoSlice>
    var total: nat

    function Now(): Contents
      reads this, owned, slices
    {
      Contents(owned[..], slices[..], total)
    }

    constructor ()
      ensures fresh(owned) && fresh(slices) && Now() == Default()
    {
      owned, slices, total := new Option<Item>[0], new IoSlice[0], 0;
    }

    /** Safety: nothing has been inserted at `index` before.  `false` is a panic. */
    method Insert(index: nat, value: Item) returns (inserted: bool)
      requires index < owned.Length ==> owned[index].None?
      modifies this`total, owned, slices
      ensures inserted <==> index < owned.Length && index + 1 < slices.Length
      ensures Now() == Inserted(old(Now()), index, value)
    {
      if index + 1 >= slices.Length {
        return false;
      }
      slices[index + 1] := IoSlice(value.bytes);
      if index >= owned.Length {
        return false;
      }
      owned[index] := Some(value);
      total := Wrap(total + |value.bytes|);
      return true;
    }

    /** Safety: the value at `index` has been inserted, and not removed since. */
    method Remove(index: nat) returns (value: Item)
      requires index < owned.Length && owned[index].Some?
      modifies this`total, owned
      ensures value == old(owned[index]).value
      ensures Now() == Removed(old(Now()), index)
    {
      value := owned[index].value;
      owned[index] := None;
      total := Wrap(total - |value.bytes|);
    }

    /** Safety: the range has been inserted. */
    method Clear(lo: nat, hi: nat)
      requires lo <= hi <= owned.Length && AllLive(owned[lo..hi])
      modifies this`total, owned
      ensures Now() == Cleared(old(Now()), lo, hi)
    {
      ghost var was := Now();
      ClearedStart(was, lo);
      total := 0;
      for index := lo to hi
        invariant Now() == Cleared(was, lo, index)
      {
        assert was.owned[index] == was.owned[lo..hi][index - lo];
        ClearedNext(was, lo, index);
        var _ := Remove(index);
      }
    }

    method Resize(capacity: nat)
      modifies this
      ensures fresh(owned) && fresh(slices)
      ensures Now() == Resized(old(Now()), capacity)
    {
      owned := new Option<Item>[capacity](_ => None);
      slices := new IoSlice[capacity + 2](_ => IoSlice([]));
    }
  }

  lemma {:induction false} LiveConcat(a: seq<Option<Item>>, b: seq<Option<Item>>)
    ensures Live(a + b) == Live(a) + Live(b)
  {
    if |a| == 0 {
      assert a + b == b;
    } else {
      assert (a + b)[1..] == a[1..] + b;
      LiveConcat(a[1..], b);
    }
  }

  lemma {:induction false} LiveOne(o: Option<Item>)
    ensures Live([o]) == if o.Some? then |o.value.bytes| else 0
  {
  }

  lemma {:induction false} LiveSnoc(owned: seq<Option<Item>>, lo: nat, index: nat)
    requires lo <= index < |owned|
    ensures Live(owned[lo..index + 1]) == Live(owned[lo..index]) + Live([owned[index]])
    ensures Live([owned[index]]) == if owned[index].Some? then |owned[index].value.bytes| else 0
  {
    assert owned[lo..index + 1] == owned[lo..index] + [owned[index]];
    LiveConcat(owned[lo..index], [owned[index]]);
    LiveOne(owned[index]);
  }

  lemma {:induction false} ClearedStart(c: Contents, lo: nat)
    requires lo <= |c.owned|
    ensures c.(total := 0) == Cleared(c, lo, lo)
  {
  }

  lemma {:induction false} ClearedNext(c: Contents, lo: nat, index: nat)
    requires lo <= index < |c.owned| && c.owned[index].Some?
    ensures Cleared(c, lo, index).owned[index] == c.owned[index]
    ensures Removed(Cleared(c, lo, index), index) == Cleared(c, lo, index + 1)
  {
    LiveSnoc(c.owned, lo, index);
    WrapTwice(0 - Live(c.owned[lo..index]), -|c.owned[index].value.bytes|);
    assert Cleared(c, lo, index).owned[index := None] == Cleared(c, lo, index + 1).owned;
  }

  lemma {:induction false} LiveNone(owned: seq<Option<Item>>)
    requires NoneLive(owned)
    ensures Live(owned) == 0
  {
    if |owned| > 0 {
      LiveNone(owned[1..]);
    }
  }

  lemma {:induction false} LiveSplit(owned: seq<Option<Item>>, lo: nat, hi: nat)
    requires lo <= hi <= |owned|
    ensures Live(owned) == Live(owned[..lo]) + Live(owned[lo..hi]) + Live(owned[hi..])
  {
    assert owned == owned[..lo] + owned[lo..hi] + owned[hi..];
    LiveConcat(owned[..lo] + owned[lo..hi], owned[hi..]);
    LiveConcat(owned[..lo], owned[lo..hi]);
  }

  lemma {:induction false} LiveUpdate(owned: seq<Option<Item>>, index: nat, o: Option<Item>)
    requires index < |owned|
    ensures Live(owned[index := o]) == Live(owned) - Live([owned[index]]) + Live([o])
  {
    var owned' := owned[index := o];
    LiveSplit(owned, index, index + 1);
    LiveSplit(owned', index, index + 1);
    assert owned'[..index] == owned[..index] && owned'[index + 1..] == owned[index + 1..];
    assert owned[index..index + 1] == [owned[index]] && owned'[index..index + 1] == [o];
  }

  // ---------------------------------------------------------------- every run

  datatype Op = Insert(index: nat, value: Item) | Remove(index: nat) | Clear(lo: nat, hi: nat) | Resize(capacity: nat)

  /** What the queue makes sure of before each call: values are inserted where there is none, taken
      where there is one, and only an empty buffer is resized. */
  predicate Allowed(c: Contents, op: Op) {
    match op
    case Insert(index, _) => index < |c.owned| && c.owned[index].None?
    case Remove(index) => index < |c.owned| && c.owned[index].Some?
    case Clear(lo, hi) => lo <= hi <= |c.owned| && AllLive(c.owned[lo..hi])
    case Resize(_) => NoneLive(c.owned)
  }

  function Apply(c: Contents, op: Op): Contents
    requires Allowed(c, op)
  {
    match op
    case Insert(index, value) => Inserted(c, index, value)
    case Remove(index) => Removed(c, index)
    case Clear(lo, hi) => Cleared(c, lo, hi)
    case Resize(capacity) => Resized(c, capacity)
  }

  /** A run: contents after contents, over any number of generations. */
  ghost predicate Run(states: seq<Contents>, ops: seq<Op>) {
    && |states| == |ops| + 1
    && states[0] == Default()
    && (forall k :: 0 <= k < |ops| ==> Allowed(states[k], ops[k]) && states[k + 1] == Apply(states[k], ops[k]))
  }

  /** A slot for every cell and two more; the slot of a live value shows its bytes. */
  ghost predicate Coherent(c: Contents) {
    && ((c.slices == [] && c.owned == []) || |c.slices| == |c.owned| + 2)
    && (forall p :: 0 <= p < |c.owned| && c.owned[p].Some? ==> c.slices[p + 1] == IoSlice(c.owned[p].value.bytes))
  }

  /** The sizes that were live when the buffer was last cleared: what the total is short of. */
  ghost function Offset(states: seq<Contents>, ops: seq<Op>, k: nat): nat
    requires Run(states, ops) && k <= |ops|
  {
    if k == 0 then 0
    else if ops[k - 1].Clear? then Live(states[k - 1].owned)
    else Offset(states, ops, k - 1)
  }

  /** What the last operation on a cell has left there: the value of an insertion, or nothing. */
  function Held(ops: seq<Op>, p: nat): Option<Item> {
    if |ops| == 0 then None
    else
      var before := Held(ops[..|ops| - 1], p);
      match ops[|ops| - 1]
      case Insert(index, value) => if p == index then Some(value) else before
      case Remove(index) => if p == index then None else before
      case Clear(lo, hi) => if lo <= p < hi then None else before
      case Resize(_) => None
  }

  /** The capacity last asked for. */
  function Asked(ops: seq<Op>): nat {
    if |ops| == 0 then 0
    else if ops[|ops| - 1].Resize? then ops[|ops| - 1].capacity
    else Asked(ops[..|ops| - 1])
  }

  lemma {:induction false} HeldStep(c: Contents, op: Op, p: nat)
    requires Coherent(c) && Allowed(c, op) && p < |Apply(c, op).owned|
    ensures !op.Resize? ==> |Apply(c, op).owned| == |c.owned|
    ensures op.Resize? ==> |Apply(c, op).owned| == op.capacity && Apply(c, op).owned[p] == None
    ensures op.Insert? && op.index == p ==> Apply(c, op).owned[p] == Some(op.value)
    ensures (op.Remove? && op.index == p) || (op.Clear? && op.lo <= p < op.hi) ==> Apply(c, op).owned[p] == None
    ensures (op.Insert? || op.Remove?) && op.index != p ==> Apply(c, op).owned[p] == c.owned[p]
    ensures op.Clear? && !(op.lo <= p < op.hi) ==> Apply(c, op).owned[p] == c.owned[p]
  {
  }

  lemma {:induction false} AskedStep(c: Contents, op: Op)
    requires Allowed(c, op)
    ensures |Apply(c, op).owned| == if op.Resize? then op.capacity else |c.owned|
  {
  }

  /** In every run there are as many cells as last asked for, and each holds the value of the last insertion
      there, unless it has been removed or cleared or the buffer resized since. */
  lemma {:induction false} HoldsLastInserted(states: seq<Contents>, ops: seq<Op>, k: nat, p: nat)
    requires Run(states, ops) && k <= |ops|
    ensures |states[k].owned| == Asked(ops[..k])
    ensures p < |states[k].owned| ==> states[k].owned[p] == Held(ops[..k], p)
  {
    if k > 0 {
      HoldsLastInserted(states, ops, k - 1, p);
      assert ops[..k][..k - 1] == ops[..k - 1] && ops[..k][k - 1] == ops[k - 1];
      AskedStep(states[k - 1], ops[k - 1]);
      CoherentRun(states, ops, k - 1);
      if p < |states[k].owned| {
        HeldStep(states[k - 1], ops[k - 1], p);
      }
    }
  }

  lemma {:induction false} LiveCleared(c: Contents, lo: nat, hi: nat)
    requires lo <= hi <= |c.owned|
    ensures Live(Cleared(c, lo, hi).owned) == Live(c.owned) - Live(c.owned[lo..hi])
  {
    LiveSplit(c.owned, lo, hi);
    LiveNone(Nones(hi - lo));
    LiveConcat(c.owned[..lo] + Nones(hi - lo), c.owned[hi..]);
    LiveConcat(c.owned[..lo], Nones(hi - lo));
  }

  lemma {:induction false} ClearOffset(c: Contents, lo: nat, hi: nat)
    requires lo <= hi <= |c.owned|
    ensures Cleared(c, lo, hi).total == Wrap(Live(Cleared(c, lo, hi).owned) - Live(c.owned))
  {
    LiveCleared(c, lo, hi);
  }

  lemma {:induction false} ResizeOffset(c: Contents, capacity: nat)
    requires NoneLive(c.owned)
    ensures Live(Resized(c, capacity).owned) == Live(c.owned)
  {
    LiveNone(c.owned);
    LiveNone(Nones(capacity));
  }

  lemma {:induction false} CoherentStep(c: Contents, op: Op)
    requires Coherent(c) && Allowed(c, op)
    ensures Coherent(Apply(c, op))
  {
  }

  lemma {:induction false} UpdateOffset(c: Contents, index: nat, o: Option<Item>, offset: int, delta: int)
    requires index < |c.owned| && c.total == Wrap(Live(c.owned) - offset)
    requires delta == Live([o]) - Live([c.owned[index]])
    ensures Wrap(c.total + delta) == Wrap(Live(c.owned[index := o]) - offset)
  {
    LiveUpdate(c.owned, index, o);
    WrapTwice(Live(c.owned) - offset, delta);
  }

  lemma {:induction false} InsertOffset(c: Contents, index: nat, value: Item, offset: int)
    requires Coherent(c) && index < |c.owned| && c.owned[index].None? && c.total == Wrap(Live(c.owned) - offset)
    ensures Inserted(c, index, value).total == Wrap(Live(Inserted(c, index, value).owned) - offset)
  {
    LiveOne(None);
    LiveOne(Some(value));
    UpdateOffset(c, index, Some(value), offset, |value.bytes|);
  }

  lemma {:induction false} RemoveOffset(c: Contents, index: nat, offset: int)
    requires index < |c.owned| && c.owned[index].Some? && c.total == Wrap(Live(c.owned) - offset)
    ensures Removed(c, index).total == Wrap(Live(Removed(c, index).owned) - offset)
  {
    LiveOne(None);
    LiveOne(c.owned[index]);
    UpdateOffset(c, index, None, offset, -|c.owned[index].value.bytes|);
  }

  /** One operation: inserting, removing and resizing keep the distance between the total and the live
      sizes; clearing makes it what was live before. */
  lemma {:induction false} OffsetStep(c: Contents, op: Op, offset: int)
    requires Coherent(c) && Allowed(c, op) && c.total == Wrap(Live(c.owned) - offset)
    ensures Apply(c, op).total == Wrap(Live(Apply(c, op).owned) - (if op.Clear? then Live(c.owned) else offset))
  {
    match op
    case Insert(index, value) => InsertOffset(c, index, value, offset);
    case Remove(index) => RemoveOffset(c, index, offset);
    case Clear(lo, hi) => ClearOffset(c, lo, hi);
    case Resize(capacity) => ResizeOffset(c, capacity);
  }

  lemma {:induction false} CoherentRun(states: seq<Contents>, ops: seq<Op>, k: nat)
    requires Run(states, ops) && k <= |ops|
    ensures Coherent(states[k])
  {
    if k > 0 {
      CoherentRun(states, ops, k - 1);
      CoherentStep(states[k - 1], ops[k - 1]);
    }
  }

  lemma {:induction false} OffsetRun(states: seq<Contents>, ops: seq<Op>, k: nat)
    requires Run(states, ops) && k <= |ops|
    ensures states[k].total == Wrap(Live(states[k].owned) - Offset(states, ops, k))
  {
    if k > 0 {
      OffsetRun(states, ops, k - 1);
      CoherentRun(states, ops, k - 1);
      OffsetStep(states[k - 1], ops[k - 1], Offset(states, ops, k - 1));
    }
  }

  /** In every run `total_size` is the summed size of the live values, minus what was live at the last
      `clear`, modulo the word: so it is right exactly when that was nothing, modulo the word. */
  lemma {:induction false} TotalOfRun(states: seq<Contents>, ops: seq<Op>, k: nat)
    requires Run(states, ops) && k <= |ops|
    ensures states[k].total == Wrap(Live(states[k].owned) - Offset(states, ops, k))
    ensures states[k].total == Wrap(Live(states[k].owned)) <==> Wrap(Offset(states, ops, k)) == 0
  {
    OffsetRun(states, ops, k);
    RightIff(states[k].total, Live(states[k].owned), Offset(states, ops, k));
  }

  lemma {:induction false} RightIff(total: nat, live: nat, offset: nat)
    requires total == Wrap(live - offset)
    ensures total == Wrap(live) <==> Wrap(offset) == 0
  {
    WrapDifference(live, offset);
  }

  /** Releasing a buffer with values in it leaves their negated sum behind as the total of an empty
      buffer; releasing a drained one leaves zero. */
  lemma {:induction false} TotalAfterRelease(states: seq<Contents>, ops: seq<Op>, k: nat)
    requires Run(states, ops) && k < |ops| && ops[k].Clear? && NoneLive(states[k + 1].owned)
    ensures states[k + 1].total == Wrap(0 - Live(states[k].owned[ops[k].lo..ops[k].hi]))
    ensures NoneLive(states[k].owned) ==> states[k + 1].total == 0
  {
  }

  /** When every release finds the buffer drained, the total is right throughout. */
  lemma {:induction false} TotalIsRightWhenDrained(states: seq<Contents>, ops: seq<Op>, k: nat)
    requires Run(states, ops) && k <= |ops|
    requires forall j :: 0 <= j < |ops| && ops[j].Clear? ==> NoneLive(states[j].owned)
    ensures states[k].total == Wrap(Live(states[k].owned))
  {
    OffsetWhenDrained(states, ops, k);
    TotalOfRun(states, ops, k);
  }

  lemma {:induction false} OffsetWhenDrained(states: seq<Contents>, ops: seq<Op>, k: nat)
    requires Run(states, ops) && k <= |ops|
    requires forall j :: 0 <= j < |ops| && ops[j].Clear? ==> NoneLive(states[j].owned)
    ensures Offset(states, ops, k) == 0
  {
    if k > 0 {
      if ops[k - 1].Clear? {
        LiveNone(states[k - 1].owned);
      } else {
        OffsetWhenDrained(states, ops, k - 1);
      }
    }
  }

  /** The second batch of a queue whose slices are dropped without draining: three bytes are buffered
      and the total says none. */
  lemma {:induction false} TotalIsWrongAfterClear() returns (states: seq<Contents>, ops: seq<Op>)
    ensures Run(states, ops) && |ops| == 4
    ensures Live(states[4].owned) == 3 && states[4].total == 0
  {
    var v := Item([1, 2, 3]);
    ops := [Resize(1), Insert(0, v), Clear(0, 1), Insert(0, v)];
    var s0 := Default();
    var s1 := Resized(s0, 1);
    var s2 := Inserted(s1, 0, v);
    LiveOne(Some(v));
    assert s2.owned[0..1] == [Some(v)];
    var s3 := Cleared(s2, 0, 1);
    assert s3.owned == [None] && s3.total == PackedWords.WORD - 3;
    var s4 := Inserted(s3, 0, v);
    assert s4.owned == [Some(v)];
    states := [s0, s1, s2, s3, s4];
  }

  // ---------------------------------------------------------------- the slice

  /** The slots of the slice of `lo..hi`. */
  function Window(c: Contents, lo: nat, hi: nat): seq<IoSlice>
    requires lo <= hi && hi + 2 <= |c.slices|
  {
    c.slices[lo..hi + 2]
  }

  /** These are the bytes of the values in `lo..hi`, in order. */
  ghost predicate ShowsValues(owned: seq<Option<Item>>, lo: nat, hi: nat, shown: seq<IoSlice>)
    requires lo <= hi <= |owned|
  {
    && |shown| == hi - lo
    && (forall p :: 0 <= p < hi - lo ==>
         owned[lo + p].Some? && shown[p] == IoSlice(owned[lo + p].value.bytes))
  }

  lemma {:induction false} WindowShows(c: Contents, lo: nat, hi: nat)
    requires Coherent(c) && c.owned != [] && lo <= hi <= |c.owned| && AllLive(c.owned[lo..hi])
    ensures hi + 2 <= |c.slices| && ShowsValues(c.owned, lo, hi, Elements(Window(c, lo, hi)))
  {
    var w := Window(c, lo, hi);
    forall p | 0 <= p < hi - lo
      ensures c.owned[lo + p].Some? && Elements(w)[p] == IoSlice(c.owned[lo + p].value.bytes)
    {
      assert c.owned[lo + p] == c.owned[lo..hi][p];
      assert Elements(w)[p] == w[p + 1] == c.slices[lo + p + 1];
    }
  }

  /** In every run the slice of an inserted range shows the bytes of its values, in order. */
  lemma {:induction false} SliceShowsValues(states: seq<Contents>, ops: seq<Op>, k: nat, lo: nat, hi: nat)
    requires Run(states, ops) && k <= |ops|
    requires states[k].owned != [] && lo <= hi <= |states[k].owned| && AllLive(states[k].owned[lo..hi])
    ensures hi + 2 <= |states[k].slices|
    ensures ShowsValues(states[k].owned, lo, hi, Elements(Window(states[k], lo, hi)))
    ensures forall p :: lo <= p < hi ==>
              Held(ops[..k], p).Some?
                  && Elements(Window(states[k], lo, hi))[p - lo] == IoSlice(Held(ops[..k], p).value.bytes)
  {
    CoherentRun(states, ops, k);
    WindowShows(states[k], lo, hi);
    forall p | lo <= p < hi ensures states[k].owned[p] == Held(ops[..k], p) {
      HoldsLastInserted(states, ops, k, p);
    }
  }

  /** The buffer once its slice of `lo..hi` has been framed and the frame dropped. */
  function Framed(c: Contents, lo: nat, hi: nat, s: nat, e: nat, header: Option<IoSlice>, trailer: Option<IoSlice>)
      : Contents
    requires lo <= hi && hi + 2 <= |c.slices| && FrameFits(hi - lo + 2, s, e, header, trailer)
  {
    c.(slices := c.slices[..lo] + AfterFrame(Window(c, lo, hi), s, e, header, trailer) + c.slices[hi + 2..])
  }

  lemma {:induction false} OneContents(owned: seq<Option<Item>>, lo: nat, hi: nat, a: seq<IoSlice>, b: seq<IoSlice>)
    requires lo <= hi <= |owned| && ShowsValues(owned, lo, hi, a) && |b| == hi - lo
    ensures ShowsValues(owned, lo, hi, b) <==> b == a
  {
  }

  lemma {:induction false} FramedWindow(c: Contents, lo: nat, hi: nat, s: nat, e: nat, header: Option<IoSlice>,
      trailer: Option<IoSlice>)
    requires lo <= hi && hi + 2 <= |c.slices| && FrameFits(hi - lo + 2, s, e, header, trailer)
    ensures |Framed(c, lo, hi, s, e, header, trailer).slices| == |c.slices|
    ensures Window(Framed(c, lo, hi, s, e, header, trailer), lo, hi)
            == AfterFrame(Window(c, lo, hi), s, e, header, trailer)
  {
  }

  /** In every run, after a frame of the slice of an inserted range has been dropped, the slice still shows
      the bytes of its values exactly when the frame has kept the elements. */
  lemma {:induction false} FramedSliceShowsValuesIff(states: seq<Contents>, ops: seq<Op>, k: nat, lo: nat, hi: nat,
      s: nat, e: nat, header: Option<IoSlice>, trailer: Option<IoSlice>)
    requires Run(states, ops) && k <= |ops|
    requires states[k].owned != [] && lo <= hi <= |states[k].owned| && AllLive(states[k].owned[lo..hi])
    requires FrameFits(hi - lo + 2, s, e, header, trailer)
    ensures hi + 2 <= |states[k].slices|
    ensures var c' := Framed(states[k], lo, hi, s, e, header, trailer);
            && |c'.slices| == |states[k].slices|
            && (ShowsValues(c'.owned, lo, hi, Elements(Window(c', lo, hi)))
                <==> KeepsElements(Window(states[k], lo, hi), s, e, header, trailer))
  {
    CoherentRun(states, ops, k);
    FramedShows(states[k], lo, hi, s, e, header, trailer);
  }

  lemma {:induction false} FramedShows(c: Contents, lo: nat, hi: nat, s: nat, e: nat, header: Option<IoSlice>,
      trailer: Option<IoSlice>)
    requires Coherent(c) && c.owned != [] && lo <= hi <= |c.owned| && AllLive(c.owned[lo..hi])
    requires FrameFits(hi - lo + 2, s, e, header, trailer)
    ensures hi + 2 <= |c.slices|
    ensures var c' := Framed(c, lo, hi, s, e, header, trailer);
            && |c'.slices| == |c.slices|
            && (ShowsValues(c'.owned, lo, hi, Elements(Window(c', lo, hi)))
                <==> KeepsElements(Window(c, lo, hi), s, e, header, trailer))
  {
    WindowShows(c, lo, hi);
    var w, r := Window(c, lo, hi), AfterFrame(Window(c, lo, hi), s, e, header, trailer);
    FramedWindow(c, lo, hi, s, e, header, trailer);
    FrameKeepsElementsIff(w, s, e, header, trailer);
    OneContents(c.owned, lo, hi, Elements(w), Elements(r));
    assert Framed(c, lo, hi, s, e, header, trailer).owned == c.owned;
  }
}

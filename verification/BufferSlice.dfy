/** The slice and the draining iterator of `src/buffer.rs`, with the parts of `src/queue.rs` they call:
    one buffer, in which all insertions have been acknowledged, from the moment it can be dequeued
    until it is released. */
module BufferSlice {
  import opened Options
  import opened Protocol
  import opened ProtocolInvariant
  import opened ProtocolSteps
  import opened VecBuffer

  /** `length` is the acknowledged length of the buffer; `saved` the length in the dequeuing word,
      `None` while it is locked; `lo..hi` the range of the slice or iterator that has been handed out.
      Ghost: `vals` are the values inserted in this generation, the first `drained` of which have been
      taken out. */
  class Dequeued {
    const buffer: VecBuffer
    var length: nat
    var saved: Option<nat>
    var lo: nat
    var hi: nat
    ghost var vals: seq<Value>
    ghost var drained: nat

    /** The buffer as module Protocol sees it. */
    ghost function Side(): Side
      reads this, buffer, buffer.cells
    {
      Protocol.Side(buffer.cells[..], length, vals, Unowned(|vals|), drained)
    }

    ghost predicate Valid()
      reads this, buffer, buffer.cells
    {
      && SideOk(Side())
      && match saved
         case None => HandedOk(Side(), lo, hi)
         case Some(n) => SavedOk(Side(), n)
    }

    /** What is still to be taken out. */
    ghost function Rest(): seq<Value>
      reads this, buffer, buffer.cells
      requires Valid()
    {
      vals[drained..]
    }

    /** A buffer with these values inserted, right after the swap: the expected length is saved. */
    constructor (capacity: nat, values: seq<Value>)
      requires |values| <= capacity < CAPACITY_LIMIT
      ensures Valid() && fresh(buffer) && fresh(buffer.cells)
      ensures Rest() == vals == values && saved == Some(|values|) && length == |values|
    {
      buffer := new VecBuffer();
      length, saved, lo, hi := |values|, Some(|values|), 0, 0;
      vals, drained := values, 0;
      new;
      buffer.Resize(capacity);
      var _ := buffer.InsertIter(0, |values|, values);
      assert values[..|values|] == values;
      InFlightSettled(Unowned(|values|));
    }

    /** The cells of the range as values. */
    method View(from: nat, to: nat) returns (slice: seq<Value>)
      requires from <= to <= buffer.cells.Length
      ensures slice == Contents(buffer.cells[from..to])
    {
      slice := Contents(buffer.cells[from..to]);
    }

    /** `lock_dequeuing` and `try_dequeue_spin`: the range is recovered from the two lengths. */
    method Dequeue() returns (slice: seq<Value>)
      requires Valid() && saved.Some? && saved.value > 0
      modifies this
      ensures Valid() && saved == None && Rest() == old(Rest())
      ensures slice == Rest() && hi - lo == |slice| && length == old(length)
    {
      var len := saved.value;
      InFlightSettled(Unowned(|vals|));
      lo, hi, saved := length - len, length, None;
      HandedIsFull(Side(), lo, hi);
      slice := View(lo, hi);
    }

    /** `OwnedBufferIter::next`. */
    method Next() returns (r: Option<Value>)
      requires Valid() && saved == None
      modifies this, buffer.cells
      ensures Valid() && saved == None && length == old(length) && vals == old(vals)
      ensures old(Rest()) == [] ==> r == None && Rest() == []
      ensures old(Rest()) != [] ==> r.Some? && [r.value] + Rest() == old(Rest())
    {
      if lo >= hi {
        return None;
      }
      OneTaken(Side(), lo, hi);
      ghost var side := Side().(cells := buffer.cells[..][lo := None], drained := lo + 1);
      assert buffer.cells[lo] == Side().cells[lo];
      r := buffer.Remove(lo);
      lo, drained := lo + 1, drained + 1;
      assert Side() == side;
    }

    /** `BufferIter::into_slice`: the slice of what is left. */
    method IntoSlice() returns (slice: seq<Value>)
      requires Valid() && saved == None
      ensures slice == Rest()
    {
      HandedIsFull(Side(), lo, hi);
      slice := View(lo, hi);
    }

    /** `Queue::release`, which is also what dropping a slice does. */
    method Release()
      requires Valid() && saved == None
      modifies this, buffer.cells
      ensures Valid() && Rest() == [] && vals == []
      ensures saved == Some(0) && length == 0 && AllEmpty(buffer.cells[..])
    {
      DrainKeepsSide(Side(), lo, hi, hi);
      ghost var side := Cleared(Side(), lo, hi);
      buffer.Clear(lo, hi);
      assert buffer.cells[..] == side.cells;
      length, saved := 0, Some(0);
      vals, drained := [], 0;
    }

    /** `Queue::requeue`, which is also what dropping an iterator does: the buffer goes back with the
        length of what is left, or is released when nothing is. */
    method Requeue()
      requires Valid() && saved == None
      modifies this, buffer.cells
      ensures Valid() && Rest() == old(Rest()) && saved == Some(|Rest()|)
      ensures if old(Rest()) == [] then length == 0 && AllEmpty(buffer.cells[..])
              else length == old(length) && buffer.cells[..] == old(buffer.cells[..])
    {
      ghost var side := Side();
      if hi - lo > 0 {
        saved := Some(hi - lo);
        assert Side() == side;
      } else {
        assert Rest() == [];
        Release();
      }
    }
  }

  /** Taking the first value that is left out of its cell. */
  lemma {:induction false} OneTaken(side: Side, lo: nat, hi: nat)
    requires SideOk(side) && HandedOk(side, lo, hi) && lo < hi
    ensures lo < |side.cells| && side.cells[lo] == Some(side.vals[lo])
    ensures side.vals[lo..] == [side.vals[lo]] + side.vals[lo + 1..]
    ensures var side' := side.(cells := side.cells[lo := None], drained := lo + 1);
            SideOk(side') && HandedOk(side', lo + 1, hi)
  {
  }

  lemma {:induction false} Associative(a: seq<Value>, b: seq<Value>, c: seq<Value>, bc: seq<Value>)
    requires bc == b + c
    ensures a + bc == a + b + c
  {
  }

  /** What is done with a slice: an iterator takes up to `n` values out of it, and is then dropped, or
      turned back into a slice that is put back, or into a slice that is dropped. */
  datatype Use = DropIter(n: nat) | RequeueSlice(n: nat) | DropSlice(n: nat)

  /** Takes up to `n` values out of the slice that has been handed out. */
  method TakeUpTo(d: Dequeued, n: nat) returns (out: seq<Value>)
    requires d.Valid() && d.saved == None
    modifies d, d.buffer.cells
    ensures d.Valid() && d.saved == None
    ensures out + d.Rest() == old(d.Rest()) && |out| == if n <= |old(d.Rest())| then n else |old(d.Rest())|
  {
    ghost var all := d.Rest();
    out := [];
    while |out| < n
      invariant d.Valid() && d.saved == None
      invariant |out| <= n && out + d.Rest() == all
    {
      ghost var rest := d.Rest();
      var r := d.Next();
      if r == None {
        break;
      }
      Associative(out, [r.value], d.Rest(), rest);
      out := out + [r.value];
    }
  }

  /** One slice, from dequeuing it to giving it up; `shown` is what a slice made of the iterator shows. */
  method UseOnce(d: Dequeued, use: Use) returns (out: seq<Value>, shown: seq<Value>)
    requires d.Valid() && d.saved.Some? && d.Rest() != []
    modifies d, d.buffer.cells
    ensures d.Valid() && d.saved.Some?
    ensures |out| == if use.n <= |old(d.Rest())| then use.n else |old(d.Rest())|
    ensures !use.DropIter? ==> out + shown == old(d.Rest())
    ensures if use.DropSlice? then d.Rest() == [] else out + d.Rest() == old(d.Rest())
  {
    var _ := d.Dequeue();
    out := TakeUpTo(d, use.n);
    shown := [];
    if !use.DropIter? {
      shown := d.IntoSlice();
    }
    if use.DropSlice? {
      d.Release();
    } else {
      d.Requeue();
    }
  }

  /** All the values are accounted for: taken, cleared, or still there; nothing stays behind a clearing. */
  ghost predicate Accounted(all: seq<Value>, out: seq<Value>, cleared: seq<Value>, rest: seq<Value>) {
    out + cleared + rest == all && (cleared != [] ==> rest == [])
  }

  lemma {:induction false} AccountedAfter(all: seq<Value>, out: seq<Value>, cleared: seq<Value>, rest: seq<Value>,
                                          part: seq<Value>, shown: seq<Value>, dropped: bool)
    requires Accounted(all, out, cleared, rest) && rest != [] && part + shown == rest
    ensures if dropped then Accounted(all, out + part, shown, []) else Accounted(all, out + part, cleared, shown)
  {
    assert out + cleared + rest == out + rest;
    Associative(out, part, shown, rest);
    assert out + part + shown + [] == out + part + shown == out + part + [] + shown;
  }

  lemma {:induction false} AccountedEnd(all: seq<Value>, out: seq<Value>, cleared: seq<Value>, rest: seq<Value>)
    requires Accounted(all, out, cleared, rest)
    ensures rest == [] <==> out + cleared == all
  {
  }

  /** The saved length is that of what is left; a buffer with nothing left has been released. */
  lemma {:induction false} SavedIsRest(d: Dequeued)
    requires d.Valid() && d.saved.Some?
    ensures d.saved.value == |d.Rest()|
    ensures d.saved.value == 0 ==> d.length == 0 && AllEmpty(d.buffer.cells[..])
  {
    InFlightSettled(Unowned(|d.vals|));
  }

  /** Whatever is taken, put back and taken again comes out once and in order, until the buffer is
      released: that is when nothing is left in it, all values having been taken or the last ones cleared
      with the slice that showed them. */
  method UseAll(d: Dequeued, uses: seq<Use>) returns (out: seq<Value>, cleared: seq<Value>)
    requires d.Valid() && d.saved.Some?
    modifies d, d.buffer.cells
    ensures d.Valid() && d.saved.Some? && Accounted(old(d.Rest()), out, cleared, d.Rest())
    ensures cleared != [] ==> exists use :: use in uses && use.DropSlice?
    ensures d.saved == Some(0) <==> out + cleared == old(d.Rest())
    ensures d.saved == Some(0) ==> d.length == 0 && AllEmpty(d.buffer.cells[..])
  {
    ghost var all := d.Rest();
    out, cleared := [], [];
    for k := 0 to |uses|
      invariant d.Valid() && d.saved.Some? && Accounted(all, out, cleared, d.Rest())
      invariant cleared != [] ==> exists use :: use in uses && use.DropSlice?
    {
      SavedIsRest(d);
      if d.saved.value > 0 {
        ghost var rest := d.Rest();
        var part, shown := UseOnce(d, uses[k]);
        AccountedAfter(all, out, cleared, rest, part, if uses[k].DropSlice? then shown else d.Rest(),
            uses[k].DropSlice?);
        out := out + part;
        if uses[k].DropSlice? {
          cleared := shown;
        }
      }
    }
    SavedIsRest(d);
    AccountedEnd(all, out, cleared, d.Rest());
  }
}

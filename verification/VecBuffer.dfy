/** The vector buffer of `src/buffer/vec.rs` and the loops of `src/buffer.rs` and `src/queue.rs` that
    insert into it.  An uninitialised cell is `None`, so "inserted before, and at most once" can be
    told; a Rust panic is the outcome `Aborted`. */
module VecBuffer {
  import opened Options
  import opened Protocol

  datatype Outcome = Done | Aborted

  /** `cells` with `values` written from `base` on, as far as they fit. */
  function Written(cells: seq<Option<Value>>, base: nat, values: seq<Value>): (r: seq<Option<Value>>)
    requires base + |values| <= |cells|
    ensures |r| == |cells|
    ensures forall p :: 0 <= p < |r| ==>
            r[p] == if base <= p < base + |values| then Some(values[p - base]) else cells[p]
  {
    cells[..base] + Filled(values) + cells[base + |values|..]
  }

  /** How many items `insert_into` writes from `index` on: as many as it was told, unless the items or
      the cells run out. */
  function Writable(capacity: nat, index: nat, len: nat, items: nat): nat {
    var room := if index < capacity then capacity - index else 0;
    if len <= items && len <= room then len else if items <= room then items else room
  }

  class VecBuffer {
    var cells: array<Option<Value>>

    constructor ()
      ensures fresh(cells) && cells.Length == 0
    {
      cells := new Option<Value>[0];
    }

    /** Safety: nothing has been inserted at `index` before. */
    method Insert(index: nat, value: Value) returns (r: Outcome)
      requires index < cells.Length ==> cells[index].None?
      modifies cells
      ensures r.Done? <==> index < cells.Length
      ensures cells[..] == if r.Done? then Written(old(cells[..]), index, [value]) else old(cells[..])
    {
      if index >= cells.Length {
        return Aborted;
      }
      cells[index] := Some(value);
      return Done;
    }

    /** Safety: the value at `index` has been inserted, and not removed since. */
    method Remove(index: nat) returns (r: Option<Value>)
      requires index < cells.Length ==> cells[index].Some?
      modifies cells
      ensures r == if index < cells.Length then old(cells[index]) else None
      ensures cells[..] == if index < cells.Length then old(cells[..])[index := None] else old(cells[..])
    {
      if index >= cells.Length {
        return None;
      }
      r := cells[index];
      cells[index] := None;
    }

    /** Safety: the range has been inserted. */
    method Clear(lo: nat, hi: nat)
      requires lo <= hi <= cells.Length && AllFull(cells[lo..hi])
      modifies cells
      ensures cells[..] == old(cells[..lo]) + EmptyCells(hi - lo) + old(cells[hi..])
    {
      for index := lo to hi
        invariant forall p :: 0 <= p < cells.Length ==>
                    cells[p] == if lo <= p < index then None else old(cells[p])
      {
        assert cells[index] == old(cells[lo..hi])[index - lo];
        var _ := Remove(index);
      }
    }

    method Resize(capacity: nat)
      modifies this
      ensures fresh(cells) && cells[..] == EmptyCells(capacity)
    {
      cells := new Option<Value>[capacity](_ => None);
    }

    /** `insert_into` for an iterator that claims `len` items and then gives `items`. */
    method InsertIter(index: nat, len: nat, items: seq<Value>) returns (r: Outcome)
      requires forall p :: index <= p < index + len && p < cells.Length ==> cells[p].None?
      modifies cells
      ensures var n := Writable(cells.Length, index, len, |items|);
              && (r.Done? <==> n == len)
              && cells[..] == if n == 0 then old(cells[..]) else Written(old(cells[..]), index, items[..n])
    {
      for i := index to index + len
        invariant i - index <= Writable(cells.Length, index, len, |items|)
        invariant forall p :: 0 <= p < cells.Length ==>
                    cells[p] == if index <= p < i then Some(items[p - index]) else old(cells[p])
      {
        if i - index >= |items| {
          return Aborted;
        }
        var inserted := Insert(i, items[i - index]);
        if inserted.Aborted? {
          return Aborted;
        }
      }
      return Done;
    }

    /** Inserts one more value after those already in the buffer. */
    method InsertAfter(ghost cells0: seq<Option<Value>>, ghost done: seq<Value>, length: nat, value: seq<Value>)
      returns (r: Outcome)
      requires AllEmpty(cells0) && length == |done| <= |cells0| && value != []
      requires cells[..] == Written(cells0, 0, done)
      modifies cells
      ensures r.Done? <==> length + |value| <= cells.Length
      ensures var n := if r.Done? then |value| else cells.Length - length;
              n <= |value| && cells[..] == Written(cells0, 0, done + value[..n])
    {
      assert forall p :: length <= p < cells.Length ==> cells[p] == cells[..][p] == cells0[p];
      r := InsertIter(length, |value|, value);
      ghost var n := if r.Done? then |value| else cells.Length - length;
      assert n == 0 ==> done + value[..n] == done;
      WrittenTwice(cells0, done, value[..n]);
    }

    /** The pre-insertion loop of `try_dequeue_and_resize`, on a cleared buffer. */
    method InsertAll(insert: seq<seq<Value>>) returns (r: Outcome, ghost done: seq<Value>, length: nat)
      requires AllEmpty(cells[..])
      modifies cells
      ensures PreInsert(cells.Length, 0, insert) == if r.Done? then Fits(done) else Overflows(done)
      ensures cells[..] == Filled(done) + old(cells[..])[|done|..]
      ensures r.Done? ==> length == |done|
    {
      r, done, length := Done, [], 0;
      var k := 0;
      ReachedStart(cells.Length, insert);
      while k < |insert|
        invariant k <= |insert| && length == |done| && r.Done?
        invariant Reached(cells.Length, insert, k, done)
        invariant cells[..] == Written(old(cells[..]), 0, done)
      {
        var value := insert[k];
        ReachedNext(cells.Length, insert, k, done);
        if |value| > cells.Length {
          WrittenFront(old(cells[..]), done);
          return Done, done, length;
        }
        if |value| == 0 {
          assert done + value == done;
        } else {
          r := InsertAfter(old(cells[..]), done, length, value);
          if r.Aborted? {
            done := done + value[..cells.Length - length];
            WrittenFront(old(cells[..]), done);
            return Aborted, done, length;
          }
          assert value[..|value|] == value;
          length, done := length + |value|, done + value;
        }
        k := k + 1;
      }
      ReachedEnd(cells.Length, insert, done);
      WrittenFront(old(cells[..]), done);
    }

    /** The resize closure of `try_dequeue_and_resize`, on the cleared next buffer. */
    method ResizeAndInsert(capacity: Option<nat>, insert: seq<seq<Value>>)
      returns (r: Outcome, resized: bool, length: nat)
      requires AllEmpty(cells[..])
      modifies this, cells
      ensures r.Done? ==> cells.Length == if capacity.Some? then capacity.value else old(cells.Length)
      ensures var p := Prepare(old(cells[..]), ResizeTo(capacity, insert));
              && (r.Aborted? <==> p.Panic?)
              && cells[..] == p.cells && !p.clobbers
              && (r.Done? ==> resized == p.resized && length == |p.inserted|)
    {
      resized, length := capacity.Some? && capacity.value != cells.Length, 0;
      if resized {
        if capacity.value >= CAPACITY_LIMIT {
          return Aborted, resized, length;
        }
        Resize(capacity.value);
      }
      ghost var done;
      r, done, length := InsertAll(insert);
    }
  }

  lemma {:induction false} WrittenFront(cells: seq<Option<Value>>, done: seq<Value>)
    requires |done| <= |cells|
    ensures Written(cells, 0, done) == Filled(done) + cells[|done|..]
  {
  }

  lemma {:induction false} WrittenTwice(cells: seq<Option<Value>>, done: seq<Value>, value: seq<Value>)
    requires |done| + |value| <= |cells|
    ensures Written(Written(cells, 0, done), |done|, value) == Written(cells, 0, done + value)
  {
  }

  // ---------------------------------------------------------------- the loop against the recursion

  /** After `k` values the loop has inserted `done`; the recursion would make the same of the rest. */
  ghost predicate Reached(capacity: nat, insert: seq<seq<Value>>, k: nat, done: seq<Value>) {
    && k <= |insert| && |done| <= capacity
    && PreInsert(capacity, 0, insert) == PreInsert(capacity, |done|, insert[k..]).Behind(done)
  }

  lemma {:induction false} ReachedStart(capacity: nat, insert: seq<seq<Value>>)
    ensures Reached(capacity, insert, 0, [])
  {
    assert insert[0..] == insert;
    var r := PreInsert(capacity, 0, insert);
    assert [] + r.values == r.values;
  }

  lemma {:induction false} ReachedNext(capacity: nat, insert: seq<seq<Value>>, k: nat, done: seq<Value>)
    requires Reached(capacity, insert, k, done) && k < |insert|
    ensures var value := insert[k];
            if |value| > capacity then PreInsert(capacity, 0, insert) == Fits(done)
            else if |done| + |value| > capacity then
              PreInsert(capacity, 0, insert) == Overflows(done + value[..capacity - |done|])
            else Reached(capacity, insert, k + 1, done + value)
  {
    var value := insert[k];
    assert insert[k..][0] == value && insert[k..][1..] == insert[k + 1..];
    assert done + [] == done;
    assert |value| == 0 ==> done + value == done;
    if |done| + |value| <= capacity {
      var rest := PreInsert(capacity, |done + value|, insert[k + 1..]);
      assert done + (value + rest.values) == done + value + rest.values;
    }
  }

  lemma {:induction false} ReachedEnd(capacity: nat, insert: seq<seq<Value>>, done: seq<Value>)
    requires Reached(capacity, insert, |insert|, done)
    ensures PreInsert(capacity, 0, insert) == Fits(done)
  {
    assert done + [] == done;
  }
}

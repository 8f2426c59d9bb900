/** The bytes buffer of `src/write/vec.rs` and the framed slice of `src/write.rs`: room for a header is
    kept before the payload and room for a trailer after it. */
module WriteVecBuffer {
  import opened Sequences

  type Byte = b: int | 0 <= b < 256

  /** `bytes` with `chunk` copied over it at `at`. */
  function Overwrite(bytes: seq<Byte>, at: nat, chunk: seq<Byte>): (r: seq<Byte>)
    requires at + |chunk| <= |bytes|
    ensures |r| == |bytes|
    ensures forall p :: 0 <= p < |r| ==> r[p] == if at <= p < at + |chunk| then chunk[p - at] else bytes[p]
  {
    bytes[..at] + chunk + bytes[at + |chunk|..]
  }

  /** `copy_from_slice` into the array at `at`. */
  method CopyInto(bytes: array<Byte>, at: nat, chunk: seq<Byte>)
    requires at + |chunk| <= bytes.Length
    modifies bytes
    ensures bytes[..] == Overwrite(old(bytes[..]), at, chunk)
  {
    for k := 0 to |chunk|
      invariant forall p :: 0 <= p < bytes.Length ==>
                  bytes[p] == if at <= p < at + k then chunk[p - at] else old(bytes[p])
    {
      bytes[at + k] := chunk[k];
    }
  }

  class WriteVecBuffer {
    const header: nat
    const trailer: nat
    var bytes: array<Byte>

    constructor (header: nat, trailer: nat)
      ensures this.header == header && this.trailer == trailer
      ensures fresh(bytes) && bytes.Length == 0
    {
      this.header, this.trailer := header, trailer;
      bytes := new Byte[0];
    }

    function Capacity(): nat
      reads this
    {
      if bytes.Length >= header + trailer then bytes.Length - (header + trailer) else 0
    }

    method Resize(capacity: nat)
      modifies this
      ensures fresh(bytes) && Capacity() == capacity
      ensures |bytes[..]| == header + capacity + trailer && forall p :: 0 <= p < bytes.Length ==> bytes[p] == 0
    {
      bytes := new Byte[header + capacity + trailer](_ => 0);
    }

    /** `insert_into`; out of bounds is a panic, which leaves the bytes alone. */
    method InsertInto(index: nat, chunk: seq<Byte>) returns (inserted: bool)
      modifies bytes
      ensures inserted <==> header + index + |chunk| <= bytes.Length
      ensures index + |chunk| <= Capacity() && Capacity() > 0 ==> inserted
      ensures bytes[..] == if inserted then Overwrite(old(bytes[..]), header + index, chunk) else old(bytes[..])
    {
      inserted := header + index + |chunk| <= bytes.Length;
      if inserted {
        CopyInto(bytes, header + index, chunk);
      }
    }

    /** `slice`: the range with the room around it. */
    method Slice(lo: nat, hi: nat) returns (slice: BytesSlice)
      requires lo <= hi && header + hi + trailer <= bytes.Length
      ensures fresh(slice) && slice.Valid() && slice.bytes == bytes
      ensures slice.header == header && slice.trailer == trailer
      ensures slice.Payload() == Payload(bytes[..], header, lo, hi)
      ensures slice.Frame() == bytes[lo..header + hi + trailer]
    {
      slice := new BytesSlice(bytes, lo, header + hi + trailer, header, trailer);
    }
  }

  class BytesSlice {
    const bytes: array<Byte>
    const from: nat
    const to: nat
    const header: nat
    const trailer: nat

    predicate Valid()
    {
      from + header + trailer <= to <= bytes.Length
    }

    constructor (bytes: array<Byte>, from: nat, to: nat, header: nat, trailer: nat)
      requires from + header + trailer <= to <= bytes.Length
      ensures this.bytes == bytes && this.from == from && this.to == to
      ensures this.header == header && this.trailer == trailer
    {
      this.bytes, this.from, this.to, this.header, this.trailer := bytes, from, to, header, trailer;
    }

    function Frame(): seq<Byte>
      requires Valid()
      reads bytes
    {
      bytes[from..to]
    }

    function Header(): seq<Byte>
      requires Valid()
      reads bytes
    {
      bytes[from..from + header]
    }

    function Trailer(): seq<Byte>
      requires Valid()
      reads bytes
    {
      bytes[to - trailer..to]
    }

    /** `Deref`: what is between header and trailer. */
    function Payload(): seq<Byte>
      requires Valid()
      reads bytes
    {
      bytes[from + header..to - trailer]
    }

    /** Writing through the view that `header()` returns. */
    method WriteHeader(data: seq<Byte>)
      requires Valid() && |data| == header
      modifies bytes
      ensures bytes[..] == Overwrite(old(bytes[..]), from, data)
      ensures Header() == data && Payload() == old(Payload()) && Trailer() == old(Trailer())
      ensures Frame() == data + Payload() + Trailer()
    {
      CopyInto(bytes, from, data);
      assert Payload() == old(Payload()) && Trailer() == old(Trailer());
      assert Frame() == Header() + Payload() + Trailer();
    }

    /** Writing through the view that `trailer()` returns. */
    method WriteTrailer(data: seq<Byte>)
      requires Valid() && |data| == trailer
      modifies bytes
      ensures bytes[..] == Overwrite(old(bytes[..]), to - trailer, data)
      ensures Trailer() == data && Payload() == old(Payload()) && Header() == old(Header())
      ensures Frame() == Header() + Payload() + data
    {
      CopyInto(bytes, to - trailer, data);
      assert Payload() == old(Payload()) && Header() == old(Header());
      assert Frame() == Header() + Payload() + Trailer();
    }
  }

  // ---------------------------------------------------------------- the payload of a generation

  /** The payload of the slice of `lo..hi`. */
  function Payload(bytes: seq<Byte>, header: nat, lo: nat, hi: nat): seq<Byte>
    requires lo <= hi && header + hi <= |bytes|
  {
    bytes[header + lo..header + hi]
  }

  /** Where chunk `k` goes: right after the ones before it. */
  function Start(chunks: seq<seq<Byte>>, k: nat): nat
    requires k <= |chunks|
  {
    |Flat(chunks[..k])|
  }

  /** Chunk `k` is the part of the whole that starts at its offset. */
  lemma {:induction false} ChunkAt(chunks: seq<seq<Byte>>, k: nat)
    requires k < |chunks|
    ensures Start(chunks, k) + |chunks[k]| == Start(chunks, k + 1) <= |Flat(chunks)|
    ensures Flat(chunks)[Start(chunks, k)..Start(chunks, k + 1)] == chunks[k]
  {
    assert chunks == chunks[..k] + chunks[k..];
    FlatConcat(chunks[..k], chunks[k..]);
    assert chunks[..k + 1] == chunks[..k] + [chunks[k]];
    FlatConcat(chunks[..k], [chunks[k]]);
    assert Flat([chunks[k]]) == chunks[k] + [];
  }

  /** The insertions of these chunks, each at its own offset, in the order given. */
  function WriteAll(bytes: seq<Byte>, header: nat, chunks: seq<seq<Byte>>, order: seq<nat>): (r: seq<Byte>)
    requires header + |Flat(chunks)| <= |bytes|
    requires forall n :: 0 <= n < |order| ==> order[n] < |chunks|
    ensures |r| == |bytes|
  {
    if |order| == 0 then bytes
    else
      var n := |order| - 1;
      ChunkAt(chunks, order[n]);
      Overwrite(WriteAll(bytes, header, chunks, order[..n]), header + Start(chunks, order[n]), chunks[order[n]])
  }

  /** Position `p` of the payload belongs to chunk `k`. */
  predicate In(chunks: seq<seq<Byte>>, k: nat, p: int) {
    k < |chunks| && Start(chunks, k) <= p < Start(chunks, k + 1)
  }

  /** A byte of the payload is right once its chunk has been written, and stays right. */
  lemma {:induction false} WrittenByte(bytes: seq<Byte>, header: nat, chunks: seq<seq<Byte>>, order: seq<nat>, k: nat,
      p: nat)
    requires header + |Flat(chunks)| <= |bytes|
    requires forall n :: 0 <= n < |order| ==> order[n] < |chunks|
    requires In(chunks, k, p) && p < |Flat(chunks)| && k in order
    ensures WriteAll(bytes, header, chunks, order)[header + p] == Flat(chunks)[p]
    decreases |order|
  {
    var n := |order| - 1;
    var j := order[n];
    ChunkAt(chunks, j);
    if In(chunks, j, p) {
      assert Flat(chunks)[p] == Flat(chunks)[Start(chunks, j)..Start(chunks, j + 1)][p - Start(chunks, j)];
    } else {
      assert k in order[..n];
      WrittenByte(bytes, header, chunks, order[..n], k, p);
    }
  }

  /** Nothing outside the payload is touched. */
  lemma {:induction false} OtherByte(bytes: seq<Byte>, header: nat, chunks: seq<seq<Byte>>, order: seq<nat>, p: nat)
    requires header + |Flat(chunks)| <= |bytes|
    requires forall n :: 0 <= n < |order| ==> order[n] < |chunks|
    requires p < |bytes| && (p < header || header + |Flat(chunks)| <= p)
    ensures WriteAll(bytes, header, chunks, order)[p] == bytes[p]
    decreases |order|
  {
    if |order| > 0 {
      var n := |order| - 1;
      ChunkAt(chunks, order[n]);
      OtherByte(bytes, header, chunks, order[..n], p);
    }
  }

  /** Every position belongs to a chunk. */
  lemma {:induction false} ChunkOf(chunks: seq<seq<Byte>>, n: nat, p: nat) returns (k: nat)
    requires n <= |chunks| && p < Start(chunks, n)
    ensures In(chunks, k, p) && k < n
    decreases n
  {
    if n == 0 {
      assert false;
    } else if Start(chunks, n - 1) <= p {
      k := n - 1;
    } else {
      k := ChunkOf(chunks, n - 1, p);
    }
  }

  /** For every header and trailer size: once every chunk has been inserted at the offset reserved for
      it, in whatever order, the payload of any range is that range of the concatenated chunks, and
      no byte outside the payload has changed. */
  lemma {:induction false} PayloadIsConcatenation(
    bytes: seq<Byte>, header: nat, chunks: seq<seq<Byte>>, order: seq<nat>, lo: nat, hi: nat)
    requires header + |Flat(chunks)| <= |bytes| && lo <= hi <= |Flat(chunks)|
    requires forall n :: 0 <= n < |order| ==> order[n] < |chunks|
    requires forall k :: 0 <= k < |chunks| ==> k in order
    ensures var bytes' := WriteAll(bytes, header, chunks, order);
            && Payload(bytes', header, lo, hi) == Flat(chunks)[lo..hi]
            && bytes'[..header] == bytes[..header]
            && bytes'[header + |Flat(chunks)|..] == bytes[header + |Flat(chunks)|..]
  {
    var bytes' := WriteAll(bytes, header, chunks, order);
    forall p: nat | p < |Flat(chunks)| ensures bytes'[header + p] == Flat(chunks)[p] {
      assert chunks[..|chunks|] == chunks;
      var k := ChunkOf(chunks, |chunks|, p);
      WrittenByte(bytes, header, chunks, order, k, p);
    }
    forall p: nat | p < |bytes| && (p < header || header + |Flat(chunks)| <= p) ensures bytes'[p] == bytes[p] {
      OtherByte(bytes, header, chunks, order, p);
    }
  }

  // ---------------------------------------------------------------- framing

  datatype FrameWrite = ToHeader(data: seq<Byte>) | ToTrailer(data: seq<Byte>)

  /** Writes through the header and trailer views of slices of `lo..hi`, the same one or another one
      obtained after requeuing. */
  function WriteFrames(bytes: seq<Byte>, header: nat, trailer: nat, lo: nat, hi: nat, writes: seq<FrameWrite>)
      : (r: seq<Byte>)
    requires lo <= hi && header + hi + trailer <= |bytes|
    requires forall w :: w in writes ==> |w.data| == if w.ToHeader? then header else trailer
    ensures |r| == |bytes|
    decreases |writes|
  {
    if |writes| == 0 then bytes
    else
      var at := if writes[0].ToHeader? then lo else header + hi;
      WriteFrames(Overwrite(bytes, at, writes[0].data), header, trailer, lo, hi, writes[1..])
  }

  /** No number of header and trailer writes, before and after any number of requeues, changes the
      payload. */
  lemma {:induction false} FramingKeepsPayload(
    bytes: seq<Byte>, header: nat, trailer: nat, lo: nat, hi: nat, writes: seq<FrameWrite>)
    requires lo <= hi && header + hi + trailer <= |bytes|
    requires forall w :: w in writes ==> |w.data| == if w.ToHeader? then header else trailer
    ensures Payload(WriteFrames(bytes, header, trailer, lo, hi, writes), header, lo, hi) ==
            Payload(bytes, header, lo, hi)
    decreases |writes|
  {
    if |writes| > 0 {
      var at := if writes[0].ToHeader? then lo else header + hi;
      var bytes' := Overwrite(bytes, at, writes[0].data);
      assert Payload(bytes', header, lo, hi) == Payload(bytes, header, lo, hi);
      FramingKeepsPayload(bytes', header, trailer, lo, hi, writes[1..]);
    }
  }
}

// Filling a rank's staging buffer with chunks for the next broadcast.
module Staging {

  // A chunk with its position in the caller's request list.
  datatype Chunk = Chunk(request: nat, index: nat, bytes: seq<int>)

  datatype Meta = Meta(request: nat, index: nat, size: nat, offset: nat)

  datatype Placed = Placed(chunk: Chunk, offset: nat)

  // The buffer's address, its size in bytes, the alignment and the most chunks a batch may hold.
  datatype Params = Params(base: nat, buffer: nat, alignment: nat, maxChunks: nat)

  ghost predicate AlignedAt(base: nat, offset: nat, alignment: nat)
  {
    alignment <= 1 || (base + offset) % alignment == 0
  }

  // The smallest offset from `current` on at which the address is aligned.
  function AlignedOffset(base: nat, current: nat, alignment: nat): (offset: nat)
    ensures offset >= current && AlignedAt(base, offset, alignment)
    ensures forall o: nat :: current <= o < offset ==> !AlignedAt(base, o, alignment)
  {
    if alignment <= 1 then current
    else
      PaddingIsLeast(base, current, alignment);
      current + (-(base as int + current)) % alignment
  }

  lemma PaddingIsLeast(base: nat, current: nat, alignment: nat)
    requires alignment > 1
    ensures var p := (-(base as int + current)) % alignment;
            && AlignedAt(base, current + p, alignment)
            && forall o: nat :: current <= o < current + p ==> !AlignedAt(base, o, alignment)
  {
    var address: int := base + current;
    var p := (-address) % alignment;
    var d := (-address) / alignment;
    assert -address == alignment * d + p;
    RemainderUnique(address + p, alignment, -d, 0);
    forall o: nat | current <= o < current + p ensures !AlignedAt(base, o, alignment) {
      var q := o - current - p;
      assert address + (o - current) == alignment * (-d - 1) + (alignment + q);
      RemainderUnique(address + (o - current), alignment, -d - 1, alignment + q);
    }
  }

  lemma RemainderUnique(x: int, n: int, k: int, r: int)
    requires n > 0 && x == n * k + r && 0 <= r < n
    ensures x % n == r
  {
    var q := x / n;
    assert x == n * q + x % n;
    Multiples(q - k, n);
    assert n * (q - k) == r - x % n;
  }

  // No multiple of n lies strictly between -n and n but zero.
  lemma Multiples(k: int, n: int)
    requires n > 0
    ensures k == 0 || n * k >= n || n * k <= -n
  {
  }

  // ---------------------------------------------------------------- a batch

  // The chunks that fit, in order, each at the next aligned offset.
  function Packed(queue: seq<Chunk>, used: nat, room: nat, p: Params): seq<Placed>
  {
    if room == 0 || queue == [] then []
    else
      var offset := AlignedOffset(p.base, used, p.alignment);
      if offset + |queue[0].bytes| > p.buffer then []
      else [Placed(queue[0], offset)] + Packed(queue[1..], offset + |queue[0].bytes|, room - 1, p)
  }

  function Batch(queue: seq<Chunk>, p: Params): seq<Placed> { Packed(queue, 0, p.maxChunks, p) }

  // Offset plus size of the last chunk.
  function SizeOf(batch: seq<Placed>): nat
  {
    if batch == [] then 0 else batch[|batch|-1].offset + |batch[|batch|-1].chunk.bytes|
  }

  function EndOf(x: Placed): nat { x.offset + |x.chunk.bytes| }

  function MetaOf(x: Placed): Meta { Meta(x.chunk.request, x.chunk.index, |x.chunk.bytes|, x.offset) }

  function MetasOf(batch: seq<Placed>): seq<Meta>
  {
    seq(|batch|, j requires 0 <= j < |batch| => MetaOf(batch[j]))
  }

  function ChunksOf(batch: seq<Placed>): seq<Chunk>
  {
    seq(|batch|, j requires 0 <= j < |batch| => batch[j].chunk)
  }

  // Every chunk of the batch can be read back from the data at its offset.
  ghost predicate Holds(data: seq<int>, batch: seq<Placed>)
  {
    forall j :: 0 <= j < |batch| ==> HoldsOne(data, batch[j])
  }

  ghost predicate HoldsOne(data: seq<int>, x: Placed)
  {
    x.offset + |x.chunk.bytes| <= |data| && data[x.offset..x.offset + |x.chunk.bytes|] == x.chunk.bytes
  }

  // What a receiver cuts out of the data it was sent.
  function Unpack(data: seq<int>, metas: seq<Meta>): seq<Chunk>
    requires forall j :: 0 <= j < |metas| ==> metas[j].offset + metas[j].size <= |data|
  {
    seq(|metas|, j requires 0 <= j < |metas| =>
      Chunk(metas[j].request, metas[j].index, data[metas[j].offset..metas[j].offset + metas[j].size]))
  }

  // Ranges of a batch never overlap: each starts at or after the end of the one before.
  ghost predicate Ascending(batch: seq<Placed>, from: nat)
  {
    && (batch != [] ==> batch[0].offset >= from)
    && forall i, j :: 0 <= i && j == i + 1 && j < |batch| ==>
      batch[i].offset + |batch[i].chunk.bytes| <= batch[j].offset
  }

  lemma {:induction false} PackedFacts(queue: seq<Chunk>, used: nat, room: nat, p: Params)
    ensures var b := Packed(queue, used, room, p);
            && |b| <= |queue| && |b| <= room
            && ChunksOf(b) == queue[..|b|]
            && Ascending(b, used)
            && (forall j :: 0 <= j < |b| ==>
              AlignedAt(p.base, b[j].offset, p.alignment) && b[j].offset + |b[j].chunk.bytes| <= p.buffer)
  {
    if room != 0 && queue != [] {
      var offset := AlignedOffset(p.base, used, p.alignment);
      if offset + |queue[0].bytes| <= p.buffer {
        PackedFacts(queue[1..], offset + |queue[0].bytes|, room - 1, p);
        var rest := Packed(queue[1..], offset + |queue[0].bytes|, room - 1, p);
        var b := Packed(queue, used, room, p);
        assert b == [Placed(queue[0], offset)] + rest;
        assert forall j :: 0 < j < |b| ==> b[j] == rest[j - 1];
        assert forall j :: 0 <= j < |rest| ==> ChunksOf(rest)[j] == queue[1..][j];
      }
    }
  }

  // Nothing is wasted: each chunk goes to the least aligned offset behind the one before, and a batch that ends
  // with chunks and room left ends at a chunk that does not fit.
  lemma {:induction false} PackedTight(queue: seq<Chunk>, used: nat, room: nat, p: Params)
    ensures var b := Packed(queue, used, room, p);
            && (forall j :: 0 <= j < |b| ==>
              b[j].offset == AlignedOffset(p.base, if j == 0 then used else EndOf(b[j-1]), p.alignment))
            && (|b| < |queue| && |b| < room ==>
              var end := if b == [] then used else EndOf(b[|b|-1]);
              AlignedOffset(p.base, end, p.alignment) + |queue[|b|].bytes| > p.buffer)
  {
    if room != 0 && queue != [] {
      var offset := AlignedOffset(p.base, used, p.alignment);
      if offset + |queue[0].bytes| <= p.buffer {
        PackedTight(queue[1..], offset + |queue[0].bytes|, room - 1, p);
        var rest := Packed(queue[1..], offset + |queue[0].bytes|, room - 1, p);
        var b := Packed(queue, used, room, p);
        assert b == [Placed(queue[0], offset)] + rest;
        assert forall j :: 0 < j < |b| ==> b[j] == rest[j - 1];
      }
    }
  }

  // What a receiver unpacks from data that holds a batch are the batch's own chunks.
  lemma UnpackHeld(data: seq<int>, batch: seq<Placed>)
    requires Holds(data, batch)
    ensures forall j :: 0 <= j < |batch| ==> MetasOf(batch)[j].offset + MetasOf(batch)[j].size <= |data|
    ensures Unpack(data, MetasOf(batch)) == ChunksOf(batch)
  {
    forall j | 0 <= j < |batch|
      ensures MetasOf(batch)[j].offset + MetasOf(batch)[j].size <= |data|
      ensures data[batch[j].offset..batch[j].offset + |batch[j].chunk.bytes|] == batch[j].chunk.bytes {
      assert HoldsOne(data, batch[j]);
    }
  }

  // Some data of exactly the batch's size holds it.
  lemma {:induction false} LayOut(batch: seq<Placed>) returns (data: seq<int>)
    requires Ascending(batch, 0)
    ensures |data| == SizeOf(batch) && Holds(data, batch)
  {
    if batch == [] {
      data := [];
    } else {
      var front, x := batch[..|batch|-1], batch[|batch|-1];
      if front != [] {
        assert batch[|front| - 1].offset + |batch[|front| - 1].chunk.bytes| <= batch[|front|].offset;
      }
      var start := LayOut(front);
      var gap := seq(x.offset - |start|, i => 0);
      data := start + gap + x.chunk.bytes;
      forall j | 0 <= j < |batch| ensures HoldsOne(data, batch[j]) {
        if j < |front| {
          assert front[j] == batch[j] && HoldsOne(start, front[j]);
          assert data[..|start|] == start;
        }
      }
    }
  }

  // As long as chunks are left and none is larger than the buffer, a batch is not empty.
  lemma BatchMakesProgress(queue: seq<Chunk>, p: Params)
    requires queue != [] && p.maxChunks > 0 && |queue[0].bytes| <= p.buffer && AlignedAt(p.base, 0, p.alignment)
    ensures Batch(queue, p) != []
  {
  }

  // ---------------------------------------------------------------- prefill

  datatype Leftover = None | Some(chunk: Chunk)

  class Stager {
    const p: Params
    const data: array<int>
    const metas: array<Meta>
    const readingFromStorage: bool
    var leftover: Leftover
    var source: seq<Chunk>

    ghost predicate Valid()
      reads this
    {
      && data.Length == p.buffer && metas.Length == p.maxChunks
      && (!readingFromStorage ==> Queue() == [])
    }

    // What is still to be broadcast, in the order the storage layer delivers it.
    function Queue(): seq<Chunk>
      reads this
    {
      (if leftover.Some? then [leftover.chunk] else []) + source
    }

    constructor (p: Params, source: seq<Chunk>)
      ensures Valid() && fresh(data) && fresh(metas) && this.p == p && Queue() == source
    {
      this.p := p;
      data := new int[p.buffer](i => 0);
      metas := new Meta[p.maxChunks](i => Meta(0, 0, 0, 0));
      readingFromStorage := source != [];
      leftover := None;
      this.source := source;
    }

    // The leftover chunk first, then the next one the storage delivers.
    method NextChunk() returns (item: Leftover)
      modifies this
      ensures item.None? ==> old(Queue()) == [] && Queue() == []
      ensures item.Some? ==> old(Queue()) == [item.chunk] + Queue() && leftover.None?
    {
      if leftover.Some? {
        item := leftover;
        leftover := None;
      } else if source == [] {
        item := None;
      } else {
        item := Some(source[0]);
        source := source[1..];
      }
    }

    method PlaceChunk(chunk: Chunk, offset: nat, count: nat, ghost batch: seq<Placed>, ghost used: nat)
      requires Valid() && count == |batch| < p.maxChunks && used <= offset && offset + |chunk.bytes| <= p.buffer
      requires Holds(data[..], batch) && metas[..count] == MetasOf(batch)
      requires forall j :: 0 <= j < |batch| ==> batch[j].offset + |batch[j].chunk.bytes| <= used
      modifies data, metas
      ensures Holds(data[..], batch + [Placed(chunk, offset)])
      ensures metas[..count + 1] == MetasOf(batch + [Placed(chunk, offset)])
    {
      ghost var before := data[..];
      forall i | 0 <= i < |chunk.bytes| {
        data[offset + i] := chunk.bytes[i];
      }
      Written(before, data[..], batch, Placed(chunk, offset), used);
      metas[count] := Meta(chunk.request, chunk.index, |chunk.bytes|, offset);
    }

    // The buffer and the metadata rows hold the batch.
    ghost predicate Staged(batch: seq<Placed>)
      reads data, metas
    {
      Holds(data[..], batch) && |batch| <= metas.Length && metas[..|batch|] == MetasOf(batch)
    }

    lemma StagedNone()
      ensures Staged([])
    {
    }

    lemma StagedFacts(batch: seq<Placed>)
      requires Staged(batch)
      ensures Holds(data[..], batch) && |batch| <= metas.Length && metas[..|batch|] == MetasOf(batch)
    {
    }

    // One turn of the loop: the next chunk is placed, or kept for the next batch when it does not fit.
    method Place(chunk: Chunk, count: nat, used: nat, ghost queue: seq<Chunk>, ghost batch: seq<Placed>)
      returns (full: bool, size: nat, ghost more: seq<Placed>)
      requires Valid() && leftover.None? && count == |batch| < |queue| && count < p.maxChunks
      requires chunk == queue[count] && Queue() == queue[count + 1..] && readingFromStorage
      requires PackedSoFar(queue, batch, used, false, p) && Staged(batch)
      modifies this`leftover, data, metas
      ensures Valid() && PackedSoFar(queue, more, size, full, p)
      ensures Staged(more) && |more| == (if full then count else count + 1) && Queue() == queue[|more|..]
      ensures !full ==> size <= p.buffer
      ensures full ==> size == used
    {
      hide Holds, MetasOf, AlignedAt, PackedSoFar, AlignedOffset;
      PackedRoom(queue, batch, used, p);
      var offset := AlignedOffset(p.base, used, p.alignment);
      PackedNext(queue, batch, used, p, chunk, offset);
      full := offset + |chunk.bytes| > p.buffer;
      if full {
        leftover := Some(chunk);
        size, more := used, batch;
        assert [chunk] + queue[count + 1..] == queue[count..];
      } else {
        PlaceChunk(chunk, offset, count, batch, used);
        size, more := offset + |chunk.bytes|, batch + [Placed(chunk, offset)];
      }
    }

    // Fills the buffer with one batch. A chunk that does not fit waits for the next one.
    method Prefill() returns (size: nat, count: nat)
      requires Valid()
      modifies this, data, metas
      ensures Valid()
      ensures var batch := Batch(old(Queue()), p);
              && count == |batch| <= |old(Queue())| && Queue() == old(Queue())[count..]
              && size == SizeOf(batch) <= p.buffer
              && Holds(data[..], batch)
              && count <= metas.Length && metas[..count] == MetasOf(batch)
    {
      hide Holds, MetasOf, PackedSoFar, Batch, SizeOf, Staged;
      size, count := 0, 0;
      ghost var queue := Queue();
      ghost var batch: seq<Placed> := [];
      StagedNone();
      PackedStart(queue, p);
      var full := false;
      while count < p.maxChunks && readingFromStorage && !full
        invariant Valid() && count == |batch| <= p.maxChunks && |batch| <= |queue|
        invariant Queue() == queue[count..] && size <= p.buffer
        invariant PackedSoFar(queue, batch, size, full, p)
        invariant Staged(batch)
        decreases p.maxChunks - count, !full
      {
        var item := NextChunk();
        if item.None? {
          break;
        }
        assert queue[count] == item.chunk && Queue() == queue[count + 1..];
        full, size, batch := Place(item.chunk, count, size, queue, batch);
        count := if full then count else count + 1;
      }
      PackedEnd(queue, batch, size, full, p);
      StagedFacts(batch);
    }
  }

  // `batch` is what Batch makes of the queue up to here; `full` says that nothing more fits.
  ghost predicate PackedSoFar(queue: seq<Chunk>, batch: seq<Placed>, used: nat, full: bool, p: Params)
  {
    && |batch| <= |queue| && |batch| <= p.maxChunks && used == SizeOf(batch)
    && (forall j :: 0 <= j < |batch| ==> batch[j].offset + |batch[j].chunk.bytes| <= used)
    && Batch(queue, p) == batch + if full then [] else Packed(queue[|batch|..], used, p.maxChunks - |batch|, p)
  }

  lemma PackedStart(queue: seq<Chunk>, p: Params)
    ensures PackedSoFar(queue, [], 0, false, p)
  {
    assert queue[0..] == queue;
  }

  lemma PackedRoom(queue: seq<Chunk>, batch: seq<Placed>, used: nat, p: Params)
    requires PackedSoFar(queue, batch, used, false, p)
    ensures forall j :: 0 <= j < |batch| ==> batch[j].offset + |batch[j].chunk.bytes| <= used
  {
  }

  lemma PackedEnd(queue: seq<Chunk>, batch: seq<Placed>, used: nat, full: bool, p: Params)
    requires PackedSoFar(queue, batch, used, full, p)
    requires full || |batch| == p.maxChunks || |batch| == |queue|
    ensures batch == Batch(queue, p) && used == SizeOf(batch)
  {
  }

  lemma PackedNext(queue: seq<Chunk>, batch: seq<Placed>, used: nat, p: Params, chunk: Chunk, offset: nat)
    requires PackedSoFar(queue, batch, used, false, p) && |batch| < |queue| && |batch| < p.maxChunks
    requires offset == AlignedOffset(p.base, used, p.alignment) && chunk == queue[|batch|]
    ensures offset + |chunk.bytes| > p.buffer ==> PackedSoFar(queue, batch, used, true, p)
    ensures offset + |chunk.bytes| <= p.buffer ==>
              PackedSoFar(queue, batch + [Placed(chunk, offset)], offset + |chunk.bytes|, false, p)
  {
    var rest := queue[|batch|..];
    assert rest[0] == chunk && rest[1..] == queue[|batch| + 1..];
    if offset + |chunk.bytes| <= p.buffer {
      var tail := Packed(rest[1..], offset + |chunk.bytes|, p.maxChunks - |batch| - 1, p);
      assert batch + ([Placed(chunk, offset)] + tail) == batch + [Placed(chunk, offset)] + tail;
    }
  }

  // Writing a chunk behind everything written so far keeps the earlier chunks.
  lemma Written(before: seq<int>, after: seq<int>, batch: seq<Placed>, x: Placed, used: nat)
    requires Holds(before, batch) && |after| == |before| && used <= x.offset
    requires forall j :: 0 <= j < |batch| ==> batch[j].offset + |batch[j].chunk.bytes| <= used
    requires x.offset + |x.chunk.bytes| <= |after|
    requires forall i :: 0 <= i < |after| ==>
      after[i] == if x.offset <= i < x.offset + |x.chunk.bytes| then x.chunk.bytes[i - x.offset] else before[i]
    ensures Holds(after, batch + [x])
  {
    forall j | 0 <= j < |batch + [x]| ensures HoldsOne(after, (batch + [x])[j]) {
      if j < |batch| {
        assert HoldsOne(before, batch[j]);
        var lo, hi := batch[j].offset, batch[j].offset + |batch[j].chunk.bytes|;
        assert after[lo..hi] == before[lo..hi];
      } else {
        assert after[x.offset..x.offset + |x.chunk.bytes|] == x.chunk.bytes;
      }
    }
  }
}

// The memory-capped buffer that requests are packed into, and how large it is.
module RequestsBuffer {
  import opened Seqs
  import opened FileChunksModel
  import opened Packing
  import opened RequestsIterator

  // ---------------------------------------------------------------- how large the buffer is

  datatype MemoryCapMode = Unlimited | Limited | LargestChunk

  datatype UserLimit = NoLimit | Limit(bytes: nat)

  datatype Cap = Cap(bytes: nat) | MemoryLimitException

  // The largest single range; 0 when there is none.
  method LargestRange(files: seq<FileChunks>) returns (largest: nat)
    ensures IsLargest(files, largest)
  {
    largest := 0;
    for i := 0 to |files|
      invariant AllFit(files[..i], largest)
      invariant largest == 0 || exists a, b :: 0 <= a < |files| && 0 <= b < |files[a].sizes|
                                               && files[a].sizes[b] == largest
    {
      ghost var before := largest;
      for j := 0 to |files[i].sizes|
        invariant before <= largest
        invariant forall b :: 0 <= b < j ==> files[i].sizes[b] <= largest
        invariant largest == 0 || exists a, b :: 0 <= a < |files| && 0 <= b < |files[a].sizes|
                                                 && files[a].sizes[b] == largest
      {
        if files[i].sizes[j] > largest {
          largest := files[i].sizes[j];
        }
      }
    }
    assert files[..|files|] == files;
  }

  method TotalSize(files: seq<FileChunks>) returns (total: nat)
    ensures total == Bytes(files)
  {
    total := 0;
    for i := 0 to |files|
      invariant total == Bytes(files[..i])
    {
      total := total + files[i].TotalSize();
      assert files[..i + 1][..i] == files[..i];
    }
    assert files[..|files|] == files;
  }

  lemma {:induction false} SumHas(s: seq<nat>, j: nat)
    requires j < |s|
    ensures s[j] <= Sum(s)
  {
    if j < |s| - 1 {
      SumHas(s[..|s|-1], j);
    }
  }

  lemma {:induction false} BytesHas(files: seq<FileChunks>, i: nat, j: nat)
    requires i < |files| && j < |files[i].sizes|
    ensures files[i].sizes[j] <= Bytes(files)
  {
    if i < |files| - 1 {
      BytesHas(files[..|files|-1], i, j);
    } else {
      SumHas(files[i].sizes, j);
    }
  }

  // The largest range of the files, 0 when there is none.
  ghost predicate IsLargest(files: seq<FileChunks>, n: nat)
  {
    && AllFit(files, n)
    && (n == 0 || exists i, j :: 0 <= i < |files| && 0 <= j < |files[i].sizes| && files[i].sizes[j] == n)
  }

  // Room for everything, for the largest range, or for what the user allows but no more than everything.
  // Whatever the mode, an accepted buffer takes every range. Refused exactly when the user's limit is
  // missing or below the largest range.
  method WithMemoryCap(mode: MemoryCapMode, files: seq<FileChunks>, user: UserLimit) returns (cap: Cap)
    ensures cap.Cap? ==> AllFit(files, cap.bytes)
    ensures cap.Cap? ==> cap.bytes <= Bytes(files)
    ensures cap == MemoryLimitException <==> mode == Limited && (user == NoLimit || !AllFit(files, user.bytes))
    ensures mode == Unlimited ==> cap == Cap(Bytes(files))
    ensures mode == LargestChunk ==> cap.Cap? && IsLargest(files, cap.bytes)
    ensures mode == Limited && cap.Cap? ==>
              cap.bytes <= user.bytes && (cap.bytes == user.bytes || cap.bytes == Bytes(files))
  {
    forall i: nat, j: nat | i < |files| && j < |files[i].sizes| ensures files[i].sizes[j] <= Bytes(files) {
      BytesHas(files, i, j);
    }
    var total := TotalSize(files);
    var largest := LargestRange(files);
    match mode
    case Unlimited => return Cap(total);
    case LargestChunk => return Cap(largest);
    case Limited =>
      if user == NoLimit || user.bytes < largest {
        return MemoryLimitException;
      }
      return Cap(if user.bytes < total then user.bytes else total);
  }

  // ---------------------------------------------------------------- destinations

  // All sizes of a request, file after file.
  function FlatSizes(files: seq<FileChunks>): seq<nat>
  {
    if files == [] then [] else FlatSizes(files[..|files|-1]) + files[|files|-1].sizes
  }

  lemma {:induction false} FlatFacts(files: seq<FileChunks>)
    ensures |FlatSizes(files)| == RangeCount(files) && Sum(FlatSizes(files)) == Bytes(files)
  {
    if files != [] {
      FlatFacts(files[..|files|-1]);
      SumAppend(FlatSizes(files[..|files|-1]), files[|files|-1].sizes);
    }
  }

  // Where file f's range i is in the flat list: what flat_index computes.
  lemma {:induction false} FlatIndex(files: seq<FileChunks>, f: nat, i: nat)
    requires f < |files| && i < |files[f].sizes|
    ensures RangeCount(files[..f]) + i < |FlatSizes(files)|
        && FlatSizes(files)[RangeCount(files[..f]) + i] == files[f].sizes[i]
  {
    FlatFacts(files[..|files|-1]);
    if f < |files| - 1 {
      FlatIndex(files[..|files|-1], f, i);
      assert files[..|files|-1][..f] == files[..f];
    }
  }

  // Packed back to back from `address`.
  ghost predicate BackToBack(dsts: seq<nat>, sizes: seq<nat>, address: nat)
  {
    |dsts| == |sizes| && forall k :: 0 <= k < |dsts| ==> dsts[k] == address + Sum(sizes[..k])
  }

  lemma {:induction false} SumMonotone(s: seq<nat>, i: nat, j: nat)
    requires i <= j <= |s|
    ensures Sum(s[..i]) <= Sum(s[..j])
  {
    if i < j {
      SumMonotone(s, i, j - 1);
      assert s[..j][..j - 1] == s[..j - 1];
    }
  }

  // Destinations of different ranges do not overlap, and all lie inside the buffer.
  lemma {:induction false} SlicesDisjoint(dsts: seq<nat>, sizes: seq<nat>, address: nat, i: nat, j: nat)
    requires BackToBack(dsts, sizes, address) && i < j < |dsts|
    ensures dsts[i] + sizes[i] <= dsts[j]
    ensures address <= dsts[i] && dsts[j] + sizes[j] <= address + Sum(sizes)
  {
    assert sizes[..i + 1][..i] == sizes[..i] && sizes[..j + 1][..j] == sizes[..j];
    assert Sum(sizes[..i + 1]) == Sum(sizes[..i]) + sizes[i] && Sum(sizes[..j + 1]) == Sum(sizes[..j]) + sizes[j];
    hide Sum;
    SumMonotone(sizes, i + 1, j);
    SumMonotone(sizes, j + 1, |sizes|);
    assert sizes[..|sizes|] == sizes;
    SumMonotone(sizes, 0, i);
  }

  lemma {:induction false} SliceInside(dsts: seq<nat>, sizes: seq<nat>, address: nat, k: nat)
    requires BackToBack(dsts, sizes, address) && k < |dsts|
    ensures address <= dsts[k] && dsts[k] + sizes[k] <= address + Sum(sizes)
  {
    assert sizes[..k + 1][..k] == sizes[..k];
    SumMonotone(sizes, k + 1, |sizes|);
    assert sizes[..|sizes|] == sizes;
  }

  // One more address: the range after `sizes`, at the cursor.
  lemma {:induction false} DestinationStep(dsts: seq<nat>, sizes: seq<nat>, size: nat, address: nat)
    requires BackToBack(dsts, sizes, address)
    ensures BackToBack(dsts + [address + Sum(sizes)], sizes + [size], address)
    ensures Sum(sizes + [size]) == Sum(sizes) + size
  {
    hide Sum;
    SumSnoc(sizes, size);
    var more, now := dsts + [address + Sum(sizes)], sizes + [size];
    forall k | 0 <= k < |more| ensures more[k] == address + Sum(now[..k]) {
      assert now[..k] == sizes[..k];
      if k == |sizes| {
        assert sizes[..k] == sizes;
      }
    }
  }

  // The ranges of one file, after those of the files before it.
  method PackFile(before: seq<nat>, at: nat, own: seq<nat>, address: nat, ghost base: seq<nat>)
    returns (dsts: seq<nat>, cursor: nat)
    requires BackToBack(before, base, address) && at == address + Sum(base)
    ensures BackToBack(dsts, base + own, address) && cursor == address + Sum(base + own)
  {
    hide Sum, BackToBack;
    dsts, cursor := before, at;
    assert base + own[..0] == base;
    for i := 0 to |own|
      invariant BackToBack(dsts, base + own[..i], address) && cursor == address + Sum(base + own[..i])
    {
      DestinationStep(dsts, base + own[..i], own[i], address);
      assert base + own[..i + 1] == base + own[..i] + [own[i]];
      dsts := dsts + [cursor];
      cursor := cursor + own[i];
    }
    assert own[..|own|] == own;
  }

  lemma {:induction false} FlatStep(files: seq<FileChunks>, f: nat)
    requires f < |files|
    ensures FlatSizes(files[..f + 1]) == FlatSizes(files[..f]) + files[f].sizes
  {
    assert files[..f + 1][..f] == files[..f];
  }

  method PackDestinations(files: seq<FileChunks>, address: nat) returns (dsts: seq<nat>)
    ensures BackToBack(dsts, FlatSizes(files), address)
  {
    assert BackToBack([], FlatSizes(files[..0]), address) && Sum(FlatSizes(files[..0])) == 0;
    hide Sum, FlatSizes, BackToBack;
    dsts := [];
    var cursor := address;
    for f := 0 to |files|
      invariant BackToBack(dsts, FlatSizes(files[..f]), address) && cursor == address + Sum(FlatSizes(files[..f]))
    {
      FlatStep(files, f);
      dsts, cursor := PackFile(dsts, cursor, files[f].sizes, address, FlatSizes(files[..f]));
    }
    assert files[..|files|] == files;
  }

  // ---------------------------------------------------------------- the iterator with its buffer

  class FilesRequestsIteratorWithBuffer {
    const requests: FilesRequestsIterator
    const bufferAddress: nat
    const bufferSize: nat
    var dsts: seq<nat>

    ghost predicate Valid()
      reads this, requests, requests.q
    {
      && requests.Valid() && requests.memoryLimit == bufferSize
      && (requests.active.Request? ==>
            && Bytes(requests.active.r.files) <= bufferSize
            && BackToBack(dsts, FlatSizes(requests.active.r.files), bufferAddress))
    }

    constructor (bufferSize: nat, files: seq<FileChunks>, bufferAddress: nat)
      requires AllValid(files) && DistinctIds(files)
      ensures Valid() && fresh(requests) && fresh(requests.q) && requests.original == files
          && this.bufferSize == bufferSize && this.bufferAddress == bufferAddress
    {
      requests := new FilesRequestsIterator(bufferSize, files);
      this.bufferAddress := bufferAddress;
      this.bufferSize := bufferSize;
      dsts := [];
    }

    // The request's ranges go back to back into the buffer, one address each.
    method NextRequest() returns (result: Active)
      requires Valid()
      modifies this, requests, requests.q
      ensures Valid()
      ensures result.Request? ==> result == requests.active && result.r.files != []
      ensures result == NoRequest && AllFit(requests.original, bufferSize) ==>
                Complete(requests.original, requests.before + FilesOf(requests.active))
    {
      hide Complete, FlatSizes, BackToBack, Packing.Pack;
      result := requests.NextRequest();
      if result.Request? {
        dsts := PackDestinations(result.r.files, bufferAddress);
      }
    }

    // The part of the buffer that holds a response's bytes.
    method Slice(localFile: nat, localRange: nat) returns (start: nat, size: nat)
      requires Valid() && requests.active.Request?
      requires localFile < |requests.active.r.files| && localRange < |requests.active.r.files[localFile].sizes|
      ensures start + size <= bufferSize && size == requests.active.r.files[localFile].sizes[localRange]
      ensures var k := RangeCount(requests.active.r.files[..localFile]) + localRange;
              k < |dsts| && bufferAddress + start == dsts[k]
    {
      var r := requests.active.r;
      FlatIndex(r.files, localFile, localRange);
      FlatFacts(r.files);
      assert RequestOk(r);
      var k := r.fileBase[localFile] + localRange;
      SliceInside(dsts, FlatSizes(r.files), bufferAddress, k);
      start := dsts[k] - bufferAddress;
      size := r.files[localFile].sizes[localRange];
    }
  }
}

// Turning a request into contiguous transfers, and the transfers into one slice per worker.
module Assigner {
  import opened Seqs

  // ---------------------------------------------------------------- data

  datatype ReadRange = ReadRange(offset: nat, size: nat, dst: nat)

  datatype FileRanges = FileRanges(path: string, ranges: seq<ReadRange>)

  datatype FileReadTask = FileReadTask(workload: nat, fileIndex: nat, offset: nat, size: nat, destination: nat)

  datatype Transfer = Transfer(
    fileIndex: nat,
    offset: nat,
    size: nat,
    destination: nat,
    first: nat,
    sizes: seq<nat>,
    tasks: seq<FileReadTask>)

  // std::numeric_limits<size_t>::max()
  const SIZE_MAX: nat := 0xFFFF_FFFF_FFFF_FFFF

  // A range together with where the caller listed it.
  datatype Listed = Listed(file: nat, index: nat, range: ReadRange)

  function ListFile(file: nat, ranges: seq<ReadRange>): seq<Listed>
  {
    seq(|ranges|, i requires 0 <= i < |ranges| => Listed(file, i, ranges[i]))
  }

  // Every range of the request, in the caller's order.
  function ListAll(request: seq<FileRanges>): seq<Listed>
  {
    if request == [] then []
    else ListAll(request[..|request|-1]) + ListFile(|request|-1, request[|request|-1].ranges)
  }

  function TotalBytes(ls: seq<Listed>): nat
  {
    if ls == [] then 0 else TotalBytes(ls[..|ls|-1]) + ls[|ls|-1].range.size
  }

  // ---------------------------------------------------------------- what a transfer covers

  // The ranges of a transfer, recovered from its sizes alone by prefix sums.
  function Covered(t: Transfer): seq<Listed>
  {
    seq(|t.sizes|, j requires 0 <= j < |t.sizes| =>
      Listed(t.fileIndex, t.first + j,
        ReadRange(t.offset + Sum(t.sizes[..j]), t.sizes[j], t.destination + Sum(t.sizes[..j]))))
  }

  function CoveredAll(ts: seq<Transfer>): seq<Listed>
  {
    if ts == [] then [] else CoveredAll(ts[..|ts|-1]) + Covered(ts[|ts|-1])
  }

  ghost predicate TransferOk(t: Transfer)
  {
    t.size == Sum(t.sizes) && t.sizes != []
  }

  // Two transfers that one read could have served.
  ghost predicate Mergeable(a: Transfer, b: Transfer)
  {
    a.fileIndex == b.fileIndex && a.offset + a.size == b.offset && a.destination + a.size == b.destination
  }

  ghost predicate Maximal(ts: seq<Transfer>)
  {
    forall i, j :: 0 <= i && j == i + 1 && j < |ts| ==> !Mergeable(ts[i], ts[j])
  }

  ghost predicate TransfersOk(ts: seq<Transfer>)
  {
    forall i :: 0 <= i < |ts| ==> TransferOk(ts[i])
  }

  lemma {:induction false} CoveredSnoc(ts: seq<Transfer>, t: Transfer)
    ensures CoveredAll(ts + [t]) == CoveredAll(ts) + Covered(t)
  {
    assert (ts + [t])[..|ts|] == ts;
  }

  lemma {:induction false} TotalSnoc(ls: seq<Listed>, l: Listed)
    ensures TotalBytes(ls + [l]) == TotalBytes(ls) + l.range.size
  {
    assert (ls + [l])[..|ls|] == ls;
  }

  lemma {:induction false} TotalGrows(a: seq<Listed>, b: seq<Listed>)
    requires a <= b
    ensures TotalBytes(a) <= TotalBytes(b)
  {
    if |a| < |b| {
      TotalGrows(a, b[..|b|-1]);
    } else {
      assert a == b;
    }
  }

  function Opened(file: nat, i: nat, r: ReadRange): Transfer
  {
    Transfer(file, r.offset, r.size, r.dst, i, [r.size], [])
  }

  function Extended(t: Transfer, size: nat): Transfer
  {
    t.(size := t.size + size, sizes := t.sizes + [size])
  }

  lemma {:induction false} OpenCovers(ts: seq<Transfer>, file: nat, i: nat, r: ReadRange)
    ensures TransferOk(Opened(file, i, r))
    ensures CoveredAll(ts + [Opened(file, i, r)]) == CoveredAll(ts) + [Listed(file, i, r)]
  {
    var t := Opened(file, i, r);
    CoveredSnoc(ts, t);
    assert t.sizes[..0] == [];
    assert Covered(t) == [Listed(file, i, r)];
  }

  lemma CoveredExtends(t: Transfer, size: nat)
    requires t.size == Sum(t.sizes)
    ensures Covered(Extended(t, size)) ==
            Covered(t) + [Listed(t.fileIndex, t.first + |t.sizes|,
              ReadRange(t.offset + t.size, size, t.destination + t.size))]
  {
    hide Sum;
    var u := Extended(t, size);
    assert forall j :: 0 <= j <= |t.sizes| ==> u.sizes[..j] == t.sizes[..j];
    assert t.sizes[..|t.sizes|] == t.sizes;
  }

  lemma {:induction false} ExtendCovers(front: seq<Transfer>, t: Transfer, r: ReadRange)
    requires TransferOk(t) && t.offset + t.size == r.offset && t.destination + t.size == r.dst
    ensures TransferOk(Extended(t, r.size))
    ensures CoveredAll(front + [Extended(t, r.size)]) ==
            CoveredAll(front + [t]) + [Listed(t.fileIndex, t.first + |t.sizes|, r)]
  {
    SumSnoc(t.sizes, r.size);
    CoveredExtends(t, r.size);
    hide Covered, CoveredAll, Sum;
    CoveredSnoc(front, t);
    CoveredSnoc(front, Extended(t, r.size));
  }

  // Where the pass over one file's ranges stands.
  ghost predicate Coalescing(ts: seq<Transfer>, open: nat, file: nat, i: nat, done: seq<Listed>)
  {
    && CoveredAll(ts) == done
    && TransfersOk(ts) && Maximal(ts)
    && (forall k :: 0 <= k < |ts| ==> ts[k].tasks == [])
    && (if i == 0 then open == |ts|
      else open == |ts| - 1 && ts[open].fileIndex == file && ts[open].first + |ts[open].sizes| == i)
    && forall k :: 0 <= k < |ts| ==> ts[k].fileIndex < file || (ts[k].fileIndex == file && i > 0)
  }

  lemma CoalesceOpen(ts: seq<Transfer>, open: nat, file: nat, i: nat, done: seq<Listed>, r: ReadRange)
    requires Coalescing(ts, open, file, i, done)
    requires open < |ts| ==>
        !(ts[open].offset + ts[open].size == r.offset && ts[open].destination + ts[open].size == r.dst)
    ensures Coalescing(ts + [Opened(file, i, r)], |ts|, file, i + 1, done + [Listed(file, i, r)])
  {
    hide CoveredAll, TransferOk;
    OpenCovers(ts, file, i, r);
  }

  lemma CoalesceExtend(ts: seq<Transfer>, open: nat, file: nat, i: nat, done: seq<Listed>, r: ReadRange)
    requires Coalescing(ts, open, file, i, done) && open < |ts|
    requires ts[open].offset + ts[open].size == r.offset && ts[open].destination + ts[open].size == r.dst
    ensures Coalescing(ts[open := Extended(ts[open], r.size)], open, file, i + 1, done + [Listed(file, i, r)])
  {
    hide CoveredAll;
    var front, t := ts[..open], ts[open];
    assert ts == front + [t];
    assert ts[open := Extended(t, r.size)] == front + [Extended(t, r.size)];
    ExtendCovers(front, t, r);
  }

  lemma {:induction false} ListAllPrefix(request: seq<FileRanges>, f: nat)
    requires f <= |request|
    ensures ListAll(request[..f]) <= ListAll(request)
  {
    if f < |request| {
      ListAllPrefix(request[..|request|-1], f);
      assert request[..|request|-1][..f] == request[..f];
    } else {
      assert request[..f] == request;
    }
  }

  lemma {:induction false} ListSoFar(request: seq<FileRanges>, f: nat)
    requires f < |request|
    ensures ListAll(request[..f + 1]) == ListAll(request[..f]) + ListFile(f, request[f].ranges)
    ensures ListAll(request[..f + 1]) <= ListAll(request)
  {
    assert request[..f + 1][..f] == request[..f];
    ListAllPrefix(request, f + 1);
  }

  // The ranges of one file: each extends the open transfer or opens a new one.
  method CoalesceFile(before: seq<Transfer>, bytes: nat, f: nat, ranges: seq<ReadRange>, ghost base: seq<Listed>)
    returns (ok: bool, ts: seq<Transfer>, total: nat)
    requires Coalescing(before, |before|, f, 0, base) && bytes == TotalBytes(base) <= SIZE_MAX
    ensures ok <==> TotalBytes(base + ListFile(f, ranges)) <= SIZE_MAX
    ensures ok ==>
        Coalescing(ts, |ts|, f + 1, 0, base + ListFile(f, ranges)) && total == TotalBytes(base + ListFile(f, ranges))
  {
    assert |ListFile(f, ranges)| == |ranges|;
    hide ListFile, Coalescing, TotalBytes, Extended, Opened;
    ts, total := before, bytes;
    var open: nat := |ts|;
    assert base + ListFile(f, ranges)[..0] == base;
    for i := 0 to |ranges|
      invariant Coalescing(ts, open, f, i, base + ListFile(f, ranges)[..i])
      invariant total == TotalBytes(base + ListFile(f, ranges)[..i]) <= SIZE_MAX
    {
      var r := ranges[i];
      ghost var so := base + ListFile(f, ranges)[..i];
      NextListed(base, f, ranges, i);
      if total > SIZE_MAX - r.size {
        TotalGrows(base + ListFile(f, ranges)[..i + 1], base + ListFile(f, ranges));
        return false, [], 0;
      }
      total := total + r.size;
      if open < |ts| && ts[open].offset + ts[open].size == r.offset && ts[open].destination + ts[open].size == r.dst {
        CoalesceExtend(ts, open, f, i, so, r);
        ts := ts[open := Extended(ts[open], r.size)];
      } else {
        CoalesceOpen(ts, open, f, i, so, r);
        open := |ts|;
        ts := ts + [Opened(f, i, r)];
      }
    }
    assert ListFile(f, ranges)[..|ranges|] == ListFile(f, ranges);
    CoalesceNext(ts, open, f, |ranges|, base + ListFile(f, ranges));
    ok := true;
  }

  lemma CoalesceNext(ts: seq<Transfer>, open: nat, f: nat, i: nat, done: seq<Listed>)
    requires Coalescing(ts, open, f, i, done)
    ensures Coalescing(ts, |ts|, f + 1, 0, done)
  {
  }

  // Adjacent ranges are merged, in the caller's order; nothing is lost, and no two neighbours of one
  // file could still be merged. Fails exactly when the byte total does not fit a size_t.
  method Coalesce(request: seq<FileRanges>) returns (ok: bool, ts: seq<Transfer>, total: nat)
    ensures ok <==> TotalBytes(ListAll(request)) <= SIZE_MAX
    ensures ok ==> CoveredAll(ts) == ListAll(request) && TransfersOk(ts) && Maximal(ts)
    ensures ok ==> total == TotalBytes(ListAll(request))
    ensures ok ==> forall k :: 0 <= k < |ts| ==> ts[k].tasks == []
  {
    ok, ts, total := true, [], 0;
    for f := 0 to |request|
      invariant ok && Coalescing(ts, |ts|, f, 0, ListAll(request[..f]))
      invariant total == TotalBytes(ListAll(request[..f])) <= SIZE_MAX
    {
      hide Coalescing, TotalBytes, ListFile;
      ListSoFar(request, f);
      ok, ts, total := CoalesceFile(ts, total, f, request[f].ranges, ListAll(request[..f]));
      if !ok {
        TotalGrows(ListAll(request[..f + 1]), ListAll(request));
        return;
      }
    }
    assert request[..|request|] == request;
  }

  lemma {:induction false} NextListed(base: seq<Listed>, f: nat, ranges: seq<ReadRange>, i: nat)
    requires i < |ranges|
    ensures |ListFile(f, ranges)| == |ranges|
    ensures base + ListFile(f, ranges)[..i + 1] == base + ListFile(f, ranges)[..i] + [Listed(f, i, ranges[i])]
    ensures TotalBytes(base + ListFile(f, ranges)[..i + 1]) ==
        TotalBytes(base + ListFile(f, ranges)[..i]) + ranges[i].size
  {
    TotalSnoc(base + ListFile(f, ranges)[..i], Listed(f, i, ranges[i]));
  }
}

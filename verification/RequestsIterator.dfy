// The iterator that feeds the streamer one bounded request at a time, and the buffer it packs them into.
module RequestsIterator {
  import opened Seqs
  import opened FileChunksModel
  import opened Packing

  // ---------------------------------------------------------------- one file's cursor

  class FileChunksIterator {
    const file: FileChunks
    var nextIndex: nat

    predicate Valid()
      reads this
    {
      |file.offsets| == |file.sizes| && nextIndex <= |file.sizes|
    }

    // What this file still has to hand out.
    function Left(): FileChunks
      requires Valid()
      reads this
    {
      Drop(file, nextIndex)
    }

    constructor (file: FileChunks)
      requires file.Valid()
      ensures Valid() && this.file == file && nextIndex == 0 && Left() == file
    {
      this.file := file;
      nextIndex := 0;
    }

    predicate IsFinished()
      requires Valid()
      reads this
    {
      nextIndex >= |file.sizes|
    }

    // Hands out the longest run of ranges that fits.
    method NextChunks(size: nat) returns (chunks: FileChunks)
      requires Valid()
      modifies this
      ensures Valid() && chunks.Valid()
      ensures var n := Fit(old(Left()).sizes, size);
              chunks == Take(old(Left()), n) && Left() == Drop(old(Left()), n)
    {
      var start: nat := nextIndex;
      var end := LastFitting(start, size);
      CutOut(file, start, end);
      nextIndex := end;
      chunks := FileChunks(file.id, file.path, file.offsets[start..end], file.sizes[start..end]);
    }

    // The loop of next_chunks.
    method LastFitting(start: nat, size: nat) returns (end: nat)
      requires Valid() && start <= |file.sizes|
      ensures start <= end <= |file.sizes| && end - start == Fit(file.sizes[start..], size)
    {
      hide Fit;
      end := start;
      var remaining: nat := size;
      while end < |file.sizes| && file.sizes[end] <= remaining
        invariant start <= end <= |file.sizes| && remaining <= size
        invariant Fit(file.sizes[start..], size) == (end - start) + Fit(file.sizes[end..], remaining)
      {
        FitStep(file.sizes, end, remaining);
        remaining := remaining - file.sizes[end];
        end := end + 1;
      }
      FitStep(file.sizes, end, remaining);
    }
  }

  lemma {:induction false} FitStep(sizes: seq<nat>, i: nat, budget: nat)
    requires i <= |sizes|
    ensures i < |sizes| && sizes[i] <= budget ==> Fit(sizes[i..], budget) == 1 + Fit(sizes[i + 1..], budget - sizes[i])
    ensures i == |sizes| || sizes[i] > budget ==> Fit(sizes[i..], budget) == 0
  {
    hide Sum;
    if i < |sizes| {
      assert sizes[i..][0] == sizes[i] && sizes[i..][1..] == sizes[i + 1..];
    }
  }

  lemma CutOut(f: FileChunks, start: nat, end: nat)
    requires f.Valid() && start <= end <= |f.sizes|
    ensures Take(Drop(f, start), end - start) == FileChunks(f.id, f.path, f.offsets[start..end], f.sizes[start..end])
    ensures Drop(Drop(f, start), end - start) == Drop(f, end)
  {
    assert f.offsets[start..][..end - start] == f.offsets[start..end]
      && f.sizes[start..][..end - start] == f.sizes[start..end];
    assert f.offsets[start..][end - start..] == f.offsets[end..] && f.sizes[start..][end - start..] == f.sizes[end..];
  }

  // ---------------------------------------------------------------- one request

  // One submission: its files, where each file's ranges start in the flat list, and a destination per range.
  datatype FilesRequest = FilesRequest(files: seq<FileChunks>, fileBase: seq<nat>, numRanges: nat)

  function RangeCount(fs: seq<FileChunks>): nat
  {
    if fs == [] then 0 else RangeCount(fs[..|fs|-1]) + |fs[|fs|-1].sizes|
  }

  ghost predicate RequestOk(r: FilesRequest)
  {
    && |r.fileBase| == |r.files| && r.numRanges == RangeCount(r.files)
    && forall i :: 0 <= i < |r.files| ==> r.fileBase[i] == RangeCount(r.files[..i])
  }

  function AppendFile(r: FilesRequest, f: FileChunks): FilesRequest
  {
    r.(files := r.files + [f], fileBase := r.fileBase + [r.numRanges], numRanges := r.numRanges + |f.sizes|)
  }

  lemma AppendOk(r: FilesRequest, f: FileChunks)
    requires RequestOk(r)
    ensures RequestOk(AppendFile(r, f))
  {
    var s := AppendFile(r, f);
    assert forall i :: 0 <= i <= |r.files| ==> s.files[..i] == r.files[..i];
    assert r.files[..|r.files|] == r.files;
  }

  // ---------------------------------------------------------------- the queue of files

  datatype Active = NoRequest | Request(r: FilesRequest)

  function FilesOf(a: Active): seq<FileChunks> { if a.Request? then a.r.files else [] }

  // The books of the iterator: `before` is everything finished requests handed out, `files` is the active
  // request's, `left` is what is still queued.
  ghost predicate BooksOk(original: seq<FileChunks>, before: seq<FileChunks>, files: seq<FileChunks>,
                          left: seq<FileChunks>)
  {
    && AllValid(original) && AllValid(before) && AllValid(files) && AllValid(left)
    && DistinctIds(original) && DistinctIds(files) && DistinctIds(left)
    && (forall id :: Conserved(original, before + files, left, id))
    && (forall id :: HasId(files, id) || HasId(left, id) ==> HasId(original, id))
  }

  ghost predicate Conserved(original: seq<FileChunks>, log: seq<FileChunks>, left: seq<FileChunks>, id: nat)
  {
    AllValid(original) && AllValid(log) && AllValid(left)
      && Collected(log, id) + Collected(left, id) == Collected(original, id)
  }

  // Everything has been handed out.
  ghost predicate Complete(files: seq<FileChunks>, log: seq<FileChunks>)
  {
    forall id :: Conserved(files, log, [], id)
  }

  // For every file, how many of its ranges came before the active request.
  ghost predicate IndexOk(index: map<nat, nat>, original: seq<FileChunks>, before: seq<FileChunks>)
  {
    AllValid(before) && forall id :: HasId(original, id) ==> id in index && index[id] == |Collected(before, id)|
  }

  lemma StartBooks(original: seq<FileChunks>)
    requires AllValid(original) && DistinctIds(original)
    ensures BooksOk(original, [], [], original)
  {
    forall id ensures Conserved(original, [] + [], original, id) {
      assert Collected([] + [], id) == [];
    }
  }

  lemma {:induction false} NextConserved(original: seq<FileChunks>, log: seq<FileChunks>, left: seq<FileChunks>,
                                         budget: nat, id: nat)
    requires Conserved(original, log, left, id)
    ensures var next := Pack(left, budget);
            AllValid(next.0) && AllValid(next.1) && AllValid(log) && Conserved(original, log + next.0, next.1, id)
  {
    hide Pack, Collected;
    var next := Pack(left, budget);
    PackValid(left, budget);
    PackConserves(left, budget, id);
    CollectedAppend(log, next.0, id);
    Regroup(Collected(log, id), Collected(next.0, id), Collected(next.1, id));
  }

  // Closing the active request and packing the next one.
  lemma {:induction false} NextBooks(original: seq<FileChunks>, before: seq<FileChunks>, files: seq<FileChunks>,
                                     left: seq<FileChunks>,
                                     budget: nat)
    requires BooksOk(original, before, files, left)
    ensures var next := Pack(left, budget); BooksOk(original, before + files, next.0, next.1)
  {
    hide Pack, Collected, HasId, DistinctIds, Conserved;
    PackValid(left, budget);
    PackIds(left, budget);
    var next := Pack(left, budget);
    forall id ensures Conserved(original, before + files + next.0, next.1, id) {
      assert Conserved(original, before + files, left, id);
      NextConserved(original, before + files, left, budget, id);
    }
    assert AllValid(before + files);
    forall id | HasId(next.0, id) || HasId(next.1, id) ensures HasId(original, id) {
      assert HasId(left, id);
    }
  }

  class FilesRequestsIterator {
    const memoryLimit: nat
    var q: seq<FileChunksIterator>
    var index: map<nat, nat>
    var active: Active
    ghost const original: seq<FileChunks>
    ghost var before: seq<FileChunks>
    ghost var left: seq<FileChunks>

    // The queue's cursors, and the list of what they have left.
    static ghost predicate Views(its: seq<FileChunksIterator>, fs: seq<FileChunks>)
      reads its
    {
      && |its| == |fs|
      && (forall i :: 0 <= i < |its| ==> its[i].Valid() && its[i].Left() == fs[i])
      && (forall i, j :: 0 <= i < j < |its| ==> its[i] != its[j])
    }

    ghost predicate Valid()
      reads this, q
    {
      && Views(q, left)
      && BooksOk(original, before, FilesOf(active), left)
      && IndexOk(index, original, before)
      && (active.Request? ==> RequestOk(active.r))
      && (AllFit(original, memoryLimit) ==> AllFit(left, memoryLimit))
    }

    constructor (memoryLimit: nat, files: seq<FileChunks>)
      requires AllValid(files) && DistinctIds(files)
      ensures Valid() && this.memoryLimit == memoryLimit && original == files && left == files && active == NoRequest
      ensures fresh(q) && before == []
    {
      this.memoryLimit := memoryLimit;
      original, before, left, active := files, [], files, NoRequest;
      var its := MakeCursors(files);
      var start := ZeroIndex(files);
      q := its;
      index := start;
      StartBooks(files);
      assert forall id :: |Collected([], id)| == 0;
      hide BooksOk, FilesRequestsIterator.Views, HasId, Collected;
    }

    static lemma NoViews()
      ensures Views([], [])
    {
    }

    static lemma ViewsSnoc(its: seq<FileChunksIterator>, it: FileChunksIterator, fs: seq<FileChunks>)
      requires Views(its, fs) && it !in its && it.Valid()
      ensures Views(its + [it], fs + [it.Left()])
    {
    }

    static method MakeCursors(files: seq<FileChunks>) returns (its: seq<FileChunksIterator>)
      requires AllValid(files)
      ensures fresh(its) && Views(its, files)
    {
      hide Views, FileChunksIterator.Left;
      its := [];
      NoViews();
      for i := 0 to |files|
        invariant fresh(its)
        invariant Views(its, files[..i])
      {
        var it := new FileChunksIterator(files[i]);
        ViewsSnoc(its, it, files[..i]);
        assert files[..i + 1] == files[..i] + [files[i]];
        its := its + [it];
      }
      assert files[..|files|] == files;
    }

    static method ZeroIndex(files: seq<FileChunks>) returns (start: map<nat, nat>)
      ensures forall id :: id in start <==> HasId(files, id)
      ensures forall id :: id in start ==> start[id] == 0
    {
      start := map[];
      for i := 0 to |files|
        invariant forall id :: id in start <==> HasId(files[..i], id)
        invariant forall id :: id in start ==> start[id] == 0
      {
        HasIdSnoc(files, i);
        start := start[files[i].id := 0];
      }
      assert files[..|files|] == files;
    }

    // Moves the global index of every file of the closing request past its ranges.
    method CloseActive()
      requires Valid()
      modifies this`index, this`active, this`before
      ensures before == old(before) + FilesOf(old(active)) && active == NoRequest
      ensures IndexOk(index, original, before)
    {
      if active.Request? {
        var files := active.r.files;
        ghost var start := before;
        assert start + files[..0] == start;
        for k := 0 to |files|
          invariant IndexOk(index, original, start + files[..k])
          invariant AllValid(files) && before == old(before) && active == old(active)
        {
          var f := files[k];
          assert HasId(files, f.id);
          IndexStep(index, original, start, files, k);
          index := index[f.id := index[f.id] + |f.sizes|];
        }
        assert files[..|files|] == files;
        before := before + files;
        active := NoRequest;
      } else {
        assert before + [] == before;
      }
    }

    // One call on the file at the front; a finished file leaves the queue.
    method NextFromFront(budget: nat) returns (chunks: FileChunks, finished: bool)
      requires Views(q, left) && q != [] && AllValid(left)
      modifies this`q, this`left, q[0]
      ensures Views(q, left) && AllValid(left) && chunks.Valid()
      ensures old(left) != []
      ensures var f := old(left)[0]; var n := Fit(f.sizes, budget);
              && chunks == Take(f, n) && finished == (n == |f.sizes|)
              && left == (if finished then [] else [Drop(f, n)]) + old(left)[1..]
              && q == if finished then old(q)[1..] else old(q)
    {
      hide Fit, Take;
      var it := q[0];
      ghost var f := left[0];
      chunks := it.NextChunks(budget);
      finished := it.IsFinished();
      if finished {
        q := q[1..];
        left := left[1..];
      } else {
        left := [it.Left()] + left[1..];
      }
    }

    // One turn of the packing loop. `done` says that the front file's next range does not fit any more.
    method CollectOne(request: FilesRequest, used: nat, ghost start: seq<FileChunks>)
      returns (more: FilesRequest, total: nat, done: bool)
      requires Views(q, left) && q != [] && RequestOk(request)
      requires Collecting(start, memoryLimit, request.files, left, used, false)
      modifies this`q, this`left, q[0]
      ensures Views(q, left) && RequestOk(more)
      ensures Collecting(start, memoryLimit, more.files, left, total, done)
      ensures q == old(q) || q == old(q)[1..]
      ensures done ==> left == old(left)
      ensures q == old(q) && !done ==> left != [] && old(left) != [] && |left[0].sizes| < |old(left)[0].sizes|
    {
      hide RequestOk, Collecting, Fit, Take;
      ghost var lefts := left;
      CollectFacts(start, memoryLimit, request.files, left, used);
      var chunks, finished := NextFromFront(memoryLimit - used);
      CollectStep(start, memoryLimit, request.files, lefts, used, chunks, left, finished);
      more, total, done := request, used, false;
      if |chunks.sizes| == 0 {
        done := !finished;
      } else {
        AppendOk(request, chunks);
        more := AppendFile(request, chunks);
        total := used + chunks.TotalSize();
      }
    }

    static lemma AsMany(its: seq<FileChunksIterator>, fs: seq<FileChunks>)
      requires Views(its, fs)
      ensures |its| == |fs|
    {
    }

    // The packing loop: what it collects is the specification's request.
    method Collect() returns (request: FilesRequest)
      requires Views(q, left) && AllValid(left)
      modifies this`q, this`left, q
      ensures Views(q, left) && RequestOk(request) && forall i :: 0 <= i < |q| ==> q[i] in old(q)
      ensures (request.files, left) == Pack(old(left), memoryLimit)
    {
      request := FilesRequest([], [], 0);
      assert RequestOk(request);
      hide Views, RequestOk, Collecting;
      var used: nat, done := 0, false;
      ghost var start, k := left, 0;
      CollectStart(left, memoryLimit);
      assert old(q)[0..] == q;
      while q != [] && !done
        invariant Views(q, left) && RequestOk(request)
        invariant k <= |old(q)| && q == old(q)[k..]
        invariant Collecting(start, memoryLimit, request.files, left, used, done)
        decreases |q|, if left == [] then 0 else |left[0].sizes|, !done
      {
        ghost var size := |q|;
        request, used, done := CollectOne(request, used, start);
        k := if |q| < size then k + 1 else k;
      }
      AsMany(q, left);
      CollectEnd(start, memoryLimit, request.files, left, used, done);
    }

    // The next request, or nothing when no range is left to hand out.
    method NextRequest() returns (result: Active)
      requires Valid()
      modifies this, q
      ensures Valid() && forall i :: 0 <= i < |q| ==> q[i] in old(q)
      ensures old(q) == [] ==>
          result == NoRequest && active == old(active) && left == old(left) && before == old(before)
      ensures old(q) != [] ==>
                && result == active && before == old(before) + FilesOf(old(active))
                && (FilesOf(active), left) == Pack(old(left), memoryLimit)
                && Bytes(FilesOf(active)) <= memoryLimit
                && (result.Request? <==> FilesOf(active) != [])
      ensures result == NoRequest && AllFit(original, memoryLimit) ==>
                Complete(original, before + FilesOf(active))
    {
      hide Conserved, Collected, RequestOk, IndexOk, Pack;
      if q == [] {
        assert left == [] && AllFit([], memoryLimit);
        return NoRequest;
      }
      ghost var files, lefts := FilesOf(active), left;
      NextBooks(original, before, files, left, memoryLimit);
      PackFits(left, memoryLimit);
      if AllFit(left, memoryLimit) {
        PackSizes(left, memoryLimit, memoryLimit);
      }
      CloseActive();
      var request := Collect();
      if |request.files| == 0 {
        active := NoRequest;
        if AllFit(original, memoryLimit) {
          PackProgress(lefts, memoryLimit);
          NothingLeft(original, before, lefts);
          assert before + [] == before;
        }
      } else {
        active := Request(request);
      }
      result := active;
    }

    lemma BooksFacts()
      requires Valid()
      ensures DistinctIds(FilesOf(active)) && AllValid(left)
    {
    }

    // A response of the active request, as the caller of the whole list knows it.
    method GetGlobalFileAndChunk(localFile: nat, localRange: nat) returns (id: nat, globalRange: nat)
      requires Valid() && active.Request? && localFile < |active.r.files|
          && localRange < |active.r.files[localFile].sizes|
      ensures exists o :: 0 <= o < |original|
                          && SameRange(original[o], id, globalRange, active.r.files[localFile], localRange)
      ensures globalRange == |Collected(before, id)| + localRange
    {
      id := active.r.files[localFile].id;
      IndexExact(original, before, active.r.files, left, index, localFile, localRange);
      assert HasId(active.r.files, id);
      globalRange := index[id] + localRange;
    }
  }

  // Range `globalRange` of the original file is range `localRange` of the slice.
  ghost predicate SameRange(original: FileChunks, id: nat, globalRange: nat, slice: FileChunks, localRange: nat)
  {
    && original.id == id == slice.id && original.Valid() && slice.Valid()
    && globalRange < |original.sizes| && localRange < |slice.sizes|
    && original.sizes[globalRange] == slice.sizes[localRange]
    && original.offsets[globalRange] == slice.offsets[localRange]
  }

  lemma {:induction false} IndexExact(original: seq<FileChunks>, before: seq<FileChunks>, files: seq<FileChunks>,
                                      left: seq<FileChunks>,
                                      index: map<nat, nat>, f: nat, i: nat)
    requires BooksOk(original, before, files, left) && IndexOk(index, original, before)
    requires f < |files| && i < |files[f].sizes|
    ensures HasId(original, files[f].id) && files[f].id in index
        && index[files[f].id] == |Collected(before, files[f].id)|
    ensures exists o :: 0 <= o < |original|
                        && SameRange(original[o], files[f].id, |Collected(before, files[f].id)| + i, files[f], i)
  {
    hide BooksOk, Collected, HasId, RangesOf, SameRange;
    BooksValid(original, before, files, left);
    var id := files[f].id;
    var o := Whole(original, before, files, left, f);
    Middle(original[o], files[f], Collected(before, id), Collected(left, id), i);
  }

  lemma BooksValid(original: seq<FileChunks>, before: seq<FileChunks>, files: seq<FileChunks>, left: seq<FileChunks>)
    requires BooksOk(original, before, files, left)
    ensures AllValid(original) && AllValid(before) && AllValid(files) && AllValid(left)
  {
  }

  lemma Whole(original: seq<FileChunks>, before: seq<FileChunks>, files: seq<FileChunks>, left: seq<FileChunks>,
              f: nat) returns (o: nat)
    requires BooksOk(original, before, files, left) && f < |files|
    ensures o < |original| && original[o].id == files[f].id && HasId(original, files[f].id)
    ensures original[o].Valid() && files[f].Valid()
    ensures RangesOf(original[o]) == Collected(before, files[f].id) + RangesOf(files[f]) + Collected(left, files[f].id)
  {
    hide Collected, RangesOf;
    var id := files[f].id;
    assert HasId(files, id);
    o :| 0 <= o < |original| && original[o].id == id;
    CollectedIs(original, o);
    CollectedIs(files, f);
    CollectedAppend(before, files, id);
    assert Conserved(original, before + files, left, id);
  }

  lemma Middle(whole: FileChunks, slice: FileChunks, a: seq<Range>, c: seq<Range>, i: nat)
    requires whole.Valid() && slice.Valid() && whole.id == slice.id && i < |slice.sizes|
    requires RangesOf(whole) == a + RangesOf(slice) + c
    ensures SameRange(whole, slice.id, |a| + i, slice, i)
  {
    assert |RangesOf(whole)| == |whole.sizes| && |RangesOf(slice)| == |slice.sizes|;
    assert RangesOf(whole)[|a| + i] == RangesOf(slice)[i];
  }

  // ---------------------------------------------------------------- the whole stream

  lemma {:induction false} CountFront(f: FileChunks, fs: seq<FileChunks>)
    ensures RangeCount([f] + fs) == |f.sizes| + RangeCount(fs)
  {
    if fs == [] {
      assert [f] + fs == [f] && [f][..0] == [];
    } else {
      assert ([f] + fs)[..|fs|] == [f] + fs[..|fs|-1];
      CountFront(f, fs[..|fs|-1]);
    }
  }

  lemma {:induction false} PackCounts(left: seq<FileChunks>, budget: nat)
    requires AllValid(left)
    ensures RangeCount(Pack(left, budget).0) + RangeCount(Pack(left, budget).1) == RangeCount(left)
    decreases |left|
  {
    hide Fit, Sum;
    if left != [] {
      var f, tail := left[0], left[1..];
      var n := Fit(f.sizes, budget);
      assert left == [f] + tail;
      CountFront(f, tail);
      if n < |f.sizes| {
        CountFront(Drop(f, n), tail);
        CountFront(Take(f, n), []);
        assert [Take(f, n)] + [] == [Take(f, n)];
      } else {
        assert f.sizes[..n] == f.sizes;
        var more := budget - if n == 0 then 0 else Sum(f.sizes);
        PackCounts(tail, more);
        CountFront(f, Pack(tail, more).0);
      }
    }
  }

  lemma {:induction false} CountPositive(fs: seq<FileChunks>)
    requires fs != [] && fs[|fs|-1].sizes != []
    ensures RangeCount(fs) > 0
  {
  }

  ghost predicate EachFits(requests: seq<FilesRequest>, limit: nat)
  {
    forall i :: 0 <= i < |requests| ==>
      Bytes(requests[i].files) <= limit && DistinctIds(requests[i].files) && requests[i].files != []
  }

  // Submitting one request after the other until none comes back delivers every range of every file once,
  // each file's in order, in requests that fit the buffer.
  method Stream(files: seq<FileChunks>, memoryLimit: nat)
    returns (requests: seq<FilesRequest>, ghost log: seq<FileChunks>)
    requires AllValid(files) && DistinctIds(files) && AllFit(files, memoryLimit)
    ensures EachFits(requests, memoryLimit)
    ensures log == AllFiles(requests) && Complete(files, log)
  {
    hide BooksOk, Conserved, Pack, Collected, RequestOk, IndexOk, AllFit, AllFiles, Bytes, EachFits,
      FilesRequestsIterator.Views, FilesRequestsIterator.Valid, DistinctIds,
         AllValid, Complete;
    var it := new FilesRequestsIterator(memoryLimit, files);
    requests, log := [], [];
    NoneYet(memoryLimit);
    ghost var cursors := it.q;
    var active := it.NextRequest();
    assert forall i :: 0 <= i < |it.q| ==> it.q[i] in cursors;
    assert active == NoRequest ==> it.before + FilesOf(it.active) == log;
    while active.Request?
      invariant it.Valid() && fresh(it) && fresh(it.q) && it.original == files && it.memoryLimit == memoryLimit
      invariant active.Request? ==> active == it.active && Bytes(active.r.files) <= memoryLimit && active.r.files != []
      invariant active.Request? ==> log == it.before
      invariant active == NoRequest ==> Complete(files, log)
      invariant log == AllFiles(requests) && EachFits(requests, memoryLimit)
      decreases RangeCount(it.left), active.Request?
    {
      hide RangeCount;
      it.BooksFacts();
      AllFilesSnoc(requests, active.r);
      EachFitsSnoc(requests, active.r, memoryLimit);
      requests := requests + [active.r];
      log := log + active.r.files;
      PackCounts(it.left, memoryLimit);
      PackFits(it.left, memoryLimit);
      cursors := it.q;
      active := it.NextRequest();
      assert forall i :: 0 <= i < |it.q| ==> it.q[i] in cursors;
      if active.Request? {
        CountPositive(active.r.files);
      } else {
        assert it.before + FilesOf(it.active) == log;
      }
    }
  }

  lemma NoneYet(limit: nat)
    ensures AllFiles([]) == [] && EachFits([], limit)
  {
  }

  lemma EachFitsSnoc(requests: seq<FilesRequest>, r: FilesRequest, limit: nat)
    requires EachFits(requests, limit) && Bytes(r.files) <= limit && DistinctIds(r.files) && r.files != []
    ensures EachFits(requests + [r], limit)
  {
  }

  lemma {:induction false} AllFilesSnoc(requests: seq<FilesRequest>, r: FilesRequest)
    ensures AllFiles(requests + [r]) == AllFiles(requests) + r.files
  {
    assert (requests + [r])[..|requests|] == requests;
  }

  function AllFiles(requests: seq<FilesRequest>): seq<FileChunks>
  {
    if requests == [] then [] else AllFiles(requests[..|requests|-1]) + requests[|requests|-1].files
  }

  // The state of the packing loop, against the specification of the whole request.
  ghost predicate Collecting(start: seq<FileChunks>, limit: nat, files: seq<FileChunks>, left: seq<FileChunks>,
                             used: nat, done: bool)
  {
    && AllValid(start) && AllValid(left) && used <= limit
    && if done then (files, left) == Pack(start, limit)
       else (files + Pack(left, limit - used).0, Pack(left, limit - used).1) == Pack(start, limit)
  }

  lemma CollectStart(left: seq<FileChunks>, limit: nat)
    requires AllValid(left)
    ensures Collecting(left, limit, [], left, 0, false)
  {
    assert [] + Pack(left, limit).0 == Pack(left, limit).0;
  }

  lemma CollectFacts(start: seq<FileChunks>, limit: nat, files: seq<FileChunks>, left: seq<FileChunks>, used: nat)
    requires Collecting(start, limit, files, left, used, false)
    ensures AllValid(left) && used <= limit
  {
  }

  lemma {:induction false} CollectStep(start: seq<FileChunks>, limit: nat, files: seq<FileChunks>,
                                       left: seq<FileChunks>, used: nat,
                                       chunks: FileChunks, rest: seq<FileChunks>, finished: bool)
    requires Collecting(start, limit, files, left, used, false) && left != []
    requires var f := left[0]; var n := Fit(f.sizes, limit - used);
             && chunks == Take(f, n) && finished == (n == |f.sizes|)
             && rest == (if finished then [] else [Drop(f, n)]) + left[1..]
    ensures |chunks.sizes| == 0 && finished ==> Collecting(start, limit, files, rest, used, false)
    ensures |chunks.sizes| == 0 && !finished ==> rest == left && Collecting(start, limit, files, rest, used, true)
    ensures |chunks.sizes| > 0 ==> Collecting(start, limit, files + [chunks], rest, used + chunks.TotalSize(), false)
    ensures !finished && |chunks.sizes| > 0 ==> |rest[0].sizes| < |left[0].sizes|
  {
    hide Pack, Fit;
    PackStep(left, limit - used);
    assert files + [] == files;
    if |chunks.sizes| == 0 && !finished {
      assert Drop(left[0], 0) == left[0];
    }
    if |chunks.sizes| > 0 {
      var next := Pack(rest, limit - used - chunks.TotalSize()).0;
      assert files + ([chunks] + next) == files + [chunks] + next;
    }
  }

  lemma {:induction false} CollectEnd(start: seq<FileChunks>, limit: nat, files: seq<FileChunks>,
                                      left: seq<FileChunks>, used: nat,
                                      done: bool)
    requires Collecting(start, limit, files, left, used, done) && (done || left == [])
    ensures (files, left) == Pack(start, limit)
  {
    assert files + [] == files;
  }

  // Files without ranges hold nothing: the log alone is everything.
  lemma NothingLeft(original: seq<FileChunks>, log: seq<FileChunks>, left: seq<FileChunks>)
    requires forall id :: Conserved(original, log, left, id)
    requires forall i :: 0 <= i < |left| ==> left[i].sizes == []
    ensures forall id :: Conserved(original, log, [], id)
  {
    forall id ensures Conserved(original, log, [], id) {
      assert Conserved(original, log, left, id);
      EmptyCollected(left, id);
    }
  }

  lemma {:induction false} EmptyCollected(left: seq<FileChunks>, id: nat)
    requires AllValid(left) && forall i :: 0 <= i < |left| ==> left[i].sizes == []
    ensures Collected(left, id) == []
  {
    if left != [] {
      EmptyCollected(left[..|left|-1], id);
    }
  }

  lemma HasIdSnoc(files: seq<FileChunks>, i: nat)
    requires i < |files|
    ensures forall id :: HasId(files[..i + 1], id) <==> HasId(files[..i], id) || id == files[i].id
  {
    forall id ensures HasId(files[..i + 1], id) <==> HasId(files[..i], id) || id == files[i].id {
      assert files[..i + 1][i] == files[i];
      if HasId(files[..i], id) {
        var j :| 0 <= j < i && files[..i][j].id == id;
        assert files[..i + 1][j].id == id;
      }
      if HasId(files[..i + 1], id) && id != files[i].id {
        var j :| 0 <= j < i + 1 && files[..i + 1][j].id == id;
        assert files[..i][j].id == id;
      }
    }
  }

  lemma IndexStep(index: map<nat, nat>, original: seq<FileChunks>, start: seq<FileChunks>, files: seq<FileChunks>,
                  k: nat)
    requires k < |files| && AllValid(files) && HasId(original, files[k].id)
    requires IndexOk(index, original, start + files[..k])
    ensures IndexOk(index[files[k].id := index[files[k].id] + |files[k].sizes|], original, start + files[..k + 1])
  {
    var log, more := start + files[..k], start + files[..k + 1];
    assert more == log + [files[k]];
    assert AllValid(more);
    forall id | HasId(original, id)
      ensures |Collected(more, id)| == |Collected(log, id)| + if id == files[k].id then |files[k].sizes| else 0
    {
      CollectedAppend(log, [files[k]], id);
      CollectedOne(files[k], id);
    }
  }
}

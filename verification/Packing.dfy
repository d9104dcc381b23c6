// Cutting a list of files into requests that fit a bounded buffer.
module Packing {
  import opened Seqs
  import opened FileChunksModel

  datatype Range = Range(offset: nat, size: nat)

  function RangesOf(f: FileChunks): seq<Range>
    requires f.Valid()
  {
    seq(|f.sizes|, i requires 0 <= i < |f.sizes| => Range(f.offsets[i], f.sizes[i]))
  }

  // The ranges that a list of file slices holds of file `id`, in order.
  function Collected(fs: seq<FileChunks>, id: nat): seq<Range>
    requires AllValid(fs)
  {
    if fs == [] then []
    else Collected(fs[..|fs|-1], id) + if fs[|fs|-1].id == id then RangesOf(fs[|fs|-1]) else []
  }

  lemma {:induction false} CollectedSnoc(fs: seq<FileChunks>, f: FileChunks, id: nat)
    requires AllValid(fs) && f.Valid()
    ensures AllValid(fs + [f]) && Collected(fs + [f], id) == Collected(fs, id) + if f.id == id then RangesOf(f) else []
  {
    assert (fs + [f])[..|fs|] == fs;
  }

  lemma {:induction false} CollectedAppend(a: seq<FileChunks>, b: seq<FileChunks>, id: nat)
    requires AllValid(a) && AllValid(b)
    ensures AllValid(a + b) && Collected(a + b, id) == Collected(a, id) + Collected(b, id)
  {
    assert AllValid(a + b);
    if b == [] {
      assert a + b == a;
    } else {
      var front, last := b[..|b|-1], b[|b|-1];
      assert b == front + [last] && a + b == (a + front) + [last];
      hide Collected, RangesOf;
      CollectedAppend(a, front, id);
      CollectedSnoc(a + front, last, id);
      CollectedSnoc(front, last, id);
    }
  }

  lemma {:induction false} CollectedOne(f: FileChunks, id: nat)
    requires f.Valid()
    ensures Collected([f], id) == if f.id == id then RangesOf(f) else []
  {
    assert [f][..0] == [];
  }

  ghost predicate DistinctIds(fs: seq<FileChunks>)
  {
    forall i, j :: 0 <= i < j < |fs| ==> fs[i].id != fs[j].id
  }

  lemma {:induction false} CollectedNone(fs: seq<FileChunks>, id: nat)
    requires AllValid(fs) && forall i :: 0 <= i < |fs| ==> fs[i].id != id
    ensures Collected(fs, id) == []
  {
    if fs != [] {
      CollectedNone(fs[..|fs|-1], id);
    }
  }

  lemma {:induction false} CollectedIs(fs: seq<FileChunks>, i: nat)
    requires AllValid(fs) && DistinctIds(fs) && i < |fs|
    ensures Collected(fs, fs[i].id) == RangesOf(fs[i])
  {
    var front := fs[..|fs|-1];
    if i == |fs| - 1 {
      CollectedNone(front, fs[i].id);
    } else {
      CollectedIs(front, i);
      assert fs[i].id != fs[|fs|-1].id;
    }
  }

  // ---------------------------------------------------------------- the first ranges of a file that fit

  function Fit(sizes: seq<nat>, budget: nat): (n: nat)
    ensures n <= |sizes| && Sum(sizes[..n]) <= budget
    ensures n < |sizes| ==> sizes[n] > budget - Sum(sizes[..n])
  {
    if sizes == [] || sizes[0] > budget then 0
    else
      var n := 1 + Fit(sizes[1..], budget - sizes[0]);
      SumFront(sizes[..n]);
      assert sizes[..n][1..] == sizes[1..][..n - 1];
      n
  }

  lemma {:induction false} SumFront(s: seq<nat>)
    requires s != []
    ensures Sum(s) == s[0] + Sum(s[1..])
  {
    assert s == [s[0]] + s[1..];
    SumAppend([s[0]], s[1..]);
    assert [s[0]][..0] == [];
  }

  function Take(f: FileChunks, n: nat): FileChunks
    requires f.Valid() && n <= |f.sizes|
  {
    f.(offsets := f.offsets[..n], sizes := f.sizes[..n])
  }

  function Drop(f: FileChunks, n: nat): FileChunks
    requires f.Valid() && n <= |f.sizes|
  {
    f.(offsets := f.offsets[n..], sizes := f.sizes[n..])
  }

  lemma TakeDrop(f: FileChunks, n: nat)
    requires f.Valid() && n <= |f.sizes|
    ensures RangesOf(Take(f, n)) + RangesOf(Drop(f, n)) == RangesOf(f)
  {
  }

  // The next request and what it leaves: whole files while they fit, then a prefix of one more.
  function Pack(left: seq<FileChunks>, budget: nat): (seq<FileChunks>, seq<FileChunks>)
    requires AllValid(left)
    decreases |left|
  {
    if left == [] then ([], [])
    else
      var f := left[0];
      var n := Fit(f.sizes, budget);
      if n < |f.sizes| then
        if n == 0 then ([], left) else ([Take(f, n)], [Drop(f, n)] + left[1..])
      else if n == 0 then Pack(left[1..], budget)
      else
        var rest := Pack(left[1..], budget - Sum(f.sizes[..n]));
        ([f] + rest.0, rest.1)
  }

  function Bytes(fs: seq<FileChunks>): nat
  {
    if fs == [] then 0 else Bytes(fs[..|fs|-1]) + fs[|fs|-1].TotalSize()
  }

  lemma {:induction false} BytesFront(f: FileChunks, fs: seq<FileChunks>)
    ensures Bytes([f] + fs) == f.TotalSize() + Bytes(fs)
  {
    if fs == [] {
      assert [f] + fs == [f];
      assert [f][..0] == [];
    } else {
      assert ([f] + fs)[..|fs|] == [f] + fs[..|fs|-1];
      BytesFront(f, fs[..|fs|-1]);
    }
  }

  lemma {:induction false} PackValid(left: seq<FileChunks>, budget: nat)
    requires AllValid(left)
    ensures AllValid(Pack(left, budget).0) && AllValid(Pack(left, budget).1) && |Pack(left, budget).1| <= |left|
    decreases |left|
  {
    hide Fit, Sum;
    if left != [] {
      var f, tail := left[0], left[1..];
      var n := Fit(f.sizes, budget);
      if n < |f.sizes| {
        assert Take(f, n).Valid() && Drop(f, n).Valid();
      } else {
        assert f.sizes[..n] == f.sizes;
        PackValid(tail, budget - if n == 0 then 0 else Sum(f.sizes));
      }
    }
  }

  // A request fits the budget, and none of its slices is empty.
  lemma {:induction false} PackFits(left: seq<FileChunks>, budget: nat)
    requires AllValid(left)
    ensures Bytes(Pack(left, budget).0) <= budget
    ensures forall i :: 0 <= i < |Pack(left, budget).0| ==> Pack(left, budget).0[i].sizes != []
    decreases |left|
  {
    hide Fit, Sum;
    if left != [] {
      var f, tail := left[0], left[1..];
      var n := Fit(f.sizes, budget);
      if n < |f.sizes| {
        if n > 0 {
          assert Bytes([]) == 0;
          BytesFront(Take(f, n), []);
          assert [Take(f, n)] + [] == [Take(f, n)];
        }
      } else {
        assert f.sizes[..n] == f.sizes;
        PackFits(tail, budget - if n == 0 then 0 else Sum(f.sizes));
        hide Bytes;
        BytesFront(f, Pack(tail, budget - if n == 0 then 0 else Sum(f.sizes)).0);
      }
    }
  }

  datatype Named = Named(id: nat, range: Range)

  function NamesOf(f: FileChunks): seq<Named>
    requires f.Valid()
  {
    seq(|f.sizes|, i requires 0 <= i < |f.sizes| => Named(f.id, Range(f.offsets[i], f.sizes[i])))
  }

  // Every range of the list with its file, from the first file's first on.
  function Listing(fs: seq<FileChunks>): seq<Named>
    requires AllValid(fs)
  {
    if fs == [] then [] else NamesOf(fs[0]) + Listing(fs[1..])
  }

  lemma {:induction false} ListingFront(f: FileChunks, tail: seq<FileChunks>)
    requires f.Valid() && AllValid(tail)
    ensures AllValid([f] + tail) && Listing([f] + tail) == NamesOf(f) + Listing(tail)
  {
    assert ([f] + tail)[1..] == tail;
  }

  lemma NamesSplit(f: FileChunks, n: nat)
    requires f.Valid() && n < |f.sizes|
    ensures NamesOf(Take(f, n)) + NamesOf(Drop(f, n)) == NamesOf(f)
    ensures NamesOf(Drop(f, n)) != [] && NamesOf(Drop(f, n))[0].range.size == f.sizes[n]
  {
  }

  // `request` takes ranges in the order they are listed, and stops only at the first that does not fit.
  ghost predicate Filled(left: seq<FileChunks>, budget: nat, request: seq<FileChunks>, rest: seq<FileChunks>)
    requires AllValid(left)
  {
    && AllValid(request) && AllValid(rest) && Listing(request) + Listing(rest) == Listing(left)
    && (Listing(rest) != [] ==> Bytes(request) + Listing(rest)[0].range.size > budget)
  }

  lemma {:induction false} PackInOrder(left: seq<FileChunks>, budget: nat)
    requires AllValid(left)
    ensures Filled(left, budget, Pack(left, budget).0, Pack(left, budget).1)
    decreases |left|
  {
    hide Fit, Filled, Sum, Pack;
    if left == [] {
      FilledByNothing(budget);
      return;
    }
    var f, tail := left[0], left[1..];
    assert left == [f] + tail;
    if Fit(f.sizes, budget) < |f.sizes| {
      FilledBySplit(f, tail, budget);
    } else {
      WholeFits(f, budget);
      PackInOrder(tail, budget - Sum(f.sizes));
      FilledByWhole(f, tail, budget);
    }
  }

  lemma {:induction false} FilledByNothing(budget: nat)
    ensures Filled([], budget, Pack([], budget).0, Pack([], budget).1)
  {
  }

  lemma {:induction false} FilledByWhole(f: FileChunks, tail: seq<FileChunks>, budget: nat)
    requires f.Valid() && AllValid(tail) && Fit(f.sizes, budget) == |f.sizes| && Sum(f.sizes) <= budget
    requires var less := Pack(tail, budget - Sum(f.sizes)); Filled(tail, budget - Sum(f.sizes), less.0, less.1)
    ensures Filled([f] + tail, budget, Pack([f] + tail, budget).0, Pack([f] + tail, budget).1)
  {
    hide Fit, Filled, Pack, Sum;
    var less := Pack(tail, budget - Sum(f.sizes));
    PackWhole(f, tail, budget);
    FilledByFile(f, tail, budget, less.0, less.1);
  }

  lemma PackWhole(f: FileChunks, tail: seq<FileChunks>, budget: nat)
    requires f.Valid() && AllValid(tail) && Fit(f.sizes, budget) == |f.sizes| && Sum(f.sizes) <= budget
    ensures var less := Pack(tail, budget - Sum(f.sizes));
            Pack([f] + tail, budget) == if f.sizes == [] then less else ([f] + less.0, less.1)
  {
    hide Fit;
    WholeFits(f, budget);
    assert ([f] + tail)[0] == f && ([f] + tail)[1..] == tail;
  }

  lemma {:induction false} WholeFits(f: FileChunks, budget: nat)
    requires Fit(f.sizes, budget) >= |f.sizes|
    ensures Fit(f.sizes, budget) == |f.sizes| && f.sizes[..|f.sizes|] == f.sizes && Sum(f.sizes) <= budget
    ensures f.sizes == [] ==> Sum(f.sizes) == 0
  {
    assert f.sizes[..|f.sizes|] == f.sizes;
  }

  // The file goes in as a whole, or has no ranges at all.
  lemma FilledByFile(f: FileChunks, tail: seq<FileChunks>, budget: nat, request: seq<FileChunks>,
                     rest: seq<FileChunks>)
    requires f.Valid() && AllValid(tail) && Sum(f.sizes) <= budget
    requires Filled(tail, budget - Sum(f.sizes), request, rest)
    ensures Filled([f] + tail, budget, [f] + request, rest)
    ensures f.sizes == [] ==> Filled([f] + tail, budget, request, rest)
  {
    ListingFront(f, tail);
    ListingFront(f, request);
    BytesFront(f, request);
    hide Listing, Bytes, Sum;
    assert NamesOf(f) + Listing(request) + Listing(rest) == NamesOf(f) + (Listing(request) + Listing(rest));
    if f.sizes == [] {
      NoBytes();
    }
  }

  lemma NoBytes()
    ensures Sum([]) == 0
  {
  }

  lemma {:induction false} FilledBySplit(f: FileChunks, tail: seq<FileChunks>, budget: nat)
    requires f.Valid() && AllValid(tail) && Fit(f.sizes, budget) < |f.sizes|
    ensures Filled([f] + tail, budget, Pack([f] + tail, budget).0, Pack([f] + tail, budget).1)
  {
    var n := Fit(f.sizes, budget);
    assert ([f] + tail)[1..] == tail;
    if n == 0 {
      assert Drop(f, 0) == f;
      FilledByPart(f, tail, budget, 0, [], [f] + tail);
    } else {
      FilledByPart(f, tail, budget, n, [Take(f, n)], [Drop(f, n)] + tail);
    }
  }

  lemma FilledByPart(f: FileChunks, tail: seq<FileChunks>, budget: nat, n: nat, request: seq<FileChunks>,
                     rest: seq<FileChunks>)
    requires f.Valid() && AllValid(tail) && n < |f.sizes| && f.sizes[n] > budget - Sum(f.sizes[..n])
    requires request == if n == 0 then [] else [Take(f, n)]
    requires rest == [Drop(f, n)] + tail
    ensures Filled([f] + tail, budget, request, rest)
  {
    ListingFront(f, tail);
    ListingFront(Drop(f, n), tail);
    NamesSplit(f, n);
    PartBytes(f, n, request);
    hide Listing, Bytes, NamesOf, Sum;
    assert NamesOf(f) + Listing(tail) == NamesOf(Take(f, n)) + (NamesOf(Drop(f, n)) + Listing(tail));
  }

  lemma {:induction false} PartBytes(f: FileChunks, n: nat, request: seq<FileChunks>)
    requires f.Valid() && n < |f.sizes| && request == if n == 0 then [] else [Take(f, n)]
    ensures AllValid(request) && Bytes(request) == Sum(f.sizes[..n]) && Listing(request) == NamesOf(Take(f, n))
  {
    if n == 0 {
      assert f.sizes[..0] == [];
    } else {
      ListingFront(Take(f, n), []);
      BytesFront(Take(f, n), []);
      assert request == [Take(f, n)] + [];
    }
  }

  ghost predicate HasId(fs: seq<FileChunks>, id: nat)
  {
    exists i :: 0 <= i < |fs| && fs[i].id == id
  }

  lemma HasIdFront(f: FileChunks, tail: seq<FileChunks>, id: nat)
    ensures HasId([f] + tail, id) <==> f.id == id || HasId(tail, id)
  {
    if HasId(tail, id) {
      var i :| 0 <= i < |tail| && tail[i].id == id;
      assert ([f] + tail)[i + 1].id == id;
    }
    if f.id == id {
      assert ([f] + tail)[0].id == id;
    }
    if HasId([f] + tail, id) {
      var i :| 0 <= i < |[f] + tail| && ([f] + tail)[i].id == id;
      assert i > 0 ==> tail[i - 1].id == id;
    }
  }

  lemma DistinctFront(f: FileChunks, tail: seq<FileChunks>)
    ensures DistinctIds([f] + tail) <==> !HasId(tail, f.id) && DistinctIds(tail)
  {
    var all := [f] + tail;
    if DistinctIds(all) {
      forall i | 0 <= i < |tail| ensures tail[i].id != f.id {
        assert all[0].id != all[i + 1].id;
      }
      forall i, j | 0 <= i < j < |tail| ensures tail[i].id != tail[j].id {
        assert all[i + 1].id != all[j + 1].id;
      }
    }
    if !HasId(tail, f.id) && DistinctIds(tail) {
      forall i, j | 0 <= i < j < |all| ensures all[i].id != all[j].id {
        assert all[j] == tail[j - 1];
        assert i > 0 ==> all[i] == tail[i - 1];
      }
    }
  }

  // No file appears twice in a request, or in what is left.
  lemma {:induction false} PackIds(left: seq<FileChunks>, budget: nat)
    requires AllValid(left) && DistinctIds(left)
    ensures DistinctIds(Pack(left, budget).0) && DistinctIds(Pack(left, budget).1)
    ensures forall id :: HasId(Pack(left, budget).0, id) || HasId(Pack(left, budget).1, id) ==> HasId(left, id)
    decreases |left|
  {
    hide Fit, Sum;
    if left != [] {
      var f, tail := left[0], left[1..];
      assert left == [f] + tail;
      DistinctFront(f, tail);
      forall id ensures HasId(left, id) <==> f.id == id || HasId(tail, id) {
        HasIdFront(f, tail, id);
      }
      hide HasId, DistinctIds;
      var n := Fit(f.sizes, budget);
      if n < |f.sizes| {
        PackIdsSplit(left, n);
      } else {
        assert f.sizes[..n] == f.sizes;
        var rest := budget - if n == 0 then 0 else Sum(f.sizes);
        PackIds(tail, rest);
        var files := Pack(tail, rest).0;
        DistinctFront(f, files);
        forall id ensures HasId([f] + files, id) <==> f.id == id || HasId(files, id) {
          HasIdFront(f, files, id);
        }
      }
    }
  }

  lemma PackIdsSplit(left: seq<FileChunks>, n: nat)
    requires AllValid(left) && DistinctIds(left) && left != [] && n < |left[0].sizes|
    ensures DistinctIds([Take(left[0], n)]) && DistinctIds([Drop(left[0], n)] + left[1..]) && DistinctIds([])
    ensures forall id :: HasId([Take(left[0], n)], id) || HasId([Drop(left[0], n)] + left[1..], id) || HasId([], id) ==>
              HasId(left, id)
  {
    var rest := [Drop(left[0], n)] + left[1..];
    assert forall i :: 0 <= i < |left| ==> rest[i].id == left[i].id;
    forall id | HasId([Take(left[0], n)], id) || HasId(rest, id) ensures HasId(left, id) {
      if HasId([Take(left[0], n)], id) {
        assert left[0].id == id;
      } else {
        var i :| 0 <= i < |rest| && rest[i].id == id;
        assert left[i].id == id;
      }
    }
  }

  // What is left of an unfinished file cannot add to the same request.
  lemma {:induction false} PackAgain(f: FileChunks, tail: seq<FileChunks>, budget: nat)
    requires f.Valid() && AllValid(tail) && Fit(f.sizes, budget) < |f.sizes|
    ensures var n := Fit(f.sizes, budget);
            AllValid([Drop(f, n)] + tail)
              && Pack([Drop(f, n)] + tail, budget - Sum(f.sizes[..n])) == ([], [Drop(f, n)] + tail)
  {
    var n := Fit(f.sizes, budget);
    var left := [Drop(f, n)] + tail;
    assert left[0].sizes[0] == f.sizes[n] > budget - Sum(f.sizes[..n]);
  }

  // What is left of the front file after one call, and the files behind it.
  function RestAfter(left: seq<FileChunks>, n: nat): seq<FileChunks>
    requires left != [] && left[0].Valid() && n <= |left[0].sizes|
  {
    (if n == |left[0].sizes| then [] else [Drop(left[0], n)]) + left[1..]
  }

  // One turn of the packing loop, on the specification.
  lemma PackStep(left: seq<FileChunks>, budget: nat)
    requires AllValid(left) && left != []
    ensures var n := Fit(left[0].sizes, budget);
            && AllValid(RestAfter(left, n))
            && Take(left[0], n).TotalSize() <= budget
            && (n == 0 && n == |left[0].sizes| ==> Pack(left, budget) == Pack(RestAfter(left, n), budget))
            && (n == 0 && n < |left[0].sizes| ==> Pack(left, budget) == ([], RestAfter(left, n)))
            && (n > 0 ==>
                  var next := Pack(RestAfter(left, n), budget - Take(left[0], n).TotalSize());
                  Pack(left, budget) == ([Take(left[0], n)] + next.0, next.1))
  {
    var f := left[0];
    var n := Fit(f.sizes, budget);
    if n < |f.sizes| {
      PackAgain(f, left[1..], budget);
      if n == 0 {
        assert Drop(f, 0) == f && RestAfter(left, n) == left;
      } else {
        assert [Take(f, n)] + [] == [Take(f, n)];
      }
    } else {
      assert f.sizes[..n] == f.sizes && f.offsets[..n] == f.offsets;
      assert RestAfter(left, n) == left[1..];
      assert Take(f, n) == f;
    }
  }

  ghost predicate Kept(left: seq<FileChunks>, budget: nat, id: nat)
    requires AllValid(left)
  {
    && AllValid(Pack(left, budget).0) && AllValid(Pack(left, budget).1)
    && Collected(Pack(left, budget).0, id) + Collected(Pack(left, budget).1, id) == Collected(left, id)
  }

  lemma {:induction false} TakenKept(left: seq<FileChunks>, budget: nat, id: nat, n: nat)
    requires AllValid(left) && left != [] && n == Fit(left[0].sizes, budget) && n > 0
    requires Take(left[0], n).TotalSize() <= budget && AllValid(RestAfter(left, n))
    requires Kept(RestAfter(left, n), budget - Take(left[0], n).TotalSize(), id)
    ensures Kept(left, budget, id)
  {
    PackStep(left, budget);
    var f, tail := left[0], left[1..];
    assert AllValid(tail) && left == [f] + tail;
    assert RestAfter(left, n) == (if n == |f.sizes| then [] else [Drop(f, n)]) + tail;
    hide Fit, Sum, Collected, Pack, RangesOf, Take, Drop, AllValid, RestAfter;
    var more := budget - Take(f, n).TotalSize();
    var files, rest := Pack(RestAfter(left, n), more).0, Pack(RestAfter(left, n), more).1;
    TakenConserves(f, tail, n, id, files, rest);
    assert Pack(left, budget) == ([Take(f, n)] + files, rest);
  }

  lemma EmptyKept(left: seq<FileChunks>, budget: nat, id: nat)
    requires AllValid(left) && left != [] && left[0].sizes == [] && AllValid(left[1..]) && Kept(left[1..], budget, id)
    ensures Kept(left, budget, id)
  {
    PackStep(left, budget);
    hide Sum, Collected, Pack, RangesOf;
    assert left == [left[0]] + left[1..] && [] + left[1..] == left[1..];
    EmptyFirst(left[0], left[1..], id);
  }

  lemma {:induction false} FullKept(left: seq<FileChunks>, budget: nat, id: nat)
    requires AllValid(left) && left != [] && left[0].sizes != [] && Fit(left[0].sizes, budget) == 0
    ensures Kept(left, budget, id)
  {
    assert Collected([], id) == [];
  }

  // Nothing is lost, repeated or reordered: per file, the request followed by what is left is what was left.
  lemma {:induction false} PackConserves(left: seq<FileChunks>, budget: nat, id: nat)
    requires AllValid(left)
    ensures AllValid(Pack(left, budget).0) && AllValid(Pack(left, budget).1)
    ensures Collected(Pack(left, budget).0, id) + Collected(Pack(left, budget).1, id) == Collected(left, id)
    decreases |left|, if left == [] then 0 else |left[0].sizes|
  {
    if left == [] {
      return;
    }
    PackStep(left, budget);
    assert AllValid(left[1..]) && left[0].Valid();
    assert Kept(left, budget, id) by {
      hide Fit, Sum, RangesOf, Collected, Pack, Take, Drop, AllValid;
      var n := Fit(left[0].sizes, budget);
      if n > 0 {
        RestSmaller(left, n);
        PackConserves(RestAfter(left, n), budget - Take(left[0], n).TotalSize(), id);
        TakenKept(left, budget, id, n);
      } else if left[0].sizes == [] {
        PackConserves(left[1..], budget, id);
        EmptyKept(left, budget, id);
      } else {
        FullKept(left, budget, id);
      }
    }
  }

  lemma RestSmaller(left: seq<FileChunks>, n: nat)
    requires left != [] && left[0].Valid() && 0 < n <= |left[0].sizes|
    ensures var rest := RestAfter(left, n);
            |rest| < |left| || (|rest| == |left| && |rest[0].sizes| < |left[0].sizes|)
  {
  }

  lemma Regroup<T>(a: seq<T>, b: seq<T>, c: seq<T>)
    ensures a + b + c == a + (b + c)
  {
  }

  lemma {:induction false} TakenConserves(f: FileChunks, tail: seq<FileChunks>, n: nat, id: nat, files: seq<FileChunks>,
                                          left: seq<FileChunks>)
    requires f.Valid() && AllValid(tail) && 0 < n <= |f.sizes| && AllValid(files) && AllValid(left)
    requires AllValid((if n == |f.sizes| then [] else [Drop(f, n)]) + tail) && AllValid([f] + tail)
    requires Collected(files, id) + Collected(left, id) ==
        Collected((if n == |f.sizes| then [] else [Drop(f, n)]) + tail, id)
    ensures AllValid([Take(f, n)] + files)
    ensures Collected([Take(f, n)] + files, id) + Collected(left, id) == Collected([f] + tail, id)
  {
    hide Collected, RangesOf;
    TakenFirst(f, tail, n, id);
    CollectedAppend([Take(f, n)], files, id);
    Regroup(Collected([Take(f, n)], id), Collected(files, id), Collected(left, id));
  }

  lemma {:induction false} EmptyFirst(f: FileChunks, tail: seq<FileChunks>, id: nat)
    requires f.Valid() && AllValid(tail) && f.sizes == []
    ensures AllValid([f] + tail) && Collected([f] + tail, id) == Collected(tail, id)
  {
    CollectedAppend([f], tail, id);
    CollectedOne(f, id);
  }

  // The slice taken and the rest are together the file.
  lemma TakenFirst(f: FileChunks, tail: seq<FileChunks>, n: nat, id: nat)
    requires f.Valid() && AllValid(tail) && 0 < n <= |f.sizes|
    ensures var rest := (if n == |f.sizes| then [] else [Drop(f, n)]) + tail;
            && AllValid([Take(f, n)]) && AllValid(rest) && AllValid([f] + tail)
            && Collected([Take(f, n)], id) + Collected(rest, id) == Collected([f] + tail, id)
  {
    if n == |f.sizes| {
      assert Take(f, n) == f && [] + tail == tail;
      CollectedAppend([f], tail, id);
    } else {
      SplitOrder(f, tail, n, id);
    }
  }

  lemma {:induction false} SplitOrder(f: FileChunks, tail: seq<FileChunks>, n: nat, id: nat)
    requires f.Valid() && AllValid(tail) && n <= |f.sizes| && n > 0
    ensures AllValid([Take(f, n)]) && AllValid([Drop(f, n)] + tail) && AllValid([f] + tail)
    ensures Collected([Take(f, n)], id) + Collected([Drop(f, n)] + tail, id) == Collected([f] + tail, id)
  {
    hide Collected, RangesOf;
    TakeDrop(f, n);
    CollectedOne(f, id);
    CollectedOne(Take(f, n), id);
    CollectedOne(Drop(f, n), id);
    CollectedAppend([f], tail, id);
    CollectedAppend([Drop(f, n)], tail, id);
    var first, second, after := Collected([Take(f, n)], id), Collected([Drop(f, n)], id), Collected(tail, id);
    assert first + (second + after) == first + second + after;
  }

  // When every range fits the whole buffer, an empty request means that no range is left.
  lemma {:induction false} PackProgress(left: seq<FileChunks>, budget: nat)
    requires AllValid(left) && Pack(left, budget).0 == []
    requires forall i, j :: 0 <= i < |left| && 0 <= j < |left[i].sizes| ==> left[i].sizes[j] <= budget
    ensures forall i :: 0 <= i < |left| ==> left[i].sizes == []
    decreases |left|
  {
    if left != [] {
      var f, tail := left[0], left[1..];
      assert forall j :: 0 <= j < |f.sizes| ==> f.sizes[j] <= budget;
      if f.sizes != [] {
        FirstFits(left, budget);
        assert false;
      }
      forall i, j | 0 <= i < |tail| && 0 <= j < |tail[i].sizes| ensures tail[i].sizes[j] <= budget {
        assert tail[i] == left[i + 1];
      }
      PackProgress(tail, budget);
      assert forall i :: 0 < i < |left| ==> left[i] == tail[i - 1];
    }
  }

  lemma {:induction false} FirstFits(left: seq<FileChunks>, budget: nat)
    requires AllValid(left) && left != [] && left[0].sizes != [] && left[0].sizes[0] <= budget
    ensures Pack(left, budget).0 != []
  {
  }

  ghost predicate AllFit(fs: seq<FileChunks>, budget: nat)
  {
    forall i, j :: 0 <= i < |fs| && 0 <= j < |fs[i].sizes| ==> fs[i].sizes[j] <= budget
  }

  lemma {:induction false} PackSizes(left: seq<FileChunks>, budget: nat, most: nat)
    requires AllValid(left) && AllFit(left, most)
    ensures AllFit(Pack(left, budget).1, most)
    decreases |left|
  {
    hide Fit, Sum;
    if left != [] {
      var f, tail := left[0], left[1..];
      var n := Fit(f.sizes, budget);
      assert forall i :: 0 <= i < |tail| ==> tail[i] == left[i + 1];
      if n < |f.sizes| {
        assert forall j :: 0 <= j < |Drop(f, n).sizes| ==> Drop(f, n).sizes[j] == left[0].sizes[n + j];
        assert forall i :: 0 < i < |left| ==> ([Drop(f, n)] + tail)[i] == left[i];
      } else {
        assert f.sizes[..n] == f.sizes;
        PackSizes(tail, budget - if n == 0 then 0 else Sum(f.sizes), most);
      }
    }
  }
}

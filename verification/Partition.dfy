// Dividing the chunks of a request list among the ranks of a distribution group.
module Partition {
  import opened Seqs
  import opened LongestFirst
  import opened FileChunksModel

  // One indivisible piece of work and where it came from.
  datatype WorkUnit = WorkUnit(path: string, offset: nat, size: nat, request: nat, chunk: nat)

  // The source map of a new FileChunks: its j-th chunk is chunk `chunk` of request `request`.
  datatype Origin = Origin(request: nat, chunk: nat, size: nat)

  datatype Part = Part(chunks: FileChunks, origins: seq<Origin>)

  // ---------------------------------------------------------------- what a partition stands for

  function UnitsOf(r: FileChunks): seq<WorkUnit>
    requires r.Valid()
  {
    seq(|r.sizes|, i requires 0 <= i < |r.sizes| => WorkUnit(r.path, r.offsets[i], r.sizes[i], r.id, i))
  }

  function Units(requests: seq<FileChunks>): seq<WorkUnit>
    requires AllValid(requests)
  {
    if requests == [] then [] else Units(requests[..|requests|-1]) + UnitsOf(requests[|requests|-1])
  }

  ghost predicate PartOk(p: Part)
  {
    && p.chunks.Valid()
    && |p.origins| == |p.chunks.sizes|
    && forall j :: 0 <= j < |p.origins| ==> p.origins[j].size == p.chunks.sizes[j]
  }

  // The work units a part describes, read back through its source map.
  function ReadBack(p: Part): seq<WorkUnit>
    requires PartOk(p)
  {
    seq(|p.origins|, i requires 0 <= i < |p.origins| =>
      WorkUnit(p.chunks.path, p.chunks.offsets[i], p.chunks.sizes[i], p.origins[i].request, p.origins[i].chunk))
  }

  ghost predicate PartsOk(ps: seq<Part>)
  {
    forall i :: 0 <= i < |ps| ==> PartOk(ps[i])
  }

  function ReadBackAll(ps: seq<Part>): seq<WorkUnit>
    requires PartsOk(ps)
  {
    if ps == [] then [] else ReadBackAll(ps[..|ps|-1]) + ReadBack(ps[|ps|-1])
  }

  // What every rank of the group will read, rank after rank.
  function ReadBackRanks(ranks: seq<seq<Part>>): seq<WorkUnit>
    requires forall r :: 0 <= r < |ranks| ==> PartsOk(ranks[r])
  {
    if ranks == [] then [] else ReadBackRanks(ranks[..|ranks|-1]) + ReadBackAll(ranks[|ranks|-1])
  }

  // No path appears in two parts of one rank, and a rank's ranges of a file ascend.
  ghost predicate OnePartPerPath(ps: seq<Part>)
  {
    forall i, j :: 0 <= i < j < |ps| ==> ps[i].chunks.path != ps[j].chunks.path
  }

  // Ranges come by offset, those that start together by size: what lets the streamer read neighbours as one.
  ghost predicate Ascending(c: FileChunks)
    requires |c.offsets| == |c.sizes|
  {
    forall i, j :: 0 <= i < j < |c.offsets| ==>
      c.offsets[i] < c.offsets[j] || (c.offsets[i] == c.offsets[j] && c.sizes[i] <= c.sizes[j])
  }

  predicate RangeOrder(a: WorkUnit, b: WorkUnit)
  {
    a.offset < b.offset || (a.offset == b.offset && a.size <= b.size)
  }

  // The ids of consecutive parts count up from `first`.
  ghost predicate IdsFrom(ps: seq<Part>, first: nat)
  {
    forall i :: 0 <= i < |ps| ==> ps[i].chunks.id == first + i
  }

  // ---------------------------------------------------------------- grouping one rank's units by path

  // An insertion-ordered dictionary from path to the units of that path.
  datatype Groups = Groups(paths: seq<string>, units: seq<seq<WorkUnit>>)

  ghost predicate GroupsOk(g: Groups)
  {
    && |g.paths| == |g.units|
    && (forall i, j :: 0 <= i < j < |g.paths| ==> g.paths[i] != g.paths[j])
    && (forall i, j :: 0 <= i < |g.units| && 0 <= j < |g.units[i]| ==> g.units[i][j].path == g.paths[i])
  }

  lemma GroupsLength(g: Groups)
    requires GroupsOk(g)
    ensures |g.paths| == |g.units|
  {
  }

  // A unit joins the group of its path, or starts one.
  lemma GroupPut(g: Groups, i: nat, u: WorkUnit)
    requires GroupsOk(g) && i < |g.paths| == |g.units| && g.paths[i] == u.path
    ensures GroupsOk(g.(units := g.units[i := g.units[i] + [u]]))
  {
  }

  lemma GroupNew(g: Groups, u: WorkUnit)
    requires GroupsOk(g) && forall j :: 0 <= j < |g.paths| ==> g.paths[j] != u.path
    ensures GroupsOk(Groups(g.paths + [u.path], g.units + [[u]]))
  {
  }

  method Regroup(units: seq<WorkUnit>) returns (g: Groups)
    ensures GroupsOk(g)
    ensures multiset(Flat(g.units)) == multiset(units)
  {
    g := Groups([], []);
    assert GroupsOk(g);
    for k := 0 to |units|
      invariant GroupsOk(g)
      invariant multiset(Flat(g.units)) == multiset(units[..k])
    {
      hide Flat, GroupsOk;
      var u := units[k];
      GroupsLength(g);
      var i := 0;
      while i < |g.paths| && g.paths[i] != u.path
        invariant i <= |g.paths|
        invariant forall j :: 0 <= j < i ==> g.paths[j] != u.path
      {
        i := i + 1;
      }
      assert units[..k + 1] == units[..k] + [u];
      if i < |g.paths| {
        FlatPut(g.units, i, u);
        GroupPut(g, i, u);
        g := g.(units := g.units[i := g.units[i] + [u]]);
      } else {
        FlatSnoc(g.units, [u]);
        GroupNew(g, u);
        g := Groups(g.paths + [u.path], g.units + [[u]]);
      }
    }
    assert units[..|units|] == units;
  }

  // The ranges of the units in the order given, with the map back to where they come from.
  function PartOf(id: nat, path: string, units: seq<WorkUnit>): Part
  {
    Part(FileChunks(id, path, seq(|units|, i requires 0 <= i < |units| => units[i].offset),
                    seq(|units|, i requires 0 <= i < |units| => units[i].size)),
         seq(|units|, i requires 0 <= i < |units| => Origin(units[i].request, units[i].chunk, units[i].size)))
  }

  lemma PartReads(id: nat, path: string, units: seq<WorkUnit>)
    requires forall j :: 0 <= j < |units| ==> units[j].path == path
    ensures PartOk(PartOf(id, path, units)) && ReadBack(PartOf(id, path, units)) == units
  {
  }

  lemma PartAscends(id: nat, path: string, units: seq<WorkUnit>)
    requires SortedBy(RangeOrder, units)
    ensures Ascending(PartOf(id, path, units).chunks)
  {
  }

  method BuildPart(id: nat, path: string, units: seq<WorkUnit>) returns (p: Part)
    requires forall j :: 0 <= j < |units| ==> units[j].path == path
    ensures PartOk(p) && p.chunks.id == id && p.chunks.path == path && Ascending(p.chunks)
    ensures multiset(ReadBack(p)) == multiset(units)
  {
    var sorted := Sort(RangeOrder, units);
    SortSorts(RangeOrder, units);
    hide Sort, SortedBy, TotalPreorder, PartOk, ReadBack;
    forall j | 0 <= j < |sorted| ensures sorted[j].path == path {
      assert sorted[j] in multiset(sorted);
      assert sorted[j] in multiset(units);
    }
    PartReads(id, path, sorted);
    PartAscends(id, path, sorted);
    p := PartOf(id, path, sorted);
  }

  ghost predicate Built(p: Part, id: nat, path: string, units: seq<WorkUnit>)
  {
    && PartOk(p) && p.chunks.id == id && p.chunks.path == path && Ascending(p.chunks)
    && multiset(ReadBack(p)) == multiset(units)
  }

  lemma {:induction false} BuiltAll(ps: seq<Part>, g: Groups, first: nat)
    requires |ps| == |g.units| == |g.paths|
    requires forall i :: 0 <= i < |ps| ==> Built(ps[i], first + i, g.paths[i], g.units[i])
    ensures PartsOk(ps) && multiset(ReadBackAll(ps)) == multiset(Flat(g.units))
  {
    hide SortedBy, ReadBack;
    if ps != [] {
      BuiltAll(ps[..|ps|-1], Groups(g.paths[..|ps|-1], g.units[..|ps|-1]), first);
    }
  }

  // One rank: group by path, order each group, number the parts.
  method BuildRank(units: seq<WorkUnit>, first: nat) returns (ps: seq<Part>)
    ensures PartsOk(ps) && OnePartPerPath(ps) && IdsFrom(ps, first)
    ensures forall i :: 0 <= i < |ps| ==> Ascending(ps[i].chunks)
    ensures multiset(ReadBackAll(ps)) == multiset(units)
  {
    var g := Regroup(units);
    ps := [];
    for k := 0 to |g.paths|
      invariant |ps| == k
      invariant forall i :: 0 <= i < k ==> Built(ps[i], first + i, g.paths[i], g.units[i])
    {
      hide SortedBy, ReadBack;
      var p := BuildPart(first + k, g.paths[k], g.units[k]);
      ps := ps + [p];
    }
    hide SortedBy, ReadBack, ReadBackAll, Flat;
    BuiltAll(ps, g, first);
  }

  // Each rank reads exactly the units dealt to it.
  ghost predicate Reads(ranks: seq<seq<Part>>, split: seq<seq<WorkUnit>>)
  {
    && |ranks| == |split|
    && forall r :: 0 <= r < |ranks| ==> PartsOk(ranks[r]) && multiset(ReadBackAll(ranks[r])) == multiset(split[r])
  }

  lemma {:induction false} ReadsAll(ranks: seq<seq<Part>>, split: seq<seq<WorkUnit>>)
    requires Reads(ranks, split)
    ensures multiset(ReadBackRanks(ranks)) == multiset(Flat(split))
  {
    if ranks != [] {
      ReadsAll(ranks[..|ranks|-1], split[..|split|-1]);
    }
  }

  // ---------------------------------------------------------------- partition_by_chunks

  // Parts of all ranks are numbered 0, 1, 2, ... without repetition.
  function PartCount(ranks: seq<seq<Part>>): nat
  {
    if ranks == [] then 0 else PartCount(ranks[..|ranks|-1]) + |ranks[|ranks|-1]|
  }

  ghost predicate RankOk(ranks: seq<seq<Part>>, r: nat)
    requires r < |ranks|
  {
    && PartsOk(ranks[r])
    && OnePartPerPath(ranks[r])
    && IdsFrom(ranks[r], PartCount(ranks[..r]))
    && forall i :: 0 <= i < |ranks[r]| ==> Ascending(ranks[r][i].chunks)
  }

  ghost predicate RanksOk(ranks: seq<seq<Part>>)
  {
    forall r: nat :: r < |ranks| ==> RankOk(ranks, r)
  }

  function UnitSize(u: WorkUnit): nat { u.size }

  // The bytes one rank reads.
  function RankSize(ps: seq<Part>): nat
    requires PartsOk(ps)
  {
    WeightOf(ReadBackAll(ps), UnitSize)
  }

  function RankSizes(ranks: seq<seq<Part>>): seq<nat>
    requires forall r :: 0 <= r < |ranks| ==> PartsOk(ranks[r])
  {
    seq(|ranks|, r requires 0 <= r < |ranks| => RankSize(ranks[r]))
  }

  lemma SizesAgree(ranks: seq<seq<Part>>, split: seq<seq<WorkUnit>>, sizes: seq<nat>)
    requires Reads(ranks, split) && |sizes| == |split|
    requires forall r :: 0 <= r < |sizes| ==> sizes[r] == WeightOf(split[r], UnitSize)
    ensures RankSizes(ranks) == sizes
  {
    forall r | 0 <= r < |ranks| ensures RankSizes(ranks)[r] == sizes[r] {
      WeightPermute(ReadBackAll(ranks[r]), split[r], UnitSize);
    }
  }

  lemma {:induction false} CountSnoc(ranks: seq<seq<Part>>, ps: seq<Part>)
    ensures PartCount(ranks + [ps]) == PartCount(ranks) + |ps|
  {
    assert (ranks + [ps])[..|ranks|] == ranks;
  }

  lemma {:induction false} RanksOkSnoc(ranks: seq<seq<Part>>, ps: seq<Part>)
    requires RanksOk(ranks) && PartsOk(ps) && OnePartPerPath(ps) && IdsFrom(ps, PartCount(ranks))
    requires forall i :: 0 <= i < |ps| ==> Ascending(ps[i].chunks)
    ensures RanksOk(ranks + [ps])
  {
    hide SortedBy, ReadBack, PartCount, OnePartPerPath, IdsFrom;
    var more := ranks + [ps];
    forall r: nat | r < |more| ensures RankOk(more, r) {
      if r < |ranks| {
        assert RankOk(ranks, r);
        assert more[..r] == ranks[..r] && more[r] == ranks[r];
      } else {
        assert more[..r] == ranks && more[r] == ps;
      }
    }
  }

  method FlattenRequests(requests: seq<FileChunks>) returns (units: seq<WorkUnit>)
    requires AllValid(requests)
    ensures units == Units(requests)
  {
    units := [];
    for k := 0 to |requests|
      invariant AllValid(requests[..k]) && units == Units(requests[..k])
    {
      var r := requests[k];
      ghost var before := units;
      for i := 0 to |r.sizes|
        invariant units == before + UnitsOf(r)[..i]
      {
        units := units + [WorkUnit(r.path, r.offsets[i], r.sizes[i], r.id, i)];
      }
      assert UnitsOf(r)[..|r.sizes|] == UnitsOf(r);
      assert requests[..k + 1][..k] == requests[..k];
    }
    assert requests[..|requests|] == requests;
  }

  ghost predicate SameUnits(ranks: seq<seq<Part>>, requests: seq<FileChunks>)
    requires AllValid(requests)
    requires forall r :: 0 <= r < |ranks| ==> PartsOk(ranks[r])
  {
    multiset(ReadBackRanks(ranks)) == multiset(Units(requests))
  }

  method PartitionByChunks(requests: seq<FileChunks>, n: int) returns (res: Result<seq<seq<Part>>>)
    requires AllValid(requests)
    ensures res.ValueError? <==> n <= 0
    ensures res.Ok? ==> |res.value| == n && RanksOk(res.value)
    ensures res.Ok? ==> (forall r :: 0 <= r < n ==> PartsOk(res.value[r])) && SameUnits(res.value, requests)
    ensures res.Ok? ==> Even(RankSizes(res.value), Units(requests), UnitSize)
    ensures res.Ok? ==> NearBest(RankSizes(res.value), Units(requests), UnitSize)
  {
    if n <= 0 {
      return ValueError;
    }
    var units := FlattenRequests(requests);
    hide Units, Even, NearBest, RanksOk, PartsOk, RankSizes, ReadBackRanks, WeightOf, RankOk;
    if requests == [] {
      var none: seq<seq<Part>> := seq(n, i => []);
      NothingToDivide(none, units, n);
      return Ok(none);
    }
    var split, sizes := Divide(units, UnitSize, n);
    var ranks := BuildRanks(split);
    ReadsAll(ranks, split);
    SizesAgree(ranks, split, sizes);
    assert SameUnits(ranks, requests);
    ReadsOk(ranks, split);
    res := Ok(ranks);
  }

  lemma ReadsOk(ranks: seq<seq<Part>>, split: seq<seq<WorkUnit>>)
    requires Reads(ranks, split)
    ensures forall r :: 0 <= r < |ranks| ==> PartsOk(ranks[r])
  {
  }

  lemma {:induction false} NothingToDivide(none: seq<seq<Part>>, units: seq<WorkUnit>, n: nat)
    requires units == [] && |none| == n && forall r :: 0 <= r < n ==> none[r] == []
    ensures RanksOk(none) && (forall r :: 0 <= r < |none| ==> PartsOk(none[r]))
    ensures ReadBackRanks(none) == [] && Even(RankSizes(none), units, UnitSize)
        && NearBest(RankSizes(none), units, UnitSize)
  {
    var nothing: seq<seq<WorkUnit>> := seq(n, i => []);
    ReadsAll(none, nothing);
    FlatEmpty(nothing);
    assert forall r :: 0 <= r < n ==> RankSizes(none)[r] == 0;
    hide RanksOk, ReadBackRanks, RankSizes;
    ZeroIsFair(RankSizes(none), units, UnitSize);
  }

  // The ranks' parts, numbered through.
  method BuildRanks(split: seq<seq<WorkUnit>>) returns (ranks: seq<seq<Part>>)
    ensures RanksOk(ranks) && Reads(ranks, split)
  {
    var id := 0;
    ranks := [];
    for k := 0 to |split|
      invariant |ranks| == k && RanksOk(ranks) && id == PartCount(ranks)
      invariant Reads(ranks, split[..k])
    {
      hide RanksOk, PartCount, ReadBackAll, PartsOk;
      var ps := BuildRank(split[k], id);
      RanksOkSnoc(ranks, ps);
      CountSnoc(ranks, ps);
      id := id + |ps|;
      ranks := ranks + [ps];
    }
    assert split[..|split|] == split;
  }

  // ---------------------------------------------------------------- partition_by_files

  function RequestSize(r: FileChunks): nat { r.TotalSize() }

  // A whole request with the identity source map, keyed by the request's own id.
  function WholeFile(r: FileChunks): (p: Part)
    requires r.Valid()
    ensures PartOk(p) && ReadBack(p) == UnitsOf(r)
  {
    Part(r, seq(|r.sizes|, i requires 0 <= i < |r.sizes| => Origin(r.id, i, r.sizes[i])))
  }

  function WholeFiles(rs: seq<FileChunks>): seq<Part>
    requires AllValid(rs)
  {
    seq(|rs|, i requires 0 <= i < |rs| => WholeFile(rs[i]))
  }

  lemma {:induction false} WholeFilesUnits(rs: seq<FileChunks>)
    requires AllValid(rs)
    ensures PartsOk(WholeFiles(rs)) && ReadBackAll(WholeFiles(rs)) == Units(rs)
  {
    if rs != [] {
      assert WholeFiles(rs)[..|rs|-1] == WholeFiles(rs[..|rs|-1]);
      WholeFilesUnits(rs[..|rs|-1]);
    }
  }

  lemma ValidParts(a: seq<FileChunks>, x: FileChunks, b: seq<FileChunks>)
    requires AllValid(a + [x] + b)
    ensures AllValid(a) && x.Valid() && AllValid(b)
  {
    var all := a + [x] + b;
    assert forall i :: 0 <= i < |a| ==> all[i] == a[i];
    assert all[|a|] == x;
    assert forall i :: 0 <= i < |b| ==> all[|a| + 1 + i] == b[i];
  }

  lemma ValidJoin(a: seq<FileChunks>, b: seq<FileChunks>)
    requires AllValid(a) && AllValid(b)
    ensures AllValid(a + b)
  {
  }

  lemma {:induction false} UnitsSnoc(a: seq<FileChunks>, x: FileChunks)
    requires AllValid(a) && x.Valid()
    ensures AllValid(a + [x]) && Units(a + [x]) == Units(a) + UnitsOf(x)
  {
    assert (a + [x])[..|a|] == a;
  }

  lemma {:induction false} UnitsAppend(a: seq<FileChunks>, b: seq<FileChunks>)
    requires AllValid(a) && AllValid(b)
    ensures AllValid(a + b) && Units(a + b) == Units(a) + Units(b)
  {
    assert Units([]) == [];
    hide Units, UnitsOf, AllValid;
    if b == [] {
      assert a + b == a;
    } else {
      var front, last := b[..|b|-1], b[|b|-1];
      assert b == front + [last] && b == front + [last] + [];
      ValidParts(front, last, []);
      ValidJoin(a, front);
      UnitsAppend(a, front);
      assert a + b == (a + front) + [last];
      UnitsSnoc(a + front, last);
      UnitsSnoc(front, last);
      Regrouped(Units(a), Units(front), UnitsOf(last));
    }
  }

  lemma Regrouped<T>(a: seq<T>, b: seq<T>, c: seq<T>)
    ensures a + b + c == a + (b + c)
  {
  }

  lemma TakenOut<T>(a: seq<T>, x: seq<T>, b: seq<T>)
    ensures multiset(a + x + b) == multiset(a + b) + multiset(x)
  {
  }

  lemma {:induction false} UnitsMiddle(a: seq<FileChunks>, x: FileChunks, b: seq<FileChunks>)
    requires AllValid(a) && x.Valid() && AllValid(b)
    ensures AllValid(a + [x] + b) && AllValid(a + b)
    ensures multiset(Units(a + [x] + b)) == multiset(Units(a + b)) + multiset(UnitsOf(x))
  {
    hide Units, UnitsOf;
    UnitsSnoc(a, x);
    UnitsAppend(a + [x], b);
    UnitsAppend(a, b);
    TakenOut(Units(a), UnitsOf(x), Units(b));
  }

  lemma SameRest<T>(s: seq<T>, x: T, a: seq<T>, b: seq<T>)
    requires multiset(s + [x]) == multiset(a + [x] + b)
    ensures multiset(s) == multiset(a + b)
  {
    TakenOut(a, [x], b);
    assert multiset(s) == multiset(s + [x]) - multiset{x};
    assert multiset(a + b) == multiset(a + [x] + b) - multiset{x};
  }

  lemma SplitAt<T>(s: seq<T>, x: T) returns (a: seq<T>, b: seq<T>)
    requires x in s
    ensures s == a + [x] + b
  {
    var i :| 0 <= i < |s| && s[i] == x;
    a, b := s[..i], s[i + 1..];
  }

  lemma {:induction false} UnitsPermute(a: seq<FileChunks>, b: seq<FileChunks>)
    requires AllValid(a) && AllValid(b) && multiset(a) == multiset(b)
    ensures multiset(Units(a)) == multiset(Units(b))
  {
    assert |a| == |multiset(a)| == |multiset(b)| == |b|;
    if a != [] {
      var front, x := a[..|a|-1], a[|a|-1];
      assert a == front + [x] == front + [x] + [];
      assert x in multiset(b);
      var pre, post := SplitAt(b, x);
      hide Units, UnitsOf, AllValid;
      ValidParts(front, x, []);
      ValidParts(pre, x, post);
      SameRest(front, x, pre, post);
      UnitsMiddle(pre, x, post);
      UnitsSnoc(front, x);
      UnitsPermute(front, pre + post);
    }
  }

  lemma {:induction false} WeighChunks(r: FileChunks, k: nat)
    requires r.Valid() && k <= |r.sizes|
    ensures WeightOf(UnitsOf(r)[..k], UnitSize) == Sum(r.sizes[..k])
  {
    if k > 0 {
      WeighChunks(r, k - 1);
      assert UnitsOf(r)[..k] == UnitsOf(r)[..k - 1] + [UnitsOf(r)[k - 1]];
      assert r.sizes[..k] == r.sizes[..k - 1] + [r.sizes[k - 1]];
      WeightSnoc(UnitsOf(r)[..k - 1], UnitsOf(r)[k - 1], UnitSize);
      SumSnoc(r.sizes[..k - 1], r.sizes[k - 1]);
    }
  }

  lemma {:induction false} WeighFiles(rs: seq<FileChunks>)
    requires AllValid(rs)
    ensures WeightOf(Units(rs), UnitSize) == WeightOf(rs, RequestSize)
  {
    if rs != [] {
      var r := rs[|rs|-1];
      WeighFiles(rs[..|rs|-1]);
      WeighChunks(r, |r.sizes|);
      assert r.sizes[..|r.sizes|] == r.sizes && UnitsOf(r)[..|r.sizes|] == UnitsOf(r);
      WeightAppend(Units(rs[..|rs|-1]), UnitsOf(r), UnitSize);
    }
  }

  lemma {:induction false} WholeRanks(ranks: seq<seq<Part>>, split: seq<seq<FileChunks>>)
    requires |ranks| == |split|
    requires forall r :: 0 <= r < |ranks| ==> AllValid(split[r]) && ranks[r] == WholeFiles(split[r])
    ensures forall r :: 0 <= r < |ranks| ==> PartsOk(ranks[r]) && RankSize(ranks[r]) == WeightOf(split[r], RequestSize)
    ensures AllValid(Flat(split)) && ReadBackRanks(ranks) == Units(Flat(split))
  {
    if ranks != [] {
      var k := |ranks| - 1;
      WholeRanks(ranks[..k], split[..k]);
      WholeFilesUnits(split[k]);
      WeighFiles(split[k]);
      UnitsAppend(Flat(split[..k]), split[k]);
      forall r | 0 <= r < |ranks| ensures PartsOk(ranks[r]) && RankSize(ranks[r]) == WeightOf(split[r], RequestSize) {
        assert r < k ==> ranks[..k][r] == ranks[r] && split[..k][r] == split[r];
      }
    }
  }

  lemma {:induction false} FlatValid(split: seq<seq<FileChunks>>, requests: seq<FileChunks>, r: nat)
    requires multiset(Flat(split)) == multiset(requests) && AllValid(requests) && r < |split|
    ensures AllValid(split[r])
  {
    forall j | 0 <= j < |split[r]| ensures split[r][j].Valid() {
      FlatMember(split, r, j);
      assert split[r][j] in multiset(Flat(split));
      assert split[r][j] in multiset(requests);
    }
  }

  method PartitionByFiles(requests: seq<FileChunks>, n: int) returns (res: Result<seq<seq<Part>>>)
    requires AllValid(requests)
    ensures res.ValueError? <==> n <= 0
    ensures res.Ok? ==> |res.value| == n && (forall r :: 0 <= r < n ==> PartsOk(res.value[r]))
    ensures res.Ok? ==> SameUnits(res.value, requests)
    ensures res.Ok? ==> forall r, i :: 0 <= r < n && 0 <= i < |res.value[r]| ==>
              res.value[r][i].chunks in requests && res.value[r][i] == WholeFile(res.value[r][i].chunks)
    ensures res.Ok? ==> Even(RankSizes(res.value), requests, RequestSize)
    ensures res.Ok? ==> NearBest(RankSizes(res.value), requests, RequestSize)
  {
    if n <= 0 {
      return ValueError;
    }
    var split, sizes := Divide(requests, RequestSize, n);
    forall r: nat | r < n ensures AllValid(split[r]) {
      FlatValid(split, requests, r);
    }
    var ranks: seq<seq<Part>> := seq(n, r requires 0 <= r < n && AllValid(split[r]) => WholeFiles(split[r]));
    WholeRanks(ranks, split);
    UnitsPermute(Flat(split), requests);
    assert RankSizes(ranks) == sizes;
    forall r: nat, i: nat | r < n && i < |ranks[r]| ensures split[r][i] in requests {
      FlatMember(split, r, i);
      assert split[r][i] in multiset(Flat(split));
      assert split[r][i] in multiset(requests);
    }
    res := Ok(ranks);
  }

  // ---------------------------------------------------------------- the bijection

  ghost predicate IdsUnique(requests: seq<FileChunks>)
  {
    forall i, j :: 0 <= i < j < |requests| ==> requests[i].id != requests[j].id
  }

  ghost predicate OriginsDistinct(units: seq<WorkUnit>)
  {
    forall a, b :: 0 <= a < b < |units| ==> (units[a].request, units[a].chunk) != (units[b].request, units[b].chunk)
  }

  lemma {:induction false} UnitsFrom(requests: seq<FileChunks>, u: WorkUnit)
    requires AllValid(requests) && u in Units(requests)
    ensures exists i :: 0 <= i < |requests| && u.request == requests[i].id && u in UnitsOf(requests[i])
  {
    var last := requests[|requests|-1];
    if u in UnitsOf(last) {
      assert requests[|requests|-1] == last;
    } else {
      UnitsFrom(requests[..|requests|-1], u);
      var i :| 0 <= i < |requests| - 1 && u.request == requests[..|requests|-1][i].id
        && u in UnitsOf(requests[..|requests|-1][i]);
      assert requests[i] == requests[..|requests|-1][i];
    }
  }

  lemma {:induction false} UnitsHave(requests: seq<FileChunks>, i: nat, j: nat)
    requires AllValid(requests) && i < |requests| && j < |requests[i].sizes|
    ensures UnitsOf(requests[i])[j] in Units(requests)
  {
    if i < |requests| - 1 {
      UnitsHave(requests[..|requests|-1], i, j);
    }
  }

  lemma {:induction false} UnitsDistinct(requests: seq<FileChunks>)
    requires AllValid(requests) && IdsUnique(requests)
    ensures OriginsDistinct(Units(requests))
  {
    if requests != [] {
      var front, last := requests[..|requests|-1], requests[|requests|-1];
      UnitsDistinct(front);
      forall a | 0 <= a < |Units(front)| ensures Units(front)[a].request != last.id {
        UnitsFrom(front, Units(front)[a]);
      }
    }
  }

  lemma {:induction false} DistinctOnce(units: seq<WorkUnit>, u: WorkUnit)
    requires OriginsDistinct(units) && u in units
    ensures multiset(units)[u] == 1
  {
    var k := |units| - 1;
    assert units == units[..k] + [units[k]];
    if units[k] == u {
      assert u !in units[..k];
    } else {
      DistinctOnce(units[..k], u);
    }
  }

  // Chunk j of request i is read by exactly one rank, exactly once, with its own path, offset and size;
  // and whatever a rank reads is such a chunk.
  lemma {:induction false} Bijection(requests: seq<FileChunks>, ranks: seq<seq<Part>>)
    requires AllValid(requests) && IdsUnique(requests)
    requires (forall r :: 0 <= r < |ranks| ==> PartsOk(ranks[r])) && SameUnits(ranks, requests)
    ensures forall i: nat, j: nat :: i < |requests| && j < |requests[i].sizes| ==>
              multiset(ReadBackRanks(ranks))[UnitsOf(requests[i])[j]] == 1
    ensures forall u :: u in ReadBackRanks(ranks) ==>
              exists i :: 0 <= i < |requests| && u.request == requests[i].id && u in UnitsOf(requests[i])
    ensures OriginsDistinct(ReadBackRanks(ranks))
  {
    var units, back := Units(requests), ReadBackRanks(ranks);
    UnitsDistinct(requests);
    forall i: nat, j: nat | i < |requests| && j < |requests[i].sizes|
      ensures multiset(back)[UnitsOf(requests[i])[j]] == 1 {
      UnitsHave(requests, i, j);
      DistinctOnce(units, UnitsOf(requests[i])[j]);
    }
    forall u | u in back
      ensures exists i :: 0 <= i < |requests| && u.request == requests[i].id && u in UnitsOf(requests[i]) {
      assert u in multiset(back);
      assert u in multiset(units);
      UnitsFrom(requests, u);
    }
    PermutedDistinct(units, back);
  }

  lemma TwoPlaces(s: seq<WorkUnit>, a: nat, b: nat)
    requires a < b < |s| && s[a] == s[b]
    ensures multiset(s)[s[a]] >= 2
  {
    assert s == s[..b] + ([s[b]] + s[b + 1..]);
    assert s[a] in s[..b];
  }

  lemma PermutedDistinct(s: seq<WorkUnit>, t: seq<WorkUnit>)
    requires OriginsDistinct(s) && multiset(s) == multiset(t)
    ensures OriginsDistinct(t)
  {
    forall a: nat, b: nat | a < b < |t| ensures (t[a].request, t[a].chunk) != (t[b].request, t[b].chunk) {
      assert t[a] in multiset(t) && t[b] in multiset(t);
      assert t[a] in s && t[b] in s;
      DistinctOnce(s, t[a]);
      if t[a] == t[b] {
        TwoPlaces(t, a, b);
      }
      var x :| 0 <= x < |s| && s[x] == t[a];
      var y :| 0 <= y < |s| && s[y] == t[b];
      if x < y {
        assert (s[x].request, s[x].chunk) != (s[y].request, s[y].chunk);
      } else if y < x {
        assert (s[y].request, s[y].chunk) != (s[x].request, s[x].chunk);
      }
    }
  }

  // ---------------------------------------------------------------- get_total_number_of_chunks

  method TotalChunks(ranks: seq<seq<Part>>) returns (total: nat)
    requires forall r :: 0 <= r < |ranks| ==> PartsOk(ranks[r])
    ensures total == |ReadBackRanks(ranks)|
  {
    total := 0;
    for r := 0 to |ranks|
      invariant total == |ReadBackRanks(ranks[..r])|
    {
      var here := 0;
      for i := 0 to |ranks[r]|
        invariant here == |ReadBackAll(ranks[r][..i])|
      {
        here := here + |ranks[r][i].chunks.sizes|;
        assert ranks[r][..i + 1][..i] == ranks[r][..i];
      }
      total := total + here;
      assert ranks[r][..|ranks[r]|] == ranks[r];
      assert ranks[..r + 1][..r] == ranks[..r];
    }
    assert ranks[..|ranks|] == ranks;
  }
}

// Partitioning and lockstep broadcasting together: every rank gets every chunk of every request, once, with the
// bytes of its own file.
module Distribution {
  import opened Seqs
  import opened FileChunksModel
  import opened Partition
  import opened Staging
  import Lockstep

  // The byte of a file at an offset.
  type Contents = (string, nat) -> int

  // The chunk a work unit stands for: its original request and index, and its file's bytes at its offset.
  function UnitBytes(files: Contents, u: WorkUnit): seq<int>
  {
    seq(u.size, i requires 0 <= i < u.size => files(u.path, u.offset + i))
  }

  function ChunkOf(files: Contents): WorkUnit -> Chunk
  {
    (u: WorkUnit) => Chunk(u.request, u.chunk, UnitBytes(files, u))
  }

  // What a rank's storage layer hands out for its part: the chunks of the part, each read from its path at its
  // offset, in any order, under their original names.
  ghost predicate ReadFrom(files: Contents, arrivals: seq<Chunk>, ps: seq<Part>)
  {
    PartsOk(ps) && multiset(arrivals) == multiset(Map(ChunkOf(files), ReadBackAll(ps)))
  }

  ghost predicate Delivers(files: Contents, arrivals: seq<seq<Chunk>>, ranks: seq<seq<Part>>)
  {
    |arrivals| == |ranks| && forall r :: 0 <= r < |ranks| ==> ReadFrom(files, arrivals[r], ranks[r])
  }

  lemma {:induction false} AllDelivered(files: Contents, arrivals: seq<seq<Chunk>>, ranks: seq<seq<Part>>)
    requires Delivers(files, arrivals, ranks)
    ensures forall r :: 0 <= r < |ranks| ==> PartsOk(ranks[r])
    ensures multiset(Flat(arrivals)) == multiset(Map(ChunkOf(files), ReadBackRanks(ranks)))
  {
    forall r | 0 <= r < |ranks| ensures PartsOk(ranks[r]) {
      RankRead(files, arrivals, ranks, r);
    }
    if ranks == [] {
      assert Map(ChunkOf(files), ReadBackRanks(ranks)) == [];
    } else {
      var k := |ranks| - 1;
      AllDelivered(files, arrivals[..k], ranks[..k]);
      RankRead(files, arrivals, ranks, k);
      MapAppend(ChunkOf(files), ReadBackRanks(ranks[..k]), ReadBackAll(ranks[k]));
      assert Flat(arrivals) == Flat(arrivals[..k]) + arrivals[k];
      hide Map, ReadBackAll, ReadFrom, PartsOk, Flat, Delivers;
    }
  }

  lemma RankRead(files: Contents, arrivals: seq<seq<Chunk>>, ranks: seq<seq<Part>>, k: nat)
    requires Delivers(files, arrivals, ranks) && k < |ranks|
    ensures PartsOk(ranks[k]) && multiset(arrivals[k]) == multiset(Map(ChunkOf(files), ReadBackAll(ranks[k])))
  {
    assert ReadFrom(files, arrivals[k], ranks[k]);
  }

  // A rank that finishes has yielded exactly the chunks that were asked for, under the ids and indices of the
  // original requests, each with the bytes its file has at its offset: none missing, none twice.
  lemma {:induction false} EveryRankGetsAll(files: Contents, requests: seq<FileChunks>, ranks: seq<seq<Part>>,
                                            w: Lockstep.World, run: seq<seq<Lockstep.Rank>>, who: seq<nat>, n: nat,
                                            r: nat)
    requires AllValid(requests) && Delivers(files, w.arrivals, ranks)
    requires (forall r :: 0 <= r < |ranks| ==> PartsOk(ranks[r])) && SameUnits(ranks, requests)
    requires Lockstep.Good(w) && Lockstep.Run(w, run, who) && n < |run| && r < Lockstep.Size(w)
    requires |run[n]| == Lockstep.Size(w) && run[n][r].pc == Lockstep.Finished
    ensures multiset(run[n][r].yielded) == multiset(Map(ChunkOf(files), Units(requests)))
  {
    hide Lockstep.Run, Lockstep.Good, Map, Units, ReadBackRanks;
    Lockstep.YieldsEverything(w, run, who, n, r);
    AllDelivered(files, w.arrivals, ranks);
    MapPermute(ChunkOf(files), ReadBackRanks(ranks), Units(requests));
  }

  ghost predicate SameName(c: Chunk, d: Chunk) { c.request == d.request && c.index == d.index }

  // With unique ids no name comes twice, so each chunk that was asked for comes exactly once, with its own bytes.
  lemma {:induction false} NamesOnce(files: Contents, requests: seq<FileChunks>, yielded: seq<Chunk>)
    requires AllValid(requests) && IdsUnique(requests)
    requires multiset(yielded) == multiset(Map(ChunkOf(files), Units(requests)))
    ensures forall k, l :: 0 <= k < l < |yielded| ==> !SameName(yielded[k], yielded[l])
    ensures forall u :: u in Units(requests) ==> ChunkOf(files)(u) in yielded
  {
    UnitsDistinct(requests);
    var us := Units(requests);
    hide Units;
    forall k, l | 0 <= k < l < |yielded| ensures !SameName(yielded[k], yielded[l]) {
      NotTwice(files, us, yielded, k, l);
    }
    forall u | u in us ensures ChunkOf(files)(u) in yielded {
      var i :| 0 <= i < |us| && us[i] == u;
      assert Map(ChunkOf(files), us)[i] == ChunkOf(files)(u);
      assert ChunkOf(files)(u) in multiset(yielded);
    }
  }

  lemma {:induction false} NotTwice(files: Contents, us: seq<WorkUnit>, yielded: seq<Chunk>, k: nat, l: nat)
    requires OriginsDistinct(us) && multiset(yielded) == multiset(Map(ChunkOf(files), us)) && k < l < |yielded|
    ensures !SameName(yielded[k], yielded[l])
  {
    var chunks := Map(ChunkOf(files), us);
    assert yielded[k] in multiset(chunks) && yielded[l] in multiset(chunks);
    var i :| 0 <= i < |us| && chunks[i] == yielded[k];
    var j :| 0 <= j < |us| && chunks[j] == yielded[l];
    if i == j {
      TwoOccurrences(yielded, k, l);
      var a, b := TwicePlaced(chunks, yielded[k]);
    }
  }
}

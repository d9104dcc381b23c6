// The order and gap check on a safetensors header, and the file ranges requested from it.
module SafetensorsLayout {
  import opened Seqs
  import opened FileChunksModel

  // data_offsets of one tensor, relative to the end of the header.
  datatype Tensor = Tensor(name: string, start: int, end: int) {
    function ByteSize(): int { end - start }
  }

  datatype Layout = Accepted(order: seq<Tensor>, readSizes: seq<int>) | Corrupted

  predicate Before(a: Tensor, b: Tensor)
  {
    a.start < b.start || (a.start == b.start && a.ByteSize() <= b.ByteSize())
  }

  // Each tensor ends where the next starts.
  ghost predicate Chained(ts: seq<Tensor>)
  {
    forall i, j :: 0 <= i && j == i + 1 && j < |ts| ==> ts[i].end == ts[j].start
  }

  ghost predicate NoneBackwards(ts: seq<Tensor>)
  {
    forall i :: 0 <= i < |ts| ==> ts[i].start <= ts[i].end
  }

  ghost predicate Permutes(a: seq<Tensor>, b: seq<Tensor>) { multiset(a) == multiset(b) }

  // ---------------------------------------------------------------- sorting finds the chain if there is one

  lemma {:induction false} ChainAscends(ts: seq<Tensor>, i: nat, j: nat)
    requires Chained(ts) && NoneBackwards(ts) && i < j < |ts|
    ensures ts[i].end <= ts[j].start
    decreases j
  {
    if i < j - 1 {
      ChainAscends(ts, i, j - 1);
      assert ts[j - 1].end == ts[j].start;
    } else {
      assert ts[i].end == ts[j].start;
    }
  }

  // A chain is in the order the sort looks for; tensors without elements come before the one they share a
  // start with.
  lemma ChainIsSorted(ts: seq<Tensor>)
    requires Chained(ts) && NoneBackwards(ts)
    ensures SortedBy(Before, ts)
  {
    forall i, j | 0 <= i < j < |ts| ensures Before(ts[i], ts[j]) {
      ChainAscends(ts, i, j);
    }
  }

  function Key(t: Tensor): (int, int) { (t.start, t.end) }

  function Keys(ts: seq<Tensor>): seq<(int, int)> { Map(Key, ts) }

  lemma KeyAt(ts: seq<Tensor>)
    ensures |Keys(ts)| == |ts| && forall i :: 0 <= i < |ts| ==> Keys(ts)[i] == (ts[i].start, ts[i].end)
  {
    forall i | 0 <= i < |ts| ensures Keys(ts)[i] == (ts[i].start, ts[i].end) {
      assert Keys(ts)[i] == Key(ts[i]);
    }
  }

  ghost predicate KeysSorted(s: seq<(int, int)>)
  {
    forall i, j :: 0 <= i < j < |s| ==> s[i].0 < s[j].0 || (s[i].0 == s[j].0 && s[i].1 <= s[j].1)
  }

  lemma LastIsLargest(s: seq<(int, int)>, x: (int, int))
    requires KeysSorted(s) && s != [] && x in s
    ensures var m := s[|s|-1]; x.0 < m.0 || (x.0 == m.0 && x.1 <= m.1)
  {
    var i :| 0 <= i < |s| && s[i] == x;
  }

  lemma SameLast(s: seq<(int, int)>, t: seq<(int, int)>)
    requires KeysSorted(s) && KeysSorted(t) && multiset(s) == multiset(t) && s != [] && t != []
    ensures s[|s|-1] == t[|t|-1]
  {
    var x, y := s[|s|-1], t[|t|-1];
    assert x in multiset(s) && y in multiset(t);
    assert x in multiset(t) && y in multiset(s);
    LastIsLargest(t, x);
    LastIsLargest(s, y);
    assert x.0 == y.0 && x.1 == y.1;
  }

  lemma Front(s: seq<(int, int)>)
    requires KeysSorted(s) && s != []
    ensures KeysSorted(s[..|s|-1]) && multiset(s[..|s|-1]) == multiset(s) - multiset{s[|s|-1]}
  {
    assert s == s[..|s|-1] + [s[|s|-1]];
  }

  // Sorted lists with the same elements are the same list.
  lemma {:induction false} SortedUnique(s: seq<(int, int)>, t: seq<(int, int)>)
    requires KeysSorted(s) && KeysSorted(t) && multiset(s) == multiset(t)
    ensures s == t
  {
    hide KeysSorted;
    assert |s| == |multiset(s)| == |multiset(t)| == |t|;
    if s != [] {
      var k := |s| - 1;
      SameLast(s, t);
      Front(s);
      Front(t);
      SortedUnique(s[..k], t[..k]);
      assert s == s[..k] + [s[k]] && t == t[..k] + [t[k]];
    }
  }

  lemma SortedKeys(ts: seq<Tensor>)
    requires SortedBy(Before, ts)
    ensures KeysSorted(Keys(ts))
  {
    KeyAt(ts);
    forall i, j | 0 <= i < j < |ts|
      ensures Keys(ts)[i].0 < Keys(ts)[j].0 || (Keys(ts)[i].0 == Keys(ts)[j].0 && Keys(ts)[i].1 <= Keys(ts)[j].1) {
      assert Before(ts[i], ts[j]);
    }
  }

  // If any order of the tensors is a chain, the sorted one is, whatever the order of equal keys.
  lemma SortFindsChain(sorted: seq<Tensor>, chain: seq<Tensor>)
    requires SortedBy(Before, sorted) && Permutes(sorted, chain) && Chained(chain) && NoneBackwards(chain)
    ensures Chained(sorted)
  {
    ChainIsSorted(chain);
    SortedKeys(sorted);
    SortedKeys(chain);
    MapPermute(Key, sorted, chain);
    SortedUnique(Keys(sorted), Keys(chain));
    KeyAt(sorted);
    KeyAt(chain);
    forall i, j | 0 <= i && j == i + 1 && j < |sorted| ensures sorted[i].end == sorted[j].start {
      assert Keys(sorted)[i] == Keys(chain)[i] && Keys(sorted)[j] == Keys(chain)[j];
      assert chain[i].end == chain[j].start;
    }
  }

  lemma BackwardsPermutes(a: seq<Tensor>, b: seq<Tensor>)
    requires Permutes(a, b) && NoneBackwards(a)
    ensures NoneBackwards(b)
  {
    forall i | 0 <= i < |b| ensures b[i].start <= b[i].end {
      assert b[i] in multiset(b);
      assert b[i] in multiset(a);
    }
  }

  // ---------------------------------------------------------------- the check

  ghost predicate HasChain(tensors: seq<Tensor>)
  {
    exists order: seq<Tensor> :: Permutes(order, tensors) && Chained(order)
  }

  // A header is accepted exactly when no tensor ends before it starts and some order of the tensors leaves
  // neither gap nor overlap; the order in which the header lists them does not matter.
  method CheckLayout(tensors: seq<Tensor>) returns (result: Layout)
    ensures result.Accepted? <==> NoneBackwards(tensors) && HasChain(tensors)
    ensures result.Accepted? ==>
              && Permutes(result.order, tensors) && Chained(result.order) && NoneBackwards(result.order)
              && |result.readSizes| == |result.order|
              && forall i :: 0 <= i < |result.order| ==>
                result.readSizes[i] == result.order[i].end - result.order[i].start
  {
    var order := Sort(Before, tensors);
    SortSorts(Before, tensors);
    assert Permutes(order, tensors) && Permutes(tensors, order);
    hide Sort, SortedBy, HasChain, Permutes, Before, TotalPreorder;
    var readSizes := [];
    for i := 0 to |order|
      invariant |readSizes| == i
      invariant forall k :: 0 <= k < i ==>
          order[k].start <= order[k].end && readSizes[k] == order[k].end - order[k].start
      invariant forall k, l :: 0 <= k < i && l == k + 1 && l < |order| ==> order[k].end == order[l].start
    {
      var current := order[i];
      if current.start > current.end {
        if NoneBackwards(tensors) {
          BackwardsPermutes(tensors, order);
          assert false;
        }
        return Corrupted;
      }
      var required := current.ByteSize();
      if i < |order| - 1 {
        var next := order[i + 1].start;
        if current.start + required > next || current.start + required < next {
          NoChain(order, tensors, i);
          return Corrupted;
        }
      }
      readSizes := readSizes + [required];
    }
    assert Chained(order) && NoneBackwards(order);
    BackwardsPermutes(order, tensors);
    ChainFound(order, tensors);
    result := Accepted(order, readSizes);
  }

  lemma ChainFound(order: seq<Tensor>, tensors: seq<Tensor>)
    requires Permutes(order, tensors) && Chained(order)
    ensures HasChain(tensors)
  {
  }

  lemma NoChain(sorted: seq<Tensor>, tensors: seq<Tensor>, i: nat)
    requires SortedBy(Before, sorted) && Permutes(sorted, tensors)
    requires i + 1 < |sorted| && sorted[i].end != sorted[i + 1].start
    ensures !(NoneBackwards(tensors) && HasChain(tensors))
  {
    forall order: seq<Tensor> | Permutes(order, tensors) && NoneBackwards(tensors) ensures !Chained(order) {
      BackwardsPermutes(tensors, order);
      if Chained(order) {
        SortFindsChain(sorted, order);
        assert false;
      }
    }
  }

  // ---------------------------------------------------------------- the requested ranges

  // FileChunks.contiguous: sizes laid out back to back from `offset`.
  method Contiguous(id: nat, path: string, offset: nat, sizes: seq<nat>) returns (f: FileChunks)
    ensures f.Valid() && f.id == id && f.path == path && f.sizes == sizes
    ensures forall i :: 0 <= i < |sizes| ==> f.offsets[i] == offset + Sum(sizes[..i])
  {
    var offsets := [];
    var running := offset;
    for k := 0 to |sizes|
      invariant |offsets| == k && running == offset + Sum(sizes[..k])
      invariant forall i :: 0 <= i < k ==> offsets[i] == offset + Sum(sizes[..i])
    {
      offsets := offsets + [running];
      running := running + sizes[k];
      assert sizes[..k + 1][..k] == sizes[..k];
    }
    f := FileChunks(id, path, offsets, sizes);
  }

  lemma {:induction false} ChainSums(order: seq<Tensor>, sizes: seq<nat>, i: nat)
    requires Chained(order) && |sizes| == |order| && i < |order|
    requires forall k :: 0 <= k < |order| ==> sizes[k] == order[k].end - order[k].start
    ensures Sum(sizes[..i]) == order[i].start - order[0].start
  {
    if i > 0 {
      ChainSums(order, sizes, i - 1);
      assert sizes[..i][..i - 1] == sizes[..i - 1];
      assert order[i - 1].end == order[i].start;
    }
  }

  // The contiguous request reads every tensor from its own place exactly when the first one starts at 0,
  // which the check does not look at.
  lemma OffsetsMatchIff(order: seq<Tensor>, sizes: seq<nat>, header: nat, f: FileChunks)
    requires Chained(order) && order != [] && |sizes| == |order|
    requires forall k :: 0 <= k < |order| ==> sizes[k] == order[k].end - order[k].start
    requires f.Valid() && f.sizes == sizes && forall i :: 0 <= i < |sizes| ==> f.offsets[i] == header + Sum(sizes[..i])
    ensures (forall i :: 0 <= i < |order| ==> f.offsets[i] == header + order[i].start) <==> order[0].start == 0
  {
    forall i: nat | i < |order| ensures f.offsets[i] == header + order[i].start - order[0].start {
      ChainSums(order, sizes, i);
    }
  }

  // A header the check accepts although its one tensor does not start at 0: the tensor is read from 8 bytes
  // before its place.
  lemma MisplacedTensor(f: FileChunks)
    requires f.Valid() && f.sizes == [8] && f.offsets[0] == 100 + Sum(f.sizes[..0])
    ensures var t := Tensor("t", 8, 16);
            NoneBackwards([t]) && HasChain([t]) && f.offsets[0] != 100 + t.start && f.offsets[0] == 100 + t.start - 8
  {
    var order := [Tensor("t", 8, 16)];
    assert Permutes(order, order) && Chained(order);
    OffsetsMatchIff(order, f.sizes, 100, f);
  }
}

// Dividing items among n ranks: heaviest first, each to the lightest rank.
module LongestFirst {
  import opened Seqs
  import opened Greedy

  function Weights<T>(s: seq<T>, weigh: T -> nat): seq<nat>
  {
    seq(|s|, i requires 0 <= i < |s| => weigh(s[i]))
  }

  // ---------------------------------------------------------------- what a division is measured by

  // `other` divides the items into n lists.
  ghost predicate Divides<T>(other: seq<seq<T>>, items: seq<T>, n: nat)
  {
    |other| == n && multiset(Flat(other)) == multiset(items)
  }

  // No list of `other` weighs more than w.
  ghost predicate Within<T>(other: seq<seq<T>>, weigh: T -> nat, w: nat)
  {
    forall r :: 0 <= r < |other| ==> WeightOf(other[r], weigh) <= w
  }

  ghost predicate EachAtMost<T>(items: seq<T>, weigh: T -> nat, w: nat)
  {
    forall i :: 0 <= i < |items| ==> weigh(items[i]) <= w
  }

  // Any two ranks differ by at most one item's weight.
  ghost predicate Even<T>(sizes: seq<nat>, items: seq<T>, weigh: T -> nat)
  {
    forall largest: nat :: EachAtMost(items, weigh, largest) ==>
      forall a, b :: 0 <= a < |sizes| && 0 <= b < |sizes| ==> sizes[a] <= sizes[b] + largest
  }

  // No rank exceeds 4/3 - 1/(3n) times the heaviest list of any division of the items.
  ghost predicate NearBest<T(!new)>(sizes: seq<nat>, items: seq<T>, weigh: T -> nat)
  {
    forall other: seq<seq<T>>, w: nat :: Divides(other, items, |sizes|) && Within(other, weigh, w) ==>
      forall r :: 0 <= r < |sizes| ==> WithinBound(|sizes|, sizes[r], w)
  }

  lemma ZeroIsFair<T(!new)>(sizes: seq<nat>, items: seq<T>, weigh: T -> nat)
    requires forall r :: 0 <= r < |sizes| ==> sizes[r] == 0
    ensures Even(sizes, items, weigh) && NearBest(sizes, items, weigh)
  {
    forall other: seq<seq<T>>, w: nat, r: nat | Divides(other, items, |sizes|) && Within(other, weigh, w) && r < |sizes|
      ensures WithinBound(|sizes|, sizes[r], w) {
      ScaleLarge(|sizes|, 0, w);
    }
  }

  // ---------------------------------------------------------------- any division is an assignment

  lemma {:induction false} FlatHas<T>(ss: seq<seq<T>>, x: T) returns (r: nat, j: nat)
    requires x in Flat(ss)
    ensures r < |ss| && j < |ss[r]| && ss[r][j] == x
  {
    var last := ss[|ss|-1];
    if x in last {
      r := |ss| - 1;
      j :| 0 <= j < |last| && last[j] == x;
    } else {
      r, j := FlatHas(ss[..|ss|-1], x);
    }
  }

  lemma {:induction false} FlatLoad<T>(ss: seq<seq<T>>, r: nat)
    requires r < |ss| && Flat(ss) == []
    ensures ss[r] == []
  {
    if r < |ss| - 1 {
      FlatLoad(ss[..|ss|-1], r);
    }
  }

  lemma {:induction false} TakeOut<T>(ss: seq<seq<T>>, r: nat, j: nat)
    requires r < |ss| && j < |ss[r]|
    ensures multiset(Flat(ss)) == multiset(Flat(ss[r := ss[r][..j] + ss[r][j + 1..]])) + multiset{ss[r][j]}
  {
    hide Flat;
    var less := ss[r := ss[r][..j] + ss[r][j + 1..]];
    RemoveOne(ss[r], j);
    FlatPut(less, r, ss[r][j]);
    var back := less[r := less[r] + [ss[r][j]]];
    FlatPermute(ss, back);
  }

  lemma LastHome<T>(other: seq<seq<T>>, items: seq<T>) returns (r: nat, j: nat)
    requires items != [] && multiset(Flat(other)) == multiset(items)
    ensures r < |other| && j < |other[r]| && other[r][j] == items[|items|-1]
  {
    hide Flat;
    assert items[|items|-1] in multiset(items);
    assert items[|items|-1] in multiset(Flat(other));
    r, j := FlatHas(other, items[|items|-1]);
  }

  lemma LastOut<T>(other: seq<seq<T>>, items: seq<T>, n: nat, r: nat, j: nat)
    requires items != [] && Divides(other, items, n) && r < |other| && j < |other[r]| && other[r][j] == items[|items|-1]
    ensures Divides(other[r := other[r][..j] + other[r][j + 1..]], items[..|items|-1], n)
  {
    hide Flat;
    var k := |items| - 1;
    TakeOut(other, r, j);
    assert items == items[..k] + [items[k]];
    assert multiset(items[..k]) == multiset(items) - multiset{items[k]};
  }

  lemma {:induction false} OwnerStep<T>(shorter: seq<nat>, items: seq<T>, weigh: T -> nat, r: nat)
    requires items != [] && |shorter| == |items| - 1
    ensures forall s: nat :: Load(shorter + [r], Weights(items, weigh), s, |items|) ==
              Load(shorter, Weights(items[..|items|-1], weigh), s, |items| - 1)
                + if s == r then weigh(items[|items|-1]) else 0
  {
    var k := |items| - 1;
    var p, q := Weights(items[..k], weigh), Weights(items, weigh);
    assert p <= q;
    forall s: nat
      ensures Load(shorter + [r], q, s, |items|) == Load(shorter, p, s, k) + if s == r then weigh(items[k]) else 0
    {
      LoadPrefix(shorter, p, shorter + [r], q, s, k);
    }
  }

  lemma {:induction false} OwnerOf<T>(other: seq<seq<T>>, items: seq<T>, weigh: T -> nat, n: nat)
    returns (owner: seq<nat>)
    requires Divides(other, items, n)
    ensures Assigns(owner, Weights(items, weigh), n)
    ensures forall r: nat :: r < n ==> Load(owner, Weights(items, weigh), r, |items|) == WeightOf(other[r], weigh)
    decreases |items|
  {
    if items == [] {
      owner := [];
      assert |Flat(other)| == |multiset(Flat(other))| == 0;
      forall r: nat | r < n ensures other[r] == [] {
        FlatLoad(other, r);
      }
    } else {
      hide Flat, WeightOf, Load;
      var k := |items| - 1;
      var r, j := LastHome(other, items);
      var less := other[r := other[r][..j] + other[r][j + 1..]];
      LastOut(other, items, n, r, j);
      WeightRemove(other[r], j, weigh);
      var shorter := OwnerOf(less, items[..k], weigh, n);
      owner := shorter + [r];
      OwnerStep(shorter, items, weigh, r);
      forall s: nat | s < n ensures Load(owner, Weights(items, weigh), s, |items|) == WeightOf(other[s], weigh) {
        assert s != r ==> less[s] == other[s];
      }
    }
  }

  // ---------------------------------------------------------------- the greedy loop

  // partition_sizes.index(min(partition_sizes))
  method IndexOfMin(s: seq<nat>) returns (m: nat)
    requires |s| > 0
    ensures m < |s|
    ensures forall i :: 0 <= i < |s| ==> s[m] <= s[i]
    ensures forall i :: 0 <= i < m ==> s[m] < s[i]
  {
    m := 0;
    for i := 1 to |s|
      invariant m < i
      invariant forall j :: 0 <= j < i ==> s[m] <= s[j]
      invariant forall j :: 0 <= j < m ==> s[m] < s[j]
    {
      if s[i] < s[m] {
        m := i;
      }
    }
  }

  // The state of the loop after k items: what the lists hold, and which rank each item went to.
  ghost predicate Dealt<T>(items: seq<T>, weigh: T -> nat, n: nat, k: nat, parts: seq<seq<T>>, sizes: seq<nat>,
                           owner: seq<nat>)
  {
    && k <= |items| && |parts| == |sizes| == n && |owner| == k
    && multiset(Flat(parts)) == multiset(items[..k])
    && IsGreedy(owner, Weights(items[..k], weigh), n)
    && (forall r: nat :: r < n ==> sizes[r] == Load(owner, Weights(items[..k], weigh), r, k))
    && (forall r: nat :: r < n ==> sizes[r] == WeightOf(parts[r], weigh))
  }

  lemma DealtStep<T>(items: seq<T>, weigh: T -> nat, n: nat, k: nat, parts: seq<seq<T>>, sizes: seq<nat>,
                     owner: seq<nat>, m: nat)
    requires Dealt(items, weigh, n, k, parts, sizes, owner) && k < |items| && m < n
    requires forall i :: 0 <= i < n ==> sizes[m] <= sizes[i]
    ensures Dealt(items, weigh, n, k + 1, parts[m := parts[m] + [items[k]]], sizes[m := sizes[m] + weigh(items[k])],
        owner + [m])
  {
    hide Flat, Load, WeightOf, IsGreedy;
    assert items[..k + 1] == items[..k] + [items[k]];
    FlatPut(parts, m, items[k]);
    WeightSnoc(parts[m], items[k], weigh);
    assert Weights(items[..k + 1], weigh) == Weights(items[..k], weigh) + [weigh(items[k])];
    GreedyStep(owner, Weights(items[..k], weigh), weigh(items[k]), n, m);
  }

  method Deal<T>(items: seq<T>, weigh: T -> nat, n: nat)
    returns (parts: seq<seq<T>>, sizes: seq<nat>, ghost owner: seq<nat>)
    requires n > 0
    ensures Dealt(items, weigh, n, |items|, parts, sizes, owner)
    ensures Divides(parts, items, n) && |sizes| == n
    ensures forall r :: 0 <= r < n ==> sizes[r] == WeightOf(parts[r], weigh)
  {
    parts := seq(n, i => []);
    sizes := seq(n, i => 0);
    owner := [];
    FlatEmpty(parts);
    for k := 0 to |items|
      invariant Dealt(items, weigh, n, k, parts, sizes, owner)
    {
      var m := IndexOfMin(sizes);
      DealtStep(items, weigh, n, k, parts, sizes, owner, m);
      parts := parts[m := parts[m] + [items[k]]];
      sizes := sizes[m := sizes[m] + weigh(items[k])];
      owner := owner + [m];
    }
    assert items[..|items|] == items;
  }

  // Sort heaviest first (equal weights keep their order), then deal each to the lightest rank.
  method Divide<T(!new)>(items: seq<T>, weigh: T -> nat, n: nat) returns (parts: seq<seq<T>>, sizes: seq<nat>)
    requires n > 0
    ensures Divides(parts, items, n) && |sizes| == n
    ensures forall r :: 0 <= r < n ==> sizes[r] == WeightOf(parts[r], weigh)
    ensures Even(sizes, items, weigh) && NearBest(sizes, items, weigh)
  {
    var heavier := (a: T, b: T) => weigh(a) >= weigh(b);
    var sorted := Sort(heavier, items);
    SortSorts(heavier, items);
    ghost var owner;
    parts, sizes, owner := Deal(sorted, weigh, n);
    assert sorted[..|sorted|] == sorted;
    DealtIsEven(items, sorted, weigh, n, parts, sizes, owner);
    DealtIsNearBest(items, sorted, weigh, n, parts, sizes, owner);
  }

  lemma DealtIsEven<T>(items: seq<T>, sorted: seq<T>, weigh: T -> nat, n: nat, parts: seq<seq<T>>, sizes: seq<nat>,
                       owner: seq<nat>)
    requires Dealt(sorted, weigh, n, |sorted|, parts, sizes, owner) && multiset(sorted) == multiset(items)
    ensures Even(sizes, items, weigh)
  {
    hide Load, Flat, WeightOf, IsGreedy;
    assert sorted[..|sorted|] == sorted;
    var p := Weights(sorted, weigh);
    forall largest: nat, a: nat, b: nat | EachAtMost(items, weigh, largest) && a < n && b < n
      ensures sizes[a] <= sizes[b] + largest {
      forall i | 0 <= i < |p| ensures p[i] <= largest {
        assert sorted[i] in multiset(sorted);
        assert sorted[i] in multiset(items);
      }
      Balanced(owner, p, n, |p|, largest, a, b);
    }
  }

  lemma DealtIsNearBest<T(!new)>(items: seq<T>, sorted: seq<T>, weigh: T -> nat, n: nat, parts: seq<seq<T>>,
                          sizes: seq<nat>, owner: seq<nat>)
    requires Dealt(sorted, weigh, n, |sorted|, parts, sizes, owner) && multiset(sorted) == multiset(items)
    requires SortedBy((a: T, b: T) => weigh(a) >= weigh(b), sorted)
    ensures NearBest(sizes, items, weigh)
  {
    hide Load, Flat, WeightOf, IsGreedy;
    assert sorted[..|sorted|] == sorted;
    var p := Weights(sorted, weigh);
    assert Descending(p);
    forall other: seq<seq<T>>, w: nat, r: nat | Divides(other, items, n) && Within(other, weigh, w) && r < n
      ensures WithinBound(n, sizes[r], w) {
      var opt := OwnerOf(other, sorted, weigh, n);
      WithinFourThirds(owner, opt, p, n, w, r, |p|);
    }
  }
}

// Longest-processing-time-first assignment and how far it is from the best one.
module Greedy {
  import opened Seqs

  // Rank r's load from the first k items, when item i goes to owner[i].
  function Load(owner: seq<nat>, p: seq<nat>, r: nat, k: nat): nat
    requires k <= |owner| && k <= |p|
  {
    if k == 0 then 0 else Load(owner, p, r, k - 1) + if owner[k-1] == r then p[k-1] else 0
  }

  ghost predicate Assigns(owner: seq<nat>, p: seq<nat>, n: nat)
  {
    |owner| == |p| && forall i :: 0 <= i < |owner| ==> owner[i] < n
  }

  // Each item went to a rank that was lightest at the time.
  ghost predicate IsGreedy(owner: seq<nat>, p: seq<nat>, n: nat)
  {
    && Assigns(owner, p, n)
    && forall k :: 0 <= k < |p| ==> Lightest(owner, p, n, k, owner[k])
  }

  ghost predicate Lightest(owner: seq<nat>, p: seq<nat>, n: nat, k: nat, r: nat)
    requires k <= |owner| && k <= |p|
  {
    forall other :: 0 <= other < n ==> Load(owner, p, r, k) <= Load(owner, p, other, k)
  }

  ghost predicate Descending(p: seq<nat>)
  {
    forall i, j :: 0 <= i < j < |p| ==> p[j] <= p[i]
  }

  // ---------------------------------------------------------------- sums over ranks

  ghost function Total(n: nat, f: nat -> int): int
  {
    if n == 0 then 0 else Total(n - 1, f) + f(n - 1)
  }

  lemma {:induction false} TotalStep(n: nat, f: nat -> int, g: nat -> int, r: nat, x: int)
    requires r < n && forall i :: 0 <= i < n ==> g(i) == f(i) + if i == r then x else 0
    ensures Total(n, g) == Total(n, f) + x
  {
    if r == n - 1 {
      TotalSame(n - 1, f, g);
    } else {
      TotalStep(n - 1, f, g, r, x);
    }
  }

  lemma {:induction false} TotalSame(n: nat, f: nat -> int, g: nat -> int)
    requires forall i :: 0 <= i < n ==> g(i) == f(i)
    ensures Total(n, g) == Total(n, f)
  {
    if n > 0 {
      TotalSame(n - 1, f, g);
    }
  }

  lemma {:induction false} TotalAdd(n: nat, f: nat -> int, g: nat -> int, h: nat -> int)
    requires forall i :: 0 <= i < n ==> h(i) == f(i) + g(i)
    ensures Total(n, h) == Total(n, f) + Total(n, g)
  {
    if n > 0 {
      TotalAdd(n - 1, f, g, h);
    }
  }

  lemma {:induction false} TotalZero(n: nat, f: nat -> int)
    requires forall i :: 0 <= i < n ==> f(i) == 0
    ensures Total(n, f) == 0
  {
    if n > 0 {
      TotalZero(n - 1, f);
    }
  }

  // Generalised load: item i weighs w[i]. Summed over the ranks it is the weight of the items.
  lemma {:induction false} LoadsAddUp(owner: seq<nat>, w: seq<nat>, n: nat, k: nat)
    requires k <= |owner| && k <= |w| && forall i :: 0 <= i < |owner| ==> owner[i] < n
    ensures Total(n, (r: nat) => LoadOr0(owner, w, r, k)) == Sum(w[..k])
  {
    if k == 0 {
      TotalZero(n, (r: nat) => LoadOr0(owner, w, r, k));
    } else {
      LoadsAddUp(owner, w, n, k - 1);
      TotalStep(n, (r: nat) => LoadOr0(owner, w, r, k - 1), (r: nat) => LoadOr0(owner, w, r, k),
                owner[k-1], w[k-1]);
      assert w[..k] == w[..k-1] + [w[k-1]];
      SumSnoc(w[..k-1], w[k-1]);
    }
  }

  ghost function LoadOr0(owner: seq<nat>, w: seq<nat>, r: nat, k: nat): int
  {
    if k <= |owner| && k <= |w| then Load(owner, w, r, k) else 0
  }

  lemma {:induction false} LoadPrefix(owner: seq<nat>, p: seq<nat>, owner': seq<nat>, p': seq<nat>, r: nat, k: nat)
    requires k <= |owner| && k <= |p| && owner <= owner' && p <= p'
    ensures Load(owner', p', r, k) == Load(owner, p, r, k)
  {
    if k > 0 {
      LoadPrefix(owner, p, owner', p', r, k - 1);
    }
  }

  // Giving the next item to a lightest rank keeps the assignment greedy.
  lemma {:induction false} GreedyStep(owner: seq<nat>, p: seq<nat>, x: nat, n: nat, m: nat)
    requires IsGreedy(owner, p, n) && m < n
    requires forall r: nat :: r < n ==> Load(owner, p, m, |p|) <= Load(owner, p, r, |p|)
    ensures IsGreedy(owner + [m], p + [x], n)
    ensures forall r: nat :: Load(owner + [m], p + [x], r, |p| + 1) == Load(owner, p, r, |p|) + if r == m then x else 0
  {
    var owner', p' := owner + [m], p + [x];
    forall j: nat | j < |p'| ensures Lightest(owner', p', n, j, owner'[j]) {
      forall r: nat | r < n ensures Load(owner', p', owner'[j], j) <= Load(owner', p', r, j) {
        LoadPrefix(owner, p, owner', p', owner'[j], j);
        LoadPrefix(owner, p, owner', p', r, j);
        assert j < |p| ==> Lightest(owner, p, n, j, owner[j]);
      }
    }
    forall r: nat ensures Load(owner', p', r, |p| + 1) == Load(owner, p, r, |p|) + if r == m then x else 0 {
      LoadPrefix(owner, p, owner', p', r, |p|);
    }
  }

  // ---------------------------------------------------------------- balance

  // At any time two ranks differ by at most the largest item.
  lemma {:induction false} Balanced(owner: seq<nat>, p: seq<nat>, n: nat, k: nat, largest: nat, a: nat, b: nat)
    requires IsGreedy(owner, p, n) && k <= |p| && a < n && b < n
    requires forall i :: 0 <= i < |p| ==> p[i] <= largest
    ensures Load(owner, p, a, k) <= Load(owner, p, b, k) + largest
  {
    if k > 0 {
      Balanced(owner, p, n, k - 1, largest, a, b);
      assert Lightest(owner, p, n, k - 1, owner[k-1]);
    }
  }

  // ---------------------------------------------------------------- the 4/3 - 1/(3n) bound

  // Number of the first k items on rank r; number of those that do not fit beside an item of size x.
  function Count(owner: seq<nat>, r: nat, k: nat): nat
    requires k <= |owner|
  {
    if k == 0 then 0 else Count(owner, r, k - 1) + if owner[k-1] == r then 1 else 0
  }

  function BigOf(p: seq<nat>, x: nat, w: nat): seq<nat>
  {
    seq(|p|, i requires 0 <= i < |p| => if p[i] + x > w then 1 else 0)
  }

  lemma {:induction false} LoadGrows(owner: seq<nat>, p: seq<nat>, r: nat, k: nat, m: nat)
    requires k <= m <= |owner| && m <= |p|
    ensures Load(owner, p, r, k) <= Load(owner, p, r, m)
    decreases m
  {
    if k < m {
      LoadGrows(owner, p, r, k, m - 1);
    }
  }

  lemma {:induction false} LoadAtLeast(owner: seq<nat>, p: seq<nat>, r: nat, k: nat, x: nat)
    requires k <= |owner| && k <= |p| && forall i :: 0 <= i < k ==> x <= p[i]
    ensures Load(owner, p, r, k) >= x * Count(owner, r, k)
  {
    if k > 0 {
      LoadAtLeast(owner, p, r, k - 1, x);
    }
  }

  // In any assignment of makespan w, a rank holds at most two items larger than w/3, and an item that
  // does not fit beside the smallest one is alone.
  lemma {:induction false} RankFull(opt: seq<nat>, p: seq<nat>, r: nat, k: nat, x: nat, w: nat)
    requires k <= |opt| && |opt| == |p| && x * 3 > w && forall i :: 0 <= i < k ==> x <= p[i]
    requires Load(opt, p, r, k) <= w
    ensures Count(opt, r, k) + Load(opt, BigOf(p, x, w), r, k) <= 2
    ensures Load(opt, BigOf(p, x, w), r, k) <= Count(opt, r, k)
    ensures Load(opt, BigOf(p, x, w), r, k) >= 1 ==> Load(opt, p, r, k) + x > w
  {
    if k > 0 {
      LoadGrows(opt, p, r, k - 1, k);
      RankFull(opt, p, r, k - 1, x, w);
      LoadAtLeast(opt, p, r, k - 1, x);
      LoadAtLeast(opt, p, r, k, x);
      assert BigOf(p, x, w)[k-1] == if p[k-1] + x > w then 1 else 0;
    }
  }

  // Where the next item of size x overflows every rank, a rank holds two items, or one item too big to
  // take it.
  lemma {:induction false} RankOver(owner: seq<nat>, p: seq<nat>, r: nat, k: nat, x: nat, w: nat)
    requires k <= |owner| && |owner| == |p|
    ensures Count(owner, r, k) == 0 ==> Load(owner, p, r, k) == 0
    ensures Count(owner, r, k) == 1 ==>
              Load(owner, BigOf(p, x, w), r, k) == if Load(owner, p, r, k) + x > w then 1 else 0
  {
    if k > 0 {
      RankOver(owner, p, r, k - 1, x, w);
      if owner[k-1] == r && Count(owner, r, k) == 1 {
        NoneYet(owner, BigOf(p, x, w), r, k - 1);
      }
    }
  }

  lemma {:induction false} NoneYet(owner: seq<nat>, p: seq<nat>, r: nat, k: nat)
    requires k <= |owner| && k <= |p| && Count(owner, r, k) == 0
    ensures Load(owner, p, r, k) == 0
  {
    if k > 0 {
      NoneYet(owner, p, r, k - 1);
    }
  }

  function Ones(k: nat): seq<nat> { seq(k, i => 1) }

  lemma {:induction false} CountIsLoad(owner: seq<nat>, r: nat, k: nat)
    requires k <= |owner|
    ensures Count(owner, r, k) == Load(owner, Ones(|owner|), r, k)
  {
    if k > 0 {
      CountIsLoad(owner, r, k - 1);
    }
  }

  lemma {:induction false} SumOnes(k: nat)
    ensures Sum(Ones(k)) == k
  {
    if k > 0 {
      assert Ones(k)[..k-1] == Ones(k - 1);
      SumOnes(k - 1);
    }
  }

  // Items and oversized items, counted rank by rank.
  lemma {:induction false} CountsAddUp(owner: seq<nat>, p: seq<nat>, n: nat, k: nat, m: nat, x: nat, w: nat)
    requires Assigns(owner, p, n) && k <= |p| && m <= |p|
    ensures Total(n, (r: nat) => LoadOr0(owner, Ones(|p|), r, k) + LoadOr0(owner, BigOf(p, x, w), r, m)) ==
            k + Sum(BigOf(p, x, w)[..m])
  {
    LoadsAddUp(owner, Ones(|p|), n, k);
    LoadsAddUp(owner, BigOf(p, x, w), n, m);
    assert Ones(|p|)[..k] == Ones(k);
    SumOnes(k);
    TotalAdd(n, (r: nat) => LoadOr0(owner, Ones(|p|), r, k), (r: nat) => LoadOr0(owner, BigOf(p, x, w), r, m),
             (r: nat) => LoadOr0(owner, Ones(|p|), r, k) + LoadOr0(owner, BigOf(p, x, w), r, m));
  }

  // The best assignment has room for at most 2n items, an oversized one taking two places.
  lemma {:induction false} PlacesInBest(opt: seq<nat>, p: seq<nat>, n: nat, w: nat, k: nat)
    requires Assigns(opt, p, n) && Descending(p) && k < |p| && p[k] * 3 > w
    requires forall r :: 0 <= r < n ==> Load(opt, p, r, |p|) <= w
    ensures k + 1 + Sum(BigOf(p, p[k], w)[..k]) <= 2 * n
  {
    var x := p[k];
    var f := (r: nat) => LoadOr0(opt, Ones(|p|), r, k + 1) + LoadOr0(opt, BigOf(p, x, w), r, k);
    forall r | 0 <= r < n ensures f(r) <= 2 {
      LoadGrows(opt, p, r, k + 1, |p|);
      RankFull(opt, p, r, k + 1, x, w);
      LoadGrows(opt, BigOf(p, x, w), r, k, k + 1);
      CountIsLoad(opt, r, k + 1);
    }
    TotalAtMost(n, f, 2);
    CountsAddUp(opt, p, n, k + 1, k, x, w);
  }

  // If the item overflows every rank, the greedy assignment has used all 2n places already.
  lemma {:induction false} PlacesUsed(owner: seq<nat>, p: seq<nat>, n: nat, w: nat, k: nat)
    requires Assigns(owner, p, n) && k < |p| && p[k] <= w
    requires forall r :: 0 <= r < n ==> Load(owner, p, r, k) + p[k] > w
    ensures 2 * n <= k + Sum(BigOf(p, p[k], w)[..k])
  {
    var x := p[k];
    var g := (r: nat) => LoadOr0(owner, Ones(|p|), r, k) + LoadOr0(owner, BigOf(p, x, w), r, k);
    forall r | 0 <= r < n ensures 2 <= g(r) {
      RankOver(owner, p, r, k, x, w);
      CountIsLoad(owner, r, k);
    }
    TotalAtLeast(n, g, 2);
    CountsAddUp(owner, p, n, k, k, x, w);
  }

  // A large item never overflows the best makespan when it is placed: some rank still has room for it.
  lemma {:induction false} LargeItemFits(owner: seq<nat>, opt: seq<nat>, p: seq<nat>, n: nat, w: nat, k: nat)
    requires IsGreedy(owner, p, n) && Assigns(opt, p, n) && Descending(p) && k < |p|
    requires forall r :: 0 <= r < n ==> Load(opt, p, r, |p|) <= w
    requires p[k] * 3 > w
    ensures Load(owner, p, owner[k], k) + p[k] <= w
  {
    LoadGrows(opt, p, opt[k], k + 1, |p|);
    PlacesInBest(opt, p, n, w, k);
    if forall r :: 0 <= r < n ==> Load(owner, p, r, k) + p[k] > w {
      PlacesUsed(owner, p, n, w, k);
      assert false;
    }
    assert Lightest(owner, p, n, k, owner[k]);
  }

  lemma {:induction false} TotalAtMost(n: nat, f: nat -> int, hi: int)
    requires forall r :: 0 <= r < n ==> f(r) <= hi
    ensures Total(n, f) <= n * hi
  {
    if n > 0 {
      TotalAtMost(n - 1, f, hi);
    }
  }

  lemma {:induction false} TotalAtLeast(n: nat, f: nat -> int, lo: int)
    requires forall r :: 0 <= r < n ==> lo <= f(r)
    ensures n * lo <= Total(n, f)
  {
    if n > 0 {
      TotalAtLeast(n - 1, f, lo);
    }
  }

  // What all ranks hold, if each holds at least a; what they can hold, if none holds more than w.
  lemma {:induction false} SumAtLeast(owner: seq<nat>, p: seq<nat>, n: nat, k: nat, a: nat)
    requires Assigns(owner, p, n) && k <= |p| && forall r: nat :: r < n ==> a <= Load(owner, p, r, k)
    ensures n * a <= Sum(p[..k])
  {
    LoadsAddUp(owner, p, n, k);
    TotalAtLeast(n, (r: nat) => LoadOr0(owner, p, r, k), a);
  }

  lemma {:induction false} SumAtMost(opt: seq<nat>, p: seq<nat>, n: nat, k: nat, w: nat)
    requires Assigns(opt, p, n) && k <= |p| && forall r: nat :: r < n ==> Load(opt, p, r, |p|) <= w
    ensures Sum(p[..k]) <= n * w
  {
    LoadsAddUp(opt, p, n, k);
    var f := (r: nat) => LoadOr0(opt, p, r, k);
    forall r: nat | r < n ensures f(r) <= w {
      LoadGrows(opt, p, r, k, |p|);
    }
    TotalAtMost(n, f, w);
  }

  // The load a rank had when it got its last item is an n-th of what was placed before, at most.
  lemma {:induction false} AverageBound(owner: seq<nat>, opt: seq<nat>, p: seq<nat>, n: nat, w: nat, k: nat)
    requires IsGreedy(owner, p, n) && Assigns(opt, p, n) && k < |p|
    requires forall r :: 0 <= r < n ==> Load(opt, p, r, |p|) <= w
    ensures n * Load(owner, p, owner[k], k) + p[k] <= n * w
  {
    assert Lightest(owner, p, n, k, owner[k]);
    SumAtLeast(owner, p, n, k, Load(owner, p, owner[k], k));
    SumAtMost(opt, p, n, k + 1, w);
    assert p[..k + 1] == p[..k] + [p[k]];
    SumSnoc(p[..k], p[k]);
  }

  // load <= (4/3 - 1/(3n)) * w, without fractions
  ghost predicate WithinBound(n: nat, load: nat, w: nat) { 3 * n * load <= (4 * n - 1) * w }

  // Graham's bound: no rank ends above (4/3 - 1/(3n)) times the makespan of any assignment at all.
  lemma {:induction false} WithinFourThirds(owner: seq<nat>, opt: seq<nat>, p: seq<nat>, n: nat, w: nat, r: nat, k: nat)
    requires IsGreedy(owner, p, n) && Assigns(opt, p, n) && Descending(p) && r < n && k <= |p|
    requires forall q :: 0 <= q < n ==> Load(opt, p, q, |p|) <= w
    ensures WithinBound(n, Load(owner, p, r, k), w)
    decreases k
  {
    hide WithinBound;
    if k == 0 {
      ScaleLarge(n, 0, w);
    } else {
      hide IsGreedy, Descending, Assigns;
      if owner[k-1] != r {
        WithinFourThirds(owner, opt, p, n, w, r, k - 1);
      } else {
        var l, x := Load(owner, p, r, k - 1), p[k-1];
        if 3 * x > w {
          LargeItemFits(owner, opt, p, n, w, k - 1);
          ScaleLarge(n, l + x, w);
        } else {
          AverageBound(owner, opt, p, n, w, k - 1);
          ScaleSmall(n, l, x, w);
        }
      }
    }
  }

  lemma ScaleLarge(n: nat, a: nat, w: nat)
    requires n >= 1 && a <= w
    ensures WithinBound(n, a, w)
  {
    assert 3 * n * a <= 3 * n * w;
    assert (4 * n - 1) * w == 3 * n * w + (n - 1) * w;
  }

  lemma ScaleSmall(n: nat, l: nat, x: nat, w: nat)
    requires n >= 1 && n * l + x <= n * w && 3 * x <= w
    ensures WithinBound(n, l + x, w)
  {
    assert 3 * n * (l + x) == 3 * (n * l + x) + (n - 1) * (3 * x);
    assert (n - 1) * (3 * x) <= (n - 1) * w;
    assert (4 * n - 1) * w == 3 * (n * w) + (n - 1) * w;
  }
}

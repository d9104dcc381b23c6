// Sequence helpers: sums, concatenation of lists of lists, and a stable sort.
module Seqs {

  function Sum(s: seq<nat>): nat
  {
    if s == [] then 0 else Sum(s[..|s|-1]) + s[|s|-1]
  }

  lemma {:induction false} SumSnoc(s: seq<nat>, x: nat)
    ensures Sum(s + [x]) == Sum(s) + x
  {
    assert (s + [x])[..|s|] == s;
  }

  lemma {:induction false} SumAppend(a: seq<nat>, b: seq<nat>)
    ensures Sum(a + b) == Sum(a) + Sum(b)
  {
    if b == [] {
      assert a + b == a;
    } else {
      assert (a + b)[..|a + b| - 1] == a + b[..|b|-1];
      SumAppend(a, b[..|b|-1]);
    }
  }

  // Concatenation of a list of lists.
  function Flat<T>(ss: seq<seq<T>>): seq<T>
  {
    if ss == [] then [] else Flat(ss[..|ss|-1]) + ss[|ss|-1]
  }

  lemma {:induction false} FlatSnoc<T>(ss: seq<seq<T>>, s: seq<T>)
    ensures Flat(ss + [s]) == Flat(ss) + s
  {
    assert (ss + [s])[..|ss|] == ss;
  }

  // Adding one element to one of the lists adds it to the whole.
  lemma {:induction false} FlatPut<T>(ss: seq<seq<T>>, i: nat, x: T)
    requires i < |ss|
    ensures multiset(Flat(ss[i := ss[i] + [x]])) == multiset(Flat(ss)) + multiset{x}
  {
    var tt := ss[i := ss[i] + [x]];
    if i == |ss| - 1 {
      assert tt[..|tt|-1] == ss[..|ss|-1];
    } else {
      FlatPut(ss[..|ss|-1], i, x);
      assert tt[..|tt|-1] == ss[..|ss|-1][i := ss[i] + [x]];
    }
  }

  // Adding to the last list that is not empty, or after it, appends to the whole.
  lemma {:induction false} FlatPutLast<T>(ss: seq<seq<T>>, i: nat, x: T)
    requires i < |ss| && forall j :: i < j < |ss| ==> ss[j] == []
    ensures Flat(ss[i := ss[i] + [x]]) == Flat(ss) + [x]
  {
    var tt := ss[i := ss[i] + [x]];
    if i == |ss| - 1 {
      assert tt[..|tt|-1] == ss[..|ss|-1];
    } else {
      FlatPutLast(ss[..|ss|-1], i, x);
      assert tt[..|tt|-1] == ss[..|ss|-1][i := ss[i] + [x]];
    }
  }

  lemma {:induction false} FlatEmpty<T>(ss: seq<seq<T>>)
    requires forall i :: 0 <= i < |ss| ==> ss[i] == []
    ensures Flat(ss) == []
  {
    if ss != [] {
      FlatEmpty(ss[..|ss|-1]);
    }
  }

  lemma {:induction false} FlatMember<T>(ss: seq<seq<T>>, i: nat, j: nat)
    requires i < |ss| && j < |ss[i]|
    ensures ss[i][j] in Flat(ss)
  {
    if i < |ss| - 1 {
      FlatMember(ss[..|ss|-1], i, j);
    }
  }

  // Replacing each list by a permutation of itself permutes the whole.
  lemma {:induction false} FlatPermute<T>(ss: seq<seq<T>>, tt: seq<seq<T>>)
    requires |ss| == |tt| && forall i :: 0 <= i < |ss| ==> multiset(ss[i]) == multiset(tt[i])
    ensures multiset(Flat(ss)) == multiset(Flat(tt))
  {
    if ss != [] {
      FlatPermute(ss[..|ss|-1], tt[..|tt|-1]);
    }
  }

  // ---------------------------------------------------------------- weights

  function WeightOf<T>(s: seq<T>, weigh: T -> nat): nat
  {
    if s == [] then 0 else WeightOf(s[..|s|-1], weigh) + weigh(s[|s|-1])
  }

  lemma {:induction false} WeightSnoc<T>(s: seq<T>, x: T, weigh: T -> nat)
    ensures WeightOf(s + [x], weigh) == WeightOf(s, weigh) + weigh(x)
  {
    assert (s + [x])[..|s|] == s;
  }

  lemma {:induction false} WeightAppend<T>(s: seq<T>, t: seq<T>, weigh: T -> nat)
    ensures WeightOf(s + t, weigh) == WeightOf(s, weigh) + WeightOf(t, weigh)
  {
    if t == [] {
      assert s + t == s;
    } else {
      assert (s + t)[..|s + t| - 1] == s + t[..|t|-1];
      WeightAppend(s, t[..|t|-1], weigh);
    }
  }

  lemma {:induction false} WeightRemove<T>(s: seq<T>, i: nat, weigh: T -> nat)
    requires i < |s|
    ensures WeightOf(s, weigh) == WeightOf(s[..i] + s[i + 1..], weigh) + weigh(s[i])
  {
    var rest := s[..i] + s[i + 1..];
    if i == |s| - 1 {
      assert rest == s[..i];
    } else {
      var front := s[..|s|-1];
      assert rest[..|rest|-1] == front[..i] + front[i + 1..];
      WeightRemove(front, i, weigh);
    }
  }

  lemma RemoveOne<T>(s: seq<T>, i: nat)
    requires i < |s|
    ensures multiset(s[..i] + s[i + 1..]) == multiset(s) - multiset{s[i]}
    ensures multiset(s) == multiset(s[..i] + s[i + 1..]) + multiset{s[i]}
  {
    assert s == s[..i] + ([s[i]] + s[i + 1..]);
  }

  // A permutation weighs the same.
  lemma {:induction false} WeightPermute<T>(s: seq<T>, t: seq<T>, weigh: T -> nat)
    requires multiset(s) == multiset(t)
    ensures WeightOf(s, weigh) == WeightOf(t, weigh)
  {
    assert |s| == |multiset(s)| == |multiset(t)| == |t|;
    if s != [] {
      var x := s[|s|-1];
      RemoveOne(s, |s| - 1);
      assert s[..|s|-1] + s[|s|..] == s[..|s|-1];
      assert x in multiset(t);
      var i :| 0 <= i < |t| && t[i] == x;
      RemoveOne(t, i);
      WeightRemove(t, i, weigh);
      WeightPermute(s[..|s|-1], t[..i] + t[i + 1..], weigh);
    }
  }

  lemma {:induction false} WeightUpdate<T>(s: seq<T>, i: nat, x: T, weigh: T -> nat)
    requires i < |s|
    ensures WeightOf(s[i := x], weigh) + weigh(s[i]) == WeightOf(s, weigh) + weigh(x)
  {
    var t := s[i := x];
    if i == |s| - 1 {
      assert t[..|s|-1] == s[..|s|-1];
    } else {
      WeightUpdate(s[..|s|-1], i, x, weigh);
      assert t[..|s|-1] == s[..|s|-1][i := x];
    }
  }

  // One element's weight is part of the whole.
  lemma {:induction false} WeightMember<T>(s: seq<T>, i: nat, weigh: T -> nat)
    requires i < |s|
    ensures WeightOf(s, weigh) >= weigh(s[i])
  {
    if i < |s| - 1 {
      WeightMember(s[..|s|-1], i, weigh);
    }
  }

  lemma {:induction false} WeightLess<T>(s: seq<T>, f: T -> nat, g: T -> nat)
    requires forall i :: 0 <= i < |s| ==> f(s[i]) <= g(s[i])
    ensures WeightOf(s, f) <= WeightOf(s, g)
  {
    if s != [] {
      WeightLess(s[..|s|-1], f, g);
    }
  }

  lemma {:induction false} TwicePlaced<T>(s: seq<T>, x: T) returns (k: nat, l: nat)
    requires multiset(s)[x] >= 2
    ensures k < l < |s| && s[k] == x && s[l] == x
  {
    var last := |s| - 1;
    assert s == s[..last] + [s[last]];
    if s[last] == x {
      assert x in s[..last];
      k :| 0 <= k < last && s[k] == x;
      l := last;
    } else {
      k, l := TwicePlaced(s[..last], x);
    }
  }

  lemma TwoOccurrences<T>(s: seq<T>, a: nat, b: nat)
    requires a < b < |s| && s[a] == s[b]
    ensures multiset(s)[s[a]] >= 2
  {
    assert s == s[..b] + ([s[b]] + s[b + 1..]);
    assert s[a] in s[..b];
  }

  // ---------------------------------------------------------------- mapping

  function Map<T, U>(f: T -> U, s: seq<T>): seq<U>
  {
    seq(|s|, i requires 0 <= i < |s| => f(s[i]))
  }

  lemma MapAppend<T, U>(f: T -> U, a: seq<T>, b: seq<T>)
    ensures Map(f, a + b) == Map(f, a) + Map(f, b)
  {
  }

  lemma MapRemove<T, U>(f: T -> U, s: seq<T>, i: nat)
    requires i < |s|
    ensures multiset(Map(f, s)) == multiset(Map(f, s[..i] + s[i + 1..])) + multiset{f(s[i])}
  {
    var rest := s[..i] + s[i + 1..];
    assert Map(f, s) == Map(f, s[..i]) + ([f(s[i])] + Map(f, s[i + 1..]));
    assert Map(f, rest) == Map(f, s[..i]) + Map(f, s[i + 1..]);
  }

  // A permutation maps to a permutation.
  lemma {:induction false} MapPermute<T, U>(f: T -> U, a: seq<T>, b: seq<T>)
    requires multiset(a) == multiset(b)
    ensures multiset(Map(f, a)) == multiset(Map(f, b))
  {
    assert |a| == |multiset(a)| == |multiset(b)| == |b|;
    if a != [] {
      var k := |a| - 1;
      assert a == a[..k] + [a[k]];
      assert a[k] in multiset(b);
      var i :| 0 <= i < |b| && b[i] == a[k];
      RemoveOne(b, i);
      RemoveOne(a, k);
      assert a[..k] + a[k + 1..] == a[..k];
      hide Map;
      MapRemove(f, a, k);
      MapRemove(f, b, i);
      MapPermute(f, a[..k], b[..i] + b[i + 1..]);
    }
  }

  // ---------------------------------------------------------------- sorting, as list.sort does it

  ghost predicate TotalPreorder<T(!new)>(le: (T, T) -> bool)
  {
    && (forall a, b :: le(a, b) || le(b, a))
    && (forall a, b, c :: le(a, b) && le(b, c) ==> le(a, c))
  }

  ghost predicate SortedBy<T>(le: (T, T) -> bool, s: seq<T>)
  {
    forall i, j :: 0 <= i < j < |s| ==> le(s[i], s[j])
  }

  // Inserted after everything not greater than it, so equal elements keep their order.
  function Insert<T>(le: (T, T) -> bool, s: seq<T>, x: T): seq<T>
  {
    if s == [] || le(s[|s|-1], x) then s + [x]
    else Insert(le, s[..|s|-1], x) + [s[|s|-1]]
  }

  function Sort<T>(le: (T, T) -> bool, s: seq<T>): seq<T>
  {
    if s == [] then [] else Insert(le, Sort(le, s[..|s|-1]), s[|s|-1])
  }

  lemma FromFront<T>(s: seq<T>, y: T)
    requires s != [] && y in multiset(s[..|s|-1])
    ensures exists j :: 0 <= j < |s| - 1 && s[j] == y
  {
    assert y in s[..|s|-1];
  }

  lemma SnocSorted<T>(le: (T, T) -> bool, s: seq<T>, x: T)
    requires SortedBy(le, s)
    requires forall i :: 0 <= i < |s| ==> le(s[i], x)
    ensures SortedBy(le, s + [x])
  {
  }

  lemma {:induction false} InsertSorted<T(!new)>(le: (T, T) -> bool, s: seq<T>, x: T)
    requires TotalPreorder(le) && SortedBy(le, s)
    ensures SortedBy(le, Insert(le, s, x))
    ensures multiset(Insert(le, s, x)) == multiset(s) + multiset{x}
  {
    if s != [] && !le(s[|s|-1], x) {
      var front, last := s[..|s|-1], s[|s|-1];
      assert s == front + [last];
      InsertSorted(le, front, x);
      var r := Insert(le, front, x);
      hide Insert;
      forall i | 0 <= i < |r| ensures le(r[i], last) {
        assert r[i] in multiset(r);
        if r[i] != x {
          FromFront(s, r[i]);
        }
      }
      SnocSorted(le, r, last);
    } else {
      SnocSorted(le, s, x);
    }
  }

  lemma {:induction false} SortSorts<T(!new)>(le: (T, T) -> bool, s: seq<T>)
    requires TotalPreorder(le)
    ensures SortedBy(le, Sort(le, s))
    ensures multiset(Sort(le, s)) == multiset(s)
    ensures |Sort(le, s)| == |s|
  {
    assert s == [] ==> SortedBy(le, Sort(le, s));
    hide SortedBy, Insert, TotalPreorder;
    if s != [] {
      SortSorts(le, s[..|s|-1]);
      InsertSorted(le, Sort(le, s[..|s|-1]), s[|s|-1]);
      assert s == s[..|s|-1] + [s[|s|-1]];
    }
    assert |Sort(le, s)| == |multiset(Sort(le, s))|;
    assert |s| == |multiset(s)|;
  }
}

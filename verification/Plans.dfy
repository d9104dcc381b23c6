// The plan of a prepared submission is one the concurrent workers can be trusted with.
module Plans {
  import opened Codes
  import opened Seqs
  import opened Assigner
  import opened Batches
  import opened Submission
  import opened Answers

  // The caller's duty, which the streamer does not check.
  ghost predicate DestinationsApart(requests: seq<Request>)
  {
    forall r, q, a: nat :: 0 <= r < q < |requests| ==> !(InRange(requests[r], a) && InRange(requests[q], a))
  }

  // ---------------------------------------------------------------- counting through a permutation

  lemma {:induction false} OfRangePermute(s: seq<RangeTask>, t: seq<RangeTask>, file: nat, range: nat)
    requires multiset(s) == multiset(t)
    ensures multiset(OfRange(s, file, range)) == multiset(OfRange(t, file, range))
  {
    assert |s| == |multiset(s)| == |multiset(t)| == |t|;
    if s != [] {
      var k := |s| - 1;
      assert s == s[..k] + [s[k]];
      assert s[k] in multiset(t);
      var i :| 0 <= i < |t| && t[i] == s[k];
      OfRangeRemove(t, i, file, range);
      TakeOne(t, i);
      OfRangePermute(s[..k], t[..i] + t[i + 1..], file, range);
    }
  }

  lemma TakeOne<T>(s: seq<T>, i: nat)
    requires i < |s|
    ensures multiset(s[..i] + s[i + 1..]) == multiset(s) - multiset{s[i]}
  {
    assert s == s[..i] + ([s[i]] + s[i + 1..]);
  }

  lemma {:induction false} OfRangeOne(x: RangeTask, file: nat, range: nat)
    ensures OfRange([x], file, range) == if x.file == file && x.range == range then [x] else []
  {
    assert [x][..0] == [];
  }

  lemma {:induction false} OfRangeRemove(s: seq<RangeTask>, i: nat, file: nat, range: nat)
    requires i < |s|
    ensures multiset(OfRange(s, file, range)) == multiset(OfRange(s[..i] + s[i + 1..], file, range)) +
              (if s[i].file == file && s[i].range == range then multiset{s[i]} else multiset{})
  {
    hide OfRange;
    assert s == s[..i] + ([s[i]] + s[i + 1..]);
    OfRangeAppend(s[..i], [s[i]] + s[i + 1..], file, range);
    OfRangeAppend([s[i]], s[i + 1..], file, range);
    OfRangeAppend(s[..i], s[i + 1..], file, range);
    OfRangeOne(s[i], file, range);
  }

  lemma {:induction false} OfRangeMembers(s: seq<RangeTask>, file: nat, range: nat)
    ensures forall x :: x in OfRange(s, file, range) <==> x in s && Owns(x, file, range)
  {
    if s != [] {
      var k := |s| - 1;
      OfRangeMembers(s[..k], file, range);
      assert s == s[..k] + [s[k]];
    }
  }

  // Occurrences of an owned task are all kept by the filter.
  lemma {:induction false} OfRangeCount(s: seq<RangeTask>, file: nat, range: nat, x: RangeTask)
    requires Owns(x, file, range)
    ensures multiset(OfRange(s, file, range))[x] == multiset(s)[x]
  {
    if s != [] {
      var k := |s| - 1;
      OfRangeCount(s[..k], file, range, x);
      assert s == s[..k] + [s[k]];
    }
  }

  // ---------------------------------------------------------------- tasks that serve one request

  lemma {:induction false} BytesPrefix(ts: seq<RangeTask>, k: nat)
    requires k < |ts|
    ensures Bytes(ts[..k]) + ts[k].size == Bytes(ts[..k + 1]) <= Bytes(ts)
  {
    assert ts[..k + 1][..k] == ts[..k];
    if k < |ts| - 1 {
      BytesPrefix(ts[..|ts|-1], k);
      assert ts[..|ts|-1][..k + 1] == ts[..k + 1] && ts[..|ts|-1][..k] == ts[..k];
    } else {
      assert ts[..k + 1] == ts;
    }
  }

  lemma {:induction false} BytesMonotone(ts: seq<RangeTask>, k: nat, l: nat)
    requires k <= l <= |ts|
    ensures Bytes(ts[..k]) <= Bytes(ts[..l])
  {
    if k < l {
      BytesMonotone(ts, k, l - 1);
      BytesPrefix(ts, l - 1);
    }
  }

  lemma ServesParts(ts: seq<RangeTask>, q: Request, k: nat)
    requires Serves(ts, q) && k < |ts|
    ensures PartOf(ts[k], q)
  {
    BytesPrefix(ts, k);
  }

  lemma ServesApart(ts: seq<RangeTask>, q: Request, k: nat, l: nat, a: nat)
    requires Serves(ts, q) && k < l < |ts|
    ensures !(Window(ts[k], a) && Window(ts[l], a))
  {
    BytesPrefix(ts, k);
    BytesMonotone(ts, k + 1, l);
  }

  lemma {:induction false} ServesCover(ts: seq<RangeTask>, q: Request, n: nat, a: nat) returns (k: nat)
    requires Serves(ts, q) && n <= |ts| && q.dst <= a < q.dst + Bytes(ts[..n])
    ensures k < n && Window(ts[k], a)
  {
    assert n > 0 by { assert ts[..0] == []; }
    BytesPrefix(ts, n - 1);
    if a >= q.dst + Bytes(ts[..n - 1]) {
      k := n - 1;
    } else {
      k := ServesCover(ts, q, n - 1, a);
    }
  }

  // ---------------------------------------------------------------- the plan of the workloads

  ghost predicate OwnedBy(t: RangeTask, requests: seq<Request>, r: nat)
  {
    r < |requests| && Owns(t, requests[r].fileIndex, requests[r].index)
  }

  ghost predicate HasOwner(t: RangeTask, requests: seq<Request>)
  {
    exists r: nat :: OwnedBy(t, requests, r)
  }

  ghost function OwnerIn(t: RangeTask, requests: seq<Request>): nat
    requires HasOwner(t, requests)
  {
    var r: nat :| OwnedBy(t, requests, r); r
  }

  function Times(n: nat, h: Home): seq<Home> { seq(n, i => h) }

  function Constant(n: nat, x: nat): seq<nat> { seq(n, i => x) }

  ghost function HomesFrom(ws: seq<Workload>): seq<Home>
    ensures |HomesFrom(ws)| == |AllWork(ws)|
    ensures forall t :: 0 <= t < |HomesFrom(ws)| ==>
        HomesFrom(ws)[t].submission == 0 && HomesFrom(ws)[t].workload < |ws|
  {
    if ws == [] then [] else HomesFrom(ws[..|ws|-1]) + Times(|WorkTasks(ws[|ws|-1])|, Home(0, |ws| - 1))
  }

  ghost predicate AllOwned(tasks: seq<RangeTask>, requests: seq<Request>)
  {
    forall t :: 0 <= t < |tasks| ==> HasOwner(tasks[t], requests)
  }

  ghost function OwnersIn(tasks: seq<RangeTask>, requests: seq<Request>): seq<nat>
    requires AllOwned(tasks, requests)
  {
    seq(|tasks|, t requires 0 <= t < |tasks| => OwnerIn(tasks[t], requests))
  }

  ghost function PlanOf(ws: seq<Workload>, requests: seq<Request>): Plan
    requires AllOwned(AllWork(ws), requests)
  {
    Plan(AllWork(ws), OwnersIn(AllWork(ws), requests), HomesFrom(ws), requests, Constant(|requests|, 0), [|ws|])
  }

  // What the proof below needs of the workloads' tasks, in whatever order they come.
  ghost predicate Delivered(tasks: seq<RangeTask>, made: seq<RangeTask>, requests: seq<Request>, listed: seq<Listed>)
  {
    multiset(tasks) == multiset(made) && Submission.Served(requests, made, listed) && KeysDistinct(listed)
  }

  lemma TasksOwned(tasks: seq<RangeTask>, made: seq<RangeTask>, requests: seq<Request>, listed: seq<Listed>)
    requires Delivered(tasks, made, requests, listed)
    ensures AllOwned(tasks, requests)
  {
    hide Serves, OfRange, KeysDistinct, RequestServed;
    forall t | 0 <= t < |tasks| ensures HasOwner(tasks[t], requests) {
      assert tasks[t] in multiset(tasks);
      assert tasks[t] in multiset(made);
      var k :| 0 <= k < |made| && made[k] == tasks[t];
      assert Keyed(made[k], listed);
      var i :| 0 <= i < |listed| && Owns(tasks[t], listed[i].file, listed[i].index);
      assert Matches(requests[i], listed[i]);
      assert OwnedBy(tasks[t], requests, i);
    }
  }

  // A task has one owner, because no two listed ranges share file and index.
  lemma OneOwner(t: RangeTask, requests: seq<Request>, listed: seq<Listed>, r: nat, q: nat)
    requires |requests| == |listed| && KeysDistinct(listed)
    requires forall i :: 0 <= i < |listed| ==> Matches(requests[i], listed[i])
    requires OwnedBy(t, requests, r) && OwnedBy(t, requests, q)
    ensures r == q
  {
    assert (listed[r].file, listed[r].index) == (listed[q].file, listed[q].index);
  }

  // The serving run of request r, and where its members are.
  ghost function RunOf(made: seq<RangeTask>, q: Request): seq<RangeTask>
  {
    OfRange(made, q.fileIndex, q.index)
  }

  lemma InRun(tasks: seq<RangeTask>, made: seq<RangeTask>, requests: seq<Request>, listed: seq<Listed>, t: nat, r: nat)
    returns (k: nat)
    requires Delivered(tasks, made, requests, listed) && t < |tasks| && OwnedBy(tasks[t], requests, r)
    ensures Serves(RunOf(made, requests[r]), requests[r])
    ensures k < |RunOf(made, requests[r])| && RunOf(made, requests[r])[k] == tasks[t]
  {
    var q := requests[r];
    assert Matches(q, listed[r]) && RequestServed(q, made);
    assert tasks[t] in multiset(tasks);
    assert tasks[t] in multiset(made);
    OfRangeMembers(made, q.fileIndex, q.index);
    assert tasks[t] in RunOf(made, q);
    k :| 0 <= k < |RunOf(made, q)| && RunOf(made, q)[k] == tasks[t];
  }

  lemma SameOwnerApart(tasks: seq<RangeTask>, made: seq<RangeTask>, requests: seq<Request>, listed: seq<Listed>,
                       t: nat, u: nat, r: nat, a: nat)
    requires Delivered(tasks, made, requests, listed) && t < u < |tasks|
    requires OwnedBy(tasks[t], requests, r) && OwnedBy(tasks[u], requests, r)
    ensures !(Window(tasks[t], a) && Window(tasks[u], a))
  {
    assert multiset(tasks) == multiset(made);
    hide Delivered, Serves, OfRange;
    var q := requests[r];
    var k := InRun(tasks, made, requests, listed, t, r);
    var l := InRun(tasks, made, requests, listed, u, r);
    var mine := RunOf(made, q);
    if k < l {
      ServesApart(mine, q, k, l, a);
    } else if l < k {
      ServesApart(mine, q, l, k, a);
    } else {
      TwoOccurrences(tasks, t, u);
      OfRangeCount(made, q.fileIndex, q.index, tasks[t]);
      var x, y := TwicePlaced(mine, tasks[t]);
      ServesApart(mine, q, x, y, a);
    }
  }

  ghost function OwnedBelow(tasks: seq<RangeTask>, file: nat, range: nat, n: nat): set<nat>
    requires n <= |tasks|
  {
    set t: nat | t < n && Owns(tasks[t], file, range)
  }

  lemma {:induction false} CountOwned(tasks: seq<RangeTask>, file: nat, range: nat, n: nat)
    requires n <= |tasks|
    ensures |OwnedBelow(tasks, file, range, n)| == |OfRange(tasks[..n], file, range)|
  {
    if n == 0 {
      assert OwnedBelow(tasks, file, range, n) == {};
    } else {
      CountOwned(tasks, file, range, n - 1);
      assert OwnedBelow(tasks, file, range, n) ==
             OwnedBelow(tasks, file, range, n - 1) + if Owns(tasks[n - 1], file, range) then {n - 1} else {};
      assert tasks[..n][..n - 1] == tasks[..n - 1];
    }
  }

  lemma CountersRight(p: Plan, made: seq<RangeTask>, listed: seq<Listed>, r: nat)
    requires Delivered(p.tasks, made, p.requests, listed) && Shaped(p) && r < |p.requests|
    requires forall t :: 0 <= t < |p.tasks| ==> OwnedBy(p.tasks[t], p.requests, p.owner[t])
    ensures |TasksOf(p, r)| == p.requests[r].tasks > 0
  {
    var q := p.requests[r];
    var owned := OwnedBelow(p.tasks, q.fileIndex, q.index, |p.tasks|);
    forall t: nat ensures t in TasksOf(p, r) <==> t in owned {
      if t in owned {
        assert OwnedBy(p.tasks[t], p.requests, r);
        OneOwner(p.tasks[t], p.requests, listed, r, p.owner[t]);
      }
    }
    assert TasksOf(p, r) == owned;
    assert p.tasks[..|p.tasks|] == p.tasks;
    CountOwned(p.tasks, q.fileIndex, q.index, |p.tasks|);
    OfRangePermute(p.tasks, made, q.fileIndex, q.index);
    assert Matches(q, listed[r]) && RequestServed(q, made);
    assert |multiset(OfRange(p.tasks, q.fileIndex, q.index))| == |OfRange(p.tasks, q.fileIndex, q.index)|;
    assert |multiset(OfRange(made, q.fileIndex, q.index))| == |OfRange(made, q.fileIndex, q.index)|;
  }

  lemma MadeIsDelivered(tasks: seq<RangeTask>, made: seq<RangeTask>, x: RangeTask) returns (t: nat)
    requires multiset(tasks) == multiset(made) && x in made
    ensures t < |tasks| && tasks[t] == x
  {
    assert x in multiset(made);
    assert x in multiset(tasks);
    t :| 0 <= t < |tasks| && tasks[t] == x;
  }

  lemma CoveringTask(made: seq<RangeTask>, q: Request, a: nat) returns (x: RangeTask)
    requires RequestServed(q, made) && InRange(q, a)
    ensures x in made && Owns(x, q.fileIndex, q.index) && Window(x, a)
  {
    var mine := RunOf(made, q);
    assert mine[..|mine|] == mine;
    hide OfRange;
    var k := ServesCover(mine, q, |mine|, a);
    hide Serves;
    OfRangeMembers(made, q.fileIndex, q.index);
    x := mine[k];
    assert x in mine;
  }

  lemma CoverRight(p: Plan, made: seq<RangeTask>, listed: seq<Listed>, r: nat, a: nat)
    requires Delivered(p.tasks, made, p.requests, listed) && Shaped(p) && r < |p.requests|
    requires forall t :: 0 <= t < |p.tasks| ==> OwnedBy(p.tasks[t], p.requests, p.owner[t])
    requires InRange(p.requests[r], a)
    ensures Answers.Covered(p, r, a)
  {
    var q := p.requests[r];
    var mine := RunOf(made, q);
    assert RequestServed(q, made);
    assert forall i :: 0 <= i < |listed| ==> Matches(p.requests[i], listed[i]);
    assert multiset(p.tasks) == multiset(made) && KeysDistinct(listed) && |p.requests| == |listed|;
    hide Delivered, KeysDistinct, OfRange, PartOf, Matches;
    var x := CoveringTask(made, q, a);
    hide Serves;
    var t := MadeIsDelivered(p.tasks, made, x);
    assert OwnedBy(p.tasks[t], p.requests, r);
    OneOwner(p.tasks[t], p.requests, listed, r, p.owner[t]);
    assert t in TasksOf(p, r);
  }

  lemma {:induction false} ShapedRight(ws: seq<Workload>, made: seq<RangeTask>, requests: seq<Request>,
                                       listed: seq<Listed>)
    requires Delivered(AllWork(ws), made, requests, listed) && AllOwned(AllWork(ws), requests)
    ensures Shaped(PlanOf(ws, requests))
    ensures forall t :: 0 <= t < |AllWork(ws)| ==> OwnedBy(AllWork(ws)[t], requests, PlanOf(ws, requests).owner[t])
  {
    hide Delivered, Serves, AllWork, HomesFrom;
    var p := PlanOf(ws, requests);
    forall t | 0 <= t < |p.tasks|
      ensures TaskHome(p, t) && PartOf(p.tasks[t], requests[p.owner[t]]) && OwnedBy(p.tasks[t], requests, p.owner[t])
    {
      assert HasOwner(p.tasks[t], requests);
      assert OwnedBy(p.tasks[t], requests, p.owner[t]);
      var k := InRun(p.tasks, made, requests, listed, t, p.owner[t]);
      ServesParts(RunOf(made, requests[p.owner[t]]), requests[p.owner[t]], k);
    }
  }

  lemma ApartRight(p: Plan, made: seq<RangeTask>, listed: seq<Listed>, t: nat, u: nat, a: nat)
    requires Delivered(p.tasks, made, p.requests, listed) && Shaped(p) && t < u < |p.tasks|
    requires forall t :: 0 <= t < |p.tasks| ==> OwnedBy(p.tasks[t], p.requests, p.owner[t])
    requires DestinationsApart(p.requests)
    ensures !(Window(p.tasks[t], a) && Window(p.tasks[u], a))
  {
    if p.owner[t] == p.owner[u] {
      SameOwnerApart(p.tasks, made, p.requests, listed, t, u, p.owner[t], a);
    } else if Window(p.tasks[t], a) && Window(p.tasks[u], a) {
      assert PartOf(p.tasks[t], p.requests[p.owner[t]]) && PartOf(p.tasks[u], p.requests[p.owner[u]]);
      assert InRange(p.requests[p.owner[t]], a) && InRange(p.requests[p.owner[u]], a);
      assert false;
    }
  }

  lemma DeliveredIsGood(p: Plan, made: seq<RangeTask>, listed: seq<Listed>)
    requires Delivered(p.tasks, made, p.requests, listed) && Shaped(p) && DestinationsApart(p.requests)
    requires forall t :: 0 <= t < |p.tasks| ==> OwnedBy(p.tasks[t], p.requests, p.owner[t])
    ensures PlanGood(p)
  {
    hide Delivered, OwnedBy, DestinationsApart, PartOf;
    forall r: nat | r < |p.requests| ensures |TasksOf(p, r)| == p.requests[r].tasks > 0 {
      CountersRight(p, made, listed, r);
    }
    hide TasksOf;
    forall r: nat, a: nat | r < |p.requests| && InRange(p.requests[r], a) ensures Answers.Covered(p, r, a) {
      CoverRight(p, made, listed, r, a);
    }
    forall t: nat, u: nat, a: nat | t < u < |p.tasks| ensures !(Window(p.tasks[t], a) && Window(p.tasks[u], a)) {
      ApartRight(p, made, listed, t, u, a);
    }
  }

  // A prepared submission whose destinations do not overlap is a good plan.
  lemma {:induction false} SubmissionIsGood(ws: seq<Workload>, requests: seq<Request>, files: seq<FileRanges>)
    requires PlanOk(ws, requests, ListAll(files)) && DestinationsApart(requests)
    ensures AllOwned(AllWork(ws), requests) && PlanGood(PlanOf(ws, requests))
  {
    hide KeysDistinct, WorkloadsOk, Submission.Served, AllWork, DestinationsApart, ListAll, Shaped, OwnedBy, PlanGood,
      AllOwned;
    var listed := ListAll(files);
    var made: seq<RangeTask> :| Spread(ws, made) && Submission.Served(requests, made, listed);
    ListKeys(files);
    assert Delivered(AllWork(ws), made, requests, listed);
    TasksOwned(AllWork(ws), made, requests, listed);
    ShapedRight(ws, made, requests, listed);
    DeliveredIsGood(PlanOf(ws, requests), made, listed);
  }
}

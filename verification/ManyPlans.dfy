// Several prepared submissions in flight together: one plan, in which each keeps its own tasks, requests and
// workloads.
module ManyPlans {
  import opened Assigner
  import opened Batches
  import opened Submission
  import opened Answers
  import opened Plans

  // A submission as PrepareSubmission leaves it.
  datatype Sub = Sub(ws: seq<Workload>, requests: seq<Request>, files: seq<FileRanges>)

  ghost predicate Prepared(s: Sub) { PlanOk(s.ws, s.requests, ListAll(s.files)) }

  // ---------------------------------------------------------------- putting two plans side by side

  // Files are numbered per submission, so those of a later one are moved past those before.
  function MovedTask(t: RangeTask, files: nat): RangeTask { t.(file := files + t.file) }

  function MovedRequest(q: Request, files: nat): Request { q.(fileIndex := files + q.fileIndex) }

  function MovedHome(h: Home, subs: nat): Home { Home(subs + h.submission, h.workload) }

  ghost function MovedTasks(ts: seq<RangeTask>, files: nat): seq<RangeTask>
  {
    seq(|ts|, t requires 0 <= t < |ts| => MovedTask(ts[t], files))
  }

  ghost function MovedHomes(hs: seq<Home>, subs: nat): seq<Home>
  {
    seq(|hs|, t requires 0 <= t < |hs| => MovedHome(hs[t], subs))
  }

  ghost function MovedRequests(qs: seq<Request>, files: nat): seq<Request>
  {
    seq(|qs|, r requires 0 <= r < |qs| => MovedRequest(qs[r], files))
  }

  ghost function MovedBy(ns: seq<nat>, n: nat): seq<nat>
  {
    seq(|ns|, i requires 0 <= i < |ns| => n + ns[i])
  }

  ghost function Joined(p: Plan, q: Plan, files: nat): Plan
  {
    Plan(
      p.tasks + MovedTasks(q.tasks, files),
      p.owner + MovedBy(q.owner, |p.requests|),
      p.home + MovedHomes(q.home, |p.parts|),
      p.requests + MovedRequests(q.requests, files),
      p.source + MovedBy(q.source, |p.parts|),
      p.parts + q.parts)
  }

  // No address is asked for by both.
  ghost predicate PlansApart(p: Plan, q: Plan)
  {
    forall r: nat, k: nat, a: nat :: r < |p.requests| && k < |q.requests| ==>
      !(InRange(p.requests[r], a) && InRange(q.requests[k], a))
  }

  lemma JoinedShaped(p: Plan, q: Plan, files: nat)
    requires Shaped(p) && Shaped(q)
    ensures Shaped(Joined(p, q, files))
  {
    var j := Joined(p, q, files);
    forall t | 0 <= t < |j.tasks| ensures TaskHome(j, t) && PartOf(j.tasks[t], j.requests[j.owner[t]]) {
      if t < |p.tasks| {
        assert TaskHome(p, t);
      } else {
        assert TaskHome(q, t - |p.tasks|);
        assert PartOf(q.tasks[t - |p.tasks|], q.requests[q.owner[t - |p.tasks|]]);
      }
    }
  }

  // A task writes inside the range of its request.
  lemma WindowInRange(p: Plan, t: nat, a: nat)
    requires Shaped(p) && t < |p.tasks| && Window(p.tasks[t], a)
    ensures p.owner[t] < |p.requests| && InRange(p.requests[p.owner[t]], a)
  {
    assert TaskHome(p, t) && PartOf(p.tasks[t], p.requests[p.owner[t]]);
  }

  lemma JoinedApart(p: Plan, q: Plan, files: nat, t: nat, u: nat, a: nat)
    requires PlanGood(p) && PlanGood(q) && PlansApart(p, q) && t < u < |Joined(p, q, files).tasks|
    ensures !(Window(Joined(p, q, files).tasks[t], a) && Window(Joined(p, q, files).tasks[u], a))
  {
    var n := |p.tasks|;
    if u < n {
      assert !(Window(p.tasks[t], a) && Window(p.tasks[u], a));
    } else if n <= t {
      assert !(Window(q.tasks[t - n], a) && Window(q.tasks[u - n], a));
    } else if Window(p.tasks[t], a) && Window(q.tasks[u - n], a) {
      WindowInRange(p, t, a);
      WindowInRange(q, u - n, a);
    }
  }

  ghost function Up(ts: set<nat>, n: nat): set<nat> { set t | t in ts :: n + t }

  lemma {:induction false} UpSize(ts: set<nat>, n: nat)
    ensures |Up(ts, n)| == |ts|
  {
    if ts == {} {
      assert Up(ts, n) == {};
    } else {
      var t :| t in ts;
      UpSize(ts - {t}, n);
      assert forall x :: x in ts <==> x in ts - {t} || x == t;
      assert Up(ts, n) == Up(ts - {t}, n) + {n + t};
    }
  }

  lemma JoinedTasksOf(p: Plan, q: Plan, files: nat, r: nat)
    requires Shaped(p) && Shaped(q) && r < |p.requests| + |q.requests|
    ensures Shaped(Joined(p, q, files))
    ensures TasksOf(Joined(p, q, files), r) ==
              if r < |p.requests| then TasksOf(p, r) else Up(TasksOf(q, r - |p.requests|), |p.tasks|)
  {
    JoinedShaped(p, q, files);
    var j := Joined(p, q, files);
    var n := |p.tasks|;
    forall t: nat
      ensures t in TasksOf(j, r) <==>
              if r < |p.requests| then t in TasksOf(p, r) else t >= n && t - n in TasksOf(q, r - |p.requests|)
    {
      if t < n {
        assert TaskHome(p, t) && j.owner[t] == p.owner[t];
      } else if t < |j.tasks| {
        assert j.owner[t] == |p.requests| + q.owner[t - n];
      }
    }
    hide TasksOf, Shaped;
    if r >= |p.requests| {
      forall t: nat | t in TasksOf(j, r) ensures t in Up(TasksOf(q, r - |p.requests|), n) {
        assert t == n + (t - n);
      }
    }
  }

  lemma JoinedCovered(p: Plan, q: Plan, files: nat, r: nat, a: nat)
    requires PlanGood(p) && PlanGood(q) && r < |p.requests| + |q.requests|
    requires InRange(Joined(p, q, files).requests[r], a)
    ensures Shaped(Joined(p, q, files)) && Answers.Covered(Joined(p, q, files), r, a)
  {
    if r < |p.requests| {
      CoveredBefore(p, q, files, r, a);
    } else {
      CoveredAfter(p, q, files, r - |p.requests|, a);
    }
  }

  lemma CoveredBefore(p: Plan, q: Plan, files: nat, r: nat, a: nat)
    requires Shaped(p) && Shaped(q) && r < |p.requests| && Answers.Covered(p, r, a)
    ensures Shaped(Joined(p, q, files)) && Answers.Covered(Joined(p, q, files), r, a)
  {
    JoinedTasksOf(p, q, files, r);
    hide Shaped;
    var t: nat :| t in TasksOf(p, r) && Window(p.tasks[t], a);
    assert Joined(p, q, files).tasks[t] == p.tasks[t];
  }

  lemma CoveredAfter(p: Plan, q: Plan, files: nat, k: nat, a: nat)
    requires Shaped(p) && Shaped(q) && k < |q.requests| && Answers.Covered(q, k, a)
    ensures Shaped(Joined(p, q, files)) && Answers.Covered(Joined(p, q, files), |p.requests| + k, a)
  {
    JoinedTasksOf(p, q, files, |p.requests| + k);
    var t: nat :| t in TasksOf(q, k) && Window(q.tasks[t], a);
    assert t < |q.tasks|;
    hide Shaped, TasksOf, Joined;
    LaterTask(p, q, files, t);
    assert |p.tasks| + t in Up(TasksOf(q, k), |p.tasks|);
  }

  lemma LaterTask(p: Plan, q: Plan, files: nat, t: nat)
    requires t < |q.tasks|
    ensures var j := Joined(p, q, files);
            && |j.tasks| == |p.tasks| + |q.tasks| && j.tasks[|p.tasks| + t] == MovedTask(q.tasks[t], files)
            && |j.requests| == |p.requests| + |q.requests|
  {
  }

  // Good plans that write to different places make a good plan.
  lemma JoinedGood(p: Plan, q: Plan, files: nat)
    requires PlanGood(p) && PlanGood(q) && PlansApart(p, q)
    ensures PlanGood(Joined(p, q, files))
  {
    JoinedShaped(p, q, files);
    var j := Joined(p, q, files);
    forall r: nat | r < |j.requests| ensures |TasksOf(j, r)| == j.requests[r].tasks > 0 {
      JoinedTasksOf(p, q, files, r);
      if r >= |p.requests| {
        UpSize(TasksOf(q, r - |p.requests|), |p.tasks|);
      }
    }
    hide TasksOf, PlansApart;
    forall t: nat, u: nat, a: nat | t < u < |j.tasks| ensures !(Window(j.tasks[t], a) && Window(j.tasks[u], a)) {
      JoinedApart(p, q, files, t, u, a);
    }
    forall r: nat, a: nat | r < |j.requests| && InRange(j.requests[r], a) ensures Answers.Covered(j, r, a) {
      JoinedCovered(p, q, files, r, a);
    }
  }

  // ---------------------------------------------------------------- any number of submissions

  function FilesOf(subs: seq<Sub>): nat
  {
    if subs == [] then 0 else FilesOf(subs[..|subs|-1]) + |subs[|subs|-1].files|
  }

  function RequestsOf(subs: seq<Sub>): nat
  {
    if subs == [] then 0 else RequestsOf(subs[..|subs|-1]) + |subs[|subs|-1].requests|
  }

  ghost predicate AllPrepared(subs: seq<Sub>)
  {
    forall i :: 0 <= i < |subs| ==> Prepared(subs[i]) && AllOwned(AllWork(subs[i].ws), subs[i].requests)
  }

  ghost function PlanAll(subs: seq<Sub>): (p: Plan)
    requires AllPrepared(subs)
  {
    if subs == [] then Plan([], [], [], [], [], [])
    else
      var last := subs[|subs|-1];
      Joined(PlanAll(subs[..|subs|-1]), PlanOf(last.ws, last.requests), FilesOf(subs[..|subs|-1]))
  }

  // Every two ranges asked for by the submissions in flight have different destinations. This is the callers'
  // duty, which the streamer does not check.
  ghost predicate AllApart(subs: seq<Sub>)
  {
    && (forall i :: 0 <= i < |subs| ==> DestinationsApart(subs[i].requests))
    && forall i, j, r, k, a: nat :: 0 <= i < j < |subs| && 0 <= r < |subs[i].requests| && 0 <= k < |subs[j].requests|
         ==>
         !(InRange(subs[i].requests[r], a) && InRange(subs[j].requests[k], a))
  }

  lemma LastSub(subs: seq<Sub>)
    requires subs != [] && AllPrepared(subs)
    ensures var front, last := subs[..|subs|-1], subs[|subs|-1];
            && AllPrepared(front)
            && PlanAll(subs).requests == PlanAll(front).requests + MovedRequests(last.requests, FilesOf(front))
            && PlanAll(subs).parts == PlanAll(front).parts + [|last.ws|]
            && RequestsOf(subs) == RequestsOf(front) + |last.requests|
  {
  }

  lemma {:induction false} RequestCount(subs: seq<Sub>)
    requires AllPrepared(subs)
    ensures |PlanAll(subs).requests| == RequestsOf(subs) && |PlanAll(subs).parts| == |subs|
  {
    if subs != [] {
      LastSub(subs);
      hide AllPrepared, MovedRequest;
      RequestCount(subs[..|subs|-1]);
    }
  }

  lemma LastSource(subs: seq<Sub>)
    requires subs != [] && AllPrepared(subs)
    ensures var front, last := subs[..|subs|-1], subs[|subs|-1];
            && AllPrepared(front)
            && PlanAll(subs).source == PlanAll(front).source + Constant(|last.requests|, |PlanAll(front).parts|)
  {
    var front, last := subs[..|subs|-1], subs[|subs|-1];
    MovedConstant(|last.requests|, |PlanAll(front).parts|);
    hide Constant, MovedBy, MovedTasks, MovedRequests, MovedHomes, OwnersIn, AllWork, HomesFrom;
  }

  lemma MovedConstant(n: nat, x: nat)
    ensures MovedBy(Constant(n, 0), x) == Constant(n, x)
  {
  }

  // The requests of submission i are its own.
  lemma {:induction false} SourceAt(subs: seq<Sub>, i: nat, r: nat)
    requires AllPrepared(subs) && i < |subs| && r < |subs[i].requests|
    ensures |PlanAll(subs).source| == RequestsOf(subs)
    ensures RequestsOf(subs[..i]) + r < RequestsOf(subs) && PlanAll(subs).source[RequestsOf(subs[..i]) + r] == i
  {
    hide AllPrepared, PlanAll, RequestsOf;
    LastSub(subs);
    LastSource(subs);
    var front := subs[..|subs|-1];
    RequestCount(front);
    SourceCount(front);
    if i < |front| {
      SourceAt(front, i, r);
      assert front[..i] == subs[..i];
    } else {
      assert subs[..i] == front;
    }
  }

  lemma {:induction false} SourceCount(subs: seq<Sub>)
    requires AllPrepared(subs)
    ensures |PlanAll(subs).source| == RequestsOf(subs)
  {
    if subs != [] {
      LastSub(subs);
      LastSource(subs);
      hide AllPrepared;
      SourceCount(subs[..|subs|-1]);
    }
  }

  // Where the requests of submission i start.
  lemma {:induction false} RequestAt(subs: seq<Sub>, i: nat, r: nat)
    requires AllPrepared(subs) && i < |subs| && r < |subs[i].requests|
    ensures var k := RequestsOf(subs[..i]) + r;
            k < |PlanAll(subs).requests|
              && PlanAll(subs).requests[k] == MovedRequest(subs[i].requests[r], FilesOf(subs[..i]))
  {
    hide AllPrepared, PlanAll, RequestsOf, FilesOf, MovedRequest;
    LastSub(subs);
    var front := subs[..|subs|-1];
    RequestCount(front);
    if i < |front| {
      RequestAt(front, i, r);
      assert front[..i] == subs[..i];
    } else {
      assert subs[..i] == front;
    }
  }

  // Every request is some submission's.
  lemma {:induction false} RequestFrom(subs: seq<Sub>, k: nat) returns (i: nat, r: nat)
    requires AllPrepared(subs) && k < |PlanAll(subs).requests|
    ensures i < |subs| && r < |subs[i].requests| && k == RequestsOf(subs[..i]) + r
    ensures PlanAll(subs).requests[k] == MovedRequest(subs[i].requests[r], FilesOf(subs[..i]))
  {
    hide AllPrepared, PlanAll, RequestsOf, FilesOf, MovedRequest;
    SomeSub(subs, k);
    LastSub(subs);
    var front := subs[..|subs|-1];
    RequestCount(front);
    if k < RequestsOf(front) {
      i, r := RequestFrom(front, k);
      assert front[..i] == subs[..i];
    } else {
      i, r := |front|, k - RequestsOf(front);
      assert subs[..i] == front;
    }
  }

  lemma {:induction false} SomeSub(subs: seq<Sub>, k: nat)
    requires AllPrepared(subs) && k < |PlanAll(subs).requests|
    ensures subs != []
  {
  }

  lemma FrontPlansApart(subs: seq<Sub>)
    requires subs != [] && AllPrepared(subs) && AllApart(subs)
    ensures var last := subs[|subs|-1];
            PlansApart(PlanAll(subs[..|subs|-1]), PlanOf(last.ws, last.requests))
  {
    hide AllPrepared, PlanAll, RequestsOf, FilesOf, OwnersIn, AllWork, HomesFrom;
    LastSub(subs);
    var front, last := subs[..|subs|-1], subs[|subs|-1];
    LastOwned(subs);
    var p, q := PlanAll(front), PlanOf(last.ws, last.requests);
    forall r: nat, k: nat, a: nat | r < |p.requests| && k < |q.requests|
      ensures !(InRange(p.requests[r], a) && InRange(q.requests[k], a))
    {
      var i, l := RequestFrom(front, r);
      assert front[i] == subs[i];
    }
  }

  lemma LastOwned(subs: seq<Sub>)
    requires subs != [] && AllPrepared(subs)
    ensures Prepared(subs[|subs|-1]) && AllOwned(AllWork(subs[|subs|-1].ws), subs[|subs|-1].requests)
  {
    hide Prepared;
  }

  // Submissions whose destinations do not overlap make a good plan together.
  lemma {:induction false} SubmissionsAreGood(subs: seq<Sub>)
    requires AllPrepared(subs) && AllApart(subs)
    ensures PlanGood(PlanAll(subs))
  {
    if subs == [] {
      assert Shaped(PlanAll(subs));
    } else {
      var last := subs[|subs|-1];
      hide PlanGood;
      SubmissionsAreGood(subs[..|subs|-1]);
      SubmissionIsGood(last.ws, last.requests, last.files);
      FrontPlansApart(subs);
      JoinedGood(PlanAll(subs[..|subs|-1]), PlanOf(last.ws, last.requests), FilesOf(subs[..|subs|-1]));
    }
  }
}

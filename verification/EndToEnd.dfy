// From the callers' ranges to the responses: submissions prepared by the streamer, their batches read as
// Batch.Execute does, their object-storage workloads read by the pool, all at once.
module EndToEnd {
  import opened Codes
  import opened Assigner
  import opened Batches
  import opened Events
  import opened Traces
  import opened Answers
  import opened Plans
  import opened ManyPlans
  import opened System
  import opened SystemSteps
  import opened SystemRuns
  import opened SystemProgress
  import opened Parts
  import Submission

  // What the thread that read a batch found in the file, and did.
  datatype Ran = Ran(content: seq<int>, trace: seq<Event>)

  // A submission, where it is read from, and - for files - what the thread of each batch of each workload did.
  datatype Job = Job(sub: Sub, remote: bool, ran: seq<seq<Ran>>)

  // As Batch.Execute leaves it: the trace is truthful of the batch and the bytes are those of its file.
  ghost predicate RanOk(b: Submission.Batch, r: Ran, contents: Files, files: nat)
  {
    && Good(b.tasks, r.content, r.trace) && AllDone(b.tasks, r.trace)
    && forall i :: 0 <= i < |r.content| ==> r.content[i] == contents(files + b.fileIndex, i)
  }

  ghost predicate Matching(job: Job)
  {
    |job.ran| == |job.sub.ws| && forall w :: 0 <= w < |job.ran| ==> |job.ran[w]| == |job.sub.ws[w]|
  }

  ghost predicate JobOk(job: Job, contents: Files, files: nat)
  {
    && Matching(job)
    && (!job.remote ==>
          forall w, b :: 0 <= w < |job.ran| && 0 <= b < |job.ran[w]| ==>
            RanOk(job.sub.ws[w][b], job.ran[w][b], contents, files))
  }

  function SubsOf(jobs: seq<Job>): seq<Sub>
  {
    seq(|jobs|, i requires 0 <= i < |jobs| => jobs[i].sub)
  }

  ghost predicate JobsOk(jobs: seq<Job>, contents: Files)
  {
    && AllPrepared(SubsOf(jobs)) && AllApart(SubsOf(jobs))
    && forall i :: 0 <= i < |jobs| ==> JobOk(jobs[i], contents, FilesOf(SubsOf(jobs)[..i]))
  }

  // ---------------------------------------------------------------- the parts of a submission

  function MovedBatch(b: Submission.Batch, files: nat): Submission.Batch
  {
    Submission.Batch(files + b.fileIndex, b.workload,
      seq(|b.tasks|, k requires 0 <= k < |b.tasks| => MovedTask(b.tasks[k], files)))
  }

  function MovedWorkload(w: Submission.Workload, files: nat): Submission.Workload
  {
    seq(|w|, b requires 0 <= b < |w| => MovedBatch(w[b], files))
  }

  ghost function BatchParts(home: Home, w: Submission.Workload, ran: seq<Ran>, files: nat): seq<Part>
    requires |ran| == |w|
  {
    seq(|w|, b requires 0 <= b < |w| => Batched(home, MovedBatch(w[b], files).tasks, ran[b].content, ran[b].trace))
  }

  ghost function WorkloadParts(job: Job, i: nat, w: nat, files: nat): seq<Part>
    requires Matching(job) && w < |job.sub.ws|
  {
    if job.remote then [Loaded(Home(i, w), MovedWorkload(job.sub.ws[w], files))]
    else BatchParts(Home(i, w), job.sub.ws[w], job.ran[w], files)
  }

  ghost function JobParts(job: Job, i: nat, n: nat, files: nat): seq<Part>
    requires Matching(job) && n <= |job.sub.ws|
  {
    if n == 0 then [] else JobParts(job, i, n - 1, files) + WorkloadParts(job, i, n - 1, files)
  }

  ghost function AllParts(jobs: seq<Job>): seq<Part>
    requires forall i :: 0 <= i < |jobs| ==> Matching(jobs[i])
  {
    if jobs == [] then []
    else
      var front, last := jobs[..|jobs|-1], jobs[|jobs|-1];
      AllParts(front) + JobParts(last, |front|, |last.sub.ws|, FilesOf(SubsOf(front)))
  }

  // ---------------------------------------------------------------- they have the plan's tasks and homes

  lemma {:induction false} PartsAppend(a: seq<Part>, b: seq<Part>)
    ensures AllTasksIn(a + b) == AllTasksIn(a) + AllTasksIn(b)
    ensures HomesIn(a + b) == HomesIn(a) + HomesIn(b)
  {
    hide AllTasksIn, HomesIn, TasksIn;
    if b == [] {
      assert a + b == a;
      NoParts();
    } else {
      assert (a + b)[..|a + b| - 1] == a + b[..|b|-1];
      LastPart(a + b);
      LastPart(b);
      PartsAppend(a, b[..|b|-1]);
    }
  }

  lemma NoParts()
    ensures AllTasksIn([]) == [] && HomesIn([]) == []
  {
  }

  lemma MovedAppend(a: seq<RangeTask>, b: seq<RangeTask>, files: nat)
    ensures MovedTasks(a + b, files) == MovedTasks(a, files) + MovedTasks(b, files)
  {
  }

  lemma HomesAppend(a: seq<Home>, b: seq<Home>, subs: nat)
    ensures MovedHomes(a + b, subs) == MovedHomes(a, subs) + MovedHomes(b, subs)
  {
  }

  lemma {:induction false} MovedWork(w: Submission.Workload, files: nat)
    ensures Submission.WorkTasks(MovedWorkload(w, files)) == MovedTasks(Submission.WorkTasks(w), files)
  {
    if w != [] {
      var n := |w| - 1;
      MovedWork(w[..n], files);
      assert MovedWorkload(w, files)[..n] == MovedWorkload(w[..n], files);
      MovedAppend(Submission.WorkTasks(w[..n]), w[n].tasks, files);
    }
  }

  ghost predicate Carry(parts: seq<Part>, tasks: seq<RangeTask>, home: Home)
  {
    AllTasksIn(parts) == tasks && HomesIn(parts) == Times(|tasks|, home)
  }

  lemma {:induction false} BatchesCarry(home: Home, w: Submission.Workload, ran: seq<Ran>, files: nat)
    requires |ran| == |w|
    ensures Carry(BatchParts(home, w, ran, files), MovedTasks(Submission.WorkTasks(w), files), home)
  {
    if w != [] {
      var n := |w| - 1;
      var parts := BatchParts(home, w, ran, files);
      BatchesCarry(home, w[..n], ran[..n], files);
      assert parts[..n] == BatchParts(home, w[..n], ran[..n], files);
      MovedAppend(Submission.WorkTasks(w[..n]), w[n].tasks, files);
      assert TasksIn(parts[n]) == MovedTasks(w[n].tasks, files);
    }
  }

  lemma WorkloadCarries(job: Job, i: nat, w: nat, files: nat)
    requires Matching(job) && w < |job.sub.ws|
    ensures Carry(WorkloadParts(job, i, w, files), MovedTasks(Submission.WorkTasks(job.sub.ws[w]), files), Home(i, w))
  {
    if job.remote {
      MovedWork(job.sub.ws[w], files);
      var part := Loaded(Home(i, w), MovedWorkload(job.sub.ws[w], files));
      assert [part][..0] == [];
    } else {
      BatchesCarry(Home(i, w), job.sub.ws[w], job.ran[w], files);
    }
  }

  lemma {:induction false} JobCarries(job: Job, i: nat, n: nat, files: nat)
    requires Matching(job) && n <= |job.sub.ws|
    ensures AllTasksIn(JobParts(job, i, n, files)) == MovedTasks(Submission.AllWork(job.sub.ws[..n]), files)
    ensures HomesIn(JobParts(job, i, n, files)) == MovedHomes(HomesFrom(job.sub.ws[..n]), i)
  {
    if n > 0 {
      JobCarries(job, i, n - 1, files);
      WorkloadCarries(job, i, n - 1, files);
      PartsAppend(JobParts(job, i, n - 1, files), WorkloadParts(job, i, n - 1, files));
      MoreWork(job.sub.ws, n, i, files);
    }
  }

  // One more workload adds its own tasks, at its own place.
  lemma MoreWork(ws: seq<Submission.Workload>, n: nat, i: nat, files: nat)
    requires 0 < n <= |ws|
    ensures var work := MovedTasks(Submission.WorkTasks(ws[n - 1]), files);
            && MovedTasks(Submission.AllWork(ws[..n]), files) ==
              MovedTasks(Submission.AllWork(ws[..n - 1]), files) + work
            && MovedHomes(HomesFrom(ws[..n]), i) ==
              MovedHomes(HomesFrom(ws[..n - 1]), i) + Times(|work|, Home(i, n - 1))
  {
    assert ws[..n][..n - 1] == ws[..n - 1];
    var work := Submission.WorkTasks(ws[n - 1]);
    MovedAppend(Submission.AllWork(ws[..n - 1]), work, files);
    HomesAppend(HomesFrom(ws[..n - 1]), Times(|work|, Home(0, n - 1)), i);
    assert MovedHomes(Times(|work|, Home(0, n - 1)), i) == Times(|work|, Home(i, n - 1));
  }

  lemma {:induction false} JobsCarry(jobs: seq<Job>)
    requires forall i :: 0 <= i < |jobs| ==> Matching(jobs[i])
    requires AllPrepared(SubsOf(jobs))
    ensures AllTasksIn(AllParts(jobs)) == PlanAll(SubsOf(jobs)).tasks
    ensures HomesIn(AllParts(jobs)) == PlanAll(SubsOf(jobs)).home
  {
    if jobs != [] {
      var n := |jobs| - 1;
      var front, last := jobs[..n], jobs[n];
      assert SubsOf(jobs)[..n] == SubsOf(front);
      JobsCarry(front);
      JobCarries(last, n, |last.sub.ws|, FilesOf(SubsOf(front)));
      assert last.sub.ws[..|last.sub.ws|] == last.sub.ws;
      PartsAppend(AllParts(front), JobParts(last, n, |last.sub.ws|, FilesOf(SubsOf(front))));
      RequestCount(SubsOf(front));
    }
  }

  // ---------------------------------------------------------------- each of them is in order

  // Where a file comes in the numbering does not matter to what a thread may do.
  lemma MovedGood(tasks: seq<RangeTask>, r: Ran, files: nat)
    requires Good(tasks, r.content, r.trace) && AllDone(tasks, r.trace)
    ensures Good(MovedTasks(tasks, files), r.content, r.trace) && AllDone(MovedTasks(tasks, files), r.trace)
  {
    var moved := MovedTasks(tasks, files);
    forall i | 0 <= i < |r.trace| ensures EventOk(moved, r.content, r.trace[..i], r.trace[i]) {
      assert EventOk(tasks, r.content, r.trace[..i], r.trace[i]);
      if r.trace[i].Stored? {
        forall a: nat | r.trace[i].at <= a < r.trace[i].at + |r.trace[i].bytes| ensures OpenAt(moved, r.trace[..i], a) {
          assert OpenAt(tasks, r.trace[..i], a);
          var k: nat :| k < |tasks| && Window(tasks[k], a) && !DoneIn(r.trace[..i], k);
          assert Window(moved[k], a);
        }
      }
    }
  }

  lemma MovedBatchOk(b: Submission.Batch, w: nat, files: nat)
    requires Submission.BatchOk(b, w)
    ensures OneFile(MovedBatch(b, files))
  {
  }

  lemma BatchPartOk(p: Plan, contents: Files, home: Home, b: Submission.Batch, r: Ran, files: nat)
    requires HomeFits(p, home) && RanOk(b, r, contents, files) && Submission.BatchOk(b, home.workload)
    ensures PartOk(p, contents, Batched(home, MovedBatch(b, files).tasks, r.content, r.trace))
  {
    hide Good, AllDone;
    MovedGood(b.tasks, r, files);
    assert MovedBatch(b, files).tasks == MovedTasks(b.tasks, files);
  }

  lemma LoadPartOk(p: Plan, contents: Files, home: Home, w: Submission.Workload, files: nat)
    requires HomeFits(p, home) && forall b :: 0 <= b < |w| ==> Submission.BatchOk(w[b], home.workload)
    ensures PartOk(p, contents, Loaded(home, MovedWorkload(w, files)))
  {
    forall b | 0 <= b < |w| ensures OneFile(MovedWorkload(w, files)[b]) {
      MovedBatchOk(w[b], home.workload, files);
    }
  }

  ghost predicate PartsOk(p: Plan, contents: Files, parts: seq<Part>)
  {
    forall q :: 0 <= q < |parts| ==> PartOk(p, contents, parts[q])
  }

  lemma WorkloadPartsOk(p: Plan, contents: Files, job: Job, i: nat, w: nat, files: nat)
    requires JobOk(job, contents, files) && w < |job.sub.ws| && Prepared(job.sub) && HomeFits(p, Home(i, w))
    ensures PartsOk(p, contents, WorkloadParts(job, i, w, files))
  {
    hide PartOk, RanOk, Submission.BatchOk, Submission.Served, MovedBatch, HomeFits;
    var ws := job.sub.ws;
    assert Submission.WorkloadsOk(ws);
    if job.remote {
      LoadPartOk(p, contents, Home(i, w), ws[w], files);
    } else {
      forall b | 0 <= b < |ws[w]| ensures PartOk(p, contents, WorkloadParts(job, i, w, files)[b]) {
        BatchPartOk(p, contents, Home(i, w), ws[w][b], job.ran[w][b], files);
      }
    }
  }

  lemma {:induction false} JobPartsOk(p: Plan, contents: Files, job: Job, i: nat, n: nat, files: nat)
    requires JobOk(job, contents, files) && n <= |job.sub.ws| && Prepared(job.sub)
    requires i < |p.parts| && p.parts[i] == |job.sub.ws|
    ensures PartsOk(p, contents, JobParts(job, i, n, files))
  {
    hide PartOk, JobOk, Prepared, WorkloadParts;
    assert Matching(job) by { JobMatches(job, contents, files); }
    if n > 0 {
      JobPartsOk(p, contents, job, i, n - 1, files);
      WorkloadPartsOk(p, contents, job, i, n - 1, files);
    }
  }

  lemma JobMatches(job: Job, contents: Files, files: nat)
    requires JobOk(job, contents, files)
    ensures Matching(job)
  {
  }

  lemma {:induction false} PartsAt(subs: seq<Sub>, i: nat)
    requires AllPrepared(subs) && i < |subs|
    ensures |PlanAll(subs).parts| == |subs| && PlanAll(subs).parts[i] == |subs[i].ws|
  {
    RequestCount(subs);
    RequestCount(subs[..|subs|-1]);
    if i < |subs| - 1 {
      PartsAt(subs[..|subs|-1], i);
    }
  }

  lemma {:induction false} AllPartsOk(p: Plan, contents: Files, jobs: seq<Job>)
    requires forall i :: 0 <= i < |jobs| ==> Matching(jobs[i]) && Prepared(jobs[i].sub)
    requires forall i :: 0 <= i < |jobs| ==> JobOk(jobs[i], contents, FilesOf(SubsOf(jobs)[..i]))
    requires |jobs| <= |p.parts| && forall i :: 0 <= i < |jobs| ==> p.parts[i] == |jobs[i].sub.ws|
    ensures PartsOk(p, contents, AllParts(jobs))
  {
    hide PartOk, Prepared, RanOk, JobParts;
    if jobs != [] {
      var n := |jobs| - 1;
      var front := jobs[..n];
      assert SubsOf(jobs)[..n] == SubsOf(front);
      forall i | 0 <= i < n ensures JobOk(front[i], contents, FilesOf(SubsOf(front)[..i])) {
        assert SubsOf(front)[..i] == SubsOf(jobs)[..i];
      }
      AllPartsOk(p, contents, front);
      JobPartsOk(p, contents, jobs[n], n, |jobs[n].sub.ws|, FilesOf(SubsOf(front)));
    }
  }

  // ---------------------------------------------------------------- the end-to-end theorems

  // Everything at work for the jobs: any number of workers, any window, any chunk size.
  ghost function AtWork(jobs: seq<Job>, contents: Files, workers: nat, window: nat, cb: nat): Config
    requires JobsOk(jobs, contents)
  {
    ConfigOf(PlanAll(SubsOf(jobs)), contents, AllParts(jobs), workers, window, cb)
  }

  lemma AtWorkOk(jobs: seq<Job>, contents: Files, workers: nat, window: nat, cb: nat)
    requires JobsOk(jobs, contents) && workers > 0 && window > 0 && cb > 0
    ensures ConfigOk(AtWork(jobs, contents, workers, window, cb))
  {
    var subs := SubsOf(jobs);
    hide PlanGood, PartOk, JobOk, AllApart, Prepared, AllParts, Build;
    forall i | 0 <= i < |jobs| ensures Matching(jobs[i]) && Prepared(jobs[i].sub) {
      JobMatches(jobs[i], contents, FilesOf(subs[..i]));
      assert Prepared(subs[i]);
    }
    forall i | 0 <= i < |jobs| ensures |PlanAll(subs).parts| == |jobs| && PlanAll(subs).parts[i] == |jobs[i].sub.ws| {
      PartsAt(subs, i);
    }
    RequestCount(subs);
    SubmissionsAreGood(subs);
    JobsCarry(jobs);
    AllPartsOk(PlanAll(subs), contents, jobs);
    PartsFit(PlanAll(subs), contents, AllParts(jobs), workers, window, cb);
  }

  // In every run of everything: a response Success is that of a range some caller listed, and the range's own
  // file has its bytes at the range's own destination, then and at any later moment.
  lemma SuccessMeansPlaced(jobs: seq<Job>, contents: Files, workers: nat, window: nat, cb: nat,
                           run: seq<Sys>, steps: seq<SysStep>, n: nat, x: nat) returns (i: nat, r: nat)
    requires JobsOk(jobs, contents) && workers > 0 && window > 0 && cb > 0
    requires SysRun(AtWork(jobs, contents, workers, window, cb), run, steps)
    requires n < |run| && x < |run[n].a.pushed| && run[n].a.pushed[x].code == Success
    ensures i < |jobs| && r < |ListAll(jobs[i].sub.files)|
    ensures run[n].a.pushed[x].request == RequestsOf(SubsOf(jobs)[..i]) + r
    ensures var l := ListAll(jobs[i].sub.files)[r]; var file := FilesOf(SubsOf(jobs)[..i]) + l.file;
            forall a: nat :: l.range.dst <= a < l.range.dst + l.range.size ==>
              run[n].a.memory(a) == contents(file, l.range.offset + (a - l.range.dst))
  {
    hide ConfigOk, SysRun, AtWork, JobsOk, AllPrepared, PlanAll, Shaped, SameShape, AllSucceeded, TasksOf,
      Answers.Placed;
    hide ListAll, Prepared;
    var c := AtWork(jobs, contents, workers, window, cb);
    AtWorkPlan(jobs, contents, workers, window, cb);
    AtWorkOk(jobs, contents, workers, window, cb);
    ResponsesTruthful(c, run, steps, n, x);
    var k := run[n].a.pushed[x].request;
    i, r := RequestFrom(SubsOf(jobs), k);
    PreparedAt(SubsOf(jobs), i);
    PlacedRange(jobs[i].sub, c.plan.requests[k], FilesOf(SubsOf(jobs)[..i]), contents, run[n].a.memory, r);
  }

  lemma PreparedAt(subs: seq<Sub>, i: nat)
    requires AllPrepared(subs) && i < |subs|
    ensures Prepared(subs[i])
  {
  }

  // The request's bytes are the listed range's.
  lemma PlacedRange(s: Sub, q: Request, files: nat, contents: Files, memory: Memory, r: nat)
    requires Prepared(s) && r < |s.requests| && q == MovedRequest(s.requests[r], files)
        && Answers.Placed(q, contents, memory)
    ensures r < |ListAll(s.files)|
    ensures var l := ListAll(s.files)[r];
            forall a: nat :: l.range.dst <= a < l.range.dst + l.range.size ==>
              memory(a) == contents(files + l.file, l.range.offset + (a - l.range.dst))
  {
    hide Prepared, ListAll;
    RequestListed(s, r);
    var l := ListAll(s.files)[r];
    forall a: nat | l.range.dst <= a < l.range.dst + l.range.size
      ensures memory(a) == contents(files + l.file, l.range.offset + (a - l.range.dst))
    {
      assert InRange(q, a);
    }
  }

  lemma RequestListed(s: Sub, r: nat)
    requires Prepared(s) && r < |s.requests|
    ensures r < |ListAll(s.files)| && Submission.Matches(s.requests[r], ListAll(s.files)[r])
  {
    hide Submission.Spread, Submission.RequestServed, Submission.Keyed, ListAll;
    var made: seq<RangeTask> :| Submission.Spread(s.ws, made) && Submission.Served(s.requests, made, ListAll(s.files));
  }

  lemma AllListed(s: Sub)
    requires Prepared(s)
    ensures |s.requests| == |ListAll(s.files)|
  {
    hide Submission.Spread, Submission.RequestServed, Submission.Keyed, ListAll;
    var made: seq<RangeTask> :| Submission.Spread(s.ws, made) && Submission.Served(s.requests, made, ListAll(s.files));
  }

  ghost predicate RangeAnswered(jobs: seq<Job>, i: nat, r: nat, a: State)
    requires i <= |jobs|
  {
    HasResponse(a, RequestsOf(SubsOf(jobs)[..i]) + r)
  }

  // Every listed range of every submission is answered, and only once, and this end can always be reached:
  // from any moment of any run there is a way on, free of further failures, that gets there.
  lemma EveryRangeAnswered(jobs: seq<Job>, contents: Files, workers: nat, window: nat, cb: nat,
                           run: seq<Sys>, steps: seq<SysStep>, n: nat) returns (rest: seq<Sys>, more: seq<SysStep>)
    requires JobsOk(jobs, contents) && workers > 0 && window > 0 && cb > 0
    requires SysRun(AtWork(jobs, contents, workers, window, cb), run, steps) && n < |run|
    ensures Goes(AtWork(jobs, contents, workers, window, cb), rest, more) && rest[0] == run[n] && Quiet(rest[|more|].a)
    ensures Quiet(run[n].a) ==>
              forall i, r :: 0 <= i < |jobs| && 0 <= r < |ListAll(jobs[i].sub.files)| ==>
                RangeAnswered(jobs, i, r, run[n].a)
    ensures forall x, y :: 0 <= x < y < |run[n].a.pushed| ==> run[n].a.pushed[x].request != run[n].a.pushed[y].request
  {
    hide ConfigOk, SysRun, AtWork, JobsOk, Goes, Quiet, SysInv, HasResponse, PlanAll, AllPrepared, ListAll, Prepared;
    var c := AtWork(jobs, contents, workers, window, cb);
    AtWorkPlan(jobs, contents, workers, window, cb);
    AtWorkOk(jobs, contents, workers, window, cb);
    RunOk(c, run, steps, n);
    rest, more := CanFinish(c, run[n]);
    ResponsesOnce(c, run, steps, n);
    if Quiet(run[n].a) {
      forall i: nat, r: nat | i < |jobs| && r < |ListAll(jobs[i].sub.files)|
        ensures RangeAnswered(jobs, i, r, run[n].a)
      {
        PreparedAt(SubsOf(jobs), i);
        AllListed(jobs[i].sub);
        RequestAt(SubsOf(jobs), i, r);
      }
    }
  }

  lemma AtWorkPlan(jobs: seq<Job>, contents: Files, workers: nat, window: nat, cb: nat)
    requires JobsOk(jobs, contents)
    ensures var c := AtWork(jobs, contents, workers, window, cb);
            AllPrepared(SubsOf(jobs)) && c.plan == PlanAll(SubsOf(jobs)) && c.files == contents
  {
    hide JobOk, AllPrepared, AllApart, PlanAll, Build;
  }
}

// What runs for prepared submissions: one thread per batch of files, one load per object-storage workload.
// Every task of the plan is done by exactly one of them.
module Parts {
  import opened Batches
  import opened Events
  import opened Traces
  import opened Answers
  import opened Plans
  import opened System
  import Submission
  import WM = WorkerModel

  // A batch read from a file, with what its thread did, or a workload handed to the object-storage pool.
  datatype Part =
    | Batched(home: Home, tasks: seq<RangeTask>, content: seq<int>, trace: seq<Event>)
    | Loaded(home: Home, batches: Submission.Workload)

  function TasksIn(part: Part): seq<RangeTask>
  {
    if part.Batched? then part.tasks else Submission.WorkTasks(part.batches)
  }

  function AllTasksIn(parts: seq<Part>): seq<RangeTask>
  {
    if parts == [] then [] else AllTasksIn(parts[..|parts|-1]) + TasksIn(parts[|parts|-1])
  }

  function HomesIn(parts: seq<Part>): seq<Home>
  {
    if parts == [] then []
    else HomesIn(parts[..|parts|-1]) + Times(|TasksIn(parts[|parts|-1])|, parts[|parts|-1].home)
  }

  // ---------------------------------------------------------------- a workload for the object-storage pool

  // Its tasks are numbered as in the plan, and a file is read from the source of the same number.
  function LoadTask(id: nat, t: RangeTask): WM.Task { WM.Task(id, t.offset, t.size, t.dst + t.relative) }

  function LoadBatch(base: nat, b: Submission.Batch): WM.Batch
  {
    WM.Batch(b.fileIndex, b.fileIndex, seq(|b.tasks|, k requires 0 <= k < |b.tasks| => LoadTask(base + k, b.tasks[k])))
  }

  function LoadOf(base: nat, w: Submission.Workload): WM.Workload
  {
    if w == [] then []
    else LoadOf(base, w[..|w|-1]) + [LoadBatch(base + |Submission.WorkTasks(w[..|w|-1])|, w[|w|-1])]
  }

  // Every task of a batch reads the batch's file.
  ghost predicate OneFile(b: Submission.Batch)
  {
    forall k :: 0 <= k < |b.tasks| ==> b.tasks[k].file == b.fileIndex
  }

  function LoadFileTask(id: nat, t: RangeTask): WM.FileTask { WM.FileTask(t.file, t.file, LoadTask(id, t)) }

  function LoadFileTasks(base: nat, ts: seq<RangeTask>): seq<WM.FileTask>
  {
    seq(|ts|, i requires 0 <= i < |ts| => LoadFileTask(base + i, ts[i]))
  }

  lemma LoadAppend(base: nat, a: seq<RangeTask>, b: seq<RangeTask>)
    ensures LoadFileTasks(base, a + b) == LoadFileTasks(base, a) + LoadFileTasks(base + |a|, b)
  {
  }

  lemma BatchTasks(base: nat, b: Submission.Batch)
    requires OneFile(b)
    ensures WM.TasksOf(LoadBatch(base, b)) == LoadFileTasks(base, b.tasks)
  {
  }

  lemma {:induction false} AllTasksLast(front: WM.Workload, b: WM.Batch)
    ensures WM.AllTasks(front + [b]) == WM.AllTasks(front) + WM.TasksOf(b)
  {
    assert (front + [b])[..|front|] == front;
  }

  lemma {:induction false} LoadTasks(base: nat, w: Submission.Workload)
    requires forall j :: 0 <= j < |w| ==> OneFile(w[j])
    ensures WM.AllTasks(LoadOf(base, w)) == LoadFileTasks(base, Submission.WorkTasks(w))
  {
    if w != [] {
      var n := |w| - 1;
      LoadTasks(base, w[..n]);
      var some := Submission.WorkTasks(w[..n]);
      BatchTasks(base + |some|, w[n]);
      AllTasksLast(LoadOf(base, w[..n]), LoadBatch(base + |some|, w[n]));
      LoadAppend(base, some, w[n].tasks);
      hide WM.AllTasks, LoadBatch, OneFile, LoadFileTasks, WM.TasksOf;
    }
  }

  // ---------------------------------------------------------------- who does which task

  datatype Built = Built(readers: seq<Reader>, loads: seq<Load>, place: seq<Place>)

  ghost function Consecutive(base: nat, n: nat): seq<nat> { seq(n, k => base + k) }

  ghost function WithPart(b: Built, part: Part): Built
  {
    var base, n := |b.place|, |TasksIn(part)|;
    match part
    case Batched(home, _, content, trace) =>
      Built(b.readers + [Reader(home, Consecutive(base, n), content, trace)], b.loads,
            b.place + seq(n, k requires 0 <= k < n => InBatch(|b.readers|, k)))
    case Loaded(home, batches) =>
      Built(b.readers, b.loads + [Load(home, LoadOf(base, batches))],
            b.place + seq(n, i requires 0 <= i < n => InLoad(|b.loads|, i)))
  }

  ghost function Build(parts: seq<Part>): Built
  {
    if parts == [] then Built([], [], []) else WithPart(Build(parts[..|parts|-1]), parts[|parts|-1])
  }

  lemma {:induction false} BuildCounts(parts: seq<Part>)
    ensures |Build(parts).place| == |AllTasksIn(parts)| == |HomesIn(parts)|
  {
    if parts != [] {
      BuildCounts(parts[..|parts|-1]);
    }
  }

  ghost predicate BuiltOk(b: Built) { Placing(b.readers, b.loads, b.place) }

  ghost predicate PartShaped(part: Part)
  {
    part.Loaded? ==> forall j :: 0 <= j < |part.batches| ==> OneFile(part.batches[j])
  }

  lemma WithBatch(b: Built, part: Part)
    requires BuiltOk(b) && part.Batched?
    ensures BuiltOk(WithPart(b, part))
  {
    var b' := WithPart(b, part);
    forall t: nat | t < |b'.place| ensures PlaceFits(b'.readers, b'.loads, b'.place[t], t) {
      if t < |b.place| {
        assert PlaceFits(b.readers, b.loads, b.place[t], t);
      }
    }
    forall r, k: nat | 0 <= r < |b'.readers| && k < |b'.readers[r].index|
      ensures PlacedAt(b'.place, b'.readers[r].index[k], InBatch(r, k))
    {
      if r < |b.readers| {
        assert PlacedAt(b.place, b.readers[r].index[k], InBatch(r, k));
      }
    }
    forall j, i: nat | 0 <= j < |b'.loads| && i < |WM.AllTasks(b'.loads[j].work)|
      ensures PlacedAt(b'.place, WM.AllTasks(b'.loads[j].work)[i].task.id, InLoad(j, i))
    {
      assert PlacedAt(b.place, WM.AllTasks(b.loads[j].work)[i].task.id, InLoad(j, i));
    }
  }

  lemma WithLoad(b: Built, part: Part)
    requires BuiltOk(b) && part.Loaded? && PartShaped(part)
    ensures BuiltOk(WithPart(b, part))
  {
    hide WM.AllTasks, LoadOf;
    LoadTasks(|b.place|, part.batches);
    var b' := WithPart(b, part);
    forall t: nat | t < |b'.place| ensures PlaceFits(b'.readers, b'.loads, b'.place[t], t) {
      if t < |b.place| {
        assert PlaceFits(b.readers, b.loads, b.place[t], t);
      }
    }
    forall r, k: nat | 0 <= r < |b'.readers| && k < |b'.readers[r].index|
      ensures PlacedAt(b'.place, b'.readers[r].index[k], InBatch(r, k))
    {
      assert PlacedAt(b.place, b.readers[r].index[k], InBatch(r, k));
    }
    forall j, i: nat | 0 <= j < |b'.loads| && i < |WM.AllTasks(b'.loads[j].work)|
      ensures PlacedAt(b'.place, WM.AllTasks(b'.loads[j].work)[i].task.id, InLoad(j, i))
    {
      if j < |b.loads| {
        assert PlacedAt(b.place, WM.AllTasks(b.loads[j].work)[i].task.id, InLoad(j, i));
      }
    }
  }

  lemma {:induction false} BuildOk(parts: seq<Part>)
    requires forall q :: 0 <= q < |parts| ==> PartShaped(parts[q])
    ensures BuiltOk(Build(parts))
  {
    if parts != [] {
      BuildOk(parts[..|parts|-1]);
      hide BuiltOk, PartShaped;
      var last := parts[|parts|-1];
      assert PartShaped(last);
      if last.Batched? {
        WithBatch(Build(parts[..|parts|-1]), last);
      } else {
        WithLoad(Build(parts[..|parts|-1]), last);
      }
    }
  }

  // ---------------------------------------------------------------- each of them fits the plan

  // The part has its home in the plan; a batch's thread did what Batch.Execute promises with the file's bytes.
  ghost predicate PartOk(p: Plan, files: Files, part: Part)
  {
    && HomeFits(p, part.home) && PartShaped(part)
    && (part.Batched? ==>
          && (forall k, i :: 0 <= k < |part.tasks| && 0 <= i < |part.content| ==>
            part.content[i] == files(part.tasks[k].file, i))
          && Good(part.tasks, part.content, part.trace) && AllDone(part.tasks, part.trace))
  }

  ghost predicate TasksAt(p: Plan, base: nat, part: Part)
  {
    var n := |TasksIn(part)|;
    && base + n <= |p.tasks| == |p.home|
    && p.tasks[base..base + n] == TasksIn(part) && p.home[base..base + n] == Times(n, part.home)
  }

  lemma TaskAt(p: Plan, base: nat, part: Part, k: nat)
    requires TasksAt(p, base, part) && k < |TasksIn(part)|
    ensures base + k < |p.tasks| == |p.home| && p.tasks[base + k] == TasksIn(part)[k] && p.home[base + k] == part.home
  {
    var n := |TasksIn(part)|;
    assert p.tasks[base..base + n][k] == p.tasks[base + k] && p.home[base..base + n][k] == p.home[base + k];
  }

  lemma ReaderOfPart(p: Plan, files: Files, base: nat, part: Part)
    requires Shaped(p) && PartOk(p, files, part) && part.Batched? && TasksAt(p, base, part)
    ensures ReaderFits(p, files, Reader(part.home, Consecutive(base, |part.tasks|), part.content, part.trace))
  {
    hide Shaped, Good, AllDone;
    var r := Reader(part.home, Consecutive(base, |part.tasks|), part.content, part.trace);
    forall k | 0 <= k < |r.index|
      ensures r.index[k] < |p.tasks| && p.home[r.index[k]] == r.home && p.tasks[r.index[k]] == part.tasks[k]
    {
      TaskAt(p, base, part, k);
    }
    assert Indexed(p, r);
    assert Local(p, r) == part.tasks;
  }

  lemma {:induction false} LoadOfPart(p: Plan, files: Files, base: nat, part: Part)
    requires Shaped(p) && PartOk(p, files, part) && part.Loaded? && TasksAt(p, base, part)
    ensures LoadFits(p, files, files, Load(part.home, LoadOf(base, part.batches)))
  {
    hide Shaped, WM.AllTasks, LoadOf;
    LoadTasks(base, part.batches);
    var all := WM.AllTasks(LoadOf(base, part.batches));
    forall ft | ft in all ensures TaskFits(p, files, files, part.home, ft) {
      var i :| 0 <= i < |all| && all[i] == ft;
      TaskAt(p, base, part, i);
    }
  }

  ghost predicate AllFit(p: Plan, files: Files, b: Built)
    requires Shaped(p)
  {
    && (forall r :: 0 <= r < |b.readers| ==> ReaderFits(p, files, b.readers[r]))
    && (forall j :: 0 <= j < |b.loads| ==> LoadFits(p, files, files, b.loads[j]))
  }

  lemma {:induction false} BuildFits(p: Plan, files: Files, parts: seq<Part>)
    requires Shaped(p) && AllTasksIn(parts) <= p.tasks && HomesIn(parts) <= p.home
    requires forall q :: 0 <= q < |parts| ==> PartOk(p, files, parts[q])
    ensures AllFit(p, files, Build(parts))
  {
    hide PartOk, AllFit, Shaped, AllTasksIn, HomesIn, TasksAt, WithPart;
    if parts == [] {
      NoneFit(p, files);
    } else {
      var front, last := parts[..|parts|-1], parts[|parts|-1];
      PlanLength(p);
      FrontPrefix(p, parts);
      BuildFits(p, files, front);
      BuildCounts(front);
      PartAt(p, parts);
      PartFits(p, files, Build(front), last);
    }
  }

  lemma NoneFit(p: Plan, files: Files)
    requires Shaped(p)
    ensures AllFit(p, files, Build([]))
  {
  }

  lemma {:induction false} FrontPrefix(p: Plan, parts: seq<Part>)
    requires parts != [] && AllTasksIn(parts) <= p.tasks && HomesIn(parts) <= p.home
    ensures AllTasksIn(parts[..|parts|-1]) <= p.tasks && HomesIn(parts[..|parts|-1]) <= p.home
  {
    var front, last := parts[..|parts|-1], parts[|parts|-1];
    Tails(p.tasks, AllTasksIn(parts), AllTasksIn(front), TasksIn(last));
    Tails(p.home, HomesIn(parts), HomesIn(front), Times(|TasksIn(last)|, last.home));
  }

  // The reader or load a part becomes fits, as those before it do.
  lemma PartFits(p: Plan, files: Files, b: Built, part: Part)
    requires Shaped(p) && AllFit(p, files, b) && PartOk(p, files, part) && TasksAt(p, |b.place|, part)
    ensures AllFit(p, files, WithPart(b, part))
  {
    hide PartOk, ReaderFits, LoadFits, Shaped, TasksAt, LoadOf, Consecutive;
    if part.Batched? {
      ReaderOfPart(p, files, |b.place|, part);
    } else {
      LoadOfPart(p, files, |b.place|, part);
    }
  }

  lemma PlanLength(p: Plan)
    requires Shaped(p)
    ensures |p.tasks| == |p.home|
  {
  }

  lemma {:induction false} PartAt(p: Plan, parts: seq<Part>)
    requires parts != [] && AllTasksIn(parts) <= p.tasks && HomesIn(parts) <= p.home && |p.tasks| == |p.home|
    ensures TasksAt(p, |AllTasksIn(parts[..|parts|-1])|, parts[|parts|-1])
  {
    var front, last := parts[..|parts|-1], parts[|parts|-1];
    hide AllTasksIn, HomesIn, TasksIn, Times;
    BuildCounts(front);
    LastPart(parts);
    TimesLength(|TasksIn(last)|, last.home);
    Tails(p.tasks, AllTasksIn(parts), AllTasksIn(front), TasksIn(last));
    Tails(p.home, HomesIn(parts), HomesIn(front), Times(|TasksIn(last)|, last.home));
  }

  lemma TimesLength(n: nat, h: Home)
    ensures |Times(n, h)| == n
  {
  }

  lemma LastPart(parts: seq<Part>)
    requires parts != []
    ensures var front, last := parts[..|parts|-1], parts[|parts|-1];
            && AllTasksIn(parts) == AllTasksIn(front) + TasksIn(last)
            && HomesIn(parts) == HomesIn(front) + Times(|TasksIn(last)|, last.home)
  {
  }

  lemma Tails<T>(whole: seq<T>, some: seq<T>, front: seq<T>, last: seq<T>)
    requires some <= whole && some == front + last
    ensures |front| + |last| <= |whole| && front <= whole && whole[|front|..|front| + |last|] == last
  {
    assert some[|front|..] == last;
  }

  // ---------------------------------------------------------------- the configuration

  ghost function ConfigOf(p: Plan, files: Files, parts: seq<Part>, workers: nat, window: nat, cb: nat): Config
  {
    var b := Build(parts);
    Config(p, files, files, b.readers, b.loads, b.place, workers, window, cb)
  }

  // The parts of a good plan, put to work, are a configuration the theorems about runs speak of.
  lemma {:induction false} PartsFit(p: Plan, files: Files, parts: seq<Part>, workers: nat, window: nat, cb: nat)
    requires PlanGood(p) && AllTasksIn(parts) == p.tasks && HomesIn(parts) == p.home
    requires forall q :: 0 <= q < |parts| ==> PartOk(p, files, parts[q])
    requires workers > 0 && window > 0 && cb > 0
    ensures ConfigOk(ConfigOf(p, files, parts, workers, window, cb))
  {
    BuildFits(p, files, parts);
    BuildOk(parts);
    BuildCounts(parts);
    var c := ConfigOf(p, files, parts, workers, window, cb);
    var b := Build(parts);
    hide Build, ReaderFits, LoadFits, PartOk, Shaped, WM.AllTasks;
    assert PlacesFit(c);
  }
}

// The object-storage worker's data, its chunk layout and the invariant its steps keep, on values.
module WorkerModel {
  import opened Codes

  // ---------------------------------------------------------------- data

  // A task as the worker sees it. `id` is the identity of the C++ Task object.
  datatype Task = Task(id: nat, offset: nat, bytesize: nat, destination: nat)

  // `source` stands for the batch's object-storage parameters (the URI read from).
  datatype Batch = Batch(fileIndex: nat, source: nat, tasks: seq<Task>)

  type Workload = seq<Batch>

  // A task together with what its batch says about it.
  datatype FileTask = FileTask(fileIndex: nat, source: nat, task: Task)

  // One ranged read, as handed to the backend.
  datatype Read = Read(source: nat, offset: nat, bytesize: nat, buffer: nat)

  datatype Chunk = Chunk(handle: nat, offset: nat, bytesize: nat, buffer: nat)

  // A chunk of a workload's layout: the owning local task and the read it stands for.
  datatype Piece = Piece(task: nat, read: Read)

  datatype TaskState = TaskState(owner: FileTask, remainingChunks: nat, error: ResponseCode)

  datatype Inflight = Inflight(
    workload: Workload,
    chunkTaskIdx: seq<nat>,
    tasks: seq<TaskState>,
    errorByFile: map<nat, ResponseCode>,
    remainingTasks: nat)

  function Min(a: nat, b: nat): nat { if a < b then a else b }

  // ---------------------------------------------------------------- layout of a workload

  function TasksOf(b: Batch): seq<FileTask>
  {
    seq(|b.tasks|, i requires 0 <= i < |b.tasks| => FileTask(b.fileIndex, b.source, b.tasks[i]))
  }

  function AllTasks(w: Workload): seq<FileTask>
  {
    if w == [] then [] else AllTasks(w[..|w|-1]) + TasksOf(w[|w|-1])
  }

  function NonZero(ts: seq<FileTask>): seq<FileTask>
  {
    if ts == [] then []
    else
      var rest := NonZero(ts[..|ts|-1]);
      if ts[|ts|-1].task.bytesize == 0 then rest else rest + [ts[|ts|-1]]
  }

  // The chunks of one task from its byte `from` on; the last one is the remainder.
  function Pieces(k: nat, ft: FileTask, cb: nat, from: nat): seq<Piece>
    requires cb > 0
    decreases ft.task.bytesize - from
  {
    if from >= ft.task.bytesize then []
    else
      var bs := Min(ft.task.bytesize - from, cb);
      [Piece(k, Read(ft.source, ft.task.offset + from, bs, ft.task.destination + from))]
      + Pieces(k, ft, cb, from + bs)
  }

  function Layout(ts: seq<FileTask>, cb: nat): seq<Piece>
    requires cb > 0
  {
    if ts == [] then []
    else Layout(ts[..|ts|-1], cb) + Pieces(|ts|-1, ts[|ts|-1], cb, 0)
  }

  function Plan(w: Workload, cb: nat): seq<Piece>
    requires cb > 0
  {
    Layout(NonZero(AllTasks(w)), cb)
  }

  function CeilDiv(a: nat, b: nat): nat
    requires b > 0
  {
    (a + b - 1) / b
  }

  function ChunkTotal(ts: seq<FileTask>, cb: nat): nat
    requires cb > 0
  {
    if ts == [] then 0
    else ChunkTotal(ts[..|ts|-1], cb) + CeilDiv(ts[|ts|-1].task.bytesize, cb)
  }

  lemma DivUnique(x: nat, b: nat, q: nat, r: nat)
    requires 0 <= r < b && x == q * b + r
    ensures x / b == q
  {
    var d := x / b - q;
    assert d * b == r - x % b;
    assert d >= 1 ==> d * b >= b;
    assert d <= -1 ==> d * b + b <= 0;
  }

  // No bytes take no chunks.
  lemma CeilDivZero(b: nat)
    requires b > 0
    ensures CeilDiv(0, b) == 0
  {
    DivUnique(b - 1, b, 0, b - 1);
  }

  lemma CeilDivStep(a: nat, b: nat)
    requires b > 0 && a > 0
    ensures CeilDiv(a, b) == 1 + (if a <= b then 0 else CeilDiv(a - b, b))
  {
    var q := (a - 1) / b;
    var r := (a - 1) % b;
    DivUnique(a + b - 1, b, q + 1, r);
    if a <= b {
      DivUnique(a - 1, b, 0, a - 1);
    }
  }

  // The ceiling computed up front is the number of chunks the splitting loop makes.
  lemma {:induction false} PiecesCount(k: nat, ft: FileTask, cb: nat, from: nat)
    requires cb > 0 && from <= ft.task.bytesize
    ensures |Pieces(k, ft, cb, from)| == CeilDiv(ft.task.bytesize - from, cb)
    decreases ft.task.bytesize - from
  {
    hide CeilDiv;
    var left := ft.task.bytesize - from;
    CeilDivZero(cb);
    if left > 0 {
      CeilDivStep(left, cb);
      PiecesCount(k, ft, cb, from + Min(left, cb));
    }
  }

  lemma {:induction false} LayoutCount(ts: seq<FileTask>, cb: nat)
    requires cb > 0
    ensures |Layout(NonZero(ts), cb)| == ChunkTotal(ts, cb)
  {
    if ts != [] {
      hide Pieces, CeilDiv;
      var last := ts[|ts|-1];
      LayoutCount(ts[..|ts|-1], cb);
      var rest := NonZero(ts[..|ts|-1]);
      CeilDivZero(cb);
      if last.task.bytesize != 0 {
        assert (rest + [last])[..|rest|] == rest;
        PiecesCount(|rest|, last, cb, 0);
      }
    }
  }

  lemma {:induction false} PiecesTask(k: nat, ft: FileTask, cb: nat, from: nat)
    requires cb > 0
    ensures forall i :: 0 <= i < |Pieces(k, ft, cb, from)| ==>
              Pieces(k, ft, cb, from)[i].task == k && Pieces(k, ft, cb, from)[i].read.source == ft.source
    decreases ft.task.bytesize - from
  {
    if from < ft.task.bytesize {
      PiecesTask(k, ft, cb, from + Min(ft.task.bytesize - from, cb));
    }
  }

  lemma {:induction false} LayoutTask(ts: seq<FileTask>, cb: nat)
    requires cb > 0
    ensures forall i :: 0 <= i < |Layout(ts, cb)| ==>
              Layout(ts, cb)[i].task < |ts| && Layout(ts, cb)[i].read.source == ts[Layout(ts, cb)[i].task].source
  {
    if ts != [] {
      LayoutTask(ts[..|ts|-1], cb);
      PiecesTask(|ts|-1, ts[|ts|-1], cb, 0);
    }
  }

  // Every chunk of every task of the layout is somewhere in the layout, tagged with its task.
  lemma {:induction false} LayoutHolds(ts: seq<FileTask>, cb: nat, k: nat, p: Piece)
    requires cb > 0 && k < |ts| && p in Pieces(k, ts[k], cb, 0)
    ensures exists i :: 0 <= i < |Layout(ts, cb)| && Layout(ts, cb)[i] == p && p.task == k
  {
    PiecesTask(k, ts[k], cb, 0);
    var prefix := Layout(ts[..|ts|-1], cb);
    if k == |ts| - 1 {
      var j :| 0 <= j < |Pieces(k, ts[k], cb, 0)| && Pieces(k, ts[k], cb, 0)[j] == p;
      assert Layout(ts, cb)[|prefix| + j] == p;
    } else {
      LayoutHolds(ts[..|ts|-1], cb, k, p);
      var i :| 0 <= i < |prefix| && prefix[i] == p;
      assert Layout(ts, cb)[i] == p;
    }
  }

  lemma {:induction false} NonZeroFacts(ts: seq<FileTask>)
    ensures |NonZero(ts)| <= |ts|
    ensures forall x :: x in NonZero(ts) <==> x in ts && x.task.bytesize != 0
  {
    if ts != [] {
      var front := ts[..|ts|-1];
      NonZeroFacts(front);
      assert ts == front + [ts[|ts|-1]];
      assert forall x :: x in ts <==> x in front || x == ts[|ts|-1];
    }
  }

  // Chunks of a task cover each of its bytes, file offset and destination advancing together.
  lemma {:induction false} PiecesCover(k: nat, ft: FileTask, cb: nat, from: nat, byte: nat)
    requires cb > 0 && from <= byte < ft.task.bytesize
    ensures exists p :: p in Pieces(k, ft, cb, from) && Carries(p.read, ft, byte)
    decreases ft.task.bytesize - from
  {
    var bs := Min(ft.task.bytesize - from, cb);
    var head := Pieces(k, ft, cb, from)[0];
    if byte < from + bs {
      assert Carries(head.read, ft, byte);
    } else {
      PiecesCover(k, ft, cb, from + bs, byte);
      var p :| p in Pieces(k, ft, cb, from + bs) && Carries(p.read, ft, byte);
      assert p in Pieces(k, ft, cb, from);
    }
  }

  // `r` reads byte `byte` of the task from the right place into the right place.
  ghost predicate Carries(r: Read, ft: FileTask, byte: nat)
  {
    && r.source == ft.source
    && r.offset <= ft.task.offset + byte < r.offset + r.bytesize
    && r.buffer + (ft.task.offset + byte - r.offset) == ft.task.destination + byte
  }

  // ---------------------------------------------------------------- finishing tasks

  // Task::finished_request on the whole workload: only the first call for a task counts.
  function Finish(outcomes: map<nat, ResponseCode>, id: nat, code: ResponseCode): map<nat, ResponseCode>
  {
    if id in outcomes then outcomes else outcomes[id := code]
  }

  function CodeFor(fileIndex: nat, errs: map<nat, ResponseCode>, code: ResponseCode): ResponseCode
  {
    if code == Success && fileIndex in errs then errs[fileIndex] else code
  }

  // report_workload over the flattened tasks: handle_error(Success) does nothing.
  function Report(outcomes: map<nat, ResponseCode>, ts: seq<FileTask>,
                  errs: map<nat, ResponseCode>, code: ResponseCode): map<nat, ResponseCode>
  {
    if ts == [] then outcomes
    else
      var rest := Report(outcomes, ts[..|ts|-1], errs, code);
      var last := ts[|ts|-1];
      var c := CodeFor(last.fileIndex, errs, code);
      if c == Success then rest else Finish(rest, last.task.id, c)
  }

  lemma {:induction false} ReportSnoc(outcomes: map<nat, ResponseCode>, ts: seq<FileTask>, last: FileTask,
                                      errs: map<nat, ResponseCode>, code: ResponseCode)
    ensures var rest := Report(outcomes, ts, errs, code);
            var c := CodeFor(last.fileIndex, errs, code);
            Report(outcomes, ts + [last], errs, code) == if c == Success then rest else Finish(rest, last.task.id, c)
  {
    assert (ts + [last])[..|ts|] == ts;
  }

  ghost predicate DistinctIds(ts: seq<FileTask>)
  {
    forall i, j :: 0 <= i < j < |ts| ==> ts[i].task.id != ts[j].task.id
  }

  ghost predicate HasId(ts: seq<FileTask>, id: nat)
  {
    exists i :: 0 <= i < |ts| && ts[i].task.id == id
  }

  lemma HasIdLast(front: seq<FileTask>, last: FileTask)
    requires DistinctIds(front + [last])
    ensures DistinctIds(front) && !HasId(front, last.task.id)
    ensures forall id :: HasId(front + [last], id) <==> HasId(front, id) || id == last.task.id
  {
    var ts := front + [last];
    assert forall i :: 0 <= i < |front| ==> ts[i] == front[i];
    assert ts[|front|] == last;
    forall id | HasId(front, id) ensures HasId(ts, id) {
      var i :| 0 <= i < |front| && front[i].task.id == id;
      assert ts[i].task.id == id;
    }
  }

  lemma {:induction false} ReportFacts(outcomes: map<nat, ResponseCode>, ts: seq<FileTask>,
                                       errs: map<nat, ResponseCode>, code: ResponseCode)
    requires DistinctIds(ts)
    ensures var r := Report(outcomes, ts, errs, code);
            && (forall id :: id in outcomes ==> id in r && r[id] == outcomes[id])
            && (forall id :: id in r ==> id in outcomes || HasId(ts, id))
            && (forall i :: 0 <= i < |ts| && ts[i].task.id !in outcomes ==>
                  var c := CodeFor(ts[i].fileIndex, errs, code);
                  (ts[i].task.id in r <==> c != Success) && (ts[i].task.id in r ==> r[ts[i].task.id] == c))
  {
    if ts != [] {
      var front, last := ts[..|ts|-1], ts[|ts|-1];
      ReportFacts(outcomes, front, errs, code);
      assert ts == front + [last];
      ReportSnoc(outcomes, front, last, errs, code);
      hide Report, CodeFor;
      var rest := Report(outcomes, front, errs, code);
      HasIdLast(front, last);
      assert last.task.id in rest ==> last.task.id in outcomes;
      forall i | 0 <= i < |ts| && ts[i].task.id !in outcomes
        ensures var c := CodeFor(ts[i].fileIndex, errs, code); var r := Report(outcomes, ts, errs, code);
          (ts[i].task.id in r <==> c != Success) && (ts[i].task.id in r ==> r[ts[i].task.id] == c)
      {
        if i < |front| {
          assert front[i] == ts[i];
        }
      }
    }
  }
}

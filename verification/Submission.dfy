// Building a submission: from the caller's ranges to the batches of every workload.
module Submission {
  import opened Codes
  import opened BackendLock
  import opened Seqs
  import opened Assigner
  import opened Assignment
  import opened Batches

  // ---------------------------------------------------------------- data

  // A contiguous stretch of one file, read by one worker.
  datatype Batch = Batch(fileIndex: nat, workload: nat, tasks: seq<RangeTask>)

  type Workload = seq<Batch>

  function WorkTasks(w: Workload): seq<RangeTask>
  {
    if w == [] then [] else WorkTasks(w[..|w|-1]) + w[|w|-1].tasks
  }

  function AllWork(ws: seq<Workload>): seq<RangeTask>
  {
    if ws == [] then [] else AllWork(ws[..|ws|-1]) + WorkTasks(ws[|ws|-1])
  }

  // ---------------------------------------------------------------- what a plan promises

  // The request object of a listed range, whatever its task counter.
  ghost predicate Matches(q: Request, l: Listed)
  {
    q == Request(l.range.offset, l.file, l.index, q.tasks, l.range.size, l.range.dst)
  }

  ghost predicate KeysDistinct(listed: seq<Listed>)
  {
    forall i, j :: 0 <= i < j < |listed| ==> (listed[i].file, listed[i].index) != (listed[j].file, listed[j].index)
  }

  ghost predicate Keyed(t: RangeTask, listed: seq<Listed>)
  {
    exists i :: 0 <= i < |listed| && Owns(t, listed[i].file, listed[i].index)
  }

  // Every listed range has its own request, tiled and counted by its own tasks; there are no other tasks.
  ghost predicate Served(requests: seq<Request>, made: seq<RangeTask>, listed: seq<Listed>)
  {
    && |requests| == |listed|
    && (forall i :: 0 <= i < |listed| ==> Matches(requests[i], listed[i]) && RequestServed(requests[i], made))
    && (forall k :: 0 <= k < |made| ==> Keyed(made[k], listed))
  }

  ghost predicate RequestServed(q: Request, made: seq<RangeTask>)
  {
    Serves(OfRange(made, q.fileIndex, q.index), q)
  }

  // One worker reads the batch with one run of the file into one run of memory.
  ghost predicate BatchOk(b: Batch, w: nat)
  {
    && b.workload == w && b.tasks != []
    && (forall k :: 0 <= k < |b.tasks| ==> b.tasks[k].file == b.fileIndex)
    && Chain(b.tasks, b.tasks[0].offset, b.tasks[0].dst + b.tasks[0].relative)
  }

  ghost predicate WorkloadsOk(ws: seq<Workload>)
  {
    forall w, j :: 0 <= w < |ws| && 0 <= j < |ws[w]| ==> BatchOk(ws[w][j], w)
  }

  // The workloads hold exactly the tasks that were made.
  ghost predicate Spread(ws: seq<Workload>, made: seq<RangeTask>)
  {
    WorkloadsOk(ws) && multiset(AllWork(ws)) == multiset(made)
  }

  // ---------------------------------------------------------------- which worker reads what

  // The batch reads the slice: same worker, file, start, size and destination.
  ghost predicate Reads(b: Batch, s: FileReadTask)
  {
    && b.workload == s.workload && b.fileIndex == s.fileIndex && Bytes(b.tasks) == s.size && b.tasks != []
    && b.tasks[0].offset == s.offset && b.tasks[0].dst + b.tasks[0].relative == s.destination
  }

  // One batch for each slice, in order.
  ghost predicate ReadsAll(bs: seq<Batch>, ss: seq<FileReadTask>)
  {
    |bs| == |ss| && forall i :: 0 <= i < |bs| ==> Reads(bs[i], ss[i])
  }

  ghost function OfWorker(ss: seq<FileReadTask>, w: nat): seq<FileReadTask>
  {
    if ss == [] then [] else OfWorker(ss[..|ss|-1], w) + if ss[|ss|-1].workload == w then [ss[|ss|-1]] else []
  }

  // Every worker has exactly the slices cut for it, in order.
  ghost predicate HasSlices(ws: seq<Workload>, ss: seq<FileReadTask>)
  {
    forall w :: 0 <= w < |ws| ==> ReadsAll(ws[w], OfWorker(ss, w))
  }

  lemma {:induction false} OfWorkerSnoc(ss: seq<FileReadTask>, s: FileReadTask, w: nat)
    ensures OfWorker(ss + [s], w) == OfWorker(ss, w) + if s.workload == w then [s] else []
  {
    assert (ss + [s])[..|ss|] == ss;
  }

  lemma {:induction false} NoSlices(ws: seq<Workload>)
    requires forall w :: 0 <= w < |ws| ==> ws[w] == []
    ensures HasSlices(ws, [])
  {
  }

  lemma OneMoreSlice(ws: seq<Workload>, ss: seq<FileReadTask>, b: Batch, s: FileReadTask)
    requires HasSlices(ws, ss) && Reads(b, s) && b.workload < |ws|
    ensures HasSlices(ws[b.workload := ws[b.workload] + [b]], ss + [s])
  {
    hide Reads, OfWorker;
    assert b.workload == s.workload by { SameWorker(b, s); }
    var us := ws[b.workload := ws[b.workload] + [b]];
    forall w | 0 <= w < |us| ensures ReadsAll(us[w], OfWorker(ss + [s], w)) {
      OfWorkerSnoc(ss, s, w);
      assert ReadsAll(ws[w], OfWorker(ss, w));
    }
  }

  lemma SameWorker(b: Batch, s: FileReadTask)
    requires Reads(b, s)
    ensures b.workload == s.workload
  {
  }

  lemma {:induction false} WorkBytes(bs: seq<Batch>, ss: seq<FileReadTask>, w: nat)
    requires ReadsAll(bs, OfWorker(ss, w))
    ensures Bytes(WorkTasks(bs)) == WorkerBytes(ss, w)
  {
    if ss != [] {
      var n := |ss| - 1;
      OfWorkerSnoc(ss[..n], ss[n], w);
      assert ss[..n] + [ss[n]] == ss;
      if ss[n].workload == w {
        var m := |bs| - 1;
        assert Reads(bs[m], OfWorker(ss, w)[m]);
        assert ReadsAll(bs[..m], OfWorker(ss[..n], w)) by { FrontReads(bs, OfWorker(ss[..n], w), ss[n]); }
        WorkBytes(bs[..m], ss[..n], w);
        BytesAppend(WorkTasks(bs[..m]), bs[m].tasks);
      } else {
        WorkBytes(bs, ss[..n], w);
      }
    }
  }

  lemma {:induction false} FrontReads(bs: seq<Batch>, ss: seq<FileReadTask>, s: FileReadTask)
    requires ReadsAll(bs, ss + [s])
    ensures ReadsAll(bs[..|bs|-1], ss)
  {
    hide Reads;
    forall i | 0 <= i < |ss| ensures Reads(bs[..|bs|-1][i], ss[i]) {
      assert (ss + [s])[i] == ss[i];
    }
  }

  // ---------------------------------------------------------------- adding one transfer

  lemma {:induction false} NewRequest(made: seq<RangeTask>, log: seq<RangeTask>, q: Request)
    requires Serves(OfRange(log, q.fileIndex, q.index), q)
    requires forall k :: 0 <= k < |made| ==> !Owns(made[k], q.fileIndex, q.index)
    ensures RequestServed(q, made + log)
  {
    hide OfRange, Serves;
    OfRangeAppend(made, log, q.fileIndex, q.index);
    OfRangeNone(made, q.fileIndex, q.index);
    assert OfRange(made + log, q.fileIndex, q.index) == OfRange(log, q.fileIndex, q.index);
  }

  lemma OldRequest(made: seq<RangeTask>, log: seq<RangeTask>, q: Request)
    requires RequestServed(q, made)
    requires forall k :: 0 <= k < |log| ==> !Owns(log[k], q.fileIndex, q.index)
    ensures RequestServed(q, made + log)
  {
    hide OfRange, Serves;
    OfRangeAppend(made, log, q.fileIndex, q.index);
    OfRangeNone(log, q.fileIndex, q.index);
    assert OfRange(made + log, q.fileIndex, q.index) == OfRange(made, q.fileIndex, q.index);
  }

  lemma KeyedGrows(t: RangeTask, a: seq<Listed>, b: seq<Listed>)
    ensures Keyed(t, a) ==> Keyed(t, a + b)
    ensures Keyed(t, b) ==> Keyed(t, a + b)
  {
    if Keyed(t, a) {
      var i :| 0 <= i < |a| && Owns(t, a[i].file, a[i].index);
      assert (a + b)[i] == a[i];
    }
    if Keyed(t, b) {
      var i :| 0 <= i < |b| && Owns(t, b[i].file, b[i].index);
      assert (a + b)[|a| + i] == b[i];
    }
  }

  lemma KeysApart(a: seq<Listed>, b: seq<Listed>, i: nat, j: nat)
    requires KeysDistinct(a + b) && i < |a| && j < |b|
    ensures (a[i].file, a[i].index) != (b[j].file, b[j].index)
  {
    assert (a + b)[i] == a[i] && (a + b)[|a| + j] == b[j];
  }

  lemma NotKeyed(t: RangeTask, listed: seq<Listed>, l: Listed)
    requires Keyed(t, listed)
    requires forall i :: 0 <= i < |listed| ==> (listed[i].file, listed[i].index) != (l.file, l.index)
    ensures !Owns(t, l.file, l.index)
  {
  }

  lemma ServedStep(requests: seq<Request>, made: seq<RangeTask>, listed: seq<Listed>,
                   more: seq<Request>, log: seq<RangeTask>, fresh': seq<Listed>)
    requires Served(requests, made, listed) && KeysDistinct(listed + fresh')
    requires |more| == |fresh'| && forall i :: 0 <= i < |more| ==>
        Matches(more[i], fresh'[i]) && RequestServed(more[i], log)
    requires forall k :: 0 <= k < |log| ==> Keyed(log[k], fresh')
    ensures Served(requests + more, made + log, listed + fresh')
  {
    hide OfRange, Serves, Keyed, Owns, KeysDistinct;
    var all := listed + fresh';
    forall i | 0 <= i < |all|
      ensures Matches((requests + more)[i], all[i]) && RequestServed((requests + more)[i], made + log)
    {
      if i < |listed| {
        forall j: nat | j < |fresh'| ensures (fresh'[j].file, fresh'[j].index) != (listed[i].file, listed[i].index) {
          KeysApart(listed, fresh', i, j);
        }
        forall k | 0 <= k < |log| ensures !Owns(log[k], listed[i].file, listed[i].index) {
          NotKeyed(log[k], fresh', listed[i]);
        }
        assert RequestServed(requests[i], made);
        OldRequest(made, log, requests[i]);
      } else {
        var j := i - |listed|;
        forall l: nat | l < |listed| ensures (listed[l].file, listed[l].index) != (fresh'[j].file, fresh'[j].index) {
          KeysApart(listed, fresh', l, j);
        }
        forall k | 0 <= k < |made| ensures !Owns(made[k], fresh'[j].file, fresh'[j].index) {
          NotKeyed(made[k], listed, fresh'[j]);
        }
        assert RequestServed(more[j], log);
        NewRequest(made, log, more[j]);
      }
    }
    forall k | 0 <= k < |made + log| ensures Keyed((made + log)[k], all) {
      KeyedGrows((made + log)[k], listed, fresh');
    }
  }

  // What BuildTasks logged for a transfer serves the ranges the transfer covers.
  lemma LogServed(t: Transfer, log: seq<RangeTask>, requests: seq<Request>)
    requires Log(log, requests, t.sizes, |t.sizes|, t.fileIndex, t.first, t.offset, t.destination)
    ensures |requests| == |Covered(t)|
    ensures forall i :: 0 <= i < |requests| ==> Matches(requests[i], Covered(t)[i]) && RequestServed(requests[i], log)
    ensures forall k :: 0 <= k < |log| ==> Keyed(log[k], Covered(t))
  {
    hide OfRange, Serves, Chain;
    forall i | 0 <= i < |requests| ensures Matches(requests[i], Covered(t)[i]) && RequestServed(requests[i], log) {
      assert Owed(requests[i], t.sizes, i, t.fileIndex, t.first, t.offset, t.destination);
      assert Serves(OfRange(log, t.fileIndex, t.first + i), requests[i]);
    }
    forall k | 0 <= k < |log| ensures Keyed(log[k], Covered(t)) {
      assert Owns(log[k], Covered(t)[log[k].range - t.first].file, Covered(t)[log[k].range - t.first].index);
    }
  }

  // ---------------------------------------------------------------- adding one batch

  lemma {:induction false} AllWorkSnoc(ws: seq<Workload>, w: Workload)
    ensures AllWork(ws + [w]) == AllWork(ws) + WorkTasks(w)
  {
    assert (ws + [w])[..|ws|] == ws;
  }

  lemma {:induction false} WorkSnoc(w: Workload, b: Batch)
    ensures WorkTasks(w + [b]) == WorkTasks(w) + b.tasks
  {
    assert (w + [b])[..|w|] == w;
  }

  lemma {:induction false} AddBatchWork(ws: seq<Workload>, w: nat, b: Batch)
    requires w < |ws|
    ensures multiset(AllWork(ws[w := ws[w] + [b]])) == multiset(AllWork(ws)) + multiset(b.tasks)
  {
    hide AllWork, WorkTasks;
    var front, last := ws[..|ws|-1], ws[|ws|-1];
    assert ws == front + [last];
    AllWorkSnoc(front, last);
    if w == |ws| - 1 {
      assert ws[w := ws[w] + [b]] == front + [last + [b]];
      AllWorkSnoc(front, last + [b]);
      WorkSnoc(last, b);
    } else {
      AddBatchWork(front, w, b);
      var more := front[w := front[w] + [b]];
      assert ws[w := ws[w] + [b]] == more + [last];
      AllWorkSnoc(more, last);
    }
  }

  lemma SpreadStep(ws: seq<Workload>, made: seq<RangeTask>, b: Batch)
    requires Spread(ws, made) && b.workload < |ws| && BatchOk(b, b.workload)
    ensures Spread(ws[b.workload := ws[b.workload] + [b]], made + b.tasks)
  {
    hide AllWork, BatchOk;
    AddBatchWork(ws, b.workload, b);
    var us := ws[b.workload := ws[b.workload] + [b]];
    forall w, j | 0 <= w < |us| && 0 <= j < |us[w]| ensures BatchOk(us[w][j], w) {
      if w != b.workload || j < |ws[w]| {
        assert us[w][j] == ws[w][j];
      }
    }
  }

  // ---------------------------------------------------------------- every transfer

  ghost predicate Cuttable(t: Transfer, workloads: nat)
  {
    TransferOk(t) && Sliced(t) && WorkersBelow(t.tasks, workloads)
  }

  // Slice b's tasks, as BuildTasks leaves them.
  ghost predicate CutOk(t: Transfer, v: seq<seq<RangeTask>>)
  {
    && |v| == |t.tasks|
    && Chain(Flat(v), t.offset, t.destination)
    && (forall c :: 0 <= c < |v| ==> Bytes(v[c]) == t.tasks[c].size)
    && (forall k :: 0 <= k < |Flat(v)| ==> Flat(v)[k].file == t.fileIndex)
    && (|t.tasks| == 1 ==> v[0] != [])
  }

  // No slice of a sliced transfer is left without tasks.
  lemma SliceNotEmpty(t: Transfer, v: seq<seq<RangeTask>>, b: nat)
    requires NoEmptySlice(t) && CutOk(t, v) && b < |v|
    ensures v[b] != []
  {
    hide Chain, Flat;
    if t.size > 0 {
      assert t.tasks[b].size > 0;
      assert Bytes([]) == 0;
    }
  }

  // The batch of a slice starts where the slice does.
  lemma SliceBatch(t: Transfer, v: seq<seq<RangeTask>>, b: nat)
    requires Tiles(t) && CutOk(t, v) && b < |v| && v[b] != []
    ensures forall k :: 0 <= k < |v[b]| ==> v[b][k].file == t.fileIndex
    ensures v[b][0].offset == t.tasks[b].offset && v[b][0].dst + v[b][0].relative == t.tasks[b].destination
    ensures Chain(v[b], t.tasks[b].offset, t.tasks[b].destination)
  {
    hide Chain, Flat, Bytes, TaskBytes;
    forall k: nat | k < |v[b]| ensures v[b][k].file == t.fileIndex {
      FlatMember(v, b, k);
    }
    assert TaskAt(t, b);
    BatchChain(v, t.tasks, b, t.offset, t.destination);
    ChainHead(v[b], t.tasks[b].offset, t.tasks[b].destination);
  }

  lemma ChainHead(ts: seq<RangeTask>, offset: nat, dst: nat)
    requires Chain(ts, offset, dst) && ts != []
    ensures ts[0].offset == offset && ts[0].dst + ts[0].relative == dst
  {
    assert Link(ts, 0, offset, dst);
    assert ts[..0] == [];
  }

  lemma NewBatch(t: Transfer, v: seq<seq<RangeTask>>, b: nat, workloads: nat)
    requires Cuttable(t, workloads) && CutOk(t, v) && b < |v|
    ensures v[b] != [] && t.tasks[b].workload < workloads
    ensures BatchOk(Batch(t.fileIndex, t.tasks[b].workload, v[b]), t.tasks[b].workload)
    ensures Reads(Batch(t.fileIndex, t.tasks[b].workload, v[b]), t.tasks[b])
  {
    assert |v| == |t.tasks| && Bytes(v[b]) == t.tasks[b].size && TaskAt(t, b);
    hide CutOk, Chain, Flat, Bytes, TaskBytes;
    SliceNotEmpty(t, v, b);
    SliceBatch(t, v, b);
  }

  lemma CutStarts(t: Transfer, v: seq<seq<RangeTask>>)
    requires CutOk(t, v)
    ensures |v| == |t.tasks| && BatchesTasks([]) == Flat(v[..0])
  {
  }

  // The batches hold the task lists, one after the other.
  ghost predicate Wraps(batches: seq<Batch>, v: seq<seq<RangeTask>>)
  {
    BatchesTasks(batches) == Flat(v)
  }

  // The loop of build_tasks that turns the task lists into batches.
  method WrapBatches(t: Transfer, v: seq<seq<RangeTask>>, workloads: nat) returns (batches: seq<Batch>)
    requires Cuttable(t, workloads) && CutOk(t, v)
    ensures Wraps(batches, v)
    ensures forall b :: 0 <= b < |batches| ==>
        BatchOk(batches[b], batches[b].workload) && batches[b].workload < workloads
    ensures ReadsAll(batches, t.tasks)
  {
    hide CutOk, Flat, Cuttable, BatchOk, BatchesTasks, Reads;
    batches := [];
    CutStarts(t, v);
    for i := 0 to |v|
      invariant BatchesTasks(batches) == Flat(v[..i])
      invariant forall b :: 0 <= b < |batches| ==>
          BatchOk(batches[b], batches[b].workload) && batches[b].workload < workloads
      invariant |batches| == i && forall b :: 0 <= b < i ==> Reads(batches[b], t.tasks[b])
    {
      NewBatch(t, v, i, workloads);
      var batch := Batch(t.fileIndex, t.tasks[i].workload, v[i]);
      if |v[i]| == 0 {
        assert false;
        continue;
      }
      BatchesSnoc(batches, batch);
      FlatSnoc(v[..i], v[i]);
      assert v[..i + 1] == v[..i] + [v[i]];
      batches := batches + [batch];
    }
    assert v[..|v|] == v;
  }

  method BuildBatches(t: Transfer, workloads: nat)
    returns (batches: seq<Batch>, requests: seq<Request>, ghost log: seq<RangeTask>)
    requires Cuttable(t, workloads)
    ensures Log(log, requests, t.sizes, |t.sizes|, t.fileIndex, t.first, t.offset, t.destination)
    ensures log == BatchesTasks(batches)
    ensures forall b :: 0 <= b < |batches| ==>
        BatchOk(batches[b], batches[b].workload) && batches[b].workload < workloads
    ensures ReadsAll(batches, t.tasks)
  {
    assert TaskAt(t, 0) && t.tasks[..0] == [];
    hide BatchOk, Flat, Chain, BatchesTasks, Bytes, ReadsAll;
    var v;
    v, requests := BuildTasks(t.tasks, t.sizes, t.fileIndex, t.first);
    log := Flat(v);
    batches := WrapBatches(t, v, workloads);
  }

  function BatchesTasks(bs: seq<Batch>): seq<RangeTask>
  {
    if bs == [] then [] else BatchesTasks(bs[..|bs|-1]) + bs[|bs|-1].tasks
  }

  lemma {:induction false} BatchesSnoc(bs: seq<Batch>, b: Batch)
    ensures BatchesTasks(bs + [b]) == BatchesTasks(bs) + b.tasks
  {
    assert (bs + [b])[..|bs|] == bs;
  }

  lemma NextBatch(ws: seq<Workload>, batches: seq<Batch>, made: seq<RangeTask>, j: nat)
    requires j < |batches| && Spread(ws, made + BatchesTasks(batches[..j]))
    requires batches[j].workload < |ws| && BatchOk(batches[j], batches[j].workload)
    ensures Spread(ws[batches[j].workload := ws[batches[j].workload] + [batches[j]]],
        made + BatchesTasks(batches[..j + 1]))
  {
    hide Spread, BatchOk, BatchesTasks;
    SpreadStep(ws, made + BatchesTasks(batches[..j]), batches[j]);
    BatchesSnoc(batches[..j], batches[j]);
    assert batches[..j + 1] == batches[..j] + [batches[j]];
    Assoc(made, BatchesTasks(batches[..j]), batches[j].tasks);
  }

  lemma Assoc<T>(a: seq<T>, b: seq<T>, c: seq<T>)
    ensures a + b + c == a + (b + c)
  {
  }

  lemma NextSlice(ws: seq<Workload>, batches: seq<Batch>, cut: seq<FileReadTask>, slices: seq<FileReadTask>, j: nat)
    requires ReadsAll(batches, slices) && j < |batches| == |slices| && batches[j].workload < |ws|
    requires HasSlices(ws, cut + slices[..j])
    ensures HasSlices(ws[batches[j].workload := ws[batches[j].workload] + [batches[j]]], cut + slices[..j + 1])
  {
    assert Reads(batches[j], slices[j]);
    hide Reads, ReadsAll, HasSlices;
    OneMoreSlice(ws, cut + slices[..j], batches[j], slices[j]);
    assert cut + slices[..j + 1] == cut + slices[..j] + [slices[j]];
  }

  // Batches of one transfer go to the workloads of their slices.
  method AddBatches(before: seq<Workload>, batches: seq<Batch>, ghost made: seq<RangeTask>,
                    ghost cut: seq<FileReadTask>, ghost slices: seq<FileReadTask>) returns (ws: seq<Workload>)
    requires Spread(before, made) && HasSlices(before, cut) && ReadsAll(batches, slices)
    requires forall b :: 0 <= b < |batches| ==>
        BatchOk(batches[b], batches[b].workload) && batches[b].workload < |before|
    ensures |ws| == |before| && Spread(ws, made + BatchesTasks(batches)) && HasSlices(ws, cut + slices)
  {
    ws := before;
    assert made + BatchesTasks(batches[..0]) == made && cut + slices[..0] == cut;
    assert |batches| == |slices|;
    hide Spread, BatchOk, BatchesTasks, HasSlices, ReadsAll;
    for j := 0 to |batches|
      invariant |ws| == |before| && Spread(ws, made + BatchesTasks(batches[..j])) && HasSlices(ws, cut + slices[..j])
    {
      NextBatch(ws, batches, made, j);
      NextSlice(ws, batches, cut, slices, j);
      var batch := batches[j];
      ws := ws[batch.workload := ws[batch.workload] + [batch]];
    }
    assert batches[..|batches|] == batches && slices[..|slices|] == slices;
  }

  lemma {:induction false} NoWork(ws: seq<Workload>)
    requires forall w :: 0 <= w < |ws| ==> ws[w] == []
    ensures AllWork(ws) == []
  {
    if ws != [] {
      NoWork(ws[..|ws|-1]);
    }
  }

  lemma {:induction false} CoveredPrefix(ts: seq<Transfer>, k: nat)
    requires k < |ts|
    ensures CoveredAll(ts[..k + 1]) == CoveredAll(ts[..k]) + Covered(ts[k])
    ensures CoveredAll(ts[..k + 1]) <= CoveredAll(ts)
  {
    assert ts[..k + 1][..k] == ts[..k];
    if k < |ts| - 1 {
      CoveredPrefix(ts[..|ts|-1], k);
      assert ts[..|ts|-1][..k + 1] == ts[..k + 1] && ts[..|ts|-1][..k] == ts[..k] && ts[..|ts|-1][k] == ts[k];
    } else {
      assert ts[..k + 1] == ts;
    }
  }

  lemma {:induction false} SlicesPrefix(ts: seq<Transfer>, k: nat)
    requires k < |ts|
    ensures Slices(ts[..k + 1]) == Slices(ts[..k]) + ts[k].tasks
  {
    assert ts[..k + 1][..k] == ts[..k];
  }

  lemma KeysPrefix(a: seq<Listed>, b: seq<Listed>)
    requires a <= b && KeysDistinct(b)
    ensures KeysDistinct(a)
  {
    assert forall i :: 0 <= i < |a| ==> a[i] == b[i];
  }

  // The loop of async_request over the transfers.
  method PlanTransfers(ts: seq<Transfer>, workloads: nat)
    returns (ws: seq<Workload>, requests: seq<Request>, ghost made: seq<RangeTask>)
    requires forall k :: 0 <= k < |ts| ==> Cuttable(ts[k], workloads)
    requires KeysDistinct(CoveredAll(ts))
    ensures |ws| == workloads && Spread(ws, made) && Served(requests, made, CoveredAll(ts))
    ensures HasSlices(ws, Slices(ts))
  {
    ws := seq(workloads, i => []);
    requests, made := [], [];
    NoWork(ws);
    NoSlices(ws);
    assert CoveredAll(ts[..0]) == [] && Slices(ts[..0]) == [];
    hide Log, CoveredAll, BatchOk, Cuttable, BatchesTasks, AllWork, KeysDistinct, Matches, RequestServed, Keyed,
      Covered, ReadsAll, Slices;
    for k := 0 to |ts|
      invariant |ws| == workloads && Spread(ws, made) && Served(requests, made, CoveredAll(ts[..k]))
      invariant HasSlices(ws, Slices(ts[..k]))
    {
      hide Spread, Served, HasSlices;
      var batches, more;
      ghost var log;
      batches, more, log := BuildBatches(ts[k], workloads);
      LogServed(ts[k], log, more);
      CoveredPrefix(ts, k);
      KeysPrefix(CoveredAll(ts[..k + 1]), CoveredAll(ts));
      ServedStep(requests, made, CoveredAll(ts[..k]), more, log, Covered(ts[k]));
      SlicesPrefix(ts, k);
      ws := AddBatches(ws, batches, made, Slices(ts[..k]), ts[k].tasks);
      requests, made := requests + more, made + log;
    }
    assert ts[..|ts|] == ts;
  }

  // ---------------------------------------------------------------- async_request up to commit

  datatype Config = Config(concurrency: nat, s3Concurrency: nat, fsBlock: nat, s3Block: nat) {
    ghost predicate Valid() { concurrency > 0 && s3Concurrency > 0 && fsBlock > 0 && s3Block > 0 }
  }

  // std::numeric_limits<unsigned>::max()
  const UINT_MAX: nat := 0xFFFF_FFFF

  datatype Prepared =
    | Rejected(code: ResponseCode)
    | Nothing
    | Ready(remote: bool, workloads: seq<Workload>, requests: seq<Request>)

  // Some range with bytes has no destination.
  ghost predicate NullDestination(files: seq<FileRanges>)
  {
    exists f, i :: 0 <= f < |files| && 0 <= i < |files[f].ranges|
                   && files[f].ranges[i].size > 0 && files[f].ranges[i].dst == 0
  }

  lemma {:induction false} ListKeys(files: seq<FileRanges>)
    ensures KeysDistinct(ListAll(files))
    ensures forall i :: 0 <= i < |ListAll(files)| ==> ListAll(files)[i].file < |files|
  {
    if files != [] {
      ListKeys(files[..|files|-1]);
    }
  }

  lemma {:induction false} CoveredBytes(ts: seq<Transfer>)
    requires TransfersOk(ts)
    ensures SizeOf(ts) == TotalBytes(CoveredAll(ts))
  {
    if ts != [] {
      var t := ts[|ts|-1];
      CoveredBytes(ts[..|ts|-1]);
      OneCovered(CoveredAll(ts[..|ts|-1]), t, |t.sizes|);
      assert Covered(t)[..|t.sizes|] == Covered(t) && t.sizes[..|t.sizes|] == t.sizes;
    }
  }

  lemma {:induction false} OneCovered(base: seq<Listed>, t: Transfer, k: nat)
    requires k <= |t.sizes|
    ensures TotalBytes(base + Covered(t)[..k]) == TotalBytes(base) + Sum(t.sizes[..k])
  {
    if k == 0 {
      assert base + Covered(t)[..0] == base;
    } else {
      OneCovered(base, t, k - 1);
      assert base + Covered(t)[..k] == base + Covered(t)[..k - 1] + [Covered(t)[k - 1]];
      TotalSnoc(base + Covered(t)[..k - 1], Covered(t)[k - 1]);
      SumPrefix(t.sizes, k - 1);
    }
  }

  // The first file with ranges decides which workers and which block size serve the submission.
  method CheckObjectStorage(files: seq<FileRanges>, classify: string -> Kind) returns (remote: bool)
    ensures Homogeneous(files, classify) ==>
              forall k: Kind :: Uses(files, classify, k) ==> (remote <==> k != FileSystem)
    ensures remote <==> exists f: nat ::
        && f < |files| && files[f].ranges != [] && classify(files[f].path) != FileSystem
        && forall g :: 0 <= g < f ==> files[g].ranges == []
  {
    for f := 0 to |files|
      invariant forall g :: 0 <= g < f ==> files[g].ranges == []
    {
      if files[f].ranges == [] {
        continue;
      }
      var kind := classify(files[f].path);
      assert Uses(files, classify, kind);
      return kind != FileSystem;
    }
    return false;
  }

  method VerifyRequests(files: seq<FileRanges>) returns (ok: bool)
    ensures ok <==> !NullDestination(files)
  {
    for f := 0 to |files|
      invariant forall g, i :: 0 <= g < f && 0 <= i < |files[g].ranges| ==>
                  !(files[g].ranges[i].size > 0 && files[g].ranges[i].dst == 0)
    {
      for i := 0 to |files[f].ranges|
        invariant forall j :: 0 <= j < i ==> !(files[f].ranges[j].size > 0 && files[f].ranges[j].dst == 0)
      {
        if files[f].ranges[i].size > 0 && files[f].ranges[i].dst == 0 {
          return false;
        }
      }
    }
    return true;
  }

  method CountRanges(files: seq<FileRanges>) returns (n: nat)
    ensures n == |ListAll(files)|
  {
    n := 0;
    for f := 0 to |files|
      invariant n == |ListAll(files[..f])|
    {
      n := n + |files[f].ranges|;
      assert files[..f + 1][..f] == files[..f];
    }
    assert files[..|files|] == files;
  }

  lemma {:induction false} SlicedReady(given: seq<Transfer>, ts: seq<Transfer>, workloads: nat)
    requires SameTransfers(ts, given) && AllSliced(ts, |ts|, workloads) && TransfersOk(given)
    ensures forall k :: 0 <= k < |ts| ==> Cuttable(ts[k], workloads)
    ensures CoveredAll(ts) == CoveredAll(given)
  {
    forall k | 0 <= k < |ts| ensures Cuttable(ts[k], workloads) {
      assert ts[k].(tasks := []) == given[k] && TransferOk(given[k]);
    }
    SameCovered(given, ts);
  }

  lemma {:induction false} SameCovered(given: seq<Transfer>, ts: seq<Transfer>)
    requires SameTransfers(ts, given)
    ensures CoveredAll(ts) == CoveredAll(given)
  {
    if ts != [] {
      var k := |ts| - 1;
      SameCovered(given[..k], ts[..k]);
      assert ts[k].(tasks := []) == given[k];
      assert Covered(ts[k]) == Covered(given[k]);
    }
  }

  // The plan of a whole submission.
  ghost predicate PlanOk(ws: seq<Workload>, requests: seq<Request>, listed: seq<Listed>)
  {
    exists made: seq<RangeTask> :: Spread(ws, made) && Served(requests, made, listed)
  }

  // The bytes are shared in whole blocks among as many workloads as there are blocks for, but no more than workers:
  // all but the first have the same number of blocks, the first also has the rest, less than a block for each.
  ghost predicate Fair(ws: seq<Workload>, total: nat, block: nat, workers: nat)
  {
    && AsManyAs(total, block, workers, |ws|)
    && exists s: Shares :: Shared(ws, s, total, block)
  }

  ghost predicate Shared(ws: seq<Workload>, s: Shares, total: nat, block: nat)
  {
    && s.workloads == |ws| && s.base == s.blocks * block && s.remainder < |ws| * block
    && total == |ws| * s.base + s.remainder
    && forall w :: 0 <= w < |ws| ==> Bytes(WorkTasks(ws[w])) == if w == 0 then s.base + s.remainder else s.base
  }

  lemma {:induction false} FairShares(ws: seq<Workload>, ts: seq<Transfer>, totals: seq<nat>, s: Shares, total: nat,
                                      block: nat, workers: nat)
    requires HasSlices(ws, Slices(ts)) && |ws| == s.workloads && |totals| == workers
    requires Ledger(ts, totals) && AllFilled(s, totals) && Before(s, s.workloads) == total
    requires AsManyAs(total, block, workers, s.workloads) && s.base == s.blocks * block
    requires s.remainder < s.workloads * block
    ensures Fair(ws, total, block, workers)
  {
    BeforeProduct(s, s.workloads);
    hide ReadsAll, OfWorker, Slices, WorkTasks;
    forall w | 0 <= w < |ws| ensures Bytes(WorkTasks(ws[w])) == TargetOf(s, w) {
      WorkBytes(ws[w], Slices(ts), w);
      assert totals[w] == WorkerBytes(Slices(ts), w);
    }
    assert Shared(ws, s, total, block);
  }

  // Everything async_request does before it registers the submission. Exactly the listed ranges are
  // planned: one request each, every byte in exactly one task. The plugin's lock is taken before the last
  // checks, so it is held even by a submission these reject.
  method PrepareSubmission(files: seq<FileRanges>, config: Config, classify: string -> Kind, locked: Lock)
    returns (result: Prepared, now: Lock)
    requires config.Valid()
    ensures result == Rejected(UnsupportedBackendMix) ==>
        !(Homogeneous(files, classify) && Fits(files, classify, locked))
    ensures result == Rejected(InvalidParameterError) ==>
              |ListAll(files)| > UINT_MAX || TotalBytes(ListAll(files)) > SIZE_MAX || NullDestination(files)
    ensures result.Rejected? ==> result.code == UnsupportedBackendMix || result.code == InvalidParameterError
    ensures !result.Rejected? ==>
              && Homogeneous(files, classify) && Fits(files, classify, locked)
              && |ListAll(files)| <= UINT_MAX && TotalBytes(ListAll(files)) <= SIZE_MAX && !NullDestination(files)
    ensures result == Nothing <==> !result.Rejected? && ListAll(files) == []
    ensures result.Ready? ==>
              && PlanOk(result.workloads, result.requests, ListAll(files))
              && Fair(result.workloads, TotalBytes(ListAll(files)),
                      if result.remote then config.s3Block else config.fsBlock,
                      if result.remote then config.s3Concurrency else config.concurrency)
              && forall k: Kind :: Uses(files, classify, k) ==> (result.remote <==> k != FileSystem)
    ensures if NullDestination(files) then now == locked else LockedFor(files, classify, locked, now)
  {
    assert TotalBytes([]) == 0;
    hide Fair, HasSlices, Ledger, AllFilled, AsManyAs, Before, NullDestination, LockedFor, ListAll, TotalBytes,
      Homogeneous, Fits, Uses, Spread, Served, Cuttable;
    var fine := VerifyRequests(files);
    if !fine {
      return Rejected(InvalidParameterError), locked;
    }
    var code;
    code, now := LockObjectPlugin(files, classify, locked);
    if code != Success {
      return Rejected(code), now;
    }
    var ranges := CountRanges(files);
    if ranges > UINT_MAX {
      return Rejected(InvalidParameterError), now;
    }
    if ranges == 0 {
      return Nothing, now;
    }
    var remote := CheckObjectStorage(files, classify);
    var workers := if remote then config.s3Concurrency else config.concurrency;
    var ok, transfers, total := Coalesce(files);
    if !ok {
      return Rejected(InvalidParameterError), now;
    }
    assert transfers != [];
    CoveredBytes(transfers);
    var block := if remote then config.s3Block else config.fsBlock;
    var ts, totals, shares := Assign(transfers, total, block, workers);
    SlicedReady(transfers, ts, shares.workloads);
    ListKeys(files);
    ghost var made;
    var ws, requests;
    ws, requests, made := PlanTransfers(ts, shares.workloads);
    FairShares(ws, ts, totals, shares, total, block, workers);
    result := Ready(remote, ws, requests);
  }
}

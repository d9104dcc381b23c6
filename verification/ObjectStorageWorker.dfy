// The object-storage worker over its in-flight window, driven by an arbitrary backend.
module ObjectStorageWorkers {
  import opened Codes
  import opened WorkerModel
  import opened WorkerInvariant
  import opened WorkerSteps
  import opened WorkerAdmit
  import opened WorkerOwners
  import opened WorkerMoves
  import opened WorkerRounds
  import opened CapacityQueues
  import opened Options

  const SIZE_MAX: nat := 0xffff_ffff_ffff_ffff

  // The handles completed by a round: those it lists before the sentinel.
  function Returned(rs: seq<Response>): set<nat>
  {
    set i | 0 <= i < |rs| && rs[i].code != FinishedError :: rs[i].handle
  }

  // The object-storage client as the worker sees it: free to refuse, fail, delay, reorder and run dry.
  class Backend {
    var outstanding: map<nat, Read>
    ghost var landed: set<nat>
    const windowBytes: nat

    constructor (windowBytes: nat)
      ensures outstanding == map[] && landed == {} && this.windowBytes == windowBytes
    {
      outstanding, landed, this.windowBytes := map[], {}, windowBytes;
    }

    // A read that is refused is never answered.
    method AsyncRead(handle: nat, read: Read) returns (code: ResponseCode)
      requires handle !in outstanding
      modifies this
      ensures landed == old(landed)
      ensures outstanding == if code == Success then old(outstanding)[handle := read] else old(outstanding)
    {
      code := *;
      if code == Success {
        outstanding := outstanding[handle := read];
      }
    }

    // A handle reported successful is one whose read has landed in its destination.
    method AsyncResponse() returns (code: ResponseCode, rs: seq<Response>)
      modifies this
      ensures code != Success ==> outstanding == old(outstanding) && landed == old(landed)
      ensures code == Success ==>
                && RoundFits(old(outstanding).Keys, rs)
                && outstanding == old(outstanding) - Returned(rs)
                && landed == old(landed) + Landings(rs)
    {
      code := *;
      rs := *;
      if code != Success || !RoundFits(outstanding.Keys, rs) {
        rs := [];
      }
      landed := landed + Landings(rs);
      outstanding := outstanding - Returned(rs);
    }

    // The in-flight window the client advertises, in bytes.
    method MaxInflightBytes() returns (bytes: nat)
      ensures bytes == windowBytes
    {
      bytes := windowBytes;
    }
  }

  // How building the client goes, when it is tried: it is there, it failed with a code of its own, or something
  // else was thrown.
  datatype Client = Built | Refused(code: ResponseCode) | Thrown

  // As many chunks as the advertised bytes hold, at least one; an unbounded window stays unbounded.
  ghost predicate WindowFor(capacity: nat, bytes: nat, chunkBytes: nat)
  {
    if bytes == SIZE_MAX then capacity == SIZE_MAX
    else if bytes < chunkBytes then capacity == 1
    else capacity * chunkBytes <= bytes < (capacity + 1) * chunkBytes
  }

  lemma WindowDivides(bytes: nat, chunkBytes: nat)
    requires 0 < chunkBytes <= bytes
    ensures bytes / chunkBytes >= 1
    ensures bytes / chunkBytes * chunkBytes <= bytes < (bytes / chunkBytes + 1) * chunkBytes
  {
    var q, r := bytes / chunkBytes, bytes % chunkBytes;
    assert bytes == q * chunkBytes + r && 0 <= r < chunkBytes;
    assert (q + 1) * chunkBytes == q * chunkBytes + chunkBytes;
  }

  ghost function Items(es: seq<Entry<Chunk>>): seq<Chunk>
  {
    seq(|es|, i requires 0 <= i < |es| => es[i].item)
  }

  // An outstanding read, of a live block or not, is the one its handle was reserved for.
  ghost predicate ReadsMatch(outstanding: map<nat, Read>, owner: map<nat, Owned>)
  {
    forall h :: h in outstanding ==> h in owner && outstanding[h] == owner[h].read
  }

  lemma EmptyItems(es: seq<Entry<Chunk>>)
    ensures Items(es) == [] <==> es == []
  {
  }

  ghost predicate Ordered(order: seq<nat>, keys: set<nat>)
  {
    && (forall i, j :: 0 <= i < j < |order| ==> order[i] < order[j])
    && (forall k :: k in order <==> k in keys)
  }

  lemma LocateFacts(v: View, base: nat)
    requires Core(v) && base in v.blocks
    ensures base in v.specs && Shape(v.blocks[base], v.specs[base])
  {
    assert At(v, base);
  }

  // Handle h lies in block `base`, at a chunk of task k, whose state is t.
  ghost predicate OwnerIs(v: View, h: nat, base: nat, k: nat, t: TaskState)
  {
    && base in v.blocks && base in v.specs && InBlock(base, v.specs[base], h)
    && k == v.specs[base].plan[h - base].task && k < |v.blocks[base].tasks| && t == v.blocks[base].tasks[k]
  }

  lemma NotIssued(v: View, base: nat, k: nat, t: TaskState, chunk: Chunk, before: map<nat, Read>, code: ResponseCode)
    requires OwnerIs(v, chunk.handle, base, k, t) && Ready(v, base, chunk.handle)
    requires code != Success && (t.error != Success ==> code == t.error)
    ensures Submitted(v, AfterComplete(v, base, chunk.handle, code), base, chunk, before, before)
  {
    hide AfterComplete, Ready;
    assert Accounted(v, AfterComplete(v, base, chunk.handle, code), base, chunk.handle, code);
  }

  lemma Issued(v: View, base: nat, k: nat, t: TaskState, chunk: Chunk, before: map<nat, Read>)
    requires OwnerIs(v, chunk.handle, base, k, t) && t.error == Success
    ensures Submitted(v, v, base, chunk, before,
                      before[chunk.handle := Read(t.owner.source, chunk.offset, chunk.bytesize, chunk.buffer)])
  {
  }

  class ObjectStorageWorker {
    const backend: Backend
    const chunkBytes: nat

    var queue: CapacityQueue?<Chunk>
    var readerUp: bool
    var readerError: ResponseCode

    var inflight: map<nat, Inflight>
    var order: seq<nat>
    var handleCounter: nat
    var outcomes: map<nat, ResponseCode>

    ghost var specs: map<nat, Spec>
    ghost var owner: map<nat, Owned>
    ghost var verdicts: map<nat, ResponseCode>
    ghost var known: map<nat, Known>

    ghost function Snap(out: set<nat>): View
      reads this, queue, backend
    {
      View(inflight, specs, if queue == null then [] else Items(queue.pending), out,
           if queue == null then 0 else queue.inflight, handleCounter, chunkBytes,
           outcomes, verdicts, backend.landed, known, owner)
    }

    // Between operations what is out is what the backend holds.
    ghost function Now(): View
      reads this, queue, backend
    {
      Snap(backend.outstanding.Keys)
    }

    ghost predicate WindowOk()
      reads this, queue
    {
      queue != null ==>
        && readerUp
        && queue.capacity >= 1
        && queue.inflight <= queue.capacity
        && (forall i :: 0 <= i < |queue.pending| ==> queue.pending[i].cost == 1)
    }

    // `out`: handles taken from the window and not yet accounted for.
    ghost predicate ValidWith(out: set<nat>)
      reads this, queue, backend
    {
      && Inv(Snap(out))
      && WindowOk()
      && Ordered(order, inflight.Keys)
      && ReadsMatch(backend.outstanding, owner)
      && backend.outstanding.Keys <= out
    }

    ghost predicate Valid()
      reads this, queue, backend
    {
      ValidWith(backend.outstanding.Keys)
    }

    constructor (backend: Backend, blockBytes: nat)
      requires backend.outstanding == map[]
      ensures Valid() && this.backend == backend && queue == null && known == map[] && outcomes == map[]
      ensures chunkBytes == if blockBytes == 0 then 1 else blockBytes
      ensures !readerUp && readerError == Success
    {
      this.backend := backend;
      this.chunkBytes := if blockBytes == 0 then 1 else blockBytes;
      queue, readerUp, readerError := null, false, Success;
      inflight, order, handleCounter, outcomes := map[], [], 1, map[];
      specs, verdicts, known, owner := map[], map[], map[], map[];
      new;
      assert LiveOut(map[], {}) == {};
    }

    // locate: the block whose handles contain `handle`, found through the ordered keys.
    method Locate(handle: nat) returns (found: bool, base: nat, taskIdx: nat)
      requires Ordered(order, inflight.Keys) && inflight.Keys == specs.Keys
      requires Disjoint(specs, handleCounter)
      requires forall b :: b in inflight ==> Shape(inflight[b], specs[b])
      ensures found <==> Live(specs, handle)
      ensures found ==> base in specs && InBlock(base, specs[base], handle)
                        && taskIdx == specs[base].plan[handle - base].task
    {
      hide SpecShape;
      base, taskIdx := 0, 0;
      var i := 0;
      while i < |order| && order[i] <= handle
        invariant 0 <= i <= |order|
        invariant forall j :: 0 <= j < i ==> order[j] <= handle
      {
        i := i + 1;
      }
      if i == 0 {
        forall b | b in specs ensures !InBlock(b, specs[b], handle) {
          assert b in order;
        }
        return false, 0, 0;
      }
      base := order[i - 1];
      assert base in inflight;
      var rel := handle - base;
      forall b | b in specs && b != base ensures !InBlock(b, specs[b], handle) {
        assert b in order;
      }
      if rel >= |inflight[base].chunkTaskIdx| {
        return false, 0, 0;
      }
      assert InBlock(base, specs[base], handle);
      return true, base, inflight[base].chunkTaskIdx[rel];
    }

    // report_workload: fail the workload's unfinished tasks batch by batch.
    method ReportWorkload(w: Workload, errs: map<nat, ResponseCode>, code: ResponseCode)
      modifies this`outcomes
      ensures outcomes == Report(old(outcomes), AllTasks(w), errs, code)
    {
      var i := 0;
      while i < |w|
        invariant 0 <= i <= |w|
        invariant outcomes == Report(old(outcomes), AllTasks(w[..i]), errs, code)
      {
        var batch := w[i];
        var errorCode := CodeFor(batch.fileIndex, errs, code);
        HandleError(batch, errorCode, old(outcomes), AllTasks(w[..i]), errs, code);
        assert w[..i + 1][..i] == w[..i] && w[..i + 1][i] == batch;
        i := i + 1;
      }
      assert w[..|w|] == w;
    }

    // Batch::handle_error: every unfinished task of the batch takes the code; Success does nothing.
    method HandleError(batch: Batch, errorCode: ResponseCode, ghost start: map<nat, ResponseCode>,
                       ghost before: seq<FileTask>, ghost errs: map<nat, ResponseCode>, ghost code: ResponseCode)
      requires errorCode == CodeFor(batch.fileIndex, errs, code)
      requires outcomes == Report(start, before, errs, code)
      modifies this`outcomes
      ensures outcomes == Report(start, before + TasksOf(batch), errs, code)
    {
      hide Report;
      ghost var ts := TasksOf(batch);
      ghost var done := before;
      var j := 0;
      while j < |batch.tasks|
        invariant 0 <= j <= |batch.tasks|
        invariant done == before + ts[..j]
        invariant outcomes == Report(start, done, errs, code)
      {
        ReportSnoc(start, done, ts[j], errs, code);
        if errorCode != Success {
          outcomes := Finish(outcomes, batch.tasks[j].id, errorCode);
        }
        done := done + [ts[j]];
        j := j + 1;
      }
      assert ts[..|ts|] == ts;
    }

    // The key of a removed workload leaves the ordered map.
    method EraseKey(base: nat)
      requires base in order && forall i, j :: 0 <= i < j < |order| ==> order[i] < order[j]
      modifies this`order
      ensures Ordered(order, (set k | k in old(order)) - {base})
      ensures |order| == |old(order)| - 1
    {
      var i := 0;
      while order[i] != base
        invariant 0 <= i < |order|
        invariant base !in order[..i]
        decreases |order| - i
      {
        i := i + 1;
      }
      order := order[..i] + order[i + 1..];
    }

    // report_workload + erase.
    method Finalize(base: nat, code: ResponseCode)
      requires base in inflight && Ordered(order, inflight.Keys)
      modifies this`outcomes, this`inflight, this`order, this`specs
      ensures outcomes == Report(old(outcomes), AllTasks(old(inflight)[base].workload),
                                 old(inflight)[base].errorByFile, code)
      ensures inflight == old(inflight) - {base} && specs == old(specs) - {base}
      ensures Ordered(order, inflight.Keys) && |order| == |old(order)| - 1
    {
      ReportWorkload(inflight[base].workload, inflight[base].errorByFile, code);
      EraseKey(base);
      inflight := inflight - {base};
      specs := specs - {base};
    }

    // complete_chunk: free the slot, record the first error, report the task with its last chunk and
    // the workload with its last task.
    method CompleteChunk(base: nat, taskIdx: nat, ret: ResponseCode, ghost h: nat, ghost out: set<nat>)
      requires queue != null && Ordered(order, inflight.Keys)
      requires Ready(Snap(out), base, h) && taskIdx == specs[base].plan[h - base].task
      requires NoneDone(inflight)
      requires Answerable(Snap(out), base)
      modifies this`inflight, this`order, this`outcomes, this`specs, this`verdicts, queue`inflight
      ensures Ordered(order, inflight.Keys)
      ensures queue.inflight <= old(queue.inflight)
      ensures specs.Keys <= old(specs.Keys) && forall b :: b in specs ==> specs[b] == old(specs)[b]
      ensures Snap(out - {h}) == AfterComplete(old(Snap(out)), base, h, ret)
    {
      hide CompleteIn, CompleteOutcomes, Report, AllTasks, Ordered, NoneDone, DistinctIds;
      assert specs[base].all == AllTasks(inflight[base].workload);
      ghost var v := Snap(out);
      queue.Complete(1);
      var wl := RecordChunk(inflight[base], taskIdx, ret);
      inflight := inflight[base := wl];
      verdicts := verdicts[h := ret];
      assert inflight.Keys == v.blocks.Keys;
      assert Snap(out - {h}) == CompleteView(v, base, h, ret);
      if wl.remainingTasks == 0 {
        Finalize(base, Success);
      }
    }

    // The part of complete_chunk that touches one workload's counters and errors.
    method RecordChunk(wl: Inflight, taskIdx: nat, ret: ResponseCode) returns (r: Inflight)
      requires taskIdx < |wl.tasks| && wl.tasks[taskIdx].remainingChunks > 0 && wl.remainingTasks > 0
      modifies this`outcomes
      ensures r == CompleteIn(wl, taskIdx, ret) && r.workload == wl.workload
      ensures outcomes == CompleteOutcomes(old(outcomes), wl.tasks[taskIdx], ret)
    {
      var ts := wl.tasks[taskIdx];
      if ret != Success && ts.error == Success {
        ts := ts.(error := ret);
      }
      ts := ts.(remainingChunks := ts.remainingChunks - 1);
      r := wl.(tasks := wl.tasks[taskIdx := ts]);
      if ts.remainingChunks == 0 {
        if ts.error == Success {
          outcomes := Finish(outcomes, ts.owner.task.id, Success);
        } else if ts.owner.fileIndex !in r.errorByFile {
          r := r.(errorByFile := r.errorByFile[ts.owner.fileIndex := ts.error]);
        }
        r := r.(remainingTasks := r.remainingTasks - 1);
      }
    }

    // complete_chunk in a valid worker: its asserts hold and the worker stays valid.
    method Settle(base: nat, taskIdx: nat, ret: ResponseCode, ghost h: nat, ghost out: set<nat>)
      requires ValidWith(out) && queue != null
      requires base in specs && InBlock(base, specs[base], h) && taskIdx == specs[base].plan[h - base].task
      requires h in out && h !in backend.outstanding
      requires ReadOk(Snap(out), h, ret)
      modifies this`inflight, this`order, this`outcomes, this`specs, this`verdicts, queue`inflight
      ensures ValidWith(out - {h})
      ensures queue.inflight <= old(queue.inflight)
      ensures specs.Keys <= old(specs.Keys) && forall b :: b in specs ==> specs[b] == old(specs)[b]
      ensures Ready(old(Snap(out)), base, h)
      ensures Snap(out - {h}) == AfterComplete(old(Snap(out)), base, h, ret)
      ensures Extends(old(outcomes), outcomes)
    {
      hide Inv;
      CompleteKeeps(Snap(out), base, h, ret);
      AfterCompleteExtends(Snap(out), base, h, ret);
      AnswerableNow(Snap(out), base);
      CompleteChunk(base, taskIdx, ret, h, out);
    }

    // abort_all: fail and drop every in-flight workload and zero the window.
    method DropAll(code: ResponseCode, ghost out: set<nat>)
      requires Ordered(order, inflight.Keys) && inflight.Keys == specs.Keys && code != Success
      requires forall b :: b in inflight ==> Answerable(Snap(out), b)
      modifies this`inflight, this`order, this`outcomes, this`specs
      ensures inflight == map[] && specs == map[] && order == []
      ensures Aborted(old(Snap(out)), outcomes) && FailedWith(old(outcomes), outcomes, code)
    {
      ghost var v := Snap(out);
      DroppedNone(v, code);
      hide Report, FailedWith, Answerable, Dropping, AllTasks, Aborted;
      while order != []
        invariant Ordered(order, inflight.Keys)
        invariant inflight.Keys <= v.blocks.Keys && specs.Keys == inflight.Keys
        invariant forall b :: b in inflight ==> inflight[b] == v.blocks[b]
        invariant Dropping(v, inflight.Keys, outcomes) && FailedWith(v.outcomes, outcomes, code)
        decreases |order|
      {
        label L:
        var base := order[0];
        assert base in inflight && Answerable(v, base);
        AbortOne(v, inflight.Keys, base, outcomes, code);
        FailMore(v.outcomes, outcomes, AllTasks(inflight[base].workload), inflight[base].errorByFile, code);
        Finalize(base, code);
        assert inflight.Keys == old@L(inflight.Keys) - {base};
      }
      OrderHolds(order, inflight.Keys);
      assert inflight.Keys == {};
      DroppedAll(v, outcomes);
    }

    method AbortAll(code: ResponseCode, ghost out: set<nat>)
      requires ValidWith(out) && code != Success
      modifies this`inflight, this`order, this`outcomes, this`specs, queue
      ensures ValidWith(out)
      ensures inflight == map[] && (queue != null ==> queue.Idle())
      ensures AbortedBy(old(Snap(out)), Snap(out), code) && Extends(old(outcomes), outcomes)
      ensures OpenAnswered(old(known), old(outcomes), outcomes, code)
    {
      hide Inv, Core, Shape, FailedWith, Answerable, Aborted, AbortedBy, Extends, ReadsMatch, Disjoint;
      ghost var v := Snap(out);
      InvShape(v);
      forall b | b in inflight ensures Answerable(v, b) {
        AnswerableNow(v, b);
      }
      DropAll(code, out);
      if queue != null {
        queue.Clear();
      }
      InvCore(v);
      AbortStep(v, outcomes);
      AbortedFacts(v, outcomes, code);
      assert Snap(out) == v.(blocks := map[], specs := map[], pending := [], credit := 0, outcomes := outcomes);
      hide OpenAnswered;
      AbortAnswers(v, Snap(out), code);
    }

    // 2 * pending + outstanding: what still has to happen at the backend's side of the window.
    ghost function Measure(): nat
      reads this, queue, backend
    {
      (if queue == null then 0 else 2 * |queue.pending|) + |backend.outstanding|
    }

    // The lookup at the head of submit never fails; the chunk is the one its handle stands for.
    method OwnerOf(chunk: Chunk, ghost out: set<nat>) returns (base: nat, taskIdx: nat, ts: TaskState)
      requires ValidWith(out) && ChunkOk(specs, chunk)
      ensures base in specs && InBlock(base, specs[base], chunk.handle)
      ensures taskIdx == specs[base].plan[chunk.handle - base].task
      ensures OwnerIs(Snap(out), chunk.handle, base, taskIdx, ts)
      ensures ReadsMatch(backend.outstanding[chunk.handle :=
                Read(ts.owner.source, chunk.offset, chunk.bytesize, chunk.buffer)], owner)
    {
      hide Inv, Shape, ReadsMatch, InBlock;
      InvShape(Snap(out));
      var found;
      found, base, taskIdx := Locate(chunk.handle);
      assert found;
      SubmitFacts(Snap(out), chunk, base);
      ts := inflight[base].tasks[taskIdx];
      ReadsGrow(Snap(out), backend.outstanding, chunk.handle, base,
                Read(ts.owner.source, chunk.offset, chunk.bytesize, chunk.buffer));
    }

    // Hand one read to the backend; it may be refused.
    method Fire(handle: nat, read: Read, ghost out: set<nat>) returns (code: ResponseCode)
      requires ValidWith(out) && out == backend.outstanding.Keys + {handle} && handle !in backend.outstanding
      requires ReadsMatch(backend.outstanding[handle := read], owner)
      modifies backend
      ensures ValidWith(out) && Snap(out) == old(Snap(out))
      ensures backend.outstanding == if code == Success then old(backend.outstanding)[handle := read]
          else old(backend.outstanding)
      ensures backend.landed == old(backend.landed)
    {
      hide Inv, Ordered;
      code := backend.AsyncRead(handle, read);
      assert Snap(out) == old(Snap(out));
    }

    // submit: fire one chunk's read, or account for it at once when its task has already failed.
    method Submit(chunk: Chunk, ghost out: set<nat>) returns (ghost base: nat)
      requires ValidWith(out) && queue != null
      requires out == backend.outstanding.Keys + {chunk.handle} && chunk.handle !in backend.outstanding
      requires ChunkOk(specs, chunk)
      modifies this`inflight, this`order, this`outcomes, this`specs, this`verdicts, queue`inflight, backend
      ensures Valid()
      ensures queue.inflight <= old(queue.inflight)
      ensures |backend.outstanding| <= |old(backend.outstanding)| + 1
      ensures backend.landed == old(backend.landed)
      ensures Extends(old(outcomes), outcomes)
      ensures Submitted(old(Snap(out)), Now(), base, chunk, old(backend.outstanding), backend.outstanding)
    {
      hide ValidWith, Snap, AfterComplete, InBlock, ReadsMatch, Submitted, ChunkOk, Ready;
      ghost var v, before := Snap(out), backend.outstanding;
      var owner, taskIdx, ts := OwnerOf(chunk, out);
      base := owner;
      var code := ts.error;
      if code == Success {
        code := Fire(chunk.handle, Read(ts.owner.source, chunk.offset, chunk.bytesize, chunk.buffer), out);
      }
      if code != Success {
        Settle(owner, taskIdx, code, chunk.handle, out);
        assert out - {chunk.handle} == backend.outstanding.Keys;
        NotIssued(v, base, taskIdx, ts, chunk, before, code);
      } else {
        assert out == backend.outstanding.Keys;
        Issued(v, base, taskIdx, ts, chunk, before);
      }
    }

    // One turn of pump: take the oldest pending chunk, if the window has room for it, and submit it.
    method SubmitNext() returns (taken: bool, ghost act: Act)
      requires Valid() && queue != null
      modifies this`inflight, this`order, this`outcomes, this`specs, this`verdicts, queue, backend
      ensures Valid()
      ensures taken <==> old(queue.pending != [] && queue.inflight < queue.capacity)
      ensures !taken ==> Now() == old(Now())
      ensures !taken ==> backend.outstanding == old(backend.outstanding)
      ensures !taken ==> queue.pending == old(queue.pending) && queue.inflight == old(queue.inflight)
      ensures taken ==> act.Submits? && act.before == old(backend.outstanding) && act.after == backend.outstanding
      ensures taken ==> Acts(old(Now()), Now(), act, queue.capacity)
      ensures taken ==> |queue.pending| + 1 == |old(queue.pending)| && Measure() + 1 <= old(Measure())
      ensures Extends(old(outcomes), outcomes)
    {
      hide ValidWith, Snap, Submitted, ChunkOk, TakeView;
      ghost var before := backend.outstanding;
      var r := TakeNext();
      if r.None? {
        taken := false;
        act := *;
        return;
      }
      ghost var base := Submit(r.value, before.Keys + {r.value.handle});
      taken, act := true, Submits(base, before, backend.outstanding);
    }

    // The oldest pending chunk, on its way to the backend.
    method TakeNext() returns (r: Option<Chunk>)
      requires Valid() && queue != null
      modifies queue
      ensures r.Some? <==> old(queue.pending != [] && queue.inflight < queue.capacity)
      ensures r.None? ==> Valid() && Now() == old(Now())
      ensures r.None? ==> queue.pending == old(queue.pending) && queue.inflight == old(queue.inflight)
      ensures r.Some? ==>
                && r.value.handle !in backend.outstanding && ChunkOk(specs, r.value)
                && ValidWith(backend.outstanding.Keys + {r.value.handle})
                && |queue.pending| + 1 == |old(queue.pending)|
                && |old(Now()).pending| > 0 && r.value == old(Now()).pending[0] && old(Now()).credit < queue.capacity
                && Snap(backend.outstanding.Keys + {r.value.handle}) == TakeView(old(Now()))
    {
      hide Inv, ReadsMatch, Ordered, ChunkOk;
      ghost var v := Now();
      r := queue.TryTake();
      if r.None? {
        return;
      }
      TakeStep(v);
      TakeFacts(v);
      assert Snap(v.out + {r.value.handle}) == TakeView(v);
      assert forall i :: 0 <= i < |queue.pending| ==> queue.pending[i] == old(queue.pending)[i + 1];
    }

    // pump: submit until the window is full or nothing is pending.
    method Pump() returns (ghost run: seq<View>, ghost acts: seq<Act>)
      requires Valid() && queue != null
      modifies this`inflight, this`order, this`outcomes, this`specs, this`verdicts, queue, backend
      ensures Valid()
      ensures ActsTo(old(Now()), Now(), run, acts, queue.capacity)
      ensures forall k :: 0 <= k < |acts| ==> acts[k].Submits?
      ensures queue.pending == [] || queue.inflight >= queue.capacity
      ensures |queue.pending| <= |old(queue.pending)|
      ensures Measure() + (|old(queue.pending)| - |queue.pending|) <= old(Measure())
      ensures old(queue.pending) == [] ==> queue.inflight == old(queue.inflight)
      ensures Extends(old(outcomes), outcomes)
    {
      hide ValidWith, ActsTo, Acts, Now;
      ghost var start := Now();
      ActsNone(start, queue.capacity);
      run, acts := [start], [];
      var taken := true;
      while taken
        invariant Valid()
        invariant ActsTo(start, Now(), run, acts, queue.capacity)
        invariant forall k :: 0 <= k < |acts| ==> acts[k].Submits?
        invariant |queue.pending| <= |old(queue.pending)|
        invariant Measure() + (|old(queue.pending)| - |queue.pending|) <= old(Measure())
        invariant Extends(old(outcomes), outcomes)
        invariant !taken ==> queue.pending == [] || queue.inflight >= queue.capacity
        invariant old(queue.pending) == [] ==> queue.inflight == old(queue.inflight)
        decreases taken, |queue.pending|
      {
        ghost var u := Now();
        ghost var act;
        taken, act := SubmitNext();
        if taken {
          ActsMore(start, u, Now(), run, acts, act, queue.capacity);
          run, acts := run + [Now()], acts + [act];
        }
      }
    }

    // Route one completion: to its owner, or - a late one, whose block is gone - to nothing.
    method Dispatch(response: Response, ghost out: set<nat>) returns (progressed: bool)
      requires ValidWith(out) && queue != null
      requires response.handle in out && response.handle !in backend.outstanding
      requires Lands(response, backend.landed)
      modifies this`inflight, this`order, this`outcomes, this`specs, this`verdicts, queue`inflight
      ensures ValidWith(out - {response.handle})
      ensures Extends(old(outcomes), outcomes)
      ensures progressed <==> Live(old(Snap(out)).specs, response.handle)
      ensures Snap(out - {response.handle}) == RouteOne(old(Snap(out)), response)
    {
      hide Inv, Shape, AfterComplete, Ready, RouteOne;
      ghost var v := Snap(out);
      InvShape(v);
      var found, base, taskIdx := Locate(response.handle);
      RoutesTo(v, response, base);
      if !found {
        LateKeeps(v, response.handle);
        assert Snap(out - {response.handle}) == v.(out := out - {response.handle});
        return false;
      }
      Settle(base, taskIdx, response.code, response.handle, out);
      return true;
    }

    // The first i completions of a round have been routed; the rest is still out.
    ghost predicate Routed(v: View, rs: seq<Response>, i: nat, left: set<nat>)
      requires i <= |rs|
      reads this, queue, backend
    {
      && ValidWith(left) && left == backend.outstanding.Keys + Remaining(rs, i)
      && Remaining(rs, i) !! backend.outstanding.Keys && AllLand(rs, backend.landed)
      && Snap(left) == Route(v, rs[..i])
    }

    method DispatchNext(rs: seq<Response>, i: nat, ghost v: View, ghost left: set<nat>) returns (progressed: bool)
      requires queue != null && i < |rs| && rs[i].code != FinishedError && Listed(rs) && Routed(v, rs, i, left)
      modifies this`inflight, this`order, this`outcomes, this`specs, this`verdicts, queue`inflight
      ensures Routed(v, rs, i + 1, left - {rs[i].handle})
      ensures Extends(old(outcomes), outcomes)
      ensures SomeLive(v, rs[..i + 1]) <==> SomeLive(v, rs[..i]) || progressed
    {
      hide ValidWith, Snap, Route, SomeLive, RouteOne, Remaining, AllLand, Lands, Listed;
      RemainingStep(rs, i);
      AllLands(rs, i, backend.landed);
      RouteLast(v, rs[..i], rs[i]);
      assert rs[..i + 1] == rs[..i] + [rs[i]];
      progressed := Dispatch(rs[i], left);
    }

    // The completions of one round, up to the sentinel that may close it.
    method DispatchAll(rs: seq<Response>, ghost out: set<nat>) returns (progressed: bool, drained: bool)
      requires ValidWith(out) && queue != null && Fresh(rs, out)
      modifies this`inflight, this`order, this`outcomes, this`specs, this`verdicts, queue`inflight
      ensures Valid() && queue.pending == old(queue.pending)
      ensures Extends(old(outcomes), outcomes)
      ensures drained <==> RanDry(rs)
      ensures progressed <==> SomeLive(old(Snap(out)), Completions(rs))
      ensures Now() == Route(old(Snap(out)), Completions(rs))
      ensures rs == [] || rs[0].code == FinishedError ==> drained && !progressed
    {
      hide ValidWith, Snap, Route, SomeLive, Remaining, AllLand, Routed, Listed, Fresh, Valid, Now;
      ghost var v := Snap(out);
      StartsRouted(v, rs, out);
      progressed, drained := false, |rs| == 0;
      NoneRemain(rs);
      ghost var left := out;
      var i := 0;
      while i < |rs|
        invariant 0 <= i <= |rs| && Routed(v, rs, i, left)
        invariant Extends(old(outcomes), outcomes)
        invariant progressed <==> SomeLive(v, rs[..i])
        invariant drained <==> rs == []
        invariant forall j :: 0 <= j < i ==> rs[j].code != FinishedError
      {
        if rs[i].code == FinishedError {
          drained := true;
          RemainingStep(rs, i);
          break;
        }
        var p := DispatchNext(rs, i, v, left);
        progressed := progressed || p;
        left := left - {rs[i].handle};
        i := i + 1;
      }
      EndsRouted(v, rs, i, left);
      assert Completions(rs) == rs[..i];
    }

    lemma StartsRouted(v: View, rs: seq<Response>, out: set<nat>)
      requires ValidWith(out) && Fresh(rs, out) && v == Snap(out)
      ensures Listed(rs) && Routed(v, rs, 0, out) && !SomeLive(v, rs[..0])
    {
      RouteNone(v);
      assert rs[..0] == [];
      hide ValidWith, Snap, Listed, Remaining, AllLand;
    }

    lemma {:induction false} EndsRouted(v: View, rs: seq<Response>, i: nat, left: set<nat>)
      requires i <= |rs| && Routed(v, rs, i, left) && Remaining(rs, i) == {}
      ensures Valid() && Now() == Route(v, rs[..i])
    {
      hide ValidWith, Snap, Route, AllLand;
      assert left == backend.outstanding.Keys;
    }

    // The reply of the backend, with the reads it reports as landed.
    method NextRound() returns (r: ResponseCode, rs: seq<Response>, ghost out: set<nat>)
      requires Valid()
      modifies backend
      ensures r != Success ==> Valid() && backend.outstanding == old(backend.outstanding) && Now() == old(Now())
      ensures r == Success ==>
                && ValidWith(out) && Snap(out) == old(Now()).(landed := old(Now()).landed + Landings(rs))
                && RoundFits(old(Now()).out, rs) && RoundFits(old(backend.outstanding).Keys, rs)
                && backend.outstanding == old(backend.outstanding) - Returned(rs)
                && Fresh(rs, out)
                && (rs != [] && rs[0].code != FinishedError ==>
                      |backend.outstanding| < |old(backend.outstanding)|)
      ensures |backend.outstanding| <= |old(backend.outstanding)|
    {
      hide Inv, Listed, Remaining, AllLand, Returned, RoundFits, ReadsMatch, Landings;
      ghost var v := Now();
      ghost var before := backend.outstanding;
      out := v.out;
      r, rs := backend.AsyncResponse();
      if r == Success {
        LandStep(v, backend.landed);
        assert Snap(v.out) == v.(landed := backend.landed);
        ReadsFewer(before, backend.outstanding, rs, owner);
        RoundSets(before, backend.outstanding, rs);
        RoundFacts(rs, backend.landed);
      } else {
        assert Snap(v.out) == v;
      }
    }

    // The round as it came from the backend: its completions, and nothing else, are on their way.
    ghost predicate Fresh(rs: seq<Response>, out: set<nat>)
      reads backend
    {
      && Listed(rs) && out == backend.outstanding.Keys + Remaining(rs, 0)
      && Remaining(rs, 0) !! backend.outstanding.Keys
      && AllLand(rs, backend.landed)
    }

    lemma CreditView()
      requires queue != null
      ensures Now().credit == queue.inflight
    {
    }

    lemma IdleView(out: set<nat>)
      requires queue != null
      ensures queue.Idle() <==> Snap(out).pending == [] && Snap(out).credit == 0
    {
      EmptyItems(queue.pending);
    }

    // Dispatch a round, and give up when it says that no more can come.
    method Round(rs: seq<Response>, ghost out: set<nat>)
      requires ValidWith(out) && queue != null && Fresh(rs, out)
      modifies this`inflight, this`order, this`outcomes, this`specs, this`verdicts, queue
      ensures Valid() && Extends(old(outcomes), outcomes)
      ensures Rounded(old(Snap(out)), Now(), rs)
      ensures queue.Idle() || queue.pending == old(queue.pending)
      ensures old(!queue.Idle()) && NothingComes(rs) ==>
                queue.Idle() && OpenAnswered(old(known), old(outcomes), outcomes, FinishedError)
    {
      hide OpenAnswered, ValidWith, Fresh, AbortedBy, Route, SomeLive, Completions, RanDry, Snap, Listed;
      ghost var u := Snap(out);
      FreshIsListed(rs, out);
      NothingRouted(u, rs);
      SnapBooks(out);
      IdleView(out);
      var progressed, drained := DispatchAll(rs, out);
      SnapBooks(backend.outstanding.Keys);
      IdleView(backend.outstanding.Keys);
      if !progressed && drained && !queue.Idle() {
        AbortAll(FinishedError, backend.outstanding.Keys);
      }
    }

    lemma FreshIsListed(rs: seq<Response>, out: set<nat>)
      requires Fresh(rs, out)
      ensures Listed(rs)
    {
      hide Listed;
    }

    lemma SnapBooks(out: set<nat>)
      ensures Snap(out).known == known && Snap(out).outcomes == outcomes
    {
    }

    // drain_batch: one round of completions, or an abort when no more can come. The backend's reply decides.
    method DrainBatch(stopped: bool) returns (ghost act: Act)
      requires Valid() && queue != null
      modifies this`inflight, this`order, this`outcomes, this`specs, this`verdicts, queue, backend
      ensures Valid()
      ensures act.Drains? && act.stopped == stopped
      ensures Acts(old(Now()), Now(), act, queue.capacity)
      ensures if stopped || act.reply != Success then backend.outstanding == old(backend.outstanding)
              else RoundFits(old(backend.outstanding).Keys, act.rs) &&
                   backend.outstanding == old(backend.outstanding) - Returned(act.rs)
      ensures Extends(old(outcomes), outcomes)
      ensures stopped ==> OpenAnswered(old(known), old(outcomes), outcomes, FinishedError)
      ensures !stopped && act.reply != Success ==> OpenAnswered(old(known), old(outcomes), outcomes, act.reply)
      ensures !stopped && act.reply == Success && NothingComes(act.rs) && old(!queue.Idle()) ==>
                OpenAnswered(old(known), old(outcomes), outcomes, FinishedError)
      ensures old(!queue.Idle()) ==>
                queue.Idle() ||
                (queue.pending == old(queue.pending) && |backend.outstanding| < |old(backend.outstanding)|)
      ensures |backend.outstanding| <= |old(backend.outstanding)|
      ensures queue.pending == [] || queue.pending == old(queue.pending)
    {
      hide OpenAnswered, Valid, Now, ValidWith, Fresh, AbortedBy, Rounded, RoundFits, Snap, Extends, Returned, Landings;
      act := Drains(stopped, Success, []);
      if stopped {
        Abandon(FinishedError);
        return;
      }
      var r, rs, out := NextRound();
      act := Drains(false, r, rs);
      if r != Success {
        Abandon(r);
        return;
      }
      Round(rs, out);
    }

    // abort_all, with the reads that are out left to finish as late ones.
    method Abandon(code: ResponseCode)
      requires Valid() && queue != null && code != Success
      modifies this`inflight, this`order, this`outcomes, this`specs, queue
      ensures Valid() && queue.Idle() && queue.pending == []
      ensures AbortedBy(old(Now()), Now(), code) && Extends(old(outcomes), outcomes)
      ensures OpenAnswered(old(known), old(outcomes), outcomes, code)
    {
      hide OpenAnswered, ValidWith, AbortedBy, Snap, Extends;
      AbortAll(code, backend.outstanding.Keys);
    }

    // The ceilings of enqueue's first pass add up to the size of the handle block.
    method CountChunks(w: Workload) returns (total: nat)
      requires chunkBytes > 0
      ensures total == ChunkTotal(AllTasks(w), chunkBytes)
    {
      hide CeilDiv, ChunkTotal, AllTasks;
      CeilDivZero(chunkBytes);
      CountNone(chunkBytes);
      assert w[..0] == [];
      total := 0;
      ghost var done := [];
      var i := 0;
      while i < |w|
        invariant 0 <= i <= |w|
        invariant done == AllTasks(w[..i])
        invariant total == ChunkTotal(done, chunkBytes)
      {
        var j := 0;
        while j < |w[i].tasks|
          invariant 0 <= j <= |w[i].tasks|
          invariant done == AllTasks(w[..i]) + TasksOf(w[i])[..j]
          invariant total == ChunkTotal(done, chunkBytes)
        {
          var bytesize := w[i].tasks[j].bytesize;
          ChunkTotalSnoc(done, TasksOf(w[i])[j], chunkBytes);
          if bytesize != 0 {
            CeilDivIs(bytesize, chunkBytes);
            total := total + (bytesize + chunkBytes - 1) / chunkBytes;
          }
          done := done + [TasksOf(w[i])[j]];
          j := j + 1;
        }
        AllTasksSnoc(w, i);
        i := i + 1;
      }
      assert w[..|w|] == w;
    }

    // The splitting loop: one task's chunks go into the window, handles consecutive.
    method EnqueueTask(k: nat, ft: FileTask, first: nat) returns (count: nat)
      requires queue != null && chunkBytes > 0
      modifies queue`pending
      ensures count == |Pieces(k, ft, chunkBytes, 0)|
      ensures queue.pending == old(queue.pending) + EntriesFrom(first, Pieces(k, ft, chunkBytes, 0))
    {
      assert Pieces(k, ft, chunkBytes, ft.task.bytesize) == [];
      hide Pieces;
      ghost var made: seq<Piece> := [];
      count := 0;
      var offset, remaining, buffer := ft.task.offset, ft.task.bytesize, ft.task.destination;
      while remaining > 0
        invariant remaining <= ft.task.bytesize
        invariant offset == ft.task.offset + (ft.task.bytesize - remaining)
        invariant buffer == ft.task.destination + (ft.task.bytesize - remaining)
        invariant made + Pieces(k, ft, chunkBytes, ft.task.bytesize - remaining) == Pieces(k, ft, chunkBytes, 0)
        invariant count == |made|
        invariant queue.pending == old(queue.pending) + EntriesFrom(first, made)
        decreases remaining
      {
        var bs := Min(remaining, chunkBytes);
        PiecesStep(k, ft, chunkBytes, made, ft.task.bytesize - remaining);
        queue.Enqueue(Chunk(first + count, offset, bs, buffer), 1);
        made := made + [Piece(k, Read(ft.source, offset, bs, buffer))];
        count := count + 1;
        offset, buffer, remaining := offset + bs, buffer + bs, remaining - bs;
      }
    }

    lemma PiecesStep(k: nat, ft: FileTask, cb: nat, made: seq<Piece>, at: nat)
      requires cb > 0 && at < ft.task.bytesize
      requires made + Pieces(k, ft, cb, at) == Pieces(k, ft, cb, 0)
      ensures var n := Min(ft.task.bytesize - at, cb);
              var piece := Piece(k, Read(ft.source, ft.task.offset + at, n, ft.task.destination + at));
              made + [piece] + Pieces(k, ft, cb, at + n) == Pieces(k, ft, cb, 0)
    {
    }

    // One task of the workload: finished on the spot when zero-sized, otherwise split and tracked.
    method AddTask(ft: FileTask, base: nat, idx: seq<nat>, tasks: seq<TaskState>, ghost done: seq<FileTask>,
                   ghost entries: seq<Entry<Chunk>>, ghost start: map<nat, ResponseCode>)
      returns (idx': seq<nat>, tasks': seq<TaskState>)
      requires queue != null && chunkBytes > 0
      requires Building(chunkBytes, done, base, idx, tasks, entries, queue.pending, start, outcomes)
      modifies this`outcomes, queue`pending
      ensures Building(chunkBytes, done + [ft], base, idx', tasks', entries, queue.pending, start, outcomes)
    {
      BuildingStep(chunkBytes, done, ft, base, idx, tasks, entries, queue.pending, start, outcomes);
      if ft.task.bytesize == 0 {
        outcomes := Finish(outcomes, ft.task.id, Success);
        return idx, tasks;
      }
      var count := EnqueueTask(|tasks|, ft, base + |idx|);
      idx' := idx + seq(count, i => |tasks|);
      tasks' := tasks + [TaskState(ft, count, Success)];
    }

    // The tasks of one batch.
    method BuildBatch(b: Batch, base: nat, idx0: seq<nat>, tasks0: seq<TaskState>, ghost done: seq<FileTask>,
                      ghost entries: seq<Entry<Chunk>>, ghost start: map<nat, ResponseCode>)
      returns (idx: seq<nat>, tasks: seq<TaskState>)
      requires queue != null && chunkBytes > 0
      requires Building(chunkBytes, done, base, idx0, tasks0, entries, queue.pending, start, outcomes)
      modifies this`outcomes, queue`pending
      ensures Building(chunkBytes, done + TasksOf(b), base, idx, tasks, entries, queue.pending, start, outcomes)
    {
      hide Building;
      idx, tasks := idx0, tasks0;
      assert done + TasksOf(b)[..0] == done;
      var j := 0;
      while j < |b.tasks|
        invariant 0 <= j <= |b.tasks|
        invariant Building(chunkBytes, done + TasksOf(b)[..j], base, idx, tasks, entries, queue.pending, start,
            outcomes)
      {
        idx, tasks := AddTask(FileTask(b.fileIndex, b.source, b.tasks[j]), base, idx, tasks, done + TasksOf(b)[..j],
          entries, start);
        assert done + TasksOf(b)[..j + 1] == done + TasksOf(b)[..j] + [TasksOf(b)[j]];
        j := j + 1;
      }
      assert TasksOf(b)[..|b.tasks|] == TasksOf(b);
    }

    // enqueue's second pass over the batches, in order.
    method BuildBlock(w: Workload, base: nat) returns (idx: seq<nat>, tasks: seq<TaskState>)
      requires queue != null && chunkBytes > 0
      modifies this`outcomes, queue`pending
      ensures Building(chunkBytes, AllTasks(w), base, idx, tasks, old(queue.pending), queue.pending,
                       old(outcomes), outcomes)
    {
      idx, tasks := [], [];
      BuildingStart(chunkBytes, base, queue.pending, outcomes);
      hide Building, AllTasks, TasksOf;
      AllTasksNone(w);
      var i := 0;
      while i < |w|
        invariant 0 <= i <= |w|
        invariant Building(chunkBytes, AllTasks(w[..i]), base, idx, tasks, old(queue.pending), queue.pending,
            old(outcomes), outcomes)
      {
        idx, tasks := BuildBatch(w[i], base, idx, tasks, AllTasks(w[..i]), old(queue.pending), old(outcomes));
        AllTasksSnoc(w, i);
        i := i + 1;
      }
      assert w[..|w|] == w;
    }

    // A workload with nothing to read: every task is answered at once.
    method AnswerInline(w: Workload)
      requires forall t :: t in AllTasks(w) ==> t.task.bytesize == 0
      modifies this`outcomes
      ensures outcomes == FinishZero(old(outcomes), AllTasks(w))
    {
      ghost var done := [];
      var i := 0;
      while i < |w|
        invariant 0 <= i <= |w|
        invariant done == AllTasks(w[..i])
        invariant outcomes == FinishZero(old(outcomes), done)
      {
        var j := 0;
        while j < |w[i].tasks|
          invariant 0 <= j <= |w[i].tasks|
          invariant done == AllTasks(w[..i]) + TasksOf(w[i])[..j]
          invariant outcomes == FinishZero(old(outcomes), done)
        {
          InAllTasks(w, i, j);
          FinishZeroSnoc(old(outcomes), done, TasksOf(w[i])[j]);
          outcomes := Finish(outcomes, w[i].tasks[j].id, Success);
          done := done + [TasksOf(w[i])[j]];
          j := j + 1;
        }
        AllTasksSnoc(w, i);
        i := i + 1;
      }
      assert w[..|w|] == w;
      ReportNothing(outcomes, AllTasks(w));
      ReportWorkload(w, map[], Success);
    }

    // enqueue: reserve a handle block, put every chunk in the window, answer zero-sized tasks.
    method Enqueue(w: Workload)
      requires Valid() && queue != null && FreshIds(known, AllTasks(w))
      modifies this`inflight, this`order, this`handleCounter, this`outcomes, this`specs, this`known, this`owner,
          queue`pending
      ensures Valid()
      ensures Now() == Enqueued(old(Now()), w)
      ensures Admitted(old(known), known, AllTasks(w))
      ensures Extends(old(outcomes), outcomes)
    {
      hide Inv, AllTasks, Layout, NonZero, FinishZero, AddKnown, ReadsMatch, Ordered, OwnersFrom, InitBlock,
        ChunksFrom, FreshIds, Admitted, ChunkTotal;
      ghost var v := Now();
      InvBooks(v);
      AdmittedFacts(v, w);
      LayoutCount(AllTasks(w), chunkBytes);
      var total := CountChunks(w);
      if total == 0 {
        EnqueueNothing(w);
      } else {
        AdmitStep(v, w);
        AdmitFrames(v, w, order, backend.outstanding);
        handleCounter := handleCounter + total;
        Register(w, handleCounter - total, total);
        assert Snap(v.out) == AdmitView(v, w);
      }
    }

    // The workload has no chunk: no handle block, no entry in the map.
    method EnqueueNothing(w: Workload)
      requires Valid() && queue != null && FreshIds(known, AllTasks(w))
      requires |Layout(NonZero(AllTasks(w)), chunkBytes)| == 0
      modifies this`outcomes, this`known
      ensures Valid()
      ensures Now() == Enqueued(old(Now()), w)
      ensures Admitted(old(known), known, AllTasks(w))
      ensures Extends(old(outcomes), outcomes)
    {
      hide Inv, AllTasks, Layout, NonZero, FinishZero, AddKnown;
      ghost var v := Now();
      InvBooks(v);
      AdmittedFacts(v, w);
      NothingToRead(AllTasks(w), chunkBytes);
      EnqueueKeeps(v, w);
      AnswerInline(w);
      known := AddKnown(known, AllTasks(w), 0);
      assert Snap(v.out) == v.(known := known, outcomes := outcomes);
    }

    // The registration half of enqueue, for a block of `total` handles from `base` on.
    method Register(w: Workload, base: nat, total: nat)
      requires queue != null && chunkBytes > 0 && total == |SpecOf(w, chunkBytes).plan|
      modifies this`inflight, this`order, this`outcomes, this`specs, this`known, this`owner, queue`pending
      ensures inflight == old(inflight)[base := InitBlock(w, chunkBytes)]
      ensures order == old(order) + [base]
      ensures specs == old(specs)[base := SpecOf(w, chunkBytes)]
      ensures owner == old(owner) + OwnersFrom(base, SpecOf(w, chunkBytes))
      ensures known == AddKnown(old(known), AllTasks(w), base)
      ensures outcomes == FinishZero(old(outcomes), AllTasks(w))
      ensures Items(queue.pending) == Items(old(queue.pending)) + ChunksFrom(base, SpecOf(w, chunkBytes).plan)
      ensures (forall i :: 0 <= i < |old(queue.pending)| ==> old(queue.pending)[i].cost == 1) ==>
                forall i :: 0 <= i < |queue.pending| ==> queue.pending[i].cost == 1
    {
      hide NonZero, Layout, FinishZero, Pieces, AllTasks, AddKnown;
      var idx, tasks := BuildBlock(w, base);
      assert |idx| == total;
      assert InitBlock(w, chunkBytes).chunkTaskIdx == idx;
      inflight := inflight[base := Inflight(w, idx, tasks, map[], |tasks|)];
      order := order + [base];
      specs := specs[base := SpecOf(w, chunkBytes)];
      owner := owner + OwnersFrom(base, SpecOf(w, chunkBytes));
      known := AddKnown(known, AllTasks(w), base);
    }

    // The code a workload is discarded with.
    function DiscardCode(w: Workload): ResponseCode
      reads this`readerError
    {
      if |w| == 0 then EmptyRequestError else if readerError != Success then readerError else UnknownError
    }

    lemma SameCode(fileIndex: nat, code: ResponseCode)
      requires code != Success
      ensures CodeFor(fileIndex, map[], code) == code
    {
    }

    lemma {:induction false} DiscardAnswers(v: View, w: Workload, code: ResponseCode)
      requires Inv(v) && FreshIds(v.known, AllTasks(w)) && code != Success
      ensures AllAnswered(AllTasks(w), Discarded(v, w, code).outcomes, code)
    {
      hide Inv, AllTasks, Report, CodeFor;
      InvBooks(v);
      var ts := AllTasks(w);
      ReportFacts(v.outcomes, ts, map[], code);
      forall t | t in ts
        ensures t.task.id in Discarded(v, w, code).outcomes && Discarded(v, w, code).outcomes[t.task.id] == code
      {
        var i :| 0 <= i < |ts| && ts[i] == t;
        SameCode(ts[i].fileIndex, code);
      }
    }

    // capacity: size the window, building the client on the first workload that can.
    method Capacity(first: Workload, client: Client) returns (r: Option<nat>)
      requires queue == null && chunkBytes > 0
      modifies this`readerUp, this`readerError
      ensures r.None? <==> first == [] || (!old(readerUp) && client != Built)
      ensures readerUp == (old(readerUp) || (first != [] && client == Built))
      ensures readerError == if first != [] && !old(readerUp) && client.Refused? then client.code else old(readerError)
      ensures r.Some? ==> WindowFor(r.value, backend.windowBytes, chunkBytes) && r.value >= 1
    {
      if |first| == 0 {
        return None;
      }
      if !readerUp {
        if client.Refused? {
          readerError := client.code;
        }
        if client != Built {
          return None;
        }
        readerUp := true;
      }
      var chunks := Window();
      return Some(chunks);
    }

    // The byte window the backend advertises, in chunks.
    method Window() returns (r: nat)
      requires chunkBytes > 0
      ensures WindowFor(r, backend.windowBytes, chunkBytes) && r >= 1
    {
      var windowBytes := backend.MaxInflightBytes();
      if windowBytes == SIZE_MAX {
        return SIZE_MAX;
      }
      var chunks := windowBytes / chunkBytes;
      if windowBytes >= chunkBytes {
        WindowDivides(windowBytes, chunkBytes);
      }
      return if chunks < 1 then 1 else chunks;
    }

    // discard: the window could not be brought up; the workload's tasks are failed at once.
    method Discard(w: Workload)
      requires Valid() && queue == null && FreshIds(known, AllTasks(w))
      modifies this`outcomes, this`readerError, this`known
      ensures Valid()
      ensures Admitted(old(known), known, AllTasks(w))
      ensures Extends(old(outcomes), outcomes)
      ensures Now() == Discarded(old(Now()), w, old(DiscardCode(w)))
      ensures readerError == Success
      ensures AllAnswered(AllTasks(w), outcomes, if old(readerError) != Success then old(readerError) else UnknownError)
    {
      hide Inv;
      ghost var v := Now();
      ghost var all := AllTasks(w);
      var code := DiscardCode(w);
      InvBooks(v);
      AdmittedFacts(v, w);
      ReportWorkload(w, map[], code);
      known := AddKnown(known, all, 0);
      DiscardKeeps(v, w, code);
      DiscardAnswers(v, w, code);
      assert Snap(v.out) == v.(known := known, outcomes := outcomes);
      readerError := Success;
    }

    // execute: admit the workload and submit all of it, draining only while the window is full. It ends, with
    // nothing pending, whatever the backend does and whenever the stop flag is raised.
    // The window is up from the first workload on that can bring it up; before that, a workload is answered with
    // the reason it could not.
    method Execute(w: Workload, client: Client, memory: bool) returns (ghost run: seq<View>, ghost acts: seq<Act>)
      requires Valid() && FreshIds(known, AllTasks(w))
      modifies this, queue, backend
      ensures Valid()
      ensures ActsTo(old(Now()), Now(), run, acts, Capacities())
      ensures queue == null ==> |acts| == 1 && acts[0].Discards? && acts[0].w == w
      ensures queue != null <==>
                old(queue) != null || (w != [] && (old(readerUp) || client == Built) && memory)
      ensures old(queue) == null ==> readerUp == (old(readerUp) || (w != [] && client == Built))
      ensures queue == null ==> readerError == Success
      ensures queue == null && w != [] ==>
                var why := if !old(readerUp) && client.Refused? then client.code else old(readerError);
                AllAnswered(AllTasks(w), outcomes, if why != Success then why else UnknownError)
      ensures old(queue) == null && queue != null ==> WindowFor(queue.capacity, backend.windowBytes, chunkBytes)
      ensures queue != null ==> |acts| > 0 && acts[0] == Admits(w) && Working(run, acts, 1, queue.capacity)
      ensures queue != null ==> queue.pending == []
      ensures queue != null ==> acts[|acts|-1].Drains? || queue.inflight < queue.capacity
      ensures old(queue) != null ==> queue == old(queue)
      ensures old(queue) == null ==> queue == null || fresh(queue)
      ensures Admitted(old(known), known, AllTasks(w))
      ensures Extends(old(outcomes), outcomes)
    {
      hide Inv, AllTasks, ActsTo, Working, FreshIds, Admitted, Discarded, Enqueued;
      ghost var v := Now();
      InvBooks(v);
      if queue == null {
        var up := BringUp(w, client, memory);
        assert Now() == v;
        if !up {
          acts := [Discards(w, DiscardCode(w))];
          Discard(w);
          run := [v, Now()];
          ActsOne(v, Now(), acts[0], 0);
          return;
        }
      }
      run, acts := AdmitAll(w);
    }

    // The window is up: chunk the workload into it and submit all of it.
    method AdmitAll(w: Workload) returns (ghost run: seq<View>, ghost acts: seq<Act>)
      requires Valid() && queue != null && FreshIds(known, AllTasks(w))
      modifies this`inflight, this`order, this`outcomes, this`specs, this`verdicts, this`handleCounter, this`owner,
               this`known, queue, backend
      ensures Valid()
      ensures ActsTo(old(Now()), Now(), run, acts, queue.capacity)
      ensures |acts| > 0 && acts[0] == Admits(w) && Working(run, acts, 1, queue.capacity)
      ensures queue.pending == []
      ensures acts[|acts|-1].Drains? || queue.inflight < queue.capacity
      ensures Admitted(old(known), known, AllTasks(w))
      ensures Extends(old(outcomes), outcomes)
    {
      hide Inv, AllTasks, ActsTo, Working, FreshIds, Admitted, Enqueued;
      ghost var v := Now();
      InvBooks(v);
      Enqueue(w);
      ghost var u := Now();
      ActsOne(v, u, Admits(w), queue.capacity);
      run, acts := SubmitAll();
      ActsShape(u, Now(), run, acts, queue.capacity);
      WorkingAfter(v, u, run, acts, Admits(w), queue.capacity);
      ActsJoin(v, u, Now(), [v, u], [Admits(w)], run, acts, queue.capacity);
      run, acts := [v, u] + run[1..], [Admits(w)] + acts;
    }

    // Size the window and create it; both may fail.
    method BringUp(w: Workload, client: Client, memory: bool) returns (up: bool)
      requires Valid() && queue == null
      modifies this`readerUp, this`readerError, this`queue
      ensures Valid() && Now() == old(Now())
      ensures up <==> queue != null
      ensures up <==> w != [] && (old(readerUp) || client == Built) && memory
      ensures readerUp == (old(readerUp) || (w != [] && client == Built))
      ensures readerError == if w != [] && !old(readerUp) && client.Refused? then client.code else old(readerError)
      ensures up ==> fresh(queue) && WindowFor(queue.capacity, backend.windowBytes, chunkBytes)
    {
      hide Inv;
      InvBooks(Now());
      var c := Capacity(w, client);
      if c.None? || !memory {
        return false;
      }
      queue := new CapacityQueue(c.value);
      assert Items([]) == [];
      return true;
    }

    ghost function Capacities(): nat
      reads this, queue
    {
      if queue == null then 0 else queue.capacity
    }

    // The submit / drain interleave of execute.
    method SubmitAll() returns (ghost run: seq<View>, ghost acts: seq<Act>)
      requires Valid() && queue != null
      modifies this`inflight, this`order, this`outcomes, this`specs, this`verdicts, queue, backend
      ensures Valid()
      ensures ActsTo(old(Now()), Now(), run, acts, queue.capacity)
      ensures Working(run, acts, 0, queue.capacity)
      ensures queue.pending == []
      ensures (acts != [] && acts[|acts|-1].Drains?) || queue.inflight < queue.capacity
      ensures Extends(old(outcomes), outcomes)
    {
      hide ValidWith, ActsTo, Acts, Working, Now;
      ghost var start := Now();
      ActsNone(start, queue.capacity);
      run, acts := [start], [];
      WorkingNone(start, queue.capacity);
      while queue.pending != []
        invariant Valid()
        invariant ActsTo(start, Now(), run, acts, queue.capacity) && Working(run, acts, 0, queue.capacity)
        invariant Extends(old(outcomes), outcomes)
        decreases Measure()
      {
        ghost var u := Now();
        ghost var more, moreActs := Pump();
        ActsShape(u, Now(), more, moreActs, queue.capacity);
        WorkingJoin(start, u, Now(), run, acts, more, moreActs, queue.capacity);
        ActsJoin(start, u, Now(), run, acts, more, moreActs, queue.capacity);
        run, acts := run + more[1..], acts + moreActs;
        if queue.pending != [] {
          u := Now();
          CreditView();
          var stopped: bool := *;
          ghost var act := DrainBatch(stopped);
          DrainedMore(start, u, Now(), run, acts, act, queue.capacity);
          run, acts := run + [Now()], acts + [act];
        }
      }
      if queue.inflight >= queue.capacity {
        ghost var u := Now();
        CreditView();
        var stopped: bool := *;
        ghost var act := DrainBatch(stopped);
        DrainedMore(start, u, Now(), run, acts, act, queue.capacity);
        run, acts := run + [Now()], acts + [act];
      }
    }

    // drain: one round, then refill. A worker that is not idle gets strictly closer to idle; one that never
    // brought its window up has nothing to do.
    method Drain(stopped: bool) returns (ghost run: seq<View>, ghost acts: seq<Act>)
      requires Valid()
      modifies this`inflight, this`order, this`outcomes, this`specs, this`verdicts, queue, backend
      ensures Valid()
      ensures ActsTo(old(Now()), Now(), run, acts, Capacities())
      ensures queue == null ==> acts == [] && Now() == old(Now())
      ensures queue != null ==> |acts| > 0 && acts[0].Drains? && acts[0].stopped == stopped
      ensures forall k :: 1 <= k < |acts| ==> acts[k].Submits?
      ensures queue != null ==> queue.pending == [] || queue.inflight >= queue.capacity
      ensures Extends(old(outcomes), outcomes)
      ensures old(queue != null && !queue.Idle()) ==> queue.Idle() || Measure() < old(Measure())
    {
      hide ValidWith, ActsTo, Acts, Now;
      ghost var v := Now();
      if queue == null {
        ActsNone(v, 0);
        run, acts := [v], [];
        return;
      }
      ghost var act := DrainBatch(stopped);
      ghost var u := Now();
      ActsOne(v, u, act, queue.capacity);
      run, acts := Pump();
      ActsShape(u, Now(), run, acts, queue.capacity);
      ActsJoin(v, u, Now(), [v, u], [act], run, acts, queue.capacity);
      run, acts := [v, u] + run[1..], [act] + acts;
    }

    // idle: nothing pending and nothing in flight - and then every task ever admitted has its one
    // answer, and each success is backed by all of the task's reads.
    method Idle() returns (idle: bool)
      requires Valid()
      ensures idle <==> queue == null || queue.Idle()
      ensures idle ==> inflight == map[] && known.Keys == outcomes.Keys
      ensures idle ==> forall id :: id in known && outcomes[id] == Success ==>
                OwnReadsLanded(Now(), id)
    {
      hide Inv;
      idle := queue == null || queue.Idle();
      if idle {
        IdleMeansAnswered(Now());
      }
    }
  }

  lemma {:induction false} ReportFails(outcomes: map<nat, ResponseCode>, ts: seq<FileTask>,
                                       errs: map<nat, ResponseCode>, code: ResponseCode)
    requires code != Success
    ensures FailedWith(outcomes, Report(outcomes, ts, errs, code), code)
    ensures forall id :: id in outcomes ==>
        id in Report(outcomes, ts, errs, code) && Report(outcomes, ts, errs, code)[id] == outcomes[id]
  {
    if ts != [] {
      ReportFails(outcomes, ts[..|ts|-1], errs, code);
    }
  }

  lemma {:induction false} FailMore(before: map<nat, ResponseCode>, outcomes: map<nat, ResponseCode>, ts: seq<FileTask>,
                                    errs: map<nat, ResponseCode>, code: ResponseCode)
    requires code != Success && FailedWith(before, outcomes, code)
    ensures FailedWith(before, Report(outcomes, ts, errs, code), code)
  {
    hide Report;
    ReportFails(outcomes, ts, errs, code);
  }

  // Every task of the workload is now known, under its identity, and nothing known was lost.
  ghost predicate Admitted(before: map<nat, Known>, after: map<nat, Known>, ts: seq<FileTask>)
  {
    && (forall id :: id in before ==> id in after && after[id] == before[id])
    && (forall id :: id in after ==> id in before || HasId(ts, id))
    && (forall t :: t in ts ==> t.task.id in after && after[t.task.id].task == t)
  }

  lemma {:induction false} AdmittedFacts(v: View, w: Workload)
    requires v.cb > 0 && FreshIds(v.known, AllTasks(w)) && v.known.Keys >= v.outcomes.Keys
    ensures forall home :: Admitted(v.known, AddKnown(v.known, AllTasks(w), home), AllTasks(w))
    ensures Extends(v.outcomes, FinishZero(v.outcomes, AllTasks(w)))
  {
    var all := AllTasks(w);
    forall home: nat ensures Admitted(v.known, AddKnown(v.known, all, home), all) {
      AddKnownFacts(v.known, all, home);
    }
    FinishZeroFacts(v.outcomes, all);
  }

  lemma {:induction false} InAllTasks(w: Workload, i: nat, j: nat)
    requires i < |w| && j < |w[i].tasks|
    ensures TasksOf(w[i])[j] in AllTasks(w)
  {
    if i < |w| - 1 {
      assert w[..|w|-1][i] == w[i];
      InAllTasks(w[..|w|-1], i, j);
    }
  }

  lemma {:induction false} ReportNothing(outcomes: map<nat, ResponseCode>, ts: seq<FileTask>)
    ensures Report(outcomes, ts, map[], Success) == outcomes
  {
    if ts != [] {
      ReportNothing(outcomes, ts[..|ts|-1]);
    }
  }

  lemma AdmitFrames(v: View, w: Workload, order: seq<nat>, outstanding: map<nat, Read>)
    requires v.cb > 0 && Disjoint(v.specs, v.counter) && Below(v.out, v.counter) && outstanding.Keys <= v.out
    requires v.blocks.Keys == v.specs.Keys && Ordered(order, v.blocks.Keys) && ReadsMatch(outstanding, v.owner)
    ensures Ordered(order + [v.counter], AdmitView(v, w).blocks.Keys)
    ensures ReadsMatch(outstanding, AdmitView(v, w).owner)
  {
    hide SpecOf, InitBlock, AddKnown, FinishZero;
    forall h | h in outstanding ensures h in AdmitView(v, w).owner && AdmitView(v, w).owner[h] == v.owner[h] {
      OwnersFromAt(v.counter, SpecOf(w, v.cb), h);
    }
    forall i | 0 <= i < |order| ensures order[i] < v.counter {
      assert order[i] in v.specs;
    }
  }

  // Part way through enqueue: `done` are the tasks handled, the rest is what they have led to.
  ghost predicate Building(cb: nat, done: seq<FileTask>, base: nat, idx: seq<nat>, tasks: seq<TaskState>,
                           entries: seq<Entry<Chunk>>, pending: seq<Entry<Chunk>>,
                           start: map<nat, ResponseCode>, outcomes: map<nat, ResponseCode>)
    requires cb > 0
  {
    var ts := NonZero(done);
    && idx == IdxOf(Layout(ts, cb))
    && tasks == InitTasks(ts, cb)
    && pending == entries + EntriesFrom(base, Layout(ts, cb))
    && outcomes == FinishZero(start, done)
  }

  lemma BuildingStart(cb: nat, base: nat, pending: seq<Entry<Chunk>>, outcomes: map<nat, ResponseCode>)
    requires cb > 0
    ensures Building(cb, [], base, [], [], pending, pending, outcomes, outcomes)
  {
  }

  lemma AllTasksNone(w: Workload)
    ensures AllTasks(w[..0]) == []
  {
  }

  ghost function IdxOf(plan: seq<Piece>): seq<nat>
  {
    seq(|plan|, i requires 0 <= i < |plan| => plan[i].task)
  }

  ghost function EntriesFrom(first: nat, ps: seq<Piece>): seq<Entry<Chunk>>
  {
    seq(|ps|, i requires 0 <= i < |ps| =>
      Entry(Chunk(first + i, ps[i].read.offset, ps[i].read.bytesize, ps[i].read.buffer), 1))
  }

  lemma {:induction false} BuildingStep(cb: nat, done: seq<FileTask>, ft: FileTask, base: nat, idx: seq<nat>,
                                        tasks: seq<TaskState>,
                                        entries: seq<Entry<Chunk>>, pending: seq<Entry<Chunk>>,
                                        start: map<nat, ResponseCode>, outcomes: map<nat, ResponseCode>)
    requires cb > 0 && Building(cb, done, base, idx, tasks, entries, pending, start, outcomes)
    ensures ft.task.bytesize == 0 ==>
              Building(cb, done + [ft], base, idx, tasks, entries, pending, start,
                Finish(outcomes, ft.task.id, Success))
    ensures ft.task.bytesize != 0 ==>
              var ps := Pieces(|tasks|, ft, cb, 0);
              Building(cb, done + [ft], base, idx + seq(|ps|, i => |tasks|), tasks + [TaskState(ft, |ps|, Success)],
                       entries, pending + EntriesFrom(base + |idx|, ps), start, outcomes)
  {
    hide NonZero, Layout, FinishZero, Pieces, InitTasks, IdxOf, EntriesFrom;
    var ts := NonZero(done);
    NonZeroSnoc(done, ft);
    FinishZeroSnoc(start, done, ft);
    if ft.task.bytesize != 0 {
      LayoutSnoc(ts, ft, cb);
      InitTasksSnoc(ts, ft, cb);
      EntriesConcat(base, Layout(ts, cb), Pieces(|ts|, ft, cb, 0));
    }
  }

  lemma {:induction false} NonZeroSnoc(ts: seq<FileTask>, ft: FileTask)
    ensures NonZero(ts + [ft]) == if ft.task.bytesize == 0 then NonZero(ts) else NonZero(ts) + [ft]
  {
    assert (ts + [ft])[..|ts|] == ts;
  }

  lemma {:induction false} FinishZeroSnoc(start: map<nat, ResponseCode>, ts: seq<FileTask>, ft: FileTask)
    ensures FinishZero(start, ts + [ft]) ==
            if ft.task.bytesize == 0 then Finish(FinishZero(start, ts), ft.task.id, Success) else FinishZero(start, ts)
  {
    assert (ts + [ft])[..|ts|] == ts;
  }

  lemma {:induction false} LayoutSnoc(ts: seq<FileTask>, ft: FileTask, cb: nat)
    requires cb > 0
    ensures var ps := Pieces(|ts|, ft, cb, 0);
            && Layout(ts + [ft], cb) == Layout(ts, cb) + ps
            && IdxOf(Layout(ts, cb) + ps) == IdxOf(Layout(ts, cb)) + seq(|ps|, i => |ts|)
            && |IdxOf(Layout(ts, cb))| == |Layout(ts, cb)|
  {
    assert (ts + [ft])[..|ts|] == ts;
    PiecesTask(|ts|, ft, cb, 0);
  }

  lemma {:induction false} InitTasksSnoc(ts: seq<FileTask>, ft: FileTask, cb: nat)
    requires cb > 0
    ensures |InitTasks(ts, cb)| == |ts|
    ensures InitTasks(ts + [ft], cb) == InitTasks(ts, cb) + [TaskState(ft, |Pieces(|ts|, ft, cb, 0)|, Success)]
  {
  }

  lemma EntriesConcat(base: nat, a: seq<Piece>, b: seq<Piece>)
    ensures EntriesFrom(base, a + b) == EntriesFrom(base, a) + EntriesFrom(base + |a|, b)
  {
  }

  lemma {:induction false} ChunkTotalSnoc(ts: seq<FileTask>, ft: FileTask, cb: nat)
    requires cb > 0
    ensures ChunkTotal(ts + [ft], cb) == ChunkTotal(ts, cb) + CeilDiv(ft.task.bytesize, cb)
  {
    hide CeilDiv;
    assert (ts + [ft])[..|ts|] == ts;
  }

  lemma {:induction false} CountNone(cb: nat)
    requires cb > 0
    ensures AllTasks([]) == [] && ChunkTotal([], cb) == 0
  {
  }

  // Rounding up as the source writes it.
  lemma CeilDivIs(a: nat, b: nat)
    requires b > 0
    ensures CeilDiv(a, b) == (a + b - 1) / b
  {
  }

  lemma AllTasksSnoc(w: Workload, i: nat)
    requires i < |w|
    ensures AllTasks(w[..i + 1]) == AllTasks(w[..i]) + TasksOf(w[i])[..|w[i].tasks|]
    ensures AllTasks(w[..i + 1]) == AllTasks(w[..i]) + TasksOf(w[i])
  {
    assert w[..i + 1][..i] == w[..i] && w[..i + 1][i] == w[i];
    assert TasksOf(w[i])[..|w[i].tasks|] == TasksOf(w[i]);
  }

  ghost predicate Lands(r: Response, landed: set<nat>) { r.code == Success ==> r.handle in landed }

  ghost predicate AllLand(rs: seq<Response>, landed: set<nat>)
  {
    forall j :: 0 <= j < |rs| ==> Lands(rs[j], landed)
  }

  // Handles of the completions from position i on.
  ghost function Remaining(rs: seq<Response>, i: nat): set<nat>
  {
    set j | i <= j < |rs| && rs[j].code != FinishedError :: rs[j].handle
  }

  ghost predicate Listed(rs: seq<Response>)
  {
    && (forall i :: 0 <= i < |rs| && rs[i].code == FinishedError ==> i == |rs| - 1)
    && (forall i, j :: 0 <= i < j < |rs| && rs[j].code != FinishedError ==> rs[i].handle != rs[j].handle)
  }

  lemma RemainingStep(rs: seq<Response>, i: nat)
    requires Listed(rs) && i < |rs|
    ensures rs[i].code != FinishedError ==>
              Remaining(rs, i) == Remaining(rs, i + 1) + {rs[i].handle} && rs[i].handle !in Remaining(rs, i + 1)
    ensures rs[i].code == FinishedError ==> Remaining(rs, i) == {} && i == |rs| - 1
  {
  }

  lemma NoneRemain(rs: seq<Response>)
    ensures Remaining(rs, |rs|) == {}
  {
  }

  lemma RoundSets(before: map<nat, Read>, after: map<nat, Read>, rs: seq<Response>)
    requires RoundFits(before.Keys, rs) && after == before - Returned(rs)
    ensures Listed(rs) && Remaining(rs, 0) == Returned(rs)
    ensures before.Keys == after.Keys + Remaining(rs, 0) && Remaining(rs, 0) !! after.Keys
    ensures |after| <= |before|
    ensures rs != [] && rs[0].code != FinishedError ==> |after| < |before|
  {
    RoundListed(before.Keys, rs);
    hide RoundFits, Listed, Remaining, Returned;
    FewerReads(before, after, Returned(rs));
  }

  lemma RoundListed(out: set<nat>, rs: seq<Response>)
    requires RoundFits(out, rs)
    ensures Listed(rs) && Remaining(rs, 0) == Returned(rs) && Returned(rs) <= out
    ensures rs != [] && rs[0].code != FinishedError ==> Returned(rs) != {}
  {
    if rs != [] && rs[0].code != FinishedError {
      assert rs[0].handle in Returned(rs);
    }
  }

  lemma FewerReads(before: map<nat, Read>, after: map<nat, Read>, gone: set<nat>)
    requires after == before - gone && gone <= before.Keys
    ensures before.Keys == after.Keys + gone && gone !! after.Keys
    ensures |after| + |gone| == |before|
  {
    assert before.Keys == after.Keys + gone;
    assert |before.Keys| == |after.Keys| + |gone|;
  }

  // The backend hands out no completion: an empty round, or only the sentinel.
  ghost predicate NothingComes(rs: seq<Response>) { rs == [] || rs[0].code == FinishedError }

  lemma {:induction false} NothingRouted(v: View, rs: seq<Response>)
    requires Listed(rs)
    ensures NothingComes(rs) ==> Route(v, Completions(rs)) == v && !SomeLive(v, Completions(rs))
  {
    RouteNone(v);
  }

  lemma ReadsFewer(before: map<nat, Read>, after: map<nat, Read>, rs: seq<Response>, owner: map<nat, Owned>)
    requires ReadsMatch(before, owner) && after == before - Returned(rs)
    ensures ReadsMatch(after, owner)
  {
  }

  lemma AllLands(rs: seq<Response>, i: nat, landed: set<nat>)
    requires AllLand(rs, landed) && i < |rs|
    ensures Lands(rs[i], landed)
  {
  }

  lemma RoundFacts(rs: seq<Response>, landed: set<nat>)
    requires Landings(rs) <= landed
    ensures AllLand(rs, landed)
  {
    forall i | 0 <= i < |rs| && rs[i].code == Success ensures rs[i].handle in landed {
      assert rs[i].handle in Landings(rs);
    }
  }

  // Every one of the tasks is answered with the code.
  ghost predicate AllAnswered(ts: seq<FileTask>, outcomes: map<nat, ResponseCode>, code: ResponseCode)
  {
    forall t :: t in ts ==> t.task.id in outcomes && outcomes[t.task.id] == code
  }

  // Every task that was open is answered with the code.
  ghost predicate OpenAnswered(known: map<nat, Known>, before: map<nat, ResponseCode>, after: map<nat, ResponseCode>,
                               code: ResponseCode)
  {
    forall id :: id in known && id !in before ==> id in after && after[id] == code
  }

  lemma AbortAnswers(v: View, w: View, code: ResponseCode)
    requires Inv(v) && AbortedBy(v, w, code)
    ensures OpenAnswered(v.known, v.outcomes, w.outcomes, code)
  {
    hide Inv;
    OpenIsLive(v);
    forall id | id in v.known && id !in v.outcomes ensures id in w.outcomes && w.outcomes[id] == code {
      assert v.known[id].task in v.specs[v.known[id].home].all;
    }
  }

  lemma OpenIsLive(v: View)
    requires Inv(v)
    ensures forall id :: id in v.known && id !in v.outcomes ==>
              && v.known[id].home in v.specs && v.known[id].task in v.specs[v.known[id].home].all
              && v.known[id].task.task.id == id
  {
    hide OwnersOk, BlocksOk, PendingOk, CreditOk, Homed;
  }

  ghost predicate Extends(a: map<nat, ResponseCode>, b: map<nat, ResponseCode>)
  {
    forall id :: id in a ==> id in b && b[id] == a[id]
  }

  lemma InvCore(v: View)
    requires Inv(v)
    ensures Core(v)
  {
  }

  lemma InvShape(v: View)
    requires Inv(v)
    ensures v.blocks.Keys == v.specs.Keys && Disjoint(v.specs, v.counter)
    ensures forall b :: b in v.blocks ==> Shape(v.blocks[b], v.specs[b])
  {
    forall b | b in v.blocks ensures Shape(v.blocks[b], v.specs[b]) {
      LocateFacts(v, b);
    }
  }

  lemma TakeFacts(v: View)
    requires Inv(v) && |v.pending| > 0
    ensures ChunkOk(v.specs, v.pending[0]) && v.pending[0].handle !in v.out
  {
    TakePending(v.pending, v.out, v.specs);
  }

  lemma InvOwners(v: View, base: nat)
    requires Inv(v) && base in v.specs
    ensures base in v.blocks && Shape(v.blocks[base], v.specs[base]) && SourcesOk(v.specs[base])
  {
    hide OwnersOk, Counts, Judged, Reported, PendingOk, KnownOk, CreditOk, Disjoint;
    assert At(v, base) && Homed(base, v.specs[base], v.known);
  }

  lemma TaskOwner(b: Inflight, s: Spec, i: nat)
    requires Shape(b, s) && i < |s.plan|
    ensures s.plan[i].task < |s.ts| == |b.tasks| && b.tasks[s.plan[i].task].owner == s.ts[s.plan[i].task]
  {
  }

  // The chunk handed to submit is the one the owning block's layout has at its handle.
  lemma SubmitFacts(v: View, c: Chunk, base: nat)
    requires Inv(v) && ChunkOk(v.specs, c) && base in v.specs && InBlock(base, v.specs[base], c.handle)
    ensures base in v.blocks
    ensures v.specs[base].plan[c.handle - base].task < |v.blocks[base].tasks|
    ensures v.specs[base].plan[c.handle - base].read ==
            Read(v.blocks[base].tasks[v.specs[base].plan[c.handle - base].task].owner.source,
                 c.offset, c.bytesize, c.buffer)
  {
    hide Inv, Shape, SpecShape;
    InvOwners(v, base);
    InvShape(v);
    TaskOwner(v.blocks[base], v.specs[base], c.handle - base);
    var b0 :| b0 in v.specs && InBlock(b0, v.specs[b0], c.handle)
              && ChunkAt(c, v.specs[b0].plan[c.handle - b0].read);
    assert b0 == base;
  }

  lemma ReadsGrow(v: View, outstanding: map<nat, Read>, h: nat, base: nat, read: Read)
    requires Inv(v) && ReadsMatch(outstanding, v.owner)
    requires base in v.specs && InBlock(base, v.specs[base], h) && v.specs[base].plan[h - base].read == read
    ensures ReadsMatch(outstanding[h := read], v.owner)
  {
    hide Books;
    assert BlockOwned(base, v.specs[base], v.owner);
  }

  lemma AfterCompleteExtends(v: View, base: nat, h: nat, ret: ResponseCode)
    requires Inv(v) && base in v.specs && InBlock(base, v.specs[base], h) && h in v.out
    requires ReadOk(v, h, ret)
    ensures Ready(v, base, h)
    ensures Extends(v.outcomes, AfterComplete(v, base, h, ret).outcomes)
  {
    hide Inv, Report, AllTasks;
    CompleteKeeps(v, base, h, ret);
    AnswerableNow(v, base);
    var w := CompleteView(v, base, h, ret);
    ReportFacts(w.outcomes, w.specs[base].all, w.blocks[base].errorByFile, Success);
  }

  // A live workload's tasks are the ones its layout lists, distinct and known.
  ghost predicate Answerable(v: View, base: nat)
  {
    && base in v.blocks && base in v.specs
    && v.specs[base].all == AllTasks(v.blocks[base].workload)
    && DistinctIds(v.specs[base].all)
    && (forall t :: t in v.specs[base].all ==> t.task.id in v.known)
  }

  lemma AnswerableNow(v: View, base: nat)
    requires Inv(v) && base in v.blocks
    ensures Answerable(v, base) && NoneDone(v.blocks)
  {
    assert At(v, base);
    assert Homed(base, v.specs[base], v.known);
    assert v.specs[base].all == AllTasks(v.blocks[base].workload);
  }

  // Part way through abort_all: `left` are the blocks still to be dropped.
  ghost predicate Dropping(v: View, left: set<nat>, outcomes: map<nat, ResponseCode>)
  {
    && (forall id :: id in v.outcomes ==> id in outcomes && outcomes[id] == v.outcomes[id])
    && (forall base, t :: base in v.specs && base !in left && t in v.specs[base].all ==> t.task.id in outcomes)
    && (forall id :: id in outcomes && id !in v.outcomes ==> id in v.known && outcomes[id] != Success)
  }

  lemma OrderHolds(order: seq<nat>, keys: set<nat>)
    requires Ordered(order, keys)
    ensures forall b :: b in keys <==> b in order
  {
  }

  lemma AbortedFacts(v: View, outcomes: map<nat, ResponseCode>, code: ResponseCode)
    requires Aborted(v, outcomes) && FailedWith(v.outcomes, outcomes, code)
    ensures AbortedBy(v, v.(blocks := map[], specs := map[], pending := [], credit := 0, outcomes := outcomes), code)
    ensures Extends(v.outcomes, outcomes)
  {
  }

  lemma DroppedNone(v: View, code: ResponseCode)
    requires v.blocks.Keys == v.specs.Keys
    ensures Dropping(v, v.blocks.Keys, v.outcomes) && FailedWith(v.outcomes, v.outcomes, code)
  {
  }

  lemma DroppedAll(v: View, outcomes: map<nat, ResponseCode>)
    requires Dropping(v, {}, outcomes)
    ensures Aborted(v, outcomes)
  {
  }

  lemma {:induction false} AbortOne(v: View, left: set<nat>, base: nat, outcomes: map<nat, ResponseCode>,
                                    code: ResponseCode)
    requires code != Success && Answerable(v, base) && Dropping(v, left, outcomes)
    ensures Dropping(v, left - {base},
                     Report(outcomes, AllTasks(v.blocks[base].workload), v.blocks[base].errorByFile, code))
  {
    AllReported(outcomes, v.specs[base].all, v.blocks[base].errorByFile, code);
    hide Report, AllTasks, DistinctIds, HasId;
    var r := Report(outcomes, v.specs[base].all, v.blocks[base].errorByFile, code);
    forall id | id in r && id !in outcomes ensures id in v.known && r[id] != Success {
      var t :| t in v.specs[base].all && t.task.id == id;
    }
  }

  // With an error as its code, a report answers every task, the open ones with that code.
  lemma {:induction false} AllReported(outcomes: map<nat, ResponseCode>, all: seq<FileTask>, errs: map<nat,
                                       ResponseCode>,
                                       code: ResponseCode)
    requires code != Success && DistinctIds(all)
    ensures var r := Report(outcomes, all, errs, code);
            && (forall id :: id in outcomes ==> id in r && r[id] == outcomes[id])
            && (forall t :: t in all ==> t.task.id in r)
            && (forall id :: id in r && id !in outcomes ==> r[id] != Success && exists t :: t in all && t.task.id == id)
  {
    ReportFacts(outcomes, all, errs, code);
    hide Report, DistinctIds;
    var r := Report(outcomes, all, errs, code);
    forall t | t in all ensures t.task.id in r {
      var i :| 0 <= i < |all| && all[i] == t;
      assert CodeFor(all[i].fileIndex, errs, code) == code;
    }
    forall id | id in r && id !in outcomes ensures r[id] != Success && exists t :: t in all && t.task.id == id {
      var i :| 0 <= i < |all| && all[i].task.id == id;
      assert all[i] in all && CodeFor(all[i].fileIndex, errs, code) == code;
    }
  }
}

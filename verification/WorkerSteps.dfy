// Each step of the object-storage worker keeps its invariant.
module WorkerSteps {
  import opened Codes
  import opened WorkerModel
  import opened WorkerInvariant

  // ---------------------------------------------------------------- framing

  // A block untouched by a step stays in order.
  lemma BlockFrame(base: nat, b: Inflight, s: Spec, v: View, w: View)
    requires BlockOk(base, b, s, Alive(v), v.outcomes, v.verdicts)
    requires forall h :: InBlock(base, s, h) ==> (h in Alive(v) <==> h in Alive(w))
    requires forall h :: InBlock(base, s, h) ==> (h in v.verdicts <==> h in w.verdicts)
    requires forall h :: InBlock(base, s, h) && h in v.verdicts ==> v.verdicts[h] == w.verdicts[h]
    requires forall t :: t in s.all ==> (t.task.id in v.outcomes <==> t.task.id in w.outcomes)
    requires forall t :: t in s.all && t.task.id in v.outcomes ==>
               v.outcomes[t.task.id] == w.outcomes[t.task.id]
    ensures BlockOk(base, b, s, Alive(w), w.outcomes, w.verdicts)
  {
    CountsFrame(base, b, s, Alive(v), Alive(w));
    JudgedFrame(base, b, s, Alive(v), Alive(w), v.verdicts, w.verdicts);
    ReportedFrame(b, s, v.outcomes, w.outcomes);
  }

  lemma CountsFrame(base: nat, b: Inflight, s: Spec, alive: set<nat>, alive': set<nat>)
    requires Counts(base, b, s, alive)
    requires forall h :: InBlock(base, s, h) ==> (h in alive <==> h in alive')
    ensures Counts(base, b, s, alive')
  {
    forall k | 0 <= k < |b.tasks| ensures Left(base, s, k, alive) == Left(base, s, k, alive') {
    }
  }

  lemma JudgedFrame(base: nat, b: Inflight, s: Spec, alive: set<nat>, alive': set<nat>,
                    verdicts: map<nat, ResponseCode>, verdicts': map<nat, ResponseCode>)
    requires Shape(b, s) && Judged(base, b, s, alive, verdicts)
    requires forall h :: InBlock(base, s, h) ==> (h in alive <==> h in alive')
    requires forall h :: InBlock(base, s, h) ==> (h in verdicts <==> h in verdicts')
    requires forall h :: InBlock(base, s, h) && h in verdicts ==> verdicts[h] == verdicts'[h]
    ensures Judged(base, b, s, alive', verdicts')
  {
    forall k | 0 <= k < |b.tasks| && b.tasks[k].error != Success
      ensures FailedChunk(base, s, k, b.tasks[k].error, verdicts')
    {
      assert FailedChunk(base, s, k, b.tasks[k].error, verdicts);
      var h :| h in verdicts && InBlock(base, s, h) && s.plan[h - base].task == k
               && verdicts[h] == b.tasks[k].error;
      assert h in verdicts';
    }
  }

  lemma ReportedFrame(b: Inflight, s: Spec, outcomes: map<nat, ResponseCode>, outcomes': map<nat, ResponseCode>)
    requires Shape(b, s) && Reported(b, s, outcomes)
    requires forall t :: t in s.all ==> (t.task.id in outcomes <==> t.task.id in outcomes')
    requires forall t :: t in s.all && t.task.id in outcomes ==> outcomes[t.task.id] == outcomes'[t.task.id]
    ensures Reported(b, s, outcomes')
  {
    forall k | 0 <= k < |b.tasks| ensures TaskReported(b.tasks[k], outcomes') {
      assert TaskReported(b.tasks[k], outcomes);
      assert b.tasks[k].owner == s.ts[k] && s.ts[k] in s.all;
    }
  }

  // ---------------------------------------------------------------- completing one chunk

  // complete_chunk's update of the block: first error wins, counters go down.
  function CompleteIn(b: Inflight, k: nat, ret: ResponseCode): (r: Inflight)
    requires k < |b.tasks| && b.tasks[k].remainingChunks > 0
  {
    var t := b.tasks[k];
    var error := if t.error == Success then ret else t.error;
    var t' := TaskState(t.owner, t.remainingChunks - 1, error);
    var last := t'.remainingChunks == 0;
    Inflight(b.workload, b.chunkTaskIdx, b.tasks[k := t'],
             if last && error != Success && t.owner.fileIndex !in b.errorByFile
             then b.errorByFile[t.owner.fileIndex := error] else b.errorByFile,
             if last && b.remainingTasks > 0 then b.remainingTasks - 1 else b.remainingTasks)
  }

  function CompleteOutcomes(outcomes: map<nat, ResponseCode>, t: TaskState, ret: ResponseCode)
    : map<nat, ResponseCode>
  {
    if t.remainingChunks == 1 && t.error == Success && ret == Success
    then Finish(outcomes, t.owner.task.id, Success) else outcomes
  }

  // h is an outstanding handle of the live block at base.
  ghost predicate Outstanding(v: View, base: nat, h: nat)
  {
    && At(v, base)
    && InBlock(base, v.specs[base], h) && h in v.out
    && h !in PendingHandles(v.pending)
  }

  ghost predicate Ready(v: View, base: nat, h: nat)
  {
    && base in v.blocks && base in v.specs && InBlock(base, v.specs[base], h)
    && v.specs[base].plan[h - base].task < |v.blocks[base].tasks|
    && v.blocks[base].tasks[v.specs[base].plan[h - base].task].remainingChunks > 0
    && v.blocks[base].remainingTasks > 0
    && v.credit > 0
  }

  ghost function CompleteView(v: View, base: nat, h: nat, ret: ResponseCode): View
    requires Ready(v, base, h)
  {
    var b := v.blocks[base];
    var k := v.specs[base].plan[h - base].task;
    v.(blocks := v.blocks[base := CompleteIn(b, k, ret)],
       out := v.out - {h},
       credit := v.credit - 1,
       outcomes := CompleteOutcomes(v.outcomes, b.tasks[k], ret),
       verdicts := v.verdicts[h := ret])
  }

  // The asserts of complete_chunk hold: the chunk's task has chunks left, the window has credit.
  lemma CompleteReady(v: View, base: nat, h: nat)
    requires Outstanding(v, base, h) && CreditOk(v.credit, v.specs, v.out)
    ensures Ready(v, base, h)
  {
    var b, s := v.blocks[base], v.specs[base];
    var k := s.plan[h - base].task;
    assert h in Left(base, s, k, Alive(v));
    assert k in Unfinished(b.tasks);
    assert h in LiveOut(v.specs, v.out);
  }

  lemma LeftShrinks(base: nat, s: Spec, j: nat, h: nat, alive: set<nat>)
    requires InBlock(base, s, h) && h in alive
    ensures |Left(base, s, j, alive - {h})| ==
            |Left(base, s, j, alive)| - if s.plan[h - base].task == j then 1 else 0
  {
    var was := Left(base, s, j, alive);
    var now := Left(base, s, j, alive - {h});
    if s.plan[h - base].task == j {
      assert now == was - {h};
    } else {
      assert now == was;
    }
  }

  lemma UnfinishedShrinks(tasks: seq<TaskState>, k: nat, t: TaskState)
    requires k < |tasks| && tasks[k].remainingChunks > 0 && t.remainingChunks == tasks[k].remainingChunks - 1
    ensures |Unfinished(tasks)| > 0
    ensures |Unfinished(tasks[k := t])| == |Unfinished(tasks)| - if t.remainingChunks == 0 then 1 else 0
  {
    assert k in Unfinished(tasks);
    if t.remainingChunks == 0 {
      assert Unfinished(tasks[k := t]) == Unfinished(tasks) - {k};
    } else {
      assert Unfinished(tasks[k := t]) == Unfinished(tasks);
    }
  }

  lemma CompleteCounts(base: nat, b: Inflight, s: Spec, h: nat, ret: ResponseCode, alive: set<nat>)
    requires Shape(b, s) && InBlock(base, s, h) && h in alive && Counts(base, b, s, alive)
    requires b.tasks[s.plan[h - base].task].remainingChunks > 0
    ensures Counts(base, CompleteIn(b, s.plan[h - base].task, ret), s, alive - {h})
  {
    var k := s.plan[h - base].task;
    var b' := CompleteIn(b, k, ret);
    forall j | 0 <= j < |b.tasks|
      ensures b'.tasks[j].remainingChunks == |Left(base, s, j, alive - {h})|
    {
      LeftShrinks(base, s, j, h, alive);
    }
    UnfinishedShrinks(b.tasks, k, b'.tasks[k]);
  }

  lemma CompleteJudged(base: nat, b: Inflight, s: Spec, h: nat, ret: ResponseCode, alive: set<nat>,
                       verdicts: map<nat, ResponseCode>)
    requires Shape(b, s) && InBlock(base, s, h) && h in alive && Judged(base, b, s, alive, verdicts)
    requires b.tasks[s.plan[h - base].task].remainingChunks > 0
    ensures var b' := CompleteIn(b, s.plan[h - base].task, ret);
            Shape(b', s) && Judged(base, b', s, alive - {h}, verdicts[h := ret])
  {
    assert forall i :: 0 <= i < |s.plan| ==> s.plan[i].task < |s.ts|;
    hide SpecShape;
    var k := s.plan[h - base].task;
    var b' := CompleteIn(b, k, ret);
    var verdicts' := verdicts[h := ret];
    forall j | 0 <= j < |b'.tasks| && b'.tasks[j].error != Success
      ensures FailedChunk(base, s, j, b'.tasks[j].error, verdicts')
    {
      if j == k && b.tasks[k].error == Success {
        assert h in verdicts' && InBlock(base, s, h);
      } else {
        assert FailedChunk(base, s, j, b.tasks[j].error, verdicts);
        var g :| g in verdicts && InBlock(base, s, g) && s.plan[g - base].task == j
                 && verdicts[g] == b.tasks[j].error;
        assert g in verdicts' && g != h;
      }
    }
  }

  lemma CompleteReported(b: Inflight, s: Spec, k: nat, ret: ResponseCode, outcomes: map<nat, ResponseCode>)
    requires Shape(b, s) && k < |b.tasks| && b.tasks[k].remainingChunks > 0 && Reported(b, s, outcomes)
    ensures Reported(CompleteIn(b, k, ret), s, CompleteOutcomes(outcomes, b.tasks[k], ret))
  {
    CompleteTasks(b, s, k, ret, outcomes);
    CompleteFiles(b, k, ret);
    hide Shape, FileError;
    var o' := CompleteOutcomes(outcomes, b.tasks[k], ret);
    assert TaskReported(b.tasks[k], outcomes);
    assert forall x :: x in outcomes ==> x in o' && o'[x] == outcomes[x];
  }

  lemma CompleteTasks(b: Inflight, s: Spec, k: nat, ret: ResponseCode, outcomes: map<nat, ResponseCode>)
    requires Shape(b, s) && k < |b.tasks| && b.tasks[k].remainingChunks > 0
    requires forall j :: 0 <= j < |b.tasks| ==> TaskReported(b.tasks[j], outcomes)
    ensures var b' := CompleteIn(b, k, ret); var o' := CompleteOutcomes(outcomes, b.tasks[k], ret);
            forall j :: 0 <= j < |b'.tasks| ==> TaskReported(b'.tasks[j], o')
  {
    var b' := CompleteIn(b, k, ret);
    var o' := CompleteOutcomes(outcomes, b.tasks[k], ret);
    assert TaskReported(b.tasks[k], outcomes);
    forall j | 0 <= j < |b'.tasks| ensures TaskReported(b'.tasks[j], o') {
      assert TaskReported(b.tasks[j], outcomes);
      assert b.tasks[j].owner == s.ts[j] && b.tasks[k].owner == s.ts[k];
    }
  }

  lemma CompleteFiles(b: Inflight, k: nat, ret: ResponseCode)
    requires k < |b.tasks| && b.tasks[k].remainingChunks > 0
    requires forall j :: 0 <= j < |b.tasks| && TaskFailed(b.tasks[j]) ==> b.tasks[j].owner.fileIndex in b.errorByFile
    requires forall f :: f in b.errorByFile ==> FileError(b, f)
    ensures var b' := CompleteIn(b, k, ret);
            && (forall j :: 0 <= j < |b'.tasks| && TaskFailed(b'.tasks[j]) ==>
              b'.tasks[j].owner.fileIndex in b'.errorByFile)
            && (forall f :: f in b'.errorByFile ==> FileError(b', f))
  {
    var b' := CompleteIn(b, k, ret);
    forall f | f in b'.errorByFile ensures FileError(b', f) {
      if f in b.errorByFile {
        assert FileError(b, f);
        var j :| 0 <= j < |b.tasks| && TaskFailed(b.tasks[j]) && b.tasks[j].owner.fileIndex == f
                 && b.tasks[j].error == b.errorByFile[f];
        assert j != k && b'.tasks[j] == b.tasks[j];
      } else {
        assert TaskFailed(b'.tasks[k]);
      }
    }
  }

  // A completion is reported as a success only for a read that landed.
  ghost predicate ReadOk(v: View, h: nat, ret: ResponseCode) { ret == Success ==> h in v.landed }

  lemma CompleteOwn(v: View, base: nat, h: nat, ret: ResponseCode)
    requires Outstanding(v, base, h) && Ready(v, base, h)
    ensures At(CompleteView(v, base, h, ret), base)
  {
    hide Counts, Judged, Reported, SpecShape, CompleteIn, CompleteOutcomes, PendingHandles;
    var w := CompleteView(v, base, h, ret);
    var b, s := v.blocks[base], v.specs[base];
    assert Alive(w) == Alive(v) - {h};
    CompleteCounts(base, b, s, h, ret, Alive(v));
    CompleteJudged(base, b, s, h, ret, Alive(v), v.verdicts);
    CompleteReported(b, s, s.plan[h - base].task, ret, v.outcomes);
  }

  // The completed chunk's task is none of another block's.
  lemma OwnerElsewhere(v: View, base: nat, h: nat, other: nat)
    requires HomeOk(v.specs, v.known) && Disjoint(v.specs, v.counter)
    requires Outstanding(v, base, h) && Ready(v, base, h)
    requires other in v.specs && other != base
    ensures var owner := v.blocks[base].tasks[v.specs[base].plan[h - base].task].owner;
            forall t :: t in v.specs[other].all ==> t.task.id != owner.task.id
    ensures h in v.out && h !in PendingHandles(v.pending) && h < v.counter && !InBlock(other, v.specs[other], h)
  {
    hide Counts, Judged, Reported, PendingHandles;
    var b, s := v.blocks[base], v.specs[base];
    var owner := b.tasks[s.plan[h - base].task].owner;
    assert owner in s.all;
    assert Homed(base, s, v.known) && Homed(other, v.specs[other], v.known);
  }

  lemma CompleteOther(v: View, base: nat, h: nat, ret: ResponseCode, other: nat)
    requires HomeOk(v.specs, v.known) && Disjoint(v.specs, v.counter)
    requires Outstanding(v, base, h) && Ready(v, base, h)
    requires At(v, other) && other != base
    ensures At(CompleteView(v, base, h, ret), other)
  {
    hide BlockOk, HomeOk, CompleteIn, Outstanding, Ready, PendingHandles, Disjoint;
    var w := CompleteView(v, base, h, ret);
    OwnerElsewhere(v, base, h, other);
    assert Alive(w) == Alive(v) - {h};
    hide Alive;
    BlockFrame(other, v.blocks[other], v.specs[other], v, w);
  }

  lemma CompleteCredit(specs: map<nat, Spec>, out: set<nat>, credit: nat, h: nat)
    requires CreditOk(credit, specs, out) && h in out && Live(specs, h) && credit > 0
    ensures CreditOk(credit - 1, specs, out - {h})
  {
    assert h in LiveOut(specs, out);
    assert LiveOut(specs, out - {h}) == LiveOut(specs, out) - {h};
  }

  lemma CompleteKnown(v: View, base: nat, h: nat, ret: ResponseCode)
    requires KnownOk(v.known, v.outcomes, v.specs.Keys) && HomeOk(v.specs, v.known)
    requires Outstanding(v, base, h) && Ready(v, base, h)
    ensures KnownOk(v.known, CompleteView(v, base, h, ret).outcomes, v.specs.Keys)
  {
    var b, s := v.blocks[base], v.specs[base];
    var owner := b.tasks[s.plan[h - base].task].owner;
    assert owner in s.all;
    assert Homed(base, s, v.known);
  }

  lemma CompleteBlocks(v: View, base: nat, h: nat, ret: ResponseCode)
    requires BlocksOk(v)
    requires HomeOk(v.specs, v.known) && Disjoint(v.specs, v.counter)
    requires Outstanding(v, base, h) && Ready(v, base, h)
    ensures BlocksOk(CompleteView(v, base, h, ret))
  {
    var w := CompleteView(v, base, h, ret);
    CompleteOwn(v, base, h, ret);
    forall other | other in w.specs ensures At(w, other) {
      if other != base {
        CompleteOther(v, base, h, ret, other);
      }
    }
  }

  // Taking a handle out of flight leaves the pending chunks as they were.
  lemma PendingShrink(pending: seq<Chunk>, out: set<nat>, out': set<nat>, specs: map<nat, Spec>)
    requires PendingOk(pending, out, specs) && out' <= out
    ensures PendingOk(pending, out', specs)
  {
  }

  lemma BelowShrink(hs: set<nat>, hs': set<nat>, h: nat, counter: nat)
    requires Below(hs, counter) && h < counter && hs' <= hs + {h}
    ensures Below(hs', counter)
  {
  }

  lemma ComputedSame(blocks: map<nat, Inflight>, specs: map<nat, Spec>, base: nat, b: Inflight)
    requires Computed(blocks, specs) && base in blocks && b.workload == blocks[base].workload
    ensures Computed(blocks[base := b], specs)
  {
  }

  lemma OutstandingHere(v: View, base: nat, h: nat)
    requires BlocksOk(v) && PendingOk(v.pending, v.out, v.specs)
    requires base in v.specs && InBlock(base, v.specs[base], h) && h in v.out
    ensures Outstanding(v, base, h) && Live(v.specs, h)
  {
  }

  lemma CompleteBooks(v: View, base: nat, h: nat, ret: ResponseCode)
    requires Books(v) && base in v.specs && InBlock(base, v.specs[base], h) && h in v.out
    ensures Ready(v, base, h) && Outstanding(v, base, h)
    ensures Books(CompleteView(v, base, h, ret))
  {
    hide PendingOk, BlocksOk, CreditOk, KnownOk, HomeOk, HomesBelow, Computed, Disjoint, Live, CompleteOutcomes, At;
    OutstandingHere(v, base, h);
    CompleteReady(v, base, h);
    var w := CompleteView(v, base, h, ret);
    CompleteBlocks(v, base, h, ret);
    CompleteCredit(v.specs, v.out, v.credit, h);
    CompleteKnown(v, base, h, ret);
    ComputedSame(v.blocks, v.specs, base, w.blocks[base]);
    PendingShrink(v.pending, v.out, w.out, v.specs);
    BelowShrink(v.out, w.out, h, v.counter);
    BelowShrink(v.verdicts.Keys, w.verdicts.Keys, h, v.counter);
  }

  // ---------------------------------------------------------------- removing a finished workload

  // Error isolation: what a workload's own tasks were answered with when it finished normally.
  ghost predicate Isolated(base: nat, b: Inflight, s: Spec, verdicts: map<nat, ResponseCode>,
                           before: map<nat, ResponseCode>, after: map<nat, ResponseCode>)
  {
    && (forall t :: t in s.all ==> TaskSettled(b, t, before, after))
    && (forall k :: 0 <= k < |s.ts| ==>
          (s.ts[k].task.id !in before <==> HasFailedChunk(base, s, k, verdicts)))
    && (forall f :: f in b.errorByFile ==> b.errorByFile[f] != Success && FileFailed(base, s, f, verdicts))
  }

  // A task already successful stays so; any other fails with the error recorded for its file.
  ghost predicate TaskSettled(b: Inflight, t: FileTask, before: map<nat, ResponseCode>,
                              after: map<nat, ResponseCode>)
  {
    && t.task.id in after
    && (t.task.id in before ==> before[t.task.id] == Success && after[t.task.id] == Success)
    && (t.task.id !in before ==>
          t.fileIndex in b.errorByFile && after[t.task.id] == b.errorByFile[t.fileIndex])
  }

  ghost predicate HasFailedChunk(base: nat, s: Spec, k: nat, verdicts: map<nat, ResponseCode>)
  {
    exists h :: h in verdicts && InBlock(base, s, h) && s.plan[h - base].task == k && verdicts[h] != Success
  }

  ghost predicate FileFailed(base: nat, s: Spec, f: nat, verdicts: map<nat, ResponseCode>)
  {
    exists k :: 0 <= k < |s.ts| && s.ts[k].fileIndex == f && HasFailedChunk(base, s, k, verdicts)
  }

  // With no task left, every chunk of the block has its verdict.
  lemma AllLandedNow(base: nat, b: Inflight, s: Spec, v: View)
    requires BlockOk(base, b, s, Alive(v), v.outcomes, v.verdicts) && b.remainingTasks == 0
    ensures forall h :: InBlock(base, s, h) ==> h !in Alive(v)
    ensures forall k :: 0 <= k < |b.tasks| ==> b.tasks[k].remainingChunks == 0
  {
    hide Judged, Reported;
    forall k | 0 <= k < |b.tasks| ensures b.tasks[k].remainingChunks == 0 {
      assert k !in Unfinished(b.tasks);
    }
    forall h: nat | InBlock(base, s, h) ensures h !in Alive(v) {
      var k := s.plan[h - base].task;
      assert h !in Left(base, s, k, Alive(v));
    }
  }

  // With every chunk judged, a task is unanswered exactly when one of its chunks failed.
  lemma UnansweredFailed(base: nat, b: Inflight, s: Spec, v: View, k: nat)
    requires BlockOk(base, b, s, Alive(v), v.outcomes, v.verdicts) && b.remainingTasks == 0
    requires k < |s.ts|
    ensures s.ts[k].task.id !in v.outcomes <==> HasFailedChunk(base, s, k, v.verdicts)
    ensures s.ts[k].task.id !in v.outcomes <==> TaskFailed(b.tasks[k])
    ensures s.ts[k].task.id in v.outcomes ==> v.outcomes[s.ts[k].task.id] == Success
  {
    hide Counts, Left, SpecShape;
    AllLandedNow(base, b, s, v);
    assert b.tasks[k].owner == s.ts[k];
    assert TaskReported(b.tasks[k], v.outcomes);
    if b.tasks[k].error != Success {
      assert FailedChunk(base, s, k, b.tasks[k].error, v.verdicts);
    }
  }

  lemma FileErrorsFailed(base: nat, b: Inflight, s: Spec, v: View, f: nat)
    requires BlockOk(base, b, s, Alive(v), v.outcomes, v.verdicts) && f in b.errorByFile
    ensures b.errorByFile[f] != Success && FileFailed(base, s, f, v.verdicts)
  {
    hide Counts, Left, SpecShape;
    assert FileError(b, f);
    var k :| 0 <= k < |b.tasks| && TaskFailed(b.tasks[k]) && b.tasks[k].owner.fileIndex == f
             && b.tasks[k].error == b.errorByFile[f];
    assert FailedChunk(base, s, k, b.tasks[k].error, v.verdicts);
    assert HasFailedChunk(base, s, k, v.verdicts);
    assert s.ts[k].fileIndex == f;
  }

  lemma TaskAnswered(base: nat, b: Inflight, s: Spec, v: View, t: FileTask)
    requires BlockOk(base, b, s, Alive(v), v.outcomes, v.verdicts) && b.remainingTasks == 0
    requires t in s.all
    ensures t.task.id in v.outcomes ==> v.outcomes[t.task.id] == Success
    ensures t.task.id !in v.outcomes ==> t.fileIndex in b.errorByFile
  {
    hide Counts, Left, Judged;
    if t.task.bytesize != 0 {
      assert t in s.ts;
      var k :| 0 <= k < |s.ts| && s.ts[k] == t;
      UnansweredFailed(base, b, s, v, k);
      assert b.tasks[k].owner == s.ts[k];
    }
  }

  // Error isolation. When a workload finishes normally, its unfinished tasks are exactly those with a
  // failed chunk, each fails with the error recorded for its file, and no other file has an error.
  lemma FinalizeIsolates(base: nat, b: Inflight, s: Spec, v: View)
    requires BlockOk(base, b, s, Alive(v), v.outcomes, v.verdicts) && b.remainingTasks == 0
    ensures Isolated(base, b, s, v.verdicts, v.outcomes, Report(v.outcomes, s.all, b.errorByFile, Success))
  {
    hide BlockOk, Report, HasFailedChunk, FileFailed, TaskSettled;
    var after := Report(v.outcomes, s.all, b.errorByFile, Success);
    forall f | f in b.errorByFile
      ensures b.errorByFile[f] != Success && FileFailed(base, s, f, v.verdicts)
    {
      FileErrorsFailed(base, b, s, v, f);
    }
    forall k | 0 <= k < |s.ts|
      ensures s.ts[k].task.id !in v.outcomes <==> HasFailedChunk(base, s, k, v.verdicts)
    {
      UnansweredFailed(base, b, s, v, k);
    }
    forall t | t in s.all ensures TaskSettled(b, t, v.outcomes, after) {
      TaskSettles(base, b, s, v, t);
    }
  }

  lemma TaskSettles(base: nat, b: Inflight, s: Spec, v: View, t: FileTask)
    requires BlockOk(base, b, s, Alive(v), v.outcomes, v.verdicts) && b.remainingTasks == 0
    requires t in s.all
    ensures TaskSettled(b, t, v.outcomes, Report(v.outcomes, s.all, b.errorByFile, Success))
  {
    TaskAnswered(base, b, s, v, t);
    if t.task.id !in v.outcomes {
      FileErrorsFailed(base, b, s, v, t.fileIndex);
    }
    assert DistinctIds(s.all);
    hide BlockOk, Report, DistinctIds, FileFailed;
    ReportOn(v.outcomes, s.all, b.errorByFile, Success, t);
  }

  lemma {:induction false} ReportOn(outcomes: map<nat, ResponseCode>, ts: seq<FileTask>, errs: map<nat, ResponseCode>,
                                    code: ResponseCode, t: FileTask)
    requires DistinctIds(ts) && t in ts
    ensures var r := Report(outcomes, ts, errs, code);
            && (t.task.id in outcomes ==> t.task.id in r && r[t.task.id] == outcomes[t.task.id])
            && (t.task.id !in outcomes && CodeFor(t.fileIndex, errs, code) != Success ==>
                  t.task.id in r && r[t.task.id] == CodeFor(t.fileIndex, errs, code))
  {
    hide Report, DistinctIds;
    ReportFacts(outcomes, ts, errs, code);
    var i :| 0 <= i < |ts| && ts[i] == t;
  }

  ghost function FinalizeView(v: View, base: nat): View
    requires base in v.blocks && base in v.specs
  {
    v.(blocks := v.blocks - {base}, specs := v.specs - {base},
       outcomes := Report(v.outcomes, v.specs[base].all, v.blocks[base].errorByFile, Success))
  }

  lemma FinalizeOther(v: View, base: nat, other: nat)
    requires HomeOk(v.specs, v.known) && At(v, base) && At(v, other) && other != base
    ensures At(FinalizeView(v, base), other)
  {
    var w := FinalizeView(v, base);
    var s := v.specs[base];
    ReportFacts(v.outcomes, s.all, v.blocks[base].errorByFile, Success);
    assert Homed(base, s, v.known) && Homed(other, v.specs[other], v.known);
    forall t | t in v.specs[other].all
      ensures t.task.id in v.outcomes <==> t.task.id in w.outcomes
    {
      assert !HasId(s.all, t.task.id);
    }
    assert Alive(w) == Alive(v);
    BlockFrame(other, v.blocks[other], v.specs[other], v, w);
  }

  lemma FinalizePending(v: View, base: nat)
    requires At(v, base) && v.blocks[base].remainingTasks == 0
    requires PendingOk(v.pending, v.out, v.specs)
    ensures PendingOk(v.pending, v.out, v.specs - {base})
  {
    AllLandedNow(base, v.blocks[base], v.specs[base], v);
    forall i | 0 <= i < |v.pending| ensures ChunkOk(v.specs - {base}, v.pending[i]) {
      var c := v.pending[i];
      assert ChunkOk(v.specs, c);
      var b0 :| b0 in v.specs && InBlock(b0, v.specs[b0], c.handle)
                && ChunkAt(c, v.specs[b0].plan[c.handle - b0].read);
      assert c.handle in Alive(v);
      assert b0 in v.specs - {base};
    }
  }

  lemma FinalizeCredit(v: View, base: nat)
    requires At(v, base) && v.blocks[base].remainingTasks == 0
    requires CreditOk(v.credit, v.specs, v.out)
    ensures CreditOk(v.credit, v.specs - {base}, v.out)
  {
    AllLandedNow(base, v.blocks[base], v.specs[base], v);
    forall h | h in v.out ensures Live(v.specs, h) <==> Live(v.specs - {base}, h) {
      if Live(v.specs, h) {
        var b0 :| b0 in v.specs && InBlock(b0, v.specs[b0], h);
        assert h in Alive(v);
        assert b0 in v.specs - {base};
      }
      if Live(v.specs - {base}, h) {
        var b0 :| b0 in v.specs - {base} && InBlock(b0, v.specs[b0], h);
        assert b0 in v.specs;
      }
    }
    assert LiveOut(v.specs - {base}, v.out) == LiveOut(v.specs, v.out);
  }

  lemma FinalizeKnown(v: View, base: nat)
    requires At(v, base) && v.blocks[base].remainingTasks == 0
    requires KnownOk(v.known, v.outcomes, v.specs.Keys) && HomeOk(v.specs, v.known)
    ensures var w := FinalizeView(v, base); KnownOk(v.known, w.outcomes, w.specs.Keys)
    ensures var w := FinalizeView(v, base); HomeOk(w.specs, v.known)
  {
    var w := FinalizeView(v, base);
    var b, s := v.blocks[base], v.specs[base];
    assert Homed(base, s, v.known);
    FinalizeIsolates(base, b, s, v);
    ReportFacts(v.outcomes, s.all, b.errorByFile, Success);
    forall id | id in w.outcomes ensures id in v.known {
      if id !in v.outcomes {
        var i :| 0 <= i < |s.all| && s.all[i].task.id == id;
        assert s.all[i] in s.all;
      }
    }
    forall id | id in v.known ensures id in w.outcomes || v.known[id].home in w.specs.Keys {
      if v.known[id].home == base {
        assert v.known[id].task in s.all;
      }
    }
    forall b0 | b0 in w.specs ensures Homed(b0, w.specs[b0], v.known) {
      assert Homed(b0, v.specs[b0], v.known);
    }
  }

  lemma DisjointShrink(specs: map<nat, Spec>, base: nat, counter: nat)
    requires Disjoint(specs, counter)
    ensures Disjoint(specs - {base}, counter)
  {
  }

  lemma ComputedShrink(blocks: map<nat, Inflight>, specs: map<nat, Spec>, base: nat)
    requires Computed(blocks, specs)
    ensures Computed(blocks - {base}, specs - {base})
  {
  }

  lemma FinalizeBlocks(v: View, base: nat)
    requires BlocksOk(v) && HomeOk(v.specs, v.known) && At(v, base)
    ensures BlocksOk(FinalizeView(v, base))
  {
    var w := FinalizeView(v, base);
    forall other | other in w.specs ensures At(w, other) {
      FinalizeOther(v, base, other);
    }
  }

  lemma FinalizeBooks(v: View, base: nat)
    requires Books(v) && At(v, base) && v.blocks[base].remainingTasks == 0
    ensures Books(FinalizeView(v, base))
  {
    FinalizeBlocks(v, base);
    FinalizePending(v, base);
    FinalizeCredit(v, base);
    FinalizeKnown(v, base);
    DisjointShrink(v.specs, base, v.counter);
    ComputedShrink(v.blocks, v.specs, base);
  }

  // ---------------------------------------------------------------- aborting

  // What abort_all leaves of the answers: nothing lost, everyone answered, the new answers errors.
  ghost predicate Aborted(v: View, outcomes: map<nat, ResponseCode>)
  {
    && (forall id :: id in v.outcomes ==> id in outcomes && outcomes[id] == v.outcomes[id])
    && (forall base, t :: base in v.specs && t in v.specs[base].all ==> t.task.id in outcomes)
    && (forall id :: id in outcomes && id !in v.outcomes ==> id in v.known && outcomes[id] != Success)
  }

  lemma AbortBooks(v: View, outcomes: map<nat, ResponseCode>)
    requires Books(v) && Aborted(v, outcomes)
    ensures Books(v.(blocks := map[], specs := map[], pending := [], credit := 0, outcomes := outcomes))
  {
    var w := v.(blocks := map[], specs := map[], pending := [], credit := 0, outcomes := outcomes);
    assert LiveOut(w.specs, w.out) == {};
    assert BlocksOk(w);
    AbortKnown(v, outcomes);
  }

  lemma AbortKnown(v: View, outcomes: map<nat, ResponseCode>)
    requires KnownOk(v.known, v.outcomes, v.specs.Keys) && HomeOk(v.specs, v.known) && Aborted(v, outcomes)
    ensures KnownOk(v.known, outcomes, {}) && HomeOk(map[], v.known)
  {
    forall id | id in v.known ensures id in outcomes {
      if id !in v.outcomes {
        assert v.known[id].task in v.specs[v.known[id].home].all;
      }
    }
  }

  // ---------------------------------------------------------------- window and backend steps

  ghost function TakeView(v: View): View
    requires |v.pending| > 0
  {
    v.(pending := v.pending[1..], out := v.out + {v.pending[0].handle}, credit := v.credit + 1)
  }

  lemma TakeBooks(v: View)
    requires Books(v) && |v.pending| > 0
    ensures Books(TakeView(v)) && Alive(TakeView(v)) == Alive(v)
  {
    hide PendingOk, BlocksOk, CreditOk, KnownOk, HomeOk, HomesBelow, Computed, Disjoint, Below, Live, PendingHandles;
    var h := v.pending[0].handle;
    TakeAlive(v.pending);
    TakePending(v.pending, v.out, v.specs);
    TakeBlocks(v);
    TakeCredit(v.credit, v.specs, v.out, h);
    TakeBelow(v, h);
  }

  lemma TakeAlive(pending: seq<Chunk>)
    requires |pending| > 0
    ensures PendingHandles(pending) == PendingHandles(pending[1..]) + {pending[0].handle}
  {
    forall x: nat | x in PendingHandles(pending)
      ensures x in PendingHandles(pending[1..]) + {pending[0].handle}
    {
      var i :| 0 <= i < |pending| && pending[i].handle == x;
      if i > 0 {
        assert pending[1..][i - 1].handle == x;
      }
    }
    forall x: nat | x in PendingHandles(pending[1..]) ensures x in PendingHandles(pending) {
      var i :| 0 <= i < |pending| - 1 && pending[1..][i].handle == x;
      assert pending[i + 1].handle == x;
    }
  }

  lemma TakePending(pending: seq<Chunk>, out: set<nat>, specs: map<nat, Spec>)
    requires PendingOk(pending, out, specs) && |pending| > 0
    ensures PendingOk(pending[1..], out + {pending[0].handle}, specs)
    ensures Live(specs, pending[0].handle) && pending[0].handle !in out
  {
    assert ChunkOk(specs, pending[0]);
    forall i | 0 <= i < |pending| - 1
      ensures ChunkOk(specs, pending[1..][i]) && pending[1..][i].handle != pending[0].handle
    {
      assert pending[1..][i] == pending[i + 1];
    }
  }

  lemma TakeBlocks(v: View)
    requires BlocksOk(v) && |v.pending| > 0
    ensures BlocksOk(TakeView(v))
  {
    var w := TakeView(v);
    TakeAlive(v.pending);
    assert Alive(w) == Alive(v);
    forall base | base in w.specs ensures At(w, base) {
      assert At(v, base);
    }
  }

  lemma TakeCredit(credit: nat, specs: map<nat, Spec>, out: set<nat>, h: nat)
    requires CreditOk(credit, specs, out) && Live(specs, h) && h !in out
    ensures CreditOk(credit + 1, specs, out + {h})
  {
    assert LiveOut(specs, out + {h}) == LiveOut(specs, out) + {h};
  }

  lemma TakeBelow(v: View, h: nat)
    requires Disjoint(v.specs, v.counter) && Live(v.specs, h) && Below(v.out, v.counter)
    ensures Below(v.out + {h}, v.counter)
  {
    var base :| base in v.specs && InBlock(base, v.specs[base], h);
  }

  lemma LateBooks(v: View, h: nat)
    requires Books(v) && h in v.out && !Live(v.specs, h)
    ensures Books(v.(out := v.out - {h}))
  {
    var w := v.(out := v.out - {h});
    assert LiveOut(w.specs, w.out) == LiveOut(v.specs, v.out);
    PendingShrink(v.pending, v.out, w.out, v.specs);
    LateBlocks(v, h);
    BelowShrink(v.out, w.out, h, v.counter);
  }

  lemma LateBlocks(v: View, h: nat)
    requires BlocksOk(v) && h in v.out && !Live(v.specs, h)
    ensures BlocksOk(v.(out := v.out - {h}))
  {
    hide BlockOk;
    var w := v.(out := v.out - {h});
    forall base | base in w.specs ensures At(w, base) {
      assert At(v, base);
      assert forall g :: InBlock(base, v.specs[base], g) ==> g != h;
      BlockFrame(base, v.blocks[base], v.specs[base], v, w);
    }
  }

  // ---------------------------------------------------------------- idleness

  lemma IdleNoBlock(v: View, base: nat)
    requires At(v, base) && CreditOk(v.credit, v.specs, v.out)
    requires v.blocks[base].remainingTasks > 0
    ensures |v.pending| > 0 || v.credit > 0
  {
    var b, s := v.blocks[base], v.specs[base];
    var k :| k in Unfinished(b.tasks);
    var h :| h in Left(base, s, k, Alive(v));
    if h in v.out {
      assert Live(v.specs, h);
      assert h in LiveOut(v.specs, v.out);
    }
  }
}

// Admitting a workload: the handle block and counters that enqueue sets up satisfy the invariant.
module WorkerAdmit {
  import opened Codes
  import opened WorkerModel
  import opened WorkerInvariant
  import opened WorkerSteps

  // Zero-sized tasks are finished on the spot.
  function FinishZero(outcomes: map<nat, ResponseCode>, ts: seq<FileTask>): map<nat, ResponseCode>
  {
    if ts == [] then outcomes
    else
      var rest := FinishZero(outcomes, ts[..|ts|-1]);
      var last := ts[|ts|-1].task;
      if last.bytesize == 0 then Finish(rest, last.id, Success) else rest
  }

  ghost function AddKnown(known: map<nat, Known>, ts: seq<FileTask>, home: nat): map<nat, Known>
  {
    if ts == [] then known
    else
      var last := ts[|ts|-1];
      AddKnown(known, ts[..|ts|-1], home)[last.task.id := Known(last, home)]
  }

  ghost predicate FreshIds(known: map<nat, Known>, ts: seq<FileTask>)
  {
    DistinctIds(ts) && forall t :: t in ts ==> t.task.id !in known
  }

  lemma {:induction false} FinishZeroFacts(outcomes: map<nat, ResponseCode>, ts: seq<FileTask>)
    requires DistinctIds(ts) && forall t :: t in ts ==> t.task.id !in outcomes
    ensures var r := FinishZero(outcomes, ts);
            && (forall id :: id in outcomes ==> id in r && r[id] == outcomes[id])
            && (forall id :: id in r ==> id in outcomes || (HasId(ts, id) && r[id] == Success))
            && (forall t :: t in ts ==> (t.task.id in r <==> t.task.bytesize == 0))
  {
    if ts != [] {
      var front := ts[..|ts|-1];
      var last := ts[|ts|-1];
      FinishZeroFacts(outcomes, front);
      var rest := FinishZero(outcomes, front);
      assert !HasId(front, last.task.id);
      var r := FinishZero(outcomes, ts);
      forall id | id in r && id !in outcomes ensures HasId(ts, id) && r[id] == Success {
        if id in rest {
          var i :| 0 <= i < |front| && front[i].task.id == id;
          assert ts[i].task.id == id;
        } else {
          assert ts[|ts|-1].task.id == id;
        }
      }
      forall t | t in ts ensures t.task.id in r <==> t.task.bytesize == 0 {
        if t in front {
          var i :| 0 <= i < |front| && front[i] == t;
          assert ts[i] == t;
        } else {
          assert t == last;
        }
      }
    }
  }

  lemma {:induction false} AddKnownFacts(known: map<nat, Known>, ts: seq<FileTask>, home: nat)
    requires FreshIds(known, ts)
    ensures var r := AddKnown(known, ts, home);
            && (forall id :: id in known ==> id in r && r[id] == known[id])
            && (forall id :: id in r ==> id in known || HasId(ts, id))
            && (forall t :: t in ts ==> t.task.id in r && r[t.task.id] == Known(t, home))
  {
    if ts != [] {
      var front := ts[..|ts|-1];
      var last := ts[|ts|-1];
      assert FreshIds(known, front);
      AddKnownFacts(known, front, home);
      var r := AddKnown(known, ts, home);
      forall id | id in r && id !in known ensures HasId(ts, id) {
        if HasId(front, id) {
          var i :| 0 <= i < |front| && front[i].task.id == id;
          assert ts[i].task.id == id;
        } else {
          assert ts[|ts|-1].task.id == id;
        }
      }
      forall t | t in ts ensures t.task.id in r && r[t.task.id] == Known(t, home) {
        if t in front {
          var i :| 0 <= i < |front| && front[i] == t;
          assert ts[i] == t;
          assert t.task.id != last.task.id;
        } else {
          assert t == last;
        }
      }
    }
  }

  // ---------------------------------------------------------------- the new block

  function InitTasks(ts: seq<FileTask>, cb: nat): seq<TaskState>
    requires cb > 0
  {
    seq(|ts|, k requires 0 <= k < |ts| => TaskState(ts[k], |Pieces(k, ts[k], cb, 0)|, Success))
  }

  function InitBlock(w: Workload, cb: nat): Inflight
    requires cb > 0
  {
    var s := SpecOf(w, cb);
    Inflight(w, seq(|s.plan|, i requires 0 <= i < |s.plan| => s.plan[i].task), InitTasks(s.ts, cb), map[], |s.ts|)
  }

  // The chunks put in the window, one handle each from `base` on.
  function ChunksFrom(base: nat, plan: seq<Piece>): seq<Chunk>
  {
    seq(|plan|, i requires 0 <= i < |plan| =>
      Chunk(base + i, plan[i].read.offset, plan[i].read.bytesize, plan[i].read.buffer))
  }

  ghost predicate Between(lo: nat, h: nat, hi: nat) { lo <= h < hi }

  ghost function Span(lo: nat, hi: nat): set<nat> { set h | lo <= h < hi && Between(lo, h, hi) }

  lemma {:induction false} SpanSize(lo: nat, hi: nat)
    requires lo <= hi
    ensures |Span(lo, hi)| == hi - lo
    decreases hi - lo
  {
    if lo < hi {
      SpanSize(lo, hi - 1);
      assert Span(lo, hi) == Span(lo, hi - 1) + {hi - 1};
    }
  }

  // Task k's chunks sit at consecutive positions of the layout, one per piece.
  lemma {:induction false} LayoutRun(ts: seq<FileTask>, cb: nat, k: nat) returns (lo: nat)
    requires cb > 0 && k < |ts|
    ensures var plan := Layout(ts, cb);
            lo + |Pieces(k, ts[k], cb, 0)| <= |plan|
            && (forall i :: 0 <= i < |plan| ==>
                  (plan[i].task == k <==> lo <= i < lo + |Pieces(k, ts[k], cb, 0)|))
  {
    var front := ts[..|ts|-1];
    var prefix := Layout(front, cb);
    var last := Pieces(|ts|-1, ts[|ts|-1], cb, 0);
    PiecesTask(|ts|-1, ts[|ts|-1], cb, 0);
    LayoutTask(front, cb);
    var plan := Layout(ts, cb);
    assert forall i :: 0 <= i < |prefix| ==> plan[i] == prefix[i];
    assert forall i :: |prefix| <= i < |plan| ==> plan[i] == last[i - |prefix|];
    if k == |ts| - 1 {
      lo := |prefix|;
    } else {
      lo := LayoutRun(front, cb, k);
    }
  }

  lemma {:induction false} InitLeft(base: nat, s: Spec, cb: nat, k: nat, alive: set<nat>)
    requires cb > 0 && s.plan == Layout(s.ts, cb) && k < |s.ts|
    requires forall h :: InBlock(base, s, h) ==> h in alive
    ensures |Left(base, s, k, alive)| == |Pieces(k, s.ts[k], cb, 0)|
  {
    var lo := LayoutRun(s.ts, cb, k);
    var n := |Pieces(k, s.ts[k], cb, 0)|;
    assert Left(base, s, k, alive) == Span(base + lo, base + lo + n);
    SpanSize(base + lo, base + lo + n);
  }

  lemma {:induction false} PiecesSome(k: nat, ft: FileTask, cb: nat)
    requires cb > 0 && ft.task.bytesize != 0
    ensures |Pieces(k, ft, cb, 0)| > 0
  {
  }

  lemma {:induction false} SpecShapeOf(w: Workload, cb: nat)
    requires cb > 0 && DistinctIds(AllTasks(w)) && |SpecOf(w, cb).plan| > 0
    ensures SpecShape(SpecOf(w, cb))
  {
    var s := SpecOf(w, cb);
    NonZeroFacts(s.all);
    NonZeroDistinct(s.all);
    LayoutTask(s.ts, cb);
    forall k | 0 <= k < |s.ts| ensures s.ts[k] in s.all && s.ts[k].task.bytesize != 0 {
      assert s.ts[k] in s.ts;
    }
  }

  lemma {:induction false} NonZeroDistinct(ts: seq<FileTask>)
    requires DistinctIds(ts)
    ensures DistinctIds(NonZero(ts))
  {
    if ts != [] {
      var front := ts[..|ts|-1];
      NonZeroDistinct(front);
      NonZeroFacts(front);
      var last := ts[|ts|-1];
      forall i | 0 <= i < |NonZero(front)| ensures NonZero(front)[i].task.id != last.task.id {
        var x := NonZero(front)[i];
        assert x in NonZero(front);
        var j :| 0 <= j < |front| && front[j] == x;
        assert ts[j] == x;
      }
    }
  }

  lemma {:induction false} InitCounts(base: nat, w: Workload, cb: nat, alive: set<nat>)
    requires cb > 0 && DistinctIds(AllTasks(w)) && |SpecOf(w, cb).plan| > 0
    requires forall h :: InBlock(base, SpecOf(w, cb), h) ==> h in alive
    ensures Counts(base, InitBlock(w, cb), SpecOf(w, cb), alive)
    ensures forall k :: 0 <= k < |InitBlock(w, cb).tasks| ==> InitBlock(w, cb).tasks[k].remainingChunks > 0
    ensures InitBlock(w, cb).remainingTasks > 0
  {
    hide Layout, NonZero, AllTasks, Pieces, Left;
    var s := SpecOf(w, cb);
    var b := InitBlock(w, cb);
    SpecShapeOf(w, cb);
    forall k | 0 <= k < |s.ts|
      ensures b.tasks[k].remainingChunks == |Left(base, s, k, alive)| && b.tasks[k].remainingChunks > 0
    {
      InitLeft(base, s, cb, k, alive);
      PiecesSome(k, s.ts[k], cb);
    }
    assert Unfinished(b.tasks) == Span(0, |s.ts|);
    SpanSize(0, |s.ts|);
    assert s.plan[0].task < |s.ts|;
  }

  lemma FreshBlockOk(base: nat, b: Inflight, s: Spec, v: View, outcomes: map<nat, ResponseCode>)
    requires Shape(b, s) && Counts(base, b, s, Alive(v)) && b.errorByFile == map[]
    requires forall k :: 0 <= k < |b.tasks| ==> b.tasks[k].remainingChunks > 0 && b.tasks[k].error == Success
    requires forall h :: InBlock(base, s, h) ==> h in Alive(v) && h !in v.verdicts
    requires forall t :: t in s.all ==> (t.task.id in outcomes <==> t.task.bytesize == 0)
    requires forall t :: t in s.all && t.task.id in outcomes ==> outcomes[t.task.id] == Success
    ensures BlockOk(base, b, s, Alive(v), outcomes, v.verdicts)
  {
    forall k | 0 <= k < |b.tasks| ensures TaskReported(b.tasks[k], outcomes) {
      assert b.tasks[k].owner == s.ts[k] && s.ts[k] in s.all;
    }
  }

  lemma {:induction false} InitShape(w: Workload, cb: nat)
    requires cb > 0 && DistinctIds(AllTasks(w)) && |SpecOf(w, cb).plan| > 0
    ensures Shape(InitBlock(w, cb), SpecOf(w, cb))
    ensures forall k :: 0 <= k < |InitBlock(w, cb).tasks| ==> InitBlock(w, cb).tasks[k].error == Success
  {
    SpecShapeOf(w, cb);
  }

  lemma {:induction false} InitOk(base: nat, w: Workload, v: View, outcomes: map<nat, ResponseCode>)
    requires v.cb > 0 && DistinctIds(AllTasks(w)) && |SpecOf(w, v.cb).plan| > 0
    requires forall h :: InBlock(base, SpecOf(w, v.cb), h) ==> h in Alive(v) && h !in v.verdicts
    requires forall t :: t in AllTasks(w) ==> (t.task.id in outcomes <==> t.task.bytesize == 0)
    requires forall t :: t in AllTasks(w) && t.task.id in outcomes ==> outcomes[t.task.id] == Success
    ensures BlockOk(base, InitBlock(w, v.cb), SpecOf(w, v.cb), Alive(v), outcomes, v.verdicts)
    ensures InitBlock(w, v.cb).remainingTasks > 0
  {
    InitShape(w, v.cb);
    InitCounts(base, w, v.cb, Alive(v));
    FreshBlockOk(base, InitBlock(w, v.cb), SpecOf(w, v.cb), v, outcomes);
  }

  // ---------------------------------------------------------------- the step

  ghost function AdmitView(v: View, w: Workload): View
    requires v.cb > 0
  {
    var base := v.counter;
    var s := SpecOf(w, v.cb);
    v.(blocks := v.blocks[base := InitBlock(w, v.cb)],
       specs := v.specs[base := s],
       pending := v.pending + ChunksFrom(base, s.plan),
       counter := base + |s.plan|,
       outcomes := FinishZero(v.outcomes, s.all),
       known := AddKnown(v.known, s.all, base),
       owner := v.owner + OwnersFrom(base, s))
  }

  // The new block's handles and what they are for.
  ghost function OwnersFrom(base: nat, s: Spec): map<nat, Owned>
  {
    map h | h in Span(base, base + |s.plan|) :: OwnedFrom(base, s, h)
  }

  ghost function OwnedFrom(base: nat, s: Spec, h: nat): Owned { OwnedAt(s, h - base) }

  ghost function OwnedAt(s: Spec, i: int): Owned
  {
    if 0 <= i < |s.plan| && s.plan[i].task < |s.ts| then Owned(s.ts[s.plan[i].task].task.id, s.plan[i].read)
    else Owned(0, Read(0, 0, 0, 0))
  }

  lemma AdmitPending(pending: seq<Chunk>, out: set<nat>, specs: map<nat, Spec>, s: Spec, counter: nat)
    requires PendingOk(pending, out, specs) && Disjoint(specs, counter) && Below(out, counter)
    ensures counter !in specs
    ensures PendingOk(pending + ChunksFrom(counter, s.plan), out, specs[counter := s])
  {
    var specs' := specs[counter := s];
    var pending' := pending + ChunksFrom(counter, s.plan);
    forall i | 0 <= i < |pending| ensures ChunkOk(specs', pending'[i]) && pending'[i].handle < counter {
      assert ChunkOk(specs, pending[i]);
      var b0 :| b0 in specs && InBlock(b0, specs[b0], pending[i].handle)
                && ChunkAt(pending[i], specs[b0].plan[pending[i].handle - b0].read);
      assert b0 in specs';
    }
    forall i | |pending| <= i < |pending'|
      ensures ChunkOk(specs', pending'[i]) && pending'[i].handle == counter + (i - |pending|)
    {
      assert counter in specs' && InBlock(counter, specs'[counter], pending'[i].handle);
    }
  }

  lemma AdmitAlive(pending: seq<Chunk>, base: nat, plan: seq<Piece>)
    ensures PendingHandles(pending + ChunksFrom(base, plan)) == PendingHandles(pending) + Span(base, base + |plan|)
  {
    var pending' := pending + ChunksFrom(base, plan);
    forall x: nat | x in PendingHandles(pending) + Span(base, base + |plan|) ensures x in PendingHandles(pending') {
      if x in PendingHandles(pending) {
        var i :| 0 <= i < |pending| && pending[i].handle == x;
        assert pending'[i].handle == x;
      } else {
        assert pending'[|pending| + (x - base)].handle == x;
      }
    }
  }

  lemma AdmitCredit(credit: nat, specs: map<nat, Spec>, out: set<nat>, s: Spec, counter: nat)
    requires CreditOk(credit, specs, out) && Below(out, counter) && Disjoint(specs, counter)
    ensures CreditOk(credit, specs[counter := s], out)
  {
    var specs' := specs[counter := s];
    forall h | h in out ensures Live(specs, h) <==> Live(specs', h) {
      if Live(specs, h) {
        var b0 :| b0 in specs && InBlock(b0, specs[b0], h);
        assert b0 in specs' && specs'[b0] == specs[b0];
      }
      if Live(specs', h) {
        var b0 :| b0 in specs' && InBlock(b0, specs'[b0], h);
        assert b0 != counter && b0 in specs;
      }
    }
    assert LiveOut(specs', out) == LiveOut(specs, out);
  }

  lemma {:induction false} AdmitOther(v: View, w: Workload, other: nat)
    requires v.cb > 0 && FreshIds(v.known, AllTasks(w)) && At(v, other)
    requires Disjoint(v.specs, v.counter) && HomeOk(v.specs, v.known)
    requires KnownOk(v.known, v.outcomes, v.specs.Keys)
    ensures At(AdmitView(v, w), other)
  {
    var w' := AdmitView(v, w);
    var s := SpecOf(w, v.cb);
    FinishZeroFacts(v.outcomes, s.all);
    AdmitAlive(v.pending, v.counter, s.plan);
    assert Homed(other, v.specs[other], v.known);
    forall t | t in v.specs[other].all ensures !HasId(s.all, t.task.id) {
      forall i | 0 <= i < |s.all| ensures s.all[i].task.id != t.task.id {
        assert s.all[i] in s.all;
      }
    }
    BlockFrame(other, v.blocks[other], v.specs[other], v, w');
  }

  lemma {:induction false} AdmitOwn(v: View, w: Workload)
    requires v.cb > 0 && FreshIds(v.known, AllTasks(w)) && |SpecOf(w, v.cb).plan| > 0
    requires KnownOk(v.known, v.outcomes, v.specs.Keys) && Below(v.verdicts.Keys, v.counter)
    ensures At(AdmitView(v, w), v.counter)
    ensures InitBlock(w, v.cb).remainingTasks > 0
  {
    var w' := AdmitView(v, w);
    var s := SpecOf(w, v.cb);
    FinishZeroFacts(v.outcomes, s.all);
    AdmitAlive(v.pending, v.counter, s.plan);
    forall h: nat | InBlock(v.counter, s, h) ensures h in Alive(w') && h !in v.verdicts {
      assert h in Span(v.counter, v.counter + |s.plan|);
    }
    forall t | t in s.all && t.task.id in w'.outcomes ensures w'.outcomes[t.task.id] == Success {
      assert t.task.id !in v.outcomes;
    }
    InitOk(v.counter, w, w', w'.outcomes);
  }

  lemma {:induction false} NeedsFromPlan(ts: seq<FileTask>, cb: nat, k: nat, r: Read)
    requires cb > 0 && k < |ts| && r in ReadsOf(ts[k], cb)
    ensures Piece(k, r) in Layout(ts, cb)
  {
    var p :| p in Pieces(0, ts[k], cb, 0) && p.read == r;
    RetagPiece(0, k, ts[k], cb, 0, p);
    LayoutHolds(ts, cb, k, Piece(k, r));
  }

  lemma {:induction false} RetagPiece(j: nat, k: nat, ft: FileTask, cb: nat, from: nat, p: Piece)
    requires cb > 0 && p in Pieces(j, ft, cb, from)
    ensures Piece(k, p.read) in Pieces(k, ft, cb, from)
    decreases ft.task.bytesize - from
  {
    var bs := Min(ft.task.bytesize - from, cb);
    if p != Pieces(j, ft, cb, from)[0] {
      assert p in Pieces(j, ft, cb, from + bs);
      RetagPiece(j, k, ft, cb, from + bs, p);
    } else {
      assert Pieces(k, ft, cb, from)[0] == Piece(k, p.read);
    }
  }

  // Registering tasks keeps the books, whether they get a handle block (home) or none (home 0).
  lemma {:induction false} AdmitKnown(v: View, ts: seq<FileTask>, home: nat, outcomes: map<nat, ResponseCode>,
                                      bases: set<nat>)
    requires FreshIds(v.known, ts)
    requires KnownOk(v.known, v.outcomes, v.specs.Keys)
    requires v.specs.Keys <= bases
    requires forall id :: id in v.outcomes ==> id in outcomes && outcomes[id] == v.outcomes[id]
    requires forall id :: id in outcomes ==> id in v.outcomes || HasId(ts, id)
    requires forall t :: t in ts ==> t.task.id in outcomes || home in bases
    ensures KnownOk(AddKnown(v.known, ts, home), outcomes, bases)
  {
    AddKnownFacts(v.known, ts, home);
    var known := AddKnown(v.known, ts, home);
    forall id | id in known && id !in v.known
      ensures id in outcomes || known[id].home in bases
    {
      var i :| 0 <= i < |ts| && ts[i].task.id == id;
      assert ts[i] in ts;
    }
    forall id | id in outcomes && id !in v.outcomes ensures id in known {
      var i :| 0 <= i < |ts| && ts[i].task.id == id;
      assert ts[i] in ts;
    }
  }

  lemma {:induction false} AdmitHome(v: View, w: Workload)
    requires v.cb > 0 && FreshIds(v.known, AllTasks(w)) && HomeOk(v.specs, v.known)
    requires Disjoint(v.specs, v.counter)
    requires HomesBelow(v.known, v.counter)
    ensures HomeOk(AdmitView(v, w).specs, AdmitView(v, w).known)
  {
    var w' := AdmitView(v, w);
    var s := SpecOf(w, v.cb);
    AddKnownFacts(v.known, s.all, v.counter);
    forall id | id in w'.known
      ensures w'.known[id].task.task.id == id
      ensures w'.known[id].home in w'.specs ==> w'.known[id].task in w'.specs[w'.known[id].home].all
    {
      if id !in v.known {
        var i :| 0 <= i < |s.all| && s.all[i].task.id == id;
        assert s.all[i] in s.all;
      }
    }
    forall base | base in w'.specs ensures Homed(base, w'.specs[base], w'.known) {
      if base != v.counter {
        assert Homed(base, v.specs[base], v.known);
        HomedGrow(base, v.specs[base], v.known, w'.known);
      } else {
        HomedNew(w, v.known, v.counter, v.cb);
      }
    }
  }

  lemma HomedGrow(base: nat, s: Spec, known: map<nat, Known>, known': map<nat, Known>)
    requires Homed(base, s, known)
    requires forall id :: id in known ==> id in known' && known'[id] == known[id]
    ensures Homed(base, s, known')
  {
  }

  lemma {:induction false} HomedNew(w: Workload, known: map<nat, Known>, base: nat, cb: nat)
    requires cb > 0 && FreshIds(known, AllTasks(w))
    ensures Homed(base, SpecOf(w, cb), AddKnown(known, AllTasks(w), base))
  {
    var s := SpecOf(w, cb);
    AddKnownFacts(known, s.all, base);
    NonZeroFacts(s.all);
    LayoutTask(s.ts, cb);
  }

  lemma {:induction false} AdmitBlocks(v: View, w: Workload)
    requires Books(v) && FreshIds(v.known, AllTasks(w)) && |SpecOf(w, v.cb).plan| > 0
    ensures BlocksOk(AdmitView(v, w))
    ensures InitBlock(w, v.cb).remainingTasks > 0
  {
    var w' := AdmitView(v, w);
    forall base | base in w'.specs ensures At(w', base) {
      if base == v.counter {
        AdmitOwn(v, w);
      } else {
        assert At(v, base);
        AdmitOther(v, w, base);
      }
    }
    AdmitOwn(v, w);
  }

  lemma AdmitDisjoint(specs: map<nat, Spec>, s: Spec, counter: nat)
    requires Disjoint(specs, counter) && counter >= 1 && |s.plan| > 0
    ensures Disjoint(specs[counter := s], counter + |s.plan|)
  {
  }

  lemma {:induction false} AdmitBooks(v: View, w: Workload)
    requires Books(v) && FreshIds(v.known, AllTasks(w)) && |SpecOf(w, v.cb).plan| > 0
    ensures var w' := AdmitView(v, w);
            && KnownOk(w'.known, w'.outcomes, w'.specs.Keys)
            && HomeOk(w'.specs, w'.known)
            && HomesBelow(w'.known, w'.counter)
  {
    var w' := AdmitView(v, w);
    var s := SpecOf(w, v.cb);
    FinishZeroFacts(v.outcomes, s.all);
    AdmitKnown(v, s.all, v.counter, w'.outcomes, w'.specs.Keys);
    AdmitHome(v, w);
    AddKnownHomes(v.known, s.all, v.counter, w'.counter);
  }

  lemma {:induction false} AddKnownHomes(known: map<nat, Known>, ts: seq<FileTask>, home: nat, counter: nat)
    requires FreshIds(known, ts) && HomesBelow(known, counter) && home < counter
    ensures HomesBelow(AddKnown(known, ts, home), counter)
  {
    AddKnownFacts(known, ts, home);
    forall id | id in AddKnown(known, ts, home)
      ensures AddKnown(known, ts, home)[id].home < counter
    {
      if id !in known {
        var i :| 0 <= i < |ts| && ts[i].task.id == id;
        assert ts[i] in ts;
      }
    }
  }

  lemma AdmitComputed(v: View, w: Workload)
    requires Computed(v.blocks, v.specs) && NoneDone(v.blocks) && v.cb > 0
    requires InitBlock(w, v.cb).remainingTasks > 0
    ensures Computed(AdmitView(v, w).blocks, AdmitView(v, w).specs)
    ensures NoneDone(AdmitView(v, w).blocks)
  {
  }

  lemma BelowGrow(hs: set<nat>, counter: nat, counter': nat)
    requires Below(hs, counter) && counter <= counter'
    ensures Below(hs, counter')
  {
  }

  lemma {:induction false} AdmitAllBooks(v: View, w: Workload)
    requires Books(v) && NoneDone(v.blocks) && FreshIds(v.known, AllTasks(w)) && |SpecOf(w, v.cb).plan| > 0
    ensures Books(AdmitView(v, w)) && NoneDone(AdmitView(v, w).blocks)
  {
    AdmitBlocks(v, w);
    AdmitComputed(v, w);
    AdmitBooks(v, w);
    AdmitRest(v, SpecOf(w, v.cb));
  }

  lemma AdmitRest(v: View, s: Spec)
    requires PendingOk(v.pending, v.out, v.specs) && CreditOk(v.credit, v.specs, v.out)
    requires Disjoint(v.specs, v.counter) && v.counter >= 1 && |s.plan| > 0
    requires Below(v.out, v.counter) && Below(v.verdicts.Keys, v.counter)
    ensures PendingOk(v.pending + ChunksFrom(v.counter, s.plan), v.out, v.specs[v.counter := s])
    ensures CreditOk(v.credit, v.specs[v.counter := s], v.out)
    ensures Disjoint(v.specs[v.counter := s], v.counter + |s.plan|)
    ensures Below(v.out, v.counter + |s.plan|) && Below(v.verdicts.Keys, v.counter + |s.plan|)
  {
    AdmitPending(v.pending, v.out, v.specs, s, v.counter);
    AdmitCredit(v.credit, v.specs, v.out, s, v.counter);
    AdmitDisjoint(v.specs, s, v.counter);
    BelowGrow(v.out, v.counter, v.counter + |s.plan|);
    BelowGrow(v.verdicts.Keys, v.counter, v.counter + |s.plan|);
  }

  lemma {:induction false} InlineBooks(v: View, ts: seq<FileTask>, outcomes: map<nat, ResponseCode>)
    requires Books(v) && FreshIds(v.known, ts)
    requires forall id :: id in v.outcomes ==> id in outcomes && outcomes[id] == v.outcomes[id]
    requires forall id :: id in outcomes ==> id in v.outcomes || HasId(ts, id)
    requires forall t :: t in ts ==> t.task.id in outcomes
    ensures Books(v.(known := AddKnown(v.known, ts, 0), outcomes := outcomes))
  {
    AdmitKnown(v, ts, 0, outcomes, v.specs.Keys);
    AddKnownHomes(v.known, ts, 0, v.counter);
    InlineHome(v, ts);
    InlineBlocks(v, ts, outcomes);
  }

  lemma {:induction false} InlineHome(v: View, ts: seq<FileTask>)
    requires HomeOk(v.specs, v.known) && FreshIds(v.known, ts) && Disjoint(v.specs, v.counter)
    ensures HomeOk(v.specs, AddKnown(v.known, ts, 0))
  {
    AddKnownFacts(v.known, ts, 0);
    var known := AddKnown(v.known, ts, 0);
    forall id | id in known && id !in v.known
      ensures known[id].task.task.id == id && known[id].home !in v.specs
    {
      var i :| 0 <= i < |ts| && ts[i].task.id == id;
      assert ts[i] in ts;
    }
    forall base | base in v.specs ensures Homed(base, v.specs[base], known) {
      HomedGrow(base, v.specs[base], v.known, known);
    }
  }

  lemma {:induction false} InlineBlocks(v: View, ts: seq<FileTask>, outcomes: map<nat, ResponseCode>)
    requires BlocksOk(v) && HomeOk(v.specs, v.known) && FreshIds(v.known, ts)
    requires forall id :: id in v.outcomes ==> id in outcomes && outcomes[id] == v.outcomes[id]
    requires forall id :: id in outcomes ==> id in v.outcomes || HasId(ts, id)
    ensures BlocksOk(v.(known := AddKnown(v.known, ts, 0), outcomes := outcomes))
  {
    var w := v.(known := AddKnown(v.known, ts, 0), outcomes := outcomes);
    forall base | base in w.specs ensures At(w, base) {
      assert At(v, base);
      assert Homed(base, v.specs[base], v.known);
      forall t | t in v.specs[base].all ensures !HasId(ts, t.task.id) {
        forall i | 0 <= i < |ts| ensures ts[i].task.id != t.task.id {
          assert ts[i] in ts;
        }
      }
      BlockFrame(base, v.blocks[base], v.specs[base], v, w);
    }
  }
}

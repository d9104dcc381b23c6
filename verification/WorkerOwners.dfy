// Handles, for ever: every step keeps the link between a task's answer and the task's own reads.
module WorkerOwners {
  import opened Codes
  import opened WorkerModel
  import opened WorkerInvariant
  import opened WorkerSteps
  import opened WorkerAdmit

  // ---------------------------------------------------------------- framing

  lemma OwnersKnownFewer(owner: map<nat, Owned>, known: map<nat, Known>, specs: map<nat, Spec>, specs': map<nat, Spec>,
                         counter: nat, cb: nat)
    requires cb > 0 && OwnersKnown(owner, known, specs, counter, cb)
    requires specs'.Keys <= specs.Keys && forall b :: b in specs' ==> specs'[b] == specs[b]
    ensures OwnersKnown(owner, known, specs', counter, cb)
  {
    forall h | h in owner ensures OwnerOk(h, owner[h], known, specs', cb) {
      assert OwnerOk(h, owner[h], known, specs, cb);
    }
  }

  // New answers that are all failures succeed nobody.
  lemma FailuresOnly(before: map<nat, ResponseCode>, after: map<nat, ResponseCode>)
    requires forall id :: id in before ==> id in after && after[id] == before[id]
    requires forall id :: id in after && id !in before ==> after[id] != Success
    ensures forall id :: Succeeded(id, after) <==> Succeeded(id, before)
  {
  }

  lemma SameSuccesses(v: View, w: View)
    requires OwnersOk(v) && w.owner == v.owner && w.known == v.known && w.cb == v.cb && w.verdicts == v.verdicts
    requires w.landed == v.landed && w.counter == v.counter && Alive(w) <= Alive(v)
    requires w.specs.Keys <= v.specs.Keys && forall b :: b in w.specs ==> w.specs[b] == v.specs[b]
    requires forall id :: Succeeded(id, w.outcomes) <==> Succeeded(id, v.outcomes)
    ensures OwnersOk(w)
  {
    hide Alive, OwnerOk, AllJudged, BlockOwned;
    OwnersKnownFewer(v.owner, v.known, v.specs, w.specs, v.counter, v.cb);
  }

  // ---------------------------------------------------------------- completing one chunk

  // A handle of live task k lies in the task's block, at one of its chunks.
  lemma HandleOf(v: View, base: nat, k: nat, h: nat)
    requires OwnersOk(v) && HomeOk(v.specs, v.known) && base in v.specs && SpecShape(v.specs[base])
        && k < |v.specs[base].ts|
    requires h in v.owner && v.owner[h].id == v.specs[base].ts[k].task.id
    ensures InBlock(base, v.specs[base], h) && v.specs[base].plan[h - base].task == k
  {
    var s := v.specs[base];
    assert OwnerOk(h, v.owner[h], v.known, v.specs, v.cb);
    assert Homed(base, s, v.known) && s.ts[k] in s.all;
    assert InBlock(base, s, h);
    assert BlockOwned(base, s, v.owner);
    assert ChunkOwned(s, h - base, v.owner[h]);
    var j := s.plan[h - base].task;
    assert DistinctIds(s.ts) && s.ts[j].task.id == s.ts[k].task.id;
  }

  // Every read of live task k has its handle.
  lemma ReadsHaveHandles(v: View, base: nat, k: nat, r: Read)
    requires OwnersOk(v) && base in v.specs && k < |v.specs[base].ts| && r in ReadsOf(v.specs[base].ts[k], v.cb)
    ensures HasHandle(v.specs[base].ts[k].task.id, r, v.owner)
  {
    var s := v.specs[base];
    assert BlockOwned(base, s, v.owner);
    NeedsFromPlan(s.ts, v.cb, k, r);
    var i :| 0 <= i < |s.plan| && s.plan[i] == Piece(k, r);
    assert InBlock(base, s, base + i);
    assert ChunkOwned(s, i, v.owner[base + i]);
  }

  // A handle of a live task with no chunk left and no error has been judged, and judged Success.
  lemma DoneHandle(v: View, w: View, base: nat, k: nat, h: nat)
    requires OwnersOk(v) && HomeOk(v.specs, v.known) && At(w, base) && base in v.specs && w.specs[base] == v.specs[base]
    requires k < |w.blocks[base].tasks| && TaskDone(w.blocks[base].tasks[k])
    requires h in v.owner && v.owner[h].id == v.specs[base].ts[k].task.id
    ensures h !in Alive(w) && h in w.verdicts && w.verdicts[h] == Success
  {
    hide OwnersOk, HomeOk, Reported, Alive;
    HandleOf(v, base, k, h);
    var b, s := w.blocks[base], v.specs[base];
    assert h !in Left(base, s, k, Alive(w));
    assert b.tasks[k].error == Success;
  }

  // All of the handles of such a task, and a handle for each of its reads.
  lemma DoneJudged(v: View, w: View, base: nat, k: nat)
    requires OwnersOk(v) && HomeOk(v.specs, v.known) && At(w, base) && base in v.specs && w.specs[base] == v.specs[base]
    requires k < |w.blocks[base].tasks| && TaskDone(w.blocks[base].tasks[k])
    ensures AllJudged(v.specs[base].ts[k].task.id, v.specs[base].ts[k], v.owner, w.verdicts, v.cb)
    ensures forall h :: h in Alive(w) && h in v.owner ==> v.owner[h].id != v.specs[base].ts[k].task.id
  {
    var s := v.specs[base];
    var id := s.ts[k].task.id;
    assert v.cb > 0;
    hide OwnersOk, HomeOk, BlockOk, Alive, HasHandle;
    forall h | h in v.owner && v.owner[h].id == id
      ensures h !in Alive(w) && h in w.verdicts && w.verdicts[h] == Success
    {
      DoneHandle(v, w, base, k, h);
    }
    forall r | r in ReadsOf(s.ts[k], v.cb) ensures HasHandle(id, r, v.owner) {
      ReadsHaveHandles(v, base, k, r);
    }
  }

  // What is known of the completed chunk's task.
  lemma CompleteTask(v: View, base: nat, h: nat)
    requires OwnersOk(v) && HomeOk(v.specs, v.known) && Outstanding(v, base, h) && Ready(v, base, h)
    ensures v.specs[base].plan[h - base].task < |v.specs[base].ts|
    ensures var s := v.specs[base]; var t := s.ts[s.plan[h - base].task]; var id := t.task.id;
            && v.blocks[base].tasks[s.plan[h - base].task].owner == t && h in v.owner && v.owner[h].id == id
            && id in v.known && v.known[id].task == t && !Succeeded(id, v.outcomes)
  {
    var s := v.specs[base];
    var k := s.plan[h - base].task;
    assert v.blocks[base].tasks[k].owner == s.ts[k] && s.ts[k] in s.all;
    assert Homed(base, s, v.known) && v.known[s.ts[k].task.id].task == s.ts[k];
    assert BlockOwned(base, s, v.owner) && ChunkOwned(s, h - base, v.owner[h]);
    assert h in Alive(v);
  }

  // The only success a completion can add is that of the completed chunk's own task.
  lemma CompleteSucceeds(v: View, base: nat, h: nat, ret: ResponseCode)
    requires Ready(v, base, h)
    ensures var w := CompleteView(v, base, h, ret); var k := v.specs[base].plan[h - base].task;
            var id := v.blocks[base].tasks[k].owner.task.id;
            && (forall x :: x != id ==> (Succeeded(x, w.outcomes) <==> Succeeded(x, v.outcomes)))
            && (Succeeded(id, w.outcomes) && !Succeeded(id, v.outcomes) ==> TaskDone(w.blocks[base].tasks[k]))
            && k < |w.blocks[base].tasks| && Alive(w) <= Alive(v)
            && w == v.(blocks := w.blocks, out := w.out, credit := w.credit, outcomes := w.outcomes,
              verdicts := v.verdicts[h := ret])
  {
  }

  lemma CompleteOwners(v: View, base: nat, h: nat, ret: ResponseCode)
    requires OwnersOk(v) && HomeOk(v.specs, v.known) && Outstanding(v, base, h) && Ready(v, base, h)
        && ReadOk(v, h, ret)
    requires At(CompleteView(v, base, h, ret), base)
    ensures OwnersOk(CompleteView(v, base, h, ret))
  {
    hide OwnersOk, HomeOk, Outstanding, CompleteView, At, Alive;
    var w := CompleteView(v, base, h, ret);
    var k := v.specs[base].plan[h - base].task;
    CompleteTask(v, base, h);
    CompleteSucceeds(v, base, h, ret);
    var t := v.specs[base].ts[k];
    if Succeeded(t.task.id, w.outcomes) {
      DoneJudged(v, w, base, k);
    }
    OneJudged(v, w, t, h, ret);
  }

  // One task may have succeeded, one handle has a verdict: the rest of the books is unchanged.
  lemma OneJudged(v: View, w: View, t: FileTask, h: nat, ret: ResponseCode)
    requires OwnersOk(v) && h in v.owner && v.owner[h].id == t.task.id && ReadOk(v, h, ret)
    requires t.task.id in v.known && v.known[t.task.id].task == t && !Succeeded(t.task.id, v.outcomes)
    requires w.owner == v.owner && w.known == v.known && w.specs == v.specs && w.counter == v.counter && w.cb == v.cb
    requires w.verdicts == v.verdicts[h := ret] && w.landed == v.landed && Alive(w) <= Alive(v)
    requires forall x :: x != t.task.id ==> (Succeeded(x, w.outcomes) <==> Succeeded(x, v.outcomes))
    requires Succeeded(t.task.id, w.outcomes) ==>
      && AllJudged(t.task.id, t, v.owner, w.verdicts, v.cb)
      && forall h' :: h' in Alive(w) && h' in v.owner ==> v.owner[h'].id != t.task.id
    ensures OwnersOk(w)
  {
    hide OwnersKnown, BlocksOwned, OwnersApart, Alive, HasHandle;
    forall x | x in v.known && Succeeded(x, w.outcomes)
      ensures AllJudged(x, v.known[x].task, v.owner, w.verdicts, v.cb)
    {
      if x != t.task.id {
        assert AllJudged(x, v.known[x].task, v.owner, v.verdicts, v.cb);
      }
    }
  }

  // complete_chunk keeps the accounting, up to the removal of a workload whose last task landed.
  lemma CompleteStep(v: View, base: nat, h: nat, ret: ResponseCode)
    requires Core(v) && base in v.specs && InBlock(base, v.specs[base], h) && h in v.out
    requires ReadOk(v, h, ret)
    ensures Ready(v, base, h)
    ensures Core(CompleteView(v, base, h, ret))
  {
    hide OwnersOk, Outstanding;
    CompleteBooks(v, base, h, ret);
    assert At(CompleteView(v, base, h, ret), base);
    hide BlocksOk;
    CompleteOwners(v, base, h, ret);
  }

  // ---------------------------------------------------------------- the other steps

  // finalize after the last task landed keeps the accounting.
  lemma FinalizeStep(v: View, base: nat)
    requires Core(v) && At(v, base) && v.blocks[base].remainingTasks == 0
    ensures Core(FinalizeView(v, base))
  {
    hide Books, OwnersOk, BlockOk, Alive;
    FinalizeBooks(v, base);
    FinalizeFails(v, base);
    var w := FinalizeView(v, base);
    FailuresOnly(v.outcomes, w.outcomes);
    SameAlive(v, w);
    SameSuccesses(v, w);
  }

  lemma SameAlive(v: View, w: View)
    requires v.pending == w.pending && v.out == w.out
    ensures Alive(w) == Alive(v)
  {
  }

  // finalize adds failures only.
  lemma FinalizeFails(v: View, base: nat)
    requires At(v, base) && v.blocks[base].remainingTasks == 0
    ensures var o := FinalizeView(v, base).outcomes;
            && (forall id :: id in v.outcomes ==> id in o && o[id] == v.outcomes[id])
            && (forall id :: id in o && id !in v.outcomes ==> o[id] != Success)
  {
    var s := v.specs[base];
    FinalizeIsolates(base, v.blocks[base], s, v);
    ReportFacts(v.outcomes, s.all, v.blocks[base].errorByFile, Success);
    hide BlockOk, Report;
    forall id | id in FinalizeView(v, base).outcomes && id !in v.outcomes
      ensures FinalizeView(v, base).outcomes[id] != Success
    {
      var i :| 0 <= i < |s.all| && s.all[i].task.id == id;
      assert s.all[i] in s.all;
    }
  }

  lemma AbortStep(v: View, outcomes: map<nat, ResponseCode>)
    requires Core(v) && Aborted(v, outcomes)
    ensures Inv(v.(blocks := map[], specs := map[], pending := [], credit := 0, outcomes := outcomes))
  {
    AbortBooks(v, outcomes);
    FailuresOnly(v.outcomes, outcomes);
    var w := v.(blocks := map[], specs := map[], pending := [], credit := 0, outcomes := outcomes);
    assert PendingHandles([]) == {};
    hide Books, OwnersOk;
    SameSuccesses(v, w);
  }

  // Submitting the oldest pending chunk moves it from pending to outstanding and takes one credit.
  lemma TakeStep(v: View)
    requires Inv(v) && |v.pending| > 0
    ensures Inv(TakeView(v))
  {
    hide Books, OwnersOk;
    TakeBooks(v);
    SameSuccesses(v, TakeView(v));
  }

  // A late completion - one whose handle no live block contains - changes no counter and no credit.
  lemma LateStep(v: View, h: nat)
    requires Core(v) && h in v.out && !Live(v.specs, h)
    ensures Core(v.(out := v.out - {h}))
  {
    hide Books, OwnersOk;
    LateBooks(v, h);
    SameSuccesses(v, v.(out := v.out - {h}));
  }

  // Reads that land only help.
  lemma LandStep(v: View, landed: set<nat>)
    requires Inv(v) && v.landed <= landed
    ensures Inv(v.(landed := landed))
  {
    LandBooks(v, landed);
    hide Books, OwnersKnown, BlocksOwned, Truthful;
    assert Alive(v.(landed := landed)) == Alive(v);
  }

  lemma LandBooks(v: View, landed: set<nat>)
    requires Books(v)
    ensures Books(v.(landed := landed))
  {
    var w := v.(landed := landed);
    forall base | base in w.specs ensures At(w, base) {
      assert At(v, base);
      assert Alive(w) == Alive(v);
    }
  }

  // ---------------------------------------------------------------- admitting

  lemma OwnersFromAt(base: nat, s: Spec, h: nat)
    ensures h in OwnersFrom(base, s) <==> InBlock(base, s, h)
    ensures InBlock(base, s, h) ==> OwnersFrom(base, s)[h] == OwnedAt(s, h - base)
  {
    assert Between(base, h, base + |s.plan|) <==> h in Span(base, base + |s.plan|);
  }

  lemma {:induction false} LayoutFrom(ts: seq<FileTask>, cb: nat, i: nat)
    requires cb > 0 && i < |Layout(ts, cb)|
    ensures Layout(ts, cb)[i].task < |ts| && Layout(ts, cb)[i].read in ReadsOf(ts[Layout(ts, cb)[i].task], cb)
  {
    var front := Layout(ts[..|ts|-1], cb);
    if i < |front| {
      LayoutFrom(ts[..|ts|-1], cb, i);
    } else {
      var k := |ts| - 1;
      var p := Layout(ts, cb)[i];
      assert p in Pieces(k, ts[k], cb, 0);
      PiecesTask(k, ts[k], cb, 0);
      RetagPiece(k, 0, ts[k], cb, 0, p);
    }
  }

  ghost predicate WhichOwner(v: View, w: Workload, h: nat, o: Owned)
    requires v.cb > 0
  {
    var s := SpecOf(w, v.cb);
    if InBlock(v.counter, s, h) then o == OwnedAt(s, h - v.counter) && o.id !in v.known
    else h in v.owner && o == v.owner[h] && o.id in v.known
  }

  // A handle after admitting: one of the new block, for a new task, or an old one as it was.
  lemma {:induction false} AdmitOwner(v: View, w: Workload, h: nat)
    requires OwnersOk(v) && FreshIds(v.known, AllTasks(w)) && h in AdmitView(v, w).owner
    ensures WhichOwner(v, w, h, AdmitView(v, w).owner[h])
  {
    OwnersFromAt(v.counter, SpecOf(w, v.cb), h);
    if InBlock(v.counter, SpecOf(w, v.cb), h) {
      NewOwner(v, w, h);
    } else {
      assert OwnerOk(h, v.owner[h], v.known, v.specs, v.cb);
    }
  }

  // Chunks of one task follow each other in memory.
  lemma {:induction false} PiecesAscend(k: nat, ft: FileTask, cb: nat, from: nat, i: nat, j: nat)
    requires cb > 0 && i < |Pieces(k, ft, cb, from)| && j < |Pieces(k, ft, cb, from)|
    ensures var p := Pieces(k, ft, cb, from);
            && p[i].read.buffer >= ft.task.destination + from
            && p[i].read.buffer + p[i].read.bytesize <= ft.task.destination + ft.task.bytesize
            && (i < j ==> p[i].read.buffer + p[i].read.bytesize <= p[j].read.buffer)
    decreases ft.task.bytesize - from
  {
    var bs := Min(ft.task.bytesize - from, cb);
    if i > 0 {
      PiecesAscend(k, ft, cb, from + bs, i - 1, if j > 0 then j - 1 else 0);
    } else if j > 0 {
      PiecesAscend(k, ft, cb, from + bs, j - 1, 0);
    }
  }

  // A task's read stays within the task's bytes, in memory and in the file.
  lemma ReadInside(t: FileTask, cb: nat, r: Read)
    requires cb > 0 && r in ReadsOf(t, cb)
    ensures t.task.destination <= r.buffer && r.buffer + r.bytesize <= t.task.destination + t.task.bytesize
  {
    var p :| p in Pieces(0, t, cb, 0) && p.read == r;
    var i :| 0 <= i < |Pieces(0, t, cb, 0)| && Pieces(0, t, cb, 0)[i] == p;
    PiecesAscend(0, t, cb, 0, i, i);
  }

  lemma {:induction false} LayoutApart(ts: seq<FileTask>, cb: nat, i: nat, j: nat)
    requires cb > 0 && i < j < |Layout(ts, cb)| && Layout(ts, cb)[i].task == Layout(ts, cb)[j].task
    ensures Apart(Layout(ts, cb)[i].read, Layout(ts, cb)[j].read)
  {
    var front := Layout(ts[..|ts|-1], cb);
    var k := |ts| - 1;
    LayoutTask(ts[..k], cb);
    PiecesTask(k, ts[k], cb, 0);
    if j < |front| {
      LayoutApart(ts[..k], cb, i, j);
    } else {
      assert Layout(ts, cb)[j] == Pieces(k, ts[k], cb, 0)[j - |front|];
      assert i >= |front|;
      PiecesAscend(k, ts[k], cb, 0, i - |front|, j - |front|);
    }
  }

  // Old handles keep their tasks; their blocks are not the new one.
  lemma {:induction false} OldOwner(v: View, w: Workload, h: nat)
    requires OwnersOk(v) && HomesBelow(v.known, v.counter) && FreshIds(v.known, AllTasks(w)) && h in v.owner
    ensures OwnerOk(h, v.owner[h], AdmitView(v, w).known, AdmitView(v, w).specs, v.cb)
    ensures v.owner[h].id in v.known && h < v.counter
  {
    AddKnownFacts(v.known, AllTasks(w), v.counter);
    assert OwnerOk(h, v.owner[h], v.known, v.specs, v.cb);
  }

  lemma {:induction false} NewOwner(v: View, w: Workload, h: nat)
    requires v.cb > 0 && FreshIds(v.known, AllTasks(w)) && InBlock(v.counter, SpecOf(w, v.cb), h)
    ensures var s := SpecOf(w, v.cb); var o := OwnedAt(s, h - v.counter);
            && OwnerOk(h, o, AdmitView(v, w).known, AdmitView(v, w).specs, v.cb) && ChunkOwned(s, h - v.counter, o)
            && o.id !in v.known && (forall t :: t in s.all && t.task.id == o.id ==> t.task.bytesize != 0)
  {
    hide Layout, NonZero, AddKnown, AllTasks, FinishZero, InitBlock, ChunksFrom, OwnersFrom, ReadsOf;
    var s := SpecOf(w, v.cb);
    var i := h - v.counter;
    AddKnownFacts(v.known, s.all, v.counter);
    LayoutFrom(s.ts, v.cb, i);
    NonZeroFacts(s.all);
    var t := s.ts[s.plan[i].task];
    assert t in s.ts;
    forall u | u in s.all && u.task.id == t.task.id ensures u.task.bytesize != 0 {
      var a :| 0 <= a < |s.all| && s.all[a] == u;
      var c :| 0 <= c < |s.all| && s.all[c] == t;
    }
  }

  lemma {:induction false} AdmitOwnersKnown(v: View, w: Workload)
    requires OwnersOk(v) && HomesBelow(v.known, v.counter) && FreshIds(v.known, AllTasks(w))
    ensures var w' := AdmitView(v, w); OwnersKnown(w'.owner, w'.known, w'.specs, w'.counter, w'.cb)
  {
    var w' := AdmitView(v, w);
    forall h | h in w'.owner ensures h < w'.counter && OwnerOk(h, w'.owner[h], w'.known, w'.specs, w'.cb) {
      OwnerStays(v, w, h);
    }
  }

  lemma {:induction false} OwnerStays(v: View, w: Workload, h: nat)
    requires OwnersOk(v) && HomesBelow(v.known, v.counter) && FreshIds(v.known, AllTasks(w))
        && h in AdmitView(v, w).owner
    ensures h < AdmitView(v, w).counter
        && OwnerOk(h, AdmitView(v, w).owner[h], AdmitView(v, w).known, AdmitView(v, w).specs, v.cb)
  {
    hide OwnerOk;
    OwnersFromAt(v.counter, SpecOf(w, v.cb), h);
    if InBlock(v.counter, SpecOf(w, v.cb), h) {
      NewOwner(v, w, h);
    } else {
      OldOwner(v, w, h);
    }
  }

  lemma {:induction false} AdmitApart(v: View, w: Workload)
    requires OwnersOk(v) && FreshIds(v.known, AllTasks(w))
    ensures OwnersApart(AdmitView(v, w).owner)
  {
    var owner' := AdmitView(v, w).owner;
    assert DistinctIds(AllTasks(w));
    forall h | h in owner' ensures WhichOwner(v, w, h, owner'[h]) {
      AdmitOwner(v, w, h);
    }
    assert OwnersApart(v.owner) && v.cb > 0;
    hide OwnersOk, FreshIds, AdmitView, WhichOwner, AllTasks, Apart;
    forall g, h | g in owner' && h in owner' && g < h && owner'[g].id == owner'[h].id
      ensures Apart(owner'[g].read, owner'[h].read) && Apart(owner'[h].read, owner'[g].read)
    {
      NewApart(v, w, g, h, owner'[g], owner'[h]);
    }
  }

  lemma {:induction false} NewApart(v: View, w: Workload, g: nat, h: nat, o: Owned, q: Owned)
    requires OwnersApart(v.owner) && DistinctIds(AllTasks(w)) && v.cb > 0
    requires WhichOwner(v, w, g, o) && WhichOwner(v, w, h, q) && g < h && o.id == q.id
    ensures Apart(o.read, q.read) && Apart(q.read, o.read)
  {
    hide AllTasks, NonZero, Layout;
    if InBlock(v.counter, SpecOf(w, v.cb), g) && InBlock(v.counter, SpecOf(w, v.cb), h) {
      NewChunksApart(w, v.cb, g - v.counter, h - v.counter);
    }
  }

  lemma {:induction false} NewChunksApart(w: Workload, cb: nat, i: nat, j: nat)
    requires cb > 0 && DistinctIds(AllTasks(w)) && i < j < |SpecOf(w, cb).plan|
    requires OwnedAt(SpecOf(w, cb), i).id == OwnedAt(SpecOf(w, cb), j).id
    ensures Apart(OwnedAt(SpecOf(w, cb), i).read, OwnedAt(SpecOf(w, cb), j).read)
  {
    var s := SpecOf(w, cb);
    LayoutFrom(s.ts, cb, i);
    LayoutFrom(s.ts, cb, j);
    hide AllTasks, NonZero, Layout;
    SameTask(w, cb, i, j);
    LayoutApart(s.ts, cb, i, j);
  }

  lemma {:induction false} SameTask(w: Workload, cb: nat, i: nat, j: nat)
    requires cb > 0 && DistinctIds(AllTasks(w))
    requires var s := SpecOf(w, cb);
             && i < |s.plan| && j < |s.plan| && s.plan[i].task < |s.ts| && s.plan[j].task < |s.ts|
             && s.ts[s.plan[i].task].task.id == s.ts[s.plan[j].task].task.id
    ensures SpecOf(w, cb).plan[i].task == SpecOf(w, cb).plan[j].task
  {
    NonZeroDistinct(AllTasks(w));
  }

  lemma {:induction false} AdmitBlocksOwned(v: View, w: Workload)
    requires OwnersOk(v) && Disjoint(v.specs, v.counter) && FreshIds(v.known, AllTasks(w))
    ensures BlocksOwned(AdmitView(v, w).specs, AdmitView(v, w).owner, v.cb)
  {
    var w' := AdmitView(v, w);
    var s := SpecOf(w, v.cb);
    forall base | base in w'.specs
      ensures w'.specs[base].plan == Layout(w'.specs[base].ts, v.cb) && BlockOwned(base, w'.specs[base], w'.owner)
    {
      if base == v.counter {
        NewBlockOwned(v, w);
      } else {
        OldBlockOwned(v, w, base);
      }
    }
  }

  lemma {:induction false} NewBlockOwned(v: View, w: Workload)
    requires v.cb > 0 && FreshIds(v.known, AllTasks(w))
    ensures BlockOwned(v.counter, SpecOf(w, v.cb), AdmitView(v, w).owner)
  {
    var s := SpecOf(w, v.cb);
    forall h: nat | InBlock(v.counter, s, h)
      ensures h in AdmitView(v, w).owner && ChunkOwned(s, h - v.counter, AdmitView(v, w).owner[h])
    {
      OwnersFromAt(v.counter, s, h);
      NewOwner(v, w, h);
    }
  }

  lemma OldBlockOwned(v: View, w: Workload, base: nat)
    requires OwnersOk(v) && Disjoint(v.specs, v.counter) && base in v.specs
    ensures BlockOwned(base, v.specs[base], AdmitView(v, w).owner)
  {
    assert BlockOwned(base, v.specs[base], v.owner);
    forall h: nat | InBlock(base, v.specs[base], h) ensures h in v.owner && AdmitView(v, w).owner[h] == v.owner[h] {
      OwnersFromAt(v.counter, SpecOf(w, v.cb), h);
    }
  }

  lemma {:induction false} AdmitAliveOpen(v: View, w: Workload)
    requires OwnersOk(v) && Disjoint(v.specs, v.counter) && Below(v.out, v.counter) && FreshIds(v.known, AllTasks(w))
    requires KnownOk(v.known, v.outcomes, v.specs.Keys)
    ensures AliveOpen(Alive(AdmitView(v, w)), AdmitView(v, w).owner, AdmitView(v, w).outcomes)
  {
    var w' := AdmitView(v, w);
    var s := SpecOf(w, v.cb);
    FinishZeroFacts(v.outcomes, s.all);
    AdmitAlive(v.pending, v.counter, s.plan);
    forall h | h in Alive(w') ensures h in Alive(v) || InBlock(v.counter, s, h) {
      assert h in Span(v.counter, v.counter + |s.plan|) ==> Between(v.counter, h, v.counter + |s.plan|);
    }
    hide Alive, FinishZero, AddKnown, NonZero, Layout, AllTasks, OwnersKnown, BlocksOwned;
    forall h | h in Alive(w') ensures h in w'.owner && !Succeeded(w'.owner[h].id, w'.outcomes) {
      if InBlock(v.counter, s, h) {
        NewAlive(v, w, h);
      } else {
        OldAlive(v, w, h);
      }
    }
  }

  lemma {:induction false} NewAlive(v: View, w: Workload, h: nat)
    requires v.cb > 0 && FreshIds(v.known, AllTasks(w)) && InBlock(v.counter, SpecOf(w, v.cb), h)
    requires KnownOk(v.known, v.outcomes, v.specs.Keys)
    ensures h in AdmitView(v, w).owner && !Succeeded(AdmitView(v, w).owner[h].id, AdmitView(v, w).outcomes)
  {
    hide AllTasks, NonZero, Layout, AddKnown, FinishZero, OwnerOk, OwnersFrom, OwnedAt, ChunkOwned, InitBlock,
      ChunksFrom;
    var s := SpecOf(w, v.cb);
    OwnersFromAt(v.counter, s, h);
    NewOwner(v, w, h);
    FinishZeroFacts(v.outcomes, s.all);
  }

  lemma {:induction false} OldAlive(v: View, w: Workload, h: nat)
    requires OwnersOk(v) && FreshIds(v.known, AllTasks(w)) && KnownOk(v.known, v.outcomes, v.specs.Keys)
    requires h in Alive(v) && !InBlock(v.counter, SpecOf(w, v.cb), h)
    ensures h in AdmitView(v, w).owner && !Succeeded(AdmitView(v, w).owner[h].id, AdmitView(v, w).outcomes)
  {
    var s := SpecOf(w, v.cb);
    FinishZeroFacts(v.outcomes, s.all);
    OwnersFromAt(v.counter, s, h);
    assert OwnerOk(h, v.owner[h], v.known, v.specs, v.cb);
    NotFresh(s.all, v.known, v.owner[h].id);
  }

  lemma NotFresh(ts: seq<FileTask>, known: map<nat, Known>, id: nat)
    requires (forall t :: t in ts ==> t.task.id !in known) && id in known
    ensures !HasId(ts, id)
  {
    forall i | 0 <= i < |ts| ensures ts[i].task.id != id {
      assert ts[i] in ts;
    }
  }

  // A task answered Success on the spot has no bytes, hence no reads, and no handle was ever its own.
  lemma InlineJudged(v: View, t: FileTask, owner: map<nat, Owned>, verdicts: map<nat, ResponseCode>)
    requires v.cb > 0 && t.task.bytesize == 0
    requires forall h :: h in owner ==> owner[h].id != t.task.id
    ensures AllJudged(t.task.id, t, owner, verdicts, v.cb)
  {
    assert ReadsOf(t, v.cb) == {};
  }

  lemma {:induction false} AdmitTruthful(v: View, w: Workload)
    requires OwnersOk(v) && KnownOk(v.known, v.outcomes, v.specs.Keys) && FreshIds(v.known, AllTasks(w))
    ensures var w' := AdmitView(v, w); Truthful(w'.known, w'.outcomes, w'.owner, w'.verdicts, w'.cb)
  {
    var w' := AdmitView(v, w);
    var s := SpecOf(w, v.cb);
    FinishZeroFacts(v.outcomes, s.all);
    AddKnownFacts(v.known, s.all, v.counter);
    hide OwnersKnown, BlocksOwned, AliveOpen, FinishZero, AddKnown, NonZero, Layout, AllTasks;
    forall id | id in w'.known && Succeeded(id, w'.outcomes)
      ensures AllJudged(id, w'.known[id].task, w'.owner, w'.verdicts, w'.cb)
    {
      if id in v.known {
        NotFresh(s.all, v.known, id);
        assert AllJudged(id, v.known[id].task, v.owner, v.verdicts, v.cb);
        OwnersGrow(v, w, id);
      } else {
        var i :| 0 <= i < |s.all| && s.all[i].task.id == id;
        assert s.all[i] in s.all;
        NoHandle(v, w, s.all[i]);
        InlineJudged(v, s.all[i], w'.owner, w'.verdicts);
      }
    }
  }

  // A new task without bytes gets no handle.
  lemma {:induction false} NoHandle(v: View, w: Workload, t: FileTask)
    requires OwnersOk(v) && FreshIds(v.known, AllTasks(w)) && t in AllTasks(w) && t.task.bytesize == 0
    ensures forall h :: h in AdmitView(v, w).owner ==> AdmitView(v, w).owner[h].id != t.task.id
  {
    var s := SpecOf(w, v.cb);
    forall h | h in AdmitView(v, w).owner ensures AdmitView(v, w).owner[h].id != t.task.id {
      AdmitOwner(v, w, h);
      if InBlock(v.counter, s, h) {
        NewOwner(v, w, h);
      }
    }
  }

  // New handles belong to new tasks.
  lemma {:induction false} OwnersGrow(v: View, w: Workload, id: nat)
    requires OwnersOk(v) && FreshIds(v.known, AllTasks(w)) && id in v.known
    requires AllJudged(id, v.known[id].task, v.owner, v.verdicts, v.cb)
    ensures AllJudged(id, v.known[id].task, AdmitView(v, w).owner, v.verdicts, v.cb)
  {
    var owner' := AdmitView(v, w).owner;
    forall h | h in owner' && owner'[h].id == id ensures h in v.owner && v.owner[h].id == id {
      AdmitOwner(v, w, h);
    }
    forall h | h in v.owner ensures h in owner' && owner'[h] == v.owner[h] {
      OwnersFromAt(v.counter, SpecOf(w, v.cb), h);
      assert h < v.counter;
    }
    hide OwnersOk, FreshIds, AdmitView, ReadsOf;
    forall r | r in ReadsOf(v.known[id].task, v.cb) ensures HasHandle(id, r, owner') {
      assert HasHandle(id, r, v.owner);
      var h :| h in v.owner && v.owner[h] == Owned(id, r);
      assert owner'[h] == Owned(id, r);
    }
  }

  // enqueue's new block, chunks and zero-sized answers keep the invariant.
  lemma {:induction false} AdmitStep(v: View, w: Workload)
    requires Inv(v) && FreshIds(v.known, AllTasks(w)) && |SpecOf(w, v.cb).plan| > 0
    ensures Inv(AdmitView(v, w))
  {
    hide BlocksOk, PendingOk, CreditOk, HomeOk, Computed, AliveOpen, OwnersKnown, OwnersApart, BlocksOwned, Truthful;
    AdmitAllBooks(v, w);
    AdmitOwnersKnown(v, w);
    AdmitApart(v, w);
    AdmitBlocksOwned(v, w);
    AdmitAliveOpen(v, w);
    AdmitTruthful(v, w);
  }

  // A workload answered on the spot - all zero-sized, or discarded - keeps the invariant.
  lemma {:induction false} InlineStep(v: View, ts: seq<FileTask>, outcomes: map<nat, ResponseCode>)
    requires Inv(v) && FreshIds(v.known, ts)
    requires forall id :: id in v.outcomes ==> id in outcomes && outcomes[id] == v.outcomes[id]
    requires forall id :: id in outcomes ==> id in v.outcomes || HasId(ts, id)
    requires forall t :: t in ts ==> t.task.id in outcomes
    requires forall t :: t in ts && outcomes[t.task.id] == Success ==> t.task.bytesize == 0
    ensures Inv(v.(known := AddKnown(v.known, ts, 0), outcomes := outcomes))
  {
    hide BlocksOk, PendingOk, CreditOk, HomeOk, Computed;
    InlineBooks(v, ts, outcomes);
    InlineOwners(v, ts, outcomes);
  }

  lemma {:induction false} InlineOwners(v: View, ts: seq<FileTask>, outcomes: map<nat, ResponseCode>)
    requires OwnersOk(v) && FreshIds(v.known, ts) && KnownOk(v.known, v.outcomes, v.specs.Keys)
        && Disjoint(v.specs, v.counter)
    requires forall id :: id in v.outcomes ==> id in outcomes && outcomes[id] == v.outcomes[id]
    requires forall id :: id in outcomes ==> id in v.outcomes || HasId(ts, id)
    requires forall t :: t in ts && t.task.id in outcomes && outcomes[t.task.id] == Success ==> t.task.bytesize == 0
    ensures OwnersOk(v.(known := AddKnown(v.known, ts, 0), outcomes := outcomes))
  {
    var w := v.(known := AddKnown(v.known, ts, 0), outcomes := outcomes);
    AddKnownFacts(v.known, ts, 0);
    assert Alive(w) == Alive(v);
    forall id | id in v.known ensures Succeeded(id, outcomes) <==> Succeeded(id, v.outcomes) {
      NotFresh(ts, v.known, id);
    }
    forall h | h in v.owner ensures OwnerOk(h, v.owner[h], w.known, v.specs, v.cb) && v.owner[h].id in v.known {
      assert OwnerOk(h, v.owner[h], v.known, v.specs, v.cb);
    }
    forall id | id in w.known && Succeeded(id, outcomes)
      ensures AllJudged(id, w.known[id].task, v.owner, v.verdicts, v.cb)
    {
      if id in v.known {
        assert AllJudged(id, v.known[id].task, v.owner, v.verdicts, v.cb);
      } else {
        var i :| 0 <= i < |ts| && ts[i].task.id == id;
        assert ts[i] in ts;
        InlineJudged(v, ts[i], v.owner, v.verdicts);
      }
    }
  }

  // ---------------------------------------------------------------- what the invariant is for

  // An outstanding read, even a late one of an erased block, never belongs to a task answered Success.
  lemma NoWriteAfterSuccess(v: View, h: nat)
    requires Core(v) && h in v.out
    ensures h in v.owner && v.owner[h].id in v.known && !Succeeded(v.owner[h].id, v.outcomes)
    ensures v.owner[h].read in ReadsOf(v.known[v.owner[h].id].task, v.cb)
  {
    hide Books;
    assert h in Alive(v);
    assert OwnerOk(h, v.owner[h], v.known, v.specs, v.cb);
  }

  // A task answered Success: each of its reads has a handle of its own, and the backend reported every one
  // of the task's own handles as successful.
  ghost predicate OwnReadsLanded(v: View, id: nat)
    requires v.cb > 0 && id in v.known
  {
    && (forall r :: r in ReadsOf(v.known[id].task, v.cb) ==> HasHandle(id, r, v.owner))
    && (forall h :: h in v.owner && v.owner[h].id == id ==> h in v.landed)
  }

  lemma SuccessIsOwn(v: View, id: nat)
    requires Core(v) && id in v.known && Succeeded(id, v.outcomes)
    ensures OwnReadsLanded(v, id)
  {
    hide Books;
    assert AllJudged(id, v.known[id].task, v.owner, v.verdicts, v.cb);
  }

  // An idle window means every admitted task has been answered, exactly once and truthfully.
  lemma IdleMeansAnswered(v: View)
    requires Inv(v) && |v.pending| == 0 && v.credit == 0
    ensures v.blocks == map[]
    ensures v.known.Keys == v.outcomes.Keys
    ensures forall id :: id in v.known && v.outcomes[id] == Success ==> OwnReadsLanded(v, id)
  {
    if v.specs.Keys != {} {
      var base :| base in v.specs;
      assert At(v, base);
      IdleNoBlock(v, base);
      assert false;
    }
    assert v.blocks.Keys == {};
    forall id | id in v.known && v.outcomes[id] == Success ensures OwnReadsLanded(v, id) {
      SuccessIsOwn(v, id);
    }
  }
}

// The atomic moves of a worker's state: each keeps the invariant, and no move revives an erased handle.
module WorkerMoves {
  import opened Codes
  import opened WorkerModel
  import opened WorkerInvariant
  import opened WorkerSteps
  import opened WorkerAdmit
  import opened WorkerOwners

  // ---------------------------------------------------------------- what the moves do

  // The state after complete_chunk: the chunk accounted for, and its workload removed if it was the last.
  ghost function AfterComplete(v: View, base: nat, h: nat, ret: ResponseCode): View
    requires Ready(v, base, h)
  {
    var w := CompleteView(v, base, h, ret);
    if w.blocks[base].remainingTasks == 0 then FinalizeView(w, base) else w
  }

  // The chunk has been completed with this code, and nothing else happened.
  ghost predicate Accounted(v: View, w: View, base: nat, h: nat, code: ResponseCode)
  {
    Ready(v, base, h) && w == AfterComplete(v, base, h, code)
  }

  // enqueue: a workload with chunks gets a handle block; one without is answered on the spot.
  ghost function Enqueued(v: View, w: Workload): View
    requires v.cb > 0
  {
    if |SpecOf(w, v.cb).plan| > 0 then AdmitView(v, w)
    else v.(known := AddKnown(v.known, AllTasks(w), 0), outcomes := FinishZero(v.outcomes, AllTasks(w)))
  }

  // discard: the workload is failed at once.
  ghost function Discarded(v: View, w: Workload, code: ResponseCode): View
  {
    v.(known := AddKnown(v.known, AllTasks(w), 0), outcomes := Report(v.outcomes, AllTasks(w), map[], code))
  }

  // Every answer that is new is a failure with this code.
  ghost predicate FailedWith(before: map<nat, ResponseCode>, after: map<nat, ResponseCode>, code: ResponseCode)
  {
    forall id :: id in after && id !in before ==> after[id] == code
  }

  // abort_all: every live workload's open tasks fail with the code, and the window is empty.
  ghost predicate AbortedBy(v: View, w: View, code: ResponseCode)
  {
    && w == v.(blocks := map[], specs := map[], pending := [], credit := 0, outcomes := w.outcomes)
    && Aborted(v, w.outcomes)
    && FailedWith(v.outcomes, w.outcomes, code)
  }

  // ---------------------------------------------------------------- the moves

  // The backend reports reads only while they are out, and a success only for a read that landed.
  datatype Move =
    | Admit(w: Workload)
    | Discard(w: Workload, code: ResponseCode)
    | Take
    | Land(handles: set<nat>)
    | Complete(base: nat, h: nat, ret: ResponseCode)
    | Late(h: nat)
    | Abort(code: ResponseCode)

  ghost predicate MovesTo(v: View, w: View, m: Move)
  {
    match m
    case Admit(x) => v.cb > 0 && FreshIds(v.known, AllTasks(x)) && w == Enqueued(v, x)
    case Discard(x, code) => v.cb > 0 && FreshIds(v.known, AllTasks(x)) && code != Success && w == Discarded(v, x, code)
    case Take => |v.pending| > 0 && w == TakeView(v)
    case Land(hs) => hs <= v.out && w == v.(landed := v.landed + hs)
    case Complete(base, h, ret) => h in v.out && ReadOk(v, h, ret) && Accounted(v, w, base, h, ret)
    case Late(h) => h in v.out && !Live(v.specs, h) && w == v.(out := v.out - {h})
    case Abort(code) => code != Success && AbortedBy(v, w, code)
  }

  lemma AfterNoneDone(v: View, base: nat, h: nat, ret: ResponseCode)
    requires NoneDone(v.blocks) && Ready(v, base, h)
    ensures NoneDone(AfterComplete(v, base, h, ret).blocks)
  {
  }

  lemma CompleteKeeps(v: View, base: nat, h: nat, ret: ResponseCode)
    requires Inv(v) && base in v.specs && InBlock(base, v.specs[base], h) && h in v.out
    requires ReadOk(v, h, ret)
    ensures Ready(v, base, h)
    ensures Inv(AfterComplete(v, base, h, ret))
  {
    hide Books, OwnersOk;
    CompleteStep(v, base, h, ret);
    var w := CompleteView(v, base, h, ret);
    if w.blocks[base].remainingTasks == 0 {
      BlockAt(w, base);
      FinalizeStep(w, base);
    }
    hide Core, CompleteView;
    AfterNoneDone(v, base, h, ret);
  }

  lemma BlockAt(v: View, base: nat)
    requires Core(v) && base in v.specs
    ensures At(v, base)
  {
    hide OwnersOk;
  }

  lemma InvBooks(v: View)
    requires Inv(v)
    ensures v.cb > 0 && v.known.Keys >= v.outcomes.Keys
    ensures Below(v.out, v.counter) && Disjoint(v.specs, v.counter)
    ensures v.blocks.Keys == v.specs.Keys
  {
    hide OwnersOk, BlocksOk;
  }

  lemma {:induction false} LayoutHasChunks(ts: seq<FileTask>, cb: nat)
    requires cb > 0 && ts != [] && ts[|ts|-1].task.bytesize != 0
    ensures |Layout(ts, cb)| > 0
  {
  }

  lemma {:induction false} NothingToRead(ts: seq<FileTask>, cb: nat)
    requires cb > 0 && |Layout(NonZero(ts), cb)| == 0
    ensures forall t :: t in ts ==> t.task.bytesize == 0
  {
    hide NonZero, Layout;
    NonZeroFacts(ts);
    var nz := NonZero(ts);
    assert nz != [] ==> nz[|nz|-1] in nz;
    if nz != [] {
      LayoutHasChunks(nz, cb);
    }
  }

  lemma {:induction false} EnqueueKeeps(v: View, w: Workload)
    requires Inv(v) && FreshIds(v.known, AllTasks(w))
    ensures v.cb > 0 && Inv(Enqueued(v, w))
  {
    InvBooks(v);
    hide Inv, AllTasks, Layout, NonZero, FinishZero;
    var ts := AllTasks(w);
    if |SpecOf(w, v.cb).plan| > 0 {
      AdmitStep(v, w);
    } else {
      NothingToRead(ts, v.cb);
      FinishZeroFacts(v.outcomes, ts);
      InlineStep(v, ts, FinishZero(v.outcomes, ts));
    }
  }

  lemma {:induction false} DiscardKeeps(v: View, w: Workload, code: ResponseCode)
    requires Inv(v) && FreshIds(v.known, AllTasks(w)) && code != Success
    ensures Inv(Discarded(v, w, code))
    ensures forall id :: id in v.outcomes ==>
        id in Discarded(v, w, code).outcomes && Discarded(v, w, code).outcomes[id] == v.outcomes[id]
  {
    InvBooks(v);
    hide Inv, AllTasks, Report;
    var ts := AllTasks(w);
    ReportFacts(v.outcomes, ts, map[], code);
    var r := Report(v.outcomes, ts, map[], code);
    forall t | t in ts ensures t.task.id in r && r[t.task.id] != Success {
      var i :| 0 <= i < |ts| && ts[i] == t;
      assert CodeFor(ts[i].fileIndex, map[], code) == code;
    }
    InlineStep(v, ts, r);
  }

  lemma MoveKeeps(v: View, w: View, m: Move)
    requires Inv(v) && MovesTo(v, w, m)
    ensures Inv(w)
  {
    hide Inv, Enqueued, Discarded, TakeView, AfterComplete;
    match m
    case Admit(x) => EnqueueKeeps(v, x);
    case Discard(x, code) => DiscardKeeps(v, x, code);
    case Take => TakeStep(v);
    case Land(hs) => LandStep(v, v.landed + hs);
    case Complete(base, h, ret) => CompleteKeeps(v, base, h, ret);
    case Late(h) => LateKeeps(v, h);
    case Abort(code) => AbortKeeps(v, w, code);
  }

  lemma LateKeeps(v: View, h: nat)
    requires Inv(v) && h in v.out && !Live(v.specs, h)
    ensures Inv(v.(out := v.out - {h}))
  {
    hide Books, OwnersOk;
    LateStep(v, h);
  }

  lemma AbortKeeps(v: View, w: View, code: ResponseCode)
    requires Inv(v) && code != Success && AbortedBy(v, w, code)
    ensures Inv(w)
  {
    hide Books, OwnersOk;
    AbortStep(v, w.outcomes);
  }

  // ---------------------------------------------------------------- what a move leaves alone

  // The move does not admit anything.
  ghost predicate Inner(m: Move) { !m.Admit? && !m.Discard? }

  // What is known, owned and answered only grows, and grows only by a new workload.
  ghost predicate BooksGrow(v: View, w: View)
  {
    && w.cb == v.cb
    && (forall id :: id in v.known ==> id in w.known && w.known[id] == v.known[id])
    && (forall h :: h in v.owner ==> h in w.owner && w.owner[h] == v.owner[h])
    && (forall id :: id in v.outcomes ==> id in w.outcomes && w.outcomes[id] == v.outcomes[id])
  }

  ghost predicate OnlyNew(v: View, w: View, ts: seq<FileTask>)
  {
    && (forall id :: id in w.known && id !in v.known ==>
      exists i :: 0 <= i < |ts| && ts[i].task.id == id && w.known[id].task == ts[i])
    && (forall t :: t in ts ==> t.task.id in w.known)
  }

  // An answer once given stays, and what lands does so only by the backend's report.
  lemma BooksStay(v: View, w: View, m: Move)
    requires Inv(v) && MovesTo(v, w, m)
    ensures BooksGrow(v, w)
    ensures m.Land? || w.landed == v.landed
    ensures Inner(m) ==> w.known == v.known && w.owner == v.owner
    ensures m.Admit? || m.Discard? ==> OnlyNew(v, w, AllTasks(m.w))
  {
    hide Inv, AllTasks, Enqueued, Discarded, AfterComplete, BooksGrow, AbortedBy, FreshIds, Ready;
    match m
    case Admit(x) => EnqueueGrows(v, x);
    case Discard(x, code) => DiscardGrows(v, x, code);
    case Complete(base, h, ret) =>
      assert Ready(v, base, h);
      CompleteGrows(v, base, h, ret);
    case Abort(code) => AbortGrows(v, w, code);
    case _ => SameBooks(v, w);
  }

  lemma SameBooks(v: View, w: View)
    requires w.cb == v.cb && w.known == v.known && w.owner == v.owner && w.outcomes == v.outcomes
    ensures BooksGrow(v, w)
  {
  }

  lemma AbortGrows(v: View, w: View, code: ResponseCode)
    requires AbortedBy(v, w, code)
    ensures BooksGrow(v, w) && w.known == v.known && w.owner == v.owner && w.landed == v.landed
  {
    hide FailedWith;
  }

  lemma {:induction false} AddKnownOnly(known: map<nat, Known>, ts: seq<FileTask>, home: nat, id: nat)
    requires FreshIds(known, ts) && id in AddKnown(known, ts, home) && id !in known
    ensures exists i :: 0 <= i < |ts| && ts[i].task.id == id && AddKnown(known, ts, home)[id].task == ts[i]
  {
    hide AddKnown;
    AddKnownFacts(known, ts, home);
    var i :| 0 <= i < |ts| && ts[i].task.id == id;
    assert ts[i] in ts;
  }

  lemma {:induction false} NewOnly(v: View, w: View, ts: seq<FileTask>, home: nat)
    requires FreshIds(v.known, ts) && w.known == AddKnown(v.known, ts, home)
    ensures OnlyNew(v, w, ts)
    ensures forall id :: id in v.known ==> id in w.known && w.known[id] == v.known[id]
  {
    AddKnownFacts(v.known, ts, home);
    hide AddKnown, FreshIds;
    forall id | id in w.known && id !in v.known
      ensures exists i :: 0 <= i < |ts| && ts[i].task.id == id && w.known[id].task == ts[i]
    {
      AddKnownOnly(v.known, ts, home, id);
    }
  }

  lemma {:induction false} EnqueueGrows(v: View, w: Workload)
    requires Inv(v) && v.cb > 0 && FreshIds(v.known, AllTasks(w))
    ensures BooksGrow(v, Enqueued(v, w)) && OnlyNew(v, Enqueued(v, w), AllTasks(w)) && Enqueued(v, w).landed == v.landed
  {
    InvBooks(v);
    hide Inv, AllTasks, AddKnown, Layout, NonZero, FinishZero, OnlyNew, AdmitView, BooksGrow, Disjoint, Below;
    FinishZeroFacts(v.outcomes, AllTasks(w));
    if |SpecOf(w, v.cb).plan| > 0 {
      AdmitGrows(v, w);
    } else {
      AddedGrows(v, Enqueued(v, w), AllTasks(w));
    }
  }

  lemma {:induction false} AddedGrows(v: View, w: View, ts: seq<FileTask>)
    requires FreshIds(v.known, ts) && w.known == AddKnown(v.known, ts, 0) && w.cb == v.cb && w.owner == v.owner
    requires forall id :: id in v.outcomes ==> id in w.outcomes && w.outcomes[id] == v.outcomes[id]
    ensures BooksGrow(v, w) && OnlyNew(v, w, ts)
  {
    hide AddKnown;
    NewOnly(v, w, ts, 0);
  }

  lemma {:induction false} AdmitGrows(v: View, w: Workload)
    requires Inv(v) && v.cb > 0 && FreshIds(v.known, AllTasks(w))
    requires forall id :: id in v.outcomes ==>
        id in FinishZero(v.outcomes, AllTasks(w)) && FinishZero(v.outcomes, AllTasks(w))[id] == v.outcomes[id]
    ensures BooksGrow(v, AdmitView(v, w)) && OnlyNew(v, AdmitView(v, w), AllTasks(w))
        && AdmitView(v, w).landed == v.landed
  {
    hide Inv, AllTasks, AddKnown, SpecOf, FinishZero, OnlyNew, OwnersFrom, FreshIds, InitBlock, ChunksFrom;
    OwnersBelow(v);
    SpecAll(w, v.cb);
    var w' := AdmitView(v, w);
    NewOnly(v, w', AllTasks(w), v.counter);
    forall h | h in v.owner ensures h in w'.owner && w'.owner[h] == v.owner[h] {
      OwnersFromAt(v.counter, SpecOf(w, v.cb), h);
    }
  }

  lemma {:induction false} SpecAll(w: Workload, cb: nat)
    requires cb > 0
    ensures SpecOf(w, cb).all == AllTasks(w)
  {
  }

  lemma OwnersBelow(v: View)
    requires Inv(v)
    ensures forall h :: h in v.owner ==> h < v.counter
  {
    hide Books, AliveOpen, Truthful, BlocksOwned, OwnersApart;
  }

  lemma {:induction false} DiscardGrows(v: View, w: Workload, code: ResponseCode)
    requires Inv(v) && v.cb > 0 && FreshIds(v.known, AllTasks(w))
    ensures BooksGrow(v, Discarded(v, w, code)) && OnlyNew(v, Discarded(v, w, code), AllTasks(w))
    ensures Discarded(v, w, code).landed == v.landed
  {
    hide Inv, AllTasks, AddKnown, Report, BooksGrow, OnlyNew;
    ReportFacts(v.outcomes, AllTasks(w), map[], code);
    AddedGrows(v, Discarded(v, w, code), AllTasks(w));
  }

  lemma CompleteGrows(v: View, base: nat, h: nat, ret: ResponseCode)
    requires Inv(v) && Ready(v, base, h)
    ensures var w := AfterComplete(v, base, h, ret);
            BooksGrow(v, w) && w.landed == v.landed && w.known == v.known && w.owner == v.owner
  {
    hide Inv, CompleteView, FinalizeView, BooksGrow, At, DistinctIds, Ready;
    ReadyBase(v, base, h);
    InvBlock(v, base);
    ChunkGrows(v, base, h, ret);
    var w := CompleteView(v, base, h, ret);
    if w.blocks[base].remainingTasks == 0 {
      FinalizeGrows(w, base);
      GrowsOn(v, w, FinalizeView(w, base));
    }
  }

  lemma ReadyBase(v: View, base: nat, h: nat)
    requires Ready(v, base, h)
    ensures base in v.specs && base in v.blocks
  {
  }

  lemma ChunkGrows(v: View, base: nat, h: nat, ret: ResponseCode)
    requires Ready(v, base, h)
    ensures var w := CompleteView(v, base, h, ret);
            && BooksGrow(v, w) && w.landed == v.landed && w.known == v.known && w.owner == v.owner
            && w.specs == v.specs && base in w.blocks
  {
    hide CompleteIn;
  }

  lemma FinalizeGrows(v: View, base: nat)
    requires base in v.blocks && base in v.specs && DistinctIds(v.specs[base].all)
    ensures var w := FinalizeView(v, base);
            BooksGrow(v, w) && w.landed == v.landed && w.known == v.known && w.owner == v.owner
  {
    hide Report, DistinctIds;
    ReportFacts(v.outcomes, v.specs[base].all, v.blocks[base].errorByFile, Success);
  }

  lemma GrowsOn(u: View, v: View, w: View)
    requires BooksGrow(u, v) && BooksGrow(v, w)
    ensures BooksGrow(u, w)
  {
  }

  lemma InvBlock(v: View, base: nat)
    requires Inv(v) && base in v.specs
    ensures At(v, base) && DistinctIds(v.specs[base].all)
  {
    hide OwnersOk, Counts, Judged, Reported, PendingOk, HomeOk, KnownOk;
    assert At(v, base);
  }

  // ---------------------------------------------------------------- handles of erased blocks

  // The handle has been issued, and no live block contains it.
  ghost predicate Dead(v: View, h: nat) { h < v.counter && !Live(v.specs, h) }

  // A handle belongs to one live block at most.
  lemma OneBlock(specs: map<nat, Spec>, counter: nat, h: nat, a: nat, b: nat)
    requires Disjoint(specs, counter) && a in specs && b in specs
    requires InBlock(a, specs[a], h) && InBlock(b, specs[b], h)
    ensures a == b
  {
  }

  // No move brings a dead handle back: new blocks start at the counter, beyond every handle ever issued.
  lemma DeadStays(v: View, w: View, m: Move, h: nat)
    requires MovesTo(v, w, m) && Dead(v, h)
    ensures Dead(w, h) && v.counter <= w.counter
  {
    hide FreshIds, Aborted, FailedWith, AddKnown, FinishZero, Report, OwnersFrom, CompleteIn, CompleteOutcomes;
    forall b | b in w.specs ensures !InBlock(b, w.specs[b], h) {
      if b in v.specs && v.specs[b] == w.specs[b] {
        assert !InBlock(b, v.specs[b], h);
      }
    }
  }

  // A live handle that is in no live block any more is dead.
  lemma LiveOrDead(v: View, w: View, h: nat)
    requires Disjoint(v.specs, v.counter) && v.counter <= w.counter && Live(v.specs, h) && !Live(w.specs, h)
    ensures Dead(w, h)
  {
    var b :| b in v.specs && InBlock(b, v.specs[b], h);
  }

  // ---------------------------------------------------------------- recorded errors

  // The first error recorded for a file of a live workload is the one that is kept, and so is a task's.
  lemma FirstErrorStays(v: View, w: View, m: Move, base: nat)
    requires Core(v) && MovesTo(v, w, m) && base in v.blocks && base in w.blocks
    ensures forall f :: f in v.blocks[base].errorByFile ==>
              f in w.blocks[base].errorByFile && w.blocks[base].errorByFile[f] == v.blocks[base].errorByFile[f]
    ensures |w.blocks[base].tasks| == |v.blocks[base].tasks|
    ensures forall k :: 0 <= k < |v.blocks[base].tasks| && v.blocks[base].tasks[k].error != Success ==>
              w.blocks[base].tasks[k].error == v.blocks[base].tasks[k].error
  {
    hide BlocksOk, PendingOk, KnownOk, HomeOk, HomesBelow, CreditOk, OwnersOk, FreshIds, Aborted, FailedWith;
    if m.Admit? {
      assert base in v.specs && base < v.counter;
    }
  }

  // ---------------------------------------------------------------- runs of moves

  ghost predicate MoveRun(v: View, w: View, run: seq<View>, moves: seq<Move>)
  {
    && |run| == |moves| + 1 && run[0] == v && run[|moves|] == w
    && forall k :: 0 <= k < |moves| ==> MovesTo(run[k], run[k + 1], moves[k])
  }

  lemma NoMoves(v: View)
    ensures MoveRun(v, v, [v], [])
  {
  }

  lemma MoveMore(v: View, u: View, w: View, run: seq<View>, moves: seq<Move>, m: Move)
    requires MoveRun(v, u, run, moves) && MovesTo(u, w, m)
    ensures MoveRun(v, w, run + [w], moves + [m])
  {
    hide MovesTo;
  }

  lemma {:induction false} RunKeeps(v: View, w: View, run: seq<View>, moves: seq<Move>)
    requires MoveRun(v, w, run, moves) && Inv(v)
    ensures Inv(w)
    decreases |moves|
  {
    hide MovesTo, Inv;
    if moves != [] {
      var n := |moves| - 1;
      RunKeeps(v, run[n], run[..n + 1], moves[..n]);
      MoveKeeps(run[n], w, moves[n]);
    }
  }
}

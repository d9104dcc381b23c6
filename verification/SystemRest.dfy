// When a destination is free again: exactly when its tasks are decided and no read of theirs is still out.
module SystemRest {
  import opened Codes
  import opened Options
  import opened Batches
  import opened Events
  import opened Traces
  import opened Answers
  import opened System
  import opened SystemSteps
  import opened SystemProgress
  import WM = WorkerModel
  import WI = WorkerInvariant
  import WS = WorkerSteps
  import WA = WorkerAdmit
  import WV = WorkerMoves
  import WO = WorkerOwners

  // No read of task t is at the backend that may still write.
  ghost predicate NoReadOut(v: WI.View, t: nat)
  {
    forall h :: h in v.out && h !in v.landed && h in v.owner ==> v.owner[h].id != t
  }

  ghost predicate AtRest(s: Sys, t: nat)
  {
    && t < |s.a.phase| && s.a.phase[t] != Todo
    && forall w :: 0 <= w < |s.views| ==> NoReadOut(s.views[w], t)
  }

  // ---------------------------------------------------------------- a decided task stays decided

  lemma DecidedStays(p: Plan, files: Files, a: State, a': State, x: Step, t: nat)
    requires Shaped(p) && Answers.Next(p, files, a, a', x) && t < |a.phase| && a.phase[t] != Todo
    ensures t < |a'.phase| && a'.phase[t] != Todo
    ensures !x.Write? ==> a'.memory == a.memory
  {
  }

  lemma PhaseStays(c: Config, s: Sys, s': Sys, step: SysStep, t: nat)
    requires ConfigOk(c) && SysInv(c, s) && SysNext(c, s, s', step) && t < |s.a.phase| && s.a.phase[t] != Todo
    ensures t < |s'.a.phase| && s'.a.phase[t] != Todo
    ensures !OnlyWrites(step) && !step.Read? ==> s'.a.memory == s.a.memory
  {
    hide ConfigOk, SysInv, SysNext, Answers.Next, Shaped, EventStep;
    StepRefines(c, s, s', step);
    var x := AnswerStep(c, s, step);
    if x.Some? {
      DecidedStays(c.plan, c.files, s.a, s'.a, x.value, t);
      if !OnlyWrites(step) && !step.Read? {
        StepKind(c, s, s', step);
      }
    }
  }

  lemma StepKind(c: Config, s: Sys, s': Sys, step: SysStep)
    requires SysNext(c, s, s', step) && AnswerStep(c, s, step).Some? && !OnlyWrites(step) && !step.Read?
    ensures !AnswerStep(c, s, step).value.Write?
  {
    hide WV.MovesTo, BytesAt, HomeSent, Answers.Next;
  }

  // ---------------------------------------------------------------- no new read for a decided task

  // A pending chunk belongs to a task that has no answer yet.
  lemma PendingOpen(v: WI.View)
    requires WI.Inv(v) && |v.pending| > 0
    ensures v.pending[0].handle in v.owner && v.owner[v.pending[0].handle].id !in v.outcomes
  {
    hide WI.Inv, WI.At, WI.ChunkOwned, WI.Alive;
    var h := v.pending[0].handle;
    var base := PendingBase(v);
    WV.InvBlock(v, base);
    OwnedHandle(v, base, h);
    LiveOpen(v, base, h);
  }

  // So does every handle of a live block that has not been accounted for.
  lemma LiveOpen(v: WI.View, base: nat, h: nat)
    requires WI.At(v, base) && WI.InBlock(base, v.specs[base], h) && h in WI.Alive(v)
    requires h in v.owner && WI.ChunkOwned(v.specs[base], h - base, v.owner[h])
    ensures v.owner[h].id !in v.outcomes
  {
    hide WI.Judged, WI.Alive, WI.SpecShape;
    var b, s := v.blocks[base], v.specs[base];
    var k := s.plan[h - base].task;
    assert h in WI.Left(base, s, k, WI.Alive(v));
    assert |WI.Left(base, s, k, WI.Alive(v))| > 0;
    assert WI.TaskReported(b.tasks[k], v.outcomes);
  }

  lemma PendingBase(v: WI.View) returns (base: nat)
    requires WI.Inv(v) && |v.pending| > 0
    ensures base in v.specs && WI.InBlock(base, v.specs[base], v.pending[0].handle)
    ensures v.pending[0].handle in WI.Alive(v)
  {
    hide WI.OwnersOk, WI.BlocksOk, WI.HomeOk, WI.KnownOk, WI.CreditOk;
    assert WI.ChunkOk(v.specs, v.pending[0]);
    base :| base in v.specs && WI.InBlock(base, v.specs[base], v.pending[0].handle)
            && WI.ChunkAt(v.pending[0], v.specs[base].plan[v.pending[0].handle - base].read);
  }

  lemma OwnedHandle(v: WI.View, base: nat, h: nat)
    requires WI.Inv(v) && base in v.specs && WI.InBlock(base, v.specs[base], h)
    ensures h in v.owner && WI.ChunkOwned(v.specs[base], h - base, v.owner[h])
  {
    hide WI.Inv, WI.Books, WI.AliveOpen, WI.Truthful, WI.OwnersApart, WI.OwnersKnown;
    InvOwners(v);
    assert WI.BlockOwned(base, v.specs[base], v.owner);
  }

  // A decided task that a worker knows has the worker's answer.
  lemma KnownAnswered(c: Config, s: Sys, w: nat, t: nat)
    requires ConfigOk(c) && SysInv(c, s) && w < |s.views| && t in s.views[w].known
    requires t < |s.a.phase| && s.a.phase[t] != Todo
    ensures t in s.views[w].outcomes
  {
    WorkerAt(c, s, w);
    ShapeOf(c, s);
    KnownPlace(c, s.taken, w, s.views[w], t);
    LoadHome(c, t);
    hide ConfigOk, Answers.Inv, ReadersOk, WorkersOk, Shaped, WI.Inv, AllFromLoads, LandedKept;
    var j := c.place[t].load;
    assert TakenOk(c, s.a, s.taken, s.views, j) && ObjectOk(c, s.a, s.taken, s.views, t);
    hide LoadsOk, TakenOk;
    SentTask(c, s.a, t);
  }

  lemma HandleKnown(c: Config, s: Sys, w: nat, h: nat)
    requires ConfigOk(c) && SysInv(c, s) && w < |s.views| && h in s.views[w].owner
    ensures s.views[w].owner[h].id in s.views[w].known
  {
    WorkerAt(c, s, w);
    hide ConfigOk, SysInv, WI.Inv, WI.OwnersOk, AllFromLoads, LandedKept, TaskFits, FromLoad;
    InvOwners(s.views[w]);
    OwnerWindow(c, s.taken, w, s.views[w], h);
  }

  lemma TakeRest(c: Config, s: Sys, w: nat, t: nat)
    requires ConfigOk(c) && SysInv(c, s) && w < |s.views| && |s.views[w].pending| > 0
    requires t < |s.a.phase| && s.a.phase[t] != Todo && NoReadOut(s.views[w], t)
    ensures NoReadOut(WS.TakeView(s.views[w]), t)
  {
    hide ConfigOk, SysInv, WI.Inv, AllFromLoads, LandedKept, NoReadOut, WS.TakeView;
    WorkerAt(c, s, w);
    var v := s.views[w];
    PendingOpen(v);
    HandleKnown(c, s, w, v.pending[0].handle);
    if v.owner[v.pending[0].handle].id == t {
      KnownAnswered(c, s, w, t);
    }
    OneMoreOut(v, t);
  }

  lemma OneMoreOut(v: WI.View, t: nat)
    requires |v.pending| > 0 && NoReadOut(v, t) && v.pending[0].handle in v.owner
        && v.owner[v.pending[0].handle].id != t
    ensures NoReadOut(WS.TakeView(v), t)
  {
  }

  // Moves other than a submission put no read out, and what is out keeps its owner.
  lemma FewerOut(v: WI.View, v': WI.View, m: WV.Move)
    requires WV.MovesTo(v, v', m) && !m.Take?
    ensures v'.out <= v.out && v.landed <= v'.landed
  {
    hide WM.Report, WM.AllTasks, WM.NonZero, WM.Layout, WA.FreshIds, WA.AddKnown, WA.FinishZero, WA.OwnersFrom;
    hide WS.Aborted, WV.FailedWith, WS.CompleteIn, WS.CompleteOutcomes;
  }

  lemma OutOwned(v: WI.View)
    requires WI.Inv(v)
    ensures forall h :: h in v.out ==> h in v.owner
  {
    hide WI.Books, WI.Truthful, WI.OwnersApart, WI.OwnersKnown, WI.BlocksOwned;
  }

  lemma MoveRest(c: Config, s: Sys, w: nat, v': WI.View, m: WV.Move, t: nat)
    requires ConfigOk(c) && SysInv(c, s) && w < |s.views| && WV.MovesTo(s.views[w], v', m)
    requires t < |s.a.phase| && s.a.phase[t] != Todo && NoReadOut(s.views[w], t)
    ensures NoReadOut(v', t)
  {
    WorkerAt(c, s, w);
    var v := s.views[w];
    hide ConfigOk, SysInv, WI.Inv, AllFromLoads, LandedKept, WS.TakeView;
    if m.Take? {
      TakeRest(c, s, w, t);
    } else {
      hide WV.MovesTo;
      FewerOut(v, v', m);
      WV.BooksStay(v, v', m);
      OutOwned(v);
    }
  }

  // ---------------------------------------------------------------- no write to a decided task

  lemma StoreElsewhere(c: Config, s: Sys, s': Sys, b: nat, t: nat, x: nat)
    requires ConfigOk(c) && SysInv(c, s) && SysNext(c, s, s', Read(b))
    requires t < |s.a.phase| && s.a.phase[t] != Todo && InWindow(c.plan, t, x)
    ensures s'.a.memory(x) == s.a.memory(x)
  {
    ReaderAt(c, s, b);
    GoodPlan(c);
    ShapeOf(c, s);
    hide ConfigOk, SysInv, PlanGood, ReaderFits, ReaderOk, PlacesFit, Shaped, Answers.Open, SameShape;
    var r, n := c.readers[b], s.pos[b];
    if s'.a.memory(x) != s.a.memory(x) {
      StoreOpen(c, s.a, r, n, x);
      var u: nat :| u in TasksRead(r) && InWindow(c.plan, u, x) && (s.a.phase[u] == Todo || Dropped(c.plan, s.a, u));
      OneWindow(c.plan, t, u, x);
      ReaderHome(c, r, u);
      SentTask(c, s.a, u);
    }
  }

  lemma ReaderHome(c: Config, r: Reader, u: nat)
    requires Shaped(c.plan) && ReaderFits(c.plan, c.files, r) && u in TasksRead(r)
    ensures u < |c.plan.tasks| && c.plan.home[u] == r.home
  {
  }

  lemma FillElsewhere(c: Config, s: Sys, s': Sys, w: nat, h: nat, t: nat, x: nat)
    requires ConfigOk(c) && SysInv(c, s) && SysNext(c, s, s', Fill(w, h)) && NoReadOut(s.views[w], t)
    requires InWindow(c.plan, t, x)
    ensures s'.a.memory(x) == s.a.memory(x)
  {
    hide ConfigOk, SysInv, WI.Inv, WI.OwnersOk, AllFromLoads, LandedKept, TaskFits, FromLoad, PlanGood, PlacesFit,
      Shaped;
    WorkerAt(c, s, w);
    GoodPlan(c);
    InvOwners(s.views[w]);
    OwnerWindow(c, s.taken, w, s.views[w], h);
    if InBuffer(s.views[w].owner[h].read, x) {
      OneWindow(c.plan, t, s.views[w].owner[h].id, x);
    }
  }

  // A task at rest stays so, and no step of anyone writes to its destination.
  lemma RestStep(c: Config, s: Sys, s': Sys, step: SysStep, t: nat)
    requires ConfigOk(c) && SysInv(c, s) && SysNext(c, s, s', step) && AtRest(s, t)
    ensures AtRest(s', t)
    ensures forall x: nat :: InWindow(c.plan, t, x) ==> s'.a.memory(x) == s.a.memory(x)
  {
    PhaseStays(c, s, s', step, t);
    RestViews(c, s, s', step, t);
    hide ConfigOk, SysInv, NoReadOut, AtRest, InWindow;
    forall x: nat | InWindow(c.plan, t, x) ensures s'.a.memory(x) == s.a.memory(x) {
      RestMemory(c, s, s', step, t, x);
    }
    assert AtRest(s', t) by { RestIs(s', t); }
  }

  lemma RestIs(s: Sys, t: nat)
    requires t < |s.a.phase| && s.a.phase[t] != Todo && forall w :: 0 <= w < |s.views| ==> NoReadOut(s.views[w], t)
    ensures AtRest(s, t)
  {
  }

  lemma RestMemory(c: Config, s: Sys, s': Sys, step: SysStep, t: nat, x: nat)
    requires ConfigOk(c) && SysInv(c, s) && SysNext(c, s, s', step) && AtRest(s, t) && InWindow(c.plan, t, x)
    ensures s'.a.memory(x) == s.a.memory(x)
  {
    PhaseStays(c, s, s', step, t);
    hide ConfigOk, SysInv, NoReadOut, InWindow, WV.MovesTo, BytesAt, HomeSent, Answers.Next, AfterEvent;
    match step
    case Read(b) => StoreElsewhere(c, s, s', b, t, x);
    case Fill(w, h) => FillElsewhere(c, s, s', w, h, t, x);
    case Elsewhere => assert InSomeWindow(c.plan, x);
    case _ =>
  }

  lemma RestViews(c: Config, s: Sys, s': Sys, step: SysStep, t: nat)
    requires ConfigOk(c) && SysInv(c, s) && SysNext(c, s, s', step) && AtRest(s, t)
    ensures forall w :: 0 <= w < |s'.views| ==> NoReadOut(s'.views[w], t)
  {
    hide ConfigOk, SysInv, NoReadOut, WV.MovesTo, BytesAt, HomeSent, Answers.Next, AfterEvent;
    match step
    case Admit(w, j, m) => MoveRest(c, s, w, s'.views[w], m, t);
    case Worker(w, m) => MoveRest(c, s, w, s'.views[w], m, t);
    case Land(w, hs) => LandRest(s.views[w], s'.views[w], hs, t);
    case _ =>
  }

  lemma LandRest(v: WI.View, v': WI.View, hs: set<nat>, t: nat)
    requires NoReadOut(v, t) && v' == v.(landed := v.landed + hs)
    ensures NoReadOut(v', t)
  {
  }

  // ---------------------------------------------------------------- for ever

  ghost predicate Path(c: Config, run: seq<Sys>, steps: seq<SysStep>)
  {
    |run| == |steps| + 1 && forall i :: 0 <= i < |steps| ==> SysNext(c, run[i], run[i + 1], steps[i])
  }

  lemma {:induction false} RestForever(c: Config, run: seq<Sys>, steps: seq<SysStep>, n: nat, t: nat)
    requires ConfigOk(c) && Path(c, run, steps) && n < |run| && SysInv(c, run[0]) && AtRest(run[0], t)
    ensures SysInv(c, run[n]) && AtRest(run[n], t)
    ensures forall x: nat :: InWindow(c.plan, t, x) ==> run[n].a.memory(x) == run[0].a.memory(x)
  {
    hide ConfigOk, SysInv, SysNext, AtRest, InWindow;
    if n > 0 {
      RestForever(c, run, steps, n - 1, t);
      StepRefines(c, run[n - 1], run[n], steps[n - 1]);
      RestStep(c, run[n - 1], run[n], steps[n - 1], t);
    }
  }

  // What is in a range now stays there, whatever happens from here on.
  ghost predicate Untouched(c: Config, s: Sys, r: nat)
    requires r < |c.plan.requests|
  {
    forall run: seq<Sys>, steps: seq<SysStep>, n: nat, x: nat ::
      Path(c, run, steps) && run[0] == s && n < |run| && InRange(c.plan.requests[r], x) ==>
        run[n].a.memory(x) == s.a.memory(x)
  }

  ghost predicate RangeAtRest(c: Config, s: Sys, r: nat)
    requires Shaped(c.plan)
  {
    forall t: nat :: t in TasksOf(c.plan, r) ==> AtRest(s, t)
  }

  lemma RestUntouched(c: Config, s: Sys, r: nat)
    requires ConfigOk(c) && SysInv(c, s) && Shaped(c.plan) && r < |c.plan.requests| && RangeAtRest(c, s, r)
    ensures Untouched(c, s, r)
  {
    GoodPlan(c);
    forall run: seq<Sys>, steps: seq<SysStep>, n: nat, x: nat | Path(c, run, steps) && run[0] == s && n < |run|
      && InRange(c.plan.requests[r], x)
      ensures run[n].a.memory(x) == s.a.memory(x)
    {
      assert Answers.Covered(c.plan, r, x);
      hide ConfigOk, SysInv, Path, PlanGood;
      var t: nat :| t in TasksOf(c.plan, r) && Window(c.plan.tasks[t], x);
      RestForever(c, run, steps, n, t);
      assert InWindow(c.plan, t, x);
    }
  }

  // ---------------------------------------------------------------- a read that is still out

  lemma {:induction false} PiecesNotEmpty(k: nat, ft: WM.FileTask, cb: nat, from: nat, p: WM.Piece)
    requires cb > 0 && p in WM.Pieces(k, ft, cb, from)
    ensures p.read.bytesize > 0
    decreases ft.task.bytesize - from
  {
    if from < ft.task.bytesize {
      var bs := WM.Min(ft.task.bytesize - from, cb);
      if p in WM.Pieces(k, ft, cb, from + bs) {
        PiecesNotEmpty(k, ft, cb, from + bs, p);
      }
    }
  }

  lemma ReadNotEmpty(c: Config, s: Sys, w: nat, h: nat)
    requires ConfigOk(c) && SysInv(c, s) && w < |s.views| && h in s.views[w].out
    ensures h in s.views[w].owner && s.views[w].owner[h].read.bytesize > 0
  {
    WorkerAt(c, s, w);
    var v := s.views[w];
    hide ConfigOk, SysInv, WI.Inv, WI.Core, AllFromLoads, LandedKept, WM.Pieces;
    InvOwners(v);
    WO.NoWriteAfterSuccess(v, h);
    hide WI.OwnersOk;
    var id := v.owner[h].id;
    var p :| p in WM.Pieces(0, v.known[id].task, v.cb, 0) && p.read == v.owner[h].read;
    PiecesNotEmpty(0, v.known[id].task, v.cb, 0, p);
  }

  // The backend may change the first byte of an outstanding read's buffer.
  lemma LateWrite(c: Config, s: Sys, w: nat, h: nat) returns (s': Sys)
    requires ConfigOk(c) && SysInv(c, s) && w < |s.views| && h in s.views[w].out && h !in s.views[w].landed
    ensures h in s.views[w].owner && SysNext(c, s, s', Fill(w, h))
    ensures var r := s.views[w].owner[h].read;
            InWindow(c.plan, s.views[w].owner[h].id, r.buffer) && s'.a.memory(r.buffer) != s.a.memory(r.buffer)
  {
    hide ConfigOk, SysInv, WI.Inv, WI.Core, WI.OwnersOk, AllFromLoads, LandedKept, PlanGood, PlacesFit, Shaped,
      TaskFits;
    hide FromLoad;
    ReadNotEmpty(c, s, w, h);
    WorkerAt(c, s, w);
    GoodPlan(c);
    var v := s.views[w];
    InvOwners(v);
    OwnerWindow(c, s.taken, w, v, h);
    var r := v.owner[h].read;
    var value := s.a.memory(r.buffer) + 1;
    s' := s.(a := s.a.(memory := (x: nat) => if x == r.buffer then value else s.a.memory(x)));
    assert InBuffer(r, r.buffer);
  }

  // ---------------------------------------------------------------- exactly when

  lemma TaskInRange(c: Config, t: nat, x: nat)
    requires ConfigOk(c) && InWindow(c.plan, t, x) && t < |c.plan.owner|
    ensures Shaped(c.plan) && c.plan.owner[t] < |c.plan.requests| && InRange(c.plan.requests[c.plan.owner[t]], x)
  {
    GoodPlan(c);
    assert TaskHome(c.plan, t) && PartOf(c.plan.tasks[t], c.plan.requests[c.plan.owner[t]]);
  }

  // The destination of an answered range is free for another use if and only if none of its reads is still out
  // at the backend: then nobody here ever writes to it again; otherwise a late read of it still may.
  lemma ReuseIff(c: Config, s: Sys, r: nat)
    requires ConfigOk(c) && SysInv(c, s) && r < |c.plan.requests| && HasResponse(s.a, r)
    ensures Shaped(c.plan) && (Untouched(c, s, r) <==> RangeAtRest(c, s, r))
  {
    hide ConfigOk, SysInv, PlanGood, PlacesFit, Shaped, Untouched, AtRest, HasResponse;
    AllDecided(c, s, r);
    if RangeAtRest(c, s, r) {
      RestUntouched(c, s, r);
    } else {
      var t: nat :| t in TasksOf(c.plan, r) && !AtRest(s, t);
      NotAtRest(c, s, r, t);
    }
  }

  lemma NotAtRest(c: Config, s: Sys, r: nat, t: nat)
    requires ConfigOk(c) && SysInv(c, s) && Shaped(c.plan) && SysShape(c, s) && r < |c.plan.requests|
    requires t in TasksOf(c.plan, r) && t < |s.a.phase| && s.a.phase[t] != Todo && !AtRest(s, t)
    ensures !Untouched(c, s, r)
  {
    hide ConfigOk, SysInv, SysShape, PlanGood, Shaped, SysNext, InWindow, InRange, Untouched;
    TaskOwner(c, r, t);
    var w, h := ReadOut(s, t);
    var s' := LateWrite(c, s, w, h);
    var x := s.views[w].owner[h].read.buffer;
    TaskInRange(c, t, x);
    Touched(c, s, s', Fill(w, h), r, x);
  }

  lemma TaskOwner(c: Config, r: nat, t: nat)
    requires Shaped(c.plan) && t in TasksOf(c.plan, r)
    ensures t < |c.plan.owner| && c.plan.owner[t] == r
  {
  }

  lemma ReadOut(s: Sys, t: nat) returns (w: nat, h: nat)
    requires t < |s.a.phase| && s.a.phase[t] != Todo && !AtRest(s, t)
    ensures w < |s.views| && h in s.views[w].out && h !in s.views[w].landed
    ensures h in s.views[w].owner && s.views[w].owner[h].id == t
  {
    w :| w < |s.views| && !NoReadOut(s.views[w], t);
    h :| h in s.views[w].out && h !in s.views[w].landed && h in s.views[w].owner && s.views[w].owner[h].id == t;
  }

  lemma Touched(c: Config, s: Sys, s': Sys, step: SysStep, r: nat, x: nat)
    requires SysNext(c, s, s', step) && r < |c.plan.requests| && InRange(c.plan.requests[r], x)
    requires s'.a.memory(x) != s.a.memory(x)
    ensures !Untouched(c, s, r)
  {
    hide SysNext, InRange;
    var run, steps := [s, s'], [step];
    assert Path(c, run, steps) && run[1].a.memory(x) != s.a.memory(x);
  }

  lemma AllDecided(c: Config, s: Sys, r: nat)
    requires ConfigOk(c) && SysInv(c, s) && r < |c.plan.requests| && HasResponse(s.a, r)
    ensures Shaped(c.plan) && SysShape(c, s)
    ensures forall t: nat :: t in TasksOf(c.plan, r) ==> t < |s.a.phase| && s.a.phase[t] != Todo
  {
    GoodPlan(c);
    hide ConfigOk, PlanGood, PlacesFit, ReadersOk, WorkersOk, LoadsOk;
    AnsweredIsFinal(c.plan, s.a, r);
  }

  // A range answered Success is free at once.
  lemma SuccessAtRest(c: Config, s: Sys, r: nat)
    requires ConfigOk(c) && SysInv(c, s) && r < |c.plan.requests| && Shaped(c.plan) && SysShape(c, s)
    requires AllSucceeded(c.plan, s.a, r)
    ensures RangeAtRest(c, s, r)
  {
    forall t: nat | t in TasksOf(c.plan, r) ensures AtRest(s, t) {
      SucceededAtRest(c, s, t);
    }
  }

  lemma SucceededAtRest(c: Config, s: Sys, t: nat)
    requires ConfigOk(c) && SysInv(c, s) && SysShape(c, s) && t < |s.a.phase| && Answers.Succeeded(s.a.phase[t])
    ensures AtRest(s, t)
  {
    hide ConfigOk, SysInv, SysShape;
    forall w | 0 <= w < |s.views| ensures NoReadOut(s.views[w], t) {
      forall h | h in s.views[w].out && h !in s.views[w].landed && h in s.views[w].owner
        ensures s.views[w].owner[h].id != t
      {
        FillObject(c, s, w, h);
      }
    }
  }

  // A range all of whose tasks are read from files is free as soon as it is answered, whatever the answer.
  lemma BatchAtRest(c: Config, s: Sys, t: nat)
    requires ConfigOk(c) && SysInv(c, s) && SysShape(c, s) && t < |s.a.phase| && s.a.phase[t] != Todo
    requires c.place[t].InBatch?
    ensures AtRest(s, t)
  {
    hide ConfigOk, SysInv;
    forall w | 0 <= w < |s.views| ensures NoReadOut(s.views[w], t) {
      WorkerAt(c, s, w);
      forall h | h in s.views[w].out && h !in s.views[w].landed && h in s.views[w].owner
        ensures s.views[w].owner[h].id != t
      {
        HandleKnown(c, s, w, h);
        KnownPlace(c, s.taken, w, s.views[w], s.views[w].owner[h].id);
      }
    }
  }

  // ---------------------------------------------------------------- a late read after the answer

  // Giving up answers every open task with the code and leaves what is out at the backend as it is.
  ghost function GivenUp(v: WI.View, code: ResponseCode): WI.View
  {
    v.(blocks := map[], specs := map[], pending := [], credit := 0,
       outcomes := map id | id in v.known :: if id in v.outcomes then v.outcomes[id] else code)
  }

  ghost predicate TasksKnown(v: WI.View)
  {
    forall base, t :: base in v.specs && t in v.specs[base].all ==> t.task.id in v.known
  }

  lemma AbortMove(v: WI.View, code: ResponseCode)
    requires WI.Inv(v) && code != Success
    ensures WV.MovesTo(v, GivenUp(v, code), WV.Abort(code))
  {
    hide WI.Inv, WV.MovesTo, GivenUp, TasksKnown, WI.Below, WI.Disjoint;
    WV.InvBooks(v);
    AbortKnows(v);
    Aborts(v, code);
  }

  lemma Aborts(v: WI.View, code: ResponseCode)
    requires v.known.Keys >= v.outcomes.Keys && code != Success && TasksKnown(v)
    ensures WV.MovesTo(v, GivenUp(v, code), WV.Abort(code))
  {
  }

  lemma AbortKnows(v: WI.View)
    requires WI.Inv(v)
    ensures TasksKnown(v)
  {
    hide WI.OwnersOk, WI.BlocksOk, WI.PendingOk, WI.KnownOk, WI.CreditOk;
    forall base, t | base in v.specs && t in v.specs[base].all ensures t.task.id in v.known {
      assert WI.Homed(base, v.specs[base], v.known);
    }
  }

  lemma PathInv(c: Config, s: Sys, s': Sys, step: SysStep)
    requires ConfigOk(c) && SysInv(c, s) && SysNext(c, s, s', step)
    ensures SysInv(c, s') && SysShape(c, s') && SysShape(c, s)
  {
    hide ConfigOk, SysInv, SysShape, SysNext;
    StepRefines(c, s, s', step);
    ShapeOf(c, s);
    ShapeOf(c, s');
  }

  // A task on its own, decided: stored, counted and pushed, and its request has its response.
  lemma FinishAlone(c: Config, s: Sys, t: nat) returns (u: Sys, run: seq<Sys>, steps: seq<SysStep>)
    requires ConfigOk(c) && SysInv(c, s) && SysShape(c, s) && t < |s.a.phase| && s.a.phase[t].Decided?
    requires TasksOf(c.plan, c.plan.owner[t]) == {t}
    ensures Path(c, run, steps) && run[0] == s && run[|steps|] == u && SysInv(c, u) && SysShape(c, u)
    ensures HasResponse(u.a, c.plan.owner[t]) && u.views == s.views && t < |u.a.phase| && u.a.phase[t].Done?
  {
    OwnerLength(c, t);
    hide ConfigOk, SysInv, SysShape, SysNext, HasResponse, TasksOf, Shaped, Path;
    var s1 := StoreAlone(c, s, t);
    var s2 := CountAlone(c, s1, t);
    u := PushAlone(c, s2, t);
    run, steps := [s, s1, s2, u], [Outer(Store(t)), Outer(Count(t)), Outer(Push(t))];
    ThreeSteps(c, run, steps);
  }

  lemma ThreeSteps(c: Config, run: seq<Sys>, steps: seq<SysStep>)
    requires |run| == 4 && |steps| == 3
    requires SysNext(c, run[0], run[1], steps[0]) && SysNext(c, run[1], run[2], steps[1])
        && SysNext(c, run[2], run[3], steps[2])
    ensures Path(c, run, steps)
  {
    hide SysNext;
  }

  lemma OwnerLength(c: Config, t: nat)
    requires Shaped(c.plan) && t < |c.plan.tasks|
    ensures t < |c.plan.owner| && c.plan.owner[t] < |c.plan.requests|
  {
    assert TaskHome(c.plan, t);
  }

  lemma StoreAlone(c: Config, s: Sys, t: nat) returns (s': Sys)
    requires ConfigOk(c) && SysInv(c, s) && SysShape(c, s) && t < |s.a.phase| && s.a.phase[t].Decided?
    ensures SysNext(c, s, s', Outer(Store(t))) && SysInv(c, s') && SysShape(c, s') && s'.views == s.views
    ensures t < |s'.a.phase| && s'.a.phase[t].Stored?
  {
    hide ConfigOk, SysInv;
    var r, code := c.plan.owner[t], s.a.phase[t].code;
    var ret := if code != Success then s.a.ret[r := code] else s.a.ret;
    s' := s.(a := s.a.(phase := s.a.phase[t := Phase.Stored(code)], ret := ret));
    PathInv(c, s, s', Outer(Store(t)));
  }

  lemma CountAlone(c: Config, s: Sys, t: nat) returns (s': Sys)
    requires ConfigOk(c) && SysInv(c, s) && SysShape(c, s) && t < |s.a.phase| && s.a.phase[t].Stored?
    requires TasksOf(c.plan, c.plan.owner[t]) == {t}
    ensures SysNext(c, s, s', Outer(Count(t))) && SysInv(c, s') && SysShape(c, s') && s'.views == s.views
    ensures t < |s'.a.phase| && s'.a.phase[t].Counted? && s'.a.phase[t].last
  {
    OneLeft(c, s, t);
    hide ConfigOk, SysInv;
    var r, code := c.plan.owner[t], s.a.phase[t].code;
    s' := s.(a := s.a.(phase := s.a.phase[t := Counted(code, true)], counter := s.a.counter[r := 0]));
    PathInv(c, s, s', Outer(Count(t)));
  }

  lemma PushAlone(c: Config, s: Sys, t: nat) returns (s': Sys)
    requires ConfigOk(c) && SysInv(c, s) && SysShape(c, s) && t < |s.a.phase| && s.a.phase[t].Counted?
        && s.a.phase[t].last
    ensures SysNext(c, s, s', Outer(Push(t))) && SysInv(c, s') && SysShape(c, s') && s'.views == s.views
    ensures t < |s'.a.phase| && s'.a.phase[t].Done? && t < |c.plan.owner| && HasResponse(s'.a, c.plan.owner[t])
  {
    hide ConfigOk, SysInv;
    var r, code := c.plan.owner[t], s.a.phase[t].code;
    s' := s.(a := s.a.(phase := s.a.phase[t := Phase.Done(code, true)],
                       pushed := s.a.pushed + [Response(r, s.a.ret[r])]));
    PathInv(c, s, s', Outer(Push(t)));
    assert s'.a.pushed[|s.a.pushed|].request == r;
  }

  lemma OneLeft(c: Config, s: Sys, t: nat)
    requires ConfigOk(c) && SysInv(c, s) && SysShape(c, s) && t < |s.a.phase| && s.a.phase[t].Stored?
    requires TasksOf(c.plan, c.plan.owner[t]) == {t}
    ensures s.a.counter[c.plan.owner[t]] == 1
  {
    hide ConfigOk, ReadersOk, WorkersOk, LoadsOk;
    var r := c.plan.owner[t];
    assert TaskHome(c.plan, t) && CounterOk(c.plan, s.a, r);
    assert Uncounted(c.plan, s.a, r) == {t};
  }

  // A read of task t is out, its worker is at work, and the task is undecided and its range's only one.
  ghost predicate ReadAtWork(c: Config, s: Sys, w: nat, h: nat, t: nat)
  {
    && Shaped(c.plan) && SysShape(c, s) && w < |s.views| && s.views[w].specs != map[]
    && h in s.views[w].out && h !in s.views[w].landed && h in s.views[w].owner && s.views[w].owner[h].id == t
    && t < |c.plan.tasks| && s.a.phase[t] == Todo && c.plan.owner[t] < |c.plan.requests|
    && TasksOf(c.plan, c.plan.owner[t]) == {t}
  }

  // Otherwise it is not free: a worker that gives up while a read is out answers the read's range, and the
  // late read may still write there.
  lemma LateReadAfterAnswer(c: Config, s: Sys, w: nat, h: nat, t: nat, code: ResponseCode)
    returns (u: Sys, run: seq<Sys>, steps: seq<SysStep>)
    requires ConfigOk(c) && SysInv(c, s) && ReadAtWork(c, s, w, h, t) && code != Success
    ensures Path(c, run, steps) && run[0] == s && run[|steps|] == u && SysInv(c, u)
    ensures Shaped(c.plan) && t < |c.plan.tasks| && c.plan.owner[t] < |c.plan.requests|
    ensures HasResponse(u.a, c.plan.owner[t]) && !Untouched(c, u, c.plan.owner[t])
  {
    hide ConfigOk, SysInv, PlanGood, PlacesFit, WI.Inv, AllFromLoads, LandedKept, WV.MovesTo, Shaped, Path;
    hide HasResponse, Untouched, AtRest;
    WorkerAt(c, s, w);
    HandleKnown(c, s, w, h);
    OwnerLength(c, t);
    AbortMove(s.views[w], code);
    var v' := GivenUp(s.views[w], code);
    var s1 := s.(views := s.views[w := v']);
    PathInv(c, s, s1, Worker(w, WV.Abort(code)));
    var s2 := s1.(a := s1.a.(phase := s1.a.phase[t := Decided(v'.outcomes[t])]));
    PathInv(c, s1, s2, Emit(w, t));
    u, run, steps := FinishAlone(c, s2, t);
    StillOut(u, w, h, t);
    NotAtRest(c, u, c.plan.owner[t], t);
    TwoBefore(c, s, s1, s2, Worker(w, WV.Abort(code)), Emit(w, t), run, steps);
    run, steps := [s, s1] + run, [Worker(w, WV.Abort(code)), Emit(w, t)] + steps;
  }

  lemma StillOut(u: Sys, w: nat, h: nat, t: nat)
    requires w < |u.views| && h in u.views[w].out && h !in u.views[w].landed && h in u.views[w].owner
    requires u.views[w].owner[h].id == t
    ensures !AtRest(u, t)
  {
  }

  lemma {:induction false} TwoBefore(c: Config, s: Sys, s1: Sys, s2: Sys, x: SysStep, y: SysStep, run: seq<Sys>,
                                     steps: seq<SysStep>)
    requires SysNext(c, s, s1, x) && SysNext(c, s1, s2, y) && Path(c, run, steps) && run[0] == s2
    ensures Path(c, [s, s1] + run, [x, y] + steps) && ([s, s1] + run)[|steps| + 2] == run[|steps|]
  {
    hide SysNext;
    var run', steps' := [s, s1] + run, [x, y] + steps;
    forall i | 0 <= i < |steps'| ensures SysNext(c, run'[i], run'[i + 1], steps'[i]) {
      if i >= 2 {
        assert run'[i] == run[i - 2] && run'[i + 1] == run[i - 1] && steps'[i] == steps[i - 2];
      }
    }
  }

  // ---------------------------------------------------------------- the next request in the same memory

  lemma StoreInside(c: Config, s: Sys, s': Sys, b: nat, x: nat)
    requires ConfigOk(c) && SysInv(c, s) && SysNext(c, s, s', Read(b)) && !InSomeWindow(c.plan, x)
    ensures s'.a.memory(x) == s.a.memory(x)
  {
    ReaderAt(c, s, b);
    GoodPlan(c);
    ShapeOf(c, s);
    hide ConfigOk, SysInv, PlanGood, ReaderFits, ReaderOk, PlacesFit, Shaped, Answers.Open, SameShape, InWindow;
    if s'.a.memory(x) != s.a.memory(x) {
      StoreOpen(c, s.a, c.readers[b], s.pos[b], x);
    }
  }

  lemma FillInside(c: Config, s: Sys, s': Sys, w: nat, h: nat, x: nat)
    requires ConfigOk(c) && SysInv(c, s) && SysNext(c, s, s', Fill(w, h)) && !InSomeWindow(c.plan, x)
    ensures s'.a.memory(x) == s.a.memory(x)
  {
    hide ConfigOk, SysInv, WI.Inv, WI.OwnersOk, AllFromLoads, LandedKept, TaskFits, FromLoad, InWindow;
    WorkerAt(c, s, w);
    InvOwners(s.views[w]);
    OwnerWindow(c, s.taken, w, s.views[w], h);
  }

  // What is written lies in some task's window.
  lemma WritesInside(c: Config, s: Sys, s': Sys, step: SysStep, x: nat)
    requires ConfigOk(c) && SysInv(c, s) && SysNext(c, s, s', step) && !step.Elsewhere? && !InSomeWindow(c.plan, x)
    ensures s'.a.memory(x) == s.a.memory(x)
  {
    hide ConfigOk, SysInv, InSomeWindow, WV.MovesTo, BytesAt, HomeSent, Answers.Next, AfterEvent;
    match step
    case Read(b) => StoreInside(c, s, s', b, x);
    case Fill(w, h) => FillInside(c, s, s', w, h, x);
    case Outer(y) => OuterSame(c, s, s', y);
    case _ =>
  }

  lemma OuterSame(c: Config, s: Sys, s': Sys, y: Step)
    requires SysNext(c, s, s', Outer(y))
    ensures s'.a.memory == s.a.memory
  {
  }

  // A later request whose destinations overlap only with tasks at rest sees what is left of an earlier one,
  // late reads included, as the rest of the process: nobody writes to its destinations but itself.
  lemma NextRequestUndisturbed(c: Config, s: Sys, s': Sys, step: SysStep, next: Config, u: Sys)
    requires ConfigOk(c) && SysInv(c, s) && SysNext(c, s, s', step) && !step.Elsewhere?
    requires forall t: nat, x: nat :: InWindow(c.plan, t, x) && InSomeWindow(next.plan, x) ==> AtRest(s, t)
    requires Shaped(next.plan) && u.a.memory == s.a.memory
    ensures SysNext(next, u, u.(a := u.a.(memory := s'.a.memory)), Elsewhere)
  {
    hide ConfigOk, SysInv, SysNext, InWindow, AtRest, Shaped;
    forall x: nat | InSomeWindow(next.plan, x) ensures s'.a.memory(x) == s.a.memory(x) {
      if InSomeWindow(c.plan, x) {
        var t: nat :| InWindow(c.plan, t, x);
        RestStep(c, s, s', step, t);
      } else {
        WritesInside(c, s, s', step, x);
      }
    }
    hide InSomeWindow;
    ElsewhereIs(next, u, s'.a.memory);
  }

  lemma ElsewhereIs(c: Config, u: Sys, memory: Memory)
    requires Shaped(c.plan) && forall x: nat :: InSomeWindow(c.plan, x) ==> memory(x) == u.a.memory(x)
    ensures SysNext(c, u, u.(a := u.a.(memory := memory)), Elsewhere)
  {
    hide InSomeWindow, Shaped;
  }
}

// The whole system always gets there: every step but a write of the backend uses up work, and until every task
// has been accounted for something can go on, without any failure of the backend.
module SystemProgress {
  import opened Codes
  import opened Seqs
  import opened Batches
  import opened Events
  import opened Traces
  import opened Answers
  import opened System
  import opened SystemSteps
  import opened SystemRuns
  import WM = WorkerModel
  import WI = WorkerInvariant
  import WA = WorkerAdmit
  import WS = WorkerSteps
  import WV = WorkerMoves
  import WO = WorkerOwners

  // ---------------------------------------------------------------- work left

  // A pending chunk is taken, lands and is accounted for; a workload is answered or aborted.
  function ViewWork(v: WI.View): nat
  {
    3 * |v.pending| + |v.out| + |v.out - v.landed| + |v.specs|
  }

  ghost function LoadWork(c: Config, taken: map<nat, nat>, j: nat): nat
    requires c.cb > 0 && j < |c.loads|
  {
    if j in taken then 0 else 3 * |WM.Plan(c.loads[j].work, c.cb)| + 2
  }

  ghost function ViewsWork(s: Sys): seq<nat>
  {
    seq(|s.views|, w requires 0 <= w < |s.views| => ViewWork(s.views[w]))
  }

  ghost function LoadsWork(c: Config, s: Sys): seq<nat>
    requires c.cb > 0
  {
    seq(|c.loads|, j requires 0 <= j < |c.loads| => LoadWork(c, s.taken, j))
  }

  ghost function ReadsWork(c: Config, s: Sys): seq<nat>
    requires |s.pos| == |c.readers|
  {
    seq(|s.pos|, b requires 0 <= b < |s.pos| => Rest(c.readers[b], s.pos[b]))
  }

  function Rest(r: Reader, n: nat): nat { if n < |r.trace| then |r.trace| - n else 0 }

  ghost function Left(c: Config, s: Sys): nat
    requires c.cb > 0 && SysShape(c, s)
  {
    Work(s.a.phase) + AllDispatch(s.a.dispatch, c.plan.parts) + Sum(ReadsWork(c, s)) + Sum(ViewsWork(s))
      + Sum(LoadsWork(c, s))
  }

  lemma {:induction false} SumAt(a: seq<nat>, b: seq<nat>, i: nat)
    requires |a| == |b| && i < |a| && forall k :: 0 <= k < |a| && k != i ==> a[k] == b[k]
    ensures Sum(a) - a[i] == Sum(b) - b[i]
  {
    var n := |a| - 1;
    if i == n {
      assert a[..n] == b[..n];
    } else {
      SumAt(a[..n], b[..n], i);
    }
  }

  // ---------------------------------------------------------------- every step uses up work

  lemma OuterUses(c: Config, a: State, a': State, x: Step)
    requires Shaped(c.plan) && Answers.Next(c.plan, c.files, a, a', x) && !x.Write?
    ensures SameShape(c.plan, a) && SameShape(c.plan, a')
    ensures Work(a'.phase) + AllDispatch(a'.dispatch, c.plan.parts) < Work(a.phase)
        + AllDispatch(a.dispatch, c.plan.parts)
  {
    match x
    case Commit(i) => DispatchDrops(a.dispatch, c.plan.parts, i, a'.dispatch[i]);
    case Send(i) => DispatchDrops(a.dispatch, c.plan.parts, i, a'.dispatch[i]);
    case Throw(i) => DispatchDrops(a.dispatch, c.plan.parts, i, a'.dispatch[i]);
    case Decide(t, code) => WorkDrops(a.phase, t, a'.phase[t]);
    case Store(t) => WorkDrops(a.phase, t, a'.phase[t]);
    case Count(t) => WorkDrops(a.phase, t, a'.phase[t]);
    case Push(t) => WorkDrops(a.phase, t, a'.phase[t]);
  }

  lemma Fewer<T>(a: set<T>, b: set<T>, x: T)
    requires a <= b && x in b && x !in a
    ensures |a| < |b|
  {
    assert a <= b - {x};
    Smaller(a, b - {x});
  }

  lemma Smaller<T>(a: set<T>, b: set<T>)
    requires a <= b
    ensures |a| <= |b|
  {
    assert b == a + (b - a);
  }

  lemma FewerSpecs(a: map<nat, WI.Spec>, b: map<nat, WI.Spec>)
    requires a.Keys <= b.Keys
    ensures |a| <= |b|
  {
    Smaller(a.Keys, b.Keys);
    assert |a| == |a.Keys| && |b| == |b.Keys|;
  }

  lemma TakeUses(v: WI.View)
    requires |v.pending| > 0
    ensures ViewWork(WS.TakeView(v)) < ViewWork(v)
  {
    var h := v.pending[0].handle;
    var w := WS.TakeView(v);
    assert w.out - w.landed <= (v.out - v.landed) + {h};
    Smaller(w.out - w.landed, (v.out - v.landed) + {h});
  }

  lemma OutUses(v: WI.View, w: WI.View, h: nat)
    requires h in v.out && w.out == v.out - {h} && w.landed == v.landed && w.pending == v.pending
        && w.specs.Keys <= v.specs.Keys
    ensures ViewWork(w) < ViewWork(v)
  {
    Smaller(w.out - w.landed, v.out - v.landed);
    FewerSpecs(w.specs, v.specs);
  }

  lemma AbortUses(v: WI.View, w: WI.View)
    requires w.out == v.out && w.landed == v.landed && w.pending == [] && w.specs == map[] && v.specs != map[]
    ensures ViewWork(w) < ViewWork(v)
  {
    assert v.specs.Keys != {};
  }

  lemma OwnUses(v: WI.View, w: WI.View, m: WV.Move)
    requires OwnMove(v, m) && WV.MovesTo(v, w, m)
    ensures ViewWork(w) < ViewWork(v)
  {
    hide ViewWork, WM.Report;
    match m
    case Take => TakeUses(v);
    case Complete(base, h, ret) => OutUses(v, w, h);
    case Late(h) => OutUses(v, w, h);
    case Abort(code) => AbortUses(v, w);
  }

  lemma AdmitUses(v: WI.View, w: WI.View, m: WV.Move)
    requires (m.Admit? || m.Discard?) && WV.MovesTo(v, w, m)
    ensures ViewWork(w) <= ViewWork(v) + 3 * |WM.Plan(m.w, v.cb)| + 1
  {
    hide WM.Report, WM.AllTasks, WM.NonZero, WM.Layout, WA.FreshIds, WA.AddKnown, WA.FinishZero, WA.OwnersFrom;
    if m.Admit? && |WI.SpecOf(m.w, v.cb).plan| > 0 {
      assert |WA.ChunksFrom(v.counter, WI.SpecOf(m.w, v.cb).plan)| == |WM.Plan(m.w, v.cb)|;
      assert w.specs.Keys <= v.specs.Keys + {v.counter};
      Smaller(w.specs.Keys, v.specs.Keys + {v.counter});
      assert |w.specs| == |w.specs.Keys| && |v.specs| == |v.specs.Keys|;
    }
  }

  lemma OuterLeft(c: Config, s: Sys, s': Sys, x: Step)
    requires c.cb > 0 && SysShape(c, s) && SysShape(c, s') && s' == s.(a := s'.a)
    requires Answers.Next(c.plan, c.files, s.a, s'.a, x) && !x.Write?
    ensures Left(c, s') < Left(c, s)
  {
    OuterUses(c, s.a, s'.a, x);
    assert ReadsWork(c, s') == ReadsWork(c, s) && ViewsWork(s') == ViewsWork(s) && LoadsWork(c, s') == LoadsWork(c, s);
  }

  lemma ReadLeft(c: Config, s: Sys, s': Sys, b: nat)
    requires c.cb > 0 && SysShape(c, s) && SysShape(c, s') && SysNext(c, s, s', Read(b))
    requires s'.a.dispatch == s.a.dispatch && Work(s'.a.phase) <= Work(s.a.phase)
    ensures Left(c, s') < Left(c, s)
  {
    hide AfterEvent, HomeSent;
    assert ViewsWork(s') == ViewsWork(s) && LoadsWork(c, s') == LoadsWork(c, s);
    SumAt(ReadsWork(c, s), ReadsWork(c, s'), b);
  }

  lemma ReadWork(c: Config, a: State, a': State, x: Step)
    requires Shaped(c.plan) && Answers.Next(c.plan, c.files, a, a', x) && (x.Write? || x.Decide?)
    ensures a'.dispatch == a.dispatch && Work(a'.phase) <= Work(a.phase)
  {
    if x.Decide? {
      WorkDrops(a.phase, x.t, a'.phase[x.t]);
    }
  }

  // A worker's view has less to do, and nothing else changed.
  lemma ViewLeft(c: Config, s: Sys, s': Sys, w: nat)
    requires c.cb > 0 && SysShape(c, s) && SysShape(c, s') && w < |s.views|
    requires s' == s.(views := s.views[w := s'.views[w]]) && ViewWork(s'.views[w]) < ViewWork(s.views[w])
    ensures Left(c, s') < Left(c, s)
  {
    assert ReadsWork(c, s') == ReadsWork(c, s) && LoadsWork(c, s') == LoadsWork(c, s);
    SumAt(ViewsWork(s), ViewsWork(s'), w);
  }

  lemma AdmitLeft(c: Config, s: Sys, s': Sys, w: nat, j: nat, m: WV.Move)
    requires c.cb > 0 && SysShape(c, s) && SysShape(c, s') && SysNext(c, s, s', Admit(w, j, m)) && s.views[w].cb == c.cb
    ensures Left(c, s') < Left(c, s)
  {
    hide WV.MovesTo, ViewWork, HomeSent, WM.Plan;
    AdmitUses(s.views[w], s'.views[w], m);
    assert ReadsWork(c, s') == ReadsWork(c, s);
    SumAt(ViewsWork(s), ViewsWork(s'), w);
    SumAt(LoadsWork(c, s), LoadsWork(c, s'), j);
  }

  lemma LandLeft(c: Config, s: Sys, s': Sys, w: nat, hs: set<nat>)
    requires c.cb > 0 && SysShape(c, s) && SysShape(c, s') && SysNext(c, s, s', Land(w, hs))
    ensures Left(c, s') < Left(c, s)
  {
    hide BytesAt;
    var v, v' := s.views[w], s'.views[w];
    var h :| h in hs;
    Fewer(v'.out - v'.landed, v.out - v.landed, h);
    ViewLeft(c, s, s', w);
  }

  lemma WorkerLeft(c: Config, s: Sys, s': Sys, w: nat, m: WV.Move)
    requires c.cb > 0 && SysShape(c, s) && SysShape(c, s') && SysNext(c, s, s', Worker(w, m))
    ensures Left(c, s') < Left(c, s)
  {
    hide WV.MovesTo, OwnMove, ViewWork;
    OwnUses(s.views[w], s'.views[w], m);
    ViewLeft(c, s, s', w);
  }

  // A step of the backend or of the rest of the process that only writes memory.
  ghost predicate OnlyWrites(step: SysStep) { step.Fill? || step.Elsewhere? }

  lemma WritesLeft(c: Config, s: Sys, s': Sys, step: SysStep)
    requires c.cb > 0 && SysShape(c, s) && SysShape(c, s') && SysNext(c, s, s', step) && OnlyWrites(step)
    ensures Left(c, s') == Left(c, s)
  {
    assert ReadsWork(c, s') == ReadsWork(c, s) && ViewsWork(s') == ViewsWork(s) && LoadsWork(c, s') == LoadsWork(c, s);
  }

  lemma ShapeOf(c: Config, s: Sys)
    requires ConfigOk(c) && SysInv(c, s)
    ensures c.cb > 0 && SysShape(c, s) && Shaped(c.plan)
  {
  }

  // Every step but a mere write to memory uses up work, which no step adds to: a run is no longer than the
  // work it starts with, the backend's writes aside.
  lemma StepsAreFinite(c: Config, s: Sys, s': Sys, step: SysStep)
    requires ConfigOk(c) && SysInv(c, s) && SysNext(c, s, s', step)
    ensures c.cb > 0 && SysShape(c, s) && SysShape(c, s')
    ensures if OnlyWrites(step) then Left(c, s') == Left(c, s) else Left(c, s') < Left(c, s)
  {
    hide ConfigOk, SysShape, Left, SysNext, Answers.Next, EventStep, Shaped, SysInv;
    StepRefines(c, s, s', step);
    ShapeOf(c, s);
    ShapeOf(c, s');
    match step
    case Outer(x) => OnlyAnswers(c, s, s', step, x);
    case DrainTask(t) => OnlyAnswers(c, s, s', step, Decide(t, UnknownError));
    case Read(b) => EventLeft(c, s, s', b);
    case Admit(w, j, m) =>
      AdmitsAt(c, s, s', w, j, m);
      WorkerAt(c, s, w);
      AdmitLeft(c, s, s', w, j, m);
    case Worker(w, m) => WorkerLeft(c, s, s', w, m);
    case Land(w, hs) => LandLeft(c, s, s', w, hs);
    case Fill(w, h) => WritesLeft(c, s, s', step);
    case Elsewhere => WritesLeft(c, s, s', step);
    case Emit(w, t) => EmitLeft(c, s, s', w, t);
  }

  lemma OnlyAnswers(c: Config, s: Sys, s': Sys, step: SysStep, x: Step)
    requires c.cb > 0 && SysShape(c, s) && SysShape(c, s') && SysNext(c, s, s', step)
        && (step == Outer(x) || step.DrainTask?)
    requires Answers.Next(c.plan, c.files, s.a, s'.a, x) && (step.DrainTask? ==> x.Decide?)
    ensures Left(c, s') < Left(c, s)
  {
    hide Left, Answers.Next, SysShape;
    OuterLeft(c, s, s', x);
  }

  lemma EmitLeft(c: Config, s: Sys, s': Sys, w: nat, t: nat)
    requires c.cb > 0 && SysShape(c, s) && SysShape(c, s') && SysNext(c, s, s', Emit(w, t))
    requires Follows(c, s.a, s'.a, AnswerStep(c, s, Emit(w, t)))
    ensures Left(c, s') < Left(c, s)
  {
    hide Left, Answers.Next, SysShape;
    OuterLeft(c, s, s', Decide(t, s.views[w].outcomes[t]));
  }

  lemma EventLeft(c: Config, s: Sys, s': Sys, b: nat)
    requires c.cb > 0 && SysShape(c, s) && SysShape(c, s') && SysNext(c, s, s', Read(b))
    requires Follows(c, s.a, s'.a, AnswerStep(c, s, Read(b)))
    ensures Left(c, s') < Left(c, s)
  {
    hide Left, SysShape, HomeSent, Answers.Next;
    var x := AnswerStep(c, s, Read(b));
    if x.Some? {
      ReadWork(c, s.a, s'.a, x.value);
    }
    ReadLeft(c, s, s', b);
  }

  lemma AdmitsAt(c: Config, s: Sys, s': Sys, w: nat, j: nat, m: WV.Move)
    requires SysNext(c, s, s', Admit(w, j, m))
    ensures w < |s.views|
  {
    hide WV.MovesTo, HomeSent;
  }

  // ---------------------------------------------------------------- something can go on

  // A step of which no failure is part: no read is reported as failed, no worker gives up, no push throws. A
  // worker submits within its window.
  ghost predicate Faultless(c: Config, s: Sys, step: SysStep)
  {
    match step
    case Outer(x) => !x.Throw?
    case Admit(_, _, m) => m.Admit?
    case Worker(w, m) =>
      && !m.Abort? && (m.Complete? ==> m.ret == Success)
      && (m.Take? ==> w < |s.views| && s.views[w].credit < c.window)
    case _ => true
  }

  // One step, after a write of the backend if need be, that uses up work.
  ghost predicate Advances(c: Config, s: Sys, u: Sys, s': Sys, step: SysStep)
  {
    && (u == s || exists w, h :: SysNext(c, s, u, Fill(w, h)))
    && SysNext(c, u, s', step) && Faultless(c, u, step) && !OnlyWrites(step)
  }

  // A task with an outcome goes its way to the end.
  lemma FinishOn(c: Config, s: Sys, t: nat) returns (s': Sys, step: SysStep)
    requires SysShape(c, s) && t < |s.a.phase| && !s.a.phase[t].Todo? && !s.a.phase[t].Done?
    ensures Advances(c, s, s, s', step)
  {
    var p, a := c.plan, s.a;
    match a.phase[t]
    case Decided(code) =>
      step := Outer(Store(t));
      s' := s.(a := a.(phase := a.phase[t := Phase.Stored(code)],
        ret := if code != Success then a.ret[p.owner[t] := code] else a.ret));
    case Stored(code) =>
      step := Outer(Count(t));
      s' := s.(a := a.(phase := a.phase[t := Counted(code, a.counter[p.owner[t]] == 1)],
                       counter := a.counter[p.owner[t] := Less(a.counter[p.owner[t]])]));
    case Counted(code, last) =>
      step := Outer(Push(t));
      s' := s.(a := a.(phase := a.phase[t := Phase.Done(code, last)],
                       pushed := if last then a.pushed + [Response(p.owner[t], a.ret[p.owner[t]])] else a.pushed));
  }

  // A task that is not with its workers yet: its submission's dispatch goes on, or the drain fails it.
  lemma DispatchOn(c: Config, s: Sys, t: nat) returns (s': Sys, step: SysStep)
    requires SysShape(c, s) && t < |s.a.phase| && s.a.phase[t] == Todo && !HomeSent(s.a, c.plan.home[t])
    ensures Advances(c, s, s, s', step)
  {
    var a := s.a;
    assert TaskHome(c.plan, t);
    var i := c.plan.home[t].submission;
    match a.dispatch[i]
    case Planned =>
      step := Outer(Commit(i));
      s' := s.(a := a.(dispatch := a.dispatch[i := Going(0)]));
    case Going(next) =>
      step := Outer(Send(i));
      s' := s.(a := a.(dispatch := a.dispatch[i := Going(next + 1)]));
    case Thrown(next) =>
      step := DrainTask(t);
      s' := s.(a := a.(phase := a.phase[t := Decided(UnknownError)]));
  }

  // A batch's thread goes on until all of its tasks are finished.
  lemma BatchOn(c: Config, s: Sys, t: nat) returns (s': Sys, step: SysStep)
    requires ConfigOk(c) && SysInv(c, s) && t < |s.a.phase| && s.a.phase[t] == Todo && HomeSent(s.a, c.plan.home[t])
    requires t < |c.place| && c.place[t].InBatch?
    ensures Advances(c, s, s, s', step)
  {
    hide Answers.Inv, PlanGood, WorkersOk, LoadsOk, Good;
    var b, k := c.place[t].reader, c.place[t].k;
    assert PlaceFits(c.readers, c.loads, c.place[t], t);
    var r, n := c.readers[b], s.pos[b];
    assert ReaderFits(c.plan, c.files, r) && ReaderOk(c, s.a, r, n);
    assert TaskRead(c, s.a, r.trace[..n], t, k);
    assert r.trace[..|r.trace|] == r.trace && DoneIn(r.trace, k);
    step := Read(b);
    s' := s.(pos := s.pos[b := n + 1], a := AfterEvent(r, s.a, r.trace[n]));
  }

  // A load nobody has taken is taken by some worker.
  lemma TakeLoadOn(c: Config, s: Sys, j: nat) returns (s': Sys, step: SysStep)
    requires ConfigOk(c) && SysInv(c, s) && j < |c.loads| && j !in s.taken && HomeSent(s.a, c.loads[j].home)
    ensures Advances(c, s, s, s', step)
  {
    hide ConfigOk, SysInv, WI.Inv, AllFromLoads, LandedKept, WV.Enqueued, WM.AllTasks, PlanGood, PlacesFit, Shaped;
    GoodPlan(c);
    WindowOf(c);
    ShapeOf(c, s);
    WorkerAt(c, s, 0);
    FreshLoad(c, s.taken, s.views[0], j);
    var m := WV.Move.Admit(c.loads[j].work);
    step := Admit(0, j, m);
    s' := s.(taken := s.taken[j := 0], views := s.views[0 := WV.Enqueued(s.views[0], c.loads[j].work)]);
  }

  // None of its tasks is known to the worker, as they come with this load only.
  lemma FreshLoad(c: Config, taken: map<nat, nat>, v: WI.View, j: nat)
    requires ConfigOk(c) && AllFromLoads(c, taken, 0, v) && j < |c.loads| && j !in taken
    ensures WA.FreshIds(v.known, WM.AllTasks(c.loads[j].work))
  {
    GoodPlan(c);
    hide WM.AllTasks, PlanGood, AllFromLoads;
    var ts := WM.AllTasks(c.loads[j].work);
    assert LoadFits(c.plan, c.files, c.objects, c.loads[j]);
    forall ft | ft in ts ensures ft.task.id !in v.known {
      var i :| 0 <= i < |ts| && ts[i] == ft;
      assert PlacedAt(c.place, ft.task.id, InLoad(j, i));
      if ft.task.id in v.known {
        KnownPlace(c, taken, 0, v, ft.task.id);
      }
    }
  }

  lemma EmitOn(c: Config, s: Sys, w: nat, t: nat) returns (s': Sys, step: SysStep)
    requires SysShape(c, s) && w < |s.views| && t < |s.a.phase| && t in s.views[w].outcomes && s.a.phase[t] == Todo
    ensures Advances(c, s, s, s', step)
  {
    step := Emit(w, t);
    s' := s.(a := s.a.(phase := s.a.phase[t := Decided(s.views[w].outcomes[t])]));
  }

  // ---------------------------------------------------------------- a worker with something to do

  // A live workload has a chunk that is still pending or out.
  lemma SomeAlive(v: WI.View, base: nat) returns (h: nat)
    requires WI.Inv(v) && base in v.specs
    ensures h in WI.Alive(v) && WI.InBlock(base, v.specs[base], h)
  {
    hide WI.Inv, WI.At;
    WV.InvBlock(v, base);
    InvNoneDone(v, base);
    AtCounts(v, base);
    var b := v.blocks[base];
    assert WI.Unfinished(b.tasks) != {};
    var k :| k in WI.Unfinished(b.tasks);
    assert WI.Left(base, v.specs[base], k, WI.Alive(v)) != {};
    h :| h in WI.Left(base, v.specs[base], k, WI.Alive(v));
  }

  lemma AtCounts(v: WI.View, base: nat)
    requires WI.At(v, base)
    ensures WI.Counts(base, v.blocks[base], v.specs[base], WI.Alive(v))
  {
    hide WI.Counts, WI.Judged, WI.Reported;
  }

  lemma InvNoneDone(v: WI.View, base: nat)
    requires WI.Inv(v) && base in v.specs
    ensures base in v.blocks && v.blocks[base].remainingTasks > 0
  {
    WV.InvBooks(v);
    hide WI.Core;
  }

  lemma CreditHandle(v: WI.View) returns (h: nat)
    requires WI.Inv(v) && v.credit > 0
    ensures h in v.out && WI.Live(v.specs, h)
  {
    InvCredit(v);
    hide WI.Inv;
    assert WI.LiveOut(v.specs, v.out) != {};
    h :| h in WI.LiveOut(v.specs, v.out);
  }

  lemma InvCredit(v: WI.View)
    requires WI.Inv(v)
    ensures WI.CreditOk(v.credit, v.specs, v.out)
  {
    hide WI.OwnersOk, WI.BlocksOk, WI.PendingOk, WI.HomeOk, WI.KnownOk, WI.CreditOk;
  }

  ghost predicate CanComplete(c: Config, s: Sys, w: nat, base: nat, h: nat)
  {
    && w < |s.views| && base in s.views[w].specs && WI.InBlock(base, s.views[w].specs[base], h) && h in s.views[w].out
  }

  // A read that landed is accounted for.
  lemma CompleteOn(c: Config, s: Sys, w: nat, base: nat, h: nat) returns (s': Sys, step: SysStep)
    requires ConfigOk(c) && SysInv(c, s) && CanComplete(c, s, w, base, h) && h in s.views[w].landed
    ensures Advances(c, s, s, s', step)
  {
    hide ConfigOk, SysInv, WI.Inv, AllFromLoads, LandedKept, WV.AfterComplete, WS.Ready, PlanGood, PlacesFit, Shaped;
    GoodPlan(c);
    WorkerAt(c, s, w);
    var v := s.views[w];
    WV.CompleteKeeps(v, base, h, Success);
    step := Worker(w, WV.Complete(base, h, Success));
    s' := s.(views := s.views[w := WV.AfterComplete(v, base, h, Success)]);
  }

  // A read that is out: the backend writes the object's bytes, and the read has landed.
  lemma LandOn(c: Config, s: Sys, w: nat, h: nat) returns (u: Sys, s': Sys, step: SysStep)
    requires ConfigOk(c) && SysInv(c, s) && w < |s.views| && h in s.views[w].out && h !in s.views[w].landed
    ensures Advances(c, s, u, s', step)
  {
    hide ConfigOk, SysInv, WI.Inv, WI.Core, WI.OwnersOk, AllFromLoads, LandedKept, PlanGood, PlacesFit, Shaped;
    GoodPlan(c);
    WorkerAt(c, s, w);
    var v := s.views[w];
    InvOwners(v);
    WO.NoWriteAfterSuccess(v, h);
    var r := v.owner[h].read;
    u := s.(a := s.a.(memory := (x: nat) =>
      if r.buffer <= x < r.buffer + r.bytesize then c.objects(r.source, r.offset + (x - r.buffer)) else s.a.memory(x)));
    assert SysNext(c, s, u, Fill(w, h));
    step := SysStep.Land(w, {h});
    s' := u.(views := u.views[w := v.(landed := v.landed + {h})]);
  }

  lemma OutOn(c: Config, s: Sys, w: nat, h: nat) returns (u: Sys, s': Sys, step: SysStep)
    requires ConfigOk(c) && SysInv(c, s) && w < |s.views| && h in s.views[w].out && WI.Live(s.views[w].specs, h)
    ensures Advances(c, s, u, s', step)
  {
    hide ConfigOk, SysInv, Advances;
    if h in s.views[w].landed {
      var base :| base in s.views[w].specs && WI.InBlock(base, s.views[w].specs[base], h);
      u := s;
      s', step := CompleteOn(c, s, w, base, h);
    } else {
      u, s', step := LandOn(c, s, w, h);
    }
  }

  lemma TakeOn(c: Config, s: Sys, w: nat) returns (s': Sys, step: SysStep)
    requires ConfigOk(c) && SysInv(c, s) && w < |s.views| && |s.views[w].pending| > 0 && s.views[w].credit < c.window
    ensures Advances(c, s, s, s', step)
  {
    hide ConfigOk, SysInv, PlanGood, PlacesFit, Shaped, WS.TakeView;
    GoodPlan(c);
    step := Worker(w, WV.Take);
    s' := s.(views := s.views[w := WS.TakeView(s.views[w])]);
  }

  lemma WindowOf(c: Config)
    requires ConfigOk(c)
    ensures c.window > 0 && c.cb > 0 && c.workers > 0
  {
  }

  // A worker with a live workload submits, or a read of its goes on.
  lemma WorkerOn(c: Config, s: Sys, w: nat, base: nat) returns (u: Sys, s': Sys, step: SysStep)
    requires ConfigOk(c) && SysInv(c, s) && w < |s.views| && base in s.views[w].specs
    ensures Advances(c, s, u, s', step)
  {
    hide ConfigOk, SysInv, WI.Inv, AllFromLoads, LandedKept, Advances;
    WorkerAt(c, s, w);
    WindowOf(c);
    var v := s.views[w];
    var h := SomeAlive(v, base);
    if h in v.out {
      u, s', step := OutOn(c, s, w, h);
    } else if v.credit < c.window {
      u := s;
      s', step := TakeOn(c, s, w);
    } else {
      var g := CreditHandle(v);
      u, s', step := OutOn(c, s, w, g);
    }
  }

  // A task of a load: the load is taken, the task's answer is passed on, or its worker goes on.
  lemma LoadOn(c: Config, s: Sys, t: nat) returns (u: Sys, s': Sys, step: SysStep)
    requires ConfigOk(c) && SysInv(c, s) && t < |s.a.phase| && s.a.phase[t] == Todo && HomeSent(s.a, c.plan.home[t])
    requires t < |c.place| && c.place[t].InLoad?
    ensures Advances(c, s, u, s', step)
  {
    hide ConfigOk, SysInv, Advances, Shaped;
    var j := c.place[t].load;
    ShapeOf(c, s);
    LoadHome(c, t);
    u := s;
    if j !in s.taken {
        s', step := TakeLoadOn(c, s, j);
    } else {
      var w := s.taken[j];
      TakenKnows(c, s, t);
      WorkerAt(c, s, w);
      hide ConfigOk, SysInv, Advances, WI.Inv, AllFromLoads, LandedKept, Shaped;
      if t in s.views[w].outcomes {
        s', step := EmitOn(c, s, w, t);
      } else {
        OpenTask(s.views[w], t);
        u, s', step := WorkerOn(c, s, w, s.views[w].known[t].home);
      }
    }
  }

  lemma OpenTask(v: WI.View, t: nat)
    requires WI.Inv(v) && t in v.known && t !in v.outcomes
    ensures v.known[t].home in v.specs
  {
    hide WI.OwnersOk, WI.BlocksOk, WI.PendingOk, WI.HomeOk, WI.CreditOk;
  }

  lemma LoadHome(c: Config, t: nat)
    requires ConfigOk(c) && t < |c.place| && c.place[t].InLoad? && t < |c.plan.tasks|
    ensures Shaped(c.plan) && c.place[t].load < |c.loads| && c.loads[c.place[t].load].home == c.plan.home[t]
  {
    GoodPlan(c);
    hide PlanGood;
    assert PlaceFits(c.readers, c.loads, c.place[t], t);
    var l := c.loads[c.place[t].load];
    assert LoadFits(c.plan, c.files, c.objects, l);
    assert WM.AllTasks(l.work)[c.place[t].i] in WM.AllTasks(l.work);
  }

  lemma TakenKnows(c: Config, s: Sys, t: nat)
    requires ConfigOk(c) && SysInv(c, s) && t < |c.place| && c.place[t].InLoad? && c.place[t].load in s.taken
    ensures s.taken[c.place[t].load] < |s.views| && t in s.views[s.taken[c.place[t].load]].known
  {
    hide PlanGood, Answers.Inv, ReadersOk, WorkersOk;
    var j := c.place[t].load;
    assert PlaceFits(c.readers, c.loads, c.place[t], t) && TakenOk(c, s.a, s.taken, s.views, j);
    assert WM.AllTasks(c.loads[j].work)[c.place[t].i] in WM.AllTasks(c.loads[j].work);
  }

  // Until every task has been accounted for, something can go on that needs no failure, whatever failed
  // before: the backend may deliver what it was asked for, and the system does the rest.
  lemma NeverStuck(c: Config, s: Sys) returns (u: Sys, s': Sys, step: SysStep)
    requires ConfigOk(c) && SysInv(c, s) && !Quiet(s.a)
    ensures Advances(c, s, u, s', step)
  {
    hide ConfigOk, SysInv, Advances, Shaped;
    ShapeOf(c, s);
    var t: nat :| t < |s.a.phase| && !s.a.phase[t].Done?;
    u := s;
    if s.a.phase[t] != Todo {
      s', step := FinishOn(c, s, t);
    } else if !HomeSent(s.a, c.plan.home[t]) {
      s', step := DispatchOn(c, s, t);
    } else if c.place[t].InBatch? {
      s', step := BatchOn(c, s, t);
    } else {
      u, s', step := LoadOn(c, s, t);
    }
  }

  // ---------------------------------------------------------------- every run can be finished

  ghost predicate Goes(c: Config, run: seq<Sys>, steps: seq<SysStep>)
  {
    |run| == |steps| + 1 && forall i :: 0 <= i < |steps| ==>
      SysNext(c, run[i], run[i + 1], steps[i]) && Faultless(c, run[i], steps[i])
  }

  lemma GoesFirst(c: Config, s: Sys, u: Sys, step: SysStep, run: seq<Sys>, steps: seq<SysStep>)
    requires Goes(c, run, steps) && run[0] == u && SysNext(c, s, u, step) && Faultless(c, s, step)
    ensures Goes(c, [s] + run, [step] + steps)
  {
    hide SysNext, Faultless;
    var run', steps' := [s] + run, [step] + steps;
    forall i | 0 <= i < |steps'|
      ensures SysNext(c, run'[i], run'[i + 1], steps'[i]) && Faultless(c, run'[i], steps'[i])
    {
      if i > 0 {
        assert run'[i] == run[i - 1] && run'[i + 1] == run[i] && steps'[i] == steps[i - 1];
      }
    }
  }

  // From every state of every run, whatever has failed so far, there is a way to go on without any further
  // failure until every task is accounted for.
  lemma {:induction false} CanFinish(c: Config, s: Sys) returns (run: seq<Sys>, steps: seq<SysStep>)
    requires ConfigOk(c) && SysInv(c, s)
    ensures Goes(c, run, steps) && run[0] == s && Quiet(run[|steps|].a)
    decreases if ConfigOk(c) && SysInv(c, s) then Left(c, s) else 0
  {
    hide ConfigOk, SysInv, SysNext, Left, Goes, Quiet, Faultless;
    if Quiet(s.a) {
      run, steps := [s], [];
      GoesNot(c, s);
    } else {
      var u, s', step := NeverStuck(c, s);
      Onward(c, s, u, s', step);
      run, steps := CanFinish(c, s');
      GoesFirst(c, u, s', step, run, steps);
      run, steps := [u] + run, [step] + steps;
      if u != s {
        var w, h :| SysNext(c, s, u, Fill(w, h));
        FillFaultless(c, s, w, h);
        GoesFirst(c, s, u, Fill(w, h), run, steps);
        run, steps := [s] + run, [Fill(w, h)] + steps;
      }
    }
  }

  lemma FillFaultless(c: Config, s: Sys, w: nat, h: nat)
    ensures Faultless(c, s, Fill(w, h))
  {
  }

  lemma Onward(c: Config, s: Sys, u: Sys, s': Sys, step: SysStep)
    requires ConfigOk(c) && SysInv(c, s) && Advances(c, s, u, s', step)
    ensures SysInv(c, u) && SysInv(c, s') && c.cb > 0 && SysShape(c, s) && SysShape(c, s') && Left(c, s') < Left(c, s)
  {
    hide ConfigOk, SysInv, SysShape, SysNext, Left, Faultless;
    if u != s {
      var w, h :| SysNext(c, s, u, Fill(w, h));
      StepRefines(c, s, u, Fill(w, h));
      StepsAreFinite(c, s, u, Fill(w, h));
    }
    StepRefines(c, u, s', step);
    StepsAreFinite(c, u, s', step);
  }

  lemma GoesNot(c: Config, s: Sys)
    ensures Goes(c, [s], [])
  {
  }
}

// Every step of the whole system is a step of the answers' protocol, or none, and keeps the invariant.
module SystemSteps {
  import opened Codes
  import opened Options
  import opened Batches
  import opened Events
  import opened Traces
  import opened Answers
  import opened System
  import WM = WorkerModel
  import WI = WorkerInvariant
  import WV = WorkerMoves
  import WO = WorkerOwners

  // ---------------------------------------------------------------- memory written by one task only

  // Memory changed inside the window of task t at most, where t may be one of several.
  ghost predicate ChangedIn(p: Plan, ts: set<nat>, before: Memory, after: Memory)
  {
    forall x: nat :: after(x) == before(x) || exists t :: t in ts && InWindow(p, t, x)
  }

  ghost function TasksRead(r: Reader): set<nat> { set k | 0 <= k < |r.index| :: r.index[k] }

  lemma InvOwners(v: WI.View)
    requires WI.Inv(v)
    ensures WI.Core(v) && WI.OwnersOk(v)
  {
    hide WI.Books, WI.OwnersOk;
  }

  lemma OtherReaderKept(c: Config, r: Reader, n: nat, ts: set<nat>, before: Memory, after: Memory)
    requires PlanGood(c.plan) && ReaderFits(c.plan, c.files, r) && n <= |r.trace| && StoresKept(r.trace[..n], before)
    requires ChangedIn(c.plan, ts, before, after) && ts !! TasksRead(r)
    ensures StoresKept(r.trace[..n], after)
  {
    assert Shaped(c.plan);
    hide ReaderFits, PlanGood, Shaped;
    forall x: nat | Last(r.trace[..n], x).Byte? ensures after(x) == Last(r.trace[..n], x).value {
      var k := ReaderWindow(c.plan, c.files, r, n, x);
      assert r.index[k] in TasksRead(r);
      if after(x) != before(x) {
        var t :| t in ts && InWindow(c.plan, t, x);
        OneWindow(c.plan, t, r.index[k], x);
      }
    }
  }

  // Landed reads of tasks outside ts keep their bytes.
  lemma LandedStays(c: Config, taken: map<nat, nat>, w: nat, v: WI.View, ts: set<nat>, before: Memory, after: Memory)
    requires ConfigOk(c) && WorkerOk(c, taken, w, v, before) && ChangedIn(c.plan, ts, before, after)
    requires forall id :: id in v.known ==> id !in ts
    ensures WorkerOk(c, taken, w, v, after)
  {
    assert PlanGood(c.plan);
    hide WI.Inv, WI.Core, WI.OwnersOk, ConfigOk, PlanGood, AllFromLoads;
    InvOwners(v);
    forall h | h in v.landed ensures h in v.owner && BytesAt(c.objects, v.owner[h].read, after) {
      OwnerWindow(c, taken, w, v, h);
      var id := v.owner[h].id;
      forall x: nat | InBuffer(v.owner[h].read, x) ensures after(x) == before(x) {
        if after(x) != before(x) {
          var t :| t in ts && InWindow(c.plan, t, x);
          OneWindow(c.plan, t, id, x);
        }
      }
    }
  }

  lemma ReaderTaskPlace(c: Config, b: nat, t: nat)
    requires PlacesFit(c) && b < |c.readers| && t in TasksRead(c.readers[b])
    ensures t < |c.place| && c.place[t].InBatch? && c.place[t].reader == b
  {
    var k :| 0 <= k < |c.readers[b].index| && c.readers[b].index[k] == t;
    assert PlacedAt(c.place, t, InBatch(b, k));
  }

  lemma ReaderTasksApart(c: Config, b: nat, d: nat)
    requires PlacesFit(c) && b < |c.readers| && d < |c.readers| && b != d
    ensures TasksRead(c.readers[b]) !! TasksRead(c.readers[d])
  {
    hide PlacesFit;
    forall t | t in TasksRead(c.readers[b]) ensures t !in TasksRead(c.readers[d]) {
      ReaderTaskPlace(c, b, t);
      if t in TasksRead(c.readers[d]) {
        ReaderTaskPlace(c, d, t);
      }
    }
  }

  // Memory is written for tasks of one batch: everything else is where it was.
  lemma ReaderWrites(c: Config, s: Sys, s': Sys, b: nat)
    requires ConfigOk(c) && SysShape(c, s) && SysShape(c, s') && ReadersOk(c, s) && WorkersOk(c, s) && b < |c.readers|
    requires s'.a == s.a.(memory := s'.a.memory) && s'.taken == s.taken && s'.views == s.views
    requires |s'.pos| == |s.pos| && forall d :: 0 <= d < |s.pos| && d != b ==> s'.pos[d] == s.pos[d]
    requires ChangedIn(c.plan, TasksRead(c.readers[b]), s.a.memory, s'.a.memory)
    ensures forall d :: 0 <= d < |c.readers| && d != b ==> ReaderOk(c, s'.a, c.readers[d], s'.pos[d])
    ensures WorkersOk(c, s')
  {
    hide WI.Inv, AllFromLoads, LandedKept, ReaderFits, PlanGood, PlacesFit, ChangedIn;
    var ts := TasksRead(c.readers[b]);
    forall d | 0 <= d < |c.readers| && d != b ensures ReaderOk(c, s'.a, c.readers[d], s'.pos[d]) {
      assert ReaderOk(c, s.a, c.readers[d], s.pos[d]);
      ReaderTasksApart(c, b, d);
      OtherReaderKept(c, c.readers[d], s.pos[d], ts, s.a.memory, s'.a.memory);
    }
    forall w | 0 <= w < |s.views| ensures WorkerOk(c, s'.taken, w, s'.views[w], s'.a.memory) {
      assert WorkerOk(c, s.taken, w, s.views[w], s.a.memory);
      forall id | id in s.views[w].known ensures id !in ts {
        KnownPlace(c, s.taken, w, s.views[w], id);
        if id in ts {
          ReaderTaskPlace(c, b, id);
        }
      }
      LandedStays(c, s.taken, w, s.views[w], ts, s.a.memory, s'.a.memory);
    }
  }

  lemma KnownPlace(c: Config, taken: map<nat, nat>, w: nat, v: WI.View, id: nat)
    requires AllFromLoads(c, taken, w, v) && id in v.known
    ensures id < |c.place| && c.place[id].InLoad? && c.place[id].load in taken && taken[c.place[id].load] == w
  {
    assert FromLoad(c, taken, w, id, v.known[id].task);
  }

  // The task an outstanding read belongs to, and where it may write.
  lemma FillTask(c: Config, s: Sys, s': Sys, w: nat, h: nat)
    requires ConfigOk(c) && SysShape(c, s) && WorkersOk(c, s) && SysNext(c, s, s', Fill(w, h))
    ensures WorkerOk(c, s.taken, w, s.views[w], s.a.memory)
    ensures var id := s.views[w].owner[h].id;
            && ChangedIn(c.plan, {id}, s.a.memory, s'.a.memory) && id < |c.place| && c.place[id].InLoad?
            && c.place[id].load in s.taken && s.taken[c.place[id].load] == w
  {
    var v := s.views[w];
    hide ConfigOk, WI.OwnersOk, WI.Inv, WI.Core, TaskFits;
    assert WorkerOk(c, s.taken, w, v, s.a.memory);
    InvOwners(v);
    OwnerWindow(c, s.taken, w, v, h);
  }

  // Tasks of loads are not the batches' business.
  lemma FillReaders(c: Config, s: Sys, s': Sys, id: nat)
    requires ConfigOk(c) && SysShape(c, s) && SysShape(c, s') && ReadersOk(c, s)
    requires s'.a == s.a.(memory := s'.a.memory) && s'.pos == s.pos
    requires id < |c.place| && c.place[id].InLoad? && ChangedIn(c.plan, {id}, s.a.memory, s'.a.memory)
    ensures ReadersOk(c, s')
  {
    hide ReaderFits, PlanGood, PlacesFit, ChangedIn;
    forall d | 0 <= d < |c.readers| ensures ReaderOk(c, s'.a, c.readers[d], s'.pos[d]) {
      assert ReaderOk(c, s.a, c.readers[d], s.pos[d]);
      if id in TasksRead(c.readers[d]) {
        ReaderTaskPlace(c, d, id);
      }
      OtherReaderKept(c, c.readers[d], s.pos[d], {id}, s.a.memory, s'.a.memory);
    }
  }

  // An outstanding read writes to its own task's window, and to none of its worker's landed reads.
  lemma FillWrites(c: Config, s: Sys, s': Sys, w: nat, h: nat)
    requires ConfigOk(c) && SysShape(c, s) && SysShape(c, s') && ReadersOk(c, s) && WorkersOk(c, s)
    requires SysNext(c, s, s', Fill(w, h))
    ensures ReadersOk(c, s') && WorkersOk(c, s')
  {
    hide ConfigOk, WorkerOk, ChangedIn, ReadersOk;
    FillTask(c, s, s', w, h);
    var id := s.views[w].owner[h].id;
    FillReaders(c, s, s', id);
    forall u | 0 <= u < |s.views| ensures WorkerOk(c, s'.taken, u, s'.views[u], s'.a.memory) {
      assert WorkerOk(c, s.taken, u, s.views[u], s.a.memory);
      if u == w {
        OwnLandedStays(c, s.taken, w, s.views[w], h, s.a.memory, s'.a.memory);
      } else {
        OtherWorkerStays(c, s.taken, u, s.views[u], id, w, s.a.memory, s'.a.memory);
      }
    }
  }

  lemma OtherWorkerStays(c: Config, taken: map<nat, nat>, u: nat, v: WI.View, id: nat, w: nat, before: Memory,
                         after: Memory)
    requires ConfigOk(c) && WorkerOk(c, taken, u, v, before) && ChangedIn(c.plan, {id}, before, after) && u != w
    requires id < |c.place| && c.place[id].InLoad? && c.place[id].load in taken && taken[c.place[id].load] == w
    ensures WorkerOk(c, taken, u, v, after)
  {
    hide WI.Inv, AllFromLoads, LandedKept, ConfigOk, ChangedIn;
    forall i | i in v.known ensures i !in {id} {
      KnownPlace(c, taken, u, v, i);
    }
    LandedStays(c, taken, u, v, {id}, before, after);
  }

  // Different handles of one worker have different buffers.
  lemma OneHandle(c: Config, taken: map<nat, nat>, w: nat, v: WI.View, g: nat, h: nat, x: nat)
    requires ConfigOk(c) && WI.OwnersOk(v) && AllFromLoads(c, taken, w, v) && g in v.owner && h in v.owner
    requires InBuffer(v.owner[g].read, x) && InBuffer(v.owner[h].read, x)
    ensures g == h
  {
    assert WI.OwnersApart(v.owner) && PlanGood(c.plan);
    hide WI.OwnersOk, ConfigOk, PlanGood, AllFromLoads, TaskFits, FromLoad;
    OwnerWindow(c, taken, w, v, g);
    OwnerWindow(c, taken, w, v, h);
    OneWindow(c.plan, v.owner[g].id, v.owner[h].id, x);
  }

  lemma OwnLandedStays(c: Config, taken: map<nat, nat>, w: nat, v: WI.View, h: nat, before: Memory, after: Memory)
    requires ConfigOk(c) && WorkerOk(c, taken, w, v, before) && h in v.owner && h !in v.landed
    requires forall x: nat :: !InBuffer(v.owner[h].read, x) ==> after(x) == before(x)
    ensures WorkerOk(c, taken, w, v, after)
  {
    hide WI.Inv, WI.Core, WI.OwnersOk, ConfigOk, AllFromLoads, InBuffer, BytesAt;
    InvOwners(v);
    forall g | g in v.landed ensures g in v.owner && BytesAt(c.objects, v.owner[g].read, after) {
      HandleKept(c, taken, w, v, g, h, before, after);
    }
  }

  lemma HandleKept(c: Config, taken: map<nat, nat>, w: nat, v: WI.View, g: nat, h: nat, before: Memory, after: Memory)
    requires ConfigOk(c) && WI.OwnersOk(v) && AllFromLoads(c, taken, w, v) && g in v.owner && h in v.owner && g != h
    requires BytesAt(c.objects, v.owner[g].read, before)
    requires forall x: nat :: !InBuffer(v.owner[h].read, x) ==> after(x) == before(x)
    ensures BytesAt(c.objects, v.owner[g].read, after)
  {
    hide WI.OwnersOk, ConfigOk, AllFromLoads;
    forall x: nat | InBuffer(v.owner[g].read, x) ensures after(x) == before(x) {
      if InBuffer(v.owner[h].read, x) {
        OneHandle(c, taken, w, v, g, h, x);
      }
    }
  }

  // ---------------------------------------------------------------- steps that change nothing in memory

  // Phases change, dispatch moves on, memory stays: threads and workers are as they were.
  lemma ReaderSame(c: Config, a: State, a': State, r: Reader, n: nat)
    requires Shaped(c.plan) && SameShape(c.plan, a) && SameShape(c.plan, a') && Indexed(c.plan, r)
    requires ReaderOk(c, a, r, n) && a'.memory == a.memory
    requires HomeSent(a, r.home) ==> HomeSent(a', r.home)
    requires forall k :: 0 <= k < |r.index| ==> SamePhase(c, a, a', r.index[k])
    ensures ReaderOk(c, a', r, n)
  {
    forall k | 0 <= k < |r.index| ensures TaskRead(c, a', r.trace[..n], r.index[k], k) {
      assert TaskRead(c, a, r.trace[..n], r.index[k], k) && SamePhase(c, a, a', r.index[k]);
    }
  }

  // The task has not been decided since, nor dropped tasks picked up again.
  ghost predicate SamePhase(c: Config, a: State, a': State, t: nat)
    requires Shaped(c.plan) && SameShape(c.plan, a) && SameShape(c.plan, a')
  {
    t < |c.plan.tasks| ==>
      && (Answers.Succeeded(a'.phase[t]) ==> Answers.Succeeded(a.phase[t]))
      && (a.phase[t] != Todo ==> a'.phase[t] != Todo)
      && (a'.phase[t] != Todo ==> a.phase[t] != Todo || Dropped(c.plan, a', t))
      && (Dropped(c.plan, a, t) ==> Dropped(c.plan, a', t))
  }

  ghost predicate SentGrows(a: State, a': State)
  {
    forall h: Home :: HomeSent(a, h) ==> HomeSent(a', h)
  }

  // A step of dispatch, of a task's end, or the drain of a task that was never sent.
  lemma OuterKeeps(c: Config, s: Sys, s': Sys)
    requires ConfigOk(c) && SysInv(c, s) && SysShape(c, s') && s' == s.(a := s'.a) && s'.a.memory == s.a.memory
    requires Answers.Inv(c.plan, c.files, s'.a) && SentGrows(s.a, s'.a)
    requires forall t: nat :: SamePhase(c, s.a, s'.a, t)
    ensures SysInv(c, s')
  {
    hide Answers.Inv, WorkerOk, SamePhase, ConfigOk;
    forall b | 0 <= b < |c.readers| ensures ReaderOk(c, s'.a, c.readers[b], s'.pos[b]) {
      assert ReaderOk(c, s.a, c.readers[b], s.pos[b]);
      ReaderSame(c, s.a, s'.a, c.readers[b], s.pos[b]);
    }
    hide ReaderOk;
    forall w | 0 <= w < |s.views| ensures WorkerOk(c, s'.taken, w, s'.views[w], s'.a.memory) {
      assert WorkerOk(c, s.taken, w, s.views[w], s.a.memory);
    }
    forall j | j in s.taken ensures TakenOk(c, s'.a, s'.taken, s'.views, j) {
      assert TakenOk(c, s.a, s.taken, s.views, j);
    }
    forall t: nat | t < |c.place| ensures ObjectOk(c, s'.a, s'.taken, s'.views, t) {
      ObjectSame(c, s.a, s'.a, s.taken, s.views, t);
    }
  }

  lemma ObjectSame(c: Config, a: State, a': State, taken: map<nat, nat>, views: seq<WI.View>, t: nat)
    requires Shaped(c.plan) && SameShape(c.plan, a) && SameShape(c.plan, a') && t < |c.place| == |c.plan.tasks|
    requires ObjectOk(c, a, taken, views, t) && SamePhase(c, a, a', t)
    ensures ObjectOk(c, a', taken, views, t)
  {
  }

  // A step of the answers' protocol other than deciding keeps successes and undecided tasks as they are.
  lemma OuterPhases(c: Config, a: State, a': State, x: Step)
    requires Shaped(c.plan) && Answers.Next(c.plan, c.files, a, a', x) && !x.Write? && !x.Decide?
    ensures SameShape(c.plan, a') && a'.memory == a.memory && SentGrows(a, a')
    ensures forall t: nat :: SamePhase(c, a, a', t)
  {
    if !x.Commit? && !x.Send? && !x.Throw? {
      assert a'.dispatch == a.dispatch;
    }
    forall t: nat | t < |c.plan.tasks| ensures SamePhase(c, a, a', t) {
      assert TaskHome(c.plan, t);
    }
  }

  lemma OuterStep(c: Config, s: Sys, s': Sys, x: Step)
    requires ConfigOk(c) && SysInv(c, s) && SysNext(c, s, s', Outer(x))
    ensures SysInv(c, s')
  {
    OuterPhases(c, s.a, s'.a, x);
    StepKeeps(c.plan, c.files, s.a, s'.a, x);
    hide Answers.Inv, ReadersOk, WorkersOk, LoadsOk, SentGrows, SamePhase, Answers.Next, SameShape;
    OuterKeeps(c, s, s');
  }

  lemma DrainStep(c: Config, s: Sys, s': Sys, t: nat)
    requires ConfigOk(c) && SysInv(c, s) && SysNext(c, s, s', DrainTask(t))
    ensures Answers.Next(c.plan, c.files, s.a, s'.a, Decide(t, UnknownError))
    ensures SysInv(c, s')
  {
    StepKeeps(c.plan, c.files, s.a, s'.a, Decide(t, UnknownError));
    forall u: nat | u < |c.plan.tasks| ensures SamePhase(c, s.a, s'.a, u) {
      assert TaskHome(c.plan, u);
    }
    hide Answers.Inv, ReadersOk, WorkersOk, LoadsOk, SamePhase, Answers.Next;
    OuterKeeps(c, s, s');
  }

  // ---------------------------------------------------------------- a batch's thread

  lemma NextEvent(r: Reader, n: nat)
    requires n < |r.trace|
    ensures r.trace[..n + 1] == r.trace[..n] + [r.trace[n]]
  {
  }

  lemma LocalAt(p: Plan, r: Reader, k: nat)
    requires Shaped(p) && Indexed(p, r) && k < |r.index|
    ensures r.index[k] < |p.tasks| && Local(p, r)[k] == p.tasks[r.index[k]]
  {
  }

  // A store goes to tasks of the batch that have not succeeded.
  lemma StoreOpen(c: Config, a: State, r: Reader, n: nat, x: nat)
    requires PlanGood(c.plan) && SameShape(c.plan, a) && ReaderFits(c.plan, c.files, r) && ReaderOk(c, a, r, n)
        && n < |r.trace|
    requires r.trace[n].Stored? && r.trace[n].at <= x < r.trace[n].at + |r.trace[n].bytes|
    ensures Open(c.plan, a, x)
    ensures exists t :: t in TasksRead(r) && InWindow(c.plan, t, x) && (a.phase[t] == Todo || Dropped(c.plan, a, t))
  {
    var local := Local(c.plan, r);
    assert EventOk(local, r.content, r.trace[..n], r.trace[n]);
    assert OpenAt(local, r.trace[..n], x);
    var k: nat :| k < |local| && Window(local[k], x) && !DoneIn(r.trace[..n], k);
    var t := r.index[k];
    assert TaskRead(c, a, r.trace[..n], t, k);
    assert t in TasksRead(r) && InWindow(c.plan, t, x);
    forall u: nat | u < |c.plan.tasks| && Window(c.plan.tasks[u], x) ensures u == t {
      OneWindow(c.plan, t, u, x);
    }
  }

  lemma ReadStored(c: Config, s: Sys, s': Sys, b: nat)
    requires ConfigOk(c) && SysInv(c, s) && SysNext(c, s, s', Read(b)) && c.readers[b].trace[s.pos[b]].Stored?
    ensures Answers.Next(c.plan, c.files, s.a, s'.a, Write)
    ensures SysInv(c, s')
  {
    ReaderAt(c, s, b);
    GoodPlan(c);
    hide ConfigOk, Answers.Inv, PlanGood, ReaderFits, ReaderOk, PlacesFit, Shaped, Answers.Open;
    var r, n := c.readers[b], s.pos[b];
    forall x: nat | s'.a.memory(x) != s.a.memory(x)
      ensures Open(c.plan, s.a, x) && exists t :: t in TasksRead(r) && InWindow(c.plan, t, x)
    {
      StoreOpen(c, s.a, r, n, x);
    }
    StepKeeps(c.plan, c.files, s.a, s'.a, Write);
    assert ChangedIn(c.plan, TasksRead(r), s.a.memory, s'.a.memory);
    hide Answers.Next, ChangedIn;
    ReaderWrites(c, s, s', b);
    StoredKept(c, s.a, s'.a, r, n);
    LoadsSame(c, s, s');
  }

  lemma StoredKept(c: Config, a: State, a': State, r: Reader, n: nat)
    requires Shaped(c.plan) && SameShape(c.plan, a) && Indexed(c.plan, r) && ReaderOk(c, a, r, n) && n < |r.trace|
    requires r.trace[n].Stored? && a' == AfterEvent(r, a, r.trace[n]) && HomeSent(a, r.home)
    ensures ReaderOk(c, a', r, n + 1)
  {
    var e := r.trace[n];
    NextEvent(r, n);
    SameDone(r.trace[..n], e);
    forall k | 0 <= k < |r.index| ensures TaskRead(c, a', r.trace[..n + 1], r.index[k], k) {
      assert TaskRead(c, a, r.trace[..n], r.index[k], k);
    }
    forall x: nat ensures Last(r.trace[..n + 1], x).Byte? ==> a'.memory(x) == Last(r.trace[..n + 1], x).value {
      LastNext(r.trace[..n], e, x);
    }
  }

  // Nothing the loads' books speak of has changed.
  lemma LoadsSame(c: Config, s: Sys, s': Sys)
    requires SysShape(c, s) && SysShape(c, s') && LoadsOk(c, s) && s'.taken == s.taken && s'.views == s.views
    requires s'.a.phase == s.a.phase && s'.a.dispatch == s.a.dispatch
    ensures LoadsOk(c, s')
  {
    forall j | j in s.taken ensures TakenOk(c, s'.a, s'.taken, s'.views, j) {
      assert TakenOk(c, s.a, s.taken, s.views, j);
    }
    forall t: nat | t < |c.place| ensures ObjectOk(c, s'.a, s'.taken, s'.views, t) {
      assert ObjectOk(c, s.a, s.taken, s.views, t);
    }
  }

  lemma SentTask(c: Config, a: State, t: nat)
    requires Shaped(c.plan) && SameShape(c.plan, a) && t < |c.plan.tasks| && HomeSent(a, c.plan.home[t])
    ensures Sent(c.plan, a, t) && !Dropped(c.plan, a, t)
  {
    assert TaskHome(c.plan, t);
  }

  // A task the thread finishes was open until now, and a success has its bytes in place.
  lemma DoneDecides(c: Config, a: State, r: Reader, n: nat)
    requires Shaped(c.plan) && SameShape(c.plan, a) && ReaderFits(c.plan, c.files, r) && ReaderOk(c, a, r, n)
        && n < |r.trace|
    requires r.trace[n].Done? && HomeSent(a, r.home)
    ensures var e := r.trace[n];
            && e.task < |r.index| && r.index[e.task] < |c.plan.tasks| && a.phase[r.index[e.task]] == Todo
            && Sent(c.plan, a, r.index[e.task]) && !Dropped(c.plan, a, r.index[e.task])
            && (e.code == Success ==> Landed(c.plan.tasks[r.index[e.task]], c.files, a.memory))
  {
    var e, done := r.trace[n], r.trace[..n];
    assert EventOk(Local(c.plan, r), r.content, done, e);
    var t := r.index[e.task];
    LocalAt(c.plan, r, e.task);
    assert TaskRead(c, a, done, t, e.task);
    SentTask(c, a, t);
    if e.code == Success {
      DoneLands(c, a, r, n, e.task);
    }
  }

  lemma DoneLands(c: Config, a: State, r: Reader, n: nat, k: nat)
    requires Shaped(c.plan) && ReaderFits(c.plan, c.files, r) && n <= |r.trace| && StoresKept(r.trace[..n], a.memory)
    requires k < |r.index| && InPlace(Local(c.plan, r)[k], r.content, r.trace[..n])
    ensures Landed(c.plan.tasks[r.index[k]], c.files, a.memory)
  {
    LocalAt(c.plan, r, k);
    var t := c.plan.tasks[r.index[k]];
    var base := t.dst + t.relative;
    forall x: nat | Window(t, x) ensures a.memory(x) == c.files(t.file, t.offset + (x - t.dst - t.relative)) {
      assert Holds(r.trace[..n], r.content, t.offset, base, t.size);
      assert Last(r.trace[..n], x) == Byte(r.content[t.offset + (x - base)]);
    }
  }

  lemma ReadDone(c: Config, s: Sys, s': Sys, b: nat)
    requires ConfigOk(c) && SysInv(c, s) && SysNext(c, s, s', Read(b)) && c.readers[b].trace[s.pos[b]].Done?
    ensures var e := c.readers[b].trace[s.pos[b]];
            e.task < |c.readers[b].index|
              && Answers.Next(c.plan, c.files, s.a, s'.a, Decide(c.readers[b].index[e.task], e.code))
    ensures SysInv(c, s')
  {
    ReaderAt(c, s, b);
    GoodPlan(c);
    hide ConfigOk, Answers.Inv, PlanGood, ReaderFits, ReaderOk, WorkersOk, Shaped, Landed;
    var r, n := c.readers[b], s.pos[b];
    var e := r.trace[n];
    DoneDecides(c, s.a, r, n);
    var t := r.index[e.task];
    StepKeeps(c.plan, c.files, s.a, s'.a, Decide(t, e.code));
    hide Answers.Next;
    assert PlacedAt(c.place, t, InBatch(b, e.task));
    DoneReaders(c, s, s', b, t, e);
    EmitWorkers(c, s, s');
    LoadsAfterDone(c, s, s', b, t, e.code);
  }

  lemma ReaderAt(c: Config, s: Sys, b: nat)
    requires ConfigOk(c) && SysInv(c, s) && b < |c.readers|
    ensures ReaderFits(c.plan, c.files, c.readers[b]) && ReaderOk(c, s.a, c.readers[b], s.pos[b])
  {
    hide ReaderFits, ReaderOk, Answers.Inv, PlanGood, PlacesFit, WorkersOk, LoadsOk;
  }

  lemma DoneReaders(c: Config, s: Sys, s': Sys, b: nat, t: nat, e: Event)
    requires SysShape(c, s) && SysShape(c, s') && ReadersOk(c, s) && PlacesFit(c) && b < |c.readers|
    requires s.pos[b] < |c.readers[b].trace| && e == c.readers[b].trace[s.pos[b]] && e.Done?
        && HomeSent(s.a, c.readers[b].home)
    requires e.task < |c.readers[b].index| && t == c.readers[b].index[e.task] < |s.a.phase|
    requires s'.a == s.a.(phase := s.a.phase[t := Decided(e.code)]) && s'.pos == s.pos[b := s.pos[b] + 1]
    ensures ReadersOk(c, s')
  {
    var r, n := c.readers[b], s.pos[b];
    assert PlacedAt(c.place, t, InBatch(b, e.task));
    assert forall k :: 0 <= k < |r.index| ==> PlacedAt(c.place, r.index[k], InBatch(b, k));
    hide PlacesFit, SameShape;
    forall d | 0 <= d < |c.readers| ensures ReaderOk(c, s'.a, c.readers[d], s'.pos[d]) {
      assert ReaderOk(c, s.a, c.readers[d], s.pos[d]);
      if d == b {
        DoneKept(c, s.a, s'.a, r, n);
      } else {
        OtherReaderSame(c, s.a, s'.a, b, d, s.pos[d], t, e.code);
      }
    }
  }

  lemma LoadsAfterDone(c: Config, s: Sys, s': Sys, b: nat, t: nat, code: ResponseCode)
    requires SysShape(c, s) && SysShape(c, s') && LoadsOk(c, s) && s'.taken == s.taken && s'.views == s.views
    requires t < |c.place| && c.place[t].InBatch? && s'.a == s.a.(phase := s.a.phase[t := Decided(code)])
    ensures LoadsOk(c, s')
  {
    forall j | j in s.taken ensures TakenOk(c, s'.a, s'.taken, s'.views, j) {
      assert TakenOk(c, s.a, s.taken, s.views, j);
    }
    forall u: nat | u < |c.place| ensures ObjectOk(c, s'.a, s'.taken, s'.views, u) {
      assert ObjectOk(c, s.a, s.taken, s.views, u);
    }
  }

  lemma OtherReaderSame(c: Config, a: State, a': State, b: nat, d: nat, n: nat, t: nat, code: ResponseCode)
    requires Shaped(c.plan) && SameShape(c.plan, a) && PlacesFit(c) && d < |c.readers| && d != b
        && Indexed(c.plan, c.readers[d])
    requires ReaderOk(c, a, c.readers[d], n) && t < |c.place| && c.place[t].InBatch? && c.place[t].reader == b
    requires t < |c.plan.tasks| && a' == a.(phase := a.phase[t := Decided(code)])
    ensures ReaderOk(c, a', c.readers[d], n)
  {
    var r := c.readers[d];
    forall k | 0 <= k < |r.index| ensures SamePhase(c, a, a', r.index[k]) {
      assert PlacedAt(c.place, r.index[k], InBatch(d, k));
      assert r.index[k] != t;
      assert r.index[k] < |c.plan.tasks| && TaskHome(c.plan, r.index[k]);
    }
    ReaderSame(c, a, a', r, n);
  }

  // The finished task is now done in the trace and decided in the books; the others are as they were.
  lemma DoneKept(c: Config, a: State, a': State, r: Reader, n: nat)
    requires Shaped(c.plan) && SameShape(c.plan, a) && Indexed(c.plan, r) && ReaderOk(c, a, r, n) && n < |r.trace|
    requires r.trace[n].Done? && r.trace[n].task < |r.index| && a' == AfterEvent(r, a, r.trace[n])
        && HomeSent(a, r.home)
    requires forall k, l :: 0 <= k < |r.index| && 0 <= l < |r.index| && r.index[k] == r.index[l] ==> k == l
    ensures ReaderOk(c, a', r, n + 1)
  {
    var e, done := r.trace[n], r.trace[..n];
    NextEvent(r, n);
    forall k | 0 <= k < |r.index| ensures TaskRead(c, a', done + [e], r.index[k], k) {
      assert TaskRead(c, a, done, r.index[k], k);
      DoneGrows(done, e, k);
      assert TaskHome(c.plan, r.index[k]);
    }
    forall x: nat ensures Last(r.trace[..n + 1], x) == Last(done, x) {
      LastNext(done, e, x);
    }
  }

  lemma DoneGrows(done: seq<Event>, e: Event, k: nat)
    requires e.Done?
    ensures DoneIn(done + [e], k) <==> DoneIn(done, k) || e.task == k
    ensures SucceededIn(done + [e], k) <==> SucceededIn(done, k) || e == Event.Done(k, Success)
  {
    var more := done + [e];
    assert more[|done|] == e;
    assert forall i :: 0 <= i < |done| ==> more[i] == done[i];
    if DoneIn(done, k) {
      var i :| 0 <= i < |done| && done[i].Done? && done[i].task == k;
      assert more[i].Done? && more[i].task == k;
    }
    if SucceededIn(done, k) {
      var i :| 0 <= i < |done| && done[i] == Event.Done(k, Success);
      assert more[i] == Event.Done(k, Success);
    }
  }

  // ---------------------------------------------------------------- an object-storage worker

  // A worker's state has moved on: its books have grown, with the tasks of one load it took at most.
  ghost predicate MovedOn(c: Config, s: Sys, s': Sys, w: nat)
  {
    && w < |s.views| == |s'.views| && s' == s.(taken := s'.taken, views := s.views[w := s'.views[w]])
    && WV.BooksGrow(s.views[w], s'.views[w])
    && (forall j :: j in s.taken ==> j in s'.taken && s'.taken[j] == s.taken[j])
    && forall j :: j in s'.taken && j !in s.taken ==> j < |c.loads| && s'.taken[j] == w
  }

  // What is known, taken and answered elsewhere is not touched by one worker.
  lemma MovedKeeps(c: Config, s: Sys, s': Sys, w: nat)
    requires SysInv(c, s) && MovedOn(c, s, s', w)
    requires WorkerOk(c, s'.taken, w, s'.views[w], s.a.memory)
    requires forall j :: j in s'.taken && j !in s.taken ==> TakenOk(c, s'.a, s'.taken, s'.views, j)
    ensures SysInv(c, s')
  {
    hide Answers.Inv, WI.Inv, AllFromLoads, LandedKept, WV.BooksGrow, ReaderOk;
    forall u | 0 <= u < |s.views| ensures WorkerOk(c, s'.taken, u, s'.views[u], s'.a.memory) {
      assert WorkerOk(c, s.taken, u, s.views[u], s.a.memory);
      if u != w {
        TakenMore(c, s.taken, s'.taken, u, s.views[u]);
      }
    }
    hide WorkerOk;
    MovedLoads(c, s, s', w);
  }

  lemma MovedLoads(c: Config, s: Sys, s': Sys, w: nat)
    requires SysShape(c, s) && SysShape(c, s') && LoadsOk(c, s) && MovedOn(c, s, s', w)
    requires forall j :: j in s'.taken && j !in s.taken ==> TakenOk(c, s'.a, s'.taken, s'.views, j)
    ensures LoadsOk(c, s')
  {
    forall j | j in s'.taken ensures TakenOk(c, s'.a, s'.taken, s'.views, j) {
      if j in s.taken {
        assert TakenOk(c, s.a, s.taken, s.views, j);
      }
    }
    hide TakenOk;
    forall t: nat | t < |c.place| ensures ObjectOk(c, s'.a, s'.taken, s'.views, t) {
      assert ObjectOk(c, s.a, s.taken, s.views, t);
    }
  }

  lemma TakenMore(c: Config, taken: map<nat, nat>, taken': map<nat, nat>, w: nat, v: WI.View)
    requires AllFromLoads(c, taken, w, v) && forall j :: j in taken ==> j in taken' && taken'[j] == taken[j]
    ensures AllFromLoads(c, taken', w, v)
  {
    forall id | id in v.known ensures FromLoad(c, taken', w, id, v.known[id].task) {
      assert FromLoad(c, taken, w, id, v.known[id].task);
    }
  }

  lemma LandedGrows(c: Config, v: WI.View, v': WI.View, memory: Memory)
    requires LandedKept(c, v, memory) && WV.BooksGrow(v, v') && v'.landed == v.landed
    ensures LandedKept(c, v', memory)
  {
  }

  lemma WorkerAt(c: Config, s: Sys, w: nat)
    requires SysInv(c, s) && w < |s.views|
    ensures WI.Inv(s.views[w]) && s.views[w].cb == c.cb && AllFromLoads(c, s.taken, w, s.views[w])
    ensures LandedKept(c, s.views[w], s.a.memory)
  {
    hide Answers.Inv, ReadersOk, LoadsOk, SysShape, WI.Inv, AllFromLoads, LandedKept;
    assert WorkerOk(c, s.taken, w, s.views[w], s.a.memory);
  }

  lemma OwnIsInner(v: WI.View, m: WV.Move)
    requires OwnMove(v, m)
    ensures WV.Inner(m) && !m.Land?
  {
  }

  lemma WorkerStep(c: Config, s: Sys, s': Sys, w: nat, m: WV.Move)
    requires SysInv(c, s) && SysNext(c, s, s', Worker(w, m))
    ensures SysInv(c, s')
  {
    hide SysInv, WV.MovesTo, WI.Inv, WV.BooksGrow, LandedKept, OwnMove, AllFromLoads, ConfigOk, WM.AllTasks, WV.OnlyNew;
    WorkerAt(c, s, w);
    var v, v' := s.views[w], s'.views[w];
    OwnIsInner(v, m);
    WV.MoveKeeps(v, v', m);
    WV.BooksStay(v, v', m);
    LandedGrows(c, v, v', s.a.memory);
    SameKnown(c, s.taken, w, v, v');
    assert WorkerOk(c, s'.taken, w, v', s.a.memory);
    MovedKeeps(c, s, s', w);
  }

  lemma SameKnown(c: Config, taken: map<nat, nat>, w: nat, v: WI.View, v': WI.View)
    requires AllFromLoads(c, taken, w, v) && v'.known == v.known && WV.BooksGrow(v, v')
    ensures AllFromLoads(c, taken, w, v') && v'.cb == v.cb
  {
  }

  lemma AdmitStep(c: Config, s: Sys, s': Sys, w: nat, j: nat, m: WV.Move)
    requires ConfigOk(c) && SysInv(c, s) && SysNext(c, s, s', Admit(w, j, m))
    ensures SysInv(c, s')
  {
    hide SysInv, WV.MovesTo, WI.Inv, WV.BooksGrow, LandedKept, OwnMove, AllFromLoads, ConfigOk, WM.AllTasks, WV.OnlyNew;
    WorkerAt(c, s, w);
    var v, v' := s.views[w], s'.views[w];
    WV.MoveKeeps(v, v', m);
    WV.BooksStay(v, v', m);
    LandedGrows(c, v, v', s.a.memory);
    AdmitFromLoad(c, s, s', w, j);
    SameCb(v, v');
    AdmitTaken(c, s, s', w, j);
    assert WorkerOk(c, s'.taken, w, v', s.a.memory);
    hide TakenOk;
    MovedKeeps(c, s, s', w);
  }

  lemma AdmitTaken(c: Config, s: Sys, s': Sys, w: nat, j: nat)
    requires j < |c.loads| && w < |s.views| && w < |s'.views| && s'.taken == s.taken[j := w] && s'.a == s.a
    requires HomeSent(s.a, c.loads[j].home) && WV.OnlyNew(s.views[w], s'.views[w], WM.AllTasks(c.loads[j].work))
    ensures TakenOk(c, s'.a, s'.taken, s'.views, j)
  {
    hide WM.AllTasks;
  }

  lemma SameCb(v: WI.View, v': WI.View)
    requires WV.BooksGrow(v, v')
    ensures v'.cb == v.cb
  {
  }

  lemma AdmitFromLoad(c: Config, s: Sys, s': Sys, w: nat, j: nat)
    requires ConfigOk(c) && j < |c.loads| && j !in s.taken && w < |s.views| && w < |s'.views|
    requires AllFromLoads(c, s.taken, w, s.views[w]) && s'.taken == s.taken[j := w]
    requires WV.BooksGrow(s.views[w], s'.views[w]) && WV.OnlyNew(s.views[w], s'.views[w], WM.AllTasks(c.loads[j].work))
    ensures AllFromLoads(c, s'.taken, w, s'.views[w])
  {
    hide WM.AllTasks;
    var v, v' := s.views[w], s'.views[w];
    var ts := WM.AllTasks(c.loads[j].work);
    forall id | id in v'.known ensures FromLoad(c, s'.taken, w, id, v'.known[id].task) {
      if id in v.known {
        assert FromLoad(c, s.taken, w, id, v.known[id].task);
      } else {
        var i: nat :| i < |ts| && ts[i].task.id == id && v'.known[id].task == ts[i];
        assert PlacedAt(c.place, id, InLoad(j, i));
      }
    }
  }

  // A read that landed has the object's bytes in its buffer.
  lemma LandStep(c: Config, s: Sys, s': Sys, w: nat, hs: set<nat>)
    requires SysInv(c, s) && SysNext(c, s, s', Land(w, hs))
    ensures SysInv(c, s')
  {
    hide SysInv, WI.Inv, BytesAt, AllFromLoads;
    WorkerAt(c, s, w);
    var v, v' := s.views[w], s'.views[w];
    WV.MoveKeeps(v, v', WV.Move.Land(hs));
    SameKnown(c, s.taken, w, v, v');
    assert WorkerOk(c, s'.taken, w, v', s.a.memory);
    MovedKeeps(c, s, s', w);
  }

  // ---------------------------------------------------------------- the backend writes

  // An outstanding read writes only where a task that has not succeeded reads to.
  lemma FillOpen(c: Config, s: Sys, w: nat, h: nat, x: nat)
    requires ConfigOk(c) && SysInv(c, s) && w < |s.views| && h in s.views[w].out && h in s.views[w].owner
    requires InBuffer(s.views[w].owner[h].read, x)
    ensures Open(c.plan, s.a, x)
  {
    WorkerAt(c, s, w);
    GoodPlan(c);
    FillObject(c, s, w, h);
    hide ConfigOk, SysInv, WI.Inv, WI.Core, WI.OwnersOk, TaskFits, AllFromLoads, LandedKept, PlanGood, PlacesFit,
      Shaped;
    var v := s.views[w];
    InvOwners(v);
    OwnerWindow(c, s.taken, w, v, h);
    var id := v.owner[h].id;
    forall u: nat | u < |c.plan.tasks| && Window(c.plan.tasks[u], x) ensures u == id {
      OneWindow(c.plan, id, u, x);
    }
  }

  // The task of an outstanding read has not succeeded.
  lemma FillObject(c: Config, s: Sys, w: nat, h: nat)
    requires ConfigOk(c) && SysInv(c, s) && w < |s.views| && h in s.views[w].out && h in s.views[w].owner
    ensures |s.a.phase| == |c.plan.tasks|
    ensures var id := s.views[w].owner[h].id; id < |s.a.phase| ==> !Answers.Succeeded(s.a.phase[id])
  {
    WorkerAt(c, s, w);
    hide ConfigOk, WI.Inv, WI.Core, WI.OwnersOk, AllFromLoads, Answers.Inv, LandedKept, ReadersOk, WorkersOk, Shaped;
    var v := s.views[w];
    InvOwners(v);
    WO.NoWriteAfterSuccess(v, h);
    var id := v.owner[h].id;
    KnownPlace(c, s.taken, w, v, id);
    assert ObjectOk(c, s.a, s.taken, s.views, id);
  }

  lemma FillStep(c: Config, s: Sys, s': Sys, w: nat, h: nat)
    requires ConfigOk(c) && SysInv(c, s) && SysNext(c, s, s', Fill(w, h))
    ensures Answers.Next(c.plan, c.files, s.a, s'.a, Write)
    ensures SysInv(c, s')
  {
    hide ConfigOk, Answers.Inv, ReadersOk, WorkersOk, LoadsOk, Answers.Open;
    forall x: nat | s'.a.memory(x) != s.a.memory(x) ensures Open(c.plan, s.a, x) {
      FillOpen(c, s, w, h, x);
    }
    assert PlanGood(c.plan) by { GoodPlan(c); }
    StepKeeps(c.plan, c.files, s.a, s'.a, Write);
    FillWrites(c, s, s', w, h);
    LoadsSame(c, s, s');
  }

  lemma GoodPlan(c: Config)
    requires ConfigOk(c)
    ensures PlanGood(c.plan) && Shaped(c.plan) && PlacesFit(c)
  {
  }

  // The rest of the process writes to no task's destination.
  lemma ElsewhereStep(c: Config, s: Sys, s': Sys)
    requires ConfigOk(c) && SysInv(c, s) && SysNext(c, s, s', Elsewhere)
    ensures Answers.Next(c.plan, c.files, s.a, s'.a, Write)
    ensures SysInv(c, s')
  {
    GoodPlan(c);
    hide ConfigOk, PlanGood, PlacesFit, Shaped, Answers.Inv, ReadersOk, WorkersOk, LoadsOk;
    NobodysMemory(c, s.a, s'.a.memory);
    StepKeeps(c.plan, c.files, s.a, s'.a, Write);
    hide Answers.Next;
    ElsewhereReaders(c, s, s');
    ElsewhereWorkers(c, s, s');
    LoadsSame(c, s, s');
  }

  lemma NobodysMemory(c: Config, a: State, memory: Memory)
    requires |a.phase| == |c.plan.tasks|
    requires forall x: nat :: InSomeWindow(c.plan, x) ==> memory(x) == a.memory(x)
    ensures forall x: nat :: memory(x) == a.memory(x) || Open(c.plan, a, x)
  {
    forall x: nat | memory(x) != a.memory(x) ensures Open(c.plan, a, x) {
      forall t: nat | t < |c.plan.tasks| ensures !Window(c.plan.tasks[t], x) {
        assert !InWindow(c.plan, t, x);
      }
    }
  }

  lemma ElsewhereReaders(c: Config, s: Sys, s': Sys)
    requires ConfigOk(c) && SysShape(c, s) && SysShape(c, s') && ReadersOk(c, s)
    requires s'.a == s.a.(memory := s'.a.memory) && s'.pos == s.pos
    requires forall x: nat :: InSomeWindow(c.plan, x) ==> s'.a.memory(x) == s.a.memory(x)
    ensures ReadersOk(c, s')
  {
    hide ReaderFits, PlanGood, PlacesFit;
    forall d | 0 <= d < |c.readers| ensures ReaderOk(c, s'.a, c.readers[d], s'.pos[d]) {
      var r, n := c.readers[d], s.pos[d];
      assert ReaderOk(c, s.a, r, n);
      forall x: nat | Last(r.trace[..n], x).Byte? ensures s'.a.memory(x) == s.a.memory(x) {
        var k := ReaderWindow(c.plan, c.files, r, n, x);
        assert InWindow(c.plan, r.index[k], x);
      }
    }
  }

  lemma ElsewhereWorkers(c: Config, s: Sys, s': Sys)
    requires ConfigOk(c) && WorkersOk(c, s) && s'.taken == s.taken && s'.views == s.views
    requires forall x: nat :: InSomeWindow(c.plan, x) ==> s'.a.memory(x) == s.a.memory(x)
    ensures WorkersOk(c, s')
  {
    hide ConfigOk, WorkerOk;
    forall w | 0 <= w < |s'.views| ensures WorkerOk(c, s'.taken, w, s'.views[w], s'.a.memory) {
      assert WorkerOk(c, s.taken, w, s.views[w], s.a.memory);
      LandedElsewhere(c, s.taken, w, s.views[w], s.a.memory, s'.a.memory);
    }
  }

  lemma LandedElsewhere(c: Config, taken: map<nat, nat>, w: nat, v: WI.View, before: Memory, after: Memory)
    requires ConfigOk(c) && WorkerOk(c, taken, w, v, before)
    requires forall x: nat :: InSomeWindow(c.plan, x) ==> after(x) == before(x)
    ensures WorkerOk(c, taken, w, v, after)
  {
    hide ConfigOk, WI.Inv, WI.Core, WI.OwnersOk, AllFromLoads;
    InvOwners(v);
    forall h | h in v.landed ensures h in v.owner && BytesAt(c.objects, v.owner[h].read, after) {
      OwnerWindow(c, taken, w, v, h);
      forall x: nat | InBuffer(v.owner[h].read, x) ensures after(x) == before(x) {
        assert InWindow(c.plan, v.owner[h].id, x);
      }
    }
  }

  // ---------------------------------------------------------------- a worker's answer

  // A byte of a task whose own reads have all landed is the object's byte.
  lemma LandedByte(c: Config, v: WI.View, id: nat, memory: Memory, byte: nat)
    requires v.cb > 0 && id in v.known && WO.OwnReadsLanded(v, id) && LandedKept(c, v, memory)
    requires byte < v.known[id].task.task.bytesize
    ensures var ft := v.known[id].task;
            memory(ft.task.destination + byte) == c.objects(ft.source, ft.task.offset + byte)
  {
    var ft := v.known[id].task;
    WM.PiecesCover(0, ft, v.cb, 0, byte);
    var p :| p in WM.Pieces(0, ft, v.cb, 0) && WM.Carries(p.read, ft, byte);
    hide WM.Pieces;
    assert p.read in WI.ReadsOf(ft, v.cb);
    assert WI.HasHandle(id, p.read, v.owner);
    var h :| h in v.owner && v.owner[h] == WI.Owned(id, p.read);
    assert BytesAt(c.objects, v.owner[h].read, memory);
    assert InBuffer(p.read, ft.task.destination + byte);
  }

  // A worker says Success only when the task's whole window has the file's bytes.
  lemma AnswerLands(c: Config, taken: map<nat, nat>, w: nat, v: WI.View, memory: Memory, t: nat)
    requires ConfigOk(c) && WorkerOk(c, taken, w, v, memory) && WI.Succeeded(t, v.outcomes)
    ensures t < |c.plan.tasks| && Landed(c.plan.tasks[t], c.files, memory)
  {
    KnownTask(c, taken, w, v, t);
    hide ConfigOk, AllFromLoads, WI.Core, LandedKept, WI.Inv, WI.OwnersOk, WO.OwnReadsLanded, FromLoad, Shaped,
      TaskFits;
    InvOwners(v);
    WO.SuccessIsOwn(v, t);
    ObjectLanded(c, v, t, memory, c.loads[c.place[t].load].home);
  }

  lemma ObjectLanded(c: Config, v: WI.View, t: nat, memory: Memory, home: Home)
    requires v.cb > 0 && t in v.known && WO.OwnReadsLanded(v, t) && LandedKept(c, v, memory) && Shaped(c.plan)
    requires TaskFits(c.plan, c.files, c.objects, home, v.known[t].task) && v.known[t].task.task.id == t
    ensures Landed(c.plan.tasks[t], c.files, memory)
  {
    hide LandedKept, WO.OwnReadsLanded, Shaped;
    var ft := v.known[t].task;
    var task := c.plan.tasks[t];
    forall x: nat | Window(task, x)
      ensures memory(x) == c.files(task.file, task.offset + (x - task.dst - task.relative))
    {
      var byte := x - ft.task.destination;
      LandedByte(c, v, t, memory, byte);
      assert c.objects(ft.source, ft.task.offset + byte) == c.files(task.file, ft.task.offset + byte);
    }
  }

  // A task the worker has answered came with a load it took.
  lemma KnownTask(c: Config, taken: map<nat, nat>, w: nat, v: WI.View, t: nat)
    requires ConfigOk(c) && WI.Inv(v) && AllFromLoads(c, taken, w, v) && t in v.outcomes
    ensures t in v.known && FromLoad(c, taken, w, t, v.known[t].task) && Shaped(c.plan)
    ensures TaskFits(c.plan, c.files, c.objects, c.loads[c.place[t].load].home, v.known[t].task)
    ensures v.known[t].task.task.id == t && t < |c.plan.tasks|
  {
    WV.InvBooks(v);
    hide WI.Inv, TaskFits, WM.AllTasks;
    var ft := v.known[t].task;
    assert FromLoad(c, taken, w, t, ft);
    assert ft in WM.AllTasks(c.loads[c.place[t].load].work);
    assert LoadFits(c.plan, c.files, c.objects, c.loads[c.place[t].load]);
    assert PlaceFits(c.readers, c.loads, c.place[t], t);
  }

  lemma EmitDecides(c: Config, s: Sys, w: nat, t: nat)
    requires ConfigOk(c) && SysInv(c, s) && w < |s.views| && t < |s.a.phase| && t in s.views[w].outcomes
    ensures t < |c.plan.tasks| && Sent(c.plan, s.a, t)
    ensures !Dropped(c.plan, s.a, t) && t < |c.place| && c.place[t].InLoad?
    ensures c.place[t].load in s.taken && s.taken[c.place[t].load] == w
    ensures s.views[w].outcomes[t] == Success ==> Landed(c.plan.tasks[t], c.files, s.a.memory)
  {
    var v := s.views[w];
    assert WorkerOk(c, s.taken, w, v, s.a.memory);
    hide ConfigOk, WI.Inv, AllFromLoads, Answers.Inv, ReadersOk, WorkersOk, LandedKept;
    KnownTask(c, s.taken, w, v, t);
    assert TakenOk(c, s.a, s.taken, s.views, c.place[t].load);
    hide LoadsOk, TakenOk, Landed;
    SentTask(c, s.a, t);
    if v.outcomes[t] == Success {
      AnswerLands(c, s.taken, w, v, s.a.memory, t);
    }
  }

  lemma EmitStep(c: Config, s: Sys, s': Sys, w: nat, t: nat)
    requires ConfigOk(c) && SysInv(c, s) && SysNext(c, s, s', Emit(w, t))
    ensures Answers.Next(c.plan, c.files, s.a, s'.a, Decide(t, s.views[w].outcomes[t]))
    ensures SysInv(c, s')
  {
    hide ConfigOk, PlanGood, PlacesFit, Landed, Answers.Inv, ReadersOk, WorkersOk, LoadsOk, Shaped, Sent, Dropped;
    EmitDecides(c, s, w, t);
    var code := s.views[w].outcomes[t];
    GoodPlan(c);
    assert s'.a == s.a.(phase := s.a.phase[t := Decided(code)]);
    StepKeeps(c.plan, c.files, s.a, s'.a, Decide(t, code));
    hide Answers.Next;
    EmitReaders(c, s, s', t, code);
    EmitWorkers(c, s, s');
    EmitLoads(c, s, s', w, t, code);
  }

  lemma EmitReaders(c: Config, s: Sys, s': Sys, t: nat, code: ResponseCode)
    requires SysShape(c, s) && SysShape(c, s') && ReadersOk(c, s) && s'.pos == s.pos && PlacesFit(c)
    requires t < |c.place| && c.place[t].InLoad? && s'.a == s.a.(phase := s.a.phase[t := Decided(code)])
    ensures ReadersOk(c, s')
  {
    forall d | 0 <= d < |c.readers| ensures ReaderOk(c, s'.a, c.readers[d], s'.pos[d]) {
      var r := c.readers[d];
      assert ReaderOk(c, s.a, r, s.pos[d]);
      forall k | 0 <= k < |r.index| ensures SamePhase(c, s.a, s'.a, r.index[k]) {
        assert PlacedAt(c.place, r.index[k], InBatch(d, k));
        assert r.index[k] < |c.plan.tasks| && TaskHome(c.plan, r.index[k]);
      }
      hide ReaderOk, PlacesFit, SamePhase;
      ReaderSame(c, s.a, s'.a, r, s.pos[d]);
    }
  }

  lemma EmitWorkers(c: Config, s: Sys, s': Sys)
    requires WorkersOk(c, s) && s'.a.memory == s.a.memory && s'.taken == s.taken && s'.views == s.views
    ensures WorkersOk(c, s')
  {
    hide WorkerOk;
    forall w | 0 <= w < |s'.views| ensures WorkerOk(c, s'.taken, w, s'.views[w], s'.a.memory) {
      assert WorkerOk(c, s.taken, w, s.views[w], s.a.memory);
    }
  }

  lemma EmitLoads(c: Config, s: Sys, s': Sys, w: nat, t: nat, code: ResponseCode)
    requires SysShape(c, s) && SysShape(c, s') && LoadsOk(c, s) && s'.taken == s.taken && s'.views == s.views
    requires t < |c.place| && c.place[t].InLoad? && s'.a == s.a.(phase := s.a.phase[t := Decided(code)])
    requires c.place[t].load in s.taken && s.taken[c.place[t].load] == w < |s.views|
    requires t in s.views[w].outcomes && s.views[w].outcomes[t] == code
    ensures LoadsOk(c, s')
  {
    forall j | j in s.taken ensures TakenOk(c, s'.a, s'.taken, s'.views, j) {
      assert TakenOk(c, s.a, s.taken, s.views, j);
    }
    forall u: nat | u < |c.place| ensures ObjectOk(c, s'.a, s'.taken, s'.views, u) {
      assert ObjectOk(c, s.a, s.taken, s.views, u);
    }
  }

  // ---------------------------------------------------------------- every step

  // The step of the answers' protocol a step of the system is, when it is one.
  ghost function AnswerStep(c: Config, s: Sys, step: SysStep): Option<Step>
  {
    match step
    case Outer(x) => Some(x)
    case DrainTask(t) => Some(Decide(t, UnknownError))
    case Read(b) => if b < |c.readers| && b < |s.pos| then EventStep(c.readers[b], s.pos[b]) else None
    case Fill(_, _) => Some(Write)
    case Elsewhere => Some(Write)
    case Emit(w, t) => if w < |s.views| && t in s.views[w].outcomes then Some(Decide(t, s.views[w].outcomes[t]))
      else None
    case _ => None
  }

  ghost function EventStep(r: Reader, n: nat): Option<Step>
  {
    if n >= |r.trace| then None
    else
      match r.trace[n]
      case Stored(_, _) => Some(Write)
      case Done(k, code) => if k < |r.index| then Some(Decide(r.index[k], code)) else None
  }

  ghost predicate Follows(c: Config, a: State, a': State, x: Option<Step>)
  {
    match x
    case Some(y) => Shaped(c.plan) && Answers.Next(c.plan, c.files, a, a', y)
    case None => a' == a
  }

  lemma ReadStep(c: Config, s: Sys, s': Sys, b: nat)
    requires ConfigOk(c) && SysInv(c, s) && SysNext(c, s, s', Read(b))
    ensures SysInv(c, s') && b < |c.readers| && b < |s.pos| && Follows(c, s.a, s'.a, EventStep(c.readers[b], s.pos[b]))
  {
    hide ConfigOk, SysInv, Answers.Next, AfterEvent, HomeSent;
    if c.readers[b].trace[s.pos[b]].Stored? {
      ReadStored(c, s, s', b);
    } else {
      ReadDone(c, s, s', b);
    }
  }

  lemma EmitFollows(c: Config, s: Sys, s': Sys, w: nat, t: nat)
    requires ConfigOk(c) && SysInv(c, s) && SysNext(c, s, s', Emit(w, t))
    ensures SysInv(c, s') && Follows(c, s.a, s'.a, AnswerStep(c, s, Emit(w, t)))
  {
    hide ConfigOk, SysInv, Answers.Next;
    EmitStep(c, s, s', w, t);
  }

  lemma OuterFollows(c: Config, s: Sys, s': Sys, x: Step)
    requires ConfigOk(c) && SysInv(c, s) && SysNext(c, s, s', Outer(x))
    ensures SysInv(c, s') && Follows(c, s.a, s'.a, Some(x))
  {
    hide ConfigOk, SysInv, Answers.Next;
    OuterStep(c, s, s', x);
  }

  // A worker's own steps decide nothing and write nothing.
  lemma WorkerFollows(c: Config, s: Sys, s': Sys, step: SysStep)
    requires SysNext(c, s, s', step) && (step.Admit? || step.Worker? || step.Land?)
    ensures s'.a == s.a
  {
    hide WV.MovesTo, BytesAt, HomeSent, OwnMove;
  }

  // Whatever the system does is a step of the answers' protocol, or changes nothing the protocol speaks of.
  lemma StepRefines(c: Config, s: Sys, s': Sys, step: SysStep)
    requires ConfigOk(c) && SysInv(c, s) && SysNext(c, s, s', step)
    ensures SysInv(c, s') && Follows(c, s.a, s'.a, AnswerStep(c, s, step))
  {
    GoodPlan(c);
    hide ConfigOk, SysInv, SysNext, Answers.Next, PlanGood, PlacesFit, Shaped, EventStep;
    match step
    case Outer(x) => OuterFollows(c, s, s', x);
    case DrainTask(t) => DrainStep(c, s, s', t);
    case Read(b) => ReadStep(c, s, s', b);
    case Admit(w, j, m) =>
      AdmitStep(c, s, s', w, j, m);
      WorkerFollows(c, s, s', step);
    case Worker(w, m) =>
      WorkerStep(c, s, s', w, m);
      WorkerFollows(c, s, s', step);
    case Land(w, hs) =>
      LandStep(c, s, s', w, hs);
      WorkerFollows(c, s, s', step);
    case Fill(w, h) => FillStep(c, s, s', w, h);
    case Emit(w, t) => EmitFollows(c, s, s', w, t);
    case Elsewhere => ElsewhereStep(c, s, s');
  }
}

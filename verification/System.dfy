// Everything that runs at once: batches read from the file system, object-storage workers with their backend,
// the dispatch of submissions and the end of every task, interleaved in any way over one memory.
module System {
  import opened Codes
  import opened Batches
  import opened Events
  import opened Traces
  import opened Answers
  import WM = WorkerModel
  import WI = WorkerInvariant
  import WV = WorkerMoves
  import WO = WorkerOwners

  // ---------------------------------------------------------------- what is to be done, and by whom

  // A batch read from a file: the tasks of the plan it reads, the file's bytes, and what its thread does.
  datatype Reader = Reader(home: Home, index: seq<nat>, content: seq<int>, trace: seq<Event>)

  // A workload for the object-storage pool; the identity of a task is its number in the plan.
  datatype Load = Load(home: Home, work: WM.Workload)

  datatype Place = InBatch(reader: nat, k: nat) | InLoad(load: nat, i: nat)

  // The byte of a source at an offset.
  type Objects = (nat, nat) -> int

  datatype Config = Config(
    plan: Plan,
    files: Files,
    objects: Objects,
    readers: seq<Reader>,
    loads: seq<Load>,
    place: seq<Place>,
    workers: nat,
    window: nat,
    cb: nat)

  ghost predicate Indexed(p: Plan, r: Reader)
    requires Shaped(p)
  {
    forall k :: 0 <= k < |r.index| ==> r.index[k] < |p.tasks| && p.home[r.index[k]] == r.home
  }

  ghost function Local(p: Plan, r: Reader): seq<RangeTask>
    requires Shaped(p) && Indexed(p, r)
  {
    seq(|r.index|, k requires 0 <= k < |r.index| => p.tasks[r.index[k]])
  }

  // The thread's trace is a truthful one, as Batch.Execute leaves it, of the bytes of the right file.
  ghost predicate ReaderFits(p: Plan, files: Files, r: Reader)
    requires Shaped(p)
  {
    && Indexed(p, r) && HomeFits(p, r.home)
    && (forall k, i :: 0 <= k < |r.index| && 0 <= i < |r.content| ==>
      r.content[i] == files(p.tasks[r.index[k]].file, i))
    && Good(Local(p, r), r.content, r.trace) && AllDone(Local(p, r), r.trace)
  }

  ghost predicate HomeFits(p: Plan, h: Home) { h.submission < |p.parts| && h.workload < p.parts[h.submission] }

  // The worker's task is the plan's task, and its source has the bytes of the task's file.
  ghost predicate TaskFits(p: Plan, files: Files, objects: Objects, home: Home, ft: WM.FileTask)
    requires Shaped(p)
  {
    && ft.task.id < |p.tasks| && p.home[ft.task.id] == home
    && var t := p.tasks[ft.task.id];
    && ft.task.offset == t.offset && ft.task.bytesize == t.size && ft.task.destination == t.dst + t.relative
    && forall o: nat :: objects(ft.source, o) == files(t.file, o)
  }

  ghost predicate LoadFits(p: Plan, files: Files, objects: Objects, l: Load)
    requires Shaped(p)
  {
    && WM.DistinctIds(WM.AllTasks(l.work)) && HomeFits(p, l.home)
    && forall ft :: ft in WM.AllTasks(l.work) ==> TaskFits(p, files, objects, l.home, ft)
  }

  ghost predicate PlaceFits(readers: seq<Reader>, loads: seq<Load>, place: Place, t: nat)
  {
    match place
    case InBatch(b, k) => b < |readers| && k < |readers[b].index| && readers[b].index[k] == t
    case InLoad(j, i) => j < |loads| && i < |WM.AllTasks(loads[j].work)| && WM.AllTasks(loads[j].work)[i].task.id == t
  }

  ghost predicate PlacedAt(place: seq<Place>, t: nat, p: Place) { t < |place| && place[t] == p }

  // Every task is done in one place, and only there.
  ghost predicate Placing(readers: seq<Reader>, loads: seq<Load>, place: seq<Place>)
  {
    && (forall t :: 0 <= t < |place| ==> PlaceFits(readers, loads, place[t], t))
    && (forall b, k :: 0 <= b < |readers| && 0 <= k < |readers[b].index| ==>
      PlacedAt(place, readers[b].index[k], InBatch(b, k)))
    && (forall j, i :: 0 <= j < |loads| && 0 <= i < |WM.AllTasks(loads[j].work)| ==>
          PlacedAt(place, WM.AllTasks(loads[j].work)[i].task.id, InLoad(j, i)))
  }

  ghost predicate PlacesFit(c: Config)
  {
    |c.place| == |c.plan.tasks| && Placing(c.readers, c.loads, c.place)
  }

  ghost predicate ConfigOk(c: Config)
  {
    && PlanGood(c.plan)
    && (forall b :: 0 <= b < |c.readers| ==> ReaderFits(c.plan, c.files, c.readers[b]))
    && (forall j :: 0 <= j < |c.loads| ==> LoadFits(c.plan, c.files, c.objects, c.loads[j]))
    && PlacesFit(c)
    && c.workers > 0 && c.window > 0 && c.cb > 0
  }

  // ---------------------------------------------------------------- states and steps

  // pos: how far each batch's thread has come. taken: which worker took which load from the pool.
  datatype Sys = Sys(a: State, pos: seq<nat>, taken: map<nat, nat>, views: seq<WI.View>)

  datatype SysStep =
    | Outer(step: Step)
    | DrainTask(t: nat)
    | Read(reader: nat)
    | Admit(w: nat, load: nat, move: WV.Move)
    | Worker(w: nat, move: WV.Move)
    | Land(w: nat, handles: set<nat>)
    | Fill(w: nat, handle: nat)
    | Emit(w: nat, t: nat)
    | Elsewhere

  ghost function Start(cb: nat): WI.View
  {
    WI.View(map[], map[], [], {}, 0, 1, cb, map[], map[], {}, map[], map[])
  }

  ghost predicate SysInit(c: Config, s: Sys)
  {
    && Answers.Init(c.plan, s.a)
    && |s.pos| == |c.readers| && (forall b :: 0 <= b < |s.pos| ==> s.pos[b] == 0)
    && s.taken == map[]
    && |s.views| == c.workers && forall w :: 0 <= w < |s.views| ==> s.views[w] == Start(c.cb)
  }

  ghost predicate HomeSent(a: State, h: Home)
  {
    && h.submission < |a.dispatch| && !a.dispatch[h.submission].Planned?
    && h.workload < a.dispatch[h.submission].next
  }

  function Overwritten(memory: Memory, at: nat, bytes: seq<int>): Memory
  {
    (x: nat) => if at <= x < at + |bytes| then bytes[x - at] else memory(x)
  }

  // What an event of a batch's thread does: bytes into memory, or a task's outcome.
  ghost function AfterEvent(r: Reader, a: State, e: Event): State
  {
    match e
    case Stored(at, bytes) => a.(memory := Overwritten(a.memory, at, bytes))
    case Done(k, code) =>
      if k < |r.index| && r.index[k] < |a.phase| then a.(phase := a.phase[r.index[k] := Decided(code)]) else a
  }

  ghost predicate InBuffer(r: WM.Read, x: nat) { r.buffer <= x < r.buffer + r.bytesize }

  // The object's bytes are in the read's buffer.
  ghost predicate BytesAt(objects: Objects, r: WM.Read, memory: Memory)
  {
    forall x: nat :: InBuffer(r, x) ==> memory(x) == objects(r.source, r.offset + (x - r.buffer))
  }

  ghost predicate InWindow(p: Plan, t: nat, x: nat) { t < |p.tasks| && Window(p.tasks[t], x) }

  // Some task reads to the address.
  ghost predicate InSomeWindow(p: Plan, x: nat) { exists t: nat :: InWindow(p, t, x) }

  // A worker's own moves: it submits, accounts for completions, or gives up what it has.
  ghost predicate OwnMove(v: WI.View, m: WV.Move)
  {
    match m
    case Take => true
    case Complete(_, _, _) => true
    case Late(_) => true
    case Abort(_) => v.specs != map[]
    case _ => false
  }

  // Nothing here asks whether a task's bytes are in place before it is called a success, or who is done when
  // memory is written. The backend: an outstanding read writes inside its own buffer, at any moment; it is
  // reported as successful only with the object's bytes there, and writes no more after that. Elsewhere: what the
  // rest of the process does to memory that is no task's destination.
  ghost predicate SysNext(c: Config, s: Sys, s': Sys, step: SysStep)
  {
    && Shaped(c.plan)
    && match step
       case Outer(x) =>
         && !x.Write? && !x.Decide?
         && s' == s.(a := s'.a) && Answers.Next(c.plan, c.files, s.a, s'.a, x)
       case DrainTask(t) =>
         && SameShape(c.plan, s.a) && t < |c.plan.tasks| && s.a.phase[t] == Todo && Dropped(c.plan, s.a, t)
         && s' == s.(a := s.a.(phase := s.a.phase[t := Decided(UnknownError)]))
       case Read(b) =>
         && b < |c.readers| && b < |s.pos| && s.pos[b] < |c.readers[b].trace| && HomeSent(s.a, c.readers[b].home)
         && s' == s.(pos := s.pos[b := s.pos[b] + 1], a := AfterEvent(c.readers[b], s.a, c.readers[b].trace[s.pos[b]]))
       case Admit(w, j, m) =>
         && w < |s.views| == |s'.views| && j < |c.loads| && j !in s.taken && HomeSent(s.a, c.loads[j].home)
         && (m.Admit? || m.Discard?) && m.w == c.loads[j].work && WV.MovesTo(s.views[w], s'.views[w], m)
         && s' == s.(taken := s.taken[j := w], views := s.views[w := s'.views[w]])
       case Worker(w, m) =>
         && w < |s.views| == |s'.views| && OwnMove(s.views[w], m) && WV.MovesTo(s.views[w], s'.views[w], m)
         && s' == s.(views := s.views[w := s'.views[w]])
       case Land(w, hs) =>
         && w < |s.views| && hs != {} && hs <= s.views[w].out - s.views[w].landed && hs <= s.views[w].owner.Keys
         && (forall h :: h in hs ==> BytesAt(c.objects, s.views[w].owner[h].read, s.a.memory))
         && s' == s.(views := s.views[w := s.views[w].(landed := s.views[w].landed + hs)])
       case Fill(w, h) =>
         && w < |s.views| && h in s.views[w].out && h !in s.views[w].landed && h in s.views[w].owner
         && s' == s.(a := s.a.(memory := s'.a.memory))
         && forall x: nat :: !InBuffer(s.views[w].owner[h].read, x) ==> s'.a.memory(x) == s.a.memory(x)
       case Emit(w, t) =>
         && w < |s.views| && t < |s.a.phase| && t in s.views[w].outcomes && s.a.phase[t] == Todo
         && s' == s.(a := s.a.(phase := s.a.phase[t := Decided(s.views[w].outcomes[t])]))
       case Elsewhere =>
         && s' == s.(a := s.a.(memory := s'.a.memory))
         && forall x: nat :: InSomeWindow(c.plan, x) ==> s'.a.memory(x) == s.a.memory(x)
  }

  // ---------------------------------------------------------------- the invariant

  ghost predicate TaskRead(c: Config, a: State, done: seq<Event>, t: nat, k: nat)
    requires Shaped(c.plan) && SameShape(c.plan, a) && t < |c.plan.tasks|
  {
    && (Answers.Succeeded(a.phase[t]) ==> SucceededIn(done, k))
    && (DoneIn(done, k) ==> a.phase[t] != Todo)
    && (a.phase[t] != Todo ==> DoneIn(done, k) || Dropped(c.plan, a, t))
  }

  // What a thread stored last is still there.
  ghost predicate StoresKept(done: seq<Event>, memory: Memory)
  {
    forall x: nat :: Last(done, x).Byte? ==> memory(x) == Last(done, x).value
  }

  ghost predicate ReaderOk(c: Config, a: State, r: Reader, n: nat)
    requires Shaped(c.plan) && SameShape(c.plan, a) && Indexed(c.plan, r)
  {
    && n <= |r.trace|
    && (n > 0 ==> HomeSent(a, r.home))
    && (forall k :: 0 <= k < |r.index| ==> TaskRead(c, a, r.trace[..n], r.index[k], k))
    && StoresKept(r.trace[..n], a.memory)
  }

  // A task the worker knows came with a load it took.
  ghost predicate FromLoad(c: Config, taken: map<nat, nat>, w: nat, id: nat, ft: WM.FileTask)
  {
    && id < |c.place| && c.place[id].InLoad? && c.place[id].load in taken && taken[c.place[id].load] == w
    && c.place[id].load < |c.loads| && c.place[id].i < |WM.AllTasks(c.loads[c.place[id].load].work)|
    && WM.AllTasks(c.loads[c.place[id].load].work)[c.place[id].i] == ft
  }

  ghost predicate AllFromLoads(c: Config, taken: map<nat, nat>, w: nat, v: WI.View)
  {
    forall id :: id in v.known ==> FromLoad(c, taken, w, id, v.known[id].task)
  }

  ghost predicate LandedKept(c: Config, v: WI.View, memory: Memory)
  {
    forall h :: h in v.landed ==> h in v.owner && BytesAt(c.objects, v.owner[h].read, memory)
  }

  ghost predicate WorkerOk(c: Config, taken: map<nat, nat>, w: nat, v: WI.View, memory: Memory)
  {
    WI.Inv(v) && v.cb == c.cb && AllFromLoads(c, taken, w, v) && LandedKept(c, v, memory)
  }

  ghost predicate TakenOk(c: Config, a: State, taken: map<nat, nat>, views: seq<WI.View>, j: nat)
    requires j in taken
  {
    && j < |c.loads| && taken[j] < |views| && HomeSent(a, c.loads[j].home)
    && forall ft :: ft in WM.AllTasks(c.loads[j].work) ==> ft.task.id in views[taken[j]].known
  }

  // A load's task was decided by its worker, or by the drain; it succeeded only if its worker says so.
  ghost predicate ObjectOk(c: Config, a: State, taken: map<nat, nat>, views: seq<WI.View>, t: nat)
    requires Shaped(c.plan) && SameShape(c.plan, a) && t < |c.place| == |c.plan.tasks|
  {
    && SuccessOk(c, a, taken, views, t)
    && (c.place[t].InLoad? && a.phase[t] != Todo ==> Dropped(c.plan, a, t) || AnsweredBy(c, taken, views, t))
  }

  // The task's worker has an answer for it.
  ghost predicate AnsweredBy(c: Config, taken: map<nat, nat>, views: seq<WI.View>, t: nat)
    requires t < |c.place| && c.place[t].InLoad?
  {
    && c.place[t].load in taken && taken[c.place[t].load] < |views|
    && t in views[taken[c.place[t].load]].outcomes
  }

  ghost predicate SuccessOk(c: Config, a: State, taken: map<nat, nat>, views: seq<WI.View>, t: nat)
    requires t < |c.place| && t < |a.phase|
  {
    c.place[t].InLoad? && Answers.Succeeded(a.phase[t]) ==>
      && c.place[t].load in taken && taken[c.place[t].load] < |views|
      && WI.Succeeded(t, views[taken[c.place[t].load]].outcomes)
  }

  ghost predicate SysShape(c: Config, s: Sys)
  {
    && Shaped(c.plan) && SameShape(c.plan, s.a) && |s.pos| == |c.readers| && |s.views| == c.workers
    && |c.place| == |c.plan.tasks|
    && forall b :: 0 <= b < |c.readers| ==> Indexed(c.plan, c.readers[b])
  }

  ghost predicate ReadersOk(c: Config, s: Sys)
    requires SysShape(c, s)
  {
    forall b :: 0 <= b < |c.readers| ==> ReaderOk(c, s.a, c.readers[b], s.pos[b])
  }

  ghost predicate WorkersOk(c: Config, s: Sys)
  {
    forall w :: 0 <= w < |s.views| ==> WorkerOk(c, s.taken, w, s.views[w], s.a.memory)
  }

  ghost predicate LoadsOk(c: Config, s: Sys)
    requires SysShape(c, s)
  {
    && (forall j :: j in s.taken ==> TakenOk(c, s.a, s.taken, s.views, j))
    && forall t :: 0 <= t < |c.place| ==> ObjectOk(c, s.a, s.taken, s.views, t)
  }

  ghost predicate SysInv(c: Config, s: Sys)
  {
    && SysShape(c, s)
    && Answers.Inv(c.plan, c.files, s.a)
    && ReadersOk(c, s) && WorkersOk(c, s) && LoadsOk(c, s)
  }

  // ---------------------------------------------------------------- who writes where

  lemma OneWindow(p: Plan, t: nat, u: nat, x: nat)
    requires PlanGood(p) && InWindow(p, t, x) && InWindow(p, u, x)
    ensures t == u
  {
  }

  // What a thread stores lies in the windows of its own tasks.
  lemma {:induction false} ReaderWindow(p: Plan, files: Files, r: Reader, n: nat, x: nat) returns (k: nat)
    requires Shaped(p) && ReaderFits(p, files, r) && n <= |r.trace| && Last(r.trace[..n], x).Byte?
    ensures k < |r.index| && InWindow(p, r.index[k], x)
  {
    var done, e := r.trace[..n - 1], r.trace[n - 1];
    assert r.trace[..n] == done + [e];
    LastNext(done, e, x);
    if e.Stored? && e.at <= x < e.at + |e.bytes| {
      assert EventOk(Local(p, r), r.content, done, e);
      assert OpenAt(Local(p, r), done, x);
      k :| k < |Local(p, r)| && Window(Local(p, r)[k], x) && !DoneIn(done, k);
    } else {
      k := ReaderWindow(p, files, r, n - 1, x);
    }
  }

  // A handle's buffer lies in the window of its task, which came with a load of this worker.
  lemma OwnerWindow(c: Config, taken: map<nat, nat>, w: nat, v: WI.View, h: nat)
    requires ConfigOk(c) && WI.OwnersOk(v) && AllFromLoads(c, taken, w, v) && h in v.owner
    ensures var o := v.owner[h];
            && o.id in v.known && FromLoad(c, taken, w, o.id, v.known[o.id].task)
            && TaskFits(c.plan, c.files, c.objects, c.loads[c.place[o.id].load].home, v.known[o.id].task)
            && v.known[o.id].task.task.id == o.id
            && (forall x: nat :: InBuffer(o.read, x) ==> InWindow(c.plan, o.id, x))
  {
    var o := v.owner[h];
    assert WI.OwnerOk(h, o, v.known, v.specs, v.cb);
    var ft := v.known[o.id].task;
    assert FromLoad(c, taken, w, o.id, ft);
    assert ft in WM.AllTasks(c.loads[c.place[o.id].load].work);
    assert LoadFits(c.plan, c.files, c.objects, c.loads[c.place[o.id].load]);
    assert PlaceFits(c.readers, c.loads, c.place[o.id], o.id);
    WO.ReadInside(ft, v.cb, o.read);
  }
}

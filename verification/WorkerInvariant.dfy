// What every step of the object-storage worker keeps: accounting of handles, counters, credit and answers.
module WorkerInvariant {
  import opened Codes
  import opened WorkerModel

  // A live workload's tasks (all, and those that need reading) and the chunks they are read in.
  datatype Spec = Spec(all: seq<FileTask>, ts: seq<FileTask>, plan: seq<Piece>)

  // An admitted task and the base of its handle block (0 when it needed none).
  datatype Known = Known(task: FileTask, home: nat)

  // What a handle was reserved for, for ever: a task and the read of one of its chunks.
  datatype Owned = Owned(id: nat, read: Read)

  // A snapshot of everything the invariant speaks about.
  //   specs    - the layout of each live workload
  //   out      - handles taken from the window and not yet accounted for (at the backend, or on
  //              their way through submit / drain_batch)
  //   verdicts - the code each accounted-for handle was completed with
  //   landed   - the handles whose reads the backend reported as successful
  //   known    - every task of an admitted workload, by identity
  //   owner    - every handle ever reserved, also those of erased blocks
  datatype View = View(
    blocks: map<nat, Inflight>,
    specs: map<nat, Spec>,
    pending: seq<Chunk>,
    out: set<nat>,
    credit: nat,
    counter: nat,
    cb: nat,
    outcomes: map<nat, ResponseCode>,
    verdicts: map<nat, ResponseCode>,
    landed: set<nat>,
    known: map<nat, Known>,
    owner: map<nat, Owned>)

  function SpecOf(w: Workload, cb: nat): Spec
    requires cb > 0
  {
    var all := AllTasks(w);
    var ts := NonZero(all);
    Spec(all, ts, Layout(ts, cb))
  }

  // The reads a task is split into.
  ghost function ReadsOf(t: FileTask, cb: nat): set<Read>
    requires cb > 0
  {
    set p | p in Pieces(0, t, cb, 0) :: p.read
  }

  ghost function PendingHandles(pending: seq<Chunk>): set<nat>
  {
    set i | 0 <= i < |pending| :: pending[i].handle
  }

  ghost function Alive(v: View): set<nat> { PendingHandles(v.pending) + v.out }

  // The handle lies in the block of a workload laid out as s.
  ghost predicate InBlock(base: nat, s: Spec, h: nat)
  {
    base <= h < base + |s.plan|
  }

  // The simple search: some live block contains the handle.
  ghost predicate Live(specs: map<nat, Spec>, h: nat)
  {
    exists base :: base in specs && InBlock(base, specs[base], h)
  }

  ghost function LiveOut(specs: map<nat, Spec>, out: set<nat>): set<nat>
  {
    set h | h in out && Live(specs, h)
  }

  // Handles of task k's chunks that are still pending or outstanding.
  ghost function Left(base: nat, s: Spec, k: nat, alive: set<nat>): set<nat>
  {
    set h | h in alive && InBlock(base, s, h) && s.plan[h - base].task == k
  }

  ghost function Unfinished(tasks: seq<TaskState>): set<nat>
  {
    set k: nat | 0 <= k < |tasks| && tasks[k].remainingChunks > 0
  }

  // ---------------------------------------------------------------- one block

  ghost predicate SpecShape(s: Spec)
  {
    && |s.plan| > 0
    && (forall i :: 0 <= i < |s.plan| ==> s.plan[i].task < |s.ts|)
    && DistinctIds(s.all)
    && DistinctIds(s.ts)
    && (forall k :: 0 <= k < |s.ts| ==> s.ts[k] in s.all && s.ts[k].task.bytesize != 0)
    && (forall t :: t in s.all && t.task.bytesize != 0 ==> t in s.ts)
  }

  ghost predicate Shape(b: Inflight, s: Spec)
  {
    && SpecShape(s)
    && |b.chunkTaskIdx| == |s.plan|
    && (forall i :: 0 <= i < |s.plan| ==> b.chunkTaskIdx[i] == s.plan[i].task)
    && |b.tasks| == |s.ts|
    && (forall k :: 0 <= k < |s.ts| ==> b.tasks[k].owner == s.ts[k])
  }

  // The counters are exactly what is left.
  ghost predicate Counts(base: nat, b: Inflight, s: Spec, alive: set<nat>)
  {
    && (forall k :: 0 <= k < |b.tasks| ==> b.tasks[k].remainingChunks == |Left(base, s, k, alive)|)
    && b.remainingTasks == |Unfinished(b.tasks)|
  }

  // A chunk that is no longer alive has a verdict, and a task's error reflects its verdicts.
  ghost predicate Judged(base: nat, b: Inflight, s: Spec, alive: set<nat>, verdicts: map<nat, ResponseCode>)
    requires Shape(b, s)
  {
    && (forall h :: InBlock(base, s, h) ==> (h in alive <==> h !in verdicts))
    && (forall h :: h in verdicts && InBlock(base, s, h) && verdicts[h] != Success ==>
          b.tasks[s.plan[h - base].task].error != Success)
    && (forall k :: 0 <= k < |b.tasks| && b.tasks[k].error != Success ==>
          FailedChunk(base, s, k, b.tasks[k].error, verdicts))
  }

  ghost predicate FailedChunk(base: nat, s: Spec, k: nat, error: ResponseCode, verdicts: map<nat, ResponseCode>)
  {
    exists h :: h in verdicts && InBlock(base, s, h) && s.plan[h - base].task == k && verdicts[h] == error
  }

  ghost predicate TaskDone(t: TaskState) { t.remainingChunks == 0 && t.error == Success }

  ghost predicate TaskFailed(t: TaskState) { t.remainingChunks == 0 && t.error != Success }

  // What has been reported for the tasks of a live workload, and what has been recorded per file.
  ghost predicate Reported(b: Inflight, s: Spec, outcomes: map<nat, ResponseCode>)
  {
    && (forall k :: 0 <= k < |b.tasks| ==> TaskReported(b.tasks[k], outcomes))
    && (forall t :: t in s.all && t.task.bytesize == 0 ==>
          t.task.id in outcomes && outcomes[t.task.id] == Success)
    && (forall k :: 0 <= k < |b.tasks| && TaskFailed(b.tasks[k]) ==>
          b.tasks[k].owner.fileIndex in b.errorByFile)
    && (forall f :: f in b.errorByFile ==> FileError(b, f))
  }

  ghost predicate TaskReported(t: TaskState, outcomes: map<nat, ResponseCode>)
  {
    var id := t.owner.task.id;
    && (id in outcomes <==> TaskDone(t))
    && (id in outcomes ==> outcomes[id] == Success)
  }

  // The error recorded for a file is that of one of its failed tasks.
  ghost predicate FileError(b: Inflight, f: nat)
    requires f in b.errorByFile
  {
    exists k :: 0 <= k < |b.tasks| && TaskFailed(b.tasks[k]) && b.tasks[k].owner.fileIndex == f
                && b.tasks[k].error == b.errorByFile[f]
  }

  ghost predicate BlockOk(base: nat, b: Inflight, s: Spec, alive: set<nat>, outcomes: map<nat, ResponseCode>,
                          verdicts: map<nat, ResponseCode>)
  {
    && Shape(b, s)
    && Counts(base, b, s, alive)
    && Judged(base, b, s, alive, verdicts)
    && Reported(b, s, outcomes)
  }

  // ---------------------------------------------------------------- the whole worker

  // Handle blocks are disjoint and below the counter they are drawn from; handle 0 is never used.
  ghost predicate Disjoint(specs: map<nat, Spec>, counter: nat)
  {
    && (forall b :: b in specs ==> 1 <= b < b + |specs[b].plan| <= counter)
    && (forall b1, b2 :: b1 in specs && b2 in specs && b1 < b2 ==> b1 + |specs[b1].plan| <= b2)
  }

  ghost predicate At(v: View, base: nat)
  {
    && base in v.blocks && base in v.specs
    && BlockOk(base, v.blocks[base], v.specs[base], Alive(v), v.outcomes, v.verdicts)
  }

  ghost predicate BlocksOk(v: View)
  {
    forall base :: base in v.specs ==> At(v, base)
  }

  ghost predicate PendingOk(pending: seq<Chunk>, out: set<nat>, specs: map<nat, Spec>)
  {
    && (forall i, j :: 0 <= i < j < |pending| ==> pending[i].handle != pending[j].handle)
    && (forall i :: 0 <= i < |pending| ==> ChunkOk(specs, pending[i]))
    && (forall i :: 0 <= i < |pending| ==> pending[i].handle !in out)
  }

  // A pending chunk belongs to a live block and is the one the layout puts at its handle.
  ghost predicate ChunkOk(specs: map<nat, Spec>, c: Chunk)
  {
    exists base :: base in specs && InBlock(base, specs[base], c.handle)
                   && ChunkAt(c, specs[base].plan[c.handle - base].read)
  }

  ghost predicate ChunkAt(c: Chunk, r: Read)
  {
    c.offset == r.offset && c.bytesize == r.bytesize && c.buffer == r.buffer
  }

  // Window credit is the number of live outstanding chunks.
  ghost predicate CreditOk(credit: nat, specs: map<nat, Spec>, out: set<nat>)
  {
    credit == |LiveOut(specs, out)|
  }

  ghost predicate Below(hs: set<nat>, counter: nat)
  {
    forall h :: h in hs ==> h < counter
  }

  // An admitted task has been answered or belongs to a live workload.
  ghost predicate KnownOk(known: map<nat, Known>, outcomes: map<nat, ResponseCode>, bases: set<nat>)
  {
    && (forall id :: id in known ==> id in outcomes || known[id].home in bases)
    && (forall id :: id in outcomes ==> id in known)
  }

  // A live workload's tasks are known, and know where they live.
  ghost predicate HomeOk(specs: map<nat, Spec>, known: map<nat, Known>)
  {
    && (forall id :: id in known ==> known[id].task.task.id == id)
    && (forall base :: base in specs ==> Homed(base, specs[base], known))
    && (forall id :: id in known && known[id].home in specs ==>
          known[id].task in specs[known[id].home].all)
  }

  ghost predicate Homed(base: nat, s: Spec, known: map<nat, Known>)
  {
    && (forall t :: t in s.all ==>
          t.task.id in known && known[t.task.id].task == t && known[t.task.id].home == base)
    && SourcesOk(s)
  }

  // Every chunk is read from its task's object.
  ghost predicate SourcesOk(s: Spec)
  {
    forall i :: 0 <= i < |s.plan| ==>
      s.plan[i].task < |s.ts| && s.plan[i].read.source == s.ts[s.plan[i].task].source
  }

  // The layouts are those of the workloads held.
  ghost predicate Computed(blocks: map<nat, Inflight>, specs: map<nat, Spec>)
  {
    && blocks.Keys == specs.Keys
    && (forall base {:trigger AllTasks(blocks[base].workload)} :: base in blocks ==>
          specs[base].all == AllTasks(blocks[base].workload))
  }

  // Handle blocks are never reused: every home lies below the counter.
  ghost predicate HomesBelow(known: map<nat, Known>, counter: nat)
  {
    forall id :: id in known ==> known[id].home < counter
  }

  // ---------------------------------------------------------------- handles, for ever

  // A handle's task is known, its read is one of those the task is split into, and while the task's block
  // lives the handle lies in it.
  ghost predicate OwnerOk(h: nat, o: Owned, known: map<nat, Known>, specs: map<nat, Spec>, cb: nat)
    requires cb > 0
  {
    && o.id in known && o.read in ReadsOf(known[o.id].task, cb)
    && (known[o.id].home in specs ==> InBlock(known[o.id].home, specs[known[o.id].home], h))
  }

  ghost predicate OwnersKnown(owner: map<nat, Owned>, known: map<nat, Known>, specs: map<nat, Spec>, counter: nat,
                              cb: nat)
    requires cb > 0
  {
    forall h :: h in owner ==> h < counter && OwnerOk(h, owner[h], known, specs, cb)
  }

  // The handle at position i of a block belongs to the chunk its layout has there.
  ghost predicate ChunkOwned(s: Spec, i: nat, o: Owned)
  {
    i < |s.plan| && s.plan[i].task < |s.ts| && o == Owned(s.ts[s.plan[i].task].task.id, s.plan[i].read)
  }

  ghost predicate BlockOwned(base: nat, s: Spec, owner: map<nat, Owned>)
  {
    forall h: nat :: InBlock(base, s, h) ==> h in owner && ChunkOwned(s, h - base, owner[h])
  }

  ghost predicate BlocksOwned(specs: map<nat, Spec>, owner: map<nat, Owned>, cb: nat)
    requires cb > 0
  {
    forall base :: base in specs ==>
      specs[base].plan == Layout(specs[base].ts, cb) && BlockOwned(base, specs[base], owner)
  }

  ghost predicate Succeeded(id: nat, outcomes: map<nat, ResponseCode>) { id in outcomes && outcomes[id] == Success }

  // No read of a task answered Success is pending or outstanding, not even a late one: nobody writes there.
  ghost predicate AliveOpen(alive: set<nat>, owner: map<nat, Owned>, outcomes: map<nat, ResponseCode>)
  {
    forall h :: h in alive ==> h in owner && !Succeeded(owner[h].id, outcomes)
  }

  ghost predicate HasHandle(id: nat, r: Read, owner: map<nat, Owned>)
  {
    exists h :: h in owner && owner[h] == Owned(id, r)
  }

  // Each read of the task has a handle of its own, and all of the task's own handles were judged Success.
  ghost predicate AllJudged(id: nat, t: FileTask, owner: map<nat, Owned>, verdicts: map<nat, ResponseCode>, cb: nat)
    requires cb > 0
  {
    && (forall r :: r in ReadsOf(t, cb) ==> HasHandle(id, r, owner))
    && (forall h :: h in owner && owner[h].id == id ==> h in verdicts && verdicts[h] == Success)
  }

  ghost predicate Truthful(known: map<nat, Known>, outcomes: map<nat, ResponseCode>, owner: map<nat, Owned>,
                           verdicts: map<nat, ResponseCode>, cb: nat)
    requires cb > 0
  {
    forall id :: id in known && Succeeded(id, outcomes) ==> AllJudged(id, known[id].task, owner, verdicts, cb)
  }

  // A verdict of Success is the backend's own report for that very handle.
  ghost predicate VerdictsLanded(verdicts: map<nat, ResponseCode>, landed: set<nat>)
  {
    forall h :: h in verdicts && verdicts[h] == Success ==> h in landed
  }

  ghost predicate Apart(r: Read, q: Read)
  {
    r.buffer + r.bytesize <= q.buffer || q.buffer + q.bytesize <= r.buffer
  }

  // Different handles of one task write to different places.
  ghost predicate OwnersApart(owner: map<nat, Owned>)
  {
    forall g, h :: g in owner && h in owner && g != h && owner[g].id == owner[h].id ==>
      Apart(owner[g].read, owner[h].read)
  }

  ghost predicate OwnersOk(v: View)
  {
    && v.cb > 0
    && OwnersApart(v.owner)
    && OwnersKnown(v.owner, v.known, v.specs, v.counter, v.cb)
    && BlocksOwned(v.specs, v.owner, v.cb)
    && AliveOpen(Alive(v), v.owner, v.outcomes)
    && Truthful(v.known, v.outcomes, v.owner, v.verdicts, v.cb)
    && VerdictsLanded(v.verdicts, v.landed)
  }

  // ---------------------------------------------------------------- everything

  ghost predicate Books(v: View)
  {
    && v.cb > 0
    && Computed(v.blocks, v.specs)
    && BlocksOk(v)
    && Disjoint(v.specs, v.counter)
    && PendingOk(v.pending, v.out, v.specs)
    && CreditOk(v.credit, v.specs, v.out)
    && v.counter >= 1
    && Below(v.out, v.counter)
    && Below(v.verdicts.Keys, v.counter)
    && KnownOk(v.known, v.outcomes, v.specs.Keys)
    && HomeOk(v.specs, v.known)
    && HomesBelow(v.known, v.counter)
  }

  // The invariant, except that a block whose last task has just landed may still be there.
  ghost predicate Core(v: View)
  {
    Books(v) && OwnersOk(v)
  }

  // No finished workload lingers.
  ghost predicate NoneDone(blocks: map<nat, Inflight>)
  {
    forall base :: base in blocks ==> blocks[base].remainingTasks > 0
  }

  ghost predicate Inv(v: View)
  {
    Core(v) && NoneDone(v.blocks)
  }
}

// Reading one batch from a file system: chunk by chunk, finishing tasks as their bytes arrive.
module BatchReader {
  import opened Codes
  import opened Events
  import opened Fd
  import opened Batches
  import opened Traces

  datatype Outcome = Unfinished | Finished(code: ResponseCode)

  // The process-wide stop flag: once set it stays set, and it may be set at any moment.
  class StopFlag {
    var raised: bool
    // How many events the reading thread had recorded each time it saw the flag down.
    ghost var looks: seq<nat>

    constructor ()
      ensures !raised && looks == []
    {
      raised := false;
      looks := [];
    }

    method Load(ghost events: nat) returns (b: bool)
      modifies this
      ensures b == raised && (old(raised) ==> raised)
      ensures looks == if raised then old(looks) else old(looks) + [events]
    {
      var now: bool := *;
      raised := raised || now;
      b := raised;
      if !b {
        looks := looks + [events];
      }
    }
  }

  // ---------------------------------------------------------------- the reader

  // File: every way a read can go wrong has its own code.
  class File {
    const fd: Device
    const block: nat
    const seekable: bool

    constructor (fd: Device, block: nat, seekable: bool)
      ensures this.fd == fd && this.block == block && this.seekable == seekable
    {
      this.fd := fd;
      this.block := block;
      this.seekable := seekable;
    }

    method Seek(offset: nat) returns (code: ResponseCode)
      modifies fd
      ensures code == if seekable then Success else EofError
      ensures seekable ==> fd.position == offset
      ensures fd.failed == old(fd.failed)
    {
      if !seekable {
        return EofError;
      }
      fd.position := offset;
      return Success;
    }

    method Read(arena: Arena, size: nat, dst: nat) returns (code: ResponseCode)
      requires block > 0
      modifies fd, arena
      ensures code == Success || code == EofError || code == FileAccessError
      ensures StoresIn(old(arena.trace), arena.trace, dst, dst + size)
      ensures code != Success ==> size > 0 && StoresIn(old(arena.trace), arena.trace, dst, dst + size - 1)
      ensures code == Success ==> fd.position == old(fd.position) + size && fd.failed == old(fd.failed)
      ensures code == Success && size > 0 ==> Holds(arena.trace, fd.content, old(fd.position), dst, size)
      ensures code == EofError ==> old(fd.position) + size > |fd.content| && fd.failed == old(fd.failed)
      ensures code == FileAccessError ==> fd.failed
    {
      var r := Fd.Read(fd, arena, size, dst, Eof, block);
      if r.Failure? {
        return FileAccessError;
      }
      if r.bytes != size {
        return EofError;
      }
      return Success;
    }
  }

  // ---------------------------------------------------------------- the batch

  class Batch {
    const tasks: seq<RangeTask>
    var unfinished: nat
    var outcome: seq<Outcome>

    ghost predicate Valid()
      reads this
    {
      && tasks != [] && |outcome| == |tasks| && unfinished <= |tasks|
      && Chain(tasks, tasks[0].offset, Start())
    }

    // The record of what was done is truthful, and says what the tasks' outcomes say.
    ghost predicate Recorded(content: seq<int>, trace: seq<Event>)
      reads this
    {
      && Valid() && Good(tasks, content, trace)
      && (forall k: nat :: k < |tasks| ==> (outcome[k].Unfinished? <==> !DoneIn(trace, k)))
      && (forall i :: 0 <= i < |trace| && trace[i].Done? ==>
            trace[i].task < |tasks| && outcome[trace[i].task] == Finished(trace[i].code))
    }

    function Start(): nat
      requires tasks != []
    {
      tasks[0].dst + tasks[0].relative
    }

    constructor (tasks: seq<RangeTask>)
      requires tasks != [] && Chain(tasks, tasks[0].offset, tasks[0].dst + tasks[0].relative)
      ensures this.tasks == tasks && Valid() && unfinished == 0
      ensures forall i :: 0 <= i < |tasks| ==> outcome[i] == Unfinished
    {
      this.tasks := tasks;
      unfinished := 0;
      outcome := seq(|tasks|, i => Unfinished);
    }

    function End(k: nat): nat
      requires k < |tasks|
    {
      tasks[k].offset + tasks[k].size
    }

    // Where the reader looks what has arrived: the end of a block, and the end of the batch.
    ghost predicate Edge(e: nat, block: nat)
      requires tasks != [] && block > 0
    {
      tasks[0].offset < e && ((e - tasks[0].offset) % block == 0 || e == End(|tasks| - 1))
    }

    // A store that reaches file offset e: its last byte is the one before e, or a later one.
    ghost predicate Reaches(event: Event, e: nat)
      requires tasks != []
    {
      event.Stored? && event.at + |event.bytes| + tasks[0].offset >= Start() + e
    }

    // Every task that ends at or before file offset e ..
    // .. has been finished already
    ghost predicate DoneBy(trace: seq<Event>, e: nat)
    {
      forall k: nat :: k < |tasks| && End(k) <= e ==> DoneIn(trace, k)
    }

    // .. has succeeded.
    ghost predicate WellBy(outcome: seq<Outcome>, e: nat)
      requires |outcome| == |tasks|
    {
      forall k: nat :: k < |tasks| && End(k) <= e ==> outcome[k] == Finished(Success)
    }

    // Nothing waits for the end of the batch: before a byte beyond an edge is stored, every task that ends by
    // that edge is finished; and once the bytes up to an edge are there, those tasks are a success, whatever
    // comes later.
    ghost predicate Timely(outcome: seq<Outcome>, trace: seq<Event>, block: nat)
      requires tasks != [] && |outcome| == |tasks| && block > 0
    {
      && (forall i, e: nat :: 0 <= i < |trace| && Edge(e, block) && Reaches(trace[i], e + 1) ==> DoneBy(trace[..i], e))
      && (forall i, e: nat :: 0 <= i < |trace| && Edge(e, block) && Reaches(trace[i], e) ==> WellBy(outcome, e))
    }

    // Every block that the file holds completely counts, although a later one could not be read.
    ghost predicate HeldBlocksCount(outcome: seq<Outcome>, content: seq<int>, block: nat)
      requires tasks != [] && |outcome| == |tasks| && block > 0
    {
      forall e: nat :: Edge(e, block) && e <= |content| ==> WellBy(outcome, e)
    }

    // What has been read so far ends at an edge, or nothing has been read.
    ghost predicate Caught(outcome: seq<Outcome>, limit: nat)
      requires tasks != [] && |outcome| == |tasks|
    {
      limit > tasks[0].offset ==> WellBy(outcome, limit)
    }

    // No edge lies strictly between limit and limit + n.
    ghost predicate Gap(limit: nat, n: nat, block: nat)
      requires tasks != [] && block > 0
    {
      forall e: nat :: Edge(e, block) && e < limit + n ==> e <= limit
    }

    // A decided task stays decided.
    ghost predicate Decided(before: seq<Outcome>, after: seq<Outcome>)
    {
      |before| == |after| && forall k :: 0 <= k < |before| && before[k].Finished? ==> after[k] == before[k]
    }

    // Finishing tasks is as timely as what was read before it, if the decided tasks stay decided.
    lemma TimelyDone(before: seq<Outcome>, after: seq<Outcome>, was: seq<Event>, now: seq<Event>, block: nat)
      requires tasks != [] && |before| == |tasks| && block > 0 && Timely(before, was, block)
      requires Decided(before, after) && OnlyDone(was, now)
      ensures Timely(after, now, block)
    {
      hide Edge, DoneBy;
      forall i, e: nat | 0 <= i < |now| && Edge(e, block) && Reaches(now[i], e + 1) ensures DoneBy(now[..i], e) {
        assert now[i] == was[i] && now[..i] == was[..i];
      }
      forall i, e: nat | 0 <= i < |now| && Edge(e, block) && Reaches(now[i], e) ensures WellBy(after, e) {
        assert now[i] == was[i];
      }
    }

    // A read of up to n bytes from `limit` on, and what has been finished after it.
    lemma TimelyStores(before: seq<Outcome>, after: seq<Outcome>, was: seq<Event>, now: seq<Event>, limit: nat, n: nat,
                       m: nat, block: nat)
      requires tasks != [] && |before| == |tasks| && block > 0 && Timely(before, was, block)
      requires Decided(before, after) && Caught(before, limit) && Gap(limit, n, block) && limit >= tasks[0].offset
      requires limit > tasks[0].offset ==> DoneBy(was, limit)
      requires StoresIn(was, now, Start() + (limit - tasks[0].offset), Start() + (limit - tasks[0].offset) + m)
      requires m < n || (m == n && WellBy(after, limit + n))
      ensures Timely(after, now, block)
    {
      hide Edge, DoneIn;
      forall i, e: nat | 0 <= i < |now| && Edge(e, block) && Reaches(now[i], e + 1) ensures DoneBy(now[..i], e) {
        EdgeInside(e, block);
        if i < |was| {
          assert now[i] == was[i] && now[..i] == was[..i];
        } else {
          assert e <= limit;
          assert now[..i][..|was|] == was;
          DoneStill(was, now[..i], e);
        }
      }
      forall i, e: nat | 0 <= i < |now| && Edge(e, block) && Reaches(now[i], e) ensures WellBy(after, e) {
        EdgeInside(e, block);
        if i < |was| {
          assert now[i] == was[i];
        }
      }
    }

    // The read that met the end of the file began where all whole blocks before it had arrived.
    lemma EndedInside(content: seq<int>, limit: nat, n: nat, block: nat)
      requires tasks != [] && |outcome| == |tasks| && block > 0
      requires Caught(outcome, limit) && Gap(limit, n, block) && limit + n > |content|
      ensures HeldBlocksCount(outcome, content, block)
    {
      hide Edge;
      forall e: nat | Edge(e, block) && e <= |content| ensures WellBy(outcome, e) {
        EdgeInside(e, block);
      }
    }

    lemma EdgeInside(e: nat, block: nat)
      requires tasks != [] && block > 0 && Edge(e, block)
      ensures tasks[0].offset < e
    {
    }

    lemma DoneStill(was: seq<Event>, now: seq<Event>, e: nat)
      requires was <= now && DoneBy(was, e)
      ensures DoneBy(now, e)
    {
      forall k: nat | k < |tasks| && End(k) <= e ensures DoneIn(now, k) {
        var i :| 0 <= i < |was| && was[i].Done? && was[i].task == k;
        assert now[i] == was[i];
      }
    }

    // Between the ends of two whole blocks there is no edge, and none behind the last of them but the end.
    lemma {:induction false} BlockGap(i: nat, block: nat)
      requires Valid() && block > 0 && tasks[0].offset + BlockBytes(i, block) + block <= End(|tasks| - 1)
      ensures Gap(tasks[0].offset + BlockBytes(i, block), block, block)
    {
      BlocksProduct(i, block);
      forall e: nat | Edge(e, block) && e < tasks[0].offset + BlockBytes(i, block) + block
        ensures e <= tasks[0].offset + BlockBytes(i, block)
      {
        Multiple(e - tasks[0].offset, i, block);
      }
    }

    lemma RestGap(block: nat)
      requires Valid() && block > 0 && tasks[0].offset <= End(|tasks| - 1)
      requires var size := End(|tasks| - 1) - tasks[0].offset; BlockBytes(size / block, block) <= size
      ensures var size := End(|tasks| - 1) - tasks[0].offset;
              Gap(tasks[0].offset + BlockBytes(size / block, block), size - BlockBytes(size / block, block), block)
    {
      var size := End(|tasks| - 1) - tasks[0].offset;
      BlocksProduct(size / block, block);
      forall e: nat | Edge(e, block) && e < tasks[0].offset + size
        ensures e <= tasks[0].offset + BlockBytes(size / block, block)
      {
        Multiple(e - tasks[0].offset, size / block, block);
      }
    }

    // Task::finished_request: only the first call counts.
    method Finish(arena: Arena, k: nat, code: ResponseCode, ghost content: seq<int>)
      requires Recorded(content, arena.trace) && k < |tasks|
      requires outcome[k].Unfinished? && code == Success ==> InPlace(tasks[k], content, arena.trace)
      modifies this`outcome, arena
      ensures Recorded(content, arena.trace)
      ensures outcome == if old(outcome[k]).Unfinished? then old(outcome)[k := Finished(code)] else old(outcome)
      ensures arena.trace == if old(outcome[k]).Unfinished? then old(arena.trace) + [Done(k, code)]
          else old(arena.trace)
    {
      if outcome[k].Unfinished? {
        GoodNext(tasks, content, arena.trace, Done(k, code));
        DoneNext(arena.trace, k, code);
        outcome := outcome[k := Finished(code)];
        arena.trace := arena.trace + [Done(k, code)];
      }
    }

    // Everything up to file offset `limit` has arrived: tasks below `unfinished` are done, the bytes read
    // so far are in place.
    ghost predicate Progress(content: seq<int>, trace: seq<Event>, limit: nat)
      reads this
    {
      && Recorded(content, trace) && tasks[0].offset <= limit
      && (limit > tasks[0].offset ==> Holds(trace, content, tasks[0].offset, Start(), limit - tasks[0].offset))
      && (forall k: nat :: k < |tasks| ==> outcome[k] == if k < unfinished then Finished(Success) else Unfinished)
      && (forall k: nat :: k < unfinished ==> End(k) <= limit)
    }

    // A prefix of the tasks has succeeded, the rest is open.
    ghost predicate Kept(content: seq<int>, trace: seq<Event>)
      reads this
    {
      && Recorded(content, trace)
      && forall k: nat :: k < |tasks| ==> outcome[k] == if k < unfinished then Finished(Success) else Unfinished
    }

    lemma InChain(k: nat)
      requires Valid() && k < |tasks|
      ensures tasks[k].offset == tasks[0].offset + Bytes(tasks[..k])
      ensures tasks[k].dst + tasks[k].relative == Start() + Bytes(tasks[..k])
      ensures tasks[k].offset >= tasks[0].offset
      ensures k + 1 < |tasks| ==> tasks[k + 1].offset == End(k)
    {
      assert Link(tasks, k, tasks[0].offset, Start());
      if k + 1 < |tasks| {
        assert Link(tasks, k + 1, tasks[0].offset, Start());
        assert tasks[..k + 1][..k] == tasks[..k];
      }
    }

    lemma {:induction false} EndsAscend(k: nat, l: nat)
      requires Valid() && k <= l < |tasks|
      ensures tasks[0].offset <= End(k) <= End(l)
      decreases l
    {
      InChain(k);
      if k < l {
        EndsAscend(k, l - 1);
        InChain(l - 1);
      }
    }

    // Bytes that have arrived up to `limit` include those of every task that ends by then.
    lemma Arrived(content: seq<int>, trace: seq<Event>, limit: nat, k: nat)
      requires Valid() && k < |tasks| && End(k) <= limit
      requires limit > tasks[0].offset ==> Holds(trace, content, tasks[0].offset, Start(), limit - tasks[0].offset)
      ensures InPlace(tasks[k], content, trace)
    {
      InChain(k);
      PartHolds(trace, content, tasks[0].offset, Start(), limit - tasks[0].offset, tasks[k].offset - tasks[0].offset,
        tasks[k].size);
    }

    // The address of file offset `limit` on belongs to a task that ends later.
    lemma {:induction false} Covered(limit: nat, k: nat) returns (t: nat)
      requires Valid() && k < |tasks| && tasks[0].offset <= limit < End(k)
      ensures t <= k && Window(tasks[t], Start() + (limit - tasks[0].offset)) && limit < End(t)
      decreases k
    {
      InChain(k);
      if tasks[k].offset <= limit {
        t := k;
      } else {
        assert k > 0;
        InChain(k - 1);
        t := Covered(limit, k - 1);
      }
    }

    // Addresses still to be read are open: the tasks there have not been finished.
    lemma StillOpen(content: seq<int>, trace: seq<Event>, limit: nat, n: nat)
      requires Progress(content, trace, limit) && limit + n <= End(|tasks| - 1)
      ensures var lo := Start() + (limit - tasks[0].offset); forall a: nat :: lo <= a < lo + n ==>
          OpenAt(tasks, trace, a)
    {
      var lo := Start() + (limit - tasks[0].offset);
      forall a: nat | lo <= a < lo + n ensures OpenAt(tasks, trace, a) {
        var at := limit + (a - lo);
        var t := Covered(at, |tasks| - 1);
        assert !DoneIn(trace, t);
      }
    }

    // Advances past every task that ends at or before `limit`.
    method FinishedUntil(arena: Arena, ghost content: seq<int>, limit: nat)
      requires Progress(content, arena.trace, limit)
      modifies this, arena
      ensures Progress(content, arena.trace, limit)
      ensures unfinished >= old(unfinished)
      ensures Decided(old(outcome), outcome) && WellBy(outcome, limit)
      ensures unfinished < |tasks| ==> limit < End(unfinished)
      ensures OnlyDone(old(arena.trace), arena.trace)
    {
      hide Good, DoneIn, Holds, InPlace, Timely;
      var i := unfinished;
      while i < |tasks|
        invariant unfinished <= i <= |tasks| && unfinished == old(unfinished) && Recorded(content, arena.trace)
        invariant limit > tasks[0].offset ==>
            Holds(arena.trace, content, tasks[0].offset, Start(), limit - tasks[0].offset)
        invariant forall k: nat :: k < |tasks| ==> outcome[k] == if k < i then Finished(Success) else Unfinished
        invariant forall k: nat :: k < i ==> End(k) <= limit
        invariant OnlyDone(old(arena.trace), arena.trace)
      {
        if limit < End(i) {
          forall k: nat | i <= k < |tasks| ensures limit < End(k) {
            EndsAscend(i, k);
          }
          break;
        }
        Arrived(content, arena.trace, limit, i);
        ghost var before := arena.trace;
        Finish(arena, i, Success, content);
        HoldsThroughDone(before, Done(i, Success), content, tasks[0].offset, Start(), limit - tasks[0].offset);
        i := i + 1;
      }
      unfinished := i;
    }

    // Fails every task that is not finished yet.
    method HandleError(arena: Arena, code: ResponseCode, ghost content: seq<int>)
      requires Recorded(content, arena.trace)
      modifies this`outcome, arena
      ensures Recorded(content, arena.trace)
      ensures code == Success ==> outcome == old(outcome) && arena.trace == old(arena.trace)
      ensures code != Success ==> forall k :: 0 <= k < |tasks| ==>
                outcome[k] == if old(outcome[k]).Unfinished? then Finished(code) else old(outcome[k])
      ensures OnlyDone(old(arena.trace), arena.trace)
    {
      if code == Success {
        return;
      }
      hide Good, DoneIn, Timely;
      for i := 0 to |tasks|
        invariant Recorded(content, arena.trace)
        invariant forall k :: 0 <= k < i ==>
            outcome[k] == if old(outcome[k]).Unfinished? then Finished(code) else old(outcome[k])
        invariant forall k :: i <= k < |tasks| ==> outcome[k] == old(outcome[k])
        invariant OnlyDone(old(arena.trace), arena.trace)
      {
        Finish(arena, i, code, content);
      }
    }

    // A read from `limit` on, whether it succeeds or not, stores in open places only.
    lemma ReadKept(content: seq<int>, before: seq<Event>, after: seq<Event>, limit: nat, n: nat)
      requires Progress(content, before, limit) && limit + n <= End(|tasks| - 1)
      requires StoresIn(before, after, Start() + (limit - tasks[0].offset), Start() + (limit - tasks[0].offset) + n)
      ensures Kept(content, after)
      ensures limit > tasks[0].offset ==> Holds(after, content, tasks[0].offset, Start(), limit - tasks[0].offset)
    {
      var lo := Start() + (limit - tasks[0].offset);
      StillOpen(content, before, limit, n);
      hide OpenAt, Good;
      GoodStores(tasks, content, before, after, lo, lo + n);
      if limit > tasks[0].offset {
        HoldsKept(before, after, lo, lo + n, content, tasks[0].offset, Start(), limit - tasks[0].offset);
      }
    }

    // One _reader->read and what follows it: the bytes [limit, limit + n) of the file.
    method ReadChunk(file: File, arena: Arena, limit: nat, n: nat) returns (code: ResponseCode)
      requires Progress(file.fd.content, arena.trace, limit) && file.block > 0 && n > 0 && file.fd.position == limit
      requires limit + n <= End(|tasks| - 1)
      requires Timely(outcome, arena.trace, file.block) && Caught(outcome, limit) && Gap(limit, n, file.block)
      modifies this, file.fd, arena
      ensures code == Success || code == EofError || code == FileAccessError
      ensures code == Success ==> Progress(file.fd.content, arena.trace, limit + n) && file.fd.position == limit + n
      ensures code == Success ==> file.fd.failed == old(file.fd.failed)
      ensures code == Success ==> Caught(outcome, limit + n)
      ensures code != Success ==> Kept(file.fd.content, arena.trace)
      ensures code == EofError ==> limit + n > |file.fd.content|
      ensures code == EofError ==> HeldBlocksCount(outcome, file.fd.content, file.block)
      ensures code == FileAccessError ==> file.fd.failed
      ensures Valid() && Timely(outcome, arena.trace, file.block)
      ensures OneRead(old(arena.trace), arena.trace, n)
    {
      hide Good, DoneIn, Holds, StoresIn, Timely, Edge, OnlyDone, OneRead;
      ghost var content, before, was := file.fd.content, arena.trace, outcome;
      CaughtDone(content, before, limit);
      code := file.Read(arena, n, Start() + (limit - tasks[0].offset));
      ReadKept(content, before, arena.trace, limit, n);
      if code == Success {
        ghost var read := arena.trace;
        HoldsMore(read, content, tasks[0].offset, Start(), limit - tasks[0].offset, n);
        FinishedUntil(arena, content, limit + n);
        TimelyStores(was, outcome, before, read, limit, n, n, file.block);
        TimelyDone(outcome, outcome, read, arena.trace, file.block);
        OneReadThenDone(before, read, arena.trace, Start() + (limit - tasks[0].offset), n);
      } else {
        OneReadThenDone(before, arena.trace, arena.trace, Start() + (limit - tasks[0].offset), n);
        TimelyStores(was, outcome, before, arena.trace, limit, n, n - 1, file.block);
        if code == EofError {
          EndedInside(content, limit, n, file.block);
        }
      }
    }

    // One look at the stop flag, and the read of [limit, limit + n) unless it is up.
    method ReadNext(file: File, arena: Arena, stop: StopFlag, limit: nat, n: nat, ghost from: nat)
      returns (code: ResponseCode, stopped: bool)
      requires Progress(file.fd.content, arena.trace, limit) && file.block > 0 && n > 0 && file.fd.position == limit
      requires limit + n <= End(|tasks| - 1)
      requires Timely(outcome, arena.trace, file.block) && Caught(outcome, limit)
      requires stop.raised || (Gap(limit, n, file.block) && n <= file.block)
      requires Watched(arena.trace, stop.looks, from, file.block)
      modifies this, file.fd, arena, stop
      ensures Valid() && Timely(outcome, arena.trace, file.block)
      ensures Watched(arena.trace, stop.looks, from, file.block) && old(stop.looks) <= stop.looks
      ensures stopped == stop.raised && (old(stop.raised) ==> stopped)
      ensures stopped ==> code == Success && stop.looks == old(stop.looks)
      ensures code == Success || code == EofError || code == FileAccessError
      ensures code == Success ==> var reached := if stopped then limit else limit + n;
                && Progress(file.fd.content, arena.trace, reached) && file.fd.position == reached
                && Caught(outcome, reached)
      ensures code != Success ==> Kept(file.fd.content, arena.trace)
      ensures code == EofError ==> limit + n > |file.fd.content|
      ensures code == EofError ==> HeldBlocksCount(outcome, file.fd.content, file.block)
      ensures code == FileAccessError ==> file.fd.failed
    {
      ProgressKept(file.fd.content, arena.trace, limit);
      hide Progress, Kept, Timely, Caught, Gap, HeldBlocksCount, Watched, OneRead;
      ghost var before, looks := arena.trace, stop.looks;
      code := Success;
      stopped := stop.Load(|arena.trace|);
      if !stopped {
        code := ReadChunk(file, arena, limit, n);
        WatchedMore(before, arena.trace, looks, stop.looks, from, n, file.block);
      }
    }

    // The loop over whole blocks. It ends early when the process is told to stop, or a read fails.
    method ReadBlocks(file: File, arena: Arena, stop: StopFlag, start: nat, chunks: nat, ghost end: nat,
                      ghost from: nat)
      returns (code: ResponseCode, limit: nat, stopped: bool)
      requires Progress(file.fd.content, arena.trace, start) && file.block > 0 && file.fd.position == start
      requires start == tasks[0].offset && start + BlockBytes(chunks, file.block) <= end == End(|tasks| - 1)
      requires Timely(outcome, arena.trace, file.block)
      requires Watched(arena.trace, stop.looks, from, file.block)
      modifies this, file.fd, arena, stop
      ensures Watched(arena.trace, stop.looks, from, file.block) && old(stop.looks) <= stop.looks
      ensures old(stop.raised) ==> code == Success && stop.looks == old(stop.looks)
      ensures old(stop.raised) ==> stop.raised
      ensures start <= limit <= end
      ensures code == Success || code == EofError || code == FileAccessError
      ensures code == Success ==> Progress(file.fd.content, arena.trace, limit) && file.fd.position == limit
      ensures code == Success ==> Caught(outcome, limit)
      ensures code == Success ==> stop.raised || limit == start + BlockBytes(chunks, file.block)
      ensures code == Success && stopped ==> stop.raised
      ensures code != Success ==> Kept(file.fd.content, arena.trace)
      ensures code == EofError ==> end > |file.fd.content|
      ensures code == EofError ==> HeldBlocksCount(outcome, file.fd.content, file.block)
      ensures code == FileAccessError ==> file.fd.failed
      ensures Valid() && Timely(outcome, arena.trace, file.block)
    {
      NothingRead(file.fd.content, arena.trace);
      hide Progress, Kept, Timely, Caught, Gap, HeldBlocksCount, Watched;
      limit, stopped, code := start, false, Success;
      var i := 0;
      while i < chunks && !stopped
        invariant i <= chunks && code == Success && limit == start + BlockBytes(i, file.block)
        invariant Progress(file.fd.content, arena.trace, limit) && file.fd.position == limit
        invariant Valid() && Caught(outcome, limit) && Timely(outcome, arena.trace, file.block)
        invariant Watched(arena.trace, stop.looks, from, file.block) && old(stop.looks) <= stop.looks
        invariant stopped ==> stop.raised
        invariant old(stop.raised) ==> stop.raised && stop.looks == old(stop.looks)
        decreases chunks - i, !stopped
      {
        BlocksAscend(i + 1, chunks, file.block);
        BlockGap(i, file.block);
        code, stopped := ReadNext(file, arena, stop, limit, file.block, from);
        if code != Success {
          return;
        }
        if !stopped {
          limit := limit + file.block;
          i := i + 1;
        }
      }
      BlocksAscend(i, chunks, file.block);
    }

    lemma NothingRead(content: seq<int>, trace: seq<Event>)
      requires Valid() && Progress(content, trace, tasks[0].offset)
      ensures Valid() && Caught(outcome, tasks[0].offset)
    {
    }

    // A success is in the record.
    lemma CaughtDone(content: seq<int>, trace: seq<Event>, limit: nat)
      requires Recorded(content, trace) && Caught(outcome, limit)
      ensures limit > tasks[0].offset ==> DoneBy(trace, limit)
    {
    }

    lemma ProgressKept(content: seq<int>, trace: seq<Event>, limit: nat)
      requires Progress(content, trace, limit)
      ensures Valid() && Kept(content, trace)
    {
    }

    // finished_until at the end of the range.
    method FinishAll(arena: Arena, ghost content: seq<int>, end: nat, ghost block: nat)
      requires Progress(content, arena.trace, end) && end == End(|tasks| - 1)
      requires block > 0 && Timely(outcome, arena.trace, block)
      modifies this, arena
      ensures Progress(content, arena.trace, end) && unfinished == |tasks|
      ensures OnlyDone(old(arena.trace), arena.trace)
      ensures Timely(outcome, arena.trace, block)
    {
      hide Good, DoneIn, Holds, Timely;
      ghost var was, before := outcome, arena.trace;
      FinishedUntil(arena, content, end);
      TimelyDone(was, outcome, before, arena.trace, block);
      LastEnds();
    }

    // What is left behind the whole blocks.
    method ReadRest(file: File, arena: Arena, stop: StopFlag, limit: nat, end: nat, ghost from: nat)
      returns (code: ResponseCode)
      requires tasks != [] && limit <= end == End(|tasks| - 1) && file.block > 0
      requires Progress(file.fd.content, arena.trace, limit) && file.fd.position == limit
      requires Timely(outcome, arena.trace, file.block) && Caught(outcome, limit)
      requires stop.raised || (Gap(limit, end - limit, file.block) && end - limit <= file.block)
      requires Watched(arena.trace, stop.looks, from, file.block)
      modifies this, file.fd, arena, stop
      ensures Kept(file.fd.content, arena.trace)
      ensures code == Success ==> unfinished == |tasks|
      ensures code == Success || code == EofError || code == FileAccessError || code == FinishedError
      ensures code == EofError ==> end > |file.fd.content|
      ensures code == EofError ==> HeldBlocksCount(outcome, file.fd.content, file.block)
      ensures code == FileAccessError ==> file.fd.failed
      ensures code == FinishedError ==> stop.raised
      ensures Timely(outcome, arena.trace, file.block)
      ensures Watched(arena.trace, stop.looks, from, file.block) && old(stop.looks) <= stop.looks
      ensures old(stop.raised) ==> code == FinishedError && stop.looks == old(stop.looks)
    {
      hide Kept, Progress, Timely, Caught, Gap, HeldBlocksCount, Watched;
      ghost var content, reached := file.fd.content, limit;
      var stopped;
      if limit < end {
        code, stopped := ReadNext(file, arena, stop, limit, end - limit, from);
        if code != Success {
          return;
        }
        reached := if stopped then limit else end;
      }
      ghost var events, looks := arena.trace, stop.looks;
      stopped := stop.Load(|arena.trace|);
      if !stopped {
        FinishAll(arena, content, end, file.block);
      }
      ProgressKept(content, arena.trace, reached);
      stopped := stop.Load(|arena.trace|);
      WatchedDone(events, arena.trace, looks, stop.looks, from, file.block);
      code := if stopped then FinishedError else Success;
    }

    // Batch::read. Success means every task has succeeded.
    method ReadTasks(file: File, arena: Arena, stop: StopFlag) returns (code: ResponseCode)
      requires Valid() && unfinished == 0 && arena.trace == [] && file.block > 0
      requires forall k :: 0 <= k < |tasks| ==> outcome[k] == Unfinished
      modifies this, file.fd, arena, stop
      ensures Kept(file.fd.content, arena.trace)
      ensures code == Success ==> unfinished == |tasks|
      ensures code == Success || code == EofError || code == FileAccessError || code == FinishedError
      ensures code == EofError ==> !file.seekable || End(|tasks| - 1) > |file.fd.content|
      ensures code == EofError && file.seekable ==> HeldBlocksCount(outcome, file.fd.content, file.block)
      ensures code == FileAccessError ==> file.fd.failed
      ensures code == FinishedError ==> stop.raised
      ensures Timely(outcome, arena.trace, file.block)
      ensures Watched(arena.trace, stop.looks, |old(stop.looks)|, file.block) && old(stop.looks) <= stop.looks
      ensures old(stop.raised) ==> stop.looks == old(stop.looks)
      ensures old(stop.raised) && file.seekable ==> code == FinishedError
    {
      ghost var from := |stop.looks|;
      assert Watched(arena.trace, stop.looks, from, file.block);
      hide Watched;
      var start := tasks[0].offset;
      var end := End(|tasks| - 1);
      EndsAscend(0, |tasks| - 1);
      ghost var content := file.fd.content;
      code := file.Seek(start);
      if code != Success {
        return;
      }
      assert Progress(content, arena.trace, start) && Timely(outcome, arena.trace, file.block);
      hide Kept, Good, Recorded, Progress, Timely, Caught, Gap, HeldBlocksCount;
      var limit, stopped;
      Blocks(end - start, file.block);
      RestGap(file.block);
      code, limit, stopped := ReadBlocks(file, arena, stop, start, (end - start) / file.block, end, from);
      if code == Success {
        code := ReadRest(file, arena, stop, limit, end, from);
      }
    }

    lemma LastEnds()
      requires Valid()
      ensures forall k: nat :: k < |tasks| ==> End(k) <= End(|tasks| - 1)
    {
      forall k: nat | k < |tasks| ensures End(k) <= End(|tasks| - 1) {
        EndsAscend(k, |tasks| - 1);
      }
    }

    // Batch::execute: every task is finished exactly once, with Success only if its bytes are in place, and
    // no store touches a finished task. All this is said of the batch's own stores and holds whatever
    // else happens to memory at the same time.
    method Execute(file: File, arena: Arena, stop: StopFlag, opens: bool) returns (code: ResponseCode)
      requires Valid() && unfinished == 0 && arena.trace == [] && file.block > 0
      requires forall k :: 0 <= k < |tasks| ==> outcome[k] == Unfinished
      modifies this, file.fd, arena, stop
      ensures Good(tasks, file.fd.content, arena.trace) && AllDone(tasks, arena.trace)
      ensures |outcome| == |tasks|
      ensures forall k :: 0 <= k < |tasks| ==> outcome[k] == Finished(Success) || outcome[k] == Finished(code)
      ensures forall i :: 0 <= i < |arena.trace| && arena.trace[i].Done? ==>
                arena.trace[i].task < |tasks| && outcome[arena.trace[i].task] == Finished(arena.trace[i].code)
      ensures code == EofError ==> !file.seekable || End(|tasks| - 1) > |file.fd.content|
      ensures code == EofError && file.seekable ==> HeldBlocksCount(outcome, file.fd.content, file.block)
      ensures Timely(outcome, arena.trace, file.block)
      ensures Watched(arena.trace, stop.looks, |old(stop.looks)|, file.block) && old(stop.looks) <= stop.looks
      ensures !opens || old(stop.raised) ==> forall i :: 0 <= i < |arena.trace| ==> arena.trace[i].Done?
      ensures !opens ==> code == FileAccessError
      ensures opens && file.seekable && old(stop.raised) ==> code == FinishedError
      ensures code == FileAccessError ==> !opens || file.fd.failed
      ensures code == FinishedError ==> stop.raised
      ensures code == Success || code == EofError || code == FileAccessError || code == FinishedError
    {
      assert Timely(outcome, arena.trace, file.block);
      assert Watched(arena.trace, stop.looks, |stop.looks|, file.block);
      hide Good, Timely;
      code := FileAccessError;
      EmptyGood(tasks, file.fd.content);
      if opens {
        code := ReadTasks(file, arena, stop);
      }
      ghost var was, before := outcome, arena.trace;
      HandleError(arena, code, file.fd.content);
      TimelyDone(was, outcome, before, arena.trace, file.block);
      WatchedDone(before, arena.trace, stop.looks, stop.looks, |old(stop.looks)|, file.block);
      if !opens || old(stop.raised) {
        NoLooks(arena.trace, stop.looks, file.block);
      }
    }
  }

  // The events added finish tasks, and nothing else.
  ghost predicate OnlyDone(before: seq<Event>, after: seq<Event>)
  {
    before <= after && forall i :: |before| <= i < |after| ==> after[i].Done?
  }

  // From event c to event i there are only stores, and they stay within n bytes of where the first of them began.
  ghost predicate Burst(trace: seq<Event>, c: nat, i: nat, n: nat)
  {
    && c <= i < |trace| && (forall e :: c <= e <= i ==> trace[e].Stored?)
    && trace[i].at + |trace[i].bytes| <= trace[c].at + n
  }

  // The events added store at most n bytes of memory, in one go.
  ghost predicate OneRead(before: seq<Event>, after: seq<Event>, n: nat)
  {
    before <= after && forall i :: |before| <= i < |after| && after[i].Stored? ==> Burst(after, |before|, i, n)
  }

  // No byte is read without having seen the stop flag down at most a block before: index `from` is where the
  // looks of this batch begin.
  ghost predicate Watched(trace: seq<Event>, looks: seq<nat>, from: nat, block: nat)
  {
    && from <= |looks|
    && forall i :: 0 <= i < |trace| && trace[i].Stored? ==>
      exists j :: from <= j < |looks| && Burst(trace, looks[j], i, block)
  }

  lemma OneReadThenDone(before: seq<Event>, read: seq<Event>, after: seq<Event>, lo: nat, n: nat)
    requires StoresIn(before, read, lo, lo + n) && OnlyDone(read, after)
    ensures OneRead(before, after, n)
  {
    forall i | |before| <= i < |after| && after[i].Stored? ensures Burst(after, |before|, i, n) {
      assert forall e :: 0 <= e <= i ==> after[e] == read[e];
    }
  }

  lemma BurstStays(before: seq<Event>, after: seq<Event>, c: nat, i: nat, n: nat)
    requires Burst(before, c, i, n) && before <= after
    ensures Burst(after, c, i, n)
  {
    assert forall e :: 0 <= e <= i ==> after[e] == before[e];
  }

  lemma WatchedStays(before: seq<Event>, after: seq<Event>, was: seq<nat>, looks: seq<nat>, from: nat, i: nat,
                     block: nat)
    requires Watched(before, was, from, block) && before <= after && was <= looks
    requires i < |before| && after[i].Stored?
    ensures exists j :: from <= j < |looks| && Burst(after, looks[j], i, block)
  {
    assert after[i] == before[i];
    var j :| from <= j < |was| && Burst(before, was[j], i, block);
    BurstStays(before, after, was[j], i, block);
    assert looks[j] == was[j];
  }

  lemma WatchedMore(before: seq<Event>, after: seq<Event>, was: seq<nat>, looks: seq<nat>, from: nat, n: nat,
                    block: nat)
    requires Watched(before, was, from, block) && looks == was + [|before|] && n <= block
    requires OneRead(before, after, n)
    ensures Watched(after, looks, from, block)
  {
    hide Burst;
    forall i | 0 <= i < |after| && after[i].Stored?
      ensures exists j :: from <= j < |looks| && Burst(after, looks[j], i, block)
    {
      if i < |before| {
        WatchedStays(before, after, was, looks, from, i, block);
      } else {
        BurstWithin(after, |before|, i, n, block);
        assert looks[|was|] == |before|;
      }
    }
  }

  lemma BurstWithin(trace: seq<Event>, c: nat, i: nat, n: nat, block: nat)
    requires Burst(trace, c, i, n) && n <= block
    ensures Burst(trace, c, i, block)
  {
  }

  lemma WatchedDone(before: seq<Event>, after: seq<Event>, was: seq<nat>, looks: seq<nat>, from: nat, block: nat)
    requires Watched(before, was, from, block) && was <= looks && OnlyDone(before, after)
    ensures Watched(after, looks, from, block)
  {
    hide Burst;
    forall i | 0 <= i < |after| && after[i].Stored?
      ensures exists j :: from <= j < |looks| && Burst(after, looks[j], i, block)
    {
      WatchedStays(before, after, was, looks, from, i, block);
    }
  }

  lemma NoLooks(trace: seq<Event>, looks: seq<nat>, block: nat)
    requires Watched(trace, looks, |looks|, block)
    ensures forall i :: 0 <= i < |trace| ==> trace[i].Done?
  {
  }

  lemma EmptyGood(tasks: seq<RangeTask>, content: seq<int>)
    ensures Good(tasks, content, [])
  {
  }

  lemma DoneNext(trace: seq<Event>, k: nat, code: ResponseCode)
    ensures forall j: nat :: DoneIn(trace + [Done(k, code)], j) <==> DoneIn(trace, j) || j == k
  {
    var after := trace + [Done(k, code)];
    assert after[|trace|].Done? && after[|trace|].task == k;
    forall j: nat | DoneIn(trace, j) ensures DoneIn(after, j) {
      var i :| 0 <= i < |trace| && trace[i].Done? && trace[i].task == j;
      assert after[i] == trace[i];
    }
  }

  lemma HoldsThroughDone(trace: seq<Event>, e: Event, content: seq<int>, position: nat, dst: nat, n: int)
    requires e.Done? && n >= 0
    ensures n > 0 && Holds(trace, content, position, dst, n) ==> Holds(trace + [e], content, position, dst, n)
  {
    forall a: nat ensures Last(trace + [e], a) == Last(trace, a) {
      LastNext(trace, e, a);
    }
  }

  lemma PartHolds(trace: seq<Event>, content: seq<int>, position: nat, dst: nat, n: nat, skip: nat, m: nat)
    requires skip + m <= n && (n > 0 ==> Holds(trace, content, position, dst, n))
    ensures m > 0 ==> Holds(trace, content, position + skip, dst + skip, m)
  {
  }

  // n blocks
  function BlockBytes(n: nat, block: nat): nat
  {
    if n == 0 then 0 else block + BlockBytes(n - 1, block)
  }

  lemma {:induction false} BlocksProduct(n: nat, block: nat)
    ensures BlockBytes(n, block) == n * block
  {
    if n > 0 {
      BlocksProduct(n - 1, block);
    }
  }

  lemma {:induction false} BlocksAscend(m: nat, n: nat, block: nat)
    requires m <= n
    ensures BlockBytes(m, block) <= BlockBytes(n, block)
  {
    if m < n {
      BlocksAscend(m, n - 1, block);
    }
  }

  // A multiple of the block below the next one is at most i blocks.
  lemma Multiple(x: nat, i: nat, block: nat)
    requires block > 0 && x % block == 0 && x < i * block + block
    ensures x <= i * block
  {
    var q := x / block;
    assert x == block * q + x % block;
    if q > i {
      MoreBlocks(q, i, block);
    }
  }

  lemma MoreBlocks(q: nat, i: nat, block: nat)
    requires q > i
    ensures block * q >= i * block + block
  {
    assert block * q == block * (i + 1) + block * (q - i - 1);
  }

  lemma {:induction false} Blocks(size: nat, block: nat)
    requires block > 0
    ensures BlockBytes(size / block, block) <= size < BlockBytes(size / block, block) + block
  {
    BlocksProduct(size / block, block);
  }
}

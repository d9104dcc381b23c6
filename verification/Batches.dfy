// Re-cutting the slices of one transfer into tasks, one list of tasks per slice and at least one task
// per range.
module Batches {
  import opened Seqs
  import opened Assigner
  import opened Assignment

  // ---------------------------------------------------------------- data

  // What to read: `range` is the index of the owning range within file `file`; the destination of the
  // task is the range's own destination `dst` plus `relative`.
  datatype RangeTask = RangeTask(file: nat, range: nat, dst: nat, offset: nat, size: nat, relative: nat)

  // One response owed: `tasks` is the counter of tasks not yet finished.
  datatype Request = Request(offset: nat, fileIndex: nat, index: nat, tasks: nat, bytesize: nat, dst: nat)

  // The addresses a task writes to.
  ghost predicate Window(t: RangeTask, address: nat)
  {
    t.dst + t.relative <= address < t.dst + t.relative + t.size
  }

  datatype Info = Info(offset: nat, size: nat, relative: nat)

  function Bytes(ts: seq<RangeTask>): nat
  {
    if ts == [] then 0 else Bytes(ts[..|ts|-1]) + ts[|ts|-1].size
  }

  lemma {:induction false} BytesSnoc(ts: seq<RangeTask>, t: RangeTask)
    ensures Bytes(ts + [t]) == Bytes(ts) + t.size
  {
    assert (ts + [t])[..|ts|] == ts;
  }

  lemma {:induction false} BytesAppend(a: seq<RangeTask>, b: seq<RangeTask>)
    ensures Bytes(a + b) == Bytes(a) + Bytes(b)
  {
    if b == [] {
      assert a + b == a;
    } else {
      assert (a + b)[..|a + b| - 1] == a + b[..|b|-1];
      BytesAppend(a, b[..|b|-1]);
    }
  }

  // ---------------------------------------------------------------- what the tasks must satisfy

  // The tasks follow each other without gap in the file and in memory.
  ghost predicate Chain(ts: seq<RangeTask>, offset: nat, dst: nat)
  {
    forall k :: 0 <= k < |ts| ==> Link(ts, k, offset, dst)
  }

  ghost predicate Link(ts: seq<RangeTask>, k: nat, offset: nat, dst: nat)
    requires k < |ts|
  {
    && ts[k].offset == offset + Bytes(ts[..k])
    && ts[k].dst + ts[k].relative == dst + Bytes(ts[..k])
  }

  // The tasks of one request: they tile it, and the request counts them.
  ghost predicate Serves(ts: seq<RangeTask>, r: Request)
  {
    && |ts| == r.tasks > 0 && Bytes(ts) == r.bytesize
    && forall k :: 0 <= k < |ts| ==>
         ts[k].file == r.fileIndex && ts[k].range == r.index && ts[k].dst == r.dst && ts[k].relative == Bytes(ts[..k])
         && ts[k].offset == r.offset + ts[k].relative
  }

  ghost predicate Owns(t: RangeTask, file: nat, range: nat) { t.file == file && t.range == range }

  function OfRange(ts: seq<RangeTask>, file: nat, range: nat): seq<RangeTask>
  {
    if ts == [] then []
    else OfRange(ts[..|ts|-1], file, range)
         + if ts[|ts|-1].file == file && ts[|ts|-1].range == range then [ts[|ts|-1]] else []
  }

  lemma {:induction false} OfRangeAppend(a: seq<RangeTask>, b: seq<RangeTask>, file: nat, range: nat)
    ensures OfRange(a + b, file, range) == OfRange(a, file, range) + OfRange(b, file, range)
  {
    if b == [] {
      assert a + b == a;
    } else {
      assert (a + b)[..|a + b| - 1] == a + b[..|b|-1];
      OfRangeAppend(a, b[..|b|-1], file, range);
    }
  }

  lemma {:induction false} OfRangeAll(ts: seq<RangeTask>, file: nat, range: nat)
    requires forall k :: 0 <= k < |ts| ==> Owns(ts[k], file, range)
    ensures OfRange(ts, file, range) == ts
  {
    if ts != [] {
      OfRangeAll(ts[..|ts|-1], file, range);
    }
  }

  lemma {:induction false} OfRangeNone(ts: seq<RangeTask>, file: nat, range: nat)
    requires forall k :: 0 <= k < |ts| ==> !Owns(ts[k], file, range)
    ensures OfRange(ts, file, range) == []
  {
    if ts != [] {
      OfRangeNone(ts[..|ts|-1], file, range);
    }
  }

  lemma {:induction false} ChainAppend(a: seq<RangeTask>, b: seq<RangeTask>, offset: nat, dst: nat)
    requires Chain(a, offset, dst) && Chain(b, offset + Bytes(a), dst + Bytes(a))
    ensures Chain(a + b, offset, dst)
  {
    forall k | 0 <= k < |a + b| ensures Link(a + b, k, offset, dst) {
      if k < |a| {
        assert (a + b)[..k] == a[..k];
        assert Link(a, k, offset, dst);
      } else {
        assert (a + b)[..k] == a + b[..k - |a|];
        BytesAppend(a, b[..k - |a|]);
        assert Link(b, k - |a|, offset + Bytes(a), dst + Bytes(a));
      }
    }
  }

  lemma {:induction false} ChainSplit(a: seq<RangeTask>, b: seq<RangeTask>, offset: nat, dst: nat)
    requires Chain(a + b, offset, dst)
    ensures Chain(a, offset, dst) && Chain(b, offset + Bytes(a), dst + Bytes(a))
  {
    forall k | 0 <= k < |a| ensures Link(a, k, offset, dst) {
      assert (a + b)[..k] == a[..k];
      assert Link(a + b, k, offset, dst);
    }
    var o, d := offset + Bytes(a), dst + Bytes(a);
    forall k | 0 <= k < |b| ensures Link(b, k, o, d) {
      assert Link(a + b, |a| + k, offset, dst);
      hide Chain;
      LinkLater(a, b, k, offset, dst);
    }
  }

  lemma {:induction false} LinkLater(a: seq<RangeTask>, b: seq<RangeTask>, k: nat, offset: nat, dst: nat)
    requires k < |b| && Link(a + b, |a| + k, offset, dst)
    ensures Link(b, k, offset + Bytes(a), dst + Bytes(a))
  {
    hide Bytes;
    var front := (a + b)[..|a| + k];
    assert front == a + b[..k] && (a + b)[|a| + k] == b[k];
    BytesAppend(a, b[..k]);
    assert Bytes(front) == Bytes(a) + Bytes(b[..k]);
  }

  // Tasks that serve one request are a chain from its start.
  lemma ServesChain(ts: seq<RangeTask>, r: Request)
    requires Serves(ts, r)
    ensures Chain(ts, r.offset, r.dst)
  {
  }

  // ---------------------------------------------------------------- the iterator over slices

  class BatchItr {
    const slices: seq<FileReadTask>
    var taskIndex: nat
    var workloadIndex: nat
    var workerBytes: nat

    ghost predicate Valid()
      reads this
    {
      && taskIndex < |slices|
      && workerBytes <= slices[taskIndex].size
      && workloadIndex == slices[taskIndex].workload
    }

    // Bytes already handed out.
    ghost function Consumed(): nat
      requires Valid()
      reads this
    {
      TaskBytes(slices[..taskIndex]) + slices[taskIndex].size - workerBytes
    }

    constructor (slices: seq<FileReadTask>)
      requires slices != []
      ensures this.slices == slices && taskIndex == 0 && Valid() && Consumed() == 0
      ensures workerBytes == slices[0].size
    {
      this.slices := slices;
      taskIndex := 0;
      workloadIndex := slices[0].workload;
      workerBytes := slices[0].size;
    }

    // At most one slice is entered per call, and only for a non-zero demand.
    method Consume(bytesize: nat) returns (n: nat)
      requires Valid() && Consumed() + bytesize <= TaskBytes(slices)
      modifies this
      ensures Valid() && Consumed() == old(Consumed()) + n
      ensures n <= bytesize
      ensures n < bytesize ==> workerBytes == 0
      ensures taskIndex == old(taskIndex) + if old(workerBytes) == 0 && bytesize > 0 then 1 else 0
      ensures taskIndex == old(taskIndex) ==> workerBytes == old(workerBytes) - n
      ensures taskIndex == old(taskIndex) + 1 ==> workerBytes == slices[taskIndex].size - n
    {
      TaskPrefix(slices, taskIndex);
      if workerBytes == 0 && bytesize > 0 {
        taskIndex := taskIndex + 1;
        TaskPrefix(slices, taskIndex);
        workloadIndex := slices[taskIndex].workload;
        workerBytes := slices[taskIndex].size;
      }
      n := if workerBytes < bytesize then workerBytes else bytesize;
      workerBytes := workerBytes - n;
    }
  }

  lemma {:induction false} TaskPrefix(ts: seq<FileReadTask>, i: nat)
    requires i < |ts|
    ensures TaskBytes(ts[..i]) + ts[i].size == TaskBytes(ts[..i + 1]) <= TaskBytes(ts)
    ensures i == |ts| - 1 ==> TaskBytes(ts[..i]) + ts[i].size == TaskBytes(ts)
  {
    assert ts[..i + 1][..i] == ts[..i];
    if i < |ts| - 1 {
      TaskPrefix(ts[..|ts|-1], i);
      assert ts[..|ts|-1][..i + 1] == ts[..i + 1] && ts[..|ts|-1][..i] == ts[..i];
    } else {
      assert ts[..i + 1] == ts;
    }
  }

  // ---------------------------------------------------------------- handle_request and build_tasks

  // The per-slice task lists mirror the iterator: slices behind it are full, slices ahead are untouched.
  ghost predicate Fill(v: seq<seq<RangeTask>>, slices: seq<FileReadTask>, cur: nat, left: nat)
  {
    && |v| == |slices|
    && forall b :: 0 <= b < |v| ==>
         if b < cur then Bytes(v[b]) == slices[b].size
         else if b == cur then Bytes(v[b]) + left == slices[b].size
         else v[b] == []
  }

  // What is left of slice b when a request starts with `left` bytes of slice `cur`.
  function Room(slices: seq<FileReadTask>, cur: nat, left: nat, b: nat): nat
    requires b < |slices|
  {
    if b == cur then left else slices[b].size
  }

  // Tasks `made` went to the slices from `start` on, one each, and used them up but for the last.
  ghost predicate Placed(made: seq<RangeTask>, slices: seq<FileReadTask>, cur: nat, left: nat, start: nat, now: nat,
                         leftNow: nat)
  {
    && start + |made| == now + 1 <= |slices| && made != []
    && (start == cur || (start == cur + 1 && left == 0))
    && forall k :: 0 <= k < |made| ==>
         made[k].size + (if start + k == now then leftNow else 0) == Room(slices, cur, left, start + k)
  }

  // std::map iteration: tasks are appended to their slices in ascending order.
  function Deposit(v: seq<seq<RangeTask>>, made: seq<RangeTask>, start: nat, n: nat): seq<seq<RangeTask>>
    requires n <= |made| && start + |made| <= |v|
  {
    seq(|v|, b requires 0 <= b < |v| => if start <= b < start + n then v[b] + [made[b - start]] else v[b])
  }

  lemma DepositNext(v: seq<seq<RangeTask>>, made: seq<RangeTask>, start: nat, n: nat)
    requires n < |made| && start + |made| <= |v|
    ensures var u := Deposit(v, made, start, n);
            Deposit(v, made, start, n + 1) == u[start + n := u[start + n] + [made[n]]]
  {
  }

  lemma {:induction false} DepositFlat(v: seq<seq<RangeTask>>, made: seq<RangeTask>, start: nat, n: nat)
    requires n <= |made| && start + |made| <= |v|
    requires forall b :: start < b < |v| ==> v[b] == []
    ensures Flat(Deposit(v, made, start, n)) == Flat(v) + made[..n]
  {
    hide Flat;
    if n == 0 {
      assert Deposit(v, made, start, 0) == v;
    } else {
      DepositFlat(v, made, start, n - 1);
      DepositNext(v, made, start, n - 1);
      DepositAhead(v, made, start, n - 1);
      hide Deposit;
      FlatPutLast(Deposit(v, made, start, n - 1), start + n - 1, made[n - 1]);
      assert Flat(v) + made[..n] == Flat(v) + made[..n - 1] + [made[n - 1]];
    }
  }

  lemma DepositAhead(v: seq<seq<RangeTask>>, made: seq<RangeTask>, start: nat, n: nat)
    requires n < |made| && start + |made| <= |v|
    requires forall b :: start < b < |v| ==> v[b] == []
    ensures forall j :: start + n < j < |v| ==> Deposit(v, made, start, n)[j] == []
  {
  }

  lemma DepositFill(v: seq<seq<RangeTask>>, made: seq<RangeTask>, slices: seq<FileReadTask>, cur: nat, left: nat,
                    start: nat, now: nat, leftNow: nat)
    requires Fill(v, slices, cur, left) && Placed(made, slices, cur, left, start, now, leftNow)
    ensures Fill(Deposit(v, made, start, |made|), slices, now, leftNow)
  {
    assert Bytes([]) == 0;
    hide Bytes;
    var u := Deposit(v, made, start, |made|);
    forall b | 0 <= b < |u|
      ensures if b < now then Bytes(u[b]) == slices[b].size
              else if b == now then Bytes(u[b]) + leftNow == slices[b].size
              else u[b] == []
    {
      if start <= b <= now {
        BytesSnoc(v[b], made[b - start]);
      }
    }
  }

  // What the do-while loop has collected after at least one call of Consume.
  ghost predicate Collected(infos: map<nat, Info>, made: seq<RangeTask>, slices: seq<FileReadTask>, cur: nat,
                            left: nat, start: nat, now: nat, leftNow: nat)
  {
    && Placed(made, slices, cur, left, start, now, leftNow)
    && (forall b :: b in infos <==> start <= b < start + |made|)
    && forall k :: 0 <= k < |made| ==> infos[start + k] == Info(made[k].offset, made[k].size, made[k].relative)
  }

  lemma CollectFirst(task: RangeTask, slices: seq<FileReadTask>, cur: nat, left: nat, now: nat, leftNow: nat)
    requires now < |slices| && (now == cur || (now == cur + 1 && left == 0))
    requires task.size + leftNow == Room(slices, cur, left, now)
    ensures Collected(map[now := Info(task.offset, task.size, task.relative)], [task], slices, cur, left, now, now,
        leftNow)
  {
  }

  lemma CollectNext(infos: map<nat, Info>, made: seq<RangeTask>, task: RangeTask, slices: seq<FileReadTask>, cur: nat,
                    left: nat, start: nat, now: nat, leftNow: nat)
    requires Collected(infos, made, slices, cur, left, start, now, 0) && now + 1 < |slices|
    requires task.size + leftNow == slices[now + 1].size
    ensures now + 1 !in infos
    ensures Collected(infos[now + 1 := Info(task.offset, task.size, task.relative)], made + [task], slices, cur, left,
        start, now + 1, leftNow)
  {
  }

  // The do-while loop of handle_request: consume slices until the range is covered.
  method CollectInfos(itr: BatchItr, ghost fileIndex: nat, ghost range: nat, offset: nat, size: nat, ghost dst: nat)
    returns (infos: map<nat, Info>, start: nat, ghost made: seq<RangeTask>)
    requires itr.Valid() && itr.Consumed() + size <= TaskBytes(itr.slices)
    modifies itr
    ensures itr.Valid() && itr.Consumed() == old(itr.Consumed()) + size
    ensures Collected(infos, made, itr.slices, old(itr.taskIndex), old(itr.workerBytes), start, itr.taskIndex,
        itr.workerBytes)
    ensures Serving(made, fileIndex, range, offset, dst) && Bytes(made) == size
  {
    hide TaskBytes, Serving, Bytes, Collected;
    ghost var cur, left := itr.taskIndex, itr.workerBytes;
    var n := itr.Consume(size);
    start := itr.taskIndex;
    ghost var task := RangeTask(fileIndex, range, dst, offset, n, 0);
    made := [task];
    infos := map[start := Info(offset, n, 0)];
    CollectFirst(task, itr.slices, cur, left, start, itr.workerBytes);
    ServingFirst(task);
    var todo: nat, at: nat, relative: nat := size - n, offset + n, n;
    while todo > 0
      invariant itr.Valid() && itr.Consumed() + todo == old(itr.Consumed()) + size
      invariant relative == Bytes(made) && todo + relative == size && at == offset + relative
      invariant Collected(infos, made, itr.slices, cur, left, start, itr.taskIndex, itr.workerBytes)
      invariant todo > 0 ==> itr.workerBytes == 0
      invariant Serving(made, fileIndex, range, offset, dst)
      decreases |itr.slices| - itr.taskIndex, todo
    {
      ghost var now := itr.taskIndex;
      n := itr.Consume(todo);
      task := RangeTask(fileIndex, range, dst, at, n, relative);
      CollectNext(infos, made, task, itr.slices, cur, left, start, now, itr.workerBytes);
      // try_emplace never finds the slice taken
      assert itr.taskIndex !in infos;
      infos := infos[itr.taskIndex := Info(at, n, relative)];
      ServingSnoc(made, task, fileIndex, range, offset, dst);
      BytesSnoc(made, task);
      made := made + [task];
      at := at + n;
      todo := todo - n;
      relative := relative + n;
    }
  }

  // The loop over the map, in ascending order of slices.
  method DepositAll(v: seq<seq<RangeTask>>, infos: map<nat, Info>, start: nat, fileIndex: nat, range: nat, dst: nat,
                    ghost made: seq<RangeTask>)
    returns (after: seq<seq<RangeTask>>)
    requires start + |made| <= |v|
    requires forall b :: b in infos <==> start <= b < start + |made|
    requires forall k :: 0 <= k < |made| ==>
      && infos[start + k] == Info(made[k].offset, made[k].size, made[k].relative)
      && made[k].file == fileIndex && made[k].range == range && made[k].dst == dst
    ensures after == Deposit(v, made, start, |made|)
  {
    InfosCount(infos, start, |made|);
    after := v;
    assert after == Deposit(v, made, start, 0);
    for k := 0 to |infos|
      invariant after == Deposit(v, made, start, k)
    {
      var info := infos[start + k];
      DepositNext(v, made, start, k);
      after := after[start + k := after[start + k]
        + [RangeTask(fileIndex, range, dst, info.offset, info.size, info.relative)]];
    }
  }

  // Makes the tasks of one range. A range of size zero still gets one task.
  method HandleRequest(itr: BatchItr, v: seq<seq<RangeTask>>, fileIndex: nat, range: nat, offset: nat, size: nat,
                       dst: nat)
    returns (after: seq<seq<RangeTask>>, request: Request, ghost made: seq<RangeTask>)
    requires itr.Valid() && itr.Consumed() + size <= TaskBytes(itr.slices)
    requires Fill(v, itr.slices, itr.taskIndex, itr.workerBytes)
    modifies itr
    ensures itr.Valid() && itr.Consumed() == old(itr.Consumed()) + size
    ensures Fill(after, itr.slices, itr.taskIndex, itr.workerBytes)
    ensures Flat(after) == Flat(v) + made
    ensures request == Request(offset, fileIndex, range, |made|, size, dst) && Serves(made, request)
  {
    hide TaskBytes, Bytes, Flat, Deposit, Room;
    ghost var cur, left := itr.taskIndex, itr.workerBytes;
    var infos, start;
    infos, start, made := CollectInfos(itr, fileIndex, range, offset, size, dst);
    InfosCount(infos, start, |made|);
    request := Request(offset, fileIndex, range, |infos|, size, dst);
    after := DepositAll(v, infos, start, fileIndex, range, dst, made);
    DepositFlat(v, made, start, |made|);
    assert made[..|made|] == made;
    DepositFill(v, made, itr.slices, cur, left, start, itr.taskIndex, itr.workerBytes);
  }

  lemma ServingFirst(t: RangeTask)
    requires t.relative == 0
    ensures Serving([t], t.file, t.range, t.offset, t.dst) && Bytes([t]) == t.size
  {
    assert [t][..0] == [];
  }

  ghost predicate Serving(ts: seq<RangeTask>, fileIndex: nat, range: nat, offset: nat, dst: nat)
  {
    forall k :: 0 <= k < |ts| ==>
      && ts[k].file == fileIndex && ts[k].range == range && ts[k].dst == dst
      && ts[k].relative == Bytes(ts[..k]) && ts[k].offset == offset + ts[k].relative
  }

  lemma {:induction false} ServingSnoc(ts: seq<RangeTask>, t: RangeTask, fileIndex: nat, range: nat, offset: nat,
                                       dst: nat)
    requires Serving(ts, fileIndex, range, offset, dst)
    requires t.file == fileIndex && t.range == range && t.dst == dst && t.relative == Bytes(ts)
        && t.offset == offset + t.relative
    ensures Serving(ts + [t], fileIndex, range, offset, dst)
  {
    hide Bytes;
    forall k | 0 <= k < |ts| + 1 ensures (ts + [t])[k].relative == Bytes((ts + [t])[..k]) {
      assert (ts + [t])[..k] == if k < |ts| then ts[..k] else ts;
    }
  }

  lemma {:induction false} InfosCount(infos: map<nat, Info>, start: nat, n: nat)
    requires forall b :: b in infos <==> start <= b < start + n
    ensures |infos| == n
  {
    if n == 0 {
      assert infos == map[];
    } else {
      var last := start + n - 1;
      var less := map b | b in infos && b != last :: infos[b];
      InfosCount(less, start, n - 1);
      assert infos.Keys == less.Keys + {last};
      assert |infos.Keys| == |infos| && |less.Keys| == |less|;
    }
  }

  // The tasks made so far, in the order they were made: one chain from the start of the transfer, in
  // which every range has its own tiling run.
  ghost predicate Log(log: seq<RangeTask>, requests: seq<Request>, sizes: seq<nat>, n: nat, fileIndex: nat,
                      first: nat, offset: nat, dst: nat)
  {
    && |requests| == n <= |sizes|
    && Chain(log, offset, dst) && Bytes(log) == Sum(sizes[..n])
    && (forall r :: 0 <= r < n ==> Owed(requests[r], sizes, r, fileIndex, first, offset, dst))
    && (forall r :: 0 <= r < n ==> Serves(OfRange(log, fileIndex, first + r), requests[r]))
    && (forall k :: 0 <= k < |log| ==> log[k].file == fileIndex && first <= log[k].range < first + n)
  }

  // Request r of the transfer: the prefix sums of the sizes say where it is.
  ghost predicate Owed(q: Request, sizes: seq<nat>, r: nat, fileIndex: nat, first: nat, offset: nat, dst: nat)
    requires r < |sizes|
  {
    q == Request(offset + Sum(sizes[..r]), fileIndex, first + r, q.tasks, sizes[r], dst + Sum(sizes[..r]))
  }

  lemma {:induction false} LogServes(log: seq<RangeTask>, made: seq<RangeTask>, requests: seq<Request>, q: Request,
                                     sizes: seq<nat>,
                                     n: nat, fileIndex: nat, first: nat, offset: nat, dst: nat, r: nat)
    requires Log(log, requests, sizes, n, fileIndex, first, offset, dst) && n < |sizes| && r <= n
    requires Owed(q, sizes, n, fileIndex, first, offset, dst) && Serves(made, q)
    ensures Serves(OfRange(log + made, fileIndex, first + r), (requests + [q])[r])
  {
    hide OfRange, Chain, Bytes;
    OfRangeAppend(log, made, fileIndex, first + r);
    assert forall k :: 0 <= k < |made| ==> made[k].file == fileIndex && made[k].range == first + n;
    if r < n {
      assert Serves(OfRange(log, fileIndex, first + r), requests[r]);
      hide Serves, Log, Owed;
      OfRangeNone(made, fileIndex, first + r);
      assert OfRange(log + made, fileIndex, first + r) == OfRange(log, fileIndex, first + r);
    } else {
      assert forall k :: 0 <= k < |log| ==> log[k].range < first + n;
      assert (requests + [q])[r] == q;
      hide Log, Owed;
      OfRangeNone(log, fileIndex, first + r);
      OfRangeAll(made, fileIndex, first + r);
      assert OfRange(log + made, fileIndex, first + r) == made;
    }
  }

  lemma LogStep(log: seq<RangeTask>, made: seq<RangeTask>, requests: seq<Request>, q: Request, sizes: seq<nat>,
                n: nat, fileIndex: nat, first: nat, offset: nat, dst: nat)
    requires Log(log, requests, sizes, n, fileIndex, first, offset, dst) && n < |sizes|
    requires Owed(q, sizes, n, fileIndex, first, offset, dst) && Serves(made, q)
    ensures Log(log + made, requests + [q], sizes, n + 1, fileIndex, first, offset, dst)
  {
    hide OfRange, Chain, Bytes, Sum;
    assert forall k :: 0 <= k < |made| ==> made[k].file == fileIndex && made[k].range == first + n;
    forall r: nat | r <= n ensures Serves(OfRange(log + made, fileIndex, first + r), (requests + [q])[r]) {
      LogServes(log, made, requests, q, sizes, n, fileIndex, first, offset, dst, r);
    }
    ServesChain(made, q);
    ChainAppend(log, made, offset, dst);
    BytesAppend(log, made);
    SumPrefix(sizes, n);
    assert Bytes(made) == sizes[n];
    hide Serves;
  }

  // Cuts every range of a transfer at the slice boundaries.
  method BuildTasks(slices: seq<FileReadTask>, sizes: seq<nat>, fileIndex: nat, first: nat)
    returns (v: seq<seq<RangeTask>>, requests: seq<Request>)
    requires slices != [] && TaskBytes(slices) == Sum(sizes)
    ensures Log(Flat(v), requests, sizes, |sizes|, fileIndex, first, slices[0].offset, slices[0].destination)
    ensures |v| == |slices| && forall b :: 0 <= b < |v| ==> Bytes(v[b]) == slices[b].size
    ensures sizes != [] && |slices| == 1 ==> v[0] != []
  {
    var itr := new BatchItr(slices);
    v := seq(|slices|, b => []);
    requests := [];
    FlatEmpty(v);
    var offset, dst := slices[0].offset, slices[0].destination;
    assert Fill(v, slices, 0, slices[0].size);
    assert sizes[..0] == [];
    ghost var offset0, dst0 := offset, dst;
    for i := 0 to |sizes|
      invariant itr.slices == slices && itr.Valid() && fresh(itr)
      invariant Fill(v, slices, itr.taskIndex, itr.workerBytes)
      invariant itr.Consumed() == Sum(sizes[..i])
      invariant offset == offset0 + Sum(sizes[..i]) && dst == dst0 + Sum(sizes[..i])
      invariant Log(Flat(v), requests, sizes, i, fileIndex, first, offset0, dst0)
    {
      hide Log, Fill, Flat, TaskBytes, Sum;
      SumPrefix(sizes, i);
      ghost var made;
      ghost var before := v;
      var request;
      v, request, made := HandleRequest(itr, v, fileIndex, first + i, offset, sizes[i], dst);
      LogStep(Flat(before), made, requests, request, sizes, i, fileIndex, first, offset0, dst0);
      requests := requests + [request];
      dst := dst + sizes[i];
      offset := offset + sizes[i];
    }
    assert sizes[..|sizes|] == sizes;
    AllConsumed(itr.slices, itr.taskIndex, itr.workerBytes, v);
    if sizes != [] && |slices| == 1 {
      LogNotEmpty(Flat(v), requests, sizes, fileIndex, first, offset0, dst0);
      assert Flat(v) == Flat(v[..0]) + v[0];
    }
  }

  lemma LogNotEmpty(log: seq<RangeTask>, requests: seq<Request>, sizes: seq<nat>, fileIndex: nat, first: nat,
                    offset: nat, dst: nat)
    requires Log(log, requests, sizes, |sizes|, fileIndex, first, offset, dst) && sizes != []
    ensures log != []
  {
    assert Serves(OfRange(log, fileIndex, first + 0), requests[0]);
  }

  lemma {:induction false} SumPrefix(s: seq<nat>, i: nat)
    requires i < |s|
    ensures Sum(s[..i]) + s[i] == Sum(s[..i + 1]) <= Sum(s)
  {
    assert s[..i + 1][..i] == s[..i];
    if i < |s| - 1 {
      SumPrefix(s[..|s|-1], i);
      assert s[..|s|-1][..i + 1] == s[..i + 1] && s[..|s|-1][..i] == s[..i];
    } else {
      assert s[..i + 1] == s;
    }
  }

  // Once all bytes are consumed every slice is full: what lies ahead of the iterator is empty.
  lemma {:induction false} AllConsumed(slices: seq<FileReadTask>, cur: nat, left: nat, v: seq<seq<RangeTask>>)
    requires cur < |slices| && left <= slices[cur].size && Fill(v, slices, cur, left)
    requires TaskBytes(slices[..cur]) + slices[cur].size - left == TaskBytes(slices)
    ensures forall b :: 0 <= b < |v| ==> Bytes(v[b]) == slices[b].size
  {
    forall b | 0 <= b < |v| ensures Bytes(v[b]) == slices[b].size {
      if b >= cur {
        TaskPrefix(slices, cur);
        if b > cur {
          TaskPrefix(slices, b);
          PrefixGrows(slices, cur + 1, b);
        }
      }
    }
  }

  lemma {:induction false} PrefixGrows(ts: seq<FileReadTask>, i: nat, j: nat)
    requires i <= j <= |ts|
    ensures TaskBytes(ts[..i]) <= TaskBytes(ts[..j])
  {
    if i < j {
      PrefixGrows(ts, i, j - 1);
      TaskPrefix(ts, j - 1);
    }
  }

  // Within a slice the tasks are contiguous, from the slice's own start.
  lemma {:induction false} BatchChain(v: seq<seq<RangeTask>>, slices: seq<FileReadTask>, b: nat, offset: nat, dst: nat)
    requires b < |v| == |slices| && Chain(Flat(v), offset, dst)
    requires forall c :: 0 <= c < |v| ==> Bytes(v[c]) == slices[c].size
    ensures Chain(v[b], offset + TaskBytes(slices[..b]), dst + TaskBytes(slices[..b]))
  {
    var last := |v| - 1;
    ChainSplit(Flat(v[..last]), v[last], offset, dst);
    if b < last {
      BatchChain(v[..last], slices[..last], b, offset, dst);
      assert slices[..last][..b] == slices[..b];
    } else {
      FlatBytes(v[..b], slices[..b]);
    }
  }

  lemma {:induction false} FlatBytes(v: seq<seq<RangeTask>>, slices: seq<FileReadTask>)
    requires |v| == |slices| && forall c :: 0 <= c < |v| ==> Bytes(v[c]) == slices[c].size
    ensures Bytes(Flat(v)) == TaskBytes(slices)
  {
    if v != [] {
      FlatBytes(v[..|v|-1], slices[..|v|-1]);
      BytesAppend(Flat(v[..|v|-1]), v[|v|-1]);
    }
  }
}

// Dividing contiguous transfers between workers by block arithmetic.
module Assignment {
  import opened Seqs
  import opened Assigner

  // ---------------------------------------------------------------- what a division must satisfy

  function TaskBytes(tasks: seq<FileReadTask>): nat
  {
    if tasks == [] then 0 else TaskBytes(tasks[..|tasks|-1]) + tasks[|tasks|-1].size
  }

  // The tasks follow each other, in file and in memory, from the transfer's start.
  ghost predicate Tiles(t: Transfer)
  {
    forall k :: 0 <= k < |t.tasks| ==> TaskAt(t, k)
  }

  ghost predicate TaskAt(t: Transfer, k: nat)
    requires k < |t.tasks|
  {
    && t.tasks[k].fileIndex == t.fileIndex
    && t.tasks[k].offset == t.offset + TaskBytes(t.tasks[..k])
    && t.tasks[k].destination == t.destination + TaskBytes(t.tasks[..k])
  }

  // No task of a non-empty transfer is empty; an empty transfer still has its one task.
  ghost predicate NoEmptySlice(t: Transfer)
  {
    if t.size > 0 then forall k :: 0 <= k < |t.tasks| ==> t.tasks[k].size > 0 else |t.tasks| <= 1
  }

  // A worker has at most one slice of a transfer, and lower workers read lower bytes.
  ghost predicate WorkersAscend(tasks: seq<FileReadTask>)
  {
    forall j, k :: 0 <= j < k < |tasks| ==> tasks[j].workload < tasks[k].workload
  }

  ghost predicate WorkersBelow(tasks: seq<FileReadTask>, w: nat)
  {
    forall k :: 0 <= k < |tasks| ==> tasks[k].workload < w
  }

  ghost predicate Sliced(t: Transfer)
  {
    && Tiles(t) && NoEmptySlice(t) && WorkersAscend(t.tasks)
    && TaskBytes(t.tasks) == t.size && t.tasks != []
  }

  // All slices, in the order they were made.
  function Slices(ts: seq<Transfer>): seq<FileReadTask>
  {
    if ts == [] then [] else Slices(ts[..|ts|-1]) + ts[|ts|-1].tasks
  }

  function WorkerBytes(tasks: seq<FileReadTask>, w: nat): nat
  {
    if tasks == [] then 0
    else WorkerBytes(tasks[..|tasks|-1], w) + if tasks[|tasks|-1].workload == w then tasks[|tasks|-1].size else 0
  }

  function SizeOf(ts: seq<Transfer>): nat
  {
    if ts == [] then 0 else SizeOf(ts[..|ts|-1]) + ts[|ts|-1].size
  }

  // ---------------------------------------------------------------- block arithmetic

  datatype Shares = Shares(workloads: nat, blocks: nat, base: nat, remainder: nat)

  function TargetOf(s: Shares, w: nat): nat { if w == 0 then s.base + s.remainder else s.base }

  // What workers below w take together.
  function Before(s: Shares, w: nat): nat
  {
    if w == 0 then 0 else Before(s, w - 1) + TargetOf(s, w - 1)
  }

  lemma {:induction false} BeforeProduct(s: Shares, w: nat)
    requires w > 0
    ensures Before(s, w) == w * s.base + s.remainder
  {
    if w > 1 {
      BeforeProduct(s, w - 1);
      assert w * s.base == (w - 1) * s.base + s.base;
    } else {
      assert Before(s, 0) == 0;
    }
  }

  // As many workloads as there are whole blocks, but no more than workers and at least one.
  ghost predicate AsManyAs(total: nat, block: nat, workers: nat, workloads: nat)
  {
    && 1 <= workloads <= workers
    && (workloads < workers ==> total < (workloads + 1) * block)
    && (workloads > 1 ==> workloads * block <= total)
  }

  // Whole blocks are shared evenly; worker 0 takes what is left, less than one block per workload.
  method BytesPerWorker(total: nat, block: nat, workers: nat) returns (s: Shares)
    requires block > 0 && workers > 0
    ensures AsManyAs(total, block, workers, s.workloads)
    ensures s.base == s.blocks * block
    ensures Before(s, s.workloads) == total
    ensures s.remainder < s.workloads * block
    ensures s.workloads > 1 ==> s.base > 0
  {
    var blocks := total / block;
    var workloads := if blocks < workers then blocks else workers;
    workloads := if workloads < 1 then 1 else workloads;
    var q := blocks / workloads;
    var base := q * block;
    BlockShares(total, block, workloads, q);
    EnoughWorkloads(total, block, workers, blocks, workloads);
    s := Shares(workloads, q, base, total - workloads * base);
    BeforeProduct(s, workloads);
  }

  lemma EnoughWorkloads(total: nat, block: nat, workers: nat, blocks: nat, workloads: nat)
    requires block > 0 && workers > 0 && blocks == total / block
    requires workloads == if blocks < 1 then 1 else if blocks < workers then blocks else workers
    ensures AsManyAs(total, block, workers, workloads)
  {
    var r := total % block;
    assert total == blocks * block + r && 0 <= r < block;
    if workloads < workers {
      Product(blocks + 1, workloads + 1, block);
      assert (blocks + 1) * block == blocks * block + block;
    }
    if workloads > 1 {
      Product(workloads, blocks, block);
    }
  }

  lemma BlockShares(total: nat, block: nat, workloads: nat, q: nat)
    requires block > 0 && workloads > 0 && q == total / block / workloads
    requires workloads <= total / block || workloads == 1
    ensures 0 <= total - workloads * (q * block) < workloads * block
    ensures workloads > 1 ==> q * block > 0
  {
    var blocks, r := total / block, total % block;
    var s := blocks % workloads;
    assert blocks == workloads * q + s && 0 <= s < workloads;
    assert total == blocks * block + r && 0 <= r < block;
    Regroup(workloads, q, s, block);
    Product(s + 1, workloads, block);
    if workloads > 1 {
      assert q >= 1;
      Product(1, q, block);
    }
  }

  lemma Regroup(w: nat, q: nat, s: nat, b: nat)
    ensures (w * q + s) * b == w * (q * b) + s * b
    ensures (s + 1) * b == s * b + b
  {
  }

  lemma {:induction false} Product(a: nat, b: nat, c: nat)
    requires a <= b
    ensures a * c <= b * c
  {
    if a < b {
      Product(a, b - 1, c);
    }
  }

  // ---------------------------------------------------------------- one slice more

  // Worker w takes the next `n` bytes of a transfer.
  function Slice(t: Transfer, w: nat, consumed: nat, n: nat): Transfer
  {
    t.(tasks := t.tasks + [FileReadTask(w, t.fileIndex, t.offset + consumed, n, t.destination + consumed)])
  }

  lemma {:induction false} TaskBytesSnoc(tasks: seq<FileReadTask>, task: FileReadTask)
    ensures TaskBytes(tasks + [task]) == TaskBytes(tasks) + task.size
  {
    assert (tasks + [task])[..|tasks|] == tasks;
  }

  lemma {:induction false} WorkerBytesSnoc(tasks: seq<FileReadTask>, task: FileReadTask)
    ensures forall w :: WorkerBytes(tasks + [task], w) == WorkerBytes(tasks, w)
                        + if task.workload == w then task.size else 0
  {
    assert (tasks + [task])[..|tasks|] == tasks;
  }

  // Part of a transfer is sliced: its first `consumed` bytes.
  ghost predicate PartlySliced(t: Transfer, consumed: nat, w: nat)
  {
    && Tiles(t) && WorkersAscend(t.tasks) && WorkersBelow(t.tasks, w)
    && TaskBytes(t.tasks) == consumed
    && (if t.size > 0 then consumed < t.size && NoEmptySlice(t) else t.tasks == [])
  }

  lemma SliceStep(t: Transfer, consumed: nat, w: nat, n: nat)
    requires PartlySliced(t, consumed, w) && consumed + n <= t.size && (n == 0 <==> t.size == 0)
    ensures consumed + n < t.size ==> PartlySliced(Slice(t, w, consumed, n), consumed + n, w + 1)
    ensures consumed + n == t.size ==> Sliced(Slice(t, w, consumed, n))
    ensures WorkersBelow(Slice(t, w, consumed, n).tasks, w + 1)
  {
    hide TaskBytes;
    var u := Slice(t, w, consumed, n);
    TaskBytesSnoc(t.tasks, u.tasks[|t.tasks|]);
    forall k | 0 <= k < |u.tasks| ensures TaskAt(u, k) {
      if k < |t.tasks| {
        assert TaskAt(t, k);
        assert u.tasks[..k] == t.tasks[..k];
      } else {
        assert u.tasks[..k] == t.tasks;
      }
    }
  }

  lemma {:induction false} SlicesPut(ts: seq<Transfer>, i: nat, t: Transfer, task: FileReadTask)
    requires i < |ts| && t.tasks == ts[i].tasks + [task]
    requires forall j :: i < j < |ts| ==> ts[j].tasks == []
    ensures Slices(ts[i := t]) == Slices(ts) + [task]
  {
    var us := ts[i := t];
    if i == |ts| - 1 {
      assert us[..|ts|-1] == ts[..|ts|-1];
    } else {
      SlicesPut(ts[..|ts|-1], i, t, task);
      assert us[..|ts|-1] == ts[..|ts|-1][i := t];
    }
  }

  lemma {:induction false} SlicesNone(ts: seq<Transfer>)
    requires forall j :: 0 <= j < |ts| ==> ts[j].tasks == []
    ensures Slices(ts) == []
  {
    if ts != [] {
      SlicesNone(ts[..|ts|-1]);
    }
  }

  lemma {:induction false} SizePrefix(ts: seq<Transfer>, i: nat)
    requires i < |ts|
    ensures SizeOf(ts[..i]) + ts[i].size == SizeOf(ts[..i + 1]) <= SizeOf(ts)
  {
    assert ts[..i + 1][..i] == ts[..i];
    if i < |ts| - 1 {
      SizePrefix(ts[..|ts|-1], i);
      assert ts[..|ts|-1][..i + 1] == ts[..i + 1] && ts[..|ts|-1][..i] == ts[..i];
    } else {
      assert ts[..i + 1] == ts;
    }
  }

  // ---------------------------------------------------------------- the division

  ghost predicate SameTransfers(ts: seq<Transfer>, given: seq<Transfer>)
  {
    |ts| == |given| && forall i :: 0 <= i < |ts| ==> ts[i].(tasks := []) == given[i]
  }

  ghost predicate AllSliced(ts: seq<Transfer>, upTo: nat, w: nat)
  {
    upTo <= |ts| && forall i :: 0 <= i < upTo ==> Sliced(ts[i]) && WorkersBelow(ts[i].tasks, w)
  }

  // The cursor (index, consumed) of the assignment loop while worker w is being served.
  ghost predicate Cursor(given: seq<Transfer>, ts: seq<Transfer>, index: nat, consumed: nat, w: nat, full: bool)
  {
    && SameTransfers(ts, given) && AllSliced(ts, index, w + 1)
    && (forall i :: index < i < |ts| ==> ts[i].tasks == [])
    && (index == |ts| ==> consumed == 0)
    && (index < |ts| ==>
          PartlySliced(ts[index], consumed, w)
            || (full && ts[index].size > 0 && PartlySliced(ts[index], consumed, w + 1)))
  }

  ghost predicate Ledger(ts: seq<Transfer>, totals: seq<nat>)
  {
    forall u :: 0 <= u < |totals| ==> totals[u] == WorkerBytes(Slices(ts), u)
  }

  lemma LedgerStep(ts: seq<Transfer>, index: nat, consumed: nat, w: nat, n: nat, totals: seq<nat>)
    requires index < |ts| && w < |totals| && Ledger(ts, totals)
    requires forall i :: index < i < |ts| ==> ts[i].tasks == []
    ensures Ledger(ts[index := Slice(ts[index], w, consumed, n)], totals[w := totals[w] + n])
  {
    hide WorkerBytes, Slices;
    var u := Slice(ts[index], w, consumed, n);
    var task := u.tasks[|ts[index].tasks|];
    SlicesPut(ts, index, u, task);
    WorkerBytesSnoc(Slices(ts), task);
  }

  lemma CursorStep(given: seq<Transfer>, ts: seq<Transfer>, index: nat, consumed: nat, w: nat, n: nat, full: bool)
    requires Cursor(given, ts, index, consumed, w, false) && index < |ts|
    requires consumed + n <= ts[index].size && (n == 0 <==> ts[index].size == 0)
    requires consumed + n < ts[index].size ==> full
    ensures var us := ts[index := Slice(ts[index], w, consumed, n)];
            && (consumed + n == ts[index].size ==> Cursor(given, us, index + 1, 0, w, full))
            && (consumed + n < ts[index].size ==> Cursor(given, us, index, consumed + n, w, full))
  {
    SliceStep(ts[index], consumed, w, n);
    var us := ts[index := Slice(ts[index], w, consumed, n)];
    if index + 1 < |us| {
      Untouched(us[index + 1], w);
    }
    hide PartlySliced, Sliced, WorkersBelow;
    forall i | 0 <= i < |us| ensures us[i].(tasks := []) == given[i] {
      assert ts[i].(tasks := []) == given[i];
    }
  }

  lemma Untouched(t: Transfer, w: nat)
    requires t.tasks == []
    ensures PartlySliced(t, 0, w)
  {
  }

  ghost predicate SharesOk(s: Shares, total: nat)
  {
    1 <= s.workloads && Before(s, s.workloads) == total && (s.workloads > 1 ==> s.base > 0)
  }

  // Bytes handed out so far: every earlier worker's target, and `taken` to worker w.
  ghost predicate Served(given: seq<Transfer>, s: Shares, index: nat, consumed: nat, w: nat, taken: nat)
  {
    && index <= |given|
    && taken <= TargetOf(s, w)
    && SizeOf(given[..index]) + consumed == Before(s, w) + taken
  }

  // Earlier workers have their targets, worker w has `taken`, later ones nothing.
  ghost predicate Filled(s: Shares, totals: seq<nat>, w: nat, taken: nat)
  {
    forall u :: 0 <= u < |totals| ==> totals[u] == if u < w then TargetOf(s, u) else if u == w then taken else 0
  }

  ghost predicate AllFilled(s: Shares, totals: seq<nat>)
  {
    forall u :: 0 <= u < |totals| ==> totals[u] == if u < s.workloads then TargetOf(s, u) else 0
  }

  lemma BeforeSteps(s: Shares, w: nat)
    ensures Before(s, w + 1) == Before(s, w) + TargetOf(s, w)
  {
  }

  lemma {:induction false} BeforeGrows(s: Shares, v: nat, w: nat)
    requires v <= w
    ensures Before(s, v) <= Before(s, w)
    ensures 0 < v < w && s.base > 0 ==> Before(s, v) < Before(s, w)
  {
    if v < w {
      BeforeGrows(s, v, w - 1);
      BeforeSteps(s, w - 1);
    }
  }

  // A worker's target runs out before the bytes do, unless it is the last workload.
  lemma {:induction false} BytesLeft(given: seq<Transfer>, s: Shares, index: nat, consumed: nat, w: nat, taken: nat)
    requires SharesOk(s, SizeOf(given)) && Served(given, s, index, consumed, w, taken) && index < |given|
    requires consumed < given[index].size
    ensures Before(s, w) + taken < SizeOf(given)
    ensures taken == TargetOf(s, w) && w < s.workloads ==> w + 1 < s.workloads
  {
    SizePrefix(given, index);
    BeforeSteps(s, w);
  }

  // When every transfer is sliced, every workload has its target.
  lemma {:induction false} AllOut(given: seq<Transfer>, s: Shares, totals: seq<nat>, w: nat, taken: nat)
    requires SharesOk(s, SizeOf(given)) && Served(given, s, |given|, 0, w, taken) && w < s.workloads
    requires Filled(s, totals, w, taken)
    ensures AllFilled(s, totals)
  {
    assert given[..|given|] == given;
    BeforeSteps(s, w);
    BeforeGrows(s, w + 1, s.workloads);
    assert w + 1 == s.workloads;
  }

  // The state of the loop over one worker: the transfers, the cursor, what the worker has, all totals.
  datatype Work = Work(ts: seq<Transfer>, index: nat, consumed: nat, taken: nat, totals: seq<nat>)

  ghost predicate Working(given: seq<Transfer>, s: Shares, w: nat, k: Work)
  {
    && w < |k.totals| && Ledger(k.ts, k.totals) && Filled(s, k.totals, w, k.taken)
    && Cursor(given, k.ts, k.index, k.consumed, w, k.taken >= TargetOf(s, w))
    && Served(given, s, k.index, k.consumed, w, k.taken)
  }

  // The worker's target is met and the next transfer has bytes: the loop breaks.
  predicate Stops(s: Shares, w: nat, k: Work)
  {
    k.index >= |k.ts| || (k.ts[k.index].size > 0 && k.taken >= TargetOf(s, w))
  }

  predicate CanGrab(s: Shares, w: nat, k: Work)
  {
    k.index < |k.ts| && k.consumed <= k.ts[k.index].size && k.taken <= TargetOf(s, w) && w < |k.totals|
  }

  // How many bytes worker w takes of the transfer under the cursor.
  function Grab(s: Shares, w: nat, k: Work): (n: nat)
    requires CanGrab(s, w, k)
    ensures k.consumed + n <= k.ts[k.index].size && k.taken + n <= TargetOf(s, w)
    ensures k.consumed + n < k.ts[k.index].size ==> k.taken + n == TargetOf(s, w)
    ensures n == 0 ==> k.consumed == k.ts[k.index].size || k.taken == TargetOf(s, w)
  {
    var remaining, room := k.ts[k.index].size - k.consumed, TargetOf(s, w) - k.taken;
    if remaining < room then remaining else room
  }

  // One turn of the loop.
  function Advance(s: Shares, w: nat, k: Work): Work
    requires CanGrab(s, w, k)
  {
    var n := Grab(s, w, k);
    var ts := k.ts[k.index := Slice(k.ts[k.index], w, k.consumed, n)];
    var totals := k.totals[w := k.totals[w] + n];
    if k.consumed + n == k.ts[k.index].size then Work(ts, k.index + 1, 0, k.taken + n, totals)
    else Work(ts, k.index, k.consumed + n, k.taken + n, totals)
  }

  lemma WorkFacts(given: seq<Transfer>, s: Shares, w: nat, k: Work)
    requires Working(given, s, w, k) && k.index < |k.ts|
    ensures CanGrab(s, w, k) && |k.ts| == |given| && k.index < |given| && given[k.index].size == k.ts[k.index].size
    ensures k.ts[k.index].size > 0 ==> k.consumed < k.ts[k.index].size
    ensures k.ts[k.index].size == 0 ==> k.consumed == 0
    ensures forall i :: k.index < i < |k.ts| ==> k.ts[i].tasks == []
    ensures !Stops(s, w, k) ==> Cursor(given, k.ts, k.index, k.consumed, w, false)
  {
    hide Ledger, Filled, AllSliced;
    CursorFacts(given, k.ts, k.index, k.consumed, w, k.taken >= TargetOf(s, w));
  }

  lemma AdvanceCursor(given: seq<Transfer>, s: Shares, w: nat, k: Work)
    requires Working(given, s, w, k) && !Stops(s, w, k) && CanGrab(s, w, k)
    ensures var k' := Advance(s, w, k); Cursor(given, k'.ts, k'.index, k'.consumed, w, k'.taken >= TargetOf(s, w))
  {
    hide Working, Cursor, Slice, TargetOf;
    WorkFacts(given, s, w, k);
    CursorStep(given, k.ts, k.index, k.consumed, w, Grab(s, w, k), k.taken + Grab(s, w, k) >= TargetOf(s, w));
  }

  lemma AdvanceLedger(given: seq<Transfer>, s: Shares, w: nat, k: Work)
    requires Working(given, s, w, k) && CanGrab(s, w, k)
    ensures Ledger(Advance(s, w, k).ts, Advance(s, w, k).totals)
  {
    assert Ledger(k.ts, k.totals);
    hide Working, Ledger, Slice, TargetOf;
    WorkFacts(given, s, w, k);
    LedgerStep(k.ts, k.index, k.consumed, w, Grab(s, w, k), k.totals);
  }

  lemma AdvanceBooks(given: seq<Transfer>, s: Shares, w: nat, k: Work)
    requires Working(given, s, w, k) && !Stops(s, w, k) && CanGrab(s, w, k)
    ensures var k' := Advance(s, w, k);
            Filled(s, k'.totals, w, k'.taken) && Served(given, s, k'.index, k'.consumed, w, k'.taken)
  {
    WorkFacts(given, s, w, k);
    hide Cursor, Ledger, SizeOf, Slice, TargetOf, Before;
    SizePrefix(given, k.index);
  }

  lemma WorkStep(given: seq<Transfer>, s: Shares, w: nat, k: Work)
    requires Working(given, s, w, k) && !Stops(s, w, k)
    ensures CanGrab(s, w, k) && Working(given, s, w, Advance(s, w, k))
    ensures var next := Advance(s, w, k);
            && |next.ts| == |k.ts| && |next.totals| == |k.totals|
            && (next.index == k.index + 1 ||
                (next.index == k.index && next.consumed > k.consumed && next.ts[k.index].size == k.ts[k.index].size))
  {
    WorkFacts(given, s, w, k);
    AdvanceCursor(given, s, w, k);
    AdvanceLedger(given, s, w, k);
    AdvanceBooks(given, s, w, k);
    hide Cursor, Ledger, Filled, Served, Slice;
  }

  // The body of the loop.
  method TakeSlice(s: Shares, w: nat, k: Work, target: nat) returns (next: Work)
    requires CanGrab(s, w, k) && target == TargetOf(s, w)
    ensures next == Advance(s, w, k)
  {
    var t := k.ts[k.index];
    var remaining := t.size - k.consumed;
    var n := if remaining < target - k.taken then remaining else target - k.taken;
    var ts := k.ts[k.index := Slice(t, w, k.consumed, n)];
    next := Work(ts, k.index, k.consumed + n, k.taken + n, k.totals[w := k.totals[w] + n]);
    if next.consumed == t.size {
      next := next.(index := k.index + 1, consumed := 0);
    }
  }

  // The while loop over one worker: transfers are sliced until the worker's target is met.
  method AssignWorker(ghost given: seq<Transfer>, s: Shares, w: nat, start: Work) returns (k: Work)
    requires SharesOk(s, SizeOf(given)) && w < s.workloads
    requires Working(given, s, w, start) && start.taken == 0 && |start.ts| == |given|
    ensures Working(given, s, w, k) && |k.totals| == |start.totals| && |k.ts| == |given|
    ensures k.index < |k.ts| ==> k.taken == TargetOf(s, w) && k.consumed < k.ts[k.index].size
  {
    k := start;
    var target := if w == 0 then s.base + s.remainder else s.base;
    hide Working, SharesOk, Advance, Grab;
    while k.index < |k.ts|
      invariant |k.ts| == |given| && |k.totals| == |start.totals|
      invariant Working(given, s, w, k)
      decreases |given| - k.index, if k.index < |k.ts| then k.ts[k.index].size - k.consumed else 0
    {
      WorkFacts(given, s, w, k);
      if k.ts[k.index].size > 0 && k.taken >= target {
        break;
      }
      WorkStep(given, s, w, k);
      k := TakeSlice(s, w, k, target);
    }
    if k.index < |k.ts| {
      WorkFacts(given, s, w, k);
    }
  }

  // Worker w is full and bytes are left: the next worker starts where it stopped.
  lemma {:induction false} NextWorker(given: seq<Transfer>, s: Shares, w: nat, k: Work)
    requires SharesOk(s, SizeOf(given)) && w < s.workloads <= |k.totals|
    requires Working(given, s, w, k)
    requires k.index < |k.ts| && k.taken == TargetOf(s, w) && k.consumed < k.ts[k.index].size
    ensures w + 1 < s.workloads && Working(given, s, w + 1, k.(taken := 0))
  {
    CursorFacts(given, k.ts, k.index, k.consumed, w, k.taken >= TargetOf(s, w));
    CursorWeaken(given, k.ts, k.index, k.consumed, w + 1, false, 0 >= TargetOf(s, w + 1));
    hide Cursor, Ledger;
    BytesLeft(given, s, k.index, k.consumed, w, k.taken);
    BeforeSteps(s, w);
  }

  lemma CursorWeaken(given: seq<Transfer>, ts: seq<Transfer>, index: nat, consumed: nat, w: nat, a: bool, b: bool)
    requires Cursor(given, ts, index, consumed, w, a) && (a ==> b)
    ensures Cursor(given, ts, index, consumed, w, b) && |ts| == |given|
  {
  }

  lemma CursorFacts(given: seq<Transfer>, ts: seq<Transfer>, index: nat, consumed: nat, w: nat, full: bool)
    requires Cursor(given, ts, index, consumed, w, full) && index < |ts|
    ensures |ts| == |given| && ts[index].size == given[index].size && consumed <= ts[index].size
    ensures ts[index].size > 0 ==> consumed < ts[index].size
    ensures ts[index].size == 0 ==> consumed == 0
    ensures !(full && ts[index].size > 0) ==> Cursor(given, ts, index, consumed, w, false)
    ensures Cursor(given, ts, index, consumed, w + 1, false)
  {
    assert ts[index].(tasks := []) == given[index];
    assert TaskBytes([]) == 0;
  }

  lemma CursorEnds(given: seq<Transfer>, ts: seq<Transfer>, w: nat, full: bool, v: nat)
    requires Cursor(given, ts, |ts|, 0, w, full) && w < v
    ensures SameTransfers(ts, given) && AllSliced(ts, |ts|, v)
  {
  }

  lemma AssignStarts(given: seq<Transfer>, s: Shares, workers: nat)
    requires forall k :: 0 <= k < |given| ==> given[k].tasks == []
    requires given != [] && workers > 0
    ensures Working(given, s, 0, Work(given, 0, 0, 0, seq(workers, i => 0)))
  {
    SlicesNone(given);
    assert given[0].(tasks := []) == given[0];
    assert Cursor(given, given, 0, 0, 0, false);
    CursorWeaken(given, given, 0, 0, 0, false, 0 >= TargetOf(s, 0));
  }

  ghost predicate Finished(given: seq<Transfer>, s: Shares, ts: seq<Transfer>, totals: seq<nat>)
  {
    SameTransfers(ts, given) && AllSliced(ts, |ts|, s.workloads) && Ledger(ts, totals) && AllFilled(s, totals)
  }

  lemma FinishedMeans(given: seq<Transfer>, s: Shares, ts: seq<Transfer>, totals: seq<nat>)
    requires Finished(given, s, ts, totals)
    ensures SameTransfers(ts, given) && AllSliced(ts, |ts|, s.workloads) && Ledger(ts, totals) && AllFilled(s, totals)
  {
  }

  lemma {:induction false} FinishAll(given: seq<Transfer>, s: Shares, w: nat, k: Work)
    requires SharesOk(s, SizeOf(given)) && w < s.workloads && |k.ts| == |given|
    requires Working(given, s, w, k) && k.index >= |k.ts|
    ensures Finished(given, s, k.ts, k.totals)
  {
    CursorEnds(given, k.ts, w, k.taken >= TargetOf(s, w), s.workloads);
    hide Cursor, Ledger, Sliced;
    AllOut(given, s, k.totals, w, k.taken);
  }

  // `total` bytes to read, none of them given to a worker yet.
  ghost predicate Unassigned(given: seq<Transfer>, total: nat)
  {
    total == SizeOf(given) && forall k :: 0 <= k < |given| ==> given[k].tasks == []
  }

  // Every transfer is sliced; the slices of each workload add up to its target.
  method Assign(given: seq<Transfer>, total: nat, block: nat, workers: nat)
    returns (ts: seq<Transfer>, totals: seq<nat>, s: Shares)
    requires block > 0 && workers > 0 && given != [] && Unassigned(given, total)
    ensures SameTransfers(ts, given) && AllSliced(ts, |ts|, s.workloads)
    ensures Before(s, s.workloads) == total && AsManyAs(total, block, workers, s.workloads)
    ensures s.base == s.blocks * block && s.remainder < s.workloads * block
    ensures |totals| == workers && Ledger(ts, totals) && AllFilled(s, totals)
  {
    s := BytesPerWorker(total, block, workers);
    var k := Work(given, 0, 0, 0, seq(workers, i => 0));
    var w: nat := 0;
    AssignStarts(given, s, workers);
    assert SharesOk(s, SizeOf(given));
    hide Working, Finished, SharesOk;
    while w < workers && k.index < |k.ts|
      invariant |k.totals| == workers && |k.ts| == |given|
      invariant k.index < |k.ts| ==> w < s.workloads && k.taken == 0 && Working(given, s, w, k)
      invariant k.index >= |k.ts| ==> Finished(given, s, k.ts, k.totals)
    {
      k := AssignWorker(given, s, w, k);
      if k.index < |k.ts| {
        NextWorker(given, s, w, k);
      } else {
        FinishAll(given, s, w, k);
      }
      k := k.(taken := 0);
      w := w + 1;
    }
    ts, totals := k.ts, k.totals;
    FinishedMeans(given, s, ts, totals);
  }
}

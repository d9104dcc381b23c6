// What submitting one chunk and draining one round of completions do to the worker's state, exactly.
module WorkerRounds {
  import opened Codes
  import opened WorkerModel
  import opened WorkerInvariant
  import opened WorkerSteps
  import opened WorkerAdmit
  import opened WorkerOwners
  import opened WorkerMoves

  datatype Response = Response(handle: nat, code: ResponseCode)

  // ---------------------------------------------------------------- one chunk

  // What submit does with a chunk of block `base`: a task that has failed already costs no read, the chunk
  // gets its task's error; otherwise the read is issued, or refused and the chunk gets the refusal.
  ghost predicate Submitted(v: View, w: View, base: nat, chunk: Chunk, before: map<nat, Read>, after: map<nat, Read>)
  {
    && base in v.blocks && base in v.specs && InBlock(base, v.specs[base], chunk.handle)
    && var k := v.specs[base].plan[chunk.handle - base].task;
       k < |v.blocks[base].tasks| &&
       var t := v.blocks[base].tasks[k];
       if t.error != Success then after == before && Accounted(v, w, base, chunk.handle, t.error)
       else
         || (w == v && after ==
           before[chunk.handle := Read(t.owner.source, chunk.offset, chunk.bytesize, chunk.buffer)])
         || (after == before && exists code :: code != Success && Accounted(v, w, base, chunk.handle, code))
  }

  // ---------------------------------------------------------------- one round

  // A completion goes to the block its handle lies in; a late one, whose block is gone, goes nowhere.
  ghost function RouteOne(v: View, r: Response): View
  {
    if Live(v.specs, r.handle) then
      var base :| base in v.specs && InBlock(base, v.specs[base], r.handle);
      if Ready(v, base, r.handle) then AfterComplete(v, base, r.handle, r.code) else v
    else v.(out := v.out - {r.handle})
  }

  ghost function Route(v: View, rs: seq<Response>): View
  {
    if rs == [] then v else RouteOne(Route(v, rs[..|rs|-1]), rs[|rs|-1])
  }

  // Some completion of the round is not a late one.
  ghost predicate SomeLive(v: View, rs: seq<Response>)
  {
    exists i :: 0 <= i < |rs| && Live(Route(v, rs[..i]).specs, rs[i].handle)
  }

  // The backend has nothing more to hand out: an empty round, or one closed by the sentinel.
  predicate RanDry(rs: seq<Response>) { rs == [] || rs[|rs|-1].code == FinishedError }

  // The round without the sentinel.
  function Completions(rs: seq<Response>): seq<Response>
  {
    if rs != [] && RanDry(rs) then rs[..|rs|-1] else rs
  }

  // The handles a round reports as successful.
  ghost function Landings(rs: seq<Response>): set<nat>
  {
    set i | 0 <= i < |rs| && rs[i].code == Success :: rs[i].handle
  }

  // A round completes reads that are out, each once, up to a sentinel that may close it.
  predicate RoundFits(out: set<nat>, rs: seq<Response>)
  {
    && (forall i :: 0 <= i < |rs| && rs[i].code == FinishedError ==> i == |rs| - 1)
    && (forall i :: 0 <= i < |rs| && rs[i].code != FinishedError ==> rs[i].handle in out)
    && (forall i, j :: 0 <= i < j < |rs| && rs[j].code != FinishedError ==> rs[i].handle != rs[j].handle)
  }

  // What a round does once its successes have landed. The worker gives up on what is in flight only when the
  // backend ran dry without a single live completion.
  ghost predicate Rounded(u: View, w: View, rs: seq<Response>)
  {
    var mid := Route(u, Completions(rs));
    if RanDry(rs) && !SomeLive(u, Completions(rs)) && !(mid.pending == [] && mid.credit == 0)
    then AbortedBy(mid, w, FinishedError)
    else w == mid
  }

  // drain_batch, given the backend's reply: an abort when the worker was told to stop or the backend failed,
  // a round otherwise.
  ghost predicate DrainedBy(v: View, w: View, stopped: bool, reply: ResponseCode, rs: seq<Response>)
  {
    if stopped then AbortedBy(v, w, FinishedError)
    else if reply != Success then AbortedBy(v, w, reply)
    else RoundFits(v.out, rs) && Rounded(v.(landed := v.landed + Landings(rs)), w, rs)
  }

  lemma {:induction false} RouteNone(v: View)
    ensures Route(v, []) == v && !SomeLive(v, [])
  {
  }

  // Which block is found makes no difference: there is one at most.
  lemma RoutesTo(v: View, r: Response, base: nat)
    requires Disjoint(v.specs, v.counter)
    ensures !Live(v.specs, r.handle) ==> RouteOne(v, r) == v.(out := v.out - {r.handle})
    ensures base in v.specs && InBlock(base, v.specs[base], r.handle) && Ready(v, base, r.handle) ==>
              RouteOne(v, r) == AfterComplete(v, base, r.handle, r.code)
  {
    hide AfterComplete, Ready;
    forall b | b in v.specs && InBlock(b, v.specs[b], r.handle) && base in v.specs
      && InBlock(base, v.specs[base], r.handle)
      ensures b == base
    {
      OneBlock(v.specs, v.counter, r.handle, b, base);
    }
  }

  lemma {:induction false} RouteLast(v: View, rs: seq<Response>, r: Response)
    ensures Route(v, rs + [r]) == RouteOne(Route(v, rs), r)
    ensures SomeLive(v, rs + [r]) <==> SomeLive(v, rs) || Live(Route(v, rs).specs, r.handle)
  {
    var all := rs + [r];
    assert all[..|rs|] == rs;
    assert forall i :: 0 <= i < |rs| ==> all[..i] == rs[..i] && all[i] == rs[i];
    if SomeLive(v, rs) {
      var i :| 0 <= i < |rs| && Live(Route(v, rs[..i]).specs, rs[i].handle);
      assert Live(Route(v, all[..i]).specs, all[i].handle);
    }
    if Live(Route(v, rs).specs, r.handle) {
      assert Live(Route(v, all[..|rs|]).specs, all[|rs|].handle);
    }
  }

  // ---------------------------------------------------------------- runs

  // Everything a worker does: take in a workload or discard it, submit the oldest pending chunk while the
  // window has room, and drain.
  datatype Act =
    | Admits(w: Workload)
    | Discards(w: Workload, code: ResponseCode)
    | Submits(base: nat, before: map<nat, Read>, after: map<nat, Read>)
    | Drains(stopped: bool, reply: ResponseCode, rs: seq<Response>)

  ghost predicate Acts(v: View, w: View, a: Act, capacity: nat)
  {
    match a
    case Admits(x) => v.cb > 0 && FreshIds(v.known, AllTasks(x)) && w == Enqueued(v, x)
    case Discards(x, code) => v.cb > 0 && FreshIds(v.known, AllTasks(x)) && code != Success
      && w == Discarded(v, x, code)
    case Submits(base, before, after) =>
      |v.pending| > 0 && v.credit < capacity && Submitted(TakeView(v), w, base, v.pending[0], before, after)
    case Drains(stopped, reply, rs) => DrainedBy(v, w, stopped, reply, rs)
  }

  // `run` goes from v to w by `acts`.
  ghost predicate ActsTo(v: View, w: View, run: seq<View>, acts: seq<Act>, capacity: nat)
  {
    && |run| == |acts| + 1 && run[0] == v && run[|acts|] == w
    && forall k :: 0 <= k < |acts| ==> Acts(run[k], run[k + 1], acts[k], capacity)
  }

  lemma ActsShape(v: View, w: View, run: seq<View>, acts: seq<Act>, capacity: nat)
    requires ActsTo(v, w, run, acts, capacity)
    ensures |run| == |acts| + 1 && run[0] == v
  {
  }

  lemma ActsNone(v: View, capacity: nat)
    ensures ActsTo(v, v, [v], [], capacity)
  {
  }

  lemma ActsOne(v: View, w: View, a: Act, capacity: nat)
    requires Acts(v, w, a, capacity)
    ensures ActsTo(v, w, [v, w], [a], capacity)
  {
    hide Acts;
  }

  lemma ActsMore(v: View, u: View, w: View, run: seq<View>, acts: seq<Act>, a: Act, capacity: nat)
    requires ActsTo(v, u, run, acts, capacity) && Acts(u, w, a, capacity)
    ensures ActsTo(v, w, run + [w], acts + [a], capacity)
  {
    hide Acts;
  }

  lemma ActsJoin(v: View, u: View, w: View, run: seq<View>, acts: seq<Act>, run': seq<View>, acts': seq<Act>,
                 capacity: nat)
    requires ActsTo(v, u, run, acts, capacity) && ActsTo(u, w, run', acts', capacity)
    ensures ActsTo(v, w, run + run'[1..], acts + acts', capacity)
  {
    hide Acts;
    var r, a := run + run'[1..], acts + acts';
    forall k | 0 <= k < |a| ensures Acts(r[k], r[k + 1], a[k], capacity) {
      if k >= |acts| {
        assert r[k] == run'[k - |acts|] && r[k + 1] == run'[k + 1 - |acts|];
      }
    }
  }

  // From act `from` on the worker only submits, and drains only what fills the whole window.
  ghost predicate Working(run: seq<View>, acts: seq<Act>, from: nat, capacity: nat)
  {
    && |run| == |acts| + 1
    && forall k :: from <= k < |acts| ==>
         acts[k].Submits? || (acts[k].Drains? && run[k].credit >= capacity)
  }

  lemma WorkingNone(v: View, capacity: nat)
    ensures Working([v], [], 0, capacity)
  {
  }

  lemma WorkingMore(v: View, u: View, w: View, run: seq<View>, acts: seq<Act>, a: Act, capacity: nat)
    requires ActsTo(v, u, run, acts, capacity) && Working(run, acts, 0, capacity) && a.Drains? && u.credit >= capacity
    ensures Working(run + [w], acts + [a], 0, capacity)
  {
    hide Acts;
  }

  lemma DrainedMore(v: View, u: View, w: View, run: seq<View>, acts: seq<Act>, a: Act, capacity: nat)
    requires ActsTo(v, u, run, acts, capacity) && Working(run, acts, 0, capacity)
    requires a.Drains? && u.credit >= capacity && Acts(u, w, a, capacity)
    ensures ActsTo(v, w, run + [w], acts + [a], capacity) && Working(run + [w], acts + [a], 0, capacity)
  {
    hide Acts;
    WorkingMore(v, u, w, run, acts, a, capacity);
    ActsMore(v, u, w, run, acts, a, capacity);
  }

  lemma WorkingJoin(v: View, u: View, w: View, run: seq<View>, acts: seq<Act>, run': seq<View>, acts': seq<Act>,
                    capacity: nat)
    requires ActsTo(v, u, run, acts, capacity) && Working(run, acts, 0, capacity)
    requires ActsTo(u, w, run', acts', capacity) && forall k :: 0 <= k < |acts'| ==> acts'[k].Submits?
    ensures Working(run + run'[1..], acts + acts', 0, capacity)
  {
    hide Acts;
  }

  lemma WorkingAfter(v: View, u: View, run: seq<View>, acts: seq<Act>, a: Act, capacity: nat)
    requires |run| > 0 && run[0] == u && Working(run, acts, 0, capacity)
    ensures Working([v, u] + run[1..], [a] + acts, 1, capacity)
  {
    forall k | 1 <= k < |acts| + 1
      ensures var a' := ([a] + acts)[k]; a'.Submits? || (a'.Drains? && ([v, u] + run[1..])[k].credit >= capacity)
    {
      assert ([a] + acts)[k] == acts[k - 1] && ([v, u] + run[1..])[k] == run[k - 1];
    }
  }

  // ---------------------------------------------------------------- acts are runs of moves

  lemma AccountedMoves(v: View, w: View, base: nat, h: nat, code: ResponseCode, run: seq<View>, moves: seq<Move>,
                       v0: View)
    returns (run': seq<View>, moves': seq<Move>)
    requires MoveRun(v0, v, run, moves) && h in v.out && ReadOk(v, h, code) && Accounted(v, w, base, h, code)
    ensures MoveRun(v0, w, run', moves')
  {
    hide Accounted, MoveRun;
    MoveMore(v0, v, w, run, moves, Complete(base, h, code));
    run', moves' := run + [w], moves + [Complete(base, h, code)];
  }

  // A round of completions that are out and, where successful, landed.
  ghost predicate Deliverable(v: View, rs: seq<Response>)
  {
    && (forall i :: 0 <= i < |rs| ==> rs[i].handle in v.out && ReadOk(v, rs[i].handle, rs[i].code))
    && forall i, j :: 0 <= i < j < |rs| ==> rs[i].handle != rs[j].handle
  }

  lemma RouteOneMoves(v: View, r: Response) returns (m: Move)
    requires Inv(v) && r.handle in v.out && ReadOk(v, r.handle, r.code)
    ensures MovesTo(v, RouteOne(v, r), m)
    ensures RouteOne(v, r).out == v.out - {r.handle} && RouteOne(v, r).landed == v.landed
  {
    hide Inv, RouteOne, Ready, AfterComplete, TakeView, Enqueued, Discarded, AbortedBy, FreshIds, Below, Disjoint;
    InvBooks(v);
    if Live(v.specs, r.handle) {
      var base :| base in v.specs && InBlock(base, v.specs[base], r.handle);
      CompleteKeeps(v, base, r.handle, r.code);
      RoutesTo(v, r, base);
      m := Complete(base, r.handle, r.code);
      OutAfter(v, base, r.handle, r.code);
    } else {
      RoutesTo(v, r, 0);
      m := Late(r.handle);
    }
  }

  lemma OutAfter(v: View, base: nat, h: nat, ret: ResponseCode)
    requires Ready(v, base, h)
    ensures AfterComplete(v, base, h, ret).out == v.out - {h} && AfterComplete(v, base, h, ret).landed == v.landed
    ensures AfterComplete(v, base, h, ret).counter == v.counter
  {
  }

  lemma {:induction false} RouteMoves(v: View, rs: seq<Response>) returns (run: seq<View>, moves: seq<Move>)
    requires Inv(v) && Deliverable(v, rs)
    ensures MoveRun(v, Route(v, rs), run, moves) && Inv(Route(v, rs))
    ensures Route(v, rs).out == v.out - (set i | 0 <= i < |rs| :: rs[i].handle) && Route(v, rs).landed == v.landed
  {
    hide Inv, MovesTo, RouteOne, MoveRun;
    if rs == [] {
      NoMoves(v);
      run, moves := [v], [];
    } else {
      var front, last := rs[..|rs|-1], rs[|rs|-1];
      run, moves := RouteMoves(v, front);
      var u := Route(v, front);
      var m := RouteOneMoves(u, last);
      MoveKeeps(u, Route(v, rs), m);
      MoveMore(v, u, Route(v, rs), run, moves, m);
      run, moves := run + [Route(v, rs)], moves + [m];
    }
  }

  // Whatever a worker does is a run of atomic moves.
  lemma ActMoves(v: View, w: View, a: Act, capacity: nat) returns (run: seq<View>, moves: seq<Move>)
    requires Inv(v) && Acts(v, w, a, capacity)
    ensures MoveRun(v, w, run, moves)
  {
    hide Inv, MoveRun, Enqueued, Discarded, FreshIds, AbortedBy, Route, SomeLive;
    NoMoves(v);
    run, moves := [v], [];
    match a
    case Admits(x) =>
      MoveMore(v, v, w, run, moves, Admit(x));
      run, moves := run + [w], moves + [Admit(x)];
    case Discards(x, code) =>
      MoveMore(v, v, w, run, moves, Discard(x, code));
      run, moves := run + [w], moves + [Discard(x, code)];
    case Submits(base, before, after) => run, moves := SubmitMoves(v, w, base, before, after);
    case Drains(stopped, reply, rs) => run, moves := DrainMoves(v, w, stopped, reply, rs);
  }

  lemma SubmitMoves(v: View, w: View, base: nat, before: map<nat, Read>, after: map<nat, Read>)
    returns (run: seq<View>, moves: seq<Move>)
    requires |v.pending| > 0 && Submitted(TakeView(v), w, base, v.pending[0], before, after)
    ensures MoveRun(v, w, run, moves)
  {
    hide MoveRun, Accounted;
    NoMoves(v);
    var u, h := TakeView(v), v.pending[0].handle;
    MoveMore(v, v, u, [v], [], Take);
    run, moves := [v] + [u], [] + [Take];
    if w != u {
      var code :| code != Success && Accounted(u, w, base, h, code);
      run, moves := AccountedMoves(u, w, base, h, code, run, moves, v);
    }
  }

  lemma DrainMoves(v: View, w: View, stopped: bool, reply: ResponseCode, rs: seq<Response>)
    returns (run: seq<View>, moves: seq<Move>)
    requires Inv(v) && DrainedBy(v, w, stopped, reply, rs)
    ensures MoveRun(v, w, run, moves)
  {
    hide Inv, MoveRun, AbortedBy, Route, SomeLive;
    NoMoves(v);
    run, moves := [v], [];
    if stopped || reply != Success {
      var code := if stopped then FinishedError else reply;
      MoveMore(v, v, w, run, moves, Abort(code));
      run, moves := run + [w], moves + [Abort(code)];
      return;
    }
    var u := v.(landed := v.landed + Landings(rs));
    assert MovesTo(v, u, Land(Landings(rs)));
    MoveMore(v, v, u, run, moves, Land(Landings(rs)));
    MoveKeeps(v, u, Land(Landings(rs)));
    var more, moves' := RouteMoves(u, Completions(rs));
    MoveJoin(v, u, Route(u, Completions(rs)), run + [u], moves + [Land(Landings(rs))], more, moves');
    run, moves := run + [u] + more[1..], moves + [Land(Landings(rs))] + moves';
    var mid := Route(u, Completions(rs));
    if w != mid {
      MoveMore(v, mid, w, run, moves, Abort(FinishedError));
      run, moves := run + [w], moves + [Abort(FinishedError)];
    }
  }

  lemma MoveJoin(v: View, u: View, w: View, run: seq<View>, moves: seq<Move>, run': seq<View>, moves': seq<Move>)
    requires MoveRun(v, u, run, moves) && MoveRun(u, w, run', moves')
    ensures |run'| > 0 && MoveRun(v, w, run + run'[1..], moves + moves')
  {
    hide MovesTo;
    var r, a := run + run'[1..], moves + moves';
    forall k | 0 <= k < |a| ensures MovesTo(r[k], r[k + 1], a[k]) {
      if k >= |moves| {
        assert r[k] == run'[k - |moves|] && r[k + 1] == run'[k + 1 - |moves|];
      }
    }
  }

  // A whole run of the worker, as atomic moves, keeps the invariant.
  lemma {:induction false} RunMoves(v: View, w: View, run: seq<View>, acts: seq<Act>, capacity: nat)
    returns (fine: seq<View>, moves: seq<Move>)
    requires ActsTo(v, w, run, acts, capacity) && Inv(v)
    ensures MoveRun(v, w, fine, moves) && Inv(w)
    decreases |acts|
  {
    hide Acts, Inv, MoveRun;
    if acts == [] {
      NoMoves(v);
      fine, moves := [v], [];
    } else {
      var n := |acts| - 1;
      fine, moves := RunMoves(v, run[n], run[..n + 1], acts[..n], capacity);
      var more, moves' := ActMoves(run[n], w, acts[n], capacity);
      MoveJoin(v, run[n], w, fine, moves, more, moves');
      RunKeeps(run[n], w, more, moves');
      fine, moves := fine + more[1..], moves + moves';
    }
  }

  // ---------------------------------------------------------------- dead handles stay dead

  lemma {:induction false} MovesDead(v: View, w: View, run: seq<View>, moves: seq<Move>, h: nat)
    requires MoveRun(v, w, run, moves)
    ensures v.counter <= w.counter && (Dead(v, h) ==> Dead(w, h))
    decreases |moves|
  {
    if moves != [] {
      var n := |moves| - 1;
      MovesDead(v, run[n], run[..n + 1], moves[..n], h);
      assert MovesTo(run[n], w, moves[n]);
      hide MovesTo, Dead;
      CounterGrows(run[n], w, moves[n]);
      if Dead(run[n], h) {
        DeadStays(run[n], w, moves[n], h);
      }
    }
  }

  lemma CounterGrows(v: View, w: View, m: Move)
    requires MovesTo(v, w, m)
    ensures v.counter <= w.counter
  {
    hide FreshIds, Aborted, FailedWith, AddKnown, FinishZero, Report, OwnersFrom, CompleteIn, CompleteOutcomes;
  }

  // Whatever the worker does from here on, a handle whose block was erased lies in no live block again: its
  // completion, whenever it arrives, is a late one.
  lemma DeadForever(v: View, w: View, run: seq<View>, acts: seq<Act>, capacity: nat, h: nat)
    requires ActsTo(v, w, run, acts, capacity) && Inv(v) && Dead(v, h)
    ensures Dead(w, h)
  {
    hide ActsTo, Inv;
    var fine, moves := RunMoves(v, w, run, acts, capacity);
    MovesDead(v, w, fine, moves, h);
  }

  // In every run: a handle that some live block contained, and that no live block contains later on, is in
  // none ever after.
  lemma ErasedIsDead(run: seq<View>, acts: seq<Act>, capacity: nat, i: nat, j: nat, k: nat, h: nat)
    requires |run| == |acts| + 1 && i <= j <= k < |run| && Inv(run[0])
    requires forall n :: 0 <= n < |acts| ==> Acts(run[n], run[n + 1], acts[n], capacity)
    requires Live(run[i].specs, h) && !Live(run[j].specs, h)
    ensures Dead(run[k], h)
  {
    hide Acts, Inv, Live;
    assert ActsTo(run[0], run[i], run[..i + 1], acts[..i], capacity);
    assert ActsTo(run[i], run[j], run[i..j + 1], acts[i..j], capacity);
    assert ActsTo(run[j], run[k], run[j..k + 1], acts[j..k], capacity);
    hide ActsTo;
    var f0, m0 := RunMoves(run[0], run[i], run[..i + 1], acts[..i], capacity);
    var f1, m1 := RunMoves(run[i], run[j], run[i..j + 1], acts[i..j], capacity);
    MovesDead(run[i], run[j], f1, m1, h);
    InvBooks(run[i]);
    LiveOrDead(run[i], run[j], h);
    DeadForever(run[j], run[k], run[j..k + 1], acts[j..k], capacity, h);
  }
}

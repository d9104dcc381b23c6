// From finished tasks to responses: request counters shared by concurrent workers.
module Answers {
  import opened Codes
  import opened Batches

  // ---------------------------------------------------------------- a plan

  // A workload of a submission.
  datatype Home = Home(submission: nat, workload: nat)

  // Any number of submissions: task t belongs to request owner[t] and to workload home[t]; request r belongs to
  // submission source[r]; submission s has parts[s] workloads.
  datatype Plan = Plan(
    tasks: seq<RangeTask>,
    owner: seq<nat>,
    home: seq<Home>,
    requests: seq<Request>,
    source: seq<nat>,
    parts: seq<nat>)

  // The task is a part of the request's range.
  ghost predicate PartOf(t: RangeTask, q: Request)
  {
    && t.file == q.fileIndex && t.range == q.index && t.dst == q.dst
    && t.offset == q.offset + t.relative && t.relative + t.size <= q.bytesize
  }

  ghost predicate Shaped(p: Plan)
  {
    && |p.owner| == |p.home| == |p.tasks| && |p.source| == |p.requests|
    && (forall t :: 0 <= t < |p.tasks| ==> TaskHome(p, t) && PartOf(p.tasks[t], p.requests[p.owner[t]]))
    && forall r :: 0 <= r < |p.source| ==> p.source[r] < |p.parts|
  }

  ghost predicate TaskHome(p: Plan, t: nat)
    requires |p.owner| == |p.home| == |p.tasks| && |p.source| == |p.requests| && t < |p.tasks|
  {
    && p.owner[t] < |p.requests| && p.home[t].submission == p.source[p.owner[t]]
    && p.home[t].submission < |p.parts| && p.home[t].workload < p.parts[p.home[t].submission]
  }

  ghost function TasksOf(p: Plan, r: nat): set<nat>
    requires Shaped(p)
  {
    set t: nat | t < |p.tasks| && p.owner[t] == r
  }

  // Tasks write to different places, each counter is the number of tasks, and they cover the range.
  ghost predicate PlanGood(p: Plan)
  {
    && Shaped(p)
    && (forall t, u, a :: 0 <= t < u < |p.tasks| ==> !(Window(p.tasks[t], a) && Window(p.tasks[u], a)))
    && (forall r: nat :: r < |p.requests| ==> |TasksOf(p, r)| == p.requests[r].tasks > 0)
    && (forall r: nat, a: nat :: r < |p.requests| && InRange(p.requests[r], a) ==> Covered(p, r, a))
  }

  ghost predicate InRange(q: Request, a: nat) { q.dst <= a < q.dst + q.bytesize }

  ghost predicate Covered(p: Plan, r: nat, a: nat)
    requires Shaped(p) && r < |p.requests|
  {
    exists t: nat :: t in TasksOf(p, r) && Window(p.tasks[t], a)
  }

  // ---------------------------------------------------------------- states and steps

  // A task's way: undecided; its worker has its outcome; the outcome is stored in the request; the
  // request's counter is decremented; the response, if owed, is pushed.
  datatype Phase =
    | Todo
    | Decided(code: ResponseCode)
    | Stored(code: ResponseCode)
    | Counted(code: ResponseCode, last: bool)
    | Done(code: ResponseCode, last: bool)

  datatype Response = Response(request: nat, code: ResponseCode)

  // A submission is registered and counted before its first workload goes to the pool. Workloads below `next`
  // are with the pool; a throwing push hands the rest to the drain.
  datatype Dispatch = Planned | Going(next: nat) | Thrown(next: nat)

  type Memory = nat -> int
  type Files = (nat, nat) -> int

  datatype State = State(
    dispatch: seq<Dispatch>,
    phase: seq<Phase>,
    counter: seq<nat>,
    ret: seq<ResponseCode>,
    pushed: seq<Response>,
    memory: Memory)

  datatype Step =
    | Commit(submission: nat)
    | Send(submission: nat)
    | Throw(submission: nat)
    | Write
    | Decide(t: nat, code: ResponseCode)
    | Store(t: nat)
    | Count(t: nat)
    | Push(t: nat)

  ghost predicate Init(p: Plan, s: State)
  {
    && |s.dispatch| == |p.parts| && (forall i :: 0 <= i < |s.dispatch| ==> s.dispatch[i] == Planned)
    && |s.phase| == |p.tasks| && (forall t :: 0 <= t < |s.phase| ==> s.phase[t] == Todo)
    && |s.counter| == |s.ret| == |p.requests|
    && (forall r :: 0 <= r < |p.requests| ==> s.counter[r] == p.requests[r].tasks && s.ret[r] == Success)
    && s.pushed == []
  }

  ghost predicate SameShape(p: Plan, s: State)
  {
    |s.phase| == |p.tasks| && |s.counter| == |s.ret| == |p.requests| && |s.dispatch| == |p.parts|
  }

  // The bytes of task t are where they belong.
  ghost predicate Landed(t: RangeTask, files: Files, memory: Memory)
  {
    forall a: nat :: Window(t, a) ==> memory(a) == files(t.file, t.offset + (a - t.dst - t.relative))
  }

  ghost predicate Succeeded(f: Phase) { !f.Todo? && f.code == Success }

  // No task that has succeeded reads to the address.
  ghost predicate Open(p: Plan, s: State, a: nat)
    requires |s.phase| == |p.tasks|
  {
    forall t: nat :: t < |p.tasks| && Window(p.tasks[t], a) ==> !Succeeded(s.phase[t])
  }

  // The task's workload is with the pool, or was handed to the drain.
  ghost predicate Sent(p: Plan, s: State, t: nat)
    requires Shaped(p) && SameShape(p, s) && t < |p.tasks|
  {
    TaskHome(p, t) &&
    var d := s.dispatch[p.home[t].submission];
    !d.Planned? && p.home[t].workload < d.next
  }

  ghost predicate Dropped(p: Plan, s: State, t: nat)
    requires Shaped(p) && SameShape(p, s) && t < |p.tasks|
  {
    TaskHome(p, t) &&
    var d := s.dispatch[p.home[t].submission];
    d.Thrown? && p.home[t].workload >= d.next
  }

  // A worker decides only what it was given; what was never dispatched fails with UnknownError. A task is
  // finished with Success only once its bytes have landed. Memory changes only where no task that
  // has succeeded reads to.
  ghost predicate Next(p: Plan, files: Files, s: State, s': State, step: Step)
    requires Shaped(p)
  {
    && SameShape(p, s)
    && match step
       case Commit(i) => i < |p.parts| && s.dispatch[i].Planned? && s' == s.(dispatch := s.dispatch[i := Going(0)])
       case Send(i) =>
         && i < |p.parts| && s.dispatch[i].Going? && s.dispatch[i].next < p.parts[i]
         && s' == s.(dispatch := s.dispatch[i := Going(s.dispatch[i].next + 1)])
       case Throw(i) =>
         && i < |p.parts| && s.dispatch[i].Going? && s.dispatch[i].next < p.parts[i]
         && s' == s.(dispatch := s.dispatch[i := Thrown(s.dispatch[i].next)])
       case Write =>
         && s' == s.(memory := s'.memory)
         && forall a: nat :: s'.memory(a) == s.memory(a) || Open(p, s, a)
       case Decide(t, code) =>
         && t < |p.tasks| && s.phase[t] == Todo
         && (Sent(p, s, t) || (Dropped(p, s, t) && code == UnknownError))
         && (code == Success ==> Landed(p.tasks[t], files, s.memory))
         && s' == s.(phase := s.phase[t := Decided(code)])
       case _ => Finishes(p, s, s', step)
  }

  // What follows a task's outcome, on the thread that has it: the same whatever the outcome came from.
  ghost predicate Finishes(p: Plan, s: State, s': State, step: Step)
    requires Shaped(p) && SameShape(p, s)
  {
    match step
    case Store(t) =>
      && t < |p.tasks| && s.phase[t].Decided?
      && s' == s.(phase := s.phase[t := Stored(s.phase[t].code)],
                  ret := if s.phase[t].code != Success then s.ret[p.owner[t] := s.phase[t].code] else s.ret)
    case Count(t) =>
      && t < |p.tasks| && s.phase[t].Stored?
      && s' == s.(phase := s.phase[t := Counted(s.phase[t].code, s.counter[p.owner[t]] == 1)],
                  counter := s.counter[p.owner[t] := Less(s.counter[p.owner[t]])])
    case Push(t) =>
      && t < |p.tasks| && s.phase[t].Counted?
      && s' == s.(phase := s.phase[t := Done(s.phase[t].code, s.phase[t].last)],
                  pushed := if s.phase[t].last then s.pushed + [Response(p.owner[t], s.ret[p.owner[t]])] else s.pushed)
    case _ => false
  }

  // fetch_sub on an unsigned counter
  function Less(n: nat): nat { if n == 0 then 0xFFFF_FFFF else n - 1 }

  // ---------------------------------------------------------------- the invariant

  ghost predicate IsStored(f: Phase) { f.Stored? || f.Counted? || f.Done? }

  ghost predicate IsCounted(f: Phase) { f.Counted? || f.Done? }

  ghost predicate IsLast(f: Phase) { IsCounted(f) && f.last }

  ghost predicate Answered(f: Phase) { f.Done? && f.last }

  ghost function Uncounted(p: Plan, s: State, r: nat): set<nat>
    requires Shaped(p) && SameShape(p, s)
  {
    set t | t in TasksOf(p, r) && !IsCounted(s.phase[t])
  }

  // The counter is the number of tasks still to be counted; the task that found it at one is the last.
  ghost predicate CounterOk(p: Plan, s: State, r: nat)
    requires Shaped(p) && SameShape(p, s) && r < |p.requests|
  {
    && s.counter[r] == |Uncounted(p, s, r)|
    && (s.counter[r] == 0 <==> exists t: nat :: t in TasksOf(p, r) && IsLast(s.phase[t]))
    && forall t: nat, u: nat :: t in TasksOf(p, r) && u in TasksOf(p, r) && IsLast(s.phase[t]) && IsLast(s.phase[u]) ==>
         t == u
  }

  // The result is Success until a failed task stores its code.
  ghost predicate RetOk(p: Plan, s: State, r: nat)
    requires Shaped(p) && SameShape(p, s) && r < |p.requests|
  {
    if s.ret[r] == Success
    then forall t: nat :: t in TasksOf(p, r) && IsStored(s.phase[t]) ==> s.phase[t].code == Success
    else exists t: nat :: t in TasksOf(p, r) && IsStored(s.phase[t]) && s.phase[t].code == s.ret[r]
  }

  ghost predicate PushedOk(p: Plan, s: State)
    requires Shaped(p) && SameShape(p, s)
  {
    && (forall i, j :: 0 <= i < j < |s.pushed| ==> s.pushed[i].request != s.pushed[j].request)
    && (forall i :: 0 <= i < |s.pushed| ==> ResponseOk(p, s, s.pushed[i]))
    && forall t: nat :: t < |p.tasks| && Answered(s.phase[t]) ==> HasResponse(s, p.owner[t])
  }

  ghost predicate HasResponse(s: State, r: nat)
  {
    exists i :: 0 <= i < |s.pushed| && s.pushed[i].request == r
  }

  ghost predicate ResponseOk(p: Plan, s: State, a: Response)
    requires Shaped(p) && SameShape(p, s)
  {
    && a.request < |p.requests| && a.code == s.ret[a.request]
    && exists t: nat :: t in TasksOf(p, a.request) && Answered(s.phase[t])
  }

  ghost predicate Inv(p: Plan, files: Files, s: State)
    requires Shaped(p)
  {
    && SameShape(p, s)
    && (forall r: nat :: r < |p.requests| ==> CounterOk(p, s, r) && RetOk(p, s, r))
    && PushedOk(p, s)
    && (forall t :: 0 <= t < |p.tasks| && Succeeded(s.phase[t]) ==> Landed(p.tasks[t], files, s.memory))
  }

  lemma InitInv(p: Plan, files: Files, s: State)
    requires PlanGood(p) && Init(p, s)
    ensures Inv(p, files, s)
  {
    forall r: nat | r < |p.requests| ensures CounterOk(p, s, r) && RetOk(p, s, r) {
      assert Uncounted(p, s, r) == TasksOf(p, r);
    }
  }

  // ---------------------------------------------------------------- the invariant is kept

  // A step of task t leaves the books of every other request alone.
  lemma OtherRequest(p: Plan, s: State, s': State, t: nat, r: nat)
    requires Shaped(p) && SameShape(p, s) && SameShape(p, s') && t < |p.tasks| && r < |p.requests|
    requires s'.phase == s.phase[t := s'.phase[t]] && p.owner[t] != r
    requires s'.counter[r] == s.counter[r] && s'.ret[r] == s.ret[r] && CounterOk(p, s, r) && RetOk(p, s, r)
    ensures CounterOk(p, s', r) && RetOk(p, s', r)
  {
    assert forall u: nat :: u in TasksOf(p, r) ==> s'.phase[u] == s.phase[u];
    assert Uncounted(p, s', r) == Uncounted(p, s, r);
    if s.ret[r] != Success {
      var u: nat :| u in TasksOf(p, r) && IsStored(s.phase[u]) && s.phase[u].code == s.ret[r];
      assert IsStored(s'.phase[u]);
    }
    if s.counter[r] == 0 {
      var u: nat :| u in TasksOf(p, r) && IsLast(s.phase[u]);
      assert IsLast(s'.phase[u]);
    }
  }

  // A step of task t that does not count it leaves its request's counter right.
  lemma SameCounter(p: Plan, s: State, s': State, t: nat)
    requires Shaped(p) && SameShape(p, s) && SameShape(p, s') && t < |p.tasks|
    requires s'.phase == s.phase[t := s'.phase[t]] && s'.counter == s.counter
    requires IsCounted(s.phase[t]) == IsCounted(s'.phase[t]) && IsLast(s.phase[t]) == IsLast(s'.phase[t])
    requires CounterOk(p, s, p.owner[t])
    ensures CounterOk(p, s', p.owner[t])
  {
    var r := p.owner[t];
    assert Uncounted(p, s', r) == Uncounted(p, s, r);
    assert forall u: nat :: u in TasksOf(p, r) ==> IsLast(s'.phase[u]) == IsLast(s.phase[u]);
    if s.counter[r] == 0 {
      var u: nat :| u in TasksOf(p, r) && IsLast(s.phase[u]);
      assert IsLast(s'.phase[u]);
    }
  }

  lemma CountCounter(p: Plan, s: State, s': State, t: nat)
    requires Shaped(p) && SameShape(p, s) && t < |p.tasks| && s.phase[t].Stored?
    requires s' == s.(phase := s.phase[t := Counted(s.phase[t].code, s.counter[p.owner[t]] == 1)],
                      counter := s.counter[p.owner[t] := Less(s.counter[p.owner[t]])])
    requires CounterOk(p, s, p.owner[t])
    ensures s.counter[p.owner[t]] > 0 && CounterOk(p, s', p.owner[t])
  {
    var r := p.owner[t];
    assert t in Uncounted(p, s, r);
    assert Uncounted(p, s', r) == Uncounted(p, s, r) - {t};
    assert forall u: nat :: u in TasksOf(p, r) && u != t ==> IsLast(s'.phase[u]) == IsLast(s.phase[u]);
    assert forall u: nat :: u in TasksOf(p, r) ==> !IsLast(s.phase[u]);
    if s'.counter[r] == 0 {
      assert IsLast(s'.phase[t]);
    }
  }

  // Storing a code, or none for Success, keeps the result truthful.
  lemma StoreRet(p: Plan, s: State, s': State, t: nat)
    requires Shaped(p) && SameShape(p, s) && SameShape(p, s') && t < |p.tasks|
    requires s'.phase == s.phase[t := s'.phase[t]]
    requires IsStored(s'.phase[t]) && (IsStored(s.phase[t]) ==> s'.phase[t].code == s.phase[t].code && s'.ret == s.ret)
    requires !IsStored(s.phase[t]) ==>
      s'.ret == if s'.phase[t].code != Success then s.ret[p.owner[t] := s'.phase[t].code] else s.ret
    requires RetOk(p, s, p.owner[t])
    ensures RetOk(p, s', p.owner[t])
  {
    var r := p.owner[t];
    assert t in TasksOf(p, r);
    assert forall u: nat :: u in TasksOf(p, r) && u != t ==> s'.phase[u] == s.phase[u];
    if s'.ret[r] != Success && s'.ret[r] == s.ret[r] {
      var u: nat :| u in TasksOf(p, r) && IsStored(s.phase[u]) && s.phase[u].code == s.ret[r];
      assert IsStored(s'.phase[u]) && s'.phase[u].code == s'.ret[r];
    }
  }

  lemma DecideRet(p: Plan, s: State, s': State, t: nat)
    requires Shaped(p) && SameShape(p, s) && SameShape(p, s') && t < |p.tasks|
    requires s'.phase == s.phase[t := s'.phase[t]] && s'.ret == s.ret && !IsStored(s.phase[t]) && !IsStored(s'.phase[t])
    requires RetOk(p, s, p.owner[t])
    ensures RetOk(p, s', p.owner[t])
  {
    var r := p.owner[t];
    if s.ret[r] != Success {
      var u: nat :| u in TasksOf(p, r) && IsStored(s.phase[u]) && s.phase[u].code == s.ret[r];
      assert IsStored(s'.phase[u]) && s'.phase[u].code == s'.ret[r];
    }
  }

  // Responses already pushed stay right while no request already answered changes its result.
  lemma PushedSame(p: Plan, s: State, s': State, t: nat)
    requires Shaped(p) && SameShape(p, s) && SameShape(p, s') && t < |p.tasks|
    requires s'.phase == s.phase[t := s'.phase[t]] && s'.pushed == s.pushed
    requires !Answered(s.phase[t]) && !Answered(s'.phase[t])
    requires forall r: nat :: r < |p.requests| && HasResponse(s, r) ==> s'.ret[r] == s.ret[r]
    requires PushedOk(p, s)
    ensures PushedOk(p, s')
  {
    forall i | 0 <= i < |s.pushed| ensures ResponseOk(p, s', s.pushed[i]) {
      assert ResponseOk(p, s, s.pushed[i]);
      assert HasResponse(s, s.pushed[i].request);
      var u: nat :| u in TasksOf(p, s.pushed[i].request) && Answered(s.phase[u]);
      assert Answered(s'.phase[u]);
    }
    forall u: nat | u < |p.tasks| && Answered(s'.phase[u]) ensures HasResponse(s', p.owner[u]) {
      assert Answered(s.phase[u]);
      var i :| 0 <= i < |s.pushed| && s.pushed[i].request == p.owner[u];
      assert s'.pushed[i].request == p.owner[u];
    }
  }

  // An answered request has no task left to store, so its result is final.
  lemma AnsweredIsFinal(p: Plan, s: State, r: nat)
    requires Shaped(p) && SameShape(p, s) && r < |p.requests| && CounterOk(p, s, r) && PushedOk(p, s)
        && HasResponse(s, r)
    ensures forall t: nat :: t in TasksOf(p, r) ==> IsCounted(s.phase[t])
  {
    var i :| 0 <= i < |s.pushed| && s.pushed[i].request == r;
    assert ResponseOk(p, s, s.pushed[i]);
    var u: nat :| u in TasksOf(p, r) && Answered(s.phase[u]);
    assert IsLast(s.phase[u]);
    assert |Uncounted(p, s, r)| == 0;
    forall t: nat | t in TasksOf(p, r) ensures IsCounted(s.phase[t]) {
      assert t !in Uncounted(p, s, r);
    }
  }

  // The last task of a request is about to push the first response for it.
  lemma NotYetAnswered(p: Plan, s: State, t: nat)
    requires Shaped(p) && SameShape(p, s) && t < |p.tasks| && s.phase[t].Counted? && s.phase[t].last
    requires CounterOk(p, s, p.owner[t]) && PushedOk(p, s)
    ensures forall i :: 0 <= i < |s.pushed| ==> s.pushed[i].request != p.owner[t]
  {
    var r := p.owner[t];
    assert t in TasksOf(p, r) && IsLast(s.phase[t]);
    forall u: nat | u in TasksOf(p, r) ensures !Answered(s.phase[u]) {
      assert IsLast(s.phase[u]) ==> u == t;
    }
    forall i | 0 <= i < |s.pushed| ensures s.pushed[i].request != r {
      assert ResponseOk(p, s, s.pushed[i]);
    }
  }

  lemma PushedMore(p: Plan, s: State, s': State, t: nat)
    requires Shaped(p) && SameShape(p, s) && t < |p.tasks| && s.phase[t].Counted?
    requires s' == s.(phase := s.phase[t := Done(s.phase[t].code, s.phase[t].last)],
                      pushed := if s.phase[t].last then s.pushed + [Response(p.owner[t], s.ret[p.owner[t]])]
                        else s.pushed)
    requires CounterOk(p, s, p.owner[t]) && PushedOk(p, s)
    ensures PushedOk(p, s')
  {
    if s.phase[t].last {
      PushedLast(p, s, s', t);
    } else {
      PushedSame(p, s, s', t);
    }
  }

  lemma PushedLast(p: Plan, s: State, s': State, t: nat)
    requires Shaped(p) && SameShape(p, s) && t < |p.tasks| && s.phase[t].Counted? && s.phase[t].last
    requires s' == s.(phase := s.phase[t := Done(s.phase[t].code, true)],
                      pushed := s.pushed + [Response(p.owner[t], s.ret[p.owner[t]])])
    requires CounterOk(p, s, p.owner[t]) && PushedOk(p, s)
    ensures PushedOk(p, s')
  {
    var r := p.owner[t];
    assert t in TasksOf(p, r) && TaskHome(p, t);
    NotYetAnswered(p, s, t);
    hide CounterOk, Shaped, TasksOf;
    forall i | 0 <= i < |s'.pushed| ensures ResponseOk(p, s', s'.pushed[i]) {
      if i < |s.pushed| {
        assert ResponseOk(p, s, s.pushed[i]);
        var u: nat :| u in TasksOf(p, s.pushed[i].request) && Answered(s.phase[u]);
        assert u < |p.tasks| by { TaskIndex(p, s.pushed[i].request, u); }
        assert Answered(s'.phase[u]);
      } else {
        assert Answered(s'.phase[t]);
      }
    }
    forall u: nat | u < |p.tasks| && Answered(s'.phase[u]) ensures HasResponse(s', p.owner[u]) {
      if u == t {
        assert s'.pushed[|s.pushed|].request == r;
      } else {
        assert HasResponse(s, p.owner[u]);
        var i :| 0 <= i < |s.pushed| && s.pushed[i].request == p.owner[u];
        assert s'.pushed[i].request == p.owner[u];
      }
    }
  }

  lemma TaskIndex(p: Plan, r: nat, t: nat)
    requires Shaped(p) && t in TasksOf(p, r)
    ensures t < |p.tasks|
  {
  }

  lemma WriteKeeps(p: Plan, files: Files, s: State, s': State)
    requires PlanGood(p) && Inv(p, files, s) && Next(p, files, s, s', Write)
    ensures Inv(p, files, s')
  {
    forall u: nat | u < |p.tasks| && Succeeded(s'.phase[u]) ensures Landed(p.tasks[u], files, s'.memory) {
      assert Landed(p.tasks[u], files, s.memory);
      forall a: nat | Window(p.tasks[u], a) ensures s'.memory(a) == s.memory(a) {
        ClosedThere(p, s, u, a);
      }
    }
    BooksSame(p, s, s');
  }

  // The window of a task that has succeeded is open to nobody.
  lemma ClosedThere(p: Plan, s: State, u: nat, a: nat)
    requires PlanGood(p) && |s.phase| == |p.tasks| && u < |p.tasks| && Succeeded(s.phase[u]) && Window(p.tasks[u], a)
    ensures !Open(p, s, a)
  {
  }

  lemma BooksSame(p: Plan, s: State, s': State)
    requires Shaped(p) && SameShape(p, s) && SameShape(p, s')
    requires s'.phase == s.phase && s'.counter == s.counter && s'.ret == s.ret && s'.pushed == s.pushed
    requires (forall r: nat :: r < |p.requests| ==> CounterOk(p, s, r) && RetOk(p, s, r)) && PushedOk(p, s)
    ensures (forall r: nat :: r < |p.requests| ==> CounterOk(p, s', r) && RetOk(p, s', r)) && PushedOk(p, s')
  {
    forall r: nat | r < |p.requests| ensures CounterOk(p, s', r) && RetOk(p, s', r) {
      assert Uncounted(p, s', r) == Uncounted(p, s, r);
      assert CounterOk(p, s, r) && RetOk(p, s, r);
    }
    forall i | 0 <= i < |s.pushed| ensures ResponseOk(p, s', s'.pushed[i]) {
      assert ResponseOk(p, s, s.pushed[i]);
    }
    forall u: nat | u < |p.tasks| && Answered(s'.phase[u]) ensures HasResponse(s', p.owner[u]) {
      assert HasResponse(s, p.owner[u]);
    }
  }

  lemma DecideKeeps(p: Plan, files: Files, s: State, s': State, t: nat, code: ResponseCode)
    requires PlanGood(p) && Inv(p, files, s) && Next(p, files, s, s', Decide(t, code))
    ensures Inv(p, files, s')
  {
    forall r: nat | r < |p.requests| ensures CounterOk(p, s', r) && RetOk(p, s', r) {
      if r == p.owner[t] {
        SameCounter(p, s, s', t);
        DecideRet(p, s, s', t);
      } else {
        OtherRequest(p, s, s', t, r);
      }
    }
    PushedSame(p, s, s', t);
  }

  lemma StoreKeeps(p: Plan, files: Files, s: State, s': State, t: nat)
    requires PlanGood(p) && Inv(p, files, s) && Next(p, files, s, s', Store(t))
    ensures Inv(p, files, s')
  {
    var r := p.owner[t];
    forall q: nat | q < |p.requests| ensures CounterOk(p, s', q) && RetOk(p, s', q) {
      if q == r {
        SameCounter(p, s, s', t);
        StoreRet(p, s, s', t);
      } else {
        OtherRequest(p, s, s', t, q);
      }
    }
    forall q: nat | q < |p.requests| && HasResponse(s, q) ensures s'.ret[q] == s.ret[q] {
      AnsweredIsFinal(p, s, q);
      assert t in TasksOf(p, r);
    }
    PushedSame(p, s, s', t);
  }

  lemma CountKeeps(p: Plan, files: Files, s: State, s': State, t: nat)
    requires PlanGood(p) && Inv(p, files, s) && Next(p, files, s, s', Count(t))
    ensures s.counter[p.owner[t]] > 0 && Inv(p, files, s')
  {
    CountCounter(p, s, s', t);
    forall q: nat | q < |p.requests| ensures CounterOk(p, s', q) && RetOk(p, s', q) {
      if q == p.owner[t] {
        StoreRet(p, s, s', t);
      } else {
        OtherRequest(p, s, s', t, q);
      }
    }
    PushedSame(p, s, s', t);
  }

  lemma PushKeeps(p: Plan, files: Files, s: State, s': State, t: nat)
    requires PlanGood(p) && Inv(p, files, s) && Next(p, files, s, s', Push(t))
    ensures Inv(p, files, s')
  {
    forall q: nat | q < |p.requests| ensures CounterOk(p, s', q) && RetOk(p, s', q) {
      if q == p.owner[t] {
        SameCounter(p, s, s', t);
        StoreRet(p, s, s', t);
      } else {
        OtherRequest(p, s, s', t, q);
      }
    }
    PushedMore(p, s, s', t);
  }

  lemma DispatchKeeps(p: Plan, files: Files, s: State, s': State)
    requires PlanGood(p) && Inv(p, files, s) && SameShape(p, s) && SameShape(p, s') && s' == s.(dispatch := s'.dispatch)
    ensures Inv(p, files, s')
  {
    BooksSame(p, s, s');
  }

  lemma StepKeeps(p: Plan, files: Files, s: State, s': State, step: Step)
    requires PlanGood(p) && Inv(p, files, s) && Next(p, files, s, s', step)
    ensures Inv(p, files, s')
  {
    hide Inv, PlanGood;
    match step
    case Commit(i) => DispatchKeeps(p, files, s, s');
    case Send(i) => DispatchKeeps(p, files, s, s');
    case Throw(i) => DispatchKeeps(p, files, s, s');
    case Write => WriteKeeps(p, files, s, s');
    case Decide(t, code) => DecideKeeps(p, files, s, s', t, code);
    case Store(t) => StoreKeeps(p, files, s, s', t);
    case Count(t) => CountKeeps(p, files, s, s', t);
    case Push(t) => PushKeeps(p, files, s, s', t);
  }

  // ---------------------------------------------------------------- runs

  ghost predicate Run(p: Plan, files: Files, run: seq<State>, steps: seq<Step>)
    requires Shaped(p)
  {
    && |run| == |steps| + 1 && Init(p, run[0])
    && forall i :: 0 <= i < |steps| ==> Next(p, files, run[i], run[i + 1], steps[i])
  }

  lemma {:induction false} RunInv(p: Plan, files: Files, run: seq<State>, steps: seq<Step>, n: nat)
    requires PlanGood(p) && Run(p, files, run, steps) && n < |run|
    ensures Inv(p, files, run[n])
  {
    hide Inv, PlanGood, Init, Next;
    if n == 0 {
      InitInv(p, files, run[0]);
    } else {
      RunInv(p, files, run, steps, n - 1);
      StepKeeps(p, files, run[n - 1], run[n], steps[n - 1]);
    }
  }

  // Every task of the request was decided Success.
  ghost predicate AllSucceeded(p: Plan, s: State, r: nat)
    requires Shaped(p) && SameShape(p, s)
  {
    forall t: nat :: t in TasksOf(p, r) ==> Succeeded(s.phase[t])
  }

  // The bytes of the whole range are in place.
  ghost predicate Placed(q: Request, files: Files, memory: Memory)
  {
    forall a: nat :: InRange(q, a) ==> memory(a) == files(q.fileIndex, q.offset + (a - q.dst))
  }

  lemma SuccessPlaces(p: Plan, files: Files, s: State, r: nat)
    requires PlanGood(p) && Inv(p, files, s) && r < |p.requests| && AllSucceeded(p, s, r)
    ensures Placed(p.requests[r], files, s.memory)
  {
    var q := p.requests[r];
    forall a: nat | InRange(q, a) ensures s.memory(a) == files(q.fileIndex, q.offset + (a - q.dst)) {
      assert Covered(p, r, a);
      var t: nat :| t in TasksOf(p, r) && Window(p.tasks[t], a);
      assert Landed(p.tasks[t], files, s.memory) && PartOf(p.tasks[t], q);
    }
  }

  ghost predicate ResponseTrue(p: Plan, files: Files, s: State, a: Response)
    requires Shaped(p) && SameShape(p, s)
  {
    && a.request < |p.requests|
    && (a.code == Success <==> AllSucceeded(p, s, a.request))
    && (a.code == Success ==> Placed(p.requests[a.request], files, s.memory))
    && (a.code != Success ==> FailedTask(p, s, a))
  }

  ghost predicate FailedTask(p: Plan, s: State, a: Response)
    requires Shaped(p) && SameShape(p, s)
  {
    exists t: nat :: t in TasksOf(p, a.request) && IsCounted(s.phase[t]) && s.phase[t].code == a.code
  }

  lemma ResponseTruthful(p: Plan, files: Files, s: State, i: nat)
    requires PlanGood(p) && Inv(p, files, s) && i < |s.pushed|
    ensures ResponseTrue(p, files, s, s.pushed[i])
  {
    var a := s.pushed[i];
    assert ResponseOk(p, s, a) && HasResponse(s, a.request);
    assert CounterOk(p, s, a.request) && RetOk(p, s, a.request);
    AnsweredIsFinal(p, s, a.request);
    if a.code == Success {
      forall t: nat | t in TasksOf(p, a.request) ensures Succeeded(s.phase[t]) {
        assert IsStored(s.phase[t]);
      }
      SuccessPlaces(p, files, s, a.request);
    } else {
      var t: nat :| t in TasksOf(p, a.request) && IsStored(s.phase[t]) && s.phase[t].code == a.code;
      assert IsCounted(s.phase[t]);
    }
  }

  // What a pushed response says, at any time after it was pushed: Success exactly when every task of the
  // range succeeded, and then every byte is in place; otherwise a code one of its tasks failed with.
  lemma AnswersTruthful(p: Plan, files: Files, run: seq<State>, steps: seq<Step>, n: nat, i: nat)
    requires PlanGood(p) && Run(p, files, run, steps) && n < |run| && i < |run[n].pushed|
    ensures SameShape(p, run[n]) && ResponseTrue(p, files, run[n], run[n].pushed[i])
  {
    RunInv(p, files, run, steps, n);
    ResponseTruthful(p, files, run[n], i);
  }

  // ---------------------------------------------------------------- exactly once

  ghost predicate Quiet(s: State) { forall t :: 0 <= t < |s.phase| ==> s.phase[t].Done? }

  lemma QuietAnswers(p: Plan, files: Files, s: State)
    requires PlanGood(p) && Inv(p, files, s) && Quiet(s)
    ensures forall r: nat :: r < |p.requests| ==> HasResponse(s, r)
  {
    forall r: nat | r < |p.requests| ensures HasResponse(s, r) {
      assert Uncounted(p, s, r) == {};
      assert CounterOk(p, s, r);
      var t: nat :| t in TasksOf(p, r) && IsLast(s.phase[t]);
      assert Answered(s.phase[t]);
    }
  }

  // When nothing is left to do, every request has been answered, and none twice.
  lemma AnsweredExactlyOnce(p: Plan, files: Files, run: seq<State>, steps: seq<Step>, n: nat)
    requires PlanGood(p) && Run(p, files, run, steps) && n < |run|
    ensures forall i, j :: 0 <= i < j < |run[n].pushed| ==> run[n].pushed[i].request != run[n].pushed[j].request
    ensures Quiet(run[n]) ==> forall r: nat :: r < |p.requests| ==> HasResponse(run[n], r)
  {
    RunInv(p, files, run, steps, n);
    if Quiet(run[n]) {
      QuietAnswers(p, files, run[n]);
    }
  }

  // ---------------------------------------------------------------- work left

  function PhaseWork(f: Phase): nat
  {
    match f
    case Todo => 4
    case Decided(_) => 3
    case Stored(_) => 2
    case Counted(_, _) => 1
    case Done(_, _) => 0
  }

  function Work(phases: seq<Phase>): nat
  {
    if phases == [] then 0 else Work(phases[..|phases|-1]) + PhaseWork(phases[|phases|-1])
  }

  lemma {:induction false} WorkDrops(phases: seq<Phase>, t: nat, f: Phase)
    requires t < |phases|
    ensures Work(phases[t := f]) == Work(phases) - PhaseWork(phases[t]) + PhaseWork(f)
  {
    var more := phases[t := f];
    if t == |phases| - 1 {
      assert more[..|phases|-1] == phases[..|phases|-1];
    } else {
      WorkDrops(phases[..|phases|-1], t, f);
      assert more[..|phases|-1] == phases[..|phases|-1][t := f];
    }
  }

  // What a submission's dispatch still has to do.
  function DispatchWork(d: Dispatch, parts: nat): nat
  {
    match d
    case Planned => 2 + parts
    case Going(next) => 1 + (if next < parts then parts - next else 0)
    case Thrown(next) => 0
  }

  function AllDispatch(ds: seq<Dispatch>, parts: seq<nat>): nat
    requires |ds| == |parts|
  {
    if ds == [] then 0 else AllDispatch(ds[..|ds|-1], parts[..|ds|-1]) + DispatchWork(ds[|ds|-1], parts[|ds|-1])
  }

  lemma {:induction false} DispatchDrops(ds: seq<Dispatch>, parts: seq<nat>, i: nat, d: Dispatch)
    requires |ds| == |parts| && i < |ds|
    ensures AllDispatch(ds[i := d], parts) ==
        AllDispatch(ds, parts) - DispatchWork(ds[i], parts[i]) + DispatchWork(d, parts[i])
  {
    var more := ds[i := d];
    if i == |ds| - 1 {
      assert more[..|ds|-1] == ds[..|ds|-1];
    } else {
      DispatchDrops(ds[..|ds|-1], parts[..|ds|-1], i, d);
      assert more[..|ds|-1] == ds[..|ds|-1][i := d];
    }
  }
}

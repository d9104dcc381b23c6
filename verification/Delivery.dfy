// The answers of the workers meet the responder: what the concurrent tasks push is what the queue was told to
// expect, so everything proved of the responder holds of the streamer's own pushes.
module Delivery {
  import opened Codes
  import opened Batches
  import opened Answers
  import R = Responder
  import Q = SharedQueues

  // The answers and the responder side by side; ids[i] is the id submission i was registered under.
  datatype Both = Both(a: State, r: R.State)

  datatype BothStep =
    | Register(submission: nat)
    | Commit(submission: nat)
    | Work(step: Step)
    | Queue(piece: R.Step)

  ghost predicate Asked(p: Plan, i: nat, r: nat)
    requires |p.source| == |p.requests|
  {
    r < |p.requests| && p.source[r] == i
  }

  // The responses submission i asks for.
  ghost function AskedBy(p: Plan, i: nat): set<nat>
    requires |p.source| == |p.requests|
  {
    set r: nat | r < |p.requests| && Asked(p, i, r)
  }

  // Those of them that have not been pushed.
  ghost function Unanswered(p: Plan, s: State, i: nat): set<nat>
    requires |p.source| == |p.requests|
  {
    set r | r in AskedBy(p, i) && !HasResponse(s, r)
  }

  // A submission that asks for nothing is never registered; ids are not used twice.
  ghost predicate IdsOk(p: Plan, ids: seq<nat>)
  {
    && Shaped(p) && |ids| == |p.parts|
    && (forall i, j :: 0 <= i < j < |ids| ==> ids[i] != ids[j])
    && forall i: nat :: i < |p.parts| ==> AskedBy(p, i) != {}
  }

  // The last task of a request pushes its response.
  ghost predicate Pushes(s: State, x: Step) { x.Push? && x.t < |s.phase| && s.phase[x.t].Counted? && s.phase[x.t].last }

  ghost function Pushed(p: Plan, ids: seq<nat>, s: State, t: nat): Q.Response
    requires IdsOk(p, ids) && SameShape(p, s) && t < |p.tasks|
  {
    assert TaskHome(p, t);
    Q.Response(ids[p.home[t].submission], s.ret[p.owner[t]])
  }

  // The responder's side of a push: nothing here asks whether the response was expected.
  ghost function AfterPush(r: R.State, x: Q.Response): R.State
  {
    r.(q := Q.Accept(r.q, x).0, owed := r.owed - multiset{x.id},
       posting := r.posting + if Q.Accept(r.q, x).1 then 1 else 0,
       accepted := if Q.Accept(r.q, x).1 then r.accepted + [x] else r.accepted,
       ignored := if Q.Accept(r.q, x).1 then r.ignored else r.ignored + [x])
  }

  ghost predicate BothInit(p: Plan, b: Both)
  {
    Init(p, b.a) && R.Init(b.r, Q.Persistent, 0, 0)
  }

  // A submission is registered with as many responses as it asks for, then added to the expected count; after
  // that its tasks go their way. The consumer, the posts and stop come at any time.
  ghost predicate BothNext(p: Plan, ids: seq<nat>, files: Files, b: Both, b': Both, step: BothStep)
    requires IdsOk(p, ids)
  {
    && SameShape(p, b.a)
    && match step
       case Register(i) =>
         && i < |p.parts| && b.a.dispatch[i].Planned? && b'.a == b.a
         && R.Next(b.r, b'.r, R.Register(ids[i], |AskedBy(p, i)|))
       case Commit(i) =>
         && Answers.Next(p, files, b.a, b'.a, Answers.Commit(i)) && R.Next(b.r, b'.r, R.Increment(ids[i]))
       case Work(x) =>
         && !x.Commit? && Answers.Next(p, files, b.a, b'.a, x)
         && b'.r == if Pushes(b.a, x) then AfterPush(b.r, Pushed(p, ids, b.a, x.t)) else b.r
       case Queue(x) =>
         && !x.Register? && !x.Increment? && !x.Push? && b'.a == b.a && R.Next(b.r, b'.r, x)
  }

  // ---------------------------------------------------------------- the link

  // The workers owe submission i exactly its unanswered responses, from the moment it is counted.
  ghost predicate LinkOk(p: Plan, ids: seq<nat>, b: Both, i: nat)
    requires IdsOk(p, ids) && SameShape(p, b.a) && i < |p.parts|
  {
    && (b.a.dispatch[i].Planned? ==> b.r.owed[ids[i]] == 0)
    && (!b.a.dispatch[i].Planned? ==> b.r.owed[ids[i]] == |Unanswered(p, b.a, i)| && ids[i] !in b.r.waiting)
    && (ids[i] in b.r.waiting ==> b.r.waiting[ids[i]] == |AskedBy(p, i)|)
    && (b.a.dispatch[i].Planned? ==> Unanswered(p, b.a, i) == AskedBy(p, i))
  }

  // A task that has been decided belongs to a submission that was counted.
  ghost predicate OnlySent(p: Plan, a: State)
    requires Shaped(p) && SameShape(p, a)
  {
    forall t: nat :: t < |p.tasks| && !a.phase[t].Todo? ==> TaskHome(p, t) && !a.dispatch[p.home[t].submission].Planned?
  }

  ghost predicate BothInv(p: Plan, ids: seq<nat>, files: Files, b: Both)
    requires IdsOk(p, ids)
  {
    && Answers.Inv(p, files, b.a) && OnlySent(p, b.a)
    && forall i: nat :: i < |p.parts| ==> LinkOk(p, ids, b, i)
  }

  lemma StartLinked(p: Plan, ids: seq<nat>, files: Files, b: Both)
    requires PlanGood(p) && IdsOk(p, ids) && BothInit(p, b)
    ensures BothInv(p, ids, files, b)
  {
    InitInv(p, files, b.a);
    hide PlanGood, Answers.Inv;
    forall i: nat | i < |p.parts| ensures LinkOk(p, ids, b, i) {
      assert Unanswered(p, b.a, i) == AskedBy(p, i);
    }
  }

  lemma SentKept(p: Plan, files: Files, a: State, a': State, x: Step)
    requires Shaped(p) && SameShape(p, a) && OnlySent(p, a) && Answers.Next(p, files, a, a', x)
    ensures SameShape(p, a') && OnlySent(p, a')
  {
    forall t: nat | t < |p.tasks| && !a'.phase[t].Todo?
      ensures TaskHome(p, t) && !a'.dispatch[p.home[t].submission].Planned?
    {
      assert TaskHome(p, t);
    }
  }

  // Steps that push nothing leave what is unanswered alone.
  lemma SameUnanswered(p: Plan, a: State, a': State, i: nat)
    requires |p.source| == |p.requests| && a'.pushed == a.pushed
    ensures Unanswered(p, a', i) == Unanswered(p, a, i)
  {
  }

  lemma AnswersGrow(a: State, a': State, x: Response, r: nat)
    requires a'.pushed == a.pushed + [x]
    ensures HasResponse(a', r) <==> HasResponse(a, r) || x.request == r
  {
    if HasResponse(a, r) {
      var i :| 0 <= i < |a.pushed| && a.pushed[i].request == r;
      assert a'.pushed[i].request == r;
    }
    if x.request == r {
      assert a'.pushed[|a.pushed|].request == r;
    }
  }

  // The response about to be pushed is one the queue expects, and then one less is unanswered.
  lemma PushIsOwed(p: Plan, ids: seq<nat>, files: Files, b: Both, a': State, t: nat)
    requires PlanGood(p) && IdsOk(p, ids) && BothInv(p, ids, files, b)
    requires Answers.Next(p, files, b.a, a', Answers.Push(t)) && Pushes(b.a, Answers.Push(t))
    ensures var i := p.home[t].submission;
            && i < |p.parts| && !b.a.dispatch[i].Planned? && ids[i] in b.r.owed
            && |Unanswered(p, a', i)| == |Unanswered(p, b.a, i)| - 1
            && forall j: nat :: j < |p.parts| && j != i ==> Unanswered(p, a', j) == Unanswered(p, b.a, j)
  {
    var a, i, r := b.a, p.home[t].submission, p.owner[t];
    assert TaskHome(p, t) && CounterOk(p, a, r);
    NotYetAnswered(p, a, t);
    forall k ensures HasResponse(a', k) <==> HasResponse(a, k) || k == r {
      AnswersGrow(a, a', Response(r, a.ret[r]), k);
    }
    hide PlanGood, Answers.Inv, Answers.Next, HasResponse;
    assert !HasResponse(a, r) by { NotThere(a, r); }
    assert r in Unanswered(p, a, i);
    assert Unanswered(p, a', i) == Unanswered(p, a, i) - {r};
    assert LinkOk(p, ids, b, i);
  }

  lemma NotThere(a: State, r: nat)
    requires forall k :: 0 <= k < |a.pushed| ==> a.pushed[k].request != r
    ensures !HasResponse(a, r)
  {
  }

  // ---------------------------------------------------------------- every step is one of the responder's

  lemma RegisterLinks(p: Plan, ids: seq<nat>, files: Files, b: Both, b': Both, i: nat)
    requires IdsOk(p, ids) && BothInv(p, ids, files, b) && BothNext(p, ids, files, b, b', Register(i))
    ensures BothInv(p, ids, files, b')
  {
    hide Answers.Inv;
    forall j: nat | j < |p.parts| ensures LinkOk(p, ids, b', j) {
      assert LinkOk(p, ids, b, j);
      assert i != j ==> ids[i] != ids[j];
    }
  }

  lemma CommitLinks(p: Plan, ids: seq<nat>, files: Files, b: Both, b': Both, i: nat)
    requires PlanGood(p) && IdsOk(p, ids) && BothInv(p, ids, files, b)
        && BothNext(p, ids, files, b, b', BothStep.Commit(i))
    ensures BothInv(p, ids, files, b') && i < |ids|
  {
    StepKeeps(p, files, b.a, b'.a, Answers.Commit(i));
    SentKept(p, files, b.a, b'.a, Answers.Commit(i));
    hide Answers.Inv, PlanGood;
    forall j: nat | j < |p.parts| ensures LinkOk(p, ids, b', j) {
      assert LinkOk(p, ids, b, j) && LinkOk(p, ids, b, i);
      assert i != j ==> ids[i] != ids[j];
      SameUnanswered(p, b.a, b'.a, j);
    }
  }

  lemma WorkLinks(p: Plan, ids: seq<nat>, files: Files, b: Both, b': Both, x: Step)
    requires PlanGood(p) && IdsOk(p, ids) && BothInv(p, ids, files, b) && BothNext(p, ids, files, b, b', Work(x))
    ensures BothInv(p, ids, files, b')
    ensures Pushes(b.a, x) ==> x.t < |p.tasks| && R.Next(b.r, b'.r, R.Push(Pushed(p, ids, b.a, x.t)))
    ensures !Pushes(b.a, x) ==> b'.r == b.r
  {
    StepKeeps(p, files, b.a, b'.a, x);
    SentKept(p, files, b.a, b'.a, x);
    if Pushes(b.a, x) {
      PushIsOwed(p, ids, files, b, b'.a, x.t);
      PushLinks(p, ids, b, b', x.t, files);
    } else {
      QuietLinks(p, ids, b, b', x, files);
    }
  }

  lemma PushLinks(p: Plan, ids: seq<nat>, b: Both, b': Both, t: nat, files: Files)
    requires IdsOk(p, ids) && SameShape(p, b.a) && SameShape(p, b'.a) && t < |p.tasks| && b'.a.dispatch == b.a.dispatch
    requires forall i: nat :: i < |p.parts| ==> LinkOk(p, ids, b, i)
    requires b'.r == AfterPush(b.r, Pushed(p, ids, b.a, t))
    requires var i := p.home[t].submission;
             && i < |p.parts| && !b.a.dispatch[i].Planned? && ids[i] in b.r.owed
             && |Unanswered(p, b'.a, i)| == |Unanswered(p, b.a, i)| - 1
             && forall j: nat :: j < |p.parts| && j != i ==> Unanswered(p, b'.a, j) == Unanswered(p, b.a, j)
    ensures forall i: nat :: i < |p.parts| ==> LinkOk(p, ids, b', i)
  {
    var i := p.home[t].submission;
    forall j: nat | j < |p.parts| ensures LinkOk(p, ids, b', j) {
      assert LinkOk(p, ids, b, j);
      assert i != j ==> ids[i] != ids[j];
    }
  }

  lemma QuietLinks(p: Plan, ids: seq<nat>, b: Both, b': Both, x: Step, files: Files)
    requires IdsOk(p, ids) && SameShape(p, b.a) && SameShape(p, b'.a) && b'.r == b.r
    requires forall i: nat :: i < |p.parts| ==> LinkOk(p, ids, b, i)
    requires Answers.Next(p, files, b.a, b'.a, x) && !x.Commit? && !Pushes(b.a, x)
    ensures forall i: nat :: i < |p.parts| ==> LinkOk(p, ids, b', i)
  {
    assert b'.a.pushed == b.a.pushed;
    forall j: nat | j < |p.parts| ensures LinkOk(p, ids, b', j) {
      assert LinkOk(p, ids, b, j);
      SameUnanswered(p, b.a, b'.a, j);
    }
  }

  lemma QueueLinks(p: Plan, ids: seq<nat>, files: Files, b: Both, b': Both, x: R.Step)
    requires IdsOk(p, ids) && BothInv(p, ids, files, b) && BothNext(p, ids, files, b, b', Queue(x))
    ensures BothInv(p, ids, files, b')
  {
    hide Answers.Inv;
    assert b'.r.owed == b.r.owed && b'.r.waiting == b.r.waiting;
    forall j: nat | j < |p.parts| ensures LinkOk(p, ids, b', j) {
      assert LinkOk(p, ids, b, j);
    }
  }

  // Whatever the two do together is a step of the responder, or leaves it alone: no push comes that the queue
  // was not told to expect.
  lemma StepFollows(p: Plan, ids: seq<nat>, files: Files, b: Both, b': Both, step: BothStep) returns (x: R.Step)
    requires PlanGood(p) && IdsOk(p, ids) && BothInv(p, ids, files, b) && BothNext(p, ids, files, b, b', step)
    ensures BothInv(p, ids, files, b')
    ensures b'.r == b.r || R.Next(b.r, b'.r, x)
  {
    hide PlanGood, BothInv, Answers.Next, R.Next;
    x := R.Post;
    match step
    case Register(i) =>
      x := R.Register(ids[i], |AskedBy(p, i)|);
      RegisterLinks(p, ids, files, b, b', i);
    case Commit(i) =>
      CommitLinks(p, ids, files, b, b', i);
      x := R.Increment(ids[i]);
    case Work(y) =>
      WorkLinks(p, ids, files, b, b', y);
      if Pushes(b.a, y) {
        x := R.Push(Pushed(p, ids, b.a, y.t));
      }
    case Queue(y) =>
      x := y;
      QueueLinks(p, ids, files, b, b', y);
  }

  ghost predicate BothRun(p: Plan, ids: seq<nat>, files: Files, run: seq<Both>, steps: seq<BothStep>)
    requires IdsOk(p, ids)
  {
    && |run| == |steps| + 1 && BothInit(p, run[0])
    && forall i :: 0 <= i < |steps| ==> BothNext(p, ids, files, run[i], run[i + 1], steps[i])
  }

  // Every run of the answers with the responder is a run of the responder, for which its own theorems hold;
  // and when all tasks are done the workers owe the queue nothing.
  lemma {:induction false} RunFollows(p: Plan, ids: seq<nat>, files: Files, run: seq<Both>, steps: seq<BothStep>,
                                      n: nat)
    returns (states: seq<R.State>, moves: seq<R.Step>)
    requires PlanGood(p) && IdsOk(p, ids) && BothRun(p, ids, files, run, steps) && n < |run|
    ensures BothInv(p, ids, files, run[n])
    ensures R.Run(states, moves) && |states| == |moves| + 1 && states[|moves|] == run[n].r
  {
    hide PlanGood, IdsOk, BothInv, BothNext, BothInit, R.Run;
    if n == 0 {
      StartLinked(p, ids, files, run[0]);
      states, moves := [run[0].r], [];
      StartRun(p, run[0]);
    } else {
      states, moves := RunFollows(p, ids, files, run, steps, n - 1);
      var x := StepFollows(p, ids, files, run[n - 1], run[n], steps[n - 1]);
      if run[n].r != run[n - 1].r {
        RunOn(states, moves, run[n].r, x);
        states, moves := states + [run[n].r], moves + [x];
      }
    }
  }

  lemma StartRun(p: Plan, b: Both)
    requires BothInit(p, b)
    ensures R.Run([b.r], [])
  {
    assert R.Init(b.r, b.r.q.mode, 0, 0);
  }

  lemma RunOn(states: seq<R.State>, moves: seq<R.Step>, s: R.State, x: R.Step)
    requires R.Run(states, moves) && |states| == |moves| + 1 && R.Next(states[|moves|], s, x)
    ensures R.Run(states + [s], moves + [x])
  {
    hide R.Next, R.Starts;
    var states', moves' := states + [s], moves + [x];
    forall i | 0 <= i < |moves'| ensures R.Next(states'[i], states'[i + 1], moves'[i]) {
      if i < |moves| {
        assert states'[i] == states[i] && states'[i + 1] == states[i + 1];
      }
    }
  }

  // A submission all of whose tasks are done is owed nothing more.
  lemma NothingOwed(p: Plan, ids: seq<nat>, files: Files, run: seq<Both>, steps: seq<BothStep>, n: nat, i: nat)
    requires PlanGood(p) && IdsOk(p, ids) && BothRun(p, ids, files, run, steps) && n < |run| && i < |p.parts|
    requires Quiet(run[n].a)
    ensures run[n].r.owed[ids[i]] == 0 && ids[i] !in run[n].r.waiting
  {
    var states, moves := RunFollows(p, ids, files, run, steps, n);
    var a := run[n].a;
    assert LinkOk(p, ids, run[n], i);
    var r :| r in AskedBy(p, i);
    QuietAnswers(p, files, a);
    TaskOf(p, files, a, r);
    assert Unanswered(p, a, i) == {};
  }

  // Every request has a task, and it was sent.
  lemma TaskOf(p: Plan, files: Files, a: State, r: nat)
    requires PlanGood(p) && Answers.Inv(p, files, a) && OnlySent(p, a) && Quiet(a) && r < |p.requests|
    ensures p.source[r] < |p.parts| && !a.dispatch[p.source[r]].Planned?
  {
    assert |TasksOf(p, r)| > 0;
    var t: nat :| t in TasksOf(p, r);
    assert TaskHome(p, t);
  }
}

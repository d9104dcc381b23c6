// The whole way: from threads, workers and backend through the responder to the consumer. A response delivered as
// Success is that of a range whose bytes are in place, and a submission is done when its last one is accounted for.
module Streaming {
  import opened Codes
  import opened Options
  import opened Assigner
  import opened Batches
  import opened Answers
  import opened Delivery
  import opened ManyPlans
  import opened System
  import opened SystemSteps
  import opened SystemRuns
  import opened EndToEnd
  import R = Responder
  import Q = SharedQueues

  datatype Whole = Whole(sys: Sys, r: R.State)

  datatype WholeStep =
    | Enroll(submission: nat)
    | Do(step: SysStep)
    | Consumer(piece: R.Step)

  // What a step of the system does to the responder: a commit raises the expected count, the last task of a
  // range pushes its response, nothing else does anything.
  ghost predicate Reaches(c: Config, ids: seq<nat>, s: Whole, s': Whole, x: SysStep)
    requires IdsOk(c.plan, ids) && SameShape(c.plan, s.sys.a)
  {
    if x.Outer? && x.step.Commit? then
      x.step.submission < |ids| && R.Next(s.r, s'.r, R.Increment(ids[x.step.submission]))
    else if x.Outer? && Pushes(s.sys.a, x.step) then
      x.step.t < |c.plan.tasks| && s'.r == AfterPush(s.r, Pushed(c.plan, ids, s.sys.a, x.step.t))
    else s'.r == s.r
  }

  ghost predicate WholeNext(c: Config, ids: seq<nat>, s: Whole, s': Whole, step: WholeStep)
    requires IdsOk(c.plan, ids)
  {
    && SameShape(c.plan, s.sys.a)
    && match step
       case Enroll(i) =>
         && i < |c.plan.parts| && s.sys.a.dispatch[i].Planned? && s'.sys == s.sys
         && R.Next(s.r, s'.r, R.Register(ids[i], |AskedBy(c.plan, i)|))
       case Do(x) => SysNext(c, s.sys, s'.sys, x) && Reaches(c, ids, s, s', x)
       case Consumer(y) => !y.Register? && !y.Increment? && !y.Push? && s'.sys == s.sys && R.Next(s.r, s'.r, y)
  }

  ghost predicate WholeInit(c: Config, s: Whole)
  {
    SysInit(c, s.sys) && R.Init(s.r, Q.Persistent, 0, 0)
  }

  ghost predicate WholeRun(c: Config, ids: seq<nat>, run: seq<Whole>, steps: seq<WholeStep>)
    requires IdsOk(c.plan, ids)
  {
    && |run| == |steps| + 1 && WholeInit(c, run[0])
    && forall i :: 0 <= i < |steps| ==> WholeNext(c, ids, run[i], run[i + 1], steps[i])
  }

  // ---------------------------------------------------------------- the log of pushes

  // The response as the responder carries it.
  ghost function Told(p: Plan, ids: seq<nat>, x: Response): Q.Response
  {
    Q.Response(if x.request < |p.source| && p.source[x.request] < |ids| then ids[p.source[x.request]] else 0, x.code)
  }

  ghost function AllTold(p: Plan, ids: seq<nat>, pushed: seq<Response>): seq<Q.Response>
  {
    seq(|pushed|, k requires 0 <= k < |pushed| => Told(p, ids, pushed[k]))
  }

  // Everything that was pushed was accepted or, after a stop, ignored, in the order pushed.
  ghost predicate LogOk(p: Plan, ids: seq<nat>, b: Both)
  {
    AllTold(p, ids, b.a.pushed) == b.r.accepted + b.r.ignored
  }

  ghost function View(s: Whole): Both { Both(s.sys.a, s.r) }

  ghost predicate WholeInv(c: Config, ids: seq<nat>, s: Whole)
    requires IdsOk(c.plan, ids)
  {
    && SysInv(c, s.sys) && BothInv(c.plan, ids, c.files, View(s)) && R.Inv(s.r) && LogOk(c.plan, ids, View(s))
  }

  lemma LogSame(r: R.State, r': R.State, y: R.Step)
    requires R.Next(r, r', y) && !y.Push?
    ensures r'.accepted == r.accepted && r'.ignored == r.ignored
  {
  }

  // A push is logged at the end of what was accepted or, once stopped, of what was ignored.
  lemma LogPush(p: Plan, ids: seq<nat>, b: Both, b': Both, t: nat)
    requires IdsOk(p, ids) && SameShape(p, b.a) && t < |p.tasks| && LogOk(p, ids, b) && R.Inv(b.r)
    requires b'.r == AfterPush(b.r, Pushed(p, ids, b.a, t)) && Pushed(p, ids, b.a, t).id in b.r.owed
    requires TaskHome(p, t) && b'.a.pushed == b.a.pushed + [Response(p.owner[t], b.a.ret[p.owner[t]])]
    ensures LogOk(p, ids, b')
  {
    var x := Response(p.owner[t], b.a.ret[p.owner[t]]);
    assert Told(p, ids, x) == Pushed(p, ids, b.a, t);
    assert AllTold(p, ids, b'.a.pushed) == AllTold(p, ids, b.a.pushed) + [Told(p, ids, x)];
    R.SomeOwed(b.r.owed);
    QueueTakes(b.r);
  }

  lemma QueueTakes(r: R.State)
    requires R.Inv(r)
    ensures !r.q.stopped ==> r.ignored == [] && r.q.running == |r.owed|
  {
    hide R.RegistryOk;
  }

  // ---------------------------------------------------------------- every step

  // The joint step of answers and responder a step of the whole is, when it is one.
  ghost function JointStep(c: Config, s: Whole, step: WholeStep): Option<BothStep>
  {
    match step
    case Enroll(i) => Some(BothStep.Register(i))
    case Consumer(y) => Some(BothStep.Queue(y))
    case Do(x) =>
      match AnswerStep(c, s.sys, x)
      case None => None
      case Some(y) => if y.Commit? then Some(BothStep.Commit(y.submission)) else Some(Work(y))
  }

  lemma DoJoint(c: Config, ids: seq<nat>, s: Whole, s': Whole, x: SysStep)
    requires ConfigOk(c) && IdsOk(c.plan, ids) && WholeInv(c, ids, s) && WholeNext(c, ids, s, s', Do(x))
    ensures SysInv(c, s'.sys)
    ensures match JointStep(c, s, Do(x))
            case None => View(s') == View(s)
            case Some(y) => BothNext(c.plan, ids, c.files, View(s), View(s'), y)
  {
    hide ConfigOk, SysInv, SysNext, BothInv, IdsOk, LogOk, EventStep;
    StepRefines(c, s.sys, s'.sys, x);
    var y := AnswerStep(c, s.sys, x);
    if !x.Outer? {
      NotOuter(c, s.sys, s'.sys, x);
    }
    hide Answers.Next;
  }

  // Only a step of the answers' own commits or pushes.
  lemma NotOuter(c: Config, s: Sys, s': Sys, x: SysStep)
    requires SysNext(c, s, s', x) && !x.Outer?
    ensures match AnswerStep(c, s, x) case None => true case Some(y) => y.Write? || y.Decide?
  {
    hide SysNext;
  }

  lemma JointLog(c: Config, ids: seq<nat>, b: Both, b': Both, y: BothStep)
    requires PlanGood(c.plan) && IdsOk(c.plan, ids) && BothInv(c.plan, ids, c.files, b) && R.Inv(b.r)
        && LogOk(c.plan, ids, b)
    requires BothNext(c.plan, ids, c.files, b, b', y)
    ensures LogOk(c.plan, ids, b')
  {
    match y
    case Register(i) => LogSame(b.r, b'.r, R.Register(ids[i], |AskedBy(c.plan, i)|));
    case Commit(i) => LogSame(b.r, b'.r, R.Increment(ids[i]));
    case Queue(z) => LogSame(b.r, b'.r, z);
    case Work(x) =>
      if Pushes(b.a, x) {
        PushIsOwed(c.plan, ids, c.files, b, b'.a, x.t);
        assert TaskHome(c.plan, x.t);
        LogPush(c.plan, ids, b, b', x.t);
      } else {
        PushedOnly(c.plan, c.files, b.a, b'.a, x);
      }
  }

  lemma PushedOnly(p: Plan, files: Files, a: State, a': State, x: Step)
    requires Shaped(p) && Answers.Next(p, files, a, a', x) && !Pushes(a, x)
    ensures a'.pushed == a.pushed
  {
  }

  lemma WholeKeeps(c: Config, ids: seq<nat>, s: Whole, s': Whole, step: WholeStep)
    requires ConfigOk(c) && IdsOk(c.plan, ids) && WholeInv(c, ids, s) && WholeNext(c, ids, s, s', step)
    ensures WholeInv(c, ids, s')
  {
    hide ConfigOk, IdsOk, SysInv, BothInv, R.Inv, LogOk, SysNext, Reaches, BothNext, R.Next, PlanGood, PlacesFit,
      Shaped;
    GoodPlan(c);
    if step.Do? {
      DoJoint(c, ids, s, s', step.step);
    } else {
      OtherJoint(c, ids, s, s', step);
    }
    var y := JointStep(c, s, step);
    if y.Some? {
      var z := StepFollows(c.plan, ids, c.files, View(s), View(s'), y.value);
      JointLog(c, ids, View(s), View(s'), y.value);
      if s'.r != s.r {
        R.StepKeeps(s.r, s'.r, z);
      }
    }
  }

  lemma OtherJoint(c: Config, ids: seq<nat>, s: Whole, s': Whole, step: WholeStep)
    requires IdsOk(c.plan, ids) && WholeNext(c, ids, s, s', step) && !step.Do?
    ensures s'.sys == s.sys && JointStep(c, s, step).Some?
    ensures BothNext(c.plan, ids, c.files, View(s), View(s'), JointStep(c, s, step).value)
  {
    hide R.Next, IdsOk;
  }

  lemma {:induction false} WholeOk(c: Config, ids: seq<nat>, run: seq<Whole>, steps: seq<WholeStep>, n: nat)
    requires ConfigOk(c) && IdsOk(c.plan, ids) && WholeRun(c, ids, run, steps) && n < |run|
    ensures WholeInv(c, ids, run[n])
  {
    hide ConfigOk, IdsOk, WholeInv, WholeNext, WholeInit;
    if n == 0 {
      WholeStarts(c, ids, run[0]);
    } else {
      WholeOk(c, ids, run, steps, n - 1);
      WholeKeeps(c, ids, run[n - 1], run[n], steps[n - 1]);
    }
  }

  lemma WholeStarts(c: Config, ids: seq<nat>, s: Whole)
    requires ConfigOk(c) && IdsOk(c.plan, ids) && WholeInit(c, s)
    ensures WholeInv(c, ids, s)
  {
    GoodPlan(c);
    InitOk(c, s.sys);
    hide ConfigOk, SysInv, PlanGood, PlacesFit, BothInv, IdsOk, R.Inv;
    StartLinked(c.plan, ids, c.files, View(s));
    R.InitInv(s.r, Q.Persistent, 0, 0);
    assert AllTold(c.plan, ids, s.sys.a.pushed) == [];
  }

  // ---------------------------------------------------------------- what the consumer is told

  // The response at position k of the pushes is a true one.
  ghost predicate TrueAt(c: Config, s: Whole, k: nat)
  {
    && Shaped(c.plan) && SameShape(c.plan, s.sys.a) && k < |s.sys.a.pushed|
    && ResponseTrue(c.plan, c.files, s.sys.a, s.sys.a.pushed[k])
  }

  // The k-th response delivered is the k-th pushed, and true: Success only with every byte of its range in place.
  lemma DeliveredTrue(c: Config, ids: seq<nat>, s: Whole, k: nat)
    requires ConfigOk(c) && IdsOk(c.plan, ids) && WholeInv(c, ids, s) && k < |s.r.delivered|
    ensures TrueAt(c, s, k) && s.r.delivered[k] == Told(c.plan, ids, s.sys.a.pushed[k])
  {
    GoodPlan(c);
    DeliveredFirst(s.r);
    hide ConfigOk, IdsOk, R.Inv, PlanGood, PlacesFit, ReadersOk, WorkersOk, LoadsOk, BothInv, ResponseTrue, Told;
    var told := AllTold(c.plan, ids, s.sys.a.pushed);
    assert told == s.r.accepted + s.r.ignored;
    assert told[k] == s.r.accepted[k] == s.r.delivered[k];
    ResponseTruthful(c.plan, c.files, s.sys.a, k);
  }

  lemma DeliveredFirst(r: R.State)
    requires R.Inv(r)
    ensures r.delivered <= r.accepted && r.accepted == r.delivered + r.q.responses
  {
    hide R.RegistryOk;
  }

  // ---------------------------------------------------------------- when a submission is done

  // The range's response has been delivered.
  ghost predicate DeliveredFor(s: Whole, request: nat)
  {
    exists k :: 0 <= k < |s.r.delivered| && k < |s.sys.a.pushed| && s.sys.a.pushed[k].request == request
  }

  // Position m of the pushes has been delivered, if nothing of its submission is queued or was ignored.
  lemma ServedDelivered(c: Config, ids: seq<nat>, s: Whole, m: nat, id: nat)
    requires LogOk(c.plan, ids, View(s)) && R.Inv(s.r) && m < |s.sys.a.pushed|
    requires Told(c.plan, ids, s.sys.a.pushed[m]).id == id && R.AllServed(s.r, id)
    ensures m < |s.r.delivered|
  {
    DeliveredFirst(s.r);
    ServedNames(s.r, id);
    hide R.Inv, Told, R.AllServed;
    var told := AllTold(c.plan, ids, s.sys.a.pushed);
    assert told[m].id == id;
    InFront(told, s.r.delivered, s.r.q.responses, s.r.ignored, m, id);
  }

  lemma ServedNames(r: R.State, id: nat)
    requires R.AllServed(r, id)
    ensures forall x :: x in r.q.responses || x in r.ignored ==> x.id != id
  {
    forall x | x in r.q.responses ensures x.id != id {
      var k :| 0 <= k < |r.q.responses| && r.q.responses[k] == x;
      assert R.Ids(r.q.responses)[k] == x.id;
    }
  }

  lemma {:induction false} InFront(all: seq<Q.Response>, front: seq<Q.Response>, queued: seq<Q.Response>,
                                   lost: seq<Q.Response>, m: nat, id: nat)
    requires all == front + queued + lost && m < |all| && all[m].id == id
    requires forall x :: x in queued || x in lost ==> x.id != id
    ensures m < |front|
  {
    var rest := queued + lost;
    assert all == front + rest;
    FrontOrRest(front, rest, m);
  }

  lemma {:induction false} FrontOrRest<T>(front: seq<T>, rest: seq<T>, m: nat)
    requires m < |front + rest|
    ensures m < |front| || (front + rest)[m] in rest
  {
  }

  // An answered request's submission has been committed.
  lemma AnsweredCommitted(c: Config, ids: seq<nat>, b: Both, k: nat)
    requires IdsOk(c.plan, ids) && BothInv(c.plan, ids, c.files, b) && k < |b.a.pushed|
    ensures var q := b.a.pushed[k].request;
            q < |c.plan.requests| && c.plan.source[q] < |ids| && !b.a.dispatch[c.plan.source[q]].Planned?
  {
    var p := c.plan;
    assert ResponseOk(p, b.a, b.a.pushed[k]);
    var t: nat :| t in TasksOf(p, b.a.pushed[k].request) && Answered(b.a.phase[t]);
    assert TaskHome(p, t);
  }

  // Nothing owed to a committed submission: all its requests have been answered.
  lemma NothingOwedAnswered(p: Plan, ids: seq<nat>, b: Both, i: nat, q: nat, files: Files)
    requires IdsOk(p, ids) && BothInv(p, ids, files, b) && i < |p.parts| && !b.a.dispatch[i].Planned?
    requires b.r.owed[ids[i]] == 0 && q < |p.requests| && p.source[q] == i
    ensures HasResponse(b.a, q)
  {
    assert LinkOk(p, ids, b, i);
    assert Unanswered(p, b.a, i) == {};
    assert Asked(p, i, q) && q in AskedBy(p, i) && q !in Unanswered(p, b.a, i);
  }

  // Every range of submission i has been delivered, and none with an end code.
  ghost predicate AllDeliveredFor(c: Config, ids: seq<nat>, s: Whole, i: nat)
    requires Shaped(c.plan) && i < |ids|
  {
    && (forall q: nat :: q < |c.plan.requests| && c.plan.source[q] == i ==> DeliveredFor(s, q))
    && (forall k :: 0 <= k < |s.r.delivered| && s.r.delivered[k].id == ids[i] ==>
        s.r.delivered[k].ret !in {FinishedError, TimedOut})
  }

  // Whose response the consumer holds: a committed submission of the plan.
  lemma HeldSubmission(c: Config, ids: seq<nat>, s: Whole) returns (i: nat)
    requires ConfigOk(c) && IdsOk(c.plan, ids) && WholeInv(c, ids, s) && s.r.consumer.Holding?
    ensures i < |ids| && s.r.consumer.r.id == ids[i] && SameShape(c.plan, s.sys.a) && i < |c.plan.parts|
    ensures !s.sys.a.dispatch[i].Planned?
  {
    hide ConfigOk, SysInv, R.Inv, BothInv, LogOk, ResponseTrue;
    HeldLast(s.r);
    var last := |s.r.delivered| - 1;
    DeliveredTrue(c, ids, s, last);
    AnsweredCommitted(c, ids, View(s), last);
    i := c.plan.source[s.sys.a.pushed[last].request];
  }

  // submission_done fires with the response just accounted for if and only if every range of the submission has
  // now been delivered, none of them with an end code. What was delivered is true, by DeliveredTrue.
  lemma DoneIff(c: Config, ids: seq<nat>, s: Whole, s': Whole) returns (i: nat)
    requires ConfigOk(c) && IdsOk(c.plan, ids) && WholeInv(c, ids, s) && WholeInv(c, ids, s')
    requires WholeNext(c, ids, s, s', Consumer(R.Consume))
    ensures Shaped(c.plan) && i < |ids| && s.r.consumer.Holding? && s.r.consumer.r.id == ids[i]
    ensures s'.r.completed != s.r.completed <==> AllDeliveredFor(c, ids, s', i)
    ensures s'.r.completed != s.r.completed ==> s'.r.completed == s.r.completed + [ids[i]] && ids[i] !in s'.r.live
  {
    hide ConfigOk, SysInv, R.Inv, R.Next, BothInv, LogOk, PlanGood, PlacesFit, R.AllServed, AllDeliveredFor, IdsOk,
      Shaped;
    hide WholeNext;
    GoodPlan(c);
    ConsumeStep(c, ids, s, s');
    R.ConsumeDone(s.r, s'.r);
    i := HeldSubmission(c, ids, s);
    if R.AllServed(s'.r, ids[i]) {
      ServedAll(c, ids, s', i);
    }
    if AllDeliveredFor(c, ids, s', i) {
      AllServes(c, ids, s', i);
    }
  }

  lemma ConsumeStep(c: Config, ids: seq<nat>, s: Whole, s': Whole)
    requires IdsOk(c.plan, ids) && WholeNext(c, ids, s, s', Consumer(R.Consume))
    ensures R.Next(s.r, s'.r, R.Consume) && s'.sys == s.sys && s'.r.consumer.Outside?
  {
  }

  lemma ServedAll(c: Config, ids: seq<nat>, s: Whole, i: nat)
    requires Shaped(c.plan) && IdsOk(c.plan, ids) && WholeInv(c, ids, s) && i < |ids| && R.AllServed(s.r, ids[i])
    requires SameShape(c.plan, s.sys.a) && !s.sys.a.dispatch[i].Planned?
    ensures AllDeliveredFor(c, ids, s, i)
  {
    hide SysInv, R.Inv, BothInv, LogOk, R.AllServed, IdsOk, DeliveredFor;
    forall q: nat | q < |c.plan.requests| && c.plan.source[q] == i ensures DeliveredFor(s, q) {
      RequestDelivered(c, ids, s, i, q);
    }
    NoneSkipped(s.r, ids[i]);
  }

  // No range is pushed twice, so what was pushed for the submission is what was delivered.
  lemma PushedOnce(c: Config, ids: seq<nat>, s: Whole, i: nat, m: nat)
    requires IdsOk(c.plan, ids) && WholeInv(c, ids, s) && i < |ids| && m < |s.sys.a.pushed|
    requires forall q: nat :: q < |c.plan.requests| && c.plan.source[q] == i ==> DeliveredFor(s, q)
    ensures Told(c.plan, ids, s.sys.a.pushed[m]).id == ids[i] ==> m < |s.r.delivered|
  {
    AnsweredCommitted(c, ids, View(s), m);
    DistinctPushes(c, View(s).a);
    hide SysInv, R.Inv, BothInv, LogOk, SameShape, Shaped;
    var q := s.sys.a.pushed[m].request;
    if c.plan.source[q] == i {
      var k :| 0 <= k < |s.r.delivered| && k < |s.sys.a.pushed| && s.sys.a.pushed[k].request == q;
    }
  }

  ghost predicate NoneTwice(pushed: seq<Response>)
  {
    forall k, m :: 0 <= k < m < |pushed| ==> pushed[k].request != pushed[m].request
  }

  lemma DistinctPushes(c: Config, a: State)
    requires Shaped(c.plan) && Answers.Inv(c.plan, c.files, a)
    ensures NoneTwice(a.pushed)
  {
  }

  lemma AllServes(c: Config, ids: seq<nat>, s: Whole, i: nat)
    requires Shaped(c.plan) && IdsOk(c.plan, ids) && WholeInv(c, ids, s) && i < |ids| && s.r.consumer.Outside?
    requires SameShape(c.plan, s.sys.a) && i < |c.plan.parts| && !s.sys.a.dispatch[i].Planned?
    requires AllDeliveredFor(c, ids, s, i)
    ensures R.AllServed(s.r, ids[i])
  {
    DeliveredFirst(s.r);
    OwedNothing(c, ids, s, i);
    hide SysInv, R.Inv, BothInv, Told;
    var told, r := AllTold(c.plan, ids, s.sys.a.pushed), s.r;
    assert told == r.delivered + r.q.responses + r.ignored;
    forall k | 0 <= k < |r.q.responses| ensures r.q.responses[k].id != ids[i] {
      assert told[|r.delivered| + k] == r.q.responses[k];
      PushedOnce(c, ids, s, i, |r.delivered| + k);
    }
    forall k | 0 <= k < |r.ignored| ensures r.ignored[k].id != ids[i] {
      assert told[|r.delivered| + |r.q.responses| + k] == r.ignored[k];
      PushedOnce(c, ids, s, i, |r.delivered| + |r.q.responses| + k);
    }
  }

  lemma OwedNothing(c: Config, ids: seq<nat>, s: Whole, i: nat)
    requires Shaped(c.plan) && IdsOk(c.plan, ids) && BothInv(c.plan, ids, c.files, View(s)) && i < |ids|
    requires SameShape(c.plan, s.sys.a) && i < |c.plan.parts| && !s.sys.a.dispatch[i].Planned?
    requires AllDeliveredFor(c, ids, s, i)
    ensures s.r.owed[ids[i]] == 0 && ids[i] !in s.r.waiting
  {
    assert LinkOk(c.plan, ids, View(s), i);
    forall q | q in AskedBy(c.plan, i) ensures HasResponse(s.sys.a, q) {
      assert DeliveredFor(s, q);
      var k :| 0 <= k < |s.r.delivered| && k < |s.sys.a.pushed| && s.sys.a.pushed[k].request == q;
    }
    assert Unanswered(c.plan, s.sys.a, i) == {};
  }

  lemma NoneSkipped(r: R.State, id: nat)
    requires R.AllServed(r, id)
    ensures forall k :: 0 <= k < |r.delivered| && r.delivered[k].id == id ==>
              r.delivered[k].ret !in {FinishedError, TimedOut}
  {
  }

  lemma HeldLast(r: R.State)
    requires R.Inv(r) && r.consumer.Holding?
    ensures r.delivered != [] && r.delivered[|r.delivered| - 1] == r.consumer.r
  {
    hide R.RegistryOk;
  }

  lemma RequestDelivered(c: Config, ids: seq<nat>, s: Whole, i: nat, q: nat)
    requires IdsOk(c.plan, ids) && WholeInv(c, ids, s) && i < |ids| && q < |c.plan.requests| && c.plan.source[q] == i
    requires R.AllServed(s.r, ids[i]) && SameShape(c.plan, s.sys.a) && !s.sys.a.dispatch[i].Planned?
    ensures DeliveredFor(s, q)
  {
    hide SysInv, R.Inv, BothInv;
    NothingOwedAnswered(c.plan, ids, View(s), i, q, c.files);
    var m :| 0 <= m < |s.sys.a.pushed| && s.sys.a.pushed[m].request == q;
    ServedDelivered(c, ids, s, m, ids[i]);
  }

  // ---------------------------------------------------------------- for prepared submissions

  // Different ids, one for each submission; a submission without ranges is not registered.
  ghost predicate Named(jobs: seq<Job>, ids: seq<nat>)
  {
    && |ids| == |jobs| && (forall i, j :: 0 <= i < j < |ids| ==> ids[i] != ids[j])
    && forall i :: 0 <= i < |jobs| ==> |jobs[i].sub.requests| > 0
  }

  lemma NamesFit(jobs: seq<Job>, contents: Files, workers: nat, window: nat, cb: nat, ids: seq<nat>)
    requires JobsOk(jobs, contents) && workers > 0 && window > 0 && cb > 0 && Named(jobs, ids)
    ensures IdsOk(AtWork(jobs, contents, workers, window, cb).plan, ids)
  {
    hide JobsOk, AtWork, ConfigOk, PlanGood, PlacesFit, PlanAll, AllPrepared, Shaped, AskedBy, RequestsOf;
    var c := AtWork(jobs, contents, workers, window, cb);
    AtWorkPlan(jobs, contents, workers, window, cb);
    AtWorkOk(jobs, contents, workers, window, cb);
    GoodPlan(c);
    RequestCount(SubsOf(jobs));
    SourceCount(SubsOf(jobs));
    forall i: nat | i < |c.plan.parts| ensures AskedBy(c.plan, i) != {} {
      AsksSomething(SubsOf(jobs), i);
    }
  }

  lemma {:induction false} AsksSomething(subs: seq<Sub>, i: nat)
    requires AllPrepared(subs) && i < |subs| && |subs[i].requests| > 0
    ensures |PlanAll(subs).source| == |PlanAll(subs).requests| && AskedBy(PlanAll(subs), i) != {}
  {
    hide AllPrepared, PlanAll, RequestsOf;
    RequestCount(subs);
    SourceAt(subs, i, 0);
    assert Asked(PlanAll(subs), i, RequestsOf(subs[..i]));
    assert RequestsOf(subs[..i]) in AskedBy(PlanAll(subs), i);
  }

  // Whatever is delivered to the consumer, at any moment of any run: it carries the id of a submission and is the
  // response of one of its listed ranges; if it says Success, the range's own file has its bytes at the range's
  // own destination, then and at any later moment.
  lemma DeliveredMeansPlaced(jobs: seq<Job>, contents: Files, workers: nat, window: nat, cb: nat, ids: seq<nat>,
                             run: seq<Whole>, steps: seq<WholeStep>, n: nat, k: nat) returns (i: nat, r: nat)
    requires JobsOk(jobs, contents) && workers > 0 && window > 0 && cb > 0
    requires IdsOk(AtWork(jobs, contents, workers, window, cb).plan, ids) && |ids| == |jobs|
    requires WholeRun(AtWork(jobs, contents, workers, window, cb), ids, run, steps)
    requires n < |run| && k < |run[n].r.delivered|
    ensures i < |jobs| && r < |ListAll(jobs[i].sub.files)| && run[n].r.delivered[k].id == ids[i]
    ensures run[n].r.delivered[k].ret == Success ==>
              var l := ListAll(jobs[i].sub.files)[r]; var file := FilesOf(SubsOf(jobs)[..i]) + l.file;
              forall a: nat :: l.range.dst <= a < l.range.dst + l.range.size ==>
                run[n].sys.a.memory(a) == contents(file, l.range.offset + (a - l.range.dst))
  {
    hide ConfigOk, WholeRun, AtWork, JobsOk, AllPrepared, PlanAll, ListAll, Prepared, WholeInv, IdsOk;
    hide Shaped, SameShape, AllSucceeded, FailedTask, Answers.Placed;
    var c := AtWork(jobs, contents, workers, window, cb);
    AtWorkPlan(jobs, contents, workers, window, cb);
    AtWorkOk(jobs, contents, workers, window, cb);
    WholeOk(c, ids, run, steps, n);
    DeliveredTrue(c, ids, run[n], k);
    var q := run[n].sys.a.pushed[k].request;
    i, r := RequestFrom(SubsOf(jobs), q);
    SourceAt(SubsOf(jobs), i, r);
    PreparedAt(SubsOf(jobs), i);
    RequestListed(jobs[i].sub, r);
    if run[n].r.delivered[k].ret == Success {
      PlacedRange(jobs[i].sub, c.plan.requests[q], FilesOf(SubsOf(jobs)[..i]), contents, run[n].sys.a.memory, r);
    }
  }
}

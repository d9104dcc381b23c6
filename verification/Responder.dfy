// The persistent responder and the submission registry under concurrent producers and one consumer.
module Responder {
  import opened Codes
  import opened SharedQueues

  // ---------------------------------------------------------------- the system

  // The single consumer: outside pop; past its entry checks; woken with a token; holding a response that
  // Streamer::response has not yet accounted for.
  datatype Consumer = Outside | Waiting | Woken | Holding(r: Response)

  // posting: producers between their lock body and their post. owed: ids of the responses that the
  // workers will still push. waiting: submissions registered but not yet added to the expected count.
  // ignored: what was pushed to the queue after it was stopped.
  datatype State = State(
    q: Queue,
    posting: nat,
    stopPosting: bool,
    consumer: Consumer,
    live: map<nat, nat>,
    waiting: map<nat, nat>,
    owed: multiset<nat>,
    granted: nat,
    accepted: seq<Response>,
    delivered: seq<Response>,
    ignored: seq<Response>,
    completed: seq<nat>)

  datatype Step =
    | Register(id: nat, n: nat)
    | Increment(id: nat)
    | Push(r: Response)
    | Post
    | Stop
    | StopPost
    | Enter
    | Take
    | TimeOut
    | Deliver
    | GiveUp
    | Consume

  // A queue of either mode, constructed to expect the n responses of submission id (or none).
  ghost predicate Init(s: State, mode: Mode, id: nat, n: nat)
  {
    s == State(Queue(mode, n, [], 0, false, false), 0, false, Outside, if n > 0 then map[id := n] else map[], map[],
               Copies(id, n), n, [], [], [], [])
  }

  // Streamer::response skips the registry for these codes.
  predicate Skips(code: ResponseCode) { code == FinishedError || code == TimedOut }

  function Copies(id: nat, n: nat): multiset<nat> { multiset{}[id := n] }

  ghost predicate Next(s: State, s': State, step: Step)
  {
    match step
    case Register(id, n) =>
      && id !in s.live && n > 0
      && s' == s.(live := s.live[id := n], waiting := s.waiting[id := n])
    case Increment(id) =>
      && id in s.waiting
      && s' == s.(q := s.q.(running := s.q.running + s.waiting[id]), granted := s.granted + s.waiting[id],
                  owed := s.owed + Copies(id, s.waiting[id]), waiting := s.waiting - {id})
    case Push(r) =>
      && r.id in s.owed
      && s' == s.(q := Accept(s.q, r).0, owed := s.owed - multiset{r.id},
                  posting := s.posting + if Accept(s.q, r).1 then 1 else 0,
                  accepted := if Accept(s.q, r).1 then s.accepted + [r] else s.accepted,
                  ignored := if Accept(s.q, r).1 then s.ignored else s.ignored + [r])
    case Post => s.posting > 0 && s' == s.(posting := s.posting - 1, q := s.q.(ready := s.q.ready + 1))
    case Stop => s' == s.(q := Stopped(s.q).0, stopPosting := s.stopPosting || Stopped(s.q).1)
    case StopPost => s.stopPosting && s' == s.(stopPosting := false, q := s.q.(ready := s.q.ready + 1))
    case Enter => s.consumer.Outside? && s' == s.(consumer := if EndsAtEntry(s.q) then Outside else Waiting)
    case Take => s.consumer.Waiting? && s.q.ready > 0 && s' == s.(consumer := Woken, q := s.q.(ready := s.q.ready - 1))
    case TimeOut => s.consumer.Waiting? && s.q.ready == 0 && s' == s.(consumer := Outside)
    case Deliver =>
      && s.consumer.Woken? && !s.q.stopped
      && s' == (if s.q.responses == [] then s.(consumer := Outside)
                else s.(consumer := Holding(s.q.responses[0]), delivered := s.delivered + [s.q.responses[0]],
                        q := s.q.(responses := s.q.responses[1..])))
    case GiveUp => s.consumer.Woken? && s.q.stopped && s' == s.(consumer := Outside)
    case Consume =>
      && s.consumer.Holding?
      && var r := s.consumer.r;
         s' == if Skips(r.ret) then s.(consumer := Outside)
               else if r.id !in s.live then s.(consumer := Outside)
               else if s.live[r.id] == 1
                 then s.(consumer := Outside, live := s.live - {r.id}, completed := s.completed + [r.id])
               else s.(consumer := Outside, live := s.live[r.id := if s.live[r.id] > 0 then s.live[r.id] - 1 else 0])
  }

  // ---------------------------------------------------------------- the invariant

  function Ids(rs: seq<Response>): seq<nat>
  {
    seq(|rs|, i requires 0 <= i < |rs| => rs[i].id)
  }

  function Held(c: Consumer, id: nat): nat { if c.Holding? && c.r.id == id then 1 else 0 }

  // The responses of the id that Streamer::response does not account for.
  function SkippedIn(rs: seq<Response>, id: nat): nat
  {
    if rs == [] then 0
    else
      var last := rs[|rs|-1];
      SkippedIn(rs[..|rs|-1], id) + if last.id == id && Skips(last.ret) then 1 else 0
  }

  lemma {:induction false} SkippedSnoc(rs: seq<Response>, r: Response, id: nat)
    ensures SkippedIn(rs + [r], id) == SkippedIn(rs, id) + if r.id == id && Skips(r.ret) then 1 else 0
  {
    assert (rs + [r])[..|rs|] == rs;
  }

  // The response in the consumer's hands, if it will be accounted for.
  function ToCount(c: Consumer, id: nat): nat { if c.Holding? && c.r.id == id && !Skips(c.r.ret) then 1 else 0 }

  // Tokens and responses: every accepted push has, or will have, its token.
  ghost predicate TokensOk(s: State)
  {
    && (!s.q.stopped ==>
      s.q.ready + s.posting + (if s.consumer.Woken? then 1 else 0) == |s.q.responses| && !s.stopPosting)
    && (s.q.stopped && s.consumer.Waiting? ==> s.q.ready > 0 || s.stopPosting)
  }

  ghost predicate BooksOk(s: State)
  {
    && s.delivered + s.q.responses == s.accepted
    && s.granted == s.q.running + |s.accepted|
    && (!s.q.stopped ==> s.q.running == |s.owed| && s.ignored == [] && !s.q.unexpected)
    && (s.consumer.Holding? ==> s.delivered != [] && s.delivered[|s.delivered|-1] == s.consumer.r)
  }

  // A consumer that has passed the entry check of a queue that ends on drain waits for something: the queue
  // does not drain before it is served.
  ghost predicate WaitOk(s: State)
  {
    s.q.mode == FinishOnDrain && s.consumer.Waiting? && !s.q.stopped ==> !Drained(s.q)
  }

  // Where the responses of a submission that are still to be consumed are.
  ghost function Ahead(s: State, id: nat): nat
  {
    (if id in s.waiting then s.waiting[id] else 0)
    + s.owed[id] + multiset(Ids(s.q.responses))[id] + ToCount(s.consumer, id)
  }

  ghost predicate RegistryOk(s: State)
  {
    && (forall id :: id in s.live ==> s.live[id] > 0)
    && (forall id :: id in s.waiting ==> id in s.live && s.waiting[id] > 0)
    && (forall id: nat :: Balanced(s, id))
  }

  ghost predicate Balanced(s: State, id: nat)
  {
    Remaining(s, id) == Ahead(s, id) + SkippedIn(s.delivered, id) + multiset(Ids(s.ignored))[id]
  }

  ghost function Remaining(s: State, id: nat): nat { if id in s.live then s.live[id] else 0 }

  ghost predicate Inv(s: State) { TokensOk(s) && BooksOk(s) && WaitOk(s) && RegistryOk(s) }

  lemma InitInv(s: State, mode: Mode, id: nat, n: nat)
    requires Init(s, mode, id, n)
    ensures Inv(s)
  {
    CopiesSize(id, n);
  }

  lemma {:induction false} CopiesSize(id: nat, n: nat)
    ensures |Copies(id, n)| == n
  {
    if n == 0 {
      assert Copies(id, 0) == multiset{};
    } else {
      CopiesSize(id, n - 1);
      assert Copies(id, n) == Copies(id, n - 1) + multiset{id};
    }
  }

  lemma IdsSnoc(rs: seq<Response>, r: Response)
    ensures multiset(Ids(rs + [r])) == multiset(Ids(rs)) + multiset{r.id}
  {
    assert Ids(rs + [r]) == Ids(rs) + [r.id];
  }

  lemma IdsTail(rs: seq<Response>)
    requires rs != []
    ensures multiset(Ids(rs)) == multiset(Ids(rs[1..])) + multiset{rs[0].id}
  {
    assert Ids(rs) == [rs[0].id] + Ids(rs[1..]);
  }

  // The consumer's response is one the registry still counts.
  lemma HeldIsLive(s: State)
    requires BooksOk(s) && RegistryOk(s) && s.consumer.Holding?
    ensures s.consumer.r.id in s.live
  {
    assert Balanced(s, s.consumer.r.id);
    var n := |s.delivered| - 1;
    assert s.delivered == s.delivered[..n] + [s.consumer.r];
    SkippedSnoc(s.delivered[..n], s.consumer.r, s.consumer.r.id);
  }

  lemma RegisterKeeps(s: State, s': State, id: nat, n: nat)
    requires Inv(s) && Next(s, s', Register(id, n))
    ensures Inv(s')
  {
    forall j: nat ensures Balanced(s', j) {
      assert Balanced(s, j);
    }
  }

  lemma IncrementKeeps(s: State, s': State, id: nat)
    requires Inv(s) && Next(s, s', Increment(id))
    ensures Inv(s')
  {
    CopiesSize(id, s.waiting[id]);
    forall j: nat ensures Balanced(s', j) {
      assert Balanced(s, j);
    }
  }

  lemma PushKeepsBooks(s: State, s': State, r: Response)
    requires TokensOk(s) && BooksOk(s) && WaitOk(s) && Next(s, s', Push(r))
    ensures TokensOk(s') && BooksOk(s') && WaitOk(s')
  {
    assert |s.owed - multiset{r.id}| == |s.owed| - 1;
  }

  lemma PushBalance(s: State, s': State, r: Response, id: nat)
    requires Next(s, s', Push(r)) && Balanced(s, id)
    ensures Balanced(s', id)
  {
    IdsSnoc(s.q.responses, r);
    IdsSnoc(s.ignored, r);
    hide Ids, SkippedIn;
    assert s'.owed[id] == s.owed[id] - if id == r.id then 1 else 0;
    if Accept(s.q, r).1 {
      assert multiset(Ids(s'.q.responses))[id] == multiset(Ids(s.q.responses))[id] + if id == r.id then 1 else 0;
    }
  }

  lemma PushKeepsRegistry(s: State, s': State, r: Response)
    requires RegistryOk(s) && Next(s, s', Push(r))
    ensures RegistryOk(s')
  {
    assert s'.live == s.live && s'.waiting == s.waiting;
    hide Balanced, Next;
    forall id: nat ensures Balanced(s', id) {
      PushBalance(s, s', r, id);
    }
  }

  lemma PushKeeps(s: State, s': State, r: Response)
    requires Inv(s) && Next(s, s', Push(r))
    ensures Inv(s')
  {
    hide TokensOk, BooksOk, WaitOk, RegistryOk, Next;
    PushKeepsBooks(s, s', r);
    PushKeepsRegistry(s, s', r);
  }

  lemma SignalKeeps(s: State, s': State, step: Step)
    requires Inv(s) && Next(s, s', step) && (step.Post? || step.Stop? || step.StopPost?)
    ensures Inv(s')
  {
    hide Ids, SkippedIn;
    forall id: nat ensures Balanced(s', id) {
      assert Balanced(s, id);
    }
  }

  lemma WaitKeeps(s: State, s': State, step: Step)
    requires Inv(s) && Next(s, s', step) && (step.Enter? || step.Take? || step.TimeOut? || step.GiveUp?)
    ensures Inv(s')
  {
    hide Ids, SkippedIn;
    forall id: nat ensures Balanced(s', id) {
      assert Balanced(s, id);
    }
  }

  lemma DeliverKeepsBooks(s: State, s': State)
    requires TokensOk(s) && BooksOk(s) && Next(s, s', Deliver)
    ensures TokensOk(s') && BooksOk(s') && WaitOk(s')
  {
    assert s.q.responses != [];
    assert s.q.responses == [s.q.responses[0]] + s.q.responses[1..];
  }

  lemma DeliverKeepsRegistry(s: State, s': State)
    requires TokensOk(s) && BooksOk(s) && RegistryOk(s) && Next(s, s', Deliver)
    ensures RegistryOk(s')
  {
    assert s.q.responses != [];
    hide Next, Balanced;
    DeliverFacts(s, s');
    forall id: nat ensures Balanced(s', id) {
      DeliverBalance(s, s', id);
    }
  }

  lemma DeliverFacts(s: State, s': State)
    requires Next(s, s', Deliver) && s.q.responses != []
    ensures s'.live == s.live && s'.waiting == s.waiting
  {
  }

  lemma DeliverBalance(s: State, s': State, id: nat)
    requires Next(s, s', Deliver) && s.q.responses != [] && Balanced(s, id)
    ensures Balanced(s', id)
  {
    hide Ids, SkippedIn;
    QueuedTail(s.q.responses, id);
    SkippedSnoc(s.delivered, s.q.responses[0], id);
    assert s'.waiting == s.waiting && s'.owed == s.owed && s'.ignored == s.ignored && s'.live == s.live;
  }

  lemma QueuedTail(rs: seq<Response>, id: nat)
    requires rs != []
    ensures multiset(Ids(rs))[id] == multiset(Ids(rs[1..]))[id] + if rs[0].id == id then 1 else 0
  {
    IdsTail(rs);
  }

  lemma DeliverKeeps(s: State, s': State)
    requires Inv(s) && Next(s, s', Deliver)
    ensures Inv(s')
  {
    hide TokensOk, BooksOk, WaitOk, RegistryOk, Next;
    DeliverKeepsBooks(s, s');
    DeliverKeepsRegistry(s, s');
  }

  lemma ConsumeKeepsBooks(s: State, s': State)
    requires TokensOk(s) && BooksOk(s) && Next(s, s', Consume)
    ensures TokensOk(s') && BooksOk(s') && WaitOk(s')
  {
  }

  lemma ConsumeBalance(s: State, s': State, id: nat)
    requires Next(s, s', Consume) && Balanced(s, id) && s.consumer.r.id in s.live && s.live[s.consumer.r.id] > 0
    ensures Balanced(s', id)
  {
    hide Ids, SkippedIn;
    assert s'.waiting == s.waiting && s'.owed == s.owed && s'.q == s.q && s'.delivered == s.delivered
      && s'.ignored == s.ignored;
    assert Ahead(s', id) == Ahead(s, id) - ToCount(s.consumer, id);
    hide Ahead;
  }

  lemma ConsumeKeepsRegistry(s: State, s': State)
    requires BooksOk(s) && RegistryOk(s) && Next(s, s', Consume)
    ensures RegistryOk(s')
  {
    HeldIsLive(s);
    var id0 := s.consumer.r.id;
    assert Balanced(s, id0);
    if id0 in s.waiting {
      assert Remaining(s, id0) >= s.waiting[id0] + 1;
    }
    assert forall id :: id in s'.waiting ==> id in s'.live && s'.waiting[id] > 0;
    assert forall id :: id in s'.live ==> s'.live[id] > 0;
    hide Balanced, Next;
    forall id: nat ensures Balanced(s', id) {
      ConsumeBalance(s, s', id);
    }
  }

  lemma ConsumeKeeps(s: State, s': State)
    requires Inv(s) && Next(s, s', Consume)
    ensures Inv(s')
  {
    hide TokensOk, BooksOk, WaitOk, RegistryOk, Next;
    ConsumeKeepsBooks(s, s');
    ConsumeKeepsRegistry(s, s');
  }

  lemma StepKeeps(s: State, s': State, step: Step)
    requires Inv(s) && Next(s, s', step)
    ensures Inv(s')
  {
    hide Inv, Next;
    match step
    case Register(id, n) => RegisterKeeps(s, s', id, n);
    case Increment(id) => IncrementKeeps(s, s', id);
    case Push(r) => PushKeeps(s, s', r);
    case Post => SignalKeeps(s, s', step);
    case Stop => SignalKeeps(s, s', step);
    case StopPost => SignalKeeps(s, s', step);
    case Enter => WaitKeeps(s, s', step);
    case Take => WaitKeeps(s, s', step);
    case TimeOut => WaitKeeps(s, s', step);
    case GiveUp => WaitKeeps(s, s', step);
    case Deliver => DeliverKeeps(s, s');
    case Consume => ConsumeKeeps(s, s');
  }

  // ---------------------------------------------------------------- runs

  // The first state is that of a freshly constructed queue.
  ghost predicate Starts(s: State) { exists id, n :: Init(s, s.q.mode, id, n) }

  ghost predicate Run(run: seq<State>, steps: seq<Step>)
  {
    && |run| == |steps| + 1 && Starts(run[0])
    && forall i :: 0 <= i < |steps| ==> Next(run[i], run[i + 1], steps[i])
  }

  lemma {:induction false} RunInv(run: seq<State>, steps: seq<Step>, n: nat)
    requires Run(run, steps) && n < |run|
    ensures Inv(run[n])
  {
    hide Inv, Init, Next;
    if n == 0 {
      var id, k :| Init(run[0], run[0].q.mode, id, k);
      InitInv(run[0], run[0].q.mode, id, k);
    } else {
      RunInv(run, steps, n - 1);
      StepKeeps(run[n - 1], run[n], steps[n - 1]);
    }
  }

  // What the source asserts in passing never fails: a woken consumer finds a response unless the queue was
  // stopped, no push is unexpected, and no response is consumed for an unknown submission.
  lemma AssertionsHold(run: seq<State>, steps: seq<Step>, n: nat)
    requires Run(run, steps) && n < |run|
    ensures run[n].consumer.Woken? && !run[n].q.stopped ==> run[n].q.responses != []
    ensures forall id :: id in run[n].owed && !run[n].q.stopped ==> run[n].q.running > 0 && !run[n].q.unexpected
    ensures run[n].consumer.Holding? ==> run[n].consumer.r.id in run[n].live
  {
    RunInv(run, steps, n);
    var s := run[n];
    if s.consumer.Holding? {
      HeldIsLive(s);
    }
    SomeOwed(s.owed);
  }

  lemma SomeOwed(owed: multiset<nat>)
    ensures forall id :: id in owed ==> |owed| > 0
  {
    forall id | id in owed ensures |owed| > 0 {
      assert |owed| == |owed - multiset{id}| + 1;
    }
  }

  // Deliveries are the accepted pushes, in order; expectations balance.
  lemma DeliveriesFifo(run: seq<State>, steps: seq<Step>, n: nat)
    requires Run(run, steps) && n < |run|
    ensures run[n].delivered <= run[n].accepted
    ensures run[n].granted == run[n].q.running + |run[n].accepted|
  {
    RunInv(run, steps, n);
  }

  // A waiting consumer is not left behind: when no producer is between its lock and its post, a response in
  // the queue means a token, and so does a completed stop.
  lemma NoLostWakeup(run: seq<State>, steps: seq<Step>, n: nat)
    requires Run(run, steps) && n < |run| && run[n].consumer.Waiting? && run[n].posting == 0 && !run[n].stopPosting
    ensures !run[n].q.stopped ==> run[n].q.ready == |run[n].q.responses|
    ensures run[n].q.stopped ==> run[n].q.ready > 0
  {
    RunInv(run, steps, n);
  }

  // How often the consumer's wait came back with a token.
  function Takes(steps: seq<Step>): nat
  {
    if steps == [] then 0 else Takes(steps[..|steps|-1]) + if steps[|steps|-1].Take? then 1 else 0
  }

  // Tokens are conserved: one for each accepted response, one for the first stop and none for a later one;
  // each is still to be posted, in the semaphore, or taken.
  lemma {:induction false} TokensConserved(run: seq<State>, steps: seq<Step>, n: nat)
    requires Run(run, steps) && n < |run|
    ensures var s := run[n];
            s.q.ready + s.posting + (if s.stopPosting then 1 else 0) + Takes(steps[..n]) ==
              |s.accepted| + if s.q.stopped then 1 else 0
  {
    if n > 0 {
      TokensConserved(run, steps, n - 1);
      assert steps[..n][..n - 1] == steps[..n - 1];
      RunInv(run, steps, n - 1);
      assert Next(run[n - 1], run[n], steps[n - 1]);
      TokensStep(run[n - 1], run[n], steps[n - 1]);
    }
  }

  ghost function Tokens(s: State): int
  {
    |s.accepted| + (if s.q.stopped then 1 else 0) - s.q.ready - s.posting - if s.stopPosting then 1 else 0
  }

  lemma TokensStep(s: State, s': State, step: Step)
    requires Inv(s) && Next(s, s', step)
    ensures Tokens(s') == Tokens(s) + if step.Take? then 1 else 0
  {
  }

  // pop ends at once exactly when the queue was stopped or, for a queue that ends on drain, when every
  // response it was ever told to expect has been delivered.
  lemma EntryEndsIff(run: seq<State>, steps: seq<Step>, n: nat)
    requires Run(run, steps) && n < |run|
    ensures EndsAtEntry(run[n].q) <==>
              run[n].q.stopped
              || (run[n].q.mode == FinishOnDrain && run[n].delivered == run[n].accepted
                && |run[n].delivered| == run[n].granted)
  {
    RunInv(run, steps, n);
    var s := run[n];
    if s.delivered == s.accepted {
      assert |s.q.responses| == 0;
    }
  }

  // Whoever passed that check is served: until the queue is stopped there is a token, one on its way, or a
  // worker that still owes a response. The queue does not drain while it waits.
  lemma WaiterIsOwed(run: seq<State>, steps: seq<Step>, n: nat)
    requires Run(run, steps) && n < |run| && run[n].consumer.Waiting? && run[n].q.mode == FinishOnDrain
    ensures run[n].q.stopped || (!Drained(run[n].q) && run[n].q.ready + run[n].posting + |run[n].owed| > 0)
  {
    RunInv(run, steps, n);
  }

  // A drained queue that ends on drain stays so until it is told to expect more.
  lemma {:induction false} DrainedIsTerminal(run: seq<State>, steps: seq<Step>, i: nat, j: nat)
    requires Run(run, steps) && i <= j < |run| && EndsAtEntry(run[i].q)
    requires forall k :: i <= k < j && k < |steps| ==> !steps[k].Increment?
    ensures EndsAtEntry(run[j].q) && |run[j].delivered| == |run[i].delivered|
    decreases j
  {
    hide Run, Inv, Next, EndsAtEntry;
    if i < j {
      DrainedIsTerminal(run, steps, i, j - 1);
      RunInv(run, steps, j - 1);
      StepOf(run, steps, j - 1);
      EndStays(run[j - 1], run[j], steps[j - 1]);
    }
  }

  lemma EndStays(s: State, s': State, step: Step)
    requires Inv(s) && Next(s, s', step) && EndsAtEntry(s.q) && !step.Increment?
    ensures EndsAtEntry(s'.q) && s'.delivered == s.delivered
  {
    hide RegistryOk;
    SomeOwed(s.owed);
  }

  // Everything a submission is owed has been pushed and consumed.
  ghost predicate AllConsumed(s: State, id: nat)
  {
    id !in s.waiting && s.owed[id] == 0 && id !in Ids(s.q.responses) && Held(s.consumer, id) == 0
  }

  ghost predicate DeliveredEnd(s: State, id: nat)
  {
    exists i :: 0 <= i < |s.delivered| && s.delivered[i].id == id &&
      s.delivered[i].ret in {FinishedError, TimedOut}
  }

  ghost predicate PushedAfterStop(s: State, id: nat)
  {
    exists i :: 0 <= i < |s.ignored| && s.ignored[i].id == id
  }

  lemma {:induction false} SkippedIff(rs: seq<Response>, id: nat)
    ensures SkippedIn(rs, id) > 0 <==> exists i :: 0 <= i < |rs| && rs[i].id == id && Skips(rs[i].ret)
  {
    if rs != [] {
      var front := rs[..|rs|-1];
      SkippedIff(front, id);
      if SkippedIn(front, id) > 0 {
        var i :| 0 <= i < |front| && front[i].id == id && Skips(front[i].ret);
        assert rs[i].id == id && Skips(rs[i].ret);
      }
    }
  }

  lemma InIds(rs: seq<Response>, id: nat)
    ensures multiset(Ids(rs))[id] > 0 <==> exists i :: 0 <= i < |rs| && rs[i].id == id
  {
    if multiset(Ids(rs))[id] > 0 {
      assert id in Ids(rs);
      var i :| 0 <= i < |Ids(rs)| && Ids(rs)[i] == id;
      assert rs[i].id == id;
    }
    if i :| 0 <= i < |rs| && rs[i].id == id {
      assert Ids(rs)[i] == id;
    }
  }

  // Once all its responses are consumed, a submission is forgotten if and only if none of the responses
  // delivered for it carried FinishedError or TimedOut, and none was pushed after the queue was stopped.
  lemma ForgottenIff(run: seq<State>, steps: seq<Step>, n: nat, id: nat)
    requires Run(run, steps) && n < |run| && AllConsumed(run[n], id)
    ensures id !in run[n].live <==> !DeliveredEnd(run[n], id) && !PushedAfterStop(run[n], id)
  {
    RunInv(run, steps, n);
    var s := run[n];
    assert Balanced(s, id);
    SkippedIff(s.delivered, id);
    InIds(s.ignored, id);
  }

  // All that was ever pushed for the submission was accepted, delivered and accounted for.
  ghost predicate AllServed(s: State, id: nat)
  {
    AllConsumed(s, id) && !DeliveredEnd(s, id) && !PushedAfterStop(s, id)
  }

  lemma ConsumeDone(s: State, s': State)
    requires Inv(s) && Inv(s') && Next(s, s', Consume)
    ensures s.consumer.Holding?
    ensures var id := s.consumer.r.id;
            && (s'.completed == s.completed + [id] || s'.completed == s.completed)
            && (s'.completed != s.completed <==> AllServed(s', id)) && (s'.completed != s.completed ==> id !in s'.live)
  {
    hide TokensOk, WaitOk, SkippedIn;
    var id := s.consumer.r.id;
    HeldIsLive(s);
    assert Balanced(s, id) && Balanced(s', id);
    ServedIff(s', id);
    hide Inv, BooksOk, RegistryOk, AllServed, Ahead;
  }

  // A submission that is no longer counted is one that was served to the end, once nothing of it is held back.
  lemma ServedIff(s: State, id: nat)
    requires Balanced(s, id) && s.consumer.Outside? && (id in s.live ==> s.live[id] > 0)
    requires id in s.waiting ==> s.waiting[id] > 0
    ensures id !in s.live <==> AllServed(s, id)
  {
    SkippedIff(s.delivered, id);
    InIds(s.ignored, id);
    hide SkippedIn;
  }

  // submission_done fires on the last response of a submission, and only then.
  lemma DoneOnLast(run: seq<State>, steps: seq<Step>, n: nat)
    requires Run(run, steps) && n < |steps| == |run| - 1 && steps[n].Consume?
    ensures run[n].consumer.Holding?
    ensures var id := run[n].consumer.r.id;
            && (run[n + 1].completed == run[n].completed + [id] || run[n + 1].completed == run[n].completed)
            && (run[n + 1].completed != run[n].completed <==> AllServed(run[n + 1], id))
            && (run[n + 1].completed != run[n].completed ==> id !in run[n + 1].live)
  {
    hide Run, Starts, Inv, Next, AllServed;
    RunInv(run, steps, n);
    RunInv(run, steps, n + 1);
    StepOf(run, steps, n);
    ConsumeDone(run[n], run[n + 1]);
  }

  // Between two completions of one id it is registered anew: while an id is live it has not completed
  // since, and a completed id is no longer live.
  lemma NoDoubleDone(run: seq<State>, steps: seq<Step>, i: nat, j: nat)
    requires Run(run, steps) && i < j < |steps| && steps[i].Consume? && steps[j].Consume?
    requires run[i].consumer.Holding? && run[j].consumer.Holding?
    requires run[i + 1].completed != run[i].completed && run[j + 1].completed != run[j].completed
    requires run[i].consumer.r.id == run[j].consumer.r.id
    ensures exists k :: i < k < j && steps[k].Register? && steps[k].id == run[i].consumer.r.id
  {
    var id := run[i].consumer.r.id;
    DoneOnLast(run, steps, i);
    RunInv(run, steps, j);
    HeldIsLive(run[j]);
    assert Next(run[i], run[i + 1], steps[i]);
    var k := Revived(run, steps, i + 1, j, id);
  }

  lemma StepOf(run: seq<State>, steps: seq<Step>, i: nat)
    requires Run(run, steps) && i < |run| - 1
    ensures i < |steps| && |run| == |steps| + 1 && Next(run[i], run[i + 1], steps[i])
  {
    hide Next, Starts;
  }

  // An id that became live was registered in between.
  lemma {:induction false} Revived(run: seq<State>, steps: seq<Step>, i: nat, j: nat, id: nat) returns (k: nat)
    requires Run(run, steps) && i <= j < |run| && id !in run[i].live && id in run[j].live
    ensures i <= k < j && k < |steps| && steps[k].Register? && steps[k].id == id
    decreases j
  {
    hide Run, Next;
    assert i < j;
    StepOf(run, steps, j - 1);
    if id in run[j - 1].live {
      k := Revived(run, steps, i, j - 1, id);
    } else {
      OnlyRegister(run[j - 1], run[j], steps[j - 1], id);
      k := j - 1;
    }
  }

  lemma OnlyRegister(s: State, s': State, step: Step, id: nat)
    requires Next(s, s', step) && id !in s.live && id in s'.live
    ensures step.Register? && step.id == id
  {
  }

  // A submission of one range that is answered FinishedError, from registration to consumption.
  ghost function StoryState(i: nat): State
  {
    var r := Response(1, FinishedError);
    var q := Queue(Persistent, 0, [], 0, false, false);
    var s := State(q, 0, false, Outside, map[], map[], multiset{}, 0, [], [], [], []);
    var t := s.(live := map[1 := 1], granted := 1);
    if i == 0 then s
    else if i == 1 then s.(live := map[1 := 1], waiting := map[1 := 1])
    else if i == 2 then t.(q := q.(running := 1), owed := multiset{1})
    else if i == 3 then t.(q := q.(responses := [r]), posting := 1, accepted := [r])
    else if i == 4 then t.(q := q.(responses := [r], ready := 1), accepted := [r])
    else if i == 5 then t.(q := q.(responses := [r], ready := 1), accepted := [r], consumer := Waiting)
    else if i == 6 then t.(q := q.(responses := [r]), accepted := [r], consumer := Woken)
    else if i == 7 then t.(accepted := [r], delivered := [r], consumer := Holding(r))
    else t.(accepted := [r], delivered := [r])
  }

  ghost function StorySteps(): seq<Step>
  {
    [Register(1, 1), Increment(1), Push(Response(1, FinishedError)), Post, Enter, Take, Deliver, Consume]
  }

  lemma StoryStart(i: nat)
    requires i < 3
    ensures Next(StoryState(i), StoryState(i + 1), StorySteps()[i])
  {
    assert map[1 := 1] - {1} == map[];
    assert multiset{} + Copies(1, 1) == multiset{1};
    assert multiset{1} - multiset{1} == multiset{};
  }

  lemma StoryEnd(i: nat)
    requires 3 <= i < 8
    ensures Next(StoryState(i), StoryState(i + 1), StorySteps()[i])
  {
  }

  // It is delivered but never accounted for: the entry stays although nothing is left to consume.
  lemma SkippedSubmissionStays() returns (run: seq<State>, steps: seq<Step>)
    ensures Run(run, steps) && |run| > 0 && !run[|run| - 1].q.stopped
    ensures AllConsumed(run[|run| - 1], 1) && 1 in run[|run| - 1].live && run[|run| - 1].completed == []
    ensures run[|run| - 1].delivered == [Response(1, FinishedError)]
  {
    run := seq(9, i requires 0 <= i < 9 => StoryState(i));
    steps := StorySteps();
    assert Copies(0, 0) == multiset{};
    assert Init(run[0], Persistent, 0, 0);
    assert AllConsumed(run[8], 1);
    hide Next, StoryState, Init;
    forall i | 0 <= i < |steps| ensures Next(run[i], run[i + 1], steps[i]) {
      if i < 3 {
        StoryStart(i);
      } else {
        StoryEnd(i);
      }
    }
  }
}

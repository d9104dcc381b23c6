// The pool's threads over its queue: a semaphore token for every message, one stop token for every thread.
module Pool {
  import opened Deques
  import opened Seqs

  // Where a thread is: at the top of its loop; with try_pop's token; after try_pop came back empty; in the
  // blocking wait of pop; with pop's token; handling a request; gone.
  datatype Phase = AtTop | TryHeld | AfterTry | Parked | PopHeld | Executing(message: nat) | Exited

  // `busy` says that the worker has something pending or in flight (it is not idle()).
  datatype Thread = Thread(phase: Phase, busy: bool)

  // pushing: pushes between their lock body and their post. stopPosts: posts stop() still has to make.
  datatype State = State(
    q: Queue,
    pushing: nat,
    stopPosts: nat,
    threads: seq<Thread>,
    taken: seq<nat>,
    pushed: seq<nat>)

  datatype Step =
    | Push(message: nat)
    | PushPost
    | Stop
    | StopPost
    | TryWait(t: nat)
    | TryLock(t: nat)
    | Tail(t: nat, busy: bool)
    | Wait(t: nat)
    | Lock(t: nat)
    | Handled(t: nat, busy: bool)

  ghost predicate Init(s: State, n: nat)
  {
    && s == State(Queue(0, [], false), 0, 0, s.threads, [], [])
    && |s.threads| == n && forall t :: 0 <= t < n ==> s.threads[t] == Thread(AtTop, false)
  }

  function Move(s: State, t: nat, phase: Phase): State
    requires t < |s.threads|
  {
    s.(threads := s.threads[t := s.threads[t].(phase := phase)])
  }

  // The front message goes to thread t; without one nothing happens (the source would read past the end).
  function TakeFront(s: State, t: nat): State
    requires t < |s.threads|
  {
    if s.q.messages == [] then s
    else Move(s, t, Executing(s.q.messages[0])).(q := Popped(s.q), taken := s.taken + [s.q.messages[0]])
  }

  ghost predicate Next(s: State, s': State, step: Step)
  {
    match step
    case Push(m) => !s.q.stopped && s' == s.(q := Pushed(s.q, m), pushing := s.pushing + 1, pushed := s.pushed + [m])
    case PushPost => s.pushing > 0 && s' == s.(pushing := s.pushing - 1, q := Posted(s.q))
    case Stop => !s.q.stopped && s' == s.(q := s.q.(stopped := true), stopPosts := |s.threads|)
    case StopPost => s.stopPosts > 0 && s' == s.(stopPosts := s.stopPosts - 1, q := Posted(s.q))
    case TryWait(t) =>
      && t < |s.threads| && s.threads[t].phase == AtTop
      && s' == if s.q.tokens > 0 then Move(s, t, TryHeld).(q := Waited(s.q)) else Move(s, t, AfterTry)
    case TryLock(t) =>
      && t < |s.threads| && s.threads[t].phase == TryHeld
      && s' == if s.q.stopped then Move(s, t, AfterTry).(q := Posted(s.q)) else TakeFront(s, t)
    case Tail(t, busy) =>
      // drain one batch, or park when idle; a drain that sees the stop flag aborts and leaves the worker idle
      && t < |s.threads| && s.threads[t].phase == AfterTry
      && (s.q.stopped ==> !busy)
      && s' == if s.threads[t].busy then s.(threads := s.threads[t := Thread(AtTop, busy)]) else Move(s, t, Parked)
    case Wait(t) =>
      && t < |s.threads| && s.threads[t].phase == Parked && s.q.tokens > 0
      && s' == Move(s, t, PopHeld).(q := Waited(s.q))
    case Lock(t) =>
      && t < |s.threads| && s.threads[t].phase == PopHeld
      && s' == if s.q.stopped then Move(s, t, Exited) else TakeFront(s, t)
    case Handled(t, busy) =>
      && t < |s.threads| && s.threads[t].phase.Executing?
      && s' == s.(threads := s.threads[t := Thread(AtTop, busy)])
  }

  // ---------------------------------------------------------------- the invariant

  function IsHolding(t: Thread): nat { if t.phase == TryHeld || t.phase == PopHeld then 1 else 0 }

  function IsExited(t: Thread): nat { if t.phase == Exited then 1 else 0 }

  function Holding(s: State): nat { WeightOf(s.threads, IsHolding) }

  function Gone(s: State): nat { WeightOf(s.threads, IsExited) }

  // Tokens in the semaphore, about to be posted, or in a thread's hand.
  function AllTokens(s: State): nat { s.q.tokens + s.pushing + s.stopPosts + Holding(s) }

  ghost predicate Inv(s: State)
  {
    && (!s.q.stopped ==> AllTokens(s) == |s.q.messages| && s.stopPosts == 0 && Gone(s) == 0)
    && (s.q.stopped ==> AllTokens(s) + Gone(s) == |s.q.messages| + |s.threads|)
    && s.taken + s.q.messages == s.pushed
  }

  lemma {:induction false} NoneHolding(threads: seq<Thread>)
    requires forall t :: 0 <= t < |threads| ==> threads[t] == Thread(AtTop, false)
    ensures WeightOf(threads, IsHolding) == 0 && WeightOf(threads, IsExited) == 0
  {
    if threads != [] {
      NoneHolding(threads[..|threads|-1]);
    }
  }

  lemma InitInv(s: State, n: nat)
    requires Init(s, n)
    ensures Inv(s)
  {
    NoneHolding(s.threads);
  }

  // Moving one thread changes the counts by that thread alone.
  lemma Moved(s: State, t: nat, thread: Thread)
    requires t < |s.threads|
    ensures var more := s.threads[t := thread];
            && WeightOf(more, IsHolding) + IsHolding(s.threads[t]) == Holding(s) + IsHolding(thread)
            && WeightOf(more, IsExited) + IsExited(s.threads[t]) == Gone(s) + IsExited(thread)
  {
    WeightUpdate(s.threads, t, thread, IsHolding);
    WeightUpdate(s.threads, t, thread, IsExited);
  }

  // A thread with a token of a queue that is not stopped finds a message.
  lemma FrontExists(s: State, t: nat)
    requires Inv(s) && !s.q.stopped && t < |s.threads| && IsHolding(s.threads[t]) == 1
    ensures s.q.messages != []
  {
    WeightMember(s.threads, t, IsHolding);
  }

  // A thread with a token takes the front message of a queue that is not stopped.
  lemma TakeKeeps(s: State, s': State, t: nat)
    requires Inv(s) && !s.q.stopped && t < |s.threads| && IsHolding(s.threads[t]) == 1 && s' == TakeFront(s, t)
    ensures Inv(s')
  {
    FrontExists(s, t);
    hide WeightOf;
    assert s.q.messages == [s.q.messages[0]] + s.q.messages[1..];
    Moved(s, t, s'.threads[t]);
  }

  lemma ThreadKeeps(s: State, s': State, step: Step)
    requires Inv(s) && Next(s, s', step) && (step.Tail? || step.Wait? || step.Handled? || step.TryWait?)
    ensures Inv(s')
  {
    hide WeightOf;
    Moved(s, step.t, s'.threads[step.t]);
  }

  lemma StopTokenKeeps(s: State, s': State, step: Step)
    requires Inv(s) && Next(s, s', step) && s.q.stopped && (step.TryLock? || step.Lock?)
    ensures Inv(s')
  {
    hide WeightOf;
    Moved(s, step.t, s'.threads[step.t]);
  }

  lemma PostKeeps(s: State, s': State, step: Step)
    requires Inv(s) && Next(s, s', step) && (step.Push? || step.PushPost? || step.Stop? || step.StopPost?)
    ensures Inv(s')
  {
    hide WeightOf;
  }

  lemma StepKeeps(s: State, s': State, step: Step)
    requires Inv(s) && Next(s, s', step)
    ensures Inv(s')
  {
    hide Inv, TakeFront, Move;
    if step.TryLock? || step.Lock? {
      if s.q.stopped {
        StopTokenKeeps(s, s', step);
      } else {
        TakeKeeps(s, s', step.t);
      }
    } else if step.Tail? || step.Wait? || step.Handled? || step.TryWait? {
      ThreadKeeps(s, s', step);
    } else {
      PostKeeps(s, s', step);
    }
  }

  // ---------------------------------------------------------------- runs

  ghost predicate Run(run: seq<State>, steps: seq<Step>, n: nat)
  {
    && |run| == |steps| + 1 && Init(run[0], n)
    && forall i :: 0 <= i < |steps| ==> Next(run[i], run[i + 1], steps[i])
  }

  lemma {:induction false} RunInv(run: seq<State>, steps: seq<Step>, n: nat, k: nat)
    requires Run(run, steps, n) && k < |run|
    ensures Inv(run[k]) && |run[k].threads| == n
  {
    if k == 0 {
      InitInv(run[0], n);
    } else {
      RunInv(run, steps, n, k - 1);
      assert Next(run[k - 1], run[k], steps[k - 1]);
      hide Inv;
      StepKeeps(run[k - 1], run[k], steps[k - 1]);
    }
  }

  // pop and try_pop never take the front of an empty queue, and messages come out in the order they went in.
  lemma FrontNeverMissing(run: seq<State>, steps: seq<Step>, n: nat, k: nat, t: nat)
    requires Run(run, steps, n) && k < |run| && t < n
    ensures |run[k].threads| == n
    ensures !run[k].q.stopped && IsHolding(run[k].threads[t]) == 1 ==> run[k].q.messages != []
    ensures run[k].taken <= run[k].pushed
  {
    RunInv(run, steps, n, k);
    if !run[k].q.stopped && IsHolding(run[k].threads[t]) == 1 {
      FrontExists(run[k], t);
    }
  }

  // After stop, the tokens in play are one for each thread still there, and one for each dropped message:
  // an exit uses exactly one, and try_pop gives back the one it took.
  lemma EnoughTokens(run: seq<State>, steps: seq<Step>, n: nat, k: nat)
    requires Run(run, steps, n) && k < |run| && run[k].q.stopped
    ensures AllTokens(run[k]) == |run[k].q.messages| + (n - Gone(run[k]))
  {
    RunInv(run, steps, n, k);
  }

  function Present(t: Thread): nat { if t.phase == Exited then 0 else 1 }

  lemma {:induction false} PresentOrGone(threads: seq<Thread>)
    ensures WeightOf(threads, Present) + WeightOf(threads, IsExited) == |threads|
  {
    if threads != [] {
      PresentOrGone(threads[..|threads|-1]);
    }
  }

  // Once stop() has made all its posts, a parked thread always finds a token.
  lemma ParkedWakes(run: seq<State>, steps: seq<Step>, n: nat, k: nat, t: nat)
    requires Run(run, steps, n) && k < |run| && run[k].q.stopped && run[k].pushing == 0 && run[k].stopPosts == 0
    requires |run[k].threads| == n && t < n && run[k].threads[t].phase == Parked
    ensures run[k].q.tokens > 0
  {
    var s := run[k];
    RunInv(run, steps, n, k);
    PresentOrGone(s.threads);
    // every holder is present, and so is t, which holds nothing
    var held := s.threads[t := Thread(TryHeld, false)];
    WeightUpdate(s.threads, t, Thread(TryHeld, false), IsHolding);
    WeightUpdate(s.threads, t, Thread(TryHeld, false), Present);
    WeightLess(held, IsHolding, Present);
  }

  // ---------------------------------------------------------------- shutdown completes

  // What a thread can still do once the queue is stopped.
  function Rank(t: Thread): nat
  {
    match t.phase
    case Executing(_) => 10
    case AtTop => if t.busy then 9 else 6
    case TryHeld => if t.busy then 8 else 5
    case AfterTry => if t.busy then 7 else 4
    case Parked => 3
    case PopHeld => 2
    case Exited => 0
  }

  function ToDo(s: State): nat { s.pushing + s.stopPosts + WeightOf(s.threads, Rank) }

  // Every step after stop brings the shutdown closer.
  lemma ShutdownAdvances(s: State, s': State, step: Step)
    requires s.q.stopped && Next(s, s', step)
    ensures s'.q.stopped && ToDo(s') < ToDo(s)
  {
    hide WeightOf;
    match step
    case TryWait(t) => WeightUpdate(s.threads, t, s'.threads[t], Rank);
    case TryLock(t) => WeightUpdate(s.threads, t, s'.threads[t], Rank);
    case Tail(t, busy) => WeightUpdate(s.threads, t, s'.threads[t], Rank);
    case Wait(t) => WeightUpdate(s.threads, t, s'.threads[t], Rank);
    case Lock(t) => WeightUpdate(s.threads, t, s'.threads[t], Rank);
    case Handled(t, busy) => WeightUpdate(s.threads, t, s'.threads[t], Rank);
    case _ =>
  }

  // And until every thread is gone there is such a step: no thread is left behind.
  lemma ShutdownNotStuck(run: seq<State>, steps: seq<Step>, n: nat, k: nat, t: nat)
    requires Run(run, steps, n) && k < |run| && run[k].q.stopped
    requires |run[k].threads| == n && t < n && run[k].threads[t].phase != Exited
    ensures exists step: Step, s': State :: Next(run[k], s', step)
  {
    var s := run[k];
    match s.threads[t].phase
    case AtTop =>
      assert Next(s, if s.q.tokens > 0 then Move(s, t, TryHeld).(q := Waited(s.q))
        else Move(s, t, AfterTry), TryWait(t));
    case TryHeld => assert Next(s, Move(s, t, AfterTry).(q := Posted(s.q)), TryLock(t));
    case AfterTry =>
      assert Next(s, if s.threads[t].busy then s.(threads := s.threads[t := Thread(AtTop, false)])
        else Move(s, t, Parked), Tail(t, false));
    case PopHeld => assert Next(s, Move(s, t, Exited), Lock(t));
    case Executing(m) => assert Next(s, s.(threads := s.threads[t := Thread(AtTop, false)]), Handled(t, false));
    case Parked =>
      if s.pushing > 0 {
        assert Next(s, s.(pushing := s.pushing - 1, q := Posted(s.q)), PushPost);
      } else if s.stopPosts > 0 {
        assert Next(s, s.(stopPosts := s.stopPosts - 1, q := Posted(s.q)), StopPost);
      } else {
        ParkedWakes(run, steps, n, k, t);
        assert Next(s, Move(s, t, PopHeld).(q := Waited(s.q)), Wait(t));
      }
  }
}

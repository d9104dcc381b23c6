// Runs of the whole system: they are runs of the answers' protocol, and what the protocol promises is true of
// the threads, the workers and the backend together.
module SystemRuns {
  import opened Codes
  import opened Options
  import opened Batches
  import opened Events
  import opened Traces
  import opened Answers
  import opened System
  import opened SystemSteps
  import WI = WorkerInvariant

  ghost predicate SysRun(c: Config, run: seq<Sys>, steps: seq<SysStep>)
  {
    && |run| == |steps| + 1 && SysInit(c, run[0])
    && forall i :: 0 <= i < |steps| ==> SysNext(c, run[i], run[i + 1], steps[i])
  }

  // ---------------------------------------------------------------- the start

  lemma StartOk(cb: nat)
    requires cb > 0
    ensures WI.Inv(Start(cb))
  {
    var v := Start(cb);
    assert WI.LiveOut(v.specs, v.out) == {};
    assert WI.Alive(v) == {};
  }

  lemma StartReader(c: Config, s: Sys, b: nat)
    requires ConfigOk(c) && SysInit(c, s) && b < |c.readers|
    ensures SysShape(c, s) && ReaderOk(c, s.a, c.readers[b], 0)
  {
    var r := c.readers[b];
    assert ReaderFits(c.plan, c.files, r) && r.trace[..0] == [];
    forall k | 0 <= k < |r.index| ensures TaskRead(c, s.a, r.trace[..0], r.index[k], k) {
      assert s.a.phase[r.index[k]] == Todo;
    }
  }

  lemma InitShape(c: Config, s: Sys)
    requires ConfigOk(c) && SysInit(c, s)
    ensures SysShape(c, s)
  {
    forall b | 0 <= b < |c.readers| ensures Indexed(c.plan, c.readers[b]) {
      assert ReaderFits(c.plan, c.files, c.readers[b]);
    }
  }

  lemma InitOk(c: Config, s: Sys)
    requires ConfigOk(c) && SysInit(c, s)
    ensures SysInv(c, s)
  {
    InitShape(c, s);
    InitInv(c.plan, c.files, s.a);
    assert WorkersOk(c, s) by {
      StartOk(c.cb);
      hide WI.Inv, ConfigOk;
    }
    assert LoadsOk(c, s);
    hide WorkersOk, LoadsOk, Answers.Inv, ConfigOk;
    assert ReadersOk(c, s) by {
      hide SysInit, ReaderOk;
      forall b | 0 <= b < |c.readers| ensures ReaderOk(c, s.a, c.readers[b], 0) {
        StartReader(c, s, b);
      }
    }
  }

  // ---------------------------------------------------------------- every run

  lemma {:induction false} RunOk(c: Config, run: seq<Sys>, steps: seq<SysStep>, n: nat)
    requires ConfigOk(c) && SysRun(c, run, steps) && n < |run|
    ensures SysInv(c, run[n])
  {
    hide ConfigOk, SysInv, SysInit, SysNext;
    if n == 0 {
      InitOk(c, run[0]);
    } else {
      RunOk(c, run, steps, n - 1);
      StepRefines(c, run[n - 1], run[n], steps[n - 1]);
    }
  }

  // Every run of the system is a run of the answers' protocol: its guards - a success only with the bytes in
  // place, no write to a task that has succeeded - are what the threads, the workers and the backend do.
  lemma {:induction false} Projects(c: Config, run: seq<Sys>, steps: seq<SysStep>, n: nat)
    returns (states: seq<State>, moves: seq<Step>)
    requires ConfigOk(c) && SysRun(c, run, steps) && n < |run|
    ensures Shaped(c.plan) && Run(c.plan, c.files, states, moves) && |states| == |moves| + 1
        && states[|moves|] == run[n].a
  {
    hide ConfigOk, SysInv, SysNext, SysInit, PlanGood, PlacesFit, Shaped, Answers.Next, Run, AnswerStep;
    GoodPlan(c);
    if n == 0 {
      states, moves := [run[0].a], [];
      StartOfRun(c, run[0]);
    } else {
      states, moves := Projects(c, run, steps, n - 1);
      RunOk(c, run, steps, n - 1);
      StepRefines(c, run[n - 1], run[n], steps[n - 1]);
      var x := AnswerStep(c, run[n - 1], steps[n - 1]);
      if x.Some? {
        RunLength(c, states, moves);
        states, moves := RunMore(c, states, moves, run[n].a, x.value);
      }
    }
  }

  lemma StartOfRun(c: Config, s: Sys)
    requires Shaped(c.plan) && SysInit(c, s)
    ensures Run(c.plan, c.files, [s.a], [])
  {
    hide Shaped, Answers.Init;
  }

  lemma RunMore(c: Config, states: seq<State>, moves: seq<Step>, a: State, x: Step)
    returns (states': seq<State>, moves': seq<Step>)
    requires Shaped(c.plan) && Run(c.plan, c.files, states, moves)
        && Answers.Next(c.plan, c.files, states[|moves|], a, x)
    ensures Run(c.plan, c.files, states', moves') && |states'| == |moves'| + 1 && states'[|moves'|] == a
  {
    hide Shaped, Answers.Next, Answers.Init;
    states', moves' := states + [a], moves + [x];
    forall i | 0 <= i < |moves'| ensures Answers.Next(c.plan, c.files, states'[i], states'[i + 1], moves'[i]) {
      if i < |moves| {
        assert states'[i] == states[i] && states'[i + 1] == states[i + 1];
      }
    }
  }

  // What a response says at any moment of any run: Success exactly when every task of its range was finished
  // with Success, and then every byte of the range is in place; otherwise the code of one of its tasks.
  lemma ResponsesTruthful(c: Config, run: seq<Sys>, steps: seq<SysStep>, n: nat, i: nat)
    requires ConfigOk(c) && SysRun(c, run, steps) && n < |run| && i < |run[n].a.pushed|
    ensures Shaped(c.plan) && SameShape(c.plan, run[n].a) && ResponseTrue(c.plan, c.files, run[n].a, run[n].a.pushed[i])
  {
    GoodPlan(c);
    hide ConfigOk, SysRun, PlanGood, PlacesFit, Shaped, Run, ResponseTrue;
    var states, moves := Projects(c, run, steps, n);
    AnswersTruthful(c.plan, c.files, states, moves, |moves|, i);
  }

  lemma RunLength(c: Config, states: seq<State>, moves: seq<Step>)
    requires Shaped(c.plan) && Run(c.plan, c.files, states, moves)
    ensures |states| == |moves| + 1
  {
  }

  // No request is answered twice, and when all is done each has been answered.
  lemma ResponsesOnce(c: Config, run: seq<Sys>, steps: seq<SysStep>, n: nat)
    requires ConfigOk(c) && SysRun(c, run, steps) && n < |run|
    ensures forall i, j :: 0 <= i < j < |run[n].a.pushed| ==> run[n].a.pushed[i].request != run[n].a.pushed[j].request
    ensures Quiet(run[n].a) ==> forall r: nat :: r < |c.plan.requests| ==> HasResponse(run[n].a, r)
  {
    GoodPlan(c);
    hide ConfigOk, SysRun, PlanGood, PlacesFit, Shaped, Run;
    var states, moves := Projects(c, run, steps, n);
    AnsweredExactlyOnce(c.plan, c.files, states, moves, |moves|);
  }

  // Once a task has been finished with Success, no step of anyone changes a byte of its window.
  lemma SuccessIsForGood(c: Config, s: Sys, s': Sys, step: SysStep, t: nat, x: nat)
    requires ConfigOk(c) && SysInv(c, s) && SysNext(c, s, s', step)
    requires SysShape(c, s) && t < |c.plan.tasks| && Answers.Succeeded(s.a.phase[t]) && Window(c.plan.tasks[t], x)
    ensures s'.a.memory(x) == s.a.memory(x)
  {
    hide ConfigOk, SysInv, SysNext, PlacesFit, AnswerStep, PlanGood, Shaped, Answers.Open;
    StepRefines(c, s, s', step);
    GoodPlan(c);
    ClosedThere(c.plan, s.a, t, x);
  }
}

// Downloading a model directory once, by any number of processes that may crash at any moment.
module DownloadLock {

  // Where a process is. A lock is held by being in one of the phases that hold it; the kernel drops the
  // lock of a process that dies.
  datatype Phase =
    | Out            // not started, finished, failed or dead
    | WantShared     // the lock file is open, waiting for LOCK_SH
    | SharedCheck    // holds LOCK_SH, about to look for the sentinel
    | WantExclusive  // gave up LOCK_SH, waiting for LOCK_EX
    | ExclusiveCheck // holds LOCK_EX, about to look for the sentinel again
    | Downgrading    // holds LOCK_EX, will skip
    | Gap            // between giving up LOCK_EX and getting LOCK_SH: flock does not convert atomically
    | Skipping       // holds LOCK_SH, uses the directory
    | Clearing       // holds LOCK_EX, removes what an earlier process left
    | Building       // holds LOCK_EX, downloads
    | Sealed         // holds LOCK_EX, has written the sentinel

  // The directory's files without the sentinel, whether the sentinel is there, and the files it vouches for.
  datatype State = State(procs: seq<Phase>, files: map<string, int>, sentinel: bool, finished: map<string, int>)

  datatype Step =
    | Start(p: nat)
    | LockShared(p: nat)
    | CheckShared(p: nat)
    | LockExclusive(p: nat)
    | CheckExclusive(p: nat)
    | DropExclusive(p: nat)
    | RelockShared(p: nat)
    | Remove(p: nat, name: string)
    | RemoveSentinel(p: nat)
    | Cleared(p: nat)
    | Download(p: nat, name: string, content: int)
    | Seal(p: nat)
    | Leave(p: nat)
    | Die(p: nat)

  predicate HoldsExclusive(f: Phase)
  {
    f == ExclusiveCheck || f == Downgrading || f == Clearing || f == Building || f == Sealed
  }

  predicate HoldsShared(f: Phase) { f == SharedCheck || f == Skipping }

  // The process has decided not to download.
  predicate Skips(f: Phase) { f == Downgrading || f == Gap || f == Skipping }

  // The process changes the directory.
  predicate Rebuilds(f: Phase) { f == Clearing || f == Building }

  ghost predicate NoExclusive(s: State)
  {
    forall q :: 0 <= q < |s.procs| ==> !HoldsExclusive(s.procs[q])
  }

  ghost predicate NoLock(s: State)
  {
    forall q :: 0 <= q < |s.procs| ==> !HoldsExclusive(s.procs[q]) && !HoldsShared(s.procs[q])
  }

  function Goto(s: State, p: nat, f: Phase): State
    requires p < |s.procs|
  {
    s.(procs := s.procs[p := f])
  }

  ghost predicate Next(s: State, s': State, step: Step)
  {
    && step.p < |s.procs|
    && var f := s.procs[step.p];
       match step
       case Start(p) => f == Out && s' == Goto(s, p, WantShared)
       case LockShared(p) => f == WantShared && NoExclusive(s) && s' == Goto(s, p, SharedCheck)
       case CheckShared(p) => f == SharedCheck && s' == Goto(s, p, if s.sentinel then Skipping else WantExclusive)
       case LockExclusive(p) => f == WantExclusive && NoLock(s) && s' == Goto(s, p, ExclusiveCheck)
       case CheckExclusive(p) => f == ExclusiveCheck && s' == Goto(s, p, if s.sentinel then Downgrading else Clearing)
       case DropExclusive(p) => f == Downgrading && s' == Goto(s, p, Gap)
       case RelockShared(p) => f == Gap && NoExclusive(s) && s' == Goto(s, p, Skipping)
       case Remove(p, name) => f == Clearing && name in s.files && s' == s.(files := s.files - {name})
       case RemoveSentinel(p) => f == Clearing && s.sentinel && s' == s.(sentinel := false)
       case Cleared(p) => f == Clearing && s.files == map[] && !s.sentinel && s' == Goto(s, p, Building)
       case Download(p, name, content) => f == Building && s' == s.(files := s.files[name := content])
       case Seal(p) => f == Building && s.files != map[]
         && s' == Goto(s, p, Sealed).(sentinel := true, finished := s.files)
       case Leave(p) => (f == Sealed || f == Skipping) && s' == Goto(s, p, Out)
       case Die(p) => s' == Goto(s, p, Out)
  }

  ghost predicate Init(s: State)
  {
    && (forall p :: 0 <= p < |s.procs| ==> s.procs[p] == Out)
    && (s.sentinel ==> s.files == s.finished)
  }

  // ---------------------------------------------------------------- the invariant

  ghost predicate PhaseOk(s: State, p: nat)
    requires p < |s.procs|
  {
    && (Rebuilds(s.procs[p]) ==> !s.sentinel)
    && (Skips(s.procs[p]) || s.procs[p] == Sealed ==> s.sentinel)
  }

  ghost predicate Excludes(s: State, p: nat, q: nat)
    requires p < |s.procs| && q < |s.procs|
  {
    p != q && HoldsExclusive(s.procs[p]) ==> !HoldsExclusive(s.procs[q]) && !HoldsShared(s.procs[q])
  }

  ghost predicate Inv(s: State)
  {
    && (forall p: nat, q: nat :: p < |s.procs| && q < |s.procs| ==> Excludes(s, p, q))
    && (forall p: nat :: p < |s.procs| ==> PhaseOk(s, p))
    && (s.sentinel ==> s.files == s.finished)
  }

  // Only a rebuilder touches the directory or the sentinel, and while it does nobody else holds a lock.
  lemma StepKeeps(s: State, s': State, step: Step)
    requires Inv(s) && Next(s, s', step)
    ensures Inv(s') && |s'.procs| == |s.procs|
    ensures s.sentinel ==> s'.sentinel && s'.files == s.files && s'.finished == s.finished
  {
    var n := |s.procs|;
    assert PhaseOk(s, step.p);
    forall p: nat, q: nat | p < n && q < n ensures Excludes(s', p, q) {
      assert Excludes(s, p, q) && Excludes(s, q, p);
    }
    forall p: nat | p < n ensures PhaseOk(s', p) {
      assert PhaseOk(s, p) && Excludes(s, step.p, p) && Excludes(s, p, step.p);
    }
  }

  // ---------------------------------------------------------------- runs

  ghost predicate Run(run: seq<State>, steps: seq<Step>)
  {
    && |run| == |steps| + 1 && Init(run[0])
    && forall i :: 0 <= i < |steps| ==> Next(run[i], run[i + 1], steps[i])
  }

  lemma {:induction false} RunInv(run: seq<State>, steps: seq<Step>, n: nat)
    requires Run(run, steps) && n < |run|
    ensures Inv(run[n]) && |run[n].procs| == |run[0].procs|
  {
    if n > 0 {
      RunInv(run, steps, n - 1);
      StepKeeps(run[n - 1], run[n], steps[n - 1]);
    }
  }

  // At most one process rebuilds at a time, and nobody uses the directory meanwhile under a lock.
  lemma OneRebuilder(run: seq<State>, steps: seq<Step>, n: nat, p: nat, q: nat)
    requires Run(run, steps) && n < |run| && p < |run[n].procs| && q < |run[n].procs|
    requires Rebuilds(run[n].procs[p]) && p != q
    ensures !Rebuilds(run[n].procs[q]) && !Skips(run[n].procs[q])
  {
    RunInv(run, steps, n);
    assert Excludes(run[n], p, q) && PhaseOk(run[n], p) && PhaseOk(run[n], q);
  }

  // Once written the sentinel stays, and the directory stays as it was then: whatever crashes, whoever waits.
  lemma {:induction false} SentinelIsForever(run: seq<State>, steps: seq<Step>, n: nat, m: nat)
    requires Run(run, steps) && n <= m < |run| && run[n].sentinel
    ensures run[m].sentinel && run[m].files == run[n].files && run[m].finished == run[n].finished
    decreases m
  {
    if n < m {
      SentinelIsForever(run, steps, n, m - 1);
      RunInv(run, steps, m - 1);
      StepKeeps(run[m - 1], run[m], steps[m - 1]);
    }
  }

  // A process that skips sees the directory as the process that finished it left it, in every later state
  // too, although it holds no lock at all in the gap of the downgrade.
  lemma SkipperSeesFinished(run: seq<State>, steps: seq<Step>, n: nat, m: nat, p: nat)
    requires Run(run, steps) && n <= m < |run| && p < |run[n].procs| && Skips(run[n].procs[p])
    ensures run[m].sentinel && run[m].files == run[n].finished == run[m].finished
  {
    RunInv(run, steps, n);
    assert PhaseOk(run[n], p);
    SentinelIsForever(run, steps, n, m);
    RunInv(run, steps, m);
  }

  lemma BuilderStep(s: State, s': State, step: Step, p: nat)
    requires Inv(s) && Next(s, s', step) && p < |s.procs| && s.procs[p] == Building && step != Die(p) && step != Seal(p)
    ensures |s'.procs| == |s.procs| && s'.procs[p] == Building
    ensures s'.files == if step.Download? && step.p == p then s.files[step.name := step.content] else s.files
  {
    assert Excludes(s, p, step.p) && PhaseOk(s, p);
  }

  // Sealed files are exactly what one process downloaded, by itself, since it cleared the directory.
  lemma {:induction false} BuilderAlone(run: seq<State>, steps: seq<Step>, i: nat, n: nat, p: nat)
    requires Run(run, steps) && i <= n < |run| && p < |run[0].procs|
    requires |run[i].procs| == |run[0].procs| && run[i].procs[p] == Building && run[i].files == map[]
    requires forall k :: i <= k < n ==> steps[k] != Die(p) && steps[k] != Seal(p)
    ensures |run[n].procs| == |run[0].procs| && run[n].procs[p] == Building
    ensures run[n].files == Written(steps[i..n], p)
    decreases n
  {
    RunInv(run, steps, n);
    hide Inv, Next, Init;
    if i < n {
      BuilderAlone(run, steps, i, n - 1, p);
      RunInv(run, steps, n - 1);
      BuilderStep(run[n - 1], run[n], steps[n - 1], p);
      WrittenSnoc(steps, i, n, p);
    } else {
      assert steps[i..n] == [];
    }
  }

  // The files that process p's downloads leave.
  function Written(steps: seq<Step>, p: nat): map<string, int>
  {
    if steps == [] then map[]
    else
      var rest := Written(steps[..|steps|-1], p);
      var last := steps[|steps|-1];
      if last.Download? && last.p == p then rest[last.name := last.content] else rest
  }

  lemma {:induction false} WrittenSnoc(steps: seq<Step>, i: nat, n: nat, p: nat)
    requires i < n <= |steps|
    ensures var last := steps[n - 1]; var before := Written(steps[i..n - 1], p);
            Written(steps[i..n], p) == if last.Download? && last.p == p then before[last.name := last.content]
              else before
  {
    assert steps[i..n][..n - 1 - i] == steps[i..n - 1];
  }

  // ---------------------------------------------------------------- nobody waits for ever

  ghost predicate Waits(f: Phase) { f == WantShared || f == WantExclusive || f == Gap }

  // Unless every process is out, one of them can go on without anybody dying.
  lemma NotStuck(s: State, p: nat) returns (step: Step, s': State)
    requires Inv(s) && p < |s.procs| && s.procs[p] != Out
    ensures Next(s, s', step) && !step.Die? && !step.Start?
  {
    if q: nat :| q < |s.procs| && s.procs[q] != Out && !Waits(s.procs[q]) {
      assert PhaseOk(s, q);
      match s.procs[q]
      case SharedCheck => step, s' := CheckShared(q), Goto(s, q, if s.sentinel then Skipping else WantExclusive);
      case ExclusiveCheck => step, s' := CheckExclusive(q), Goto(s, q, if s.sentinel then Downgrading else Clearing);
      case Downgrading => step, s' := DropExclusive(q), Goto(s, q, Gap);
      case Skipping => step, s' := Leave(q), Goto(s, q, Out);
      case Clearing =>
        if s.files == map[] {
          step, s' := Cleared(q), Goto(s, q, Building);
        } else {
          var name :| name in s.files;
          step, s' := Remove(q, name), s.(files := s.files - {name});
        }
      case Building => step, s' := Download(q, "config.json", 0), s.(files := s.files["config.json" := 0]);
      case Sealed => step, s' := Leave(q), Goto(s, q, Out);
    } else {
      assert Waits(s.procs[p]);
      match s.procs[p]
      case WantShared => step, s' := LockShared(p), Goto(s, p, SharedCheck);
      case WantExclusive => step, s' := LockExclusive(p), Goto(s, p, ExclusiveCheck);
      case Gap => step, s' := RelockShared(p), Goto(s, p, Skipping);
    }
  }
}

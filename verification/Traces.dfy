// A truthful trace of one batch: a task is finished once, with Success only when its bytes are in place, and
// no store ever touches a finished task.
module Traces {
  import opened Codes
  import opened Batches
  import opened Events

  ghost predicate DoneIn(trace: seq<Event>, k: nat)
  {
    exists i :: 0 <= i < |trace| && trace[i].Done? && trace[i].task == k
  }

  ghost predicate SucceededIn(trace: seq<Event>, k: nat)
  {
    exists i :: 0 <= i < |trace| && trace[i] == Done(k, Success)
  }

  // The bytes of the task are the last the thread stored in its window.
  ghost predicate InPlace(t: RangeTask, content: seq<int>, trace: seq<Event>)
  {
    t.size > 0 ==> Holds(trace, content, t.offset, t.dst + t.relative, t.size)
  }

  // Some task that has not been finished owns the address.
  ghost predicate OpenAt(tasks: seq<RangeTask>, trace: seq<Event>, a: nat)
  {
    exists k: nat :: k < |tasks| && Window(tasks[k], a) && !DoneIn(trace, k)
  }

  ghost predicate EventOk(tasks: seq<RangeTask>, content: seq<int>, before: seq<Event>, e: Event)
  {
    match e
    case Stored(at, bytes) => forall a: nat :: at <= a < at + |bytes| ==> OpenAt(tasks, before, a)
    case Done(k, code) => k < |tasks| && !DoneIn(before, k) && (code == Success ==> InPlace(tasks[k], content, before))
  }

  ghost predicate Good(tasks: seq<RangeTask>, content: seq<int>, trace: seq<Event>)
  {
    forall i :: 0 <= i < |trace| ==> EventOk(tasks, content, trace[..i], trace[i])
  }

  ghost predicate AllDone(tasks: seq<RangeTask>, trace: seq<Event>)
  {
    forall k: nat :: k < |tasks| ==> DoneIn(trace, k)
  }

  lemma GoodNext(tasks: seq<RangeTask>, content: seq<int>, trace: seq<Event>, e: Event)
    requires Good(tasks, content, trace) && EventOk(tasks, content, trace, e)
    ensures Good(tasks, content, trace + [e])
  {
    hide EventOk;
    forall i | 0 <= i < |trace + [e]| ensures EventOk(tasks, content, (trace + [e])[..i], (trace + [e])[i]) {
      assert (trace + [e])[..i] == trace[..i];
      if i == |trace| {
        assert trace[..i] == trace;
      }
    }
  }

  lemma SameDone(trace: seq<Event>, e: Event)
    requires e.Stored?
    ensures forall k: nat :: DoneIn(trace + [e], k) <==> DoneIn(trace, k)
    ensures forall k: nat :: SucceededIn(trace + [e], k) <==> SucceededIn(trace, k)
  {
    forall k: nat | DoneIn(trace, k) ensures DoneIn(trace + [e], k) {
      var i :| 0 <= i < |trace| && trace[i].Done? && trace[i].task == k;
      assert (trace + [e])[i] == trace[i];
    }
    forall k: nat | SucceededIn(trace, k) ensures SucceededIn(trace + [e], k) {
      var i :| 0 <= i < |trace| && trace[i] == Done(k, Success);
      assert (trace + [e])[i] == trace[i];
    }
  }

  // Stores into open places keep a trace truthful.
  lemma {:induction false} GoodStores(tasks: seq<RangeTask>, content: seq<int>, before: seq<Event>, after: seq<Event>,
                                      lo: nat, hi: nat)
    requires Good(tasks, content, before) && StoresIn(before, after, lo, hi)
    requires forall a: nat :: lo <= a < hi ==> OpenAt(tasks, before, a)
    ensures Good(tasks, content, after)
    ensures forall k: nat :: DoneIn(after, k) <==> DoneIn(before, k)
    ensures forall k: nat :: SucceededIn(after, k) <==> SucceededIn(before, k)
    decreases |after|
  {
    hide Good, DoneIn, SucceededIn;
    if |before| < |after| {
      var front, e := after[..|after|-1], after[|after|-1];
      assert StoresIn(before, front, lo, hi) && after == front + [e] && e.Stored? && lo <= e.at
        && e.at + |e.bytes| <= hi;
      GoodStores(tasks, content, before, front, lo, hi);
      SameDone(front, e);
      forall a: nat | e.at <= a < e.at + |e.bytes| ensures OpenAt(tasks, front, a) {
        assert OpenAt(tasks, before, a);
      }
      GoodNext(tasks, content, front, e);
    } else {
      assert before == after;
    }
  }
}

// What one thread does, in order: its stores to memory and the tasks it finishes. Everything is said of the
// thread's own events, so it holds whatever other threads do to memory elsewhere in the meantime.
module Events {
  import opened Codes

  datatype Event = Stored(at: nat, bytes: seq<int>) | Done(task: nat, code: ResponseCode)

  // What the thread itself stored at an address last.
  datatype Cell = Untouched | Byte(value: int)

  function Last(trace: seq<Event>, a: nat): Cell
  {
    if trace == [] then Untouched
    else
      var e := trace[|trace|-1];
      if e.Stored? && e.at <= a < e.at + |e.bytes| then Byte(e.bytes[a - e.at]) else Last(trace[..|trace|-1], a)
  }

  lemma {:induction false} LastNext(trace: seq<Event>, e: Event, a: nat)
    ensures Last(trace + [e], a) ==
            if e.Stored? && e.at <= a < e.at + |e.bytes| then Byte(e.bytes[a - e.at]) else Last(trace, a)
  {
    assert (trace + [e])[..|trace|] == trace;
  }

  // The events added are stores to [lo, hi).
  ghost predicate StoresIn(before: seq<Event>, after: seq<Event>, lo: nat, hi: nat)
  {
    && before <= after
    && forall i :: |before| <= i < |after| ==>
      after[i].Stored? && lo <= after[i].at && after[i].at + |after[i].bytes| <= hi
  }

  lemma {:induction false} StoresElsewhere(before: seq<Event>, after: seq<Event>, lo: nat, hi: nat, a: nat)
    requires StoresIn(before, after, lo, hi) && !(lo <= a < hi)
    ensures Last(after, a) == Last(before, a)
    decreases |after|
  {
    if |before| < |after| {
      var front := after[..|after|-1];
      assert StoresIn(before, front, lo, hi);
      StoresElsewhere(before, front, lo, hi, a);
    } else {
      assert before == after;
    }
  }

  // n bytes of the file from `position` on are at `dst`.
  ghost predicate Holds(trace: seq<Event>, content: seq<int>, position: nat, dst: nat, n: nat)
  {
    position + n <= |content| && forall a: nat :: dst <= a < dst + n ==>
      Last(trace, a) == Byte(content[position + (a - dst)])
  }

  lemma HoldsKept(before: seq<Event>, after: seq<Event>, lo: nat, hi: nat, content: seq<int>, position: nat, dst: nat,
                  n: nat)
    requires Holds(before, content, position, dst, n) && StoresIn(before, after, lo, hi) && (dst + n <= lo || hi <= dst)
    ensures Holds(after, content, position, dst, n)
  {
    forall a: nat | dst <= a < dst + n ensures Last(after, a) == Byte(content[position + (a - dst)]) {
      StoresElsewhere(before, after, lo, hi, a);
    }
  }

  lemma HoldsMore(trace: seq<Event>, content: seq<int>, position: nat, dst: nat, n: nat, m: nat)
    requires n > 0 ==> Holds(trace, content, position, dst, n)
    requires m > 0 && Holds(trace, content, position + n, dst + n, m)
    ensures Holds(trace, content, position, dst, n + m)
  {
    forall a: nat | dst <= a < dst + n + m ensures Last(trace, a) == Byte(content[position + (a - dst)]) {
      if a >= dst + n {
        assert Last(trace, a) == Byte(content[position + n + (a - (dst + n))]);
      }
    }
  }
}

// The registry of live submissions: how many responses each still has to consume.
module Submissions {

  const ID_WIDTH: nat := 0x1_0000_0000_0000_0000

  datatype Outcome = Pending | Completed

  ghost predicate Usable(id: nat, live: map<nat, nat>)
  {
    0 < id < ID_WIDTH && id !in live
  }

  ghost predicate Positive(i: nat) { i > 0 }

  ghost function UpTo(n: nat): set<nat> { set i: nat | i < n && Positive(i) }

  lemma {:induction false} UpToSize(n: nat)
    requires n > 0
    ensures |UpTo(n)| == n - 1
  {
    if n == 1 {
      assert UpTo(1) == {};
    } else {
      UpToSize(n - 1);
      assert UpTo(n) == UpTo(n - 1) + {n - 1};
    }
  }

  lemma {:induction false} Smaller(a: set<nat>, b: set<nat>)
    requires a <= b
    ensures |a| <= |b|
  {
    if a != {} {
      var x :| x in a;
      Smaller(a - {x}, b - {x});
    }
  }

  // Fewer live submissions than ids leave one to use.
  lemma SomeUsable(live: map<nat, nat>)
    requires |live| < ID_WIDTH - 1
    ensures exists id :: Usable(id, live)
  {
    UpToSize(ID_WIDTH);
    assert |live.Keys| == |live|;
    if forall id: nat :: !Usable(id, live) {
      forall id | id in UpTo(ID_WIDTH) ensures id in live.Keys {
        assert !Usable(id, live);
      }
      Smaller(UpTo(ID_WIDTH), live.Keys);
    }
  }

  // How many steps of the wrapping counter it takes from one id to another.
  ghost function Steps(from: nat, to: nat): int
  {
    if to >= from then to - from else to - from + ID_WIDTH
  }

  class SubmissionsMgr {
    var nextId: nat
    var submissions: map<nat, nat>

    ghost predicate Valid()
      reads this
    {
      nextId < ID_WIDTH && 0 !in submissions && forall id :: id in submissions ==> submissions[id] > 0
    }

    constructor ()
      ensures Valid() && submissions == map[]
    {
      nextId := 1;
      submissions := map[];
    }

    // _next_id++ on an unsigned 64-bit counter
    method Bump() returns (id: nat)
      requires nextId < ID_WIDTH
      modifies this`nextId
      ensures id == old(nextId) && nextId == if id + 1 == ID_WIDTH then 0 else id + 1
    {
      id := nextId;
      nextId := if nextId + 1 == ID_WIDTH then 0 else nextId + 1;
    }

    // Never zero, never a live id: the first such from the counter on, so an id just freed does not come back
    // until the counter has come round. The search ends because some id is free.
    method Generate() returns (id: nat)
      requires Valid() && |submissions| < ID_WIDTH - 1
      modifies this`nextId
      ensures Valid() && Usable(id, submissions)
      ensures nextId == if id + 1 == ID_WIDTH then 0 else id + 1
      ensures forall x :: Usable(x, submissions) ==> Steps(old(nextId), id) <= Steps(old(nextId), x)
    {
      SomeUsable(submissions);
      ghost var free :| Usable(free, submissions);
      id := Bump();
      if id == 0 {
        id := Bump();
      }
      while id in submissions
        invariant Valid() && 0 < id < ID_WIDTH
        invariant nextId == if id + 1 == ID_WIDTH then 0 else id + 1
        invariant forall x :: Usable(x, submissions) ==> Steps(old(nextId), id) <= Steps(old(nextId), x)
        decreases Steps(id, free)
      {
        id := Bump();
        if id == 0 {
          id := Bump();
        }
      }
    }

    method Add(id: nat, expected: nat)
      requires Valid() && Usable(id, submissions) && expected > 0
      modifies this`submissions
      ensures Valid() && submissions == old(submissions)[id := expected]
    {
      submissions := submissions[id := expected];
    }

    method Consume(id: nat) returns (outcome: Outcome)
      requires Valid() && id in submissions
      modifies this`submissions
      ensures Valid()
      ensures outcome == Completed <==> old(submissions)[id] == 1
      ensures submissions ==
              if outcome == Completed then old(submissions) - {id}
              else old(submissions)[id := old(submissions)[id] - 1]
    {
      var left := submissions[id] - 1;
      if left == 0 {
        submissions := submissions - {id};
        return Completed;
      }
      submissions := submissions[id := left];
      return Pending;
    }
  }
}

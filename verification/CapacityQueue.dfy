// A credit-bounded FIFO of items waiting to be submitted.
module CapacityQueues {

  import opened Options

  datatype Entry<T> = Entry(item: T, cost: nat)

  class CapacityQueue<T> {
    const capacity: nat
    var inflight: nat
    var pending: seq<Entry<T>>

    constructor (capacity: nat)
      ensures this.capacity == capacity && inflight == 0 && pending == []
    {
      this.capacity := capacity;
      inflight := 0;
      pending := [];
    }

    method Enqueue(item: T, cost: nat)
      modifies this`pending
      ensures pending == old(pending) + [Entry(item, cost)]
    {
      pending := pending + [Entry(item, cost)];
    }

    // The window is full for the next item. An item is never refused when nothing is in flight.
    predicate Full()
      reads this
    {
      pending != [] && inflight != 0 && inflight + pending[0].cost > capacity
    }

    method TryTake() returns (r: Option<T>)
      modifies this
      ensures r.None? <==> old(pending == [] || Full())
      ensures r.None? ==> pending == old(pending) && inflight == old(inflight)
      ensures r.Some? ==>
                && old(pending) == [Entry(r.value, old(pending)[0].cost)] + pending
                && inflight == old(inflight) + old(pending)[0].cost
    {
      if pending == [] {
        return None;
      }
      var cost := pending[0].cost;
      if inflight != 0 && inflight + cost > capacity {
        return None;
      }
      r := Some(pending[0].item);
      inflight := inflight + cost;
      pending := pending[1..];
    }

    method Complete(cost: nat)
      modifies this`inflight
      ensures inflight == if old(inflight) >= cost then old(inflight) - cost else 0
    {
      inflight := if inflight >= cost then inflight - cost else 0;
    }

    method Clear()
      modifies this
      ensures pending == [] && inflight == 0
    {
      pending := [];
      inflight := 0;
    }

    predicate Idle()
      reads this
    {
      pending == [] && inflight == 0
    }
  }
}

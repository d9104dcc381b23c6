// The responder: many producers, one consumer, a lock and a semaphore. Each method below is one atomic
// piece of the source's operations (a lock body, a semaphore post or wait), so they can interleave.
module SharedQueues {
  import opened Codes

  datatype Response = Response(id: nat, ret: ResponseCode)

  datatype Mode = FinishOnDrain | Persistent

  // The fields of a queue, as a value.
  datatype Queue = Queue(mode: Mode, running: nat, responses: seq<Response>, ready: nat, stopped: bool,
    unexpected: bool)

  // ---------------------------------------------------------------- the atomic pieces, on values

  // push: the lock body. The flag says whether a post has to follow.
  function Accept(q: Queue, r: Response): (Queue, bool)
  {
    if q.stopped then (q, false)
    else if q.running > 0 then (q.(responses := q.responses + [r], running := q.running - 1), true)
    else (q.(unexpected := true), false)
  }

  // stop: the lock body. Only the first one posts.
  function Stopped(q: Queue): (Queue, bool)
  {
    (q.(stopped := true), !q.stopped)
  }

  predicate Drained(q: Queue) { q.running == 0 && q.responses == [] }

  // pop: what is decided before waiting.
  predicate EndsAtEntry(q: Queue) { q.stopped || (q.mode == FinishOnDrain && Drained(q)) }

  class SharedQueue {
    const mode: Mode
    var running: nat
    var responses: seq<Response>
    var ready: nat
    var stopped: bool
    var unexpected: bool

    function View(): Queue
      reads this
    {
      Queue(mode, running, responses, ready, stopped, unexpected)
    }

    constructor (running: nat, mode: Mode)
      ensures View() == Queue(mode, running, [], 0, false, false)
    {
      this.mode := mode;
      this.running := running;
      responses, ready, stopped, unexpected := [], 0, false, false;
    }

    method Increment(n: nat)
      modifies this`running
      ensures View() == old(View()).(running := old(running) + n)
    {
      running := running + n;
    }

    method PushLocked(r: Response) returns (post: bool)
      modifies this
      ensures (View(), post) == Accept(old(View()), r)
    {
      if stopped {
        return false;
      }
      if running > 0 {
        responses := responses + [r];
        running := running - 1;
        return true;
      }
      unexpected := true;
      return false;
    }

    method Post()
      modifies this`ready
      ensures View() == old(View()).(ready := old(ready) + 1)
    {
      ready := ready + 1;
    }

    method StopLocked() returns (post: bool)
      modifies this`stopped
      ensures (View(), post) == Stopped(old(View()))
    {
      post := !stopped;
      stopped := true;
    }

    predicate Finished()
      reads this
    {
      running == 0 && responses == []
    }

    method PopEntry() returns (ends: bool)
      ensures ends == EndsAtEntry(View())
    {
      if stopped {
        return true;
      }
      return mode == FinishOnDrain && Finished();
    }

    // A wait that came back with a token; without one it blocks or times out.
    method Take() returns (taken: bool)
      modifies this`ready
      ensures taken == (old(ready) > 0)
      ensures View() == old(View()).(ready := if taken then old(ready) - 1 else old(ready))
    {
      if ready == 0 {
        return false;
      }
      ready := ready - 1;
      return true;
    }

    // The lock body of pop. A woken consumer of a queue that is not stopped must find a response.
    method PopLocked() returns (r: Response)
      requires stopped || responses != []
      modifies this`responses
      ensures old(stopped) ==> r.ret == FinishedError && View() == old(View())
      ensures !old(stopped) ==> old(responses) == [r] + responses && View() == old(View()).(responses := responses)
    {
      if stopped {
        return Response(0, FinishedError);
      }
      r := responses[0];
      responses := responses[1..];
    }
  }
}

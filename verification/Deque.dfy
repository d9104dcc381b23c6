// The thread pool's queue: a lock and a semaphore. Each method below is one atomic piece of the source's
// operations (a lock body, a semaphore post or wait), so they can interleave.
module Deques {

  // The fields of a queue, as a value.
  datatype Queue = Queue(tokens: nat, messages: seq<nat>, stopped: bool)

  // ---------------------------------------------------------------- the atomic pieces, on values

  function Posted(q: Queue): Queue { q.(tokens := q.tokens + 1) }

  // A wait that comes back.
  function Waited(q: Queue): Queue
    requires q.tokens > 0
  {
    q.(tokens := q.tokens - 1)
  }

  function Pushed(q: Queue, m: nat): Queue { q.(messages := q.messages + [m]) }

  function Popped(q: Queue): Queue
    requires q.messages != []
  {
    q.(messages := q.messages[1..])
  }

  class Deque {
    var tokens: nat
    var messages: seq<nat>
    var stopped: bool

    function View(): Queue
      reads this
    {
      Queue(tokens, messages, stopped)
    }

    constructor ()
      ensures View() == Queue(0, [], false)
    {
      tokens, messages, stopped := 0, [], false;
    }

    method Post()
      modifies this`tokens
      ensures View() == Posted(old(View()))
    {
      tokens := tokens + 1;
    }

    // push: the lock body. Nobody pushes to a stopped queue.
    method PushLocked(m: nat)
      requires !stopped
      modifies this`messages
      ensures View() == Pushed(old(View()), m)
    {
      messages := messages + [m];
    }

    method TryWait() returns (taken: bool)
      modifies this`tokens
      ensures taken <==> old(tokens) > 0
      ensures View() == if taken then Waited(old(View())) else old(View())
    {
      if tokens == 0 {
        return false;
      }
      tokens := tokens - 1;
      return true;
    }

    // pop: the lock body. A queue that is not stopped must have a front.
    method PopLocked() returns (ok: bool, message: nat)
      requires stopped || messages != []
      modifies this`messages
      ensures ok <==> !old(stopped)
      ensures ok ==> message == old(messages[0]) && View() == Popped(old(View()))
      ensures !ok ==> View() == old(View())
    {
      if stopped {
        return false, 0;
      }
      message := messages[0];
      messages := messages[1..];
      return true, message;
    }

    // try_pop: the lock body. A token that stop() posted goes back.
    method TryPopLocked() returns (ok: bool, message: nat)
      requires stopped || messages != []
      modifies this`messages, this`tokens
      ensures ok <==> !old(stopped)
      ensures ok ==> message == old(messages[0]) && View() == Popped(old(View()))
      ensures !ok ==> View() == Posted(old(View()))
    {
      if stopped {
        Post();
        return false, 0;
      }
      message := messages[0];
      messages := messages[1..];
      return true, message;
    }

    // stop: the lock body. Messages left are dropped; the posts follow one by one.
    method StopLocked()
      modifies this`stopped
      ensures View() == old(View()).(stopped := true)
    {
      stopped := true;
    }
  }
}

// Reading a file descriptor in chunks, through partial reads, interruptions and end of file.
module Fd {
  import opened Events

  // The thread's record of what it did to memory.
  class Arena {
    var trace: seq<Event>

    constructor ()
      ensures trace == []
    {
      trace := [];
    }
  }

  // ---------------------------------------------------------------- the operating system

  // The open file: reads advance the position, may return fewer bytes than asked for, may be interrupted
  // (finitely often) and may fail. Only a read at or past the end returns zero bytes.
  class Device {
    const content: seq<int>
    var position: nat
    var interruptions: nat
    ghost var failed: bool

    constructor (content: seq<int>, interruptions: nat)
      ensures this.content == content && position == 0 && !failed
    {
      this.content := content;
      position := 0;
      this.interruptions := interruptions;
      failed := false;
    }

    // `count` is the byte count, or -1 with errno in `interrupted`.
    method OsRead(arena: Arena, dst: nat, size: nat) returns (count: int, interrupted: bool)
      requires size > 0
      modifies this, arena
      ensures -1 <= count <= size
      ensures count <= 0 ==> arena.trace == old(arena.trace) && position == old(position)
      ensures count == 0 ==> position >= |content|
      ensures count > 0 ==> position == old(position) + count <= |content|
      ensures count > 0 ==>
          arena.trace == old(arena.trace) + [Stored(dst, content[old(position)..old(position) + count])]
      ensures count >= 0 ==> failed == old(failed) && interruptions == old(interruptions)
      ensures count == -1 && interrupted ==> failed == old(failed) && interruptions < old(interruptions)
      ensures count == -1 && !interrupted ==> failed
    {
      var interrupt: bool := *;
      if interrupt && interruptions > 0 {
        interruptions := interruptions - 1;
        return -1, true;
      }
      if position >= |content| {
        return 0, false;
      }
      var fails: bool := *;
      if fails {
        failed := true;
        return -1, false;
      }
      var n: nat :| 1 <= n <= size && position + n <= |content|;
      arena.trace := arena.trace + [Stored(dst, content[position..position + n])];
      position := position + n;
      return n, false;
    }
  }

  // ---------------------------------------------------------------- Fd::read

  datatype Mode = Exactly | UpTo | Eof

  datatype ReadResult = Total(bytes: nat) | Failure

  lemma CopyMore(t0: seq<Event>, t1: seq<Event>, content: seq<int>, position: nat, dst: nat, total: nat, n: nat)
    requires total > 0 ==> Holds(t1, content, position, dst, total)
    requires StoresIn(t0, t1, dst, dst + total) && n > 0 && position + total + n <= |content|
    ensures var t2 := t1 + [Stored(dst + total, content[position + total..position + total + n])];
            Holds(t2, content, position, dst, total + n) && StoresIn(t0, t2, dst, dst + total + n)
  {
    var bytes := content[position + total..position + total + n];
    var t2 := t1 + [Stored(dst + total, bytes)];
    forall a: nat
      ensures Last(t2, a) ==
              if dst + total <= a < dst + total + n then Byte(content[position + (a - dst)]) else Last(t1, a)
    {
      LastNext(t1, Stored(dst + total, bytes), a);
    }
  }

  // No event added stores more than a chunk.
  ghost predicate InChunks(before: seq<Event>, after: seq<Event>, chunk: nat)
  {
    forall i :: |before| <= i < |after| && after[i].Stored? ==> |after[i].bytes| <= chunk
  }

  lemma StartsEmpty(trace: seq<Event>, dst: nat, chunk: nat)
    ensures InChunks(trace, trace, chunk) && StoresIn(trace, trace, dst, dst)
  {
  }

  lemma StoresWithin(before: seq<Event>, after: seq<Event>, lo: nat, hi: nat, top: nat)
    requires StoresIn(before, after, lo, hi) && hi <= top
    ensures StoresIn(before, after, lo, top)
  {
  }

  lemma OneMoreChunk(before: seq<Event>, trace: seq<Event>, at: nat, bytes: seq<int>, chunk: nat)
    requires InChunks(before, trace, chunk) && |bytes| <= chunk
    ensures InChunks(before, trace + [Stored(at, bytes)], chunk)
  {
  }

  // Reads `size` bytes unless the file ends or the device fails; what was read is in place, and nothing
  // beyond it is touched.
  method Read(fd: Device, arena: Arena, size: nat, dst: nat, mode: Mode, chunk: nat) returns (r: ReadResult)
    requires chunk > 0
    modifies fd, arena
    ensures r.Total? ==>
              && r.bytes <= size && fd.position == old(fd.position) + r.bytes
              && (r.bytes > 0 ==> Holds(arena.trace, fd.content, old(fd.position), dst, r.bytes))
              && StoresIn(old(arena.trace), arena.trace, dst, dst + r.bytes)
              && fd.failed == old(fd.failed)
    ensures r.Total? && r.bytes < size ==>
              match mode { case Exactly => false case UpTo => r.bytes > 0 case Eof => fd.position >= |fd.content| }
    ensures r.Failure? ==> size > 0 && StoresIn(old(arena.trace), arena.trace, dst, dst + size - 1)
    ensures r.Total? && mode == UpTo ==> |arena.trace| <= |old(arena.trace)| + 1
    ensures InChunks(old(arena.trace), arena.trace, chunk)
    ensures r.Failure? ==> fd.failed || (mode != Eof && fd.position >= |fd.content|)
  {
    hide InChunks, Holds, StoresIn;
    StartsEmpty(arena.trace, dst, chunk);
    var total := 0;
    while total < size
      invariant total <= size && fd.position == old(fd.position) + total
      invariant total > 0 ==> fd.position <= |fd.content|
      invariant total > 0 ==> Holds(arena.trace, fd.content, old(fd.position), dst, total)
      invariant StoresIn(old(arena.trace), arena.trace, dst, dst + total)
      invariant fd.failed == old(fd.failed)
      invariant mode == UpTo ==> arena.trace == old(arena.trace)
      invariant InChunks(old(arena.trace), arena.trace, chunk)
      decreases size - total, fd.interruptions
    {
      ghost var before := arena.trace;
      StoresWithin(old(arena.trace), before, dst, dst + total, dst + size - 1);
      var ask := if chunk < size - total then chunk else size - total;
      var count, interrupted := fd.OsRead(arena, dst + total, ask);
      if count == -1 {
        if interrupted {
          continue;
        }
        return Failure;
      }
      if count == 0 {
        if mode == Eof {
          break;
        }
        return Failure;
      }
      CopyMore(old(arena.trace), before, fd.content, old(fd.position), dst, total, count);
      OneMoreChunk(old(arena.trace), before, dst + total, fd.content[fd.position - count..fd.position], chunk);
      total := total + count;
      if mode == UpTo {
        break;
      }
    }
    r := Total(total);
  }
}

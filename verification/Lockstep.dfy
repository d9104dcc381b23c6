// Round-based broadcasting: every rank follows the same sequence of collectives without coordination.
module Lockstep {
  import opened Seqs
  import opened Staging

  // arrivals[r]: the chunks of rank r, in the order its storage layer delivers them.
  datatype World = World(arrivals: seq<seq<Chunk>>, params: seq<Params>)

  function Size(w: World): nat { |w.arrivals| }

  // The buffer takes the largest chunk and is aligned; a batch may hold at least one chunk.
  ghost predicate Good(w: World)
  {
    && |w.params| == |w.arrivals|
    && forall r :: 0 <= r < |w.arrivals| ==>
         && w.params[r].maxChunks > 0 && AlignedAt(w.params[r].base, 0, w.params[r].alignment)
         && forall i :: 0 <= i < |w.arrivals[r]| ==> |w.arrivals[r][i].bytes| <= w.params[r].buffer
  }

  // ---------------------------------------------------------------- what each round holds

  // Rank r's chunks at the start of round k.
  function Rest(w: World, r: nat, k: nat): seq<Chunk>
    requires Good(w) && r < Size(w)
    decreases k, 0
  {
    if k == 0 then w.arrivals[r]
    else
      PackedFacts(Rest(w, r, k - 1), 0, w.params[r].maxChunks, w.params[r]);
      Rest(w, r, k - 1)[|BatchAt(w, r, k - 1)|..]
  }

  function BatchAt(w: World, r: nat, k: nat): seq<Placed>
    requires Good(w) && r < Size(w)
    decreases k, 1
  {
    Batch(Rest(w, r, k), w.params[r])
  }

  // Chunks of the first n ranks at the start of round k, and in their batches of round k.
  function Left(w: World, k: nat, n: nat): nat
    requires Good(w) && n <= Size(w)
  {
    if n == 0 then 0 else Left(w, k, n - 1) + |Rest(w, n - 1, k)|
  }

  function Sent(w: World, k: nat, n: nat): nat
    requires Good(w) && n <= Size(w)
  {
    if n == 0 then 0 else Sent(w, k, n - 1) + |BatchAt(w, n - 1, k)|
  }

  // What a rank has yielded when it reaches rank b's turn in round k.
  function Yields(w: World, k: nat, b: nat): seq<Chunk>
    requires Good(w) && b <= Size(w)
    decreases k, b
  {
    if b > 0 then Yields(w, k, b - 1) + ChunksOf(BatchAt(w, b - 1, k))
    else if k > 0 then Yields(w, k - 1, Size(w))
    else []
  }

  lemma RestShrinks(w: World, r: nat, k: nat)
    requires Good(w) && r < Size(w)
    ensures |BatchAt(w, r, k)| <= |Rest(w, r, k)| && |Rest(w, r, k + 1)| == |Rest(w, r, k)| - |BatchAt(w, r, k)|
    ensures Rest(w, r, k) == ChunksOf(BatchAt(w, r, k)) + Rest(w, r, k + 1)
  {
    PackedFacts(Rest(w, r, k), 0, w.params[r].maxChunks, w.params[r]);
  }

  lemma {:induction false} LeftShrinks(w: World, k: nat, n: nat)
    requires Good(w) && n <= Size(w)
    ensures Sent(w, k, n) <= Left(w, k, n) && Left(w, k + 1, n) == Left(w, k, n) - Sent(w, k, n)
  {
    hide Rest, BatchAt, Good;
    if n > 0 {
      LeftShrinks(w, k, n - 1);
      RestShrinks(w, n - 1, k);
    }
  }

  lemma {:induction false} SentGrows(w: World, k: nat, m: nat, n: nat)
    requires Good(w) && m <= n <= Size(w)
    ensures Sent(w, k, m) <= Sent(w, k, n)
  {
    if m < n {
      SentGrows(w, k, m, n - 1);
    }
  }

  lemma {:induction false} RestFits(w: World, r: nat, k: nat)
    requires Good(w) && r < Size(w)
    ensures forall i :: 0 <= i < |Rest(w, r, k)| ==> |Rest(w, r, k)[i].bytes| <= w.params[r].buffer
  {
    if k > 0 {
      RestFits(w, r, k - 1);
      PackedFacts(Rest(w, r, k - 1), 0, w.params[r].maxChunks, w.params[r]);
    }
  }

  // While chunks are left anywhere, a round sends some.
  lemma {:induction false} RoundSends(w: World, k: nat, n: nat)
    requires Good(w) && n <= Size(w) && Left(w, k, n) > 0
    ensures Sent(w, k, n) > 0
  {
    if |Rest(w, n - 1, k)| > 0 {
      RestFits(w, n - 1, k);
      BatchMakesProgress(Rest(w, n - 1, k), w.params[n - 1]);
    } else {
      RoundSends(w, k, n - 1);
    }
  }

  // ---------------------------------------------------------------- the canonical sequence

  datatype Item = Item(round: nat, rank: nat, isData: bool)

  // The collectives before rank b's turn in round k: one for metadata per turn, one for data if there is any.
  function Canon(w: World, k: nat, b: nat): seq<Item>
    requires Good(w) && b <= Size(w)
    decreases k, b
  {
    if b > 0 then
      Canon(w, k, b - 1) + [Item(k, b - 1, false)] + if BatchAt(w, b - 1, k) != [] then [Item(k, b - 1, true)] else []
    else if k > 0 then Canon(w, k - 1, Size(w))
    else []
  }

  // Up to and including the metadata of rank b's turn, when `half`.
  function Upto(w: World, k: nat, b: nat, half: bool): seq<Item>
    requires Good(w) && b <= Size(w)
  {
    if half then Canon(w, k, b) + [Item(k, b, false)] else Canon(w, k, b)
  }

  lemma {:induction false} CanonPrefix(w: World, k: nat, b: nat, K: nat, B: nat)
    requires Good(w) && b <= Size(w) && B <= Size(w)
    requires k < K || (k == K && b <= B)
    ensures Canon(w, k, b) <= Canon(w, K, B)
    decreases K, B
  {
    hide BatchAt;
    if k == K && b == B {
    } else if B > 0 {
      CanonPrefix(w, k, b, K, B - 1);
    } else {
      CanonPrefix(w, k, b, K - 1, Size(w));
    }
  }

  lemma {:induction false} UptoPrefix(w: World, k: nat, b: nat, half: bool, K: nat)
    requires Good(w) && b <= Size(w) && (half ==> b < Size(w)) && k < K
    ensures Upto(w, k, b, half) <= Canon(w, K, 0)
  {
    hide BatchAt;
    CanonPrefix(w, k, b, K, 0);
    if half {
      CanonPrefix(w, k, b + 1, K, 0);
    }
  }

  // Wherever two ranks are, the sequences behind them agree.
  lemma Comparable(w: World, k: nat, b: nat, h: bool, k': nat, b': nat, h': bool, i: nat)
    requires Good(w) && b <= Size(w) && b' <= Size(w) && (h ==> b < Size(w)) && (h' ==> b' < Size(w))
    requires i < |Upto(w, k, b, h)| && i < |Upto(w, k', b', h')|
    ensures Upto(w, k, b, h)[i] == Upto(w, k', b', h')[i]
  {
    hide Canon;
    var K := if k < k' then k' + 1 else k + 1;
    UptoPrefix(w, k, b, h, K);
    UptoPrefix(w, k', b', h', K);
  }

  // ---------------------------------------------------------------- ranks and steps

  datatype Post = MetaPost(metas: seq<Meta>) | DataPost(data: seq<int>)

  // A collective as the group sees it: who sends and what.
  datatype Entry = Entry(root: nat, post: Post)

  datatype Pc = Top | Turn(b: nat) | Data(b: nat) | Finished | Failed

  datatype Rank = Rank(
    pc: Pc,
    round: nat,
    left: int,
    got: nat,
    queue: seq<Chunk>,
    batch: seq<Placed>,
    data: seq<int>,
    metas: seq<Meta>,
    yielded: seq<Chunk>,
    log: seq<Entry>)

  // What the last row of the received metadata says the data's length is.
  function Announced(metas: seq<Meta>): nat
  {
    if metas == [] then 0 else metas[|metas|-1].offset + metas[|metas|-1].size
  }

  function UnpackOrNothing(data: seq<int>, metas: seq<Meta>): seq<Chunk>
  {
    if forall j :: 0 <= j < |metas| ==> metas[j].offset + metas[j].size <= |data| then Unpack(data, metas) else []
  }

  ghost predicate Init(w: World, ranks: seq<Rank>)
    requires Good(w)
  {
    && |ranks| == Size(w)
    && forall r :: 0 <= r < |ranks| ==>
         ranks[r] == Rank(Top, 0, Left(w, 0, Size(w)), 0, w.arrivals[r], [], [], [], [], [])
  }

  // The next line of rank r, given what the others have posted. `data` is what prefill leaves in the buffer.
  ghost predicate RankStep(w: World, r: nat, ranks: seq<Rank>, x: Rank, y: Rank)
    requires Good(w) && r < Size(w) == |ranks|
  {
    match x.pc
    case Top =>
      if x.left > 0 then
        var batch := Batch(x.queue, w.params[r]);
        && |batch| <= |x.queue| && Holds(y.data, batch) && |y.data| == SizeOf(batch)
        && y == x.(pc := Turn(0), got := 0, batch := batch, queue := x.queue[|batch|..], data := y.data)
      else y == x.(pc := Finished)
    case Turn(b) =>
      if b >= Size(w) then
        y == if x.got == 0 && x.left > 0 then x.(pc := Failed) else x.(pc := Top, round := x.round + 1)
      else if b == r then
        y == x.(log := x.log + [Entry(r, MetaPost(MetasOf(x.batch)))], left := x.left - |x.batch|,
          got := x.got + |x.batch|,
                pc := if |x.batch| > 0 then Data(b) else Turn(b + 1))
      else
        && |ranks[b].log| > |x.log|
        && var e := ranks[b].log[|x.log|];
           y == if e.root == b && e.post.MetaPost? then
                  x.(log := x.log + [e], metas := e.post.metas, left := x.left - |e.post.metas|,
                    got := x.got + |e.post.metas|,
                     pc := if |e.post.metas| > 0 then Data(b) else Turn(b + 1))
                else x.(pc := Failed)
    case Data(b) =>
      if b >= Size(w) then y == x.(pc := Failed)
      else if b == r then
        y == x.(log := x.log + [Entry(r, DataPost(x.data))],
          yielded := x.yielded + UnpackOrNothing(x.data, MetasOf(x.batch)),
                pc := Turn(b + 1))
      else
        && |ranks[b].log| > |x.log|
        && var e := ranks[b].log[|x.log|];
           y == if e.root == b && e.post.DataPost? && |e.post.data| == Announced(x.metas) then
                  x.(log := x.log + [e], yielded := x.yielded + UnpackOrNothing(e.post.data, x.metas),
                    pc := Turn(b + 1))
                else x.(pc := Failed)
    case _ => false
  }

  ghost predicate Next(w: World, ranks: seq<Rank>, ranks': seq<Rank>, r: nat)
    requires Good(w)
  {
    && r < Size(w) == |ranks| == |ranks'|
    && ranks' == ranks[r := ranks'[r]]
    && RankStep(w, r, ranks, ranks[r], ranks'[r])
  }

  // ---------------------------------------------------------------- the invariant

  ghost predicate Matches(w: World, e: Entry, item: Item)
    requires Good(w) && item.rank < Size(w)
  {
    var batch := BatchAt(w, item.rank, item.round);
    && e.root == item.rank
    && if item.isData then e.post.DataPost? && |e.post.data| == SizeOf(batch) && Holds(e.post.data, batch)
       else e.post == MetaPost(MetasOf(batch))
  }

  ghost predicate LogOk(w: World, log: seq<Entry>, items: seq<Item>)
    requires Good(w)
  {
    |log| == |items| && forall i :: 0 <= i < |log| ==> items[i].rank < Size(w) && Matches(w, log[i], items[i])
  }

  function TurnOf(x: Rank): nat { if x.pc.Turn? || x.pc.Data? then x.pc.b else 0 }

  // The collectives behind a rank, by where it is.
  function Behind(w: World, x: Rank): seq<Item>
    requires Good(w) && TurnOf(x) <= Size(w)
  {
    Upto(w, x.round, TurnOf(x), x.pc.Data?)
  }

  ghost predicate InRound(w: World, r: nat, x: Rank)
    requires Good(w) && r < Size(w)
  {
    && Left(w, x.round, Size(w)) > 0
    && x.queue == Rest(w, r, x.round + 1) && x.batch == BatchAt(w, r, x.round)
    && |x.data| == SizeOf(x.batch) && Holds(x.data, x.batch)
  }

  // Everything local to a rank is a function of where it is.
  ghost predicate RankOk(w: World, r: nat, x: Rank)
    requires Good(w) && r < Size(w)
  {
    && TurnOf(x) <= Size(w) && LogOk(w, x.log, Behind(w, x))
    && x.yielded == Yields(w, x.round, TurnOf(x))
    && match x.pc
       case Top => x.left == Left(w, x.round, Size(w)) && x.queue == Rest(w, r, x.round)
       case Finished => x.left == Left(w, x.round, Size(w)) == 0 && x.queue == Rest(w, r, x.round)
       case Turn(b) => InRound(w, r, x) && x.got == Sent(w, x.round, b) && x.left == Left(w, x.round, Size(w)) - x.got
       case Data(b) =>
         && b < Size(w) && BatchAt(w, b, x.round) != [] && InRound(w, r, x)
         && x.got == Sent(w, x.round, b + 1) && x.left == Left(w, x.round, Size(w)) - x.got
         && (b != r ==> x.metas == MetasOf(BatchAt(w, b, x.round)))
       case Failed => false
  }

  ghost predicate Inv(w: World, ranks: seq<Rank>)
    requires Good(w)
  {
    |ranks| == Size(w) && forall r :: 0 <= r < |ranks| ==> RankOk(w, r, ranks[r])
  }

  // A rank waiting for rank b's collective finds the one the canonical sequence has there.
  lemma Received(w: World, ranks: seq<Rank>, r: nat, b: nat)
    requires Good(w) && Inv(w, ranks) && r < Size(w) && b < Size(w) && |ranks[b].log| > |ranks[r].log|
    requires (ranks[r].pc == Turn(b) || ranks[r].pc == Data(b))
    ensures Matches(w, ranks[b].log[|ranks[r].log|], Item(ranks[r].round, b, ranks[r].pc.Data?))
  {
    var x, y := ranks[r], ranks[b];
    var n := |x.log|;
    assert RankOk(w, r, x) && RankOk(w, b, y);
    hide BatchAt, Rest, Left, Yields, Sent, Matches;
    if x.pc == Turn(b) {
      Comparable(w, x.round, b, true, y.round, TurnOf(y), y.pc.Data?, n);
    } else {
      Comparable(w, x.round, b + 1, false, y.round, TurnOf(y), y.pc.Data?, n);
      assert Canon(w, x.round, b + 1)[n] == Item(x.round, b, true);
    }
    assert Behind(w, y)[n] == Item(x.round, b, x.pc.Data?);
  }

  lemma LogSnoc(w: World, log: seq<Entry>, items: seq<Item>, e: Entry, item: Item)
    requires Good(w) && LogOk(w, log, items) && item.rank < Size(w) && Matches(w, e, item)
    ensures LogOk(w, log + [e], items + [item])
  {
    hide Matches;
  }

  lemma InitInv(w: World, ranks: seq<Rank>)
    requires Good(w) && Init(w, ranks)
    ensures Inv(w, ranks)
  {
  }

  lemma FillKeeps(w: World, r: nat, ranks: seq<Rank>, x: Rank, y: Rank)
    requires Good(w) && r < Size(w) == |ranks| && RankOk(w, r, x) && x.pc == Top && RankStep(w, r, ranks, x, y)
    ensures RankOk(w, r, y)
  {
    hide LogOk, Left, Yields, Canon;
    RestShrinks(w, r, x.round);
  }

  lemma EndKeeps(w: World, r: nat, ranks: seq<Rank>, x: Rank, y: Rank)
    requires Good(w) && r < Size(w) == |ranks| && RankOk(w, r, x) && x.pc == Turn(Size(w))
        && RankStep(w, r, ranks, x, y)
    ensures RankOk(w, r, y)
  {
    hide LogOk, Rest, BatchAt, Left, Sent;
    RoundSends(w, x.round, Size(w));
    LeftShrinks(w, x.round, Size(w));
    assert Canon(w, x.round + 1, 0) == Canon(w, x.round, Size(w));
    assert Yields(w, x.round + 1, 0) == Yields(w, x.round, Size(w));
    assert y.pc == Top;
    assert Behind(w, y) == Behind(w, x);
    assert y.left == Left(w, y.round, Size(w));
  }

  lemma SendMetaKeeps(w: World, r: nat, ranks: seq<Rank>, x: Rank, y: Rank)
    requires Good(w) && r < Size(w) == |ranks| && RankOk(w, r, x) && x.pc == Turn(r) && RankStep(w, r, ranks, x, y)
    ensures RankOk(w, r, y)
  {
    hide LogOk, Rest, BatchAt, Left, Holds;
    LogSnoc(w, x.log, Behind(w, x), Entry(r, MetaPost(MetasOf(x.batch))), Item(x.round, r, false));
    if x.batch == [] {
      SilentTurn(w, x.round, r);
    }
  }

  // A rank without chunks sends its metadata only.
  lemma SilentTurn(w: World, k: nat, b: nat)
    requires Good(w) && b < Size(w) && BatchAt(w, b, k) == []
    ensures Canon(w, k, b + 1) == Canon(w, k, b) + [Item(k, b, false)]
    ensures Yields(w, k, b + 1) == Yields(w, k, b)
  {
  }

  lemma UnpackWhole(data: seq<int>, batch: seq<Placed>)
    requires Holds(data, batch)
    ensures UnpackOrNothing(data, MetasOf(batch)) == ChunksOf(batch)
  {
    UnpackHeld(data, batch);
    assert |MetasOf(batch)| == |batch|;
  }

  lemma SendDataKeeps(w: World, r: nat, ranks: seq<Rank>, x: Rank, y: Rank)
    requires Good(w) && r < Size(w) == |ranks| && RankOk(w, r, x) && x.pc == Data(r) && RankStep(w, r, ranks, x, y)
    ensures RankOk(w, r, y)
  {
    hide LogOk, Rest, BatchAt, Left, Unpack, MetasOf;
    LogSnoc(w, x.log, Behind(w, x), Entry(r, DataPost(x.data)), Item(x.round, r, true));
    UnpackWhole(x.data, x.batch);
    assert Behind(w, y) == Behind(w, x) + [Item(x.round, r, true)];
    assert y.yielded == Yields(w, y.round, r + 1);
  }

  lemma ReceiveMetaKeeps(w: World, r: nat, ranks: seq<Rank>, y: Rank, b: nat)
    requires Good(w) && Inv(w, ranks) && r < Size(w) && b < Size(w) && b != r
    requires ranks[r].pc == Turn(b) && RankStep(w, r, ranks, ranks[r], y)
    ensures RankOk(w, r, y)
  {
    var x := ranks[r];
    var e := ranks[b].log[|x.log|];
    assert RankOk(w, r, x);
    Received(w, ranks, r, b);
    hide LogOk, Rest, BatchAt, Left, Inv;
    LogSnoc(w, x.log, Behind(w, x), e, Item(x.round, b, false));
    if BatchAt(w, b, x.round) == [] {
      SilentTurn(w, x.round, b);
    }
  }

  lemma ReceiveDataKeeps(w: World, r: nat, ranks: seq<Rank>, y: Rank, b: nat)
    requires Good(w) && Inv(w, ranks) && r < Size(w) && b < Size(w) && b != r
    requires ranks[r].pc == Data(b) && RankStep(w, r, ranks, ranks[r], y)
    ensures RankOk(w, r, y)
  {
    var x := ranks[r];
    var e := ranks[b].log[|x.log|];
    assert RankOk(w, r, x);
    Received(w, ranks, r, b);
    hide LogOk, Rest, BatchAt, Left, Inv, Unpack;
    LogSnoc(w, x.log, Behind(w, x), e, Item(x.round, b, true));
    UnpackWhole(e.post.data, BatchAt(w, b, x.round));
    AnnouncedSize(BatchAt(w, b, x.round));
  }

  lemma AnnouncedSize(batch: seq<Placed>)
    ensures Announced(MetasOf(batch)) == SizeOf(batch)
  {
  }

  lemma StepKeeps(w: World, ranks: seq<Rank>, ranks': seq<Rank>, r: nat)
    requires Good(w) && Inv(w, ranks) && Next(w, ranks, ranks', r)
    ensures Inv(w, ranks')
  {
    var x, y := ranks[r], ranks'[r];
    assert RankOk(w, r, x);
    assert RankOk(w, r, y) by {
      assert x.pc != Finished && x.pc != Failed;
      hide RankStep, Inv;
      match x.pc
      case Top => FillKeeps(w, r, ranks, x, y);
      case Turn(b) =>
        if b == Size(w) {
          EndKeeps(w, r, ranks, x, y);
        } else if b == r {
          SendMetaKeeps(w, r, ranks, x, y);
        } else {
          ReceiveMetaKeeps(w, r, ranks, y, b);
        }
      case Data(b) =>
        if b == r {
          SendDataKeeps(w, r, ranks, x, y);
        } else {
          ReceiveDataKeeps(w, r, ranks, y, b);
        }
      case _ =>
    }
    hide RankOk;
  }

  // ---------------------------------------------------------------- runs

  // who[i] is the rank that takes step i.
  ghost predicate Run(w: World, run: seq<seq<Rank>>, who: seq<nat>)
    requires Good(w)
  {
    && |run| == |who| + 1 && Init(w, run[0])
    && forall i :: 0 <= i < |who| ==> Next(w, run[i], run[i + 1], who[i])
  }

  lemma {:induction false} RunInv(w: World, run: seq<seq<Rank>>, who: seq<nat>, n: nat)
    requires Good(w) && Run(w, run, who) && n < |run|
    ensures Inv(w, run[n])
  {
    hide Inv, Init, Next;
    if n == 0 {
      InitInv(w, run[0]);
    } else {
      RunInv(w, run, who, n - 1);
      StepKeeps(w, run[n - 1], run[n], who[n - 1]);
    }
  }

  function DataLength(p: Post): nat { if p.DataPost? then |p.data| else 0 }

  // The i-th collective of any two ranks has the same sender, the same kind and the same length, and
  // metadata is the same row for row.
  lemma SameCollectives(w: World, run: seq<seq<Rank>>, who: seq<nat>, n: nat, r: nat, q: nat, i: nat)
    requires Good(w) && Run(w, run, who) && n < |run| && r < Size(w) && q < Size(w)
    requires |run[n]| == Size(w) && i < |run[n][r].log| && i < |run[n][q].log|
    ensures var a, c := run[n][r].log[i], run[n][q].log[i];
            && a.root == c.root && a.post.DataPost? == c.post.DataPost?
            && DataLength(a.post) == DataLength(c.post)
            && (a.post.MetaPost? ==> a.post == c.post)
  {
    RunInv(w, run, who, n);
    var x, y := run[n][r], run[n][q];
    assert RankOk(w, r, x) && RankOk(w, q, y);
    hide Rest, BatchAt, Canon, Left;
    Comparable(w, x.round, TurnOf(x), x.pc.Data?, y.round, TurnOf(y), y.pc.Data?, i);
    assert Behind(w, x)[i] == Behind(w, y)[i];
    assert Matches(w, x.log[i], Behind(w, x)[i]) && Matches(w, y.log[i], Behind(w, y)[i]);
  }

  // No rank ever sees a collective it does not expect, runs out of chunks, or raises "No chunks to read".
  lemma NeverFails(w: World, run: seq<seq<Rank>>, who: seq<nat>, n: nat, r: nat)
    requires Good(w) && Run(w, run, who) && n < |run| && r < Size(w)
    ensures |run[n]| == Size(w) && run[n][r].pc != Failed
  {
    RunInv(w, run, who, n);
    assert RankOk(w, r, run[n][r]);
  }

  // All ranks that start the same round agree on how many chunks are left: those not yet broadcast.
  lemma {:induction false} SameChunksToRead(w: World, run: seq<seq<Rank>>, who: seq<nat>, n: nat, r: nat)
    requires Good(w) && Run(w, run, who) && n < |run| && r < Size(w)
    ensures |run[n]| == Size(w)
    ensures run[n][r].pc == Top ==> run[n][r].left == Left(w, run[n][r].round, Size(w))
  {
    RunInv(w, run, who, n);
    assert RankOk(w, r, run[n][r]);
  }

  // ---------------------------------------------------------------- what is yielded

  ghost function RestsAt(w: World, k: nat): seq<seq<Chunk>>
    requires Good(w)
  {
    seq(Size(w), r requires 0 <= r < Size(w) => Rest(w, r, k))
  }

  lemma {:induction false} RoundYields(w: World, k: nat, b: nat)
    requires Good(w) && b <= Size(w)
    ensures multiset(Yields(w, k, b)) + multiset(Flat(RestsAt(w, k + 1)[..b])) ==
            multiset(Yields(w, k, 0)) + multiset(Flat(RestsAt(w, k)[..b]))
  {
    if b > 0 {
      var chunks := ChunksOf(BatchAt(w, b - 1, k));
      assert Yields(w, k, b) == Yields(w, k, b - 1) + chunks;
      RestShrinks(w, b - 1, k);
      hide Rest, BatchAt, Flat, Yields;
      RoundYields(w, k, b - 1);
      TakeSnoc(RestsAt(w, k), b - 1);
      TakeSnoc(RestsAt(w, k + 1), b - 1);
      Combine(Yields(w, k, b - 1), chunks, Flat(RestsAt(w, k + 1)[..b - 1]), Rest(w, b - 1, k + 1), Yields(w, k, 0),
              Flat(RestsAt(w, k)[..b - 1]), Rest(w, b - 1, k));
    }
  }

  lemma Combine<T>(y: seq<T>, c: seq<T>, after: seq<T>, left: seq<T>, y0: seq<T>, before: seq<T>, whole: seq<T>)
    requires multiset(y) + multiset(after) == multiset(y0) + multiset(before) && whole == c + left
    ensures multiset(y + c) + multiset(after + left) == multiset(y0) + multiset(before + whole)
  {
    assert multiset(y + c) == multiset(y) + multiset(c);
    assert multiset(after + left) == multiset(after) + multiset(left);
    assert multiset(before + whole) == multiset(before) + (multiset(c) + multiset(left));
    var lhs, rhs := multiset(y + c) + multiset(after + left), multiset(y0) + multiset(before + whole);
    forall x ensures lhs[x] == rhs[x] {
      assert (multiset(y) + multiset(after))[x] == (multiset(y0) + multiset(before))[x];
    }
    assert lhs == rhs;
  }

  lemma TakeSnoc<T>(ss: seq<seq<T>>, i: nat)
    requires i < |ss|
    ensures Flat(ss[..i + 1]) == Flat(ss[..i]) + ss[i]
  {
    assert ss[..i + 1][..i] == ss[..i];
  }

  lemma {:induction false} FirstRound(w: World)
    requires Good(w)
    ensures multiset(Yields(w, 0, 0)) + multiset(Flat(RestsAt(w, 0))) == multiset(Flat(w.arrivals))
  {
    hide Flat, BatchAt;
    assert RestsAt(w, 0) == w.arrivals;
    assert Yields(w, 0, 0) == [];
  }

  lemma NextRound(w: World, k: nat)
    requires Good(w)
    ensures multiset(Yields(w, k + 1, 0)) + multiset(Flat(RestsAt(w, k + 1))) ==
        multiset(Yields(w, k, 0)) + multiset(Flat(RestsAt(w, k)))
  {
    assert Yields(w, k + 1, 0) == Yields(w, k, Size(w));
    assert RestsAt(w, k + 1)[..Size(w)] == RestsAt(w, k + 1);
    assert RestsAt(w, k)[..Size(w)] == RestsAt(w, k);
    hide Rest, BatchAt, Yields, Flat, RestsAt;
    RoundYields(w, k, Size(w));
  }

  // Yielded so far and still to come are together what there was.
  lemma {:induction false} YieldsConserve(w: World, k: nat)
    requires Good(w)
    ensures multiset(Yields(w, k, 0)) + multiset(Flat(RestsAt(w, k))) == multiset(Flat(w.arrivals))
  {
    hide Rest, BatchAt, Yields, Flat, RestsAt, Good;
    if k == 0 {
      FirstRound(w);
    } else {
      YieldsConserve(w, k - 1);
      NextRound(w, k - 1);
    }
  }

  lemma {:induction false} NoneLeft(w: World, k: nat, n: nat)
    requires Good(w) && n <= Size(w) && Left(w, k, n) == 0
    ensures Flat(RestsAt(w, k)[..n]) == []
  {
    if n > 0 {
      NoneLeft(w, k, n - 1);
      TakeSnoc(RestsAt(w, k), n - 1);
    }
  }

  // A rank that finishes has yielded every chunk of every rank exactly once, bytes and all.
  lemma YieldsEverything(w: World, run: seq<seq<Rank>>, who: seq<nat>, n: nat, r: nat)
    requires Good(w) && Run(w, run, who) && n < |run| && r < Size(w)
    ensures |run[n]| == Size(w)
    ensures run[n][r].pc == Finished ==> multiset(run[n][r].yielded) == multiset(Flat(w.arrivals))
  {
    RunInv(w, run, who, n);
    var x := run[n][r];
    assert RankOk(w, r, x);
    if x.pc == Finished {
      hide Rest, BatchAt;
      YieldsConserve(w, x.round);
      NoneLeft(w, x.round, Size(w));
      assert RestsAt(w, x.round)[..Size(w)] == RestsAt(w, x.round);
    }
  }

  // ---------------------------------------------------------------- no deadlock, no endless run

  ghost predicate WaitsFor(w: World, r: nat, x: Rank, b: nat)
  {
    b != r && b < Size(w) && (x.pc == Turn(b) || x.pc == Data(b))
  }

  lemma TopMoves(w: World, ranks: seq<Rank>, r: nat, x: Rank) returns (y: Rank)
    requires Good(w) && r < Size(w) == |ranks| && x.pc == Top
    ensures RankStep(w, r, ranks, x, y)
  {
    if x.left > 0 {
      var batch := Batch(x.queue, w.params[r]);
      PackedFacts(x.queue, 0, w.params[r].maxChunks, w.params[r]);
      hide Batch, Holds;
      var data := LayOut(batch);
      y := x.(pc := Turn(0), got := 0, batch := batch, queue := x.queue[|batch|..], data := data);
    } else {
      y := x.(pc := Finished);
    }
  }

  lemma TurnMoves(w: World, ranks: seq<Rank>, r: nat, x: Rank) returns (y: Rank)
    requires Good(w) && r < Size(w) == |ranks| && x.pc.Turn?
    requires x.pc.b < Size(w) && x.pc.b != r ==> |ranks[x.pc.b].log| > |x.log|
    ensures RankStep(w, r, ranks, x, y)
  {
    hide MetasOf;
    var b := x.pc.b;
    if b >= Size(w) {
      y := if x.got == 0 && x.left > 0 then x.(pc := Failed) else x.(pc := Top, round := x.round + 1);
    } else if b == r {
      y := x.(log := x.log + [Entry(r, MetaPost(MetasOf(x.batch)))], left := x.left - |x.batch|,
        got := x.got + |x.batch|,
              pc := if |x.batch| > 0 then Data(b) else Turn(b + 1));
    } else {
      var e := ranks[b].log[|x.log|];
      y := if e.root == b && e.post.MetaPost? then
             x.(log := x.log + [e], metas := e.post.metas, left := x.left - |e.post.metas|,
               got := x.got + |e.post.metas|,
                pc := if |e.post.metas| > 0 then Data(b) else Turn(b + 1))
           else x.(pc := Failed);
    }
  }

  lemma DataMoves(w: World, ranks: seq<Rank>, r: nat, x: Rank) returns (y: Rank)
    requires Good(w) && r < Size(w) == |ranks| && x.pc.Data? && x.pc.b < Size(w)
    requires x.pc.b != r ==> |ranks[x.pc.b].log| > |x.log|
    ensures RankStep(w, r, ranks, x, y)
  {
    hide MetasOf, UnpackOrNothing, Announced;
    var b := x.pc.b;
    if b == r {
      y := x.(log := x.log + [Entry(r, DataPost(x.data))],
        yielded := x.yielded + UnpackOrNothing(x.data, MetasOf(x.batch)),
              pc := Turn(b + 1));
    } else {
      var e := ranks[b].log[|x.log|];
      y := if e.root == b && e.post.DataPost? && |e.post.data| == Announced(x.metas) then
             x.(log := x.log + [e], yielded := x.yielded + UnpackOrNothing(e.post.data, x.metas), pc := Turn(b + 1))
           else x.(pc := Failed);
    }
  }

  // A rank that is not waiting for another one can take its next step.
  lemma NotWaitingMoves(w: World, ranks: seq<Rank>, r: nat) returns (y: Rank)
    requires Good(w) && Inv(w, ranks) && r < Size(w) && ranks[r].pc != Finished
    requires forall b: nat :: WaitsFor(w, r, ranks[r], b) ==> |ranks[b].log| > |ranks[r].log|
    ensures RankStep(w, r, ranks, ranks[r], y)
  {
    var x := ranks[r];
    assert RankOk(w, r, x);
    assert x.pc.Turn? || x.pc.Data? ==> x.pc.b < Size(w) && x.pc.b != r ==> WaitsFor(w, r, x, x.pc.b);
    assert x.pc != Failed && (x.pc.Data? ==> x.pc.b < Size(w));
    hide RankStep, RankOk;
    match x.pc
    case Top => y := TopMoves(w, ranks, r, x);
    case Turn(b) => y := TurnMoves(w, ranks, r, x);
    case Data(b) => y := DataMoves(w, ranks, r, x);
  }

  // Two ranks with equally long logs cannot wait for different senders.
  lemma SameSpot(w: World, ranks: seq<Rank>, r: nat, q: nat, b: nat, c: nat)
    requires Good(w) && Inv(w, ranks) && r < Size(w) && q < Size(w) && |ranks[r].log| == |ranks[q].log|
    requires WaitsFor(w, r, ranks[r], b) && WaitsFor(w, q, ranks[q], c)
    ensures b == c
  {
    var x, y := ranks[r], ranks[q];
    assert RankOk(w, r, x) && RankOk(w, q, y);
    hide BatchAt, Rest, Left, Yields, Sent, Matches;
    var n := |x.log|;
    Ahead(w, x, b);
    Ahead(w, y, c);
    var bX, hX := if x.pc == Turn(b) then b else b + 1, x.pc == Turn(b);
    var bY, hY := if y.pc == Turn(c) then c else c + 1, y.pc == Turn(c);
    Comparable(w, x.round, bX, hX, y.round, bY, hY, n);
  }

  // The collective a waiting rank waits for is the next one of the canonical sequence.
  lemma {:induction false} Ahead(w: World, x: Rank, b: nat)
    requires Good(w) && b < Size(w) && (x.pc == Turn(b) || (x.pc == Data(b) && BatchAt(w, b, x.round) != []))
    requires |x.log| == |Behind(w, x)|
    ensures var next := Upto(w, x.round, if x.pc == Turn(b) then b else b + 1, x.pc == Turn(b));
            |next| == |x.log| + 1 && next[|x.log|] == Item(x.round, b, x.pc.Data?)
  {
  }

  lemma {:induction false} LeftFalls(w: World, k: nat, K: nat)
    requires Good(w) && k <= K
    ensures Left(w, K, Size(w)) <= Left(w, k, Size(w))
  {
    hide Left, Rest, BatchAt;
    if k < K {
      LeftFalls(w, k, K - 1);
      LeftShrinks(w, K - 1, Size(w));
    }
  }

  // A finished rank has been through everything another rank still waits for.
  lemma FinishedIsAhead(w: World, ranks: seq<Rank>, r: nat, q: nat, b: nat)
    requires Good(w) && Inv(w, ranks) && r < Size(w) && q < Size(w)
    requires WaitsFor(w, r, ranks[r], b) && ranks[q].pc == Finished
    ensures |ranks[q].log| > |ranks[r].log|
  {
    var x, y := ranks[r], ranks[q];
    assert RankOk(w, r, x) && RankOk(w, q, y);
    hide BatchAt, Rest, Left, Yields, Sent, Matches;
    if y.round <= x.round {
      LeftFalls(w, y.round, x.round);
    }
    Ahead(w, x, b);
    if x.pc == Turn(b) {
      UptoPrefix(w, x.round, b, true, y.round);
    } else {
      UptoPrefix(w, x.round, b + 1, false, y.round);
    }
  }

  // An unfinished rank with the shortest log.
  lemma {:induction false} Slowest(ranks: seq<Rank>, n: nat) returns (r: nat)
    requires n <= |ranks| && exists q :: 0 <= q < n && ranks[q].pc != Finished
    ensures r < n && ranks[r].pc != Finished
    ensures forall q :: 0 <= q < n && ranks[q].pc != Finished ==> |ranks[r].log| <= |ranks[q].log|
  {
    if exists q :: 0 <= q < n - 1 && ranks[q].pc != Finished {
      r := Slowest(ranks, n - 1);
      if ranks[n - 1].pc != Finished && |ranks[n - 1].log| < |ranks[r].log| {
        r := n - 1;
      }
    } else {
      r := n - 1;
    }
  }

  // As long as a rank has not finished, some rank can move.
  lemma NeverStuck(w: World, run: seq<seq<Rank>>, who: seq<nat>, n: nat) returns (r: nat, y: Rank)
    requires Good(w) && Run(w, run, who) && n < |run| && |run[n]| == Size(w)
    requires exists q :: 0 <= q < Size(w) && run[n][q].pc != Finished
    ensures r < Size(w) && RankStep(w, r, run[n], run[n][r], y)
  {
    var ranks := run[n];
    RunInv(w, run, who, n);
    hide Inv, RankOk, RankStep, Run;
    r := Slowest(ranks, Size(w));
    if b: nat :| WaitsFor(w, r, ranks[r], b) && |ranks[b].log| <= |ranks[r].log| {
      if ranks[b].pc == Finished {
        FinishedIsAhead(w, ranks, r, b, b);
      }
      assert ranks[b].pc != Finished;
      forall c: nat | WaitsFor(w, b, ranks[b], c) ensures c == b {
        SameSpot(w, ranks, r, b, b, c);
      }
      r := b;
    }
    y := NotWaitingMoves(w, ranks, r);
  }

  // How much a rank has still to do.
  function ToDo(w: World, x: Rank): int
    requires Good(w)
  {
    var whole := Left(w, x.round, Size(w)) * (2 * Size(w) + 3);
    match x.pc
    case Top => whole + 1
    case Turn(b) => whole - 2 * b
    case Data(b) => whole - 2 * b - 1
    case _ => 0
  }

  lemma {:induction false} RoundBounds(w: World, r: nat, x: Rank)
    requires Good(w) && r < Size(w) && RankOk(w, r, x)
    ensures x.pc.Turn? || x.pc.Data? ==> Left(w, x.round, Size(w)) > 0 && x.pc.b <= Size(w)
    ensures x.pc.Data? ==> x.pc.b < Size(w)
    ensures x.pc == Turn(Size(w)) ==> Left(w, x.round + 1, Size(w)) + 1 <= Left(w, x.round, Size(w))
    ensures ToDo(w, x) >= 0 && (x.pc != Finished ==> ToDo(w, x) > 0)
  {
    hide LogOk, Rest, BatchAt, Left, Sent, Yields, Holds;
    if x.pc.Turn? || x.pc.Data? {
      AtLeastOnce(Left(w, x.round, Size(w)), 2 * Size(w) + 3);
    }
    if x.pc == Turn(Size(w)) {
      RoundSends(w, x.round, Size(w));
      LeftShrinks(w, x.round, Size(w));
    }
  }

  // Where a step takes a rank.
  lemma StepMoves(w: World, r: nat, ranks: seq<Rank>, x: Rank, y: Rank)
    requires Good(w) && r < Size(w) == |ranks| && RankStep(w, r, ranks, x, y) && y.pc != Failed
    ensures x.pc.Top? || x.pc.Turn? || x.pc.Data?
    ensures x.pc.Top? ==> y.round == x.round && (y.pc == Turn(0) || y.pc == Finished)
    ensures x.pc.Turn? && x.pc.b < Size(w) ==> y.round == x.round && (y.pc == Turn(x.pc.b + 1) || y.pc == Data(x.pc.b))
    ensures x.pc.Turn? && x.pc.b >= Size(w) ==> y.round == x.round + 1 && y.pc == Top
    ensures x.pc.Data? ==> y.round == x.round && y.pc == Turn(x.pc.b + 1)
  {
    hide Batch, Holds, Unpack, MetasOf, SizeOf;
  }

  // Every step brings its rank closer to the end, so no run goes on for ever.
  lemma StepsAreFinite(w: World, ranks: seq<Rank>, ranks': seq<Rank>, r: nat)
    requires Good(w) && Inv(w, ranks) && Next(w, ranks, ranks', r)
    ensures 0 <= ToDo(w, ranks'[r]) < ToDo(w, ranks[r])
    ensures forall q :: 0 <= q < Size(w) && q != r ==> ranks'[q] == ranks[q]
  {
    var x, y := ranks[r], ranks'[r];
    hide RankOk, Inv, Left, RankStep, ToDo;
    BothOk(w, ranks, ranks', r);
    StepMoves(w, r, ranks, x, y);
    RoundBounds(w, r, x);
    RoundBounds(w, r, y);
    Closer(w, x, y);
  }

  lemma BothOk(w: World, ranks: seq<Rank>, ranks': seq<Rank>, r: nat)
    requires Good(w) && Inv(w, ranks) && Next(w, ranks, ranks', r)
    ensures RankOk(w, r, ranks[r]) && RankOk(w, r, ranks'[r]) && ranks'[r].pc != Failed
  {
    StepKeeps(w, ranks, ranks', r);
  }

  lemma {:induction false} Closer(w: World, x: Rank, y: Rank)
    requires Good(w) && (x.pc.Top? || x.pc.Turn? || x.pc.Data?)
    requires x.pc.Top? ==> y.round == x.round && (y.pc == Turn(0) || y.pc == Finished)
    requires x.pc.Turn? && x.pc.b < Size(w) ==> y.round == x.round && (y.pc == Turn(x.pc.b + 1) || y.pc == Data(x.pc.b))
    requires x.pc.Turn? && x.pc.b >= Size(w) ==> y.round == x.round + 1 && y.pc == Top && x.pc == Turn(Size(w))
    requires x.pc.Data? ==> y.round == x.round && y.pc == Turn(x.pc.b + 1)
    requires x.pc == Turn(Size(w)) ==> Left(w, x.round + 1, Size(w)) + 1 <= Left(w, x.round, Size(w))
    requires ToDo(w, x) > 0
    ensures ToDo(w, y) < ToDo(w, x)
  {
    hide Left, Good;
    if x.pc == Turn(Size(w)) {
      OneLess(Left(w, x.round + 1, Size(w)), Left(w, x.round, Size(w)), 2 * Size(w) + 3);
    }
  }

  lemma AtLeastOnce(a: nat, m: nat)
    requires a > 0
    ensures a * m >= m
  {
  }

  lemma {:induction false} OneLess(a: nat, b: nat, m: nat)
    requires a + 1 <= b
    ensures a * m + m <= b * m
  {
    if a + 1 < b {
      OneLess(a, b - 1, m);
    }
  }
}

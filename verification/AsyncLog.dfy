/**
 * The double-buffered asynchronous logger: producers fill buffers under a mutex, one writer swaps them out, writes them
 * and hands emptied buffers back. A producer's locked section and each stage of the writer are one step.
 */
module AsyncLog {
  import opened Options
  import opened Bags

  type Message = nat

  /** FixedBuffer: its heap block, None after a move, and the messages in it. */
  datatype Buffer = Buffer(block: Option<nat>, items: seq<Message>)

  const MOVED := Buffer(None, [])

  /** A batch of more buffers than this is cut down to KEPT. */
  const LIMIT := 100
  const KEPT := 2

  /** What became of an accepted message. */
  datatype Entry = Entry(message: Message, kept: bool)

  datatype Line = Logged(message: Message) | Notice(buffers: nat)

  /** Where the writer stands in threadWorker(). */
  datatype WriterPc =
    | Head        // about to test done_
    | Collect     // about to take the lock, or waiting with it released
    | Trim        // a batch has been taken
    | Write
    | Resize
    | Refill1
    | Refill2
    | Clear
    | Returned

  datatype Log = Log(
    n: nat,                       // messages per buffer
    cur: Buffer, next: Buffer, bufs: seq<Buffer>,
    new1: Buffer, new2: Buffer, batch: seq<Buffer>,
    pc: WriterPc,
    done: bool,
    pos: nat,                     // messages of the batch already written
    tail: seq<Message>,           // messages dropped from this batch
    accepted: seq<Message>,       // every message pushMessage has taken
    handled: seq<Entry>,          // accepted messages written or dropped, in order
    file: seq<Line>,
    collected: nat,               // how many messages had been accepted when the writer last held the lock
    blocks: nat,                  // blocks allocated so far, numbered in that order
    freed: multiset<nat>)

  function Init(n: nat): Log {
    Log(n, Buffer(Some(0), []), Buffer(Some(1), []), [], Buffer(Some(2), []), Buffer(Some(3), []), [],
        Head, false, 0, [], [], [], [], 0, 4, multiset{})
  }

  function Flat(bs: seq<Buffer>): seq<Message> {
    if bs == [] then [] else Flat(bs[..|bs| - 1]) + bs[|bs| - 1].items
  }

  function Full(s: Log, b: Buffer): bool {
    |b.items| == s.n
  }

  function Put(b: Buffer, m: Message): Buffer {
    b.(items := b.items + [m])
  }

  // ----- producers -----

  /** The locked section of pushMessage. */
  function Push(s: Log, m: Message): Log {
    var s1 := s.(accepted := s.accepted + [m]);
    if !Full(s, s.cur) then s1.(cur := Put(s.cur, m))
    else if s.next.block.Some? then
      s1.(bufs := s.bufs + [s.cur], cur := Put(s.next, m), next := MOVED)
    else
      s1.(bufs := s.bufs + [s.cur], cur := Put(Buffer(Some(s.blocks), []), m), blocks := s.blocks + 1)
  }

  // ----- the writer -----

  /** The locked section of the writer's loop, after the wait. */
  function Collects(s: Log): Log {
    var taken := if s.cur.items != [] then s.bufs + [s.cur] else s.bufs;
    var s1 := if s.cur.items != [] then s.(cur := s.new1, new1 := MOVED) else s;
    var s2 := s1.(batch := taken, bufs := s.batch, pos := 0, tail := [], collected := |s.accepted|);
    var s3 := if s.next.block.None? then s2.(next := s.new2, new2 := MOVED) else s2;
    s3.(pc := if taken == [] then Head else Trim)
  }

  /** The blocks of buffers that are destroyed. */
  function BlockOf(b: Buffer): multiset<nat> {
    if b.block.Some? then multiset{b.block.value} else multiset{}
  }

  ghost function Blocks(bs: seq<Buffer>): multiset<nat> {
    BagOf(BlockOf, bs)
  }

  /** The overflow rule: keep two buffers of a batch of more than a hundred. */
  ghost function Trims(s: Log): Log {
    if |s.batch| > LIMIT then
      s.(batch := s.batch[..KEPT], tail := Flat(s.batch[KEPT..]), file := s.file + [Notice(|s.batch| - KEPT)],
         freed := s.freed + Blocks(s.batch[KEPT..]), pc := Write)
    else s.(pc := Write)
  }

  function Lost(ms: seq<Message>): seq<Entry> {
    seq(|ms|, i requires 0 <= i < |ms| => Entry(ms[i], false))
  }

  /** Append the next message of the batch to the file, or finish. */
  function Writes(s: Log): Log {
    var all := Flat(s.batch);
    if s.pos < |all| then
      s.(pos := s.pos + 1, handled := s.handled + [Entry(all[s.pos], true)], file := s.file + [Logged(all[s.pos])])
    else
      s.(handled := s.handled + Lost(s.tail), tail := [], pc := Resize)
  }

  /** resize(2) makes fresh buffers. */
  function Resizes(s: Log): Log {
    if |s.batch| == 0 then
      s.(batch := [Buffer(Some(s.blocks), []), Buffer(Some(s.blocks + 1), [])], blocks := s.blocks + 2,
         pc := Refill1)
    else if |s.batch| == 1 then
      s.(batch := s.batch + [Buffer(Some(s.blocks), [])], blocks := s.blocks + 1, pc := Refill1)
    else s.(pc := Refill1)
  }

  function Refills1(s: Log): Log
    requires 0 < |s.batch|
  {
    if s.new1.block.None? then s.(new1 := s.batch[0].(items := []), batch := s.batch[0 := MOVED], pc := Refill2)
    else s.(pc := Refill2)
  }

  function Refills2(s: Log): Log
    requires 1 < |s.batch|
  {
    if s.new2.block.None? then s.(new2 := s.batch[1].(items := []), batch := s.batch[1 := MOVED], pc := Clear)
    else s.(pc := Clear)
  }

  ghost function Clears(s: Log): Log {
    s.(freed := s.freed + Blocks(s.batch), batch := [], pc := Head)
  }

  datatype Step =
    | PushMessage(m: Message)     // also possible after done_ is set: the producer may have tested done_ before
    | SetDone
    | Writer

  ghost predicate Can(s: Log, step: Step) {
    match step
    case PushMessage(_) => true
    case SetDone => true
    case Writer =>
      && s.pc != Returned
      && (s.pc == Refill1 ==> 0 < |s.batch|)
      && (s.pc == Refill2 ==> 1 < |s.batch|)
  }

  ghost function WriterNext(s: Log): Log
    requires Can(s, Writer)
  {
    match s.pc
    case Head => s.(pc := if s.done then Returned else Collect)
    case Collect => Collects(s)
    case Trim => Trims(s)
    case Write => Writes(s)
    case Resize => Resizes(s)
    case Refill1 => Refills1(s)
    case Refill2 => Refills2(s)
    case Clear => Clears(s)
  }

  ghost function Next(s: Log, step: Step): Log
    requires Can(s, step)
  {
    match step
    case PushMessage(m) => Push(s, m)
    case SetDone => s.(done := true)
    case Writer => WriterNext(s)
  }

  ghost predicate Reaches(s: Log, steps: seq<Step>, s': Log)
    decreases |steps|
  {
    if steps == [] then s' == s
    else Can(s, steps[0]) && Reaches(Next(s, steps[0]), steps[1..], s')
  }

  ghost predicate Reachable(n: nat, s: Log) {
    0 < n && exists steps :: Reaches(Init(n), steps, s)
  }

  // ----- the invariant -----

  /** What has been taken from the buffers and not yet been written. */
  function Rest(s: Log): seq<Message> {
    if s.pc == Trim || s.pc == Write then
      (if s.pos <= |Flat(s.batch)| then Flat(s.batch)[s.pos..] else []) + s.tail
    else []
  }

  function Messages(es: seq<Entry>): seq<Message> {
    seq(|es|, i requires 0 <= i < |es| => es[i].message)
  }

  /** The messages written to the file, in order. */
  function Kept(es: seq<Entry>): seq<Message> {
    if es == [] then []
    else Kept(es[..|es| - 1]) + if es[|es| - 1].kept then [es[|es| - 1].message] else []
  }

  function LoggedLines(file: seq<Line>): seq<Message> {
    if file == [] then []
    else LoggedLines(file[..|file| - 1]) + if file[|file| - 1].Logged? then [file[|file| - 1].message] else []
  }

  /** Order and conservation of messages. */
  ghost predicate Ordered(s: Log) {
    && s.accepted == Messages(s.handled) + Rest(s) + Flat(s.bufs) + s.cur.items
    && s.collected == |s.handled| + |Rest(s)|
    && LoggedLines(s.file) == Kept(s.handled)
  }

  /** Shape of the buffers that producers and writer exchange. */
  ghost predicate Shaped(s: Log) {
    && 0 < s.n
    && s.cur.block.Some? && |s.cur.items| <= s.n
    && (s.next.block.Some? ==> s.next.items == [])
    && (forall i | 0 <= i < |s.bufs| :: s.bufs[i].block.Some? && Full(s, s.bufs[i]))
    && (s.next.block.None? ==> s.bufs != [] && s.cur.items != [])
  }

  /** The batch taken by the writer: all buffers full but the last, which is not empty. */
  predicate BatchShape(n: nat, batch: seq<Buffer>) {
    && batch != []
    && (forall i | 0 <= i < |batch| :: batch[i].block.Some?)
    && (forall i | 0 <= i < |batch| - 1 :: |batch[i].items| == n)
    && 1 <= |batch[|batch| - 1].items| <= n
  }

  predicate Reserve(b: Buffer) {
    b.block.Some? && b.items == []
  }

  ghost predicate Stocked(s: Log) {
    && s.new1.items == [] && s.new2.items == []
    && (s.pc == Head || s.pc == Collect || s.pc == Returned ==> Reserve(s.new1) && Reserve(s.new2) && s.batch == [])
    && (s.pc == Trim ==> BatchShape(s.n, s.batch) && s.pos == 0 && s.tail == [])
    && (s.pc == Write ==> s.pos <= |Flat(s.batch)|)
    && (s.pc == Trim || s.pc == Write || s.pc == Resize || s.pc == Refill1 ==>
          forall i | 0 <= i < |s.batch| :: s.batch[i].block.Some?)
    && (s.pc == Refill1 || s.pc == Refill2 ==> 2 <= |s.batch|)
    && (s.pc == Refill2 ==> s.batch[1].block.Some?)
    && (s.pc == Refill2 || s.pc == Clear ==> Reserve(s.new1))
    && (s.pc == Clear ==> Reserve(s.new2))
  }

  /** How many holders own block b. */
  ghost function Owners(s: Log, b: nat): nat {
    BlockOf(s.cur)[b] + BlockOf(s.next)[b] + BlockOf(s.new1)[b] + BlockOf(s.new2)[b]
    + Blocks(s.bufs)[b] + Blocks(s.batch)[b]
  }

  /** Every block ever allocated has exactly one owner, or has been freed once. */
  ghost predicate Owned(s: Log) {
    forall b: nat :: Owners(s, b) + s.freed[b] == if b < s.blocks then 1 else 0
  }

  ghost predicate Inv(s: Log) {
    Ordered(s) && Shaped(s) && Stocked(s) && Owned(s)
  }

  // ----- sequences of messages -----

  lemma FlatAppend(bs: seq<Buffer>, b: Buffer)
    ensures Flat(bs + [b]) == Flat(bs) + b.items
  {
    assert (bs + [b])[..|bs|] == bs;
  }

  lemma {:induction false} FlatSplit(bs: seq<Buffer>, k: nat)
    requires k <= |bs|
    ensures Flat(bs) == Flat(bs[..k]) + Flat(bs[k..])
  {
    if k == |bs| {
      assert bs[..k] == bs;
    } else {
      var last := |bs| - 1;
      FlatSplit(bs[..last], k);
      assert bs[..last][..k] == bs[..k] && bs[..last][k..] == bs[k..][..last - k];
    }
  }

  lemma KeptAppend(es: seq<Entry>, e: Entry)
    ensures Kept(es + [e]) == Kept(es) + if e.kept then [e.message] else []
    ensures Messages(es + [e]) == Messages(es) + [e.message]
  {
    assert (es + [e])[..|es|] == es;
  }

  lemma {:induction false} KeptLost(es: seq<Entry>, ms: seq<Message>)
    ensures Kept(es + Lost(ms)) == Kept(es)
    ensures Messages(es + Lost(ms)) == Messages(es) + ms
  {
    if ms == [] {
      assert es + Lost(ms) == es;
    } else {
      var front, last := ms[..|ms| - 1], ms[|ms| - 1];
      KeptLost(es, front);
      assert es + Lost(ms) == (es + Lost(front)) + [Entry(last, false)];
      KeptAppend(es + Lost(front), Entry(last, false));
      assert ms == front + [last];
    }
  }

  lemma LinesAppend(file: seq<Line>, l: Line)
    ensures LoggedLines(file + [l]) == LoggedLines(file) + if l.Logged? then [l.message] else []
  {
    assert (file + [l])[..|file|] == file;
  }

  // ----- order -----

  lemma Assoc(a: seq<Message>, b: seq<Message>, c: seq<Message>)
    ensures (a + b) + c == a + (b + c)
  {
  }

  lemma OrderedPush(s: Log, m: Message)
    requires Ordered(s) && Shaped(s)
    ensures Ordered(Push(s, m))
  {
    hide Flat, LoggedLines, Kept, Messages;
    var s' := Push(s, m);
    SameRest(s, s');
    var before := Messages(s.handled) + Rest(s);
    if Full(s, s.cur) {
      FlatAppend(s.bufs, s.cur);
      assert s'.cur.items == [m];
      Assoc(before, Flat(s.bufs), s.cur.items);
    } else {
      Assoc(before + Flat(s.bufs), s.cur.items, [m]);
    }
  }

  lemma SameRest(s: Log, s': Log)
    requires s'.pc == s.pc && s'.batch == s.batch && s'.pos == s.pos && s'.tail == s.tail
    ensures Rest(s') == Rest(s)
  {
  }

  lemma OrderedCollect(s: Log)
    requires Ordered(s) && Stocked(s) && Shaped(s) && s.pc == Collect
    ensures Ordered(Collects(s))
  {
    hide LoggedLines, Kept, Messages, Flat;
    var s' := Collects(s);
    FlatAppend(s.bufs, s.cur);
    FlatNone();
    var before := Messages(s.handled);
    assert Rest(s) == [] && before + [] == before;
    assert Flat(s'.batch) == Flat(s.bufs) + s.cur.items;
    assert s'.cur.items == [] && s'.bufs == [];
    assert Rest(s') == Flat(s'.batch);
    Assoc(before, Flat(s.bufs), s.cur.items);
    assert |s.accepted| == |before| + |Rest(s')|;
    MessagesLength(s.handled);
  }

  lemma FlatNone()
    ensures Flat([]) == []
  {
  }

  lemma MessagesLength(es: seq<Entry>)
    ensures |Messages(es)| == |es|
  {
  }

  lemma OrderedTrim(s: Log)
    requires Ordered(s) && Stocked(s) && s.pc == Trim
    ensures Ordered(Trims(s))
  {
    hide Flat, LoggedLines, Kept, Messages, Blocks;
    if |s.batch| > LIMIT {
      FlatSplit(s.batch, KEPT);
      LinesAppend(s.file, Notice(|s.batch| - KEPT));
    }
  }

  lemma OrderedWrite(s: Log)
    requires Ordered(s) && Stocked(s) && s.pc == Write
    ensures Ordered(Writes(s))
  {
    hide Ordered, Stocked;
    if s.pos < |Flat(s.batch)| {
      OrderedWriteOne(s);
    } else {
      OrderedWriteEnd(s);
    }
  }

  lemma OrderedWriteOne(s: Log)
    requires Ordered(s) && s.pc == Write && s.pos < |Flat(s.batch)|
    ensures Ordered(Writes(s))
  {
    hide Flat, LoggedLines, Kept, Messages, Lost;
    var all := Flat(s.batch);
    var s' := Writes(s);
    KeptAppend(s.handled, Entry(all[s.pos], true));
    LinesAppend(s.file, Logged(all[s.pos]));
    assert all[s.pos..] == [all[s.pos]] + all[s.pos + 1..];
    assert Rest(s) == [all[s.pos]] + Rest(s');
    Assoc(Messages(s.handled), [all[s.pos]], Rest(s'));
  }

  lemma OrderedWriteEnd(s: Log)
    requires Ordered(s) && Stocked(s) && s.pc == Write && |Flat(s.batch)| <= s.pos
    ensures Ordered(Writes(s))
  {
    hide Flat, LoggedLines, Kept, Messages, Lost;
    KeptLost(s.handled, s.tail);
    LostLength(s.tail);
    assert Rest(s) == s.tail && Rest(Writes(s)) == [];
    assert Messages(s.handled) + s.tail + [] == Messages(s.handled) + s.tail;
  }

  lemma LostLength(ms: seq<Message>)
    ensures |Lost(ms)| == |ms|
  {
  }

  lemma OrderedStep(s: Log, step: Step)
    requires Inv(s) && Can(s, step)
    ensures Ordered(Next(s, step))
  {
    hide Owned, Flat, LoggedLines, Kept, Messages;
    match step
    case PushMessage(m) => OrderedPush(s, m);
    case SetDone =>
    case Writer =>
      match s.pc
      case Collect => OrderedCollect(s);
      case Trim => OrderedTrim(s);
      case Write => OrderedWrite(s);
      case _ =>
  }

  // ----- shape -----

  lemma ShapedPush(s: Log, m: Message)
    requires Shaped(s) && Stocked(s)
    ensures Shaped(Push(s, m)) && Stocked(Push(s, m))
  {
    hide Flat;
  }

  /** A batch is never empty of reserve when it must be: when the writer has to replace next, a producer has taken it
      since the last collection, so the batch has at least two buffers. */
  lemma ShapedCollect(s: Log)
    requires Shaped(s) && Stocked(s) && s.pc == Collect
    ensures Shaped(Collects(s)) && Stocked(Collects(s))
  {
    hide Flat;
  }

  lemma ShapedTrim(s: Log)
    requires Shaped(s) && Stocked(s) && s.pc == Trim
    ensures Shaped(Trims(s)) && Stocked(Trims(s))
  {
    hide Flat, Blocks;
  }

  lemma ShapedWriter(s: Log)
    requires Shaped(s) && Stocked(s) && Can(s, Writer) && s.pc != Collect && s.pc != Trim
    ensures Shaped(WriterNext(s)) && Stocked(WriterNext(s))
  {
    hide Flat, Blocks, Lost;
  }

  lemma ShapedStep(s: Log, step: Step)
    requires Inv(s) && Can(s, step)
    ensures Shaped(Next(s, step)) && Stocked(Next(s, step))
  {
    hide Owned, Ordered, Shaped, Push, Collects, Trims, Writes, Resizes, Refills1, Refills2, Clears;
    match step
    case PushMessage(m) => ShapedPush(s, m);
    case SetDone => ShapedDone(s);
    case Writer =>
      match s.pc
      case Collect => ShapedCollect(s);
      case Trim => ShapedTrim(s);
      case _ => ShapedWriter(s);
  }

  lemma ShapedDone(s: Log)
    requires Shaped(s) && Stocked(s)
    ensures Shaped(s.(done := true)) && Stocked(s.(done := true))
  {
  }

  // ----- ownership -----

  lemma BlocksAppend(bs: seq<Buffer>, b: Buffer, x: nat)
    ensures Blocks(bs + [b])[x] == Blocks(bs)[x] + BlockOf(b)[x]
  {
    hide BagOf;
    CountAppend(BlockOf, bs, b, x);
  }

  lemma BlocksUpdate(bs: seq<Buffer>, i: nat, b: Buffer, x: nat)
    requires i < |bs|
    ensures Blocks(bs[i := b])[x] + BlockOf(bs[i])[x] == Blocks(bs)[x] + BlockOf(b)[x]
  {
    hide BagOf;
    CountUpdate(BlockOf, bs, i, b, x);
  }

  lemma BlocksNone()
    ensures Blocks([]) == multiset{}
  {
  }

  lemma {:induction false} BlocksSplit(bs: seq<Buffer>, k: nat, x: nat)
    requires k <= |bs|
    ensures Blocks(bs)[x] == Blocks(bs[..k])[x] + Blocks(bs[k..])[x]
  {
    hide Blocks, BagOf;
    if k == |bs| {
      assert bs[..k] == bs;
      BlocksNone();
    } else {
      var last := |bs| - 1;
      BlocksSplit(bs[..last], k, x);
      assert bs[..last][..k] == bs[..k] && bs[..last][k..] == bs[k..][..last - k];
      assert bs == bs[..last] + [bs[last]] && bs[k..] == bs[k..][..last - k] + [bs[last]];
      BlocksAppend(bs[..last], bs[last], x);
      BlocksAppend(bs[k..][..last - k], bs[last], x);
    }
  }

  /** Owners and frees of one block, together. */
  ghost function Holds(s: Log, b: nat): nat {
    Owners(s, b) + s.freed[b]
  }

  lemma HoldsPush(s: Log, m: Message, b: nat)
    ensures Holds(Push(s, m), b) == Holds(s, b) + if s.blocks <= b < Push(s, m).blocks then 1 else 0
  {
    hide Blocks;
    var s' := Push(s, m);
    if Full(s, s.cur) {
      BlocksAppend(s.bufs, s.cur, b);
      if s.next.block.Some? {
        assert BlockOf(s'.cur) == BlockOf(s.next) && BlockOf(s'.next) == multiset{};
      } else {
        assert BlockOf(s'.cur) == multiset{s.blocks};
      }
    } else {
      assert BlockOf(s'.cur) == BlockOf(s.cur);
    }
  }

  lemma HoldsCollect(s: Log, b: nat)
    requires s.batch == []
    ensures Holds(Collects(s), b) == Holds(s, b)
  {
    hide Blocks;
    BlocksAppend(s.bufs, s.cur, b);
    BlocksNone();
  }

  lemma HoldsTrim(s: Log, b: nat)
    ensures Holds(Trims(s), b) == Holds(s, b)
  {
    hide Blocks, Flat;
    if |s.batch| > LIMIT {
      BlocksSplit(s.batch, KEPT, b);
    }
  }

  lemma HoldsResize(s: Log, b: nat)
    ensures Holds(Resizes(s), b) == Holds(s, b) + if s.blocks <= b < Resizes(s).blocks then 1 else 0
  {
    hide Blocks;
    BlocksAppend(s.batch, Buffer(Some(s.blocks), []), b);
    if |s.batch| == 0 {
      BlocksNone();
      assert [Buffer(Some(s.blocks), [])] == [] + [Buffer(Some(s.blocks), [])];
      BlocksAppend([Buffer(Some(s.blocks), [])], Buffer(Some(s.blocks + 1), []), b);
      assert Resizes(s).batch == [Buffer(Some(s.blocks), [])] + [Buffer(Some(s.blocks + 1), [])];
    }
  }

  lemma HoldsRefill1(s: Log, b: nat)
    requires 0 < |s.batch|
    ensures Holds(Refills1(s), b) == Holds(s, b)
  {
    hide Blocks;
    BlocksUpdate(s.batch, 0, MOVED, b);
  }

  lemma HoldsRefill2(s: Log, b: nat)
    requires 1 < |s.batch|
    ensures Holds(Refills2(s), b) == Holds(s, b)
  {
    hide Blocks;
    BlocksUpdate(s.batch, 1, MOVED, b);
  }

  lemma HoldsClear(s: Log, b: nat)
    ensures Holds(Clears(s), b) == Holds(s, b)
  {
    hide Blocks;
    BlocksNone();
  }

  lemma HoldsWrite(s: Log, b: nat)
    ensures Holds(Writes(s), b) == Holds(s, b) && Writes(s).blocks == s.blocks
  {
    hide Blocks, Flat, Lost;
  }

  /** No move overwrites a live block, no block is freed twice: the holders of a block change only by its allocation. */
  lemma HoldsStep(s: Log, step: Step, b: nat)
    requires Can(s, step) && Stocked(s)
    ensures Holds(Next(s, step), b) == Holds(s, b) + if s.blocks <= b < Next(s, step).blocks then 1 else 0
  {
    hide Holds, Push, Collects, Writes, Resizes, Refills1, Refills2, Clears, Trims;
    match step
    case PushMessage(m) => HoldsPush(s, m, b);
    case SetDone => SameHolds(s, s.(done := true), b);
    case Writer =>
      match s.pc
      case Head => SameHolds(s, WriterNext(s), b);
      case Collect =>
        HoldsCollect(s, b);
        SameBlocks(s);
      case Trim =>
        HoldsTrim(s, b);
        SameBlocks(s);
      case Write => HoldsWrite(s, b);
      case Resize => HoldsResize(s, b);
      case Refill1 =>
        HoldsRefill1(s, b);
        SameBlocks(s);
      case Refill2 =>
        HoldsRefill2(s, b);
        SameBlocks(s);
      case Clear =>
        HoldsClear(s, b);
        SameBlocks(s);
  }

  lemma SameHolds(s: Log, s': Log, b: nat)
    requires s' == s.(pc := s'.pc, done := s'.done)
    ensures Holds(s', b) == Holds(s, b)
  {
  }

  lemma SameBlocks(s: Log)
    ensures Collects(s).blocks == s.blocks && Trims(s).blocks == s.blocks && Clears(s).blocks == s.blocks
    ensures 0 < |s.batch| ==> Refills1(s).blocks == s.blocks
    ensures 1 < |s.batch| ==> Refills2(s).blocks == s.blocks
  {
    hide Blocks, Flat;
  }

  lemma Allocates(s: Log, step: Step)
    requires Can(s, step)
    ensures s.blocks <= Next(s, step).blocks
  {
    hide Blocks, Flat, Lost;
  }

  lemma OwnedStep(s: Log, step: Step)
    requires Inv(s) && Can(s, step)
    ensures Owned(Next(s, step))
  {
    hide Next, Can, Owners, Ordered, Shaped, Stocked;
    var s' := Next(s, step);
    Allocates(s, step);
    forall b: nat ensures Owners(s', b) + s'.freed[b] == if b < s'.blocks then 1 else 0 {
      assert Owners(s, b) + s.freed[b] == if b < s.blocks then 1 else 0;
      HoldsStep(s, step, b);
    }
  }

  // ----- runs -----

  lemma InitInv(n: nat)
    requires 0 < n
    ensures Inv(Init(n))
  {
    BlocksNone();
  }

  lemma InvStep(s: Log, step: Step)
    requires Inv(s) && Can(s, step)
    ensures Inv(Next(s, step))
  {
    hide Next, Can, Ordered, Shaped, Stocked, Owned;
    OrderedStep(s, step);
    ShapedStep(s, step);
    OwnedStep(s, step);
  }

  lemma {:induction false} InvReaches(s: Log, steps: seq<Step>, s': Log)
    requires Inv(s) && Reaches(s, steps, s')
    ensures Inv(s') && s'.n == s.n
    decreases |steps|
  {
    hide Inv, Next, Can;
    if steps != [] {
      InvStep(s, steps[0]);
      SameCapacity(s, steps[0]);
      InvReaches(Next(s, steps[0]), steps[1..], s');
    }
  }

  lemma SameCapacity(s: Log, step: Step)
    requires Can(s, step)
    ensures Next(s, step).n == s.n
  {
    hide Blocks, Flat, Lost;
  }

  lemma ReachableInv(n: nat, s: Log)
    requires Reachable(n, s)
    ensures Inv(s) && s.n == n
  {
    hide Inv;
    var steps :| Reaches(Init(n), steps, s);
    InitInv(n);
    InvReaches(Init(n), steps, s);
  }

  // ----- main results -----

  /** At every point of every run the accepted messages are, in order, those written or dropped, then the rest of the
      batch, then bufs_, then cur_buf_; and the file holds the written ones, in order. */
  lemma LogOrder(n: nat, s: Log)
    requires Reachable(n, s)
    ensures s.accepted == Messages(s.handled) + Rest(s) + Flat(s.bufs) + s.cur.items
    ensures LoggedLines(s.file) == Kept(s.handled)
  {
    ReachableInv(n, s);
  }

  /** When the writer has returned, the messages neither written nor dropped are exactly bufs_ followed by cur_buf_:
      those accepted since it last held the lock. */
  lemma UnwrittenAtReturn(n: nat, s: Log)
    requires Reachable(n, s) && s.pc == Returned
    ensures s.accepted == Messages(s.handled) + (Flat(s.bufs) + s.cur.items)
    ensures s.collected <= |s.accepted| && Messages(s.handled) == s.accepted[..s.collected]
    ensures Messages(s.handled) == s.accepted <==> |s.accepted| == s.collected
  {
    hide Flat, Messages;
    ReachableInv(n, s);
    assert Rest(s) == [] && Messages(s.handled) + [] == Messages(s.handled);
    Assoc(Messages(s.handled), Flat(s.bufs), s.cur.items);
    MessagesLength(s.handled);
  }

  /** pushMessage and the writer never use a moved-from buffer, and the writer always has two empty ones in reserve
      at the head of its loop. */
  lemma NeverNull(n: nat, s: Log)
    requires Reachable(n, s)
    ensures s.cur.block.Some? && |s.cur.items| <= n
    ensures forall i | 0 <= i < |s.bufs| :: s.bufs[i].block.Some? && |s.bufs[i].items| == n
    ensures s.pc == Head ==> Reserve(s.new1) && Reserve(s.new2)
    ensures s.pc == Write ==> forall i | 0 <= i < |s.batch| :: s.batch[i].block.Some?
    ensures s.pc == Refill1 ==> 0 < |s.batch| && s.batch[0].block.Some?
    ensures s.pc == Refill2 ==> 1 < |s.batch| && s.batch[1].block.Some?
  {
    hide Flat;
    ReachableInv(n, s);
  }

  /** Every block ever allocated has exactly one owner among the six holders, or was freed exactly once. */
  lemma SingleOwner(n: nat, s: Log, b: nat)
    requires Reachable(n, s)
    ensures Owners(s, b) + s.freed[b] == if b < s.blocks then 1 else 0
  {
    hide Owners;
    ReachableInv(n, s);
  }

  lemma {:induction false} FlatLength(n: nat, bs: seq<Buffer>)
    requires forall i | 0 <= i < |bs| :: |bs[i].items| == n
    ensures |Flat(bs)| == |bs| * n
  {
    if bs != [] {
      FlatLength(n, bs[..|bs| - 1]);
      assert |bs| * n == (|bs| - 1) * n + n;
    }
  }

  lemma DroppedLength(n: nat, batch: seq<Buffer>)
    requires BatchShape(n, batch) && KEPT < |batch|
    ensures (|batch| - 3) * n + 1 <= |Flat(batch[KEPT..])| <= (|batch| - 2) * n
  {
    hide Flat;
    var k := |batch|;
    var dropped := batch[KEPT..];
    assert dropped == dropped[..k - 3] + [batch[k - 1]];
    FlatAppend(dropped[..k - 3], batch[k - 1]);
    FlatLength(n, dropped[..k - 3]);
    assert (k - 2) * n == (k - 3) * n + n;
  }

  /** A batch of k > 100 buffers loses between (k - 3) * n + 1 and (k - 2) * n messages, always the newest of the batch;
      a smaller batch loses none. */
  lemma DropBound(n: nat, s: Log)
    requires Reachable(n, s) && s.pc == Trim
    ensures BatchShape(n, s.batch)
    ensures Flat(s.batch) == Flat(Trims(s).batch) + Trims(s).tail
    ensures |s.batch| <= 100 ==> Trims(s).tail == [] && Trims(s).batch == s.batch && Trims(s).file == s.file
    ensures |s.batch| > 100 ==>
              && Trims(s).batch == s.batch[..2] && Trims(s).file == s.file + [Notice(|s.batch| - 2)]
              && (|s.batch| - 3) * n + 1 <= |Trims(s).tail| <= (|s.batch| - 2) * n
  {
    hide Flat, Blocks;
    ReachableInv(n, s);
    if |s.batch| > LIMIT {
      FlatSplit(s.batch, KEPT);
      DroppedLength(n, s.batch);
    } else {
      assert Flat(s.batch) + [] == Flat(s.batch);
    }
  }

  /** How many blocks a step may allocate: a push one, if the current buffer is full and the next one gone; the
      writer as many as its batch lacks to two buffers. */
  function Fresh(s: Log, step: Step): nat {
    match step
    case PushMessage(_) => if |s.cur.items| == s.n && s.next.block.None? then 1 else 0
    case SetDone => 0
    case Writer => if s.pc == Resize && |s.batch| < 2 then 2 - |s.batch| else 0
  }

  /** Fresh blocks are taken only where no reserve is left, and are then the only ones that appear. */
  lemma FreshOnlyIfNeeded(s: Log, step: Step, b: nat)
    requires Inv(s) && Can(s, step)
    ensures Next(s, step).blocks == s.blocks + Fresh(s, step)
    ensures s.blocks <= b < s.blocks + Fresh(s, step) ==> Owners(Next(s, step), b) + Next(s, step).freed[b] == 1
    ensures s.blocks + Fresh(s, step) <= b ==> Owners(Next(s, step), b) == 0
  {
    hide Flat, Blocks, Lost, Ordered, Shaped, Stocked, Owners, Next, Can;
    InvStep(s, step);
    BlocksTaken(s, step);
    assert Owners(Next(s, step), b) + Next(s, step).freed[b] == if b < Next(s, step).blocks then 1 else 0;
  }

  lemma BlocksTaken(s: Log, step: Step)
    requires Can(s, step)
    ensures Next(s, step).blocks == s.blocks + Fresh(s, step)
  {
    hide Flat, Blocks, Lost;
  }

  lemma {:induction false} ReachesMore(s: Log, steps: seq<Step>, s': Log, step: Step)
    requires Reaches(s, steps, s') && Can(s', step)
    ensures Reaches(s, steps + [step], Next(s', step))
    decreases |steps|
  {
    hide Next, Can;
    if steps != [] {
      assert (steps + [step])[1..] == steps[1..] + [step];
      ReachesMore(Next(s, steps[0]), steps[1..], s', step);
    }
  }

  lemma Take(n: nat, s: Log, step: Step) returns (s': Log)
    requires Reachable(n, s) && Can(s, step)
    ensures s' == Next(s, step) && Reachable(n, s')
  {
    hide Next, Can;
    var steps :| Reaches(Init(n), steps, s);
    ReachesMore(Init(n), steps, s, step);
    s' := Next(s, step);
  }

  /** Shutdown can lose a message: one accepted before wait4Done() and never written, nor reported as dropped. */
  lemma ShutdownLosesMessages(n: nat, m: Message)
    requires 0 < n
    ensures exists s :: Reachable(n, s) && s.pc == Returned && s.accepted == [m] && s.handled == [] && s.file == []
  {
    var s := LosingRun(n, m);
  }

  lemma LosingRun(n: nat, m: Message) returns (s: Log)
    requires 0 < n
    ensures Reachable(n, s) && s.pc == Returned && s.accepted == [m] && s.handled == [] && s.file == []
  {
    hide Reachable;
    s := Init(n);
    ByInit(n);
    s := Take(n, s, PushMessage(m));
    s := Take(n, s, SetDone);
    s := Take(n, s, Writer);
  }

  lemma ByInit(n: nat)
    requires 0 < n
    ensures Reachable(n, Init(n))
  {
    assert Reaches(Init(n), [], Init(n));
  }
}

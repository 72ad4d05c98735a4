/**
 * AsyncLogging as an object: pushMessage and the writer's loop in place, with other threads in between. What the code
 * does is a run of the machine of AsyncLog, so all that is proved of the machine holds of the object.
 */
module AsyncLogging {
  import opened Options
  import opened AsyncLog

  class AsyncLogging {
    const n: nat                       // messages per buffer
    var cur: Buffer                    // cur_buf_
    var next: Buffer                   // next_buf_
    var bufs: seq<Buffer>              // bufs_
    var done: bool                     // done_
    var blocks: nat                    // heap blocks handed out so far

    // locals of threadWorker()
    var new1: Buffer
    var new2: Buffer
    var batch: seq<Buffer>             // buf2write
    var file: seq<Line>

    ghost var log: Log                 // the state of the machine
    ghost var run: seq<Step>           // the run that led to it

    constructor (n: nat)
      requires 0 < n
      ensures Valid() && this.n == n && log == Init(n) && run == []
    {
      this.n := n;
      cur, next, bufs := Buffer(Some(0), []), Buffer(Some(1), []), [];
      new1, new2, batch := Buffer(Some(2), []), Buffer(Some(3), []), [];
      done, blocks, file := false, 4, [];
      log, run := Init(n), [];
    }

    /** The object shows the state of the machine, and the machine has been led there by a run. */
    ghost predicate Valid()
      reads this
    {
      Shows() && Ran()
    }

    ghost predicate Shows()
      reads this
    {
      && n == log.n && cur == log.cur && next == log.next && bufs == log.bufs
      && done == log.done && blocks == log.blocks
      && new1 == log.new1 && new2 == log.new2 && batch == log.batch && file == log.file
    }

    ghost predicate Ran()
      reads this`log, this`run
    {
      0 < n && Reaches(Init(n), run, log)
    }

    /** The machine makes a step. */
    ghost method Advance(step: Step)
      requires Ran() && Can(log, step)
      modifies this`log, this`run
      ensures Ran() && log == Next(old(log), step) && run == old(run) + [step]
    {
      hide Next, Can;
      ReachesMore(Init(n), run, log, step);
      run := run + [step];
      log := Next(log, step);
    }

    /** A producer: the test of done_, and later the locked section, whatever has happened to done_ meanwhile. */
    method PushMessage(m: Message)
      requires Valid()
      modifies this`cur, this`next, this`bufs, this`blocks, this`done, this`log, this`run
      ensures Valid() && SameWriter(old(log), log)
      ensures old(done) ==> log == old(log)
      ensures !old(done) ==> exists others :: log.accepted == old(log.accepted) + others + [m]
    {
      if done {
        return;
      }
      hide Push, Ran;
      Interference();
      ghost var others := log.accepted[|old(log.accepted)|..];
      PushLocked(m);
      assert log.accepted == old(log.accepted) + others + [m];
    }

    /** The locked section of pushMessage. */
    method PushLocked(m: Message)
      requires Valid()
      modifies this`cur, this`next, this`bufs, this`blocks, this`log, this`run
      ensures Valid() && log == Push(old(log), m)
      ensures SameWriter(old(log), log) && log.accepted == old(log.accepted) + [m]
    {
      Advance(Step.PushMessage(m));
      if |cur.items| != n {
        cur := Put(cur, m);
        return;
      }
      bufs := bufs + [cur];
      if next.block.Some? {
        cur, next := next, MOVED;
      } else {
        cur, blocks := Buffer(Some(blocks), []), blocks + 1;
      }
      cur := Put(cur, m);
    }

    method SetDone()
      requires Valid()
      modifies this`done, this`log, this`run
      ensures Valid() && log == old(log).(done := true)
    {
      Advance(Step.SetDone);
      done := true;
    }

    /** Other threads run: producers that have tested done_ push, before and after it is set. They leave the writer's
        part alone. */
    method Interference()
      requires Valid()
      modifies this`cur, this`next, this`bufs, this`blocks, this`done, this`log, this`run
      ensures Valid() && SameWriter(old(log), log) && Grown(old(log), log)
    {
      var others: seq<Option<Message>> := *;
      for i := 0 to |others|
        invariant Valid() && SameWriter(old(log), log) && Grown(old(log), log)
      {
        match others[i]
        case Some(m) => PushLocked(m);
        case None => SetDone();
      }
    }

    /** The writer's locked section, after the wait. */
    method Exchange()
      requires Valid() && log.pc == Collect
      modifies this
      ensures Valid() && log == Collects(old(log))
    {
      hide Collects, Ran, Next, Can;
      Collected(log);
      Advance(Writer);
      if cur.items != [] {
        bufs := bufs + [cur];
        cur, new1 := new1, MOVED;
      }
      batch, bufs := bufs, batch;
      if next.block.None? {
        next, new2 := new2, MOVED;
      }
    }

    /** The overflow rule. */
    method DropTail()
      requires Valid() && log.pc == Trim
      modifies this`batch, this`file, this`log, this`run
      ensures Valid() && log == Trims(old(log))
    {
      Advance(Writer);
      if |batch| > LIMIT {
        file := file + [Notice(|batch| - KEPT)];
        batch := batch[..KEPT];
      }
    }

    /** Append one message to the file. */
    method WriteMessage(m: Message)
      requires Valid() && log.pc == Write && log.pos < |Flat(batch)| && m == Flat(batch)[log.pos]
      modifies this`file, this`log, this`run
      ensures Valid() && log.pc == Write && log.pos == old(log.pos) + 1 && log.batch == old(log.batch)
      ensures file == old(file) + [Logged(m)] && Grown(old(log), log)
    {
      hide Flat;
      Advance(Writer);
      file := file + [Logged(m)];
    }

    /** Write the batch in order; pushes go on meanwhile. */
    method WriteBatch()
      requires Valid() && log.pc == Write && log.pos == 0
      modifies this`cur, this`next, this`bufs, this`blocks, this`done, this`file, this`log, this`run
      ensures Valid() && log.pc == Resize && Grown(old(log), log)
      ensures file == old(file) + Lines(Flat(batch))
    {
      hide Flat, Ran, Lines;
      NothingYet(batch);
      for i := 0 to |batch|
        invariant Valid() && log.pc == Write && log.pos == |Flat(batch[..i])| <= |Flat(batch)|
        invariant Grown(old(log), log)
        invariant file == old(file) + Lines(Flat(batch)[..log.pos])
      {
        var items := batch[i].items;
        FlatAt(batch, i);
        for j := 0 to |items|
          invariant Valid() && log.pc == Write && log.pos == |Flat(batch[..i])| + j
          invariant Grown(old(log), log)
          invariant file == old(file) + Lines(Flat(batch)[..log.pos])
        {
          Interference();
          LinesMore(Flat(batch), log.pos);
          WriteMessage(items[j]);
        }
      }
      assert batch[..|batch|] == batch && Flat(batch)[..|Flat(batch)|] == Flat(batch);
      Advance(Writer);
    }

    /** resize(2) takes fresh buffers. */
    method ResizeBatch()
      requires Valid() && log.pc == Resize
      modifies this`batch, this`blocks, this`log, this`run
      ensures Valid() && log == Resizes(old(log)) && Grown(old(log), log)
      ensures log.pc == Refill1 && 1 < |batch|
    {
      Advance(Writer);
      if |batch| == 0 {
        batch, blocks := [Buffer(Some(blocks), []), Buffer(Some(blocks + 1), [])], blocks + 2;
      } else if |batch| == 1 {
        batch, blocks := batch + [Buffer(Some(blocks), [])], blocks + 1;
      }
    }

    /** Give the first reserve back, emptied. */
    method FirstReserve()
      requires Valid() && log.pc == Refill1 && 0 < |batch|
      modifies this`new1, this`batch, this`log, this`run
      ensures Valid() && log == Refills1(old(log)) && Grown(old(log), log)
      ensures log.pc == Refill2 && |batch| == old(|batch|)
    {
      Advance(Writer);
      if new1.block.None? {
        new1, batch := batch[0].(items := []), batch[0 := MOVED];
      }
    }

    method SecondReserve()
      requires Valid() && log.pc == Refill2 && 1 < |batch|
      modifies this`new2, this`batch, this`log, this`run
      ensures Valid() && log == Refills2(old(log)) && Grown(old(log), log)
      ensures log.pc == Clear
    {
      Advance(Writer);
      if new2.block.None? {
        new2, batch := batch[1].(items := []), batch[1 := MOVED];
      }
    }

    /** Destroy what is left of the batch. */
    method ClearBatch()
      requires Valid() && log.pc == Clear
      modifies this`batch, this`log, this`run
      ensures Valid() && log == Clears(old(log)) && Grown(old(log), log)
      ensures log.pc == Head && batch == []
    {
      Advance(Writer);
      batch := [];
    }

    /** Hand two emptied buffers back to the reserves. */
    method Refill()
      requires Valid() && log.pc == Resize
      modifies this
      ensures Valid() && log.pc == Head && batch == [] && file == old(file) && Grown(old(log), log)
    {
      hide Ran, Resizes, Refills1, Refills2, Clears;
      ResizeBatch();
      Interference();
      FirstReserve();
      Interference();
      SecondReserve();
      Interference();
      ClearBatch();
    }

    /** What the loop does with a batch it has taken. */
    method WriteTaken()
      requires Valid() && log.pc == Trim && log.pos == 0
      modifies this
      ensures Valid() && log.pc == Head && Grown(old(log), log)
      ensures file == old(file) + Written(old(batch))
    {
      hide Ran, Flat, Blocks, Lines, Trims;
      Interference();
      ghost var s := log;
      DropTail();
      Trimmed(s);
      Interference();
      WriteBatch();
      Interference();
      Refill();
    }

    /** One turn of the writer's loop, from the test of done_ on: everything accepted before it is written or
        dropped by its end, and the file grows by what was taken, cut down by the overflow rule. It ends the loop
        only if done_ is set. */
    method Turn() returns (more: bool, ghost taken: seq<Buffer>)
      requires Valid() && log.pc == Head
      modifies this
      ensures Valid() && log.pc == (if more then Head else Returned)
      ensures more ==> old(log.accepted) <= Messages(log.handled)
      ensures !more ==> done && taken == []
      ensures file == old(file) + Written(taken)
      ensures Messages(log.handled) == Messages(old(log.handled)) + Flat(taken)
    {
      hide Ran, Flat, Blocks, Written, Messages;
      FlatNone();
      WrittenNothing();
      Advance(Writer);
      if done {
        return false, [];
      }
      Interference();
      Exchange();
      taken := batch;
      IsReachable();
      TakenAll(n, log);
      more := true;
      if batch != [] {
        ghost var s := log;
        WriteTaken();
        IsReachable();
        TakenHandled(n, s, log);
      }
    }

    lemma IsReachable()
      requires Valid()
      ensures Reachable(n, log)
    {
    }

    /** Whatever the object has gone through, the accepted messages are in order those written or dropped, then the rest
        of the batch, then bufs_, then cur_buf_; and cur_buf_ owns a block. */
    lemma InOrder()
      requires Valid()
      ensures log.accepted == Messages(log.handled) + Rest(log) + Flat(bufs) + cur.items
      ensures LoggedLines(file) == Kept(log.handled)
      ensures cur.block.Some? && |cur.items| <= n
    {
      assert Reachable(n, log);
      LogOrder(n, log);
      NeverNull(n, log);
    }
  }

  /** Nothing accepted is forgotten, and nothing more has been collected. */
  ghost predicate Grown(s: Log, s': Log) {
    s.accepted <= s'.accepted && s'.collected == s.collected
  }

  /** The lines for a batch: of more than a hundred buffers two are kept, and the number of the others is reported. */
  function Written(bs: seq<Buffer>): seq<Line> {
    if |bs| > 100 then [Notice(|bs| - 2)] + Lines(Flat(bs[..2])) else Lines(Flat(bs))
  }

  lemma WrittenNothing()
    ensures Written([]) == []
  {
  }

  lemma Trimmed(s: Log)
    ensures var s' := Trims(s);
      && s'.file + Lines(Flat(s'.batch)) == s.file + Written(s.batch)
      && s'.pc == Write && s'.pos == s.pos && Grown(s, s')
  {
    hide Flat, Lines, Blocks;
  }

  /** Right after the exchange, what has not been written or dropped is the batch. */
  lemma TakenAll(n: nat, s: Log)
    requires Reachable(n, s) && (s.pc == Trim || s.pc == Head)
    ensures s.collected <= |s.accepted|
    ensures s.pc == Trim ==> Messages(s.handled) + Flat(s.batch) == s.accepted[..s.collected]
    ensures s.pc == Head ==> Messages(s.handled) == s.accepted[..s.collected]
  {
    hide Flat, Messages;
    ReachableInv(n, s);
    MessagesLength(s.handled);
    Assoc(Messages(s.handled) + Rest(s), Flat(s.bufs), s.cur.items);
    assert Rest(s) == if s.pc == Trim then Flat(s.batch) else [] by {
      assert Flat(s.batch)[0..] + [] == Flat(s.batch);
    }
    assert Messages(s.handled) + [] == Messages(s.handled);
  }

  /** At the head of the loop everything collected has been written or dropped. */
  lemma TakenHandled(n: nat, s: Log, s': Log)
    requires Reachable(n, s) && s.pc == Trim && Reachable(n, s') && s'.pc == Head && Grown(s, s')
    ensures Messages(s'.handled) == Messages(s.handled) + Flat(s.batch)
  {
    hide Flat, Messages;
    TakenAll(n, s);
    TakenAll(n, s');
  }

  /** What the collecting step leaves in each holder. */
  lemma Collected(s: Log)
    requires s.pc == Collect
    ensures Can(s, Writer) && Next(s, Writer) == Collects(s)
    ensures var s' := Collects(s);
      && s'.batch == (if s.cur.items != [] then s.bufs + [s.cur] else s.bufs) && s'.bufs == s.batch
      && s'.cur == (if s.cur.items != [] then s.new1 else s.cur)
      && s'.new1 == (if s.cur.items != [] then MOVED else s.new1)
      && s'.next == (if s.next.block.None? then s.new2 else s.next)
      && s'.new2 == (if s.next.block.None? then MOVED else s.new2)
      && s'.n == s.n && s'.done == s.done && s'.blocks == s.blocks && s'.file == s.file
  {
  }

  function Lines(ms: seq<Message>): seq<Line> {
    seq(|ms|, i requires 0 <= i < |ms| => Logged(ms[i]))
  }

  lemma LinesMore(ms: seq<Message>, k: nat)
    requires k < |ms|
    ensures Lines(ms[..k + 1]) == Lines(ms[..k]) + [Logged(ms[k])]
  {
  }

  lemma NothingYet(bs: seq<Buffer>)
    ensures Flat(bs[..0]) == [] && Lines(Flat(bs)[..0]) == []
  {
  }

  /** The messages of buffer i of a batch start where those of the buffers before it end. */
  lemma FlatAt(bs: seq<Buffer>, i: nat)
    requires i < |bs|
    ensures |Flat(bs[..i + 1])| == |Flat(bs[..i])| + |bs[i].items| <= |Flat(bs)|
    ensures forall j | 0 <= j < |bs[i].items| :: Flat(bs)[|Flat(bs[..i])| + j] == bs[i].items[j]
  {
    hide Flat;
    assert bs[..i + 1] == bs[..i] + [bs[i]];
    FlatAppend(bs[..i], bs[i]);
    FlatSplit(bs, i + 1);
  }

  /** The writer's own part of the state. */
  ghost predicate SameWriter(s: Log, s': Log) {
    && s'.pc == s.pc && s'.new1 == s.new1 && s'.new2 == s.new2 && s'.batch == s.batch && s'.pos == s.pos
    && s'.tail == s.tail && s'.handled == s.handled && s'.file == s.file && s'.collected == s.collected
    && s'.freed == s.freed && s'.n == s.n && (s.done ==> s'.done)
  }
}

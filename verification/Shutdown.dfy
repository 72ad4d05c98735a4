/** No task is left behind when the workers leave. */
module Shutdown {
  import opened Machine
  import opened Frames
  import Counters

  // ----- the stop flag -----

  predicate StopWorker(stop: bool, x: Worker) {
    && (x.IdleTerm() ==> stop)
    && (x.pc == Exited ==> x.IdleTerm())
    && (x.pc == IdleQuit ==> stop)
    && (x.pc.IdleStopping? && 0 < x.pc.read ==> stop)
    && (x.pc.Steal? ==> 0 < x.pc.offset)
    && x.idle != Hold && (x.idle == Running <==> InIdle(x.pc)) && (x.idling <==> Polling(x.pc))
  }

  /** From setting `idling` in the idle loop to clearing it. */
  predicate Polling(pc: WorkerPc) {
    (pc.IdleStopping? && !pc.again)
    || pc == IdleQuit || pc == IdleHas || pc == IdleBack || pc == IdleWait || pc == IdleClear
  }

  /** The worker executes its idle fiber. */
  predicate InIdle(pc: WorkerPc) {
    match pc
    case IdleSet | IdleStopping(_, _) | IdleQuit | IdleHas | IdleBack | IdleWait | IdleClear | IdleEvents
       | IdlePush(_) => true
    case _ => false
  }

  /** Idle fibers terminate only after stop_ has been set. */
  ghost predicate StopFirst(s: State) {
    forall w | 0 <= w < |s.workers| :: StopWorker(s.stop, s.workers[w])
  }

  // ----- who will still look at a queue -----

  /** How many rounds after the first a thief reaches queue q. */
  function Offset(n: nat, thief: nat, q: nat): int {
    if thief < q then q - thief else q + n - thief
  }

  /** Worker u is alive and will look at queue q again before it can leave: its idle fiber has not terminated,
      or the last scan it makes has not passed q yet. */
  predicate Covers(n: nat, x: Worker, u: nat, q: nat)
    requires u < n && q < n
  {
    && x.pc != Exited
    && (x.IdleTerm() && x.pc.Steal? ==> u != q && x.pc.offset <= Offset(n, u, q))
  }

  /** Some worker will look at queue q again. */
  ghost predicate Watched(s: State, q: nat) {
    q < |s.workers| && exists u :: 0 <= u < |s.workers| && Covers(|s.workers|, s.workers[u], u, q)
  }

  /** Queue q is empty, or some worker will look at it again. */
  ghost predicate Covered(s: State, q: nat) {
    q < |s.queues| && s.queues[q] != [] ==> Watched(s, q)
  }

  /** The two steps that can take the last cover from a queue, or fill one that has none: a thief loses its try_lock to
      a thread outside the pool or to the caller of stop(), or a thread outside the pool pushes. */
  predicate Touches(s: State, step: Step, q: nat)
    requires Can(s, step)
  {
    match step
    case BlockedStep(w, holder) => !holder.ByWorker? && Victim(|s.workers|, w, s.workers[w].pc.offset) == q
    case OutsideStep(i) => s.outside[i].Push? && s.outside[i].queue == q
    case _ => false
  }

  /** Some worker other than w will look at queue q again. */
  ghost predicate WatchedBesides(s: State, w: nat, q: nat) {
    q < |s.workers| && exists u :: 0 <= u < |s.workers| && u != w && Covers(|s.workers|, s.workers[u], u, q)
  }

  /** In state s the step is about to abandon queue q: a thread outside the pool pushes on a queue that no worker will
      look at again; or the last one that would look at it, in its last scan, loses its try_lock while it has tasks. */
  ghost predicate Abandons(s: State, step: Step, q: nat)
    requires Can(s, step)
  {
    && q < |s.queues| && Touches(s, step, q)
    && (step.OutsideStep? ==> !Watched(s, q))
    && (step.BlockedStep? ==>
          s.queues[q] != [] && s.workers[step.w].IdleTerm() && !WatchedBesides(s, step.w, q))
  }

  lemma VictimOffset(n: nat, w: nat, i: nat, q: nat)
    requires w < n && q < n && 0 < i < n
    ensures Victim(n, w, i) == q <==> q != w && Offset(n, w, q) == i
  {
    if w + i < n {
      ModSmall(w + i, n, 0);
    } else {
      ModSmall(w + i, n, 1);
    }
  }

  lemma ModSmall(a: nat, n: nat, k: nat)
    requires 0 < n && n * k <= a < n * k + n
    ensures a % n == a - n * k
  {
    SameQuotient(a, n, a / n, k);
  }

  lemma SameQuotient(a: nat, n: nat, q: nat, k: nat)
    requires n * k <= a < n * k + n && n * q <= a < n * q + n
    ensures q == k
  {
    if q < k {
      MulMono(n, q + 1, k);
    } else if k < q {
      MulMono(n, k + 1, q);
    }
  }

  lemma MulMono(n: nat, a: nat, b: nat)
    requires a <= b
    ensures n * a <= n * b
  {
    assert n * b == n * a + n * (b - a);
  }

  /** Only worker w moves. If the queue is non-empty afterwards, it is covered by w, or by whoever covered it before. */
  lemma CoveredFrame(s: State, s': State, w: nat, q: nat)
    requires q < |s.queues| == |s.workers| && Covered(s, q) && w < |s.workers| == |s'.workers| == |s'.queues|
    requires forall u | 0 <= u < |s.workers| && u != w ::
               s'.workers[u].pc == s.workers[u].pc && s'.workers[u].idle == s.workers[u].idle
    requires s'.queues[q] != [] ==>
               || Covers(|s.workers|, s'.workers[w], w, q)
               || (s.queues[q] != [] && !Covers(|s.workers|, s.workers[w], w, q))
    ensures Covered(s', q)
  {
    if s'.queues[q] != [] && !Covers(|s.workers|, s'.workers[w], w, q) {
      var u :| 0 <= u < |s.workers| && Covers(|s.workers|, s.workers[u], u, q);
      assert Covers(|s'.workers|, s'.workers[u], u, q);
    }
  }

  lemma CoveredRun(s: State, w: nat, q: nat)
    requires q < |s.queues| == |s.workers| && Covered(s, q) && StopFirst(s) && RunCan(s, w)
    ensures Covered(RunNext(s, w), q)
  {
    hide Covered, RunNext, Victim, StopFirst;
    RunFrame(s, w);
    var s' := RunNext(s, w);
    var pc := s.workers[w].pc;
    if pc.Steal? {
      CoveredSteal(s, w, q);
    } else {
      if pc.Pop? {
        PopLeaves(s, w);
      }
      CoveredFrame(s, s', w, q);
    }
  }

  /** A worker goes on to steal only when its own queue is empty. */
  lemma PopLeaves(s: State, w: nat)
    requires RunCan(s, w) && s.workers[w].pc.Pop?
    ensures var s' := RunNext(s, w); s'.workers[w].pc.Steal? ==> s'.queues[w] == []
  {
  }

  lemma CoveredSteal(s: State, w: nat, q: nat)
    requires q < |s.queues| == |s.workers| && Covered(s, q) && StopFirst(s) && RunCan(s, w) && s.workers[w].pc.Steal?
    ensures Covered(RunNext(s, w), q)
  {
    hide Covered, Victim, RunNext;
    RunFrame(s, w);
    StealLeaves(s, w);
    assert StopWorker(s.stop, s.workers[w]);
    var i := s.workers[w].pc.offset;
    if i < |s.workers| {
      VictimOffset(|s.workers|, w, i, q);
    }
    CoveredFrame(s, RunNext(s, w), w, q);
  }

  /** A thief passes its victim only when the victim's queue is empty. */
  lemma StealLeaves(s: State, w: nat)
    requires RunCan(s, w) && s.workers[w].pc.Steal?
    ensures var s' := RunNext(s, w); var i := s.workers[w].pc.offset; var n := |s.workers|;
            && s'.workers[w].IdleTerm() == s.workers[w].IdleTerm()
            && (i < n ==> s'.workers[w].pc.Got? || (s'.workers[w].pc == Steal(i + 1) && s'.queues == s.queues
                                                    && Victim(n, w, i) < n && s.queues[Victim(n, w, i)] == []))
            && (n <= i ==> s'.queues == s.queues
                           && s'.workers[w].pc == if s.workers[w].IdleTerm() then Exited else IdleSet)
            && (forall q | 0 <= q < |s.queues| && s'.queues[q] != [] :: s.queues[q] != [])
  {
  }

  /** A try_lock lost to a worker: that worker will look at the queue itself. */
  lemma CoveredBlocked(s: State, w: nat, holder: Holder, q: nat)
    requires q < |s.queues| == |s.workers| && Covered(s, q) && StopFirst(s) && BlockedCan(s, w, holder)
    requires holder.ByWorker? || Victim(|s.workers|, w, s.workers[w].pc.offset) != q
    ensures Covered(BlockedNext(s, w, holder), q)
  {
    hide Victim;
    var s' := BlockedNext(s, w, holder);
    assert StopWorker(s.stop, s.workers[w]);
    if s.queues[q] != [] {
      VictimOffset(|s.workers|, w, s.workers[w].pc.offset, q);
      var u :| 0 <= u < |s.workers| && Covers(|s.workers|, s.workers[u], u, q);
      if holder.ByWorker? && Victim(|s.workers|, w, s.workers[w].pc.offset) == q {
        HolderCovers(s, holder.index, q);
        assert Covers(|s'.workers|, s'.workers[holder.index], holder.index, q);
      } else {
        assert Covers(|s'.workers|, s'.workers[u], u, q);
      }
    }
  }

  /** Whoever may hold the mutex of queue q, other than a thread outside the pool, covers q. */
  lemma HolderCovers(s: State, u: nat, q: nat)
    requires StopFirst(s) && u < |s.workers| == |s.queues| && q < |s.queues| && AtQueue(s, u, q)
    ensures Covers(|s.workers|, s.workers[u], u, q)
  {
    hide Victim;
    assert StopWorker(s.stop, s.workers[u]);
    if s.workers[u].pc.Steal? {
      VictimOffset(|s.workers|, u, s.workers[u].pc.offset, q);
    }
  }

  lemma CoveredIdle(s: State, w: nat, q: nat)
    requires q < |s.queues| == |s.workers| && Covered(s, q) && IdleCan(s, w)
    ensures Covered(IdleNext(s, w), q)
  {
    hide Covered, IdleNext;
    IdleFrame(s, w);
    CoveredFrame(s, IdleNext(s, w), w, q);
  }

  lemma CoveredEvent(s: State, w: nat, e: Event, q: nat)
    requires q < |s.queues| == |s.workers| && Covered(s, q) && EventCan(s, w, e)
    ensures Covered(EventNext(s, w, e), q)
  {
    hide Covered, EventNext;
    EventFrame(s, w, e);
    CoveredFrame(s, EventNext(s, w, e), w, q);
  }

  lemma CoveredBody(s: State, w: nat, a: Action, q: nat)
    requires q < |s.queues| == |s.workers| && Covered(s, q) && BodyCan(s, w, a)
    ensures Covered(BodyNext(s, w, a), q)
  {
    hide Covered, Issue;
    if a.CallSubmit? {
      IssueFrame(s, a.what);
    }
    CoveredFrame(s, BodyNext(s, w, a), w, q);
  }

  lemma CoveredCode(s: State, w: nat, q: nat)
    requires q < |s.queues| == |s.workers| && Covered(s, q) && CodeCan(s, w)
    ensures Covered(CodeNext(s, w), q)
  {
    hide Covered, CodeNext;
    CodeFrame(s, w);
    var s' := CodeNext(s, w);
    forall u | 0 <= u < |s.workers| ensures s'.workers[u].idle == s.workers[u].idle {
      assert s'.workers[u].(eventfd := 0, pc := Pop).idle == s.workers[u].(eventfd := 0, pc := Pop).idle;
    }
    CoveredFrame(s, s', w, q);
  }

  lemma CoveredSame(s: State, s': State, q: nat)
    requires q < |s.queues| == |s.workers| && Covered(s, q) && |s'.queues| == |s.queues| && s'.queues[q] == s.queues[q]
    requires |s'.workers| == |s.workers| && forall u | 0 <= u < |s.workers| ::
               s'.workers[u].pc == s.workers[u].pc && s'.workers[u].idle == s.workers[u].idle
    ensures Covered(s', q)
  {
    if s'.queues[q] != [] {
      var u :| 0 <= u < |s.workers| && Covers(|s.workers|, s.workers[u], u, q);
      assert Covers(|s'.workers|, s'.workers[u], u, q);
    }
  }

  lemma CoveredOutside(s: State, i: nat, q: nat)
    requires q < |s.queues| == |s.workers| && Covered(s, q) && OutsideCan(s, i)
    requires !(s.outside[i].Push? && s.outside[i].queue == q)
    ensures Covered(OutsideNext(s, i), q)
  {
    hide Covered, CallEffect;
    CallFrame(s, s.outside[i]);
    Counters.SamePcs(s.workers, OutsideNext(s, i).workers);
    CoveredSame(s, OutsideNext(s, i), q);
  }

  lemma CoveredStop(s: State, q: nat)
    requires q < |s.queues| == |s.workers| && Covered(s, q)
    ensures Covered(StopNext(s), q)
  {
    hide Covered, StopNext;
    StopFrame(s);
    Counters.SamePcs(s.workers, StopNext(s).workers);
    CoveredSame(s, StopNext(s), q);
  }

  /** Every step keeps a queue covered, except one that abandons it. */
  lemma CoveredStep(s: State, step: Step, q: nat)
    requires |s.queues| == |s.workers| && Covered(s, q) && StopFirst(s) && Can(s, step)
    ensures Covered(Next(s, step), q) <==> !Abandons(s, step, q)
  {
    SameQueues(s, step);
    if |s.queues| <= q {
      assert !Abandons(s, step, q);
    } else if step.BlockedStep? && Touches(s, step, q) {
      TouchedByThief(s, step.w, step.holder, q);
    } else if step.OutsideStep? && Touches(s, step, q) {
      TouchedByPush(s, step.call, q);
    } else {
      StillCovered(s, step, q);
    }
  }

  lemma SameQueues(s: State, step: Step)
    requires Can(s, step)
    ensures |Next(s, step).queues| == |s.queues| && |Next(s, step).workers| == |s.workers|
  {
    hide RunNext, IdleNext, EventNext, CodeNext, CallEffect, StopNext, Issue, Victim;
    match step
    case RunStep(w) => RunFrame(s, w);
    case IdleStep(w) => IdleFrame(s, w);
    case EventStep(w, e) => EventFrame(s, w, e);
    case CodeStep(w) => CodeFrame(s, w);
    case OutsideStep(i) => CallFrame(s, s.outside[i]);
    case StopStep => StopFrame(s);
    case SubmitStep(what) => IssueFrame(s, what);
    case BodyStep(_, CallSubmit(what)) => IssueFrame(s, what);
    case _ =>
  }

  lemma TouchedByThief(s: State, w: nat, holder: Holder, q: nat)
    requires StopFirst(s) && BlockedCan(s, w, holder) && !holder.ByWorker?
    requires Victim(|s.workers|, w, s.workers[w].pc.offset) == q < |s.queues|
    ensures Covered(BlockedNext(s, w, holder), q) <==> !Abandons(s, BlockedStep(w, holder), q)
  {
    hide Victim;
    var s' := BlockedNext(s, w, holder);
    assert StopWorker(s.stop, s.workers[w]);
    VictimOffset(|s.workers|, w, s.workers[w].pc.offset, q);
    forall u | 0 <= u < |s.workers| && u != w
      ensures Covers(|s'.workers|, s'.workers[u], u, q) == Covers(|s.workers|, s.workers[u], u, q)
    {
    }
    assert Covers(|s'.workers|, s'.workers[w], w, q) <==> !s.workers[w].IdleTerm();
    assert Watched(s', q) <==> WatchedBesides(s, w, q) || !s.workers[w].IdleTerm();
  }

  lemma TouchedByPush(s: State, i: nat, q: nat)
    requires OutsideCan(s, i) && s.outside[i].Push? && s.outside[i].queue == q && q < |s.queues|
    ensures |OutsideNext(s, i).queues| == |s.queues|
    ensures Covered(OutsideNext(s, i), q) <==> !Abandons(s, OutsideStep(i), q)
  {
  }

  /** A queue with tasks that no worker will look at again keeps its tasks. */
  lemma UnwatchedKeeps(s: State, step: Step, q: nat)
    requires q < |s.queues| == |s.workers| && s.queues[q] != [] && !Watched(s, q) && StopFirst(s) && Can(s, step)
    ensures |Next(s, step).queues| == |s.queues| && Next(s, step).queues[q] != []
  {
    hide Watched, RunNext, IdleNext, EventNext, BodyNext, CodeNext, OutsideNext, StopNext, Issue, Victim;
    SameQueues(s, step);
    match step
    case RunStep(w) => UnwatchedRun(s, w, q);
    case IdleStep(w) => IdleFrame(s, w);
    case EventStep(w, e) => UnwatchedEvent(s, w, e, q);
    case BodyStep(w, a) => UnwatchedBody(s, w, a, q);
    case CodeStep(w) => UnwatchedCode(s, w, q);
    case OutsideStep(i) => UnwatchedOutside(s, i, q);
    case SubmitStep(what) => IssueFrame(s, what);
    case StopStep => StopFrame(s);
    case BlockedStep(_, _) =>
    case ExpiredStep(_) =>
  }

  /** Only a worker that covers the queue takes from it. */
  lemma UnwatchedRun(s: State, w: nat, q: nat)
    requires q < |s.queues| && s.queues[q] != [] && !Watched(s, q) && StopFirst(s) && RunCan(s, w)
    ensures |RunNext(s, w).queues| == |s.queues| && RunNext(s, w).queues[q] != []
  {
    hide Victim;
    assert StopWorker(s.stop, s.workers[w]);
    assert !Covers(|s.workers|, s.workers[w], w, q);
    if s.workers[w].pc.Steal? && s.workers[w].pc.offset < |s.workers| {
      VictimOffset(|s.workers|, w, s.workers[w].pc.offset, q);
    }
  }

  lemma UnwatchedEvent(s: State, w: nat, e: Event, q: nat)
    requires EventCan(s, w, e) && q < |s.queues| && s.queues[q] != []
    ensures |EventNext(s, w, e).queues| == |s.queues| && EventNext(s, w, e).queues[q] != []
  {
  }

  lemma UnwatchedBody(s: State, w: nat, a: Action, q: nat)
    requires BodyCan(s, w, a) && q < |s.queues| && s.queues[q] != []
    ensures |BodyNext(s, w, a).queues| == |s.queues| && BodyNext(s, w, a).queues[q] != []
  {
  }

  lemma UnwatchedCode(s: State, w: nat, q: nat)
    requires CodeCan(s, w) && q < |s.queues| && s.queues[q] != []
    ensures |CodeNext(s, w).queues| == |s.queues| && CodeNext(s, w).queues[q] != []
  {
    hide Register, Unregister, CountIo, Exchange, Leave, CodeNext;
    CodeFrame(s, w);
    if Mine(s, w).pc.Submit? || Mine(s, w).pc.WakePush? {
      PushingCode(s, w);
    } else {
      OtherCode(s, w);
    }
  }

  lemma PushingCode(s: State, w: nat)
    requires CodeCan(s, w) && (Mine(s, w).pc.Submit? || Mine(s, w).pc.WakePush?)
    ensures |CodeNext(s, w).queues| == |s.queues|
    ensures forall q | 0 <= q < |s.queues| && s.queues[q] != [] :: CodeNext(s, w).queues[q] != []
  {
  }

  lemma OtherCode(s: State, w: nat)
    requires CodeCan(s, w) && !Mine(s, w).pc.Submit? && !Mine(s, w).pc.WakePush?
    ensures CodeNext(s, w).queues == s.queues
  {
  }

  lemma UnwatchedOutside(s: State, i: nat, q: nat)
    requires OutsideCan(s, i) && q < |s.queues| && s.queues[q] != []
    ensures |OutsideNext(s, i).queues| == |s.queues| && OutsideNext(s, i).queues[q] != []
  {
  }

  /** Nobody will look at an abandoned queue. */
  lemma AbandonedUnwatched(s: State, step: Step, q: nat)
    requires StopFirst(s) && Can(s, step) && Abandons(s, step, q)
    ensures !Watched(Next(s, step), q)
  {
    hide Victim;
    if step.BlockedStep? {
      assert StopWorker(s.stop, s.workers[step.w]);
      VictimOffset(|s.workers|, step.w, s.workers[step.w].pc.offset, q);
    }
  }

  /** Nothing is abandoned before stop() is called. */
  lemma AbandonedAfterStop(s: State, step: Step, q: nat)
    requires |s.queues| == |s.workers| && StopFirst(s) && Can(s, step) && Abandons(s, step, q)
    ensures s.stop && Touches(s, step, q)
  {
    hide Victim;
    if step.OutsideStep? {
      assert StopWorker(s.stop, s.workers[q]);
      assert !Covers(|s.workers|, s.workers[q], q, q);
    } else {
      assert StopWorker(s.stop, s.workers[step.w]);
    }
  }

  lemma StillCovered(s: State, step: Step, q: nat)
    requires q < |s.queues| == |s.workers| && Covered(s, q) && StopFirst(s) && Can(s, step) && !Touches(s, step, q)
    ensures Covered(Next(s, step), q)
  {
    hide Covered, StopFirst, Victim, RunNext, IdleNext, EventNext, BodyNext, CodeNext, OutsideNext, StopNext,
         BlockedNext, Issue;
    match step
    case RunStep(w) => CoveredRun(s, w, q);
    case BlockedStep(w, holder) => CoveredBlocked(s, w, holder, q);
    case IdleStep(w) => CoveredIdle(s, w, q);
    case EventStep(w, e) => CoveredEvent(s, w, e, q);
    case BodyStep(w, a) => CoveredBody(s, w, a, q);
    case CodeStep(w) => CoveredCode(s, w, q);
    case ExpiredStep(_) => CoveredSame(s, Next(s, step), q);
    case SubmitStep(what) =>
      IssueFrame(s, what);
      CoveredSame(s, Next(s, step), q);
    case OutsideStep(i) => CoveredOutside(s, i, q);
    case StopStep => CoveredStop(s, q);
  }

  /** A live idle fiber is enough: its worker covers every queue. */
  lemma LiveIdleCovers(s: State, q: nat, u: nat)
    requires StopFirst(s) && u < |s.workers| == |s.queues| && q < |s.queues| && !s.workers[u].IdleTerm()
    ensures Watched(s, q)
  {
    assert StopWorker(s.stop, s.workers[u]);
    assert Covers(|s.workers|, s.workers[u], u, q);
  }

  // ----- the stop flag, step by step -----

  lemma StopOthers(s: State, s': State, w: nat)
    requires StopFirst(s) && w < |s.workers| == |s'.workers| && (s.stop ==> s'.stop)
    requires forall u | 0 <= u < |s.workers| && u != w ::
               s'.workers[u].pc == s.workers[u].pc && s'.workers[u].idle == s.workers[u].idle
               && s'.workers[u].idling == s.workers[u].idling
    requires StopWorker(s'.stop, s'.workers[w])
    ensures StopFirst(s')
  {
    forall u | 0 <= u < |s'.workers| ensures StopWorker(s'.stop, s'.workers[u]) {
      assert StopWorker(s.stop, s.workers[u]);
    }
  }

  lemma StopIdle(s: State, w: nat)
    requires StopFirst(s) && IdleCan(s, w)
    ensures StopFirst(IdleNext(s, w))
  {
    assert StopWorker(s.stop, s.workers[w]);
    hide StopFirst;
    IdleStops(s, w);
    IdleFrame(s, w);
    StopOthers(s, IdleNext(s, w), w);
  }

  lemma IdleStops(s: State, w: nat)
    requires IdleCan(s, w) && StopWorker(s.stop, s.workers[w])
    ensures StopWorker(s.stop, IdleWorker(s, w))
  {
    hide StoppingRead;
    if s.workers[w].pc.IdleStopping? {
      ReadsStop(s, s.workers[w].pc.read);
    }
  }

  /** stopping() reads stop_ first. */
  lemma ReadsStop(s: State, read: nat)
    ensures StoppingRead(s, read) != No && read == 0 ==> s.stop
    ensures StoppingRead(s, read) == Yes ==> 0 < read
  {
  }

  lemma StopStepKeeps(s: State, step: Step)
    requires StopFirst(s) && Can(s, step) && 0 < |s.workers|
    ensures StopFirst(Next(s, step))
  {
    hide StopFirst, RunNext, IdleNext, EventNext, BodyNext, CodeNext, OutsideNext, StopNext, Issue;
    match step
    case RunStep(w) => StopRun(s, w);
    case BlockedStep(w, holder) =>
      StopAt(s, w);
      StopOthers(s, Next(s, step), w);
    case IdleStep(w) => StopIdle(s, w);
    case EventStep(w, e) =>
      StopAt(s, w);
      EventFrame(s, w, e);
      StopOthers(s, Next(s, step), w);
    case BodyStep(w, a) => StopBody(s, w, a);
    case CodeStep(w) => StopCode(s, w);
    case ExpiredStep(w) =>
      StopAt(s, 0);
      StopOthers(s, Next(s, step), 0);
    case SubmitStep(what) =>
      StopAt(s, 0);
      IssueFrame(s, what);
      StopOthers(s, Next(s, step), 0);
    case OutsideStep(i) => StopOutside(s, i);
    case StopStep => StopStop(s);
  }

  lemma StopAt(s: State, w: nat)
    requires StopFirst(s) && w < |s.workers|
    ensures StopWorker(s.stop, s.workers[w])
  {
  }

  lemma StopRun(s: State, w: nat)
    requires StopFirst(s) && RunCan(s, w)
    ensures StopFirst(RunNext(s, w))
  {
    hide StopFirst, RunNext, Victim;
    StopAt(s, w);
    RunFrame(s, w);
    if s.workers[w].pc.Steal? {
      StealLeaves(s, w);
    }
    StopOthers(s, RunNext(s, w), w);
  }

  lemma StopBody(s: State, w: nat, a: Action)
    requires StopFirst(s) && BodyCan(s, w, a)
    ensures StopFirst(BodyNext(s, w, a))
  {
    hide StopFirst, Issue;
    StopAt(s, w);
    if a.CallSubmit? {
      IssueFrame(s, a.what);
    }
    StopOthers(s, BodyNext(s, w, a), w);
  }

  lemma StopCode(s: State, w: nat)
    requires StopFirst(s) && CodeCan(s, w)
    ensures StopFirst(CodeNext(s, w))
  {
    hide StopFirst, CodeNext;
    StopAt(s, w);
    CodeFrame(s, w);
    var s' := CodeNext(s, w);
    forall u | 0 <= u < |s.workers|
      ensures s'.workers[u].idle == s.workers[u].idle && s'.workers[u].idling == s.workers[u].idling
    {
      assert s'.workers[u].(eventfd := 0, pc := Pop).idle == s.workers[u].(eventfd := 0, pc := Pop).idle;
      assert s'.workers[u].(eventfd := 0, pc := Pop).idling == s.workers[u].(eventfd := 0, pc := Pop).idling;
    }
    StopOthers(s, s', w);
  }

  lemma StopOutside(s: State, i: nat)
    requires StopFirst(s) && OutsideCan(s, i) && 0 < |s.workers|
    ensures StopFirst(OutsideNext(s, i))
  {
    hide StopFirst, CallEffect;
    StopAt(s, 0);
    CallFrame(s, s.outside[i]);
    Counters.SamePcs(s.workers, OutsideNext(s, i).workers);
    StopOthers(s, OutsideNext(s, i), 0);
  }

  lemma StopStop(s: State)
    requires StopFirst(s) && 0 < |s.workers|
    ensures StopFirst(StopNext(s))
  {
    hide StopFirst, StopNext;
    StopAt(s, 0);
    StopFrame(s);
    Counters.SamePcs(s.workers, StopNext(s).workers);
    StopOthers(s, StopNext(s), 0);
  }
}

/** A worker blocked in epoll_wait with work in its queue is always about to be woken. */
module Alert {
  import opened Machine
  import opened Frames
  import Counters
  import Switching

  /** A call of submit() between a push that needs a tickle and the end of its write to the eventfd of worker w. */
  predicate Notifies(p: SubmitPc, w: nat) {
    p == Tickle(w, true) || p == WriteEventFd(w)
  }

  predicate FiberNotifies(x: Fiber, w: nat) {
    x.pc.Submit? && Notifies(x.pc.call, w)
  }

  ghost predicate Notified(s: State, w: nat) {
    || (exists f :: 0 <= f < |s.fibers| && FiberNotifies(s.fibers[f], w))
    || (exists i :: 0 <= i < |s.outside| && Notifies(s.outside[i], w))
  }

  /** From setting `idling` to leaving epoll_wait, on the path that polls. */
  predicate MustIdle(pc: WorkerPc) {
    (pc.IdleStopping? && !pc.again) || pc == IdleHas || pc == IdleWait
  }

  ghost predicate AlertAt(s: State, w: nat)
    requires w < |s.workers| == |s.queues|
  {
    && (MustIdle(s.workers[w].pc) ==> s.workers[w].idling)
    && (s.workers[w].pc == IdleWait && s.queues[w] != [] ==> 0 < s.workers[w].eventfd || Notified(s, w))
  }

  ghost predicate Alerted(s: State) {
    && |s.queues| == |s.workers|
    && forall w | 0 <= w < |s.workers| :: AlertAt(s, w)
  }

  /** Calls that notify w still do. */
  lemma NotifiedKept(s: State, s': State, w: nat)
    requires Notified(s, w) && |s.fibers| <= |s'.fibers| && |s.outside| <= |s'.outside|
    requires forall f | 0 <= f < |s.fibers| && FiberNotifies(s.fibers[f], w) :: FiberNotifies(s'.fibers[f], w)
    requires forall i | 0 <= i < |s.outside| && Notifies(s.outside[i], w) :: Notifies(s'.outside[i], w)
    ensures Notified(s', w)
  {
    if f :| 0 <= f < |s.fibers| && FiberNotifies(s.fibers[f], w) {
      assert FiberNotifies(s'.fibers[f], w);
    } else {
      var i :| 0 <= i < |s.outside| && Notifies(s.outside[i], w);
      assert Notifies(s'.outside[i], w);
    }
  }

  /** A step that lets no call end: every worker that blocks blocked before, on a queue that was no emptier. */
  lemma AlertFrame(s: State, s': State)
    requires Alerted(s) && |s'.workers| == |s'.queues| == |s.workers|
    requires |s.fibers| <= |s'.fibers| && |s.outside| <= |s'.outside|
    requires forall w | 0 <= w < |s.workers| :: MustIdle(s'.workers[w].pc) ==> s'.workers[w].idling
    requires forall w | 0 <= w < |s.workers| && s'.workers[w].pc == IdleWait && s'.queues[w] != [] ::
               && s.workers[w].pc == IdleWait && s.queues[w] != [] && s.workers[w].eventfd <= s'.workers[w].eventfd
    requires forall f, w | 0 <= f < |s.fibers| && FiberNotifies(s.fibers[f], w) :: FiberNotifies(s'.fibers[f], w)
    requires forall i, w | 0 <= i < |s.outside| && Notifies(s.outside[i], w) :: Notifies(s'.outside[i], w)
    ensures Alerted(s')
  {
    hide Notified, FiberNotifies, Notifies;
    forall w | 0 <= w < |s'.workers| ensures AlertAt(s', w) {
      assert AlertAt(s, w);
      if Notified(s, w) {
        NotifiedKept(s, s', w);
      }
    }
  }

  lemma AlertRun(s: State, w: nat)
    requires Alerted(s) && RunCan(s, w)
    ensures Alerted(RunNext(s, w))
  {
    hide Notified, RunNext;
    RunFrame(s, w);
    var s' := RunNext(s, w);
    forall u | 0 <= u < |s.workers| ensures MustIdle(s'.workers[u].pc) ==> s'.workers[u].idling {
      assert AlertAt(s, u);
    }
    forall f, u | 0 <= f < |s.fibers| && FiberNotifies(s.fibers[f], u) ensures FiberNotifies(s'.fibers[f], u) {
      if Bare(s.fibers[f]) == Bare(s'.fibers[f]) {
        assert Bare(s.fibers[f]).pc == Bare(s'.fibers[f]).pc;
      }
    }
    AlertFrame(s, s');
  }

  lemma AlertBlocked(s: State, w: nat, holder: Holder)
    requires Alerted(s) && BlockedCan(s, w, holder)
    ensures Alerted(BlockedNext(s, w, holder))
  {
    hide Notified;
    var s' := BlockedNext(s, w, holder);
    forall u | 0 <= u < |s.workers| ensures MustIdle(s'.workers[u].pc) ==> s'.workers[u].idling {
      assert AlertAt(s, u);
    }
    AlertFrame(s, s');
  }

  /** idle() polls only after seeing its queue empty with `idling` set. */
  lemma IdlePolls(s: State, w: nat)
    requires IdleCan(s, w) && (MustIdle(s.workers[w].pc) ==> s.workers[w].idling)
    ensures var me := IdleWorker(s, w);
            && (MustIdle(me.pc) ==> me.idling)
            && (me.pc == IdleWait ==> !s.workers[w].pc.IdlePush? && s.queues[w] == [])
  {
    hide StoppingRead;
  }

  lemma AlertIdle(s: State, w: nat)
    requires Alerted(s) && IdleCan(s, w)
    ensures Alerted(IdleNext(s, w))
  {
    hide Notified, IdleNext;
    assert AlertAt(s, w);
    IdleFrame(s, w);
    IdlePolls(s, w);
    var s' := IdleNext(s, w);
    forall u | 0 <= u < |s.workers| ensures MustIdle(s'.workers[u].pc) ==> s'.workers[u].idling {
      assert AlertAt(s, u);
    }
    AlertFrame(s, s');
  }

  lemma AlertEvent(s: State, w: nat, e: Event)
    requires Alerted(s) && EventCan(s, w, e)
    ensures Alerted(EventNext(s, w, e))
  {
    hide Notified, EventNext;
    EventFrame(s, w, e);
    var s' := EventNext(s, w, e);
    forall u | 0 <= u < |s.workers| ensures MustIdle(s'.workers[u].pc) ==> s'.workers[u].idling {
      assert AlertAt(s, u);
    }
    AlertFrame(s, s');
  }

  lemma AlertIssue(s: State, what: Work)
    requires Alerted(s) && IssueCan(s, what)
    ensures Alerted(Issue(s, what))
  {
    hide Notified, Issue;
    IssueFrame(s, what);
    var s' := Issue(s, what);
    forall u | 0 <= u < |s.workers| ensures MustIdle(s'.workers[u].pc) ==> s'.workers[u].idling {
      assert AlertAt(s, u);
    }
    forall f, u | 0 <= f < |s.fibers| && FiberNotifies(s.fibers[f], u) ensures FiberNotifies(s'.fibers[f], u) {
      assert s'.fibers[f].(clean := false).pc == s.fibers[f].(clean := false).pc;
    }
    AlertFrame(s, s');
  }

  lemma AlertBody(s: State, w: nat, a: Action)
    requires Alerted(s) && BodyCan(s, w, a)
    ensures Alerted(BodyNext(s, w, a))
  {
    hide Notified, Issue;
    var s' := BodyNext(s, w, a);
    var s1 := if a.CallSubmit? then Issue(s, a.what) else s;
    if a.CallSubmit? {
      AlertIssue(s, a.what);
      IssueFrame(s, a.what);
      Switching.IssueKeeps(s, w, a.what);
    }
    forall u | 0 <= u < |s1.workers| ensures MustIdle(s'.workers[u].pc) ==> s'.workers[u].idling {
      assert AlertAt(s1, u);
    }
    AlertFrame(s1, s');
  }

  /** Fiber code other than submit(). */
  lemma AlertPlain(s: State, w: nat)
    requires Alerted(s) && CodeCan(s, w) && !Mine(s, w).pc.Submit?
    ensures Alerted(CodeNext(s, w))
  {
    hide Notified, CodeNext;
    CodeFrame(s, w);
    var s' := CodeNext(s, w);
    forall u | 0 <= u < |s.workers|
      ensures MustIdle(s'.workers[u].pc) ==> s'.workers[u].idling
      ensures s'.workers[u].idling == s.workers[u].idling
    {
      assert AlertAt(s, u);
      assert s'.workers[u].(eventfd := 0, pc := Pop).idling == s.workers[u].(eventfd := 0, pc := Pop).idling;
    }
    AlertFrame(s, s');
  }

  /** One step of submit(): a push on an empty queue leaves a call that notifies, a tickle of an idling worker goes on
      to write, and a write makes the eventfd readable. */
  lemma AlertCall(s: State, s': State, p: SubmitPc)
    requires Alerted(s) && CallCan(s, p)
    requires s'.workers == CallEffect(s, p).workers && s'.queues == CallEffect(s, p).queues
    requires |s.fibers| <= |s'.fibers| && |s.outside| <= |s'.outside|
    requires forall f, w | 0 <= f < |s.fibers| && FiberNotifies(s.fibers[f], w) ::
               FiberNotifies(s'.fibers[f], w) || Notifies(p, w)
    requires forall i, w | 0 <= i < |s.outside| && Notifies(s.outside[i], w) ::
               Notifies(s'.outside[i], w) || Notifies(p, w)
    requires forall w :: Notifies(CallNext(s, p), w) ==> Notified(s', w)
    ensures Alerted(s')
  {
    hide Notified, FiberNotifies, CallEffect;
    CallFrame(s, p);
    Counters.SamePcs(s.workers, s'.workers);
    forall w | 0 <= w < |s'.workers| ensures AlertAt(s', w) {
      assert AlertAt(s, w);
      if s'.workers[w].pc == IdleWait && s'.queues[w] != [] {
        CallStill(s, s', p, w);
      }
    }
  }

  lemma CallStill(s: State, s': State, p: SubmitPc, w: nat)
    requires CallCan(s, p) && w < |s.workers| && AlertAt(s, w)
    requires s.workers[w].pc == IdleWait && CallEffect(s, p).queues[w] != []
    requires |s'.workers| == |s.workers| && s'.workers == CallEffect(s, p).workers
    requires |s.fibers| <= |s'.fibers| && |s.outside| <= |s'.outside|
    requires forall f | 0 <= f < |s.fibers| && FiberNotifies(s.fibers[f], w) ::
               FiberNotifies(s'.fibers[f], w) || Notifies(p, w)
    requires forall i | 0 <= i < |s.outside| && Notifies(s.outside[i], w) ::
               Notifies(s'.outside[i], w) || Notifies(p, w)
    requires Notifies(CallNext(s, p), w) ==> Notified(s', w)
    ensures 0 < s'.workers[w].eventfd || Notified(s', w)
  {
    hide Notified, FiberNotifies;
    if Notifies(p, w) || (p.Push? && p.queue == w && s.queues[w] == []) {
    } else if Notified(s, w) {
      NotifiedKept(s, s', w);
    }
  }

  lemma AlertSubmit(s: State, w: nat)
    requires Alerted(s) && CodeCan(s, w) && Mine(s, w).pc.Submit?
    ensures Alerted(CodeNext(s, w))
  {
    hide CallEffect, CallNext;
    var p := Mine(s, w).pc.call;
    CallFrame(s, p);
    var s' := CodeNext(s, w);
    var f := s.workers[w].pc.fiber;
    forall u ensures Notifies(CallNext(s, p), u) ==> Notified(s', u) {
      if Notifies(CallNext(s, p), u) {
        assert FiberNotifies(s'.fibers[f], u);
      }
    }
    AlertCall(s, s', p);
  }

  lemma AlertOutside(s: State, i: nat)
    requires Alerted(s) && OutsideCan(s, i)
    ensures Alerted(OutsideNext(s, i))
  {
    hide CallEffect, CallNext;
    var p := s.outside[i];
    CallFrame(s, p);
    var s' := OutsideNext(s, i);
    forall u ensures Notifies(CallNext(s, p), u) ==> Notified(s', u) {
      if Notifies(CallNext(s, p), u) {
        assert Notifies(s'.outside[i], u);
      }
    }
    AlertCall(s, s', p);
  }

  lemma AlertStop(s: State)
    requires Alerted(s)
    ensures Alerted(StopNext(s))
  {
    hide Notified, StopNext;
    StopFrame(s);
    var s' := StopNext(s);
    Counters.SamePcs(s.workers, s'.workers);
    forall u | 0 <= u < |s.workers| ensures MustIdle(s'.workers[u].pc) ==> s'.workers[u].idling {
      assert AlertAt(s, u);
    }
    AlertFrame(s, s');
  }

  lemma AlertExpired(s: State, w: nat)
    requires Alerted(s) && ExpiredCan(s, w)
    ensures Alerted(ExpiredNext(s, w))
  {
    hide Notified;
    var s' := ExpiredNext(s, w);
    forall u | 0 <= u < |s.workers| ensures MustIdle(s'.workers[u].pc) ==> s'.workers[u].idling {
      assert AlertAt(s, u);
    }
    AlertFrame(s, s');
  }

  lemma AlertBegin(s: State, what: Work)
    requires Alerted(s) && IssueCan(s, what)
    ensures Alerted(OutsideBegin(s, what))
  {
    hide Notified, Issue;
    AlertIssue(s, what);
    IssueFrame(s, what);
    var s1 := Issue(s, what);
    forall u | 0 <= u < |s1.workers| ensures MustIdle(s1.workers[u].pc) ==> s1.workers[u].idling {
      assert AlertAt(s1, u);
    }
    AlertFrame(s1, OutsideBegin(s, what));
  }

  lemma AlertStep(s: State, step: Step)
    requires Alerted(s) && Can(s, step)
    ensures Alerted(Next(s, step))
  {
    hide Alerted, RunNext, BlockedNext, IdleNext, EventNext, BodyNext, CodeNext, ExpiredNext, OutsideBegin, OutsideNext,
         StopNext;
    match step
    case RunStep(w) => AlertRun(s, w);
    case BlockedStep(w, holder) => AlertBlocked(s, w, holder);
    case IdleStep(w) => AlertIdle(s, w);
    case EventStep(w, e) => AlertEvent(s, w, e);
    case BodyStep(w, a) => AlertBody(s, w, a);
    case CodeStep(w) =>
      if Mine(s, w).pc.Submit? {
        AlertSubmit(s, w);
      } else {
        AlertPlain(s, w);
      }
    case ExpiredStep(w) => AlertExpired(s, w);
    case SubmitStep(what) => AlertBegin(s, what);
    case OutsideStep(i) => AlertOutside(s, i);
    case StopStep => AlertStop(s);
  }
}

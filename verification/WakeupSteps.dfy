/** Every step keeps the accounts of wake-ups. */
module WakeupSteps {
  import Bags
  import opened Machine
  import opened Tokens
  import opened Switching
  import opened Frames
  import opened Wakeup

  /** What a step must do for the accounts to stay right. */
  lemma WokenFrame(s: State, s': State, step: Step)
    requires Woken(s) && Can(s, step) && s' == Next(s, step) && |s.fibers| <= |s'.fibers|
    requires step.RunStep? ==> BackAgrees(s, step.w)
    requires forall f | 0 <= f < |s.fibers| && s'.fibers[f].clean ::
               s.fibers[f].clean
               && Owed(s'.fibers[f], s'.waits) == Owed(s.fibers[f], s.waits) + Delta(s, step, Resume(f))
    requires forall f | 0 <= f < |s.fibers| && s'.fibers[f].state == FiberState.Ready ::
               Delta(s, step, Resume(f)) >= if s.fibers[f].state == FiberState.Ready then 0 else 1
    requires forall f | |s.fibers| <= f < |s'.fibers| ::
               && Count(s, Resume(f)) == 0 && Delta(s, step, Resume(f)) == 1
               && (s'.fibers[f].clean ==> Owed(s'.fibers[f], s'.waits) == 1)
    requires forall k | 0 <= k < |s'.waits| :: Current(s', k)
    ensures Woken(s')
  {
    hide Count, Next, Can, Owed, Delta, Current;
    forall f | 0 <= f < |s'.fibers|
      ensures s'.fibers[f].clean ==> Count(s', Resume(f)) == Owed(s'.fibers[f], s'.waits)
      ensures s'.fibers[f].state == FiberState.Ready ==> 1 <= Count(s', Resume(f))
    {
      StepCount(s, step, Resume(f));
    }
  }

  /** Fibers and waits as they were, and no Resume task made or consumed. */
  lemma WokenSame(s: State, s': State, step: Step)
    requires Woken(s) && Can(s, step) && s' == Next(s, step) && s'.fibers == s.fibers && s'.waits == s.waits
    requires step.RunStep? ==> BackAgrees(s, step.w)
    requires forall f | 0 <= f < |s.fibers| :: Delta(s, step, Resume(f)) == 0
    ensures Woken(s')
  {
    hide Count, Next, Can, Owed, Delta;
    forall k | 0 <= k < |s'.waits| ensures Current(s', k) {
      assert Current(s, k);
    }
    WokenFrame(s, s', step);
  }

  /** No task refers to a fiber that does not exist. */
  lemma NotYet(s: State)
    requires Referenced(s)
    ensures Count(s, Resume(|s.fibers|)) == 0
  {
    hide Count;
    var t := Resume(|s.fibers|);
    assert 0 < Count(s, t) ==> TaskOk(s, t);
  }

  // ----- run() -----

  lemma WokenWrap(s: State, w: nat)
    requires Woken(s) && Referenced(s) && RunCan(s, w) && s.workers[w].pc.Counted? && !s.workers[w].pc.task.Resume?
    ensures Woken(RunNext(s, w))
  {
    hide Count, RunNext;
    WrapFrame(s, w);
    var s' := RunNext(s, w);
    NotYet(s);
    forall k | 0 <= k < |s'.waits| ensures Current(s', k) {
      assert Current(s, k);
    }
    WokenFrame(s, s', RunStep(w));
  }

  lemma WokenEnter(s: State, w: nat)
    requires Woken(s) && Referenced(s) && RunCan(s, w)
    requires s.workers[w].pc.Locked? && s.fibers[s.workers[w].pc.fiber].state != Term
    requires Switched(s)
    ensures Woken(RunNext(s, w))
  {
    hide Count, RunNext;
    EnterFrame(s, w);
    var s' := RunNext(s, w);
    var f := s.workers[w].pc.fiber;
    HandCounts(s, w, Resume(f));
    assert WorkerOk(s.fibers, w, s.workers[w].pc);
    assert FiberOk(s.workers, f, s.fibers[f]);
    assert PcOk(|s.queues|, s.waits, f, s.fibers[f].pc);
    forall k | 0 <= k < |s'.waits| ensures Current(s', k) {
      assert Current(s, k);
    }
    WokenFrame(s, s', RunStep(w));
  }

  lemma OwedBare(x: Fiber, y: Fiber, waits: seq<Wait>)
    requires Bare(x) == Bare(y)
    ensures Owed(x, waits) == Owed(y, waits) && x.clean == y.clean && x.state == y.state && x.pc == y.pc
  {
    assert Bare(x).state == Bare(y).state && Bare(x).pc == Bare(y).pc && Bare(x).clean == Bare(y).clean;
  }

  lemma WokenLocks(s: State, w: nat)
    requires Woken(s) && Referenced(s) && RunCan(s, w) && BackAgrees(s, w) && Switched(s)
    requires !(s.workers[w].pc.Counted? && !s.workers[w].pc.task.Resume?)
    requires !(s.workers[w].pc.Locked? && s.fibers[s.workers[w].pc.fiber].state != Term)
    ensures Woken(RunNext(s, w))
  {
    hide Count, RunNext, Owed;
    RunFrame(s, w);
    var s' := RunNext(s, w);
    var pc := s.workers[w].pc;
    if pc.Locked? {
      HandCounts(s, w, Resume(pc.fiber));
      Idlers(s, pc.fiber);
    }
    forall f | 0 <= f < |s.fibers|
      ensures s'.fibers[f].clean == s.fibers[f].clean && s'.fibers[f].state == s.fibers[f].state
              && s'.fibers[f].pc == s.fibers[f].pc && Owed(s'.fibers[f], s'.waits) == Owed(s.fibers[f], s.waits)
    {
      OwedBare(s.fibers[f], s'.fibers[f], s.waits);
    }
    forall k | 0 <= k < |s'.waits| ensures Current(s', k) {
      assert Current(s, k);
    }
    WokenFrame(s, s', RunStep(w));
  }

  /** A terminated clean fiber has no task. */
  lemma Idlers(s: State, f: nat)
    requires Woken(s) && Switched(s) && f < |s.fibers| && s.fibers[f].state == Term
    ensures s.fibers[f].clean ==> Count(s, Resume(f)) == 0
  {
    hide Count;
    assert FiberOk(s.workers, f, s.fibers[f]);
  }

  lemma WokenRun(s: State, w: nat)
    requires Woken(s) && Referenced(s) && RunCan(s, w) && BackAgrees(s, w) && Switched(s)
    ensures Woken(RunNext(s, w))
  {
    hide RunNext, Woken, Referenced, Switched;
    var pc := s.workers[w].pc;
    if pc.Counted? && !pc.task.Resume? {
      WokenWrap(s, w);
    } else if pc.Locked? && s.fibers[pc.fiber].state != Term {
      WokenEnter(s, w);
    } else {
      WokenLocks(s, w);
    }
  }

  // ----- code of a fiber -----

  lemma WokenYield(s: State, w: nat, a: Action)
    requires Woken(s) && Referenced(s) && Switched(s) && BodyCan(s, w, a)
    requires a.Yield? || a.Return? || a.AddTimer? || a.CancelTimer?
    ensures Woken(BodyNext(s, w, a))
  {
    hide Count;
    var s' := BodyNext(s, w, a);
    var f := s.workers[w].pc.fiber;
    HolderOk(s, w);
    forall k | 0 <= k < |s'.waits| ensures Current(s', k) {
      assert Current(s, k);
    }
    WokenFrame(s, s', BodyStep(w, a));
  }

  lemma WokenSubmit(s: State, w: nat, what: Work)
    requires Woken(s) && Referenced(s) && Switched(s) && BodyCan(s, w, CallSubmit(what))
    ensures Woken(BodyNext(s, w, CallSubmit(what)))
  {
    hide Count, Issue;
    IssueFrame(s, what);
    IssueKeeps(s, w, what);
    HolderOk(s, w);
    var s1 := Issue(s, what);
    var s' := BodyNext(s, w, CallSubmit(what));
    var f := s.workers[w].pc.fiber;
    forall g | 0 <= g < |s.fibers|
      ensures s1.fibers[g].state == s.fibers[g].state && s1.fibers[g].pc == s.fibers[g].pc
    {
      assert s1.fibers[g].(clean := false).pc == s.fibers[g].(clean := false).pc;
      assert s1.fibers[g].(clean := false).state == s.fibers[g].(clean := false).state;
    }
    WokenIssued(s, s', what, BodyStep(w, CallSubmit(what)));
  }

  /** Work has been issued; fibers keep their states and, as far as waits go, their pcs. */
  lemma WokenIssued(s: State, s': State, what: Work, step: Step)
    requires Woken(s) && Referenced(s) && IssueCan(s, what) && Can(s, step) && s' == Next(s, step) && !step.RunStep?
    requires s'.waits == s.waits && |s'.fibers| == |Issue(s, what).fibers|
    requires forall t :: Delta(s, step, t) == One(t == IssueTask(s, what))
    requires forall g | 0 <= g < |s.fibers| ::
               && s'.fibers[g].state == s.fibers[g].state
               && (s'.fibers[g].clean ==> s.fibers[g].clean && Issue(s, what).fibers[g].clean)
               && (s'.fibers[g].pc == s.fibers[g].pc || !(Waiting(s'.fibers[g].pc) || Waiting(s.fibers[g].pc)))
    requires forall g | |s.fibers| <= g < |s'.fibers| :: !s'.fibers[g].clean
    ensures Woken(s')
  {
    hide Count, Next, Can, Delta;
    forall k | 0 <= k < |s'.waits| ensures Current(s', k) {
      assert Current(s, k);
    }
    NotYet(s);
    WokenFrame(s, s', step);
  }

  lemma WokenBlock(s: State, w: nat, slot: Slot)
    requires Woken(s) && Referenced(s) && Switched(s) && BodyCan(s, w, Block(slot))
    ensures Woken(BodyNext(s, w, Block(slot)))
  {
    hide Count;
    var s' := BodyNext(s, w, Block(slot));
    var f := s.workers[w].pc.fiber;
    HolderOk(s, w);
    forall k | 0 <= k < |s'.waits| ensures Current(s', k) {
      if k < |s.waits| {
        assert Current(s, k);
      }
    }
    forall g | 0 <= g < |s.fibers| ensures Owed(s'.fibers[g], s'.waits) == Owed(s.fibers[g], s.waits) {
      assert PcOk(|s.queues|, s.waits, g, s.fibers[g].pc);
    }
    WokenFrame(s, s', BodyStep(w, Block(slot)));
  }

  /** Fiber code other than the exchange makes no Resume task. */
  lemma WokenPlain(s: State, w: nat)
    requires Woken(s) && Referenced(s) && Switched(s) && CodeCan(s, w) && !Mine(s, w).pc.WakeExchange?
    ensures Woken(CodeNext(s, w))
  {
    hide Count, CodeNext;
    CodeFrame(s, w);
    var s' := CodeNext(s, w);
    var f := s.workers[w].pc.fiber;
    HolderOk(s, w);
    assert PcOk(|s.queues|, s.waits, f, s.fibers[f].pc);
    assert FiberOk(s.workers, f, s.fibers[f]);
    forall k | 0 <= k < |s'.waits| ensures Current(s', k) {
      assert Current(s, k);
    }
    WokenFrame(s, s', CodeStep(w));
  }

  /** The first exchange of a wait makes its fiber's task, and the fiber is still in that wait. */
  lemma WokenExchange(s: State, w: nat)
    requires Woken(s) && Referenced(s) && Switched(s) && CodeCan(s, w) && Mine(s, w).pc.WakeExchange?
    ensures Woken(CodeNext(s, w))
  {
    hide Count, CodeNext;
    CodeFrame(s, w);
    var s' := CodeNext(s, w);
    var k := Mine(s, w).pc.wait;
    var f := s.workers[w].pc.fiber;
    HolderOk(s, w);
    assert Current(s, k);
    forall g | 0 <= g < |s.fibers| && s.fibers[g].clean
      ensures Owed(s'.fibers[g], s'.waits) == Owed(s.fibers[g], s.waits) + CodeDelta(s, w, Resume(g))
    {
      assert PcOk(|s.queues|, s.waits, g, s.fibers[g].pc);
      assert FiberOk(s.workers, g, s.fibers[g]);
    }
    forall j | 0 <= j < |s'.waits| ensures Current(s', j) {
      assert Current(s, j);
    }
    WokenFrame(s, s', CodeStep(w));
  }

  lemma WokenExpired(s: State, w: nat)
    requires Woken(s) && Referenced(s) && Switched(s) && ExpiredCan(s, w)
    ensures Woken(ExpiredNext(s, w))
  {
    hide Count;
    var s' := ExpiredNext(s, w);
    var f := s.workers[w].pc.fiber;
    var g := Mine(s, w).pc.target;
    HolderOk(s, w);
    CodeCounts(s, f, Resume(g));
    Idlers(s, g);
    forall k | 0 <= k < |s'.waits| ensures Current(s', k) {
      assert Current(s, k);
    }
    WokenFrame(s, s', ExpiredStep(w));
  }

  lemma CodeCounts(s: State, f: nat, t: Task)
    requires f < |s.fibers|
    ensures InCode(s.fibers[f].pc)[t] <= Count(s, t)
  {
    Bags.BagMember(FiberTasks, s.fibers, f);
    assert FiberTasks(s.fibers[f])[t] <= Bags.BagOf(FiberTasks, s.fibers)[t];
  }

  lemma WokenBegin(s: State, what: Work)
    requires Woken(s) && Referenced(s) && IssueCan(s, what)
    ensures Woken(OutsideBegin(s, what))
  {
    hide Count, Issue;
    IssueFrame(s, what);
    var s1 := Issue(s, what);
    forall g | 0 <= g < |s.fibers|
      ensures s1.fibers[g].state == s.fibers[g].state && s1.fibers[g].pc == s.fibers[g].pc
    {
      assert s1.fibers[g].(clean := false).pc == s.fibers[g].(clean := false).pc;
      assert s1.fibers[g].(clean := false).state == s.fibers[g].(clean := false).state;
    }
    WokenIssued(s, OutsideBegin(s, what), what, SubmitStep(what));
  }

  // ----- the rest -----

  lemma WokenOutside(s: State, i: nat)
    requires Woken(s) && OutsideCan(s, i)
    ensures Woken(OutsideNext(s, i))
  {
    hide Count, CallEffect, Woken;
    CallFrame(s, s.outside[i]);
    WokenSame(s, OutsideNext(s, i), OutsideStep(i));
  }

  lemma WokenIdle(s: State, w: nat)
    requires Woken(s) && IdleCan(s, w)
    ensures Woken(IdleNext(s, w))
  {
    hide IdleNext, Woken;
    IdleFrame(s, w);
    WokenSame(s, IdleNext(s, w), IdleStep(w));
  }

  lemma WokenEvent(s: State, w: nat, e: Event)
    requires Woken(s) && EventCan(s, w, e)
    ensures Woken(EventNext(s, w, e))
  {
    hide EventNext, Woken;
    EventFrame(s, w, e);
    WokenSame(s, EventNext(s, w, e), EventStep(w, e));
  }

  lemma WokenStop(s: State)
    requires Woken(s)
    ensures Woken(StopNext(s))
  {
    hide StopNext, Woken;
    StopFrame(s);
    WokenSame(s, StopNext(s), StopStep);
  }

  lemma WokenStep(s: State, step: Step)
    requires Woken(s) && Referenced(s) && Switched(s) && Can(s, step)
    requires step.RunStep? ==> BackAgrees(s, step.w)
    ensures Woken(Next(s, step))
  {
    hide Woken, Referenced, Switched, RunNext, IdleNext, EventNext, BodyNext, CodeNext, OutsideNext, OutsideBegin,
         StopNext, ExpiredNext;
    match step
    case RunStep(w) => WokenRun(s, w);
    case BlockedStep(w, holder) => WokenSame(s, Next(s, step), step);
    case IdleStep(w) => WokenIdle(s, w);
    case EventStep(w, e) => WokenEvent(s, w, e);
    case BodyStep(w, a) =>
      if a.CallSubmit? {
        WokenSubmit(s, w, a.what);
      } else if a.Block? {
        WokenBlock(s, w, a.slot);
      } else {
        WokenYield(s, w, a);
      }
    case CodeStep(w) =>
      if Mine(s, w).pc.WakeExchange? {
        WokenExchange(s, w);
      } else {
        WokenPlain(s, w);
      }
    case ExpiredStep(w) => WokenExpired(s, w);
    case SubmitStep(what) => WokenBegin(s, what);
    case OutsideStep(i) => WokenOutside(s, i);
    case StopStep => WokenStop(s);
  }

  // ----- callbacks stay installed -----

  /** A fiber relies on no callback that it did not rely on before. */
  predicate SameWait(pc: FiberPc, pc': FiberPc) {
    && (Installing(pc') ==> Installing(pc) && pc'.slot == pc.slot && pc'.wait == pc.wait)
    && (pc'.IoRegister? ==> pc' == pc)
  }

  /** Callbacks as they were, and no fiber starts to rely on one. */
  lemma InstalledSame(s: State, s': State)
    requires Installed(s) && s'.callbacks == s.callbacks && s'.displaced == s.displaced
    requires |s.fibers| <= |s'.fibers| && |s.waits| <= |s'.waits|
    requires forall k | 0 <= k < |s.waits| :: s'.waits[k].slot == s.waits[k].slot
    requires forall f | 0 <= f < |s.fibers| :: SameWait(s.fibers[f].pc, s'.fibers[f].pc)
    requires forall f | |s.fibers| <= f < |s'.fibers| :: !Installing(s'.fibers[f].pc) && !s'.fibers[f].pc.IoRegister?
    ensures Installed(s')
  {
    forall f | 0 <= f < |s'.fibers| ensures InstalledAt(s'.callbacks, s'.displaced, s'.fibers[f].pc) {
      if f < |s.fibers| {
        assert InstalledAt(s.callbacks, s.displaced, s.fibers[f].pc);
        assert SameWait(s.fibers[f].pc, s'.fibers[f].pc);
      }
    }
  }

  lemma InstalledRun(s: State, w: nat)
    requires Installed(s) && RunCan(s, w)
    ensures Installed(RunNext(s, w))
  {
    hide RunNext, Installed;
    RunFrame(s, w);
    var s' := RunNext(s, w);
    forall f | 0 <= f < |s.fibers| ensures SameWait(s.fibers[f].pc, s'.fibers[f].pc) {
      if Bare(s.fibers[f]) == Bare(s'.fibers[f]) {
        OwedBare(s.fibers[f], s'.fibers[f], s.waits);
      }
    }
    InstalledSame(s, s');
  }

  lemma InstalledBody(s: State, w: nat, a: Action)
    requires Installed(s) && BodyCan(s, w, a) && !a.Block?
    ensures Installed(BodyNext(s, w, a))
  {
    hide Installed, Issue;
    var s' := BodyNext(s, w, a);
    if a.CallSubmit? {
      IssueFrame(s, a.what);
      IssueKeeps(s, w, a.what);
      var s1 := Issue(s, a.what);
      forall g | 0 <= g < |s.fibers| ensures s1.fibers[g].pc == s.fibers[g].pc {
        assert s1.fibers[g].(clean := false).pc == s.fibers[g].(clean := false).pc;
      }
    }
    InstalledSame(s, s');
  }

  /** A fresh wait is neither installed nor displaced. */
  lemma InstalledBlock(s: State, w: nat, slot: Slot)
    requires Installed(s) && BodyCan(s, w, Block(slot))
    ensures Installed(BodyNext(s, w, Block(slot)))
  {
    var s' := BodyNext(s, w, Block(slot));
    forall f | 0 <= f < |s'.fibers| ensures InstalledAt(s'.callbacks, s'.displaced, s'.fibers[f].pc) {
      assert InstalledAt(s.callbacks, s.displaced, s.fibers[f].pc);
    }
  }

  /** What a fiber's code leaves of the slots: those of other waits as they were, or displaced. */
  lemma InstalledCode(s: State, w: nat)
    requires Installed(s) && Referenced(s) && CodeCan(s, w)
    ensures Installed(CodeNext(s, w))
  {
    hide CodeNext, Count;
    CodeFrame(s, w);
    var s' := CodeNext(s, w);
    var f := s.workers[w].pc.fiber;
    assert PcOk(|s.queues|, s.waits, f, s.fibers[f].pc);
    assert InstalledAt(s.callbacks, s.displaced, s.fibers[f].pc);
    forall g | 0 <= g < |s'.fibers| ensures InstalledAt(s'.callbacks, s'.displaced, s'.fibers[g].pc) {
      assert PcOk(|s.queues|, s.waits, g, s.fibers[g].pc);
      assert InstalledAt(s.callbacks, s.displaced, s.fibers[g].pc);
    }
  }

  lemma InstalledIssued(s: State, what: Work)
    requires Installed(s) && IssueCan(s, what)
    ensures Installed(OutsideBegin(s, what))
  {
    hide Issue, Installed;
    IssueFrame(s, what);
    var s1 := Issue(s, what);
    forall g | 0 <= g < |s.fibers| ensures s1.fibers[g].pc == s.fibers[g].pc {
      assert s1.fibers[g].(clean := false).pc == s.fibers[g].(clean := false).pc;
    }
    InstalledSame(s, OutsideBegin(s, what));
  }

  lemma InstalledOther(s: State, step: Step)
    requires Installed(s) && Can(s, step)
    requires step.BlockedStep? || step.IdleStep? || step.EventStep? || step.OutsideStep? || step.StopStep?
    ensures Installed(Next(s, step))
  {
    hide IdleNext, EventNext, StopNext, CallEffect, Installed;
    match step {
      case IdleStep(w) => IdleFrame(s, w);
      case EventStep(w, e) => EventFrame(s, w, e);
      case OutsideStep(i) => CallFrame(s, s.outside[i]);
      case StopStep => StopFrame(s);
      case _ =>
    }
    InstalledSame(s, Next(s, step));
  }

  lemma InstalledStep(s: State, step: Step)
    requires Installed(s) && Referenced(s) && Can(s, step)
    ensures Installed(Next(s, step))
  {
    hide Installed, Referenced, RunNext, IdleNext, EventNext, BodyNext, CodeNext, OutsideNext, OutsideBegin, StopNext;
    match step
    case RunStep(w) => InstalledRun(s, w);
    case BodyStep(w, a) =>
      if a.Block? {
        InstalledBlock(s, w, a.slot);
      } else {
        InstalledBody(s, w, a);
      }
    case CodeStep(w) => InstalledCode(s, w);
    case ExpiredStep(w) => InstalledSame(s, Next(s, step));
    case SubmitStep(what) => InstalledIssued(s, what);
    case _ => InstalledOther(s, step);
  }
}

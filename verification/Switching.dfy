/** Fiber locks: which worker executes which fiber, and the states the scheduler's asserts check. */
module Switching {
  import opened Options
  import opened Machine

  /** The fiber whose lock a worker holds. */
  function Held(pc: WorkerPc): Option<nat> {
    match pc
    case Locked(f) => Some(f)
    case Run(f) => Some(f)
    case Back(f, _) => Some(f)
    case Requeue(f) => Some(f)
    case Unlock(f) => Some(f)
    case _ => None
  }

  /** The state of the fiber a worker holds fits where the worker stands. */
  predicate HeldState(pc: WorkerPc, state: FiberState) {
    match pc
    case Locked(_) => state != Running
    case Run(_) => state == Running
    case Back(_, left) => state == left && left != Running
    case Requeue(_) => state == FiberState.Ready
    case Unlock(_) => state != Running
    case _ => true
  }

  predicate WorkerOk(fibers: seq<Fiber>, w: nat, pc: WorkerPc) {
    Held(pc).Some? ==>
      var f := Held(pc).value;
      f < |fibers| && fibers[f].lockedBy == Some(w) && HeldState(pc, fibers[f].state)
  }

  /** Where the code of a fiber can stand in each state. */
  predicate PcState(pc: FiberPc, state: FiberState) {
    && (state == FiberState.Ready ==> pc == Body || pc.WakeExchange?)
    && (state == Hold <==> pc.IoHeld?)
    && (state == Term <==> pc == Done)
  }

  predicate FiberOk(workers: seq<Worker>, f: nat, x: Fiber) {
    && PcState(x.pc, x.state)
    && (x.lockedBy.Some? ==> x.lockedBy.value < |workers| && Held(workers[x.lockedBy.value].pc) == Some(f))
    && (x.state == Running ==> x.lockedBy.Some? && x.lockedBy.value < |workers|
                               && workers[x.lockedBy.value].pc == Run(f))
  }

  ghost predicate Switched(s: State) {
    && (forall w | 0 <= w < |s.workers| :: WorkerOk(s.fibers, w, s.workers[w].pc))
    && (forall f | 0 <= f < |s.fibers| :: FiberOk(s.workers, f, s.fibers[f]))
  }

  /** A step of worker w that leaves locks alone. */
  lemma Elsewhere(s: State, s': State, w: nat)
    requires Switched(s) && w < |s.workers| == |s'.workers| && s'.fibers == s.fibers
    requires forall u | 0 <= u < |s.workers| && u != w :: s'.workers[u].pc == s.workers[u].pc
    requires Held(s.workers[w].pc) == Held(s'.workers[w].pc) == None
    ensures Switched(s')
  {
    forall f | 0 <= f < |s.fibers| ensures FiberOk(s'.workers, f, s'.fibers[f]) {
      assert FiberOk(s.workers, f, s.fibers[f]);
    }
    forall u | 0 <= u < |s'.workers| ensures WorkerOk(s'.fibers, u, s'.workers[u].pc) {
      assert WorkerOk(s.fibers, u, s.workers[u].pc);
    }
  }

  /** A step of worker w on fiber f, which no other worker holds. */
  lemma OnFiber(s: State, s': State, w: nat, f: nat)
    requires Switched(s) && w < |s.workers| == |s'.workers| && f < |s.fibers| == |s'.fibers|
    requires forall u | 0 <= u < |s.workers| && u != w :: s'.workers[u].pc == s.workers[u].pc
    requires forall g | 0 <= g < |s.fibers| && g != f ::
               s'.fibers[g].(clean := true) == s.fibers[g].(clean := true)
    requires Held(s.workers[w].pc) == Some(f) || (Held(s.workers[w].pc) == None && s.fibers[f].lockedBy == None)
    requires Held(s'.workers[w].pc) == None || Held(s'.workers[w].pc) == Some(f)
    requires WorkerOk(s'.fibers, w, s'.workers[w].pc)
    requires FiberOk(s'.workers, f, s'.fibers[f])
    ensures Switched(s')
  {
    assert WorkerOk(s.fibers, w, s.workers[w].pc);
    assert FiberOk(s.workers, f, s.fibers[f]);
    forall g | 0 <= g < |s.fibers| && g != f ensures FiberOk(s'.workers, g, s'.fibers[g]) {
      assert FiberOk(s.workers, g, s.fibers[g]);
      assert s'.fibers[g].(clean := true) == s.fibers[g].(clean := true);
    }
    forall u | 0 <= u < |s'.workers| && u != w ensures WorkerOk(s'.fibers, u, s'.workers[u].pc) {
      assert WorkerOk(s.fibers, u, s.workers[u].pc);
      if Held(s.workers[u].pc).Some? {
        var g := Held(s.workers[u].pc).value;
        assert g != f;
        assert s'.fibers[g].(clean := true) == s.fibers[g].(clean := true);
      }
    }
  }

  /** No worker moves, and fibers change at most in `clean`, or a fresh unlocked one appears. */
  lemma Unmoved(s: State, s': State)
    requires Switched(s) && |s.workers| == |s'.workers| && |s.fibers| <= |s'.fibers|
    requires forall u | 0 <= u < |s.workers| :: s'.workers[u].pc == s.workers[u].pc
    requires forall g | 0 <= g < |s.fibers| :: s'.fibers[g].(clean := true) == s.fibers[g].(clean := true)
    requires forall g | |s.fibers| <= g < |s'.fibers| ::
               s'.fibers[g].lockedBy == None && s'.fibers[g].state == FiberState.Ready && s'.fibers[g].pc == Body
    ensures Switched(s')
  {
    forall g | 0 <= g < |s'.fibers| ensures FiberOk(s'.workers, g, s'.fibers[g]) {
      if g < |s.fibers| {
        assert FiberOk(s.workers, g, s.fibers[g]);
        assert s'.fibers[g].(clean := true) == s.fibers[g].(clean := true);
      }
    }
    forall u | 0 <= u < |s'.workers| ensures WorkerOk(s'.fibers, u, s'.workers[u].pc) {
      assert WorkerOk(s.fibers, u, s.workers[u].pc);
      if Held(s.workers[u].pc).Some? {
        var g := Held(s.workers[u].pc).value;
        assert s'.fibers[g].(clean := true) == s.fibers[g].(clean := true);
      }
    }
  }

  // ----- run() -----

  lemma SwitchedTake(s: State, w: nat)
    requires Switched(s) && RunCan(s, w)
    requires var pc := s.workers[w].pc;
             pc.Pop? || pc.Steal? || pc.Got? || pc.RefusedUncount? || pc.Uncount? || pc.Refused?
    ensures Switched(RunNext(s, w))
  {
    Elsewhere(s, RunNext(s, w), w);
  }

  lemma SwitchedTryLock(s: State, w: nat, f: nat)
    requires Switched(s) && At(s, w) && s.workers[w].pc == Counted(Resume(f)) && f < |s.fibers|
    ensures Switched(TryLock(s, w, f))
  {
    assert FiberOk(s.workers, f, s.fibers[f]);
    if s.fibers[f].lockedBy.None? {
      OnFiber(s, TryLock(s, w, f), w, f);
    } else {
      Elsewhere(s, TryLock(s, w, f), w);
    }
  }

  lemma SwitchedWrap(s: State, w: nat, t: Task)
    requires Switched(s) && At(s, w) && s.workers[w].pc == Counted(t)
    ensures Switched(Wrap(s, w, t))
  {
    var s' := Wrap(s, w, t);
    forall f | 0 <= f < |s'.fibers| ensures FiberOk(s'.workers, f, s'.fibers[f]) {
      if f < |s.fibers| {
        assert FiberOk(s.workers, f, s.fibers[f]);
      }
    }
    forall u | 0 <= u < |s'.workers| ensures WorkerOk(s'.fibers, u, s'.workers[u].pc) {
      if u != w {
        assert WorkerOk(s.fibers, u, s.workers[u].pc);
      }
    }
  }

  lemma SwitchedRelease(s: State, w: nat, f: nat)
    requires Switched(s) && At(s, w) && f < |s.fibers| && Held(s.workers[w].pc) == Some(f)
    requires s.fibers[f].state != Running
    ensures Switched(Release(s, w, f))
  {
    assert FiberOk(s.workers, f, s.fibers[f]);
    OnFiber(s, Release(s, w, f), w, f);
  }

  lemma SwitchedEnter(s: State, w: nat, f: nat)
    requires Switched(s) && At(s, w) && f < |s.fibers| && s.workers[w].pc == Locked(f)
    ensures Switched(Enter(s, w, f))
  {
    assert FiberOk(s.workers, f, s.fibers[f]);
    assert WorkerOk(s.fibers, w, s.workers[w].pc);
    OnFiber(s, Enter(s, w, f), w, f);
  }

  lemma SwitchedAfter(s: State, w: nat)
    requires Switched(s) && RunCan(s, w) && (s.workers[w].pc.Back? || s.workers[w].pc.Requeue?)
    ensures Switched(RunNext(s, w))
  {
    var f := s.workers[w].pc.fiber;
    assert WorkerOk(s.fibers, w, s.workers[w].pc);
    assert FiberOk(s.workers, f, s.fibers[f]);
    OnFiber(s, RunNext(s, w), w, f);
  }

  lemma SwitchedRun(s: State, w: nat)
    requires Switched(s) && RunCan(s, w)
    ensures Switched(RunNext(s, w))
  {
    hide TakeOwn, StealOne, GiveUp, Recount, TryLock, Wrap, PutBack, Enter, AfterResume, Release, Switched;
    match s.workers[w].pc
    case Counted(t) =>
      if t.Resume? {
        SwitchedTryLock(s, w, t.fiber);
      } else {
        SwitchedWrap(s, w, t);
      }
    case Locked(f) => SwitchedEnter(s, w, f);
    case Back(_, _) | Requeue(_) => SwitchedAfter(s, w);
    case Unlock(f) =>
      HolderOk(s, w);
      SwitchedRelease(s, w, f);
    case _ => SwitchedTake(s, w);
  }

  lemma HolderOk(s: State, w: nat)
    requires Switched(s) && w < |s.workers|
    ensures WorkerOk(s.fibers, w, s.workers[w].pc)
  {
  }

  // ----- idle() and events -----

  lemma SwitchedIdle(s: State, w: nat)
    requires Switched(s) && IdleCan(s, w)
    ensures Switched(IdleNext(s, w))
  {
    hide IdleNext;
    IdleFrame(s, w);
    Elsewhere(s, IdleNext(s, w), w);
  }

  lemma SwitchedEvent(s: State, w: nat, e: Event)
    requires Switched(s) && EventCan(s, w, e)
    ensures Switched(EventNext(s, w, e))
  {
    Elsewhere(s, EventNext(s, w, e), w);
  }

  // ----- code of a fiber -----

  lemma SwitchedProceed(s: State, w: nat, pc: FiberPc)
    requires Switched(s) && InFiber(s, w) && !pc.IoHeld? && pc != Done
    ensures Switched(Proceed(s, w, pc))
  {
    var f := s.workers[w].pc.fiber;
    HolderOk(s, w);
    assert FiberOk(s.workers, f, s.fibers[f]);
    OnFiber(s, Proceed(s, w, pc), w, f);
  }

  lemma SwitchedLeave(s: State, w: nat, state: FiberState, pc: FiberPc)
    requires Switched(s) && InFiber(s, w) && state != Running && PcState(pc, state)
    ensures Switched(Leave(s, w, state, pc))
  {
    var f := s.workers[w].pc.fiber;
    HolderOk(s, w);
    assert FiberOk(s.workers, f, s.fibers[f]);
    OnFiber(s, Leave(s, w, state, pc), w, f);
  }

  lemma SwitchedIssue(s: State, what: Work)
    requires Switched(s) && IssueCan(s, what)
    ensures Switched(Issue(s, what))
  {
    Unmoved(s, Issue(s, what));
  }

  lemma SwitchedCall(s: State, p: SubmitPc)
    requires Switched(s) && CallCan(s, p)
    ensures Switched(CallEffect(s, p))
  {
    Unmoved(s, CallEffect(s, p));
  }

  lemma SwitchedBody(s: State, w: nat, a: Action)
    requires Switched(s) && BodyCan(s, w, a)
    ensures Switched(BodyNext(s, w, a))
  {
    hide Leave, Proceed, Issue;
    match a
    case Yield => SwitchedLeave(s, w, FiberState.Ready, Body);
    case Return => SwitchedProceed(s, w, Ending);
    case CallSubmit(what) =>
      SwitchedIssue(s, what);
      IssueKeeps(s, w, what);
      SwitchedProceed(Issue(s, what), w, Submit(Push(IssueQueue(s), IssueTask(s, what))));
    case Block(slot) => SwitchedProceed(s, w, IoRegister(slot, |s.waits|));
    case AddTimer =>
    case CancelTimer(_) =>
  }

  lemma IssueKeeps(s: State, w: nat, what: Work)
    requires InFiber(s, w) && IssueCan(s, what)
    ensures InFiber(Issue(s, what), w) && Mine(Issue(s, what), w).pc == Mine(s, w).pc
  {
  }

  lemma SwitchedCode(s: State, w: nat)
    requires Switched(s) && CodeCan(s, w)
    ensures Switched(CodeNext(s, w))
  {
    hide Leave, Proceed, Switched, CallEffect, CallNext;
    match Mine(s, w).pc
    case Submit(p) =>
      SwitchedCall(s, p);
      CallKeeps(s, w, p);
      SwitchedProceed(CallEffect(s, p), w, AfterCall(CallNext(s, p)));
    case IoRegister(slot, k) =>
      SwitchedProceed(s, w, IoCount(slot, k));
      SameSwitch(Proceed(s, w, IoCount(slot, k)), CodeNext(s, w));
    case IoCount(slot, k) =>
      SwitchedProceed(s, w, IoHold(slot, k));
      SameSwitch(Proceed(s, w, IoHold(slot, k)), CodeNext(s, w));
    case IoHold(slot, k) => SwitchedLeave(s, w, Hold, IoHeld(slot, k));
    case IoUnregister(slot, k) =>
      SwitchedProceed(s, w, IoUncount(slot));
      SameSwitch(Proceed(s, w, IoUncount(slot)), CodeNext(s, w));
    case IoUncount(slot) =>
      SwitchedProceed(s, w, Body);
      SameSwitch(Proceed(s, w, Body), CodeNext(s, w));
    case WakeExchange(k) =>
      var pc := if s.waits[k].triggered then Ending else WakePush(s.waits[k].fiber);
      SwitchedProceed(s, w, pc);
      SameSwitch(Proceed(s, w, pc), CodeNext(s, w));
    case WakePush(g) =>
      SameSwitch(s, PushBack(s, w, Resume(g)));
      SwitchedProceed(PushBack(s, w, Resume(g)), w, Ending);
    case Ending => SwitchedLeave(s, w, Term, Done);
  }

  lemma CallKeeps(s: State, w: nat, p: SubmitPc)
    requires InFiber(s, w) && CallCan(s, p)
    ensures var s' := CallEffect(s, p);
            InFiber(s', w) && s'.workers[w].pc == s.workers[w].pc && Mine(s', w) == Mine(s, w)
  {
  }

  lemma SameSwitch(s: State, s': State)
    requires Switched(s) && s.workers == s'.workers && s.fibers == s'.fibers
    ensures Switched(s')
  {
  }

  // ----- every step -----

  lemma SwitchedOutside(s: State, i: nat)
    requires Switched(s) && OutsideCan(s, i)
    ensures Switched(OutsideNext(s, i))
  {
    SwitchedCall(s, s.outside[i]);
    SameSwitch(CallEffect(s, s.outside[i]), OutsideNext(s, i));
  }

  lemma SwitchedStop(s: State)
    requires Switched(s)
    ensures Switched(StopNext(s))
  {
    Unmoved(s, StopNext(s));
  }

  lemma SwitchedStep(s: State, step: Step)
    requires Switched(s) && Can(s, step)
    ensures Switched(Next(s, step))
  {
    hide RunNext, IdleNext, EventNext, BodyNext, CodeNext, OutsideNext, StopNext, Switched, Issue, Proceed;
    match step
    case RunStep(w) => SwitchedRun(s, w);
    case BlockedStep(w, holder) => SwitchedBlocked(s, w, holder);
    case IdleStep(w) => SwitchedIdle(s, w);
    case EventStep(w, e) => SwitchedEvent(s, w, e);
    case BodyStep(w, a) => SwitchedBody(s, w, a);
    case CodeStep(w) => SwitchedCode(s, w);
    case ExpiredStep(w) => SwitchedProceed(s, w, Ending);
    case SubmitStep(what) =>
      SwitchedIssue(s, what);
      SameSwitch(Issue(s, what), OutsideBegin(s, what));
    case OutsideStep(i) => SwitchedOutside(s, i);
    case StopStep => SwitchedStop(s);
  }

  lemma SwitchedBlocked(s: State, w: nat, holder: Holder)
    requires Switched(s) && BlockedCan(s, w, holder)
    ensures Switched(BlockedNext(s, w, holder))
  {
    Elsewhere(s, BlockedNext(s, w, holder), w);
  }
}

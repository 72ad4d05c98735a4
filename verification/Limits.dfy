/** Where the guarantees of the scheduler end: what breaks them, shown on whole runs. */
module Limits {
  import opened Options
  import opened Bags
  import opened Machine
  import opened Tokens
  import opened Switching
  import opened Frames
  import opened Wakeup
  import opened WakeupSteps
  import opened Shutdown
  import Counters
  import opened Scheduler
  import opened Runs

  // ----- two waiters on one slot -----

  /** Nobody will report an event on the slot any more: the idle fiber that polls for its descriptor has terminated. */
  predicate Deaf(s: State, slot: Slot) {
    && slot.fd in s.home && s.home[slot.fd] < |s.workers| && s.workers[s.home[slot.fd]].IdleTerm()
  }

  /** Fiber f is parked in wait k, and nothing that exists can trigger k: its callback is not installed, or only where
      nobody polls, and no copy of it is queued or about to be, or running. */
  ghost predicate Stranded(s: State, f: nat, k: nat) {
    && f < |s.fibers| && k < |s.waits|
    && s.fibers[f].clean && s.fibers[f].pc.IoHeld? && s.fibers[f].pc.wait == k && !s.waits[k].triggered
    && (forall slot | slot in s.callbacks && s.callbacks[slot] == k :: Deaf(s, slot))
    && NoCopy(s, k)
  }

  /** A parked clean fiber is stranded exactly when its flag is not set, no copy of its callback is left, and its wait
      has been displaced or nobody polls for its descriptor. */
  lemma StrandedExactly(n: nat, s: State, f: nat)
    requires Reachable(n, s) && f < |s.fibers| && s.fibers[f].clean && s.fibers[f].pc.IoHeld?
    ensures var k := s.fibers[f].pc.wait;
            && k < |s.waits|
            && (Stranded(s, f, k) <==>
                  && !s.waits[k].triggered && NoCopy(s, k)
                  && (k in s.displaced || Deaf(s, s.fibers[f].pc.slot)))
  {
    hide Count;
    ReachableInv(n, s);
    assert PcOk(|s.queues|, s.waits, f, s.fibers[f].pc);
    assert InstalledAt(s.callbacks, s.displaced, s.fibers[f].pc);
    OwnSlot(s, s.fibers[f].pc.slot, s.fibers[f].pc.wait);
  }

  /** A stranded fiber is owed no wake-up, and any other parked clean fiber still has one: a task that resumes it, a
      callback installed where somebody polls, or a copy of its callback. */
  lemma StrandedOrOwed(n: nat, s: State, f: nat)
    requires Reachable(n, s) && f < |s.fibers| && s.fibers[f].clean && s.fibers[f].pc.IoHeld?
    ensures Stranded(s, f, s.fibers[f].pc.wait) <==>
              && Count(s, Resume(f)) == 0 && NoCopy(s, s.fibers[f].pc.wait)
              && !(OpenWait(s, f) && !Deaf(s, s.fibers[f].pc.slot))
  {
    hide Count;
    StrandedExactly(n, s, f);
    TaskIffTriggered(n, s, f);
    NeverTwoTasks(n, s, f);
    ReachableInv(n, s);
    assert PcOk(|s.queues|, s.waits, f, s.fibers[f].pc);
    assert InstalledAt(s.callbacks, s.displaced, s.fibers[f].pc);
  }

  /** No copy of the callback of wait k is queued, in a hand, or running short of its exchange. */
  ghost predicate NoCopy(s: State, k: nat) {
    Count(s, Wake(k)) == 0 && forall g | 0 <= g < |s.fibers| :: s.fibers[g].pc != WakeExchange(k)
  }

  /** f is parked in wait k on `slot`, and no copy of the callback of k has been made. */
  ghost predicate QuietWait(s: State, f: nat, slot: Slot, k: nat) {
    && f < |s.fibers| && k < |s.waits|
    && s.fibers[f].clean && s.fibers[f].pc == IoHeld(slot, k) && !s.waits[k].triggered && NoCopy(s, k)
  }

  /** A step of another waiter on the slot, registering itself or ending its own wait, strands a quiet waiter. */
  lemma SecondWaiterStrands(n: nat, s: State, f: nat, slot: Slot, k: nat, w: nat)
    requires Reachable(n, s) && QuietWait(s, f, slot, k) && CodeCan(s, w)
    requires (Mine(s, w).pc.IoRegister? || Mine(s, w).pc.IoUnregister?) && Mine(s, w).pc.slot == slot
    ensures Stranded(Next(s, CodeStep(w)), f, k)
  {
    hide Count, CodeNext;
    ReachableInv(n, s);
    var g := s.workers[w].pc.fiber;
    HolderOk(s, w);
    assert FiberOk(s.workers, f, s.fibers[f]);
    assert PcOk(|s.queues|, s.waits, f, s.fibers[f].pc);
    assert PcOk(|s.queues|, s.waits, g, s.fibers[g].pc);
    CodeFrame(s, w);
    StepCount(s, CodeStep(w), Wake(k));
    OwnSlot(s, slot, k);
  }

  /** A wait is installed on no slot but its own. */
  lemma OwnSlot(s: State, slot: Slot, k: nat)
    requires Installed(s) && k < |s.waits| && s.waits[k].slot == slot
    ensures forall other | other in s.callbacks && s.callbacks[other] == k :: other == slot
  {
  }

  /** No step other than a direct submit() of the fiber helps a stranded fiber. */
  lemma StrandedStep(s: State, step: Step, f: nat, k: nat)
    requires Inv(s) && Can(s, step) && Stranded(s, f, k)
    requires |s.fibers| <= |Next(s, step).fibers| && Next(s, step).fibers[f].clean
    ensures Stranded(Next(s, step), f, k)
  {
    hide Count, Inv, Stranded, RunNext, IdleNext, EventNext, BodyNext, CodeNext, OutsideNext, OutsideBegin, StopNext;
    StrandedHere(s, f, k);
    match step
    case RunStep(w) => StrandedRun(s, w, f, k);
    case CodeStep(w) => StrandedCode(s, w, f, k);
    case BodyStep(w, a) => StrandedBody(s, w, a, f, k);
    case EventStep(w, e) => StrandedEvent(s, w, e, f, k);
    case _ => StrandedOther(s, step, f, k);
  }

  /** The fibers, waits and callbacks that matter are as they were. */
  lemma StrandedFrame(s: State, s': State, step: Step, f: nat, k: nat)
    requires StopFirst(s) && Stranded(s, f, k) && Can(s, step) && s' == Next(s, step)
    requires step.RunStep? ==> BackAgrees(s, step.w)
    requires f < |s'.fibers| && k < |s'.waits| && s'.fibers[f].clean
    requires s'.fibers[f].pc == s.fibers[f].pc && s'.waits[k] == s.waits[k]
    requires forall slot | slot in s'.callbacks && s'.callbacks[slot] == k ::
               slot in s.callbacks && s.callbacks[slot] == k
    requires Delta(s, step, Wake(k)) <= 0
    requires forall g | 0 <= g < |s'.fibers| :: s'.fibers[g].pc != WakeExchange(k)
    ensures Stranded(s', f, k)
  {
    hide Count, Next, Can, Delta;
    StepCount(s, step, Wake(k));
    DeafStays(s, step);
  }

  /** Descriptors keep their workers, and an idle fiber that has terminated stays so. */
  lemma DeafStays(s: State, step: Step)
    requires StopFirst(s) && Can(s, step)
    ensures forall slot | Deaf(s, slot) :: Deaf(Next(s, step), slot)
  {
    hide StopFirst, RunNext, IdleNext, EventNext, BodyNext, CodeNext, CallEffect, StopNext, Issue;
    match step
    case RunStep(w) => RunFrame(s, w);
    case IdleStep(w) => IdleKeepsOver(s, w);
    case EventStep(w, e) => EventFrame(s, w, e);
    case CodeStep(w) => CodeKeepsOver(s, w);
    case OutsideStep(i) =>
      CallFrame(s, s.outside[i]);
      Counters.SamePcs(s.workers, Next(s, step).workers);
    case StopStep =>
      StopFrame(s);
      Counters.SamePcs(s.workers, Next(s, step).workers);
    case SubmitStep(what) => IssueFrame(s, what);
    case BodyStep(w, a) => BodyKeepsOver(s, w, a);
    case BlockedStep(_, _) =>
    case ExpiredStep(_) =>
  }

  lemma IdleKeepsOver(s: State, w: nat)
    requires StopFirst(s) && IdleCan(s, w)
    ensures forall slot | Deaf(s, slot) :: Deaf(IdleNext(s, w), slot)
  {
    hide IdleNext;
    IdleFrame(s, w);
    assert StopWorker(s.stop, s.workers[w]);
  }

  lemma CodeKeepsOver(s: State, w: nat)
    requires CodeCan(s, w)
    ensures forall slot | Deaf(s, slot) :: Deaf(CodeNext(s, w), slot)
  {
    hide CodeNext;
    CodeFrame(s, w);
    var s' := CodeNext(s, w);
    forall u | 0 <= u < |s.workers| ensures s'.workers[u].idle == s.workers[u].idle {
      assert s'.workers[u].(eventfd := 0, pc := Pop).idle == s.workers[u].(eventfd := 0, pc := Pop).idle;
    }
  }

  lemma BodyKeepsOver(s: State, w: nat, a: Action)
    requires BodyCan(s, w, a)
    ensures forall slot | Deaf(s, slot) :: Deaf(BodyNext(s, w, a), slot)
  {
    hide Issue;
    if a.CallSubmit? {
      IssueFrame(s, a.what);
    }
  }

  lemma StrandedRun(s: State, w: nat, f: nat, k: nat)
    requires Inv(s) && RunCan(s, w) && Stranded(s, f, k)
    ensures Stranded(RunNext(s, w), f, k)
  {
    hide Count, RunNext;
    var s' := RunNext(s, w);
    var pc := s.workers[w].pc;
    RunFrame(s, w);
    BackAgreed(s, w);
    assert FiberOk(s.workers, f, s.fibers[f]);
    if pc.Counted? {
      HandCounts(s, w, pc.task);
    } else if pc.Locked? {
      HandCounts(s, w, Resume(pc.fiber));
    }
    if SameButLocks(s.fibers, s'.fibers) {
      forall g | 0 <= g < |s.fibers|
        ensures s'.fibers[g].pc == s.fibers[g].pc && s'.fibers[g].clean == s.fibers[g].clean
      {
        OwedBare(s.fibers[g], s'.fibers[g], s.waits);
      }
    }
    StrandedFrame(s, s', RunStep(w), f, k);
  }

  lemma StrandedCode(s: State, w: nat, f: nat, k: nat)
    requires Inv(s) && CodeCan(s, w) && Stranded(s, f, k)
    ensures Stranded(CodeNext(s, w), f, k)
  {
    hide Count, Inv, CodeNext;
    OtherFiber(s, w, f, k);
    Stops(s);
    CodeFrame(s, w);
    CodeLeavesWait(s, w, f, k);
    StrandedFrame(s, CodeNext(s, w), CodeStep(w), f, k);
  }

  /** The code of another fiber neither triggers wait k nor installs or runs its callback. */
  lemma CodeLeavesWait(s: State, w: nat, f: nat, k: nat)
    requires Inv(s) && CodeCan(s, w) && Stranded(s, f, k) && s.workers[w].pc.fiber != f
    ensures k < |NextWaits(s, w)| && NextWaits(s, w)[k] == s.waits[k] && NextPc(s, w) != WakeExchange(k)
    ensures forall slot | slot in NextCallbacks(s, w) && NextCallbacks(s, w)[slot] == k ::
              slot in s.callbacks && s.callbacks[slot] == k
  {
    hide Count;
    assert PcOk(|s.queues|, s.waits, f, s.fibers[f].pc);
    var g := s.workers[w].pc.fiber;
    assert PcOk(|s.queues|, s.waits, g, s.fibers[g].pc);
  }

  lemma StrandedBody(s: State, w: nat, a: Action, f: nat, k: nat)
    requires Inv(s) && BodyCan(s, w, a) && Stranded(s, f, k)
    requires f < |BodyNext(s, w, a).fibers| && BodyNext(s, w, a).fibers[f].clean
    ensures Stranded(BodyNext(s, w, a), f, k)
  {
    hide Count, Issue, Inv;
    OtherFiber(s, w, f, k);
    Stops(s);
    if a.CallSubmit? {
      StrandedSubmit(s, w, a.what, f, k);
    } else {
      StrandedFrame(s, BodyNext(s, w, a), BodyStep(w, a), f, k);
    }
  }

  lemma StrandedSubmit(s: State, w: nat, what: Work, f: nat, k: nat)
    requires Inv(s) && BodyCan(s, w, CallSubmit(what)) && Stranded(s, f, k)
    requires f < |BodyNext(s, w, CallSubmit(what)).fibers| && BodyNext(s, w, CallSubmit(what)).fibers[f].clean
    ensures Stranded(BodyNext(s, w, CallSubmit(what)), f, k)
  {
    hide Count, Issue, Inv;
    OtherFiber(s, w, f, k);
    Stops(s);
    IssueFrame(s, what);
    IssueKeeps(s, w, what);
    var s1 := Issue(s, what);
    forall g | 0 <= g < |s.fibers| ensures s1.fibers[g].pc == s.fibers[g].pc {
      assert s1.fibers[g].(clean := false).pc == s.fibers[g].(clean := false).pc;
    }
    StrandedFrame(s, BodyNext(s, w, CallSubmit(what)), BodyStep(w, CallSubmit(what)), f, k);
  }

  /** A stranded fiber is not the one that executes. */
  lemma OtherFiber(s: State, w: nat, f: nat, k: nat)
    requires Inv(s) && InFiber(s, w) && Stranded(s, f, k)
    ensures s.workers[w].pc.fiber != f
  {
    hide Count;
    HolderOk(s, w);
    assert FiberOk(s.workers, f, s.fibers[f]);
  }

  lemma StrandedEvent(s: State, w: nat, e: Event, f: nat, k: nat)
    requires Inv(s) && EventCan(s, w, e) && Stranded(s, f, k)
    ensures Stranded(EventNext(s, w, e), f, k)
  {
    hide Count, EventNext;
    EventFrame(s, w, e);
    assert StopWorker(s.stop, s.workers[w]);
    StrandedFrame(s, EventNext(s, w, e), EventStep(w, e), f, k);
  }

  lemma StrandedOther(s: State, step: Step, f: nat, k: nat)
    requires Inv(s) && Can(s, step) && Stranded(s, f, k)
    requires !step.RunStep? && !step.CodeStep? && !step.BodyStep? && !step.EventStep?
    requires |s.fibers| <= |Next(s, step).fibers| && Next(s, step).fibers[f].clean
    ensures Stranded(Next(s, step), f, k)
  {
    hide Count, IdleNext, StopNext, CallEffect, Issue, Inv;
    Stops(s);
    match step {
      case IdleStep(w) => IdleFrame(s, w);
      case OutsideStep(i) => CallFrame(s, s.outside[i]);
      case StopStep => StopFrame(s);
      case SubmitStep(what) =>
        IssueFrame(s, what);
        var s1 := Issue(s, what);
        forall g | 0 <= g < |s.fibers| ensures s1.fibers[g].pc == s.fibers[g].pc {
          assert s1.fibers[g].(clean := false).pc == s.fibers[g].(clean := false).pc;
        }
      case ExpiredStep(w) => StrandedExpired(s, w, f);
      case _ =>
    }
    StrandedFrame(s, Next(s, step), step, f, k);
  }

  lemma StrandedExpired(s: State, w: nat, f: nat)
    requires Inv(s) && ExpiredCan(s, w) && f < |s.fibers| && s.fibers[f].pc.IoHeld?
    ensures s.workers[w].pc.fiber != f
  {
  }

  /** A stranded fiber stays parked in every continuation of the run, unless it is itself passed to submit(). */
  lemma StrandedForever(n: nat, s: State, steps: seq<Step>, s': State, f: nat, k: nat)
    requires Reachable(n, s) && Stranded(s, f, k) && Reaches(s, steps, s')
    requires f < |s'.fibers| && s'.fibers[f].clean
    ensures Stranded(s', f, k) && s'.fibers[f].state == Hold
  {
    hide Inv, Stranded, Reaches;
    ReachableInv(n, s);
    StrandedAfter(s, steps, s', f, k);
  }

  lemma {:induction false} StrandedAfter(s: State, steps: seq<Step>, s': State, f: nat, k: nat)
    requires Inv(s) && Stranded(s, f, k) && Reaches(s, steps, s')
    requires f < |s'.fibers| && s'.fibers[f].clean
    ensures Stranded(s', f, k) && s'.fibers[f].state == Hold
    decreases |steps|
  {
    hide Count, Inv, Stranded, Next, Can;
    if steps == [] {
      Parked(s, f, k);
    } else {
      var s1 := Next(s, steps[0]);
      InvStep(s, steps[0]);
      Kept(s, steps[0]);
      StrandedHere(s, f, k);
      CleanBefore(s1, steps[1..], s', f);
      StrandedStep(s, steps[0], f, k);
      StrandedAfter(s1, steps[1..], s', f, k);
    }
  }

  lemma StrandedHere(s: State, f: nat, k: nat)
    requires Stranded(s, f, k)
    ensures f < |s.fibers|
  {
  }

  lemma Parked(s: State, f: nat, k: nat)
    requires Inv(s) && Stranded(s, f, k)
    ensures s.fibers[f].state == Hold
  {
    assert FiberOk(s.workers, f, s.fibers[f]);
  }

  /** Fibers do not disappear, and a fiber that is not clean never becomes so. */
  lemma Kept(s: State, step: Step)
    requires Can(s, step)
    ensures |s.fibers| <= |Next(s, step).fibers|
    ensures forall f | 0 <= f < |s.fibers| && Next(s, step).fibers[f].clean :: s.fibers[f].clean
  {
    hide RunNext, IdleNext, EventNext, CodeNext, StopNext, CallEffect, Issue;
    match step
    case RunStep(w) =>
      RunFrame(s, w);
      forall f | 0 <= f < |s.fibers| && RunNext(s, w).fibers[f].clean ensures s.fibers[f].clean {
        if Bare(s.fibers[f]) == Bare(RunNext(s, w).fibers[f]) {
          OwedBare(s.fibers[f], RunNext(s, w).fibers[f], s.waits);
        }
      }
    case BlockedStep(_, _) =>
    case IdleStep(w) => IdleFrame(s, w);
    case EventStep(w, e) => EventFrame(s, w, e);
    case CodeStep(w) => CodeFrame(s, w);
    case BodyStep(w, a) => KeptBody(s, w, a);
    case SubmitStep(what) => IssueFrame(s, what);
    case OutsideStep(i) => CallFrame(s, s.outside[i]);
    case StopStep => StopFrame(s);
    case ExpiredStep(_) =>
  }

  lemma KeptBody(s: State, w: nat, a: Action)
    requires BodyCan(s, w, a)
    ensures |s.fibers| <= |BodyNext(s, w, a).fibers|
    ensures forall f | 0 <= f < |s.fibers| && BodyNext(s, w, a).fibers[f].clean :: s.fibers[f].clean
  {
    hide Issue;
    if a.CallSubmit? {
      IssueFrame(s, a.what);
      IssueKeeps(s, w, a.what);
    }
  }

  lemma {:induction false} CleanBefore(s: State, steps: seq<Step>, s': State, f: nat)
    requires Reaches(s, steps, s') && f < |s.fibers| && f < |s'.fibers| && s'.fibers[f].clean
    ensures s.fibers[f].clean
    decreases |steps|
  {
    hide Next, Can;
    if steps != [] {
      Kept(s, steps[0]);
      CleanBefore(Next(s, steps[0]), steps[1..], s', f);
    }
  }

  // ----- runs in which that happens -----

  const FD := Slot(0, false)

  /** One worker: fiber 0 is parked in wait 0. */
  lemma FirstWaits(b: State) returns (s: State)
    requires b == Init(1)
    ensures Leads(b, s)
    ensures s == b.(fibers := [Fiber(Hold, IoHeld(FD, 0), None, true, Some(Job(0)))], waits := [Wait(0, FD, false)],
                    callbacks := map[FD := 0], home := map[0 := 0], outside := [Tickle(0, true)],
                    jobs := 1, post := 1, pending := 1)
  {
    hide Leads;
    Stay(b);
    assert 0 % 1 == 0;
    s := Take(b, b, SubmitStep(NewJob));
    assert s.outside == [Push(0, Job(0))] && s.queues == [[]];
    s := Take(b, s, OutsideStep(0));
    assert |s.queues| == 1 && s.queues[0] == [Job(0)];
    s := Take(b, s, RunStep(0));
    assert |s.queues| == 1 && s.queues[0] == [];
    s := Begins(b, s, 0);
    s := Parks(b, s, 0, 0, FD);
    assert s.displaced == {};
  }

  /** A second callback is pushed, and taken by worker 0. */
  lemma SecondSubmitted(b: State, s: State) returns (s': State)
    requires Leads(b, s) && |s.workers| == 1 && s.queues == [[]] && s.outside == [Tickle(0, true)]
    requires s.jobs == 1 && s.post == 1
    ensures Leads(b, s')
    ensures s' == s.(queues := [[Job(1)]], outside := [Tickle(0, true), Tickle(0, true)], jobs := 2, post := 2)
  {
    hide Leads;
    assert 1 % 1 == 0;
    s' := Take(b, s, SubmitStep(NewJob));
    assert s'.outside == [Tickle(0, true), Push(0, Job(1))];
    s' := Take(b, s', OutsideStep(1));
    assert |s'.queues| == 1 && s'.queues[0] == [Job(1)];
    assert s'.outside == [Tickle(0, true), Tickle(0, true)];
  }

  lemma NothingHeld(s: State, t: Task)
    requires forall q | 0 <= q < |s.queues| :: s.queues[q] == []
    requires forall w | 0 <= w < |s.workers| :: InHand(s.workers[w].pc) == multiset{}
    requires forall f | 0 <= f < |s.fibers| :: InCode(s.fibers[f].pc) == multiset{}
    requires forall i | 0 <= i < |s.outside| :: !s.outside[i].Push?
    ensures Count(s, t) == 0
  {
    hide BagOf;
    BagEmpty(QueueTasks, s.queues);
    BagEmpty(HandTasks, s.workers);
    BagEmpty(FiberTasks, s.fibers);
    BagEmpty(CallTasks, s.outside);
  }

  /** The overwriting happens: a quiet waiter, and a second one about to register on its slot. */
  lemma SecondWaiterComes()
    ensures exists s :: Reachable(1, s) && QuietWait(s, 0, FD, 0) && CodeCan(s, 0) && Mine(s, 0).pc == IoRegister(FD, 1)
  {
    hide Leads, Count;
    var b := Init(1);
    var s := SecondBlocks(b);
    NothingHeld(s, Wake(0));
    assert QuietWait(s, 0, FD, 0) && CodeCan(s, 0);
  }

  lemma SecondBlocks(b: State) returns (s: State)
    requires b == Init(1)
    ensures Leads(b, s)
    ensures s.workers == [Worker(Run(1), FiberState.Ready, false, 0)] && s.queues == [[]]
    ensures s.outside == [Tickle(0, true), Tickle(0, true)]
    ensures s.waits == [Wait(0, FD, false), Wait(1, FD, false)]
    ensures s.fibers == [Fiber(Hold, IoHeld(FD, 0), None, true, Some(Job(0))),
                         Fiber(Running, IoRegister(FD, 1), Some(0), true, Some(Job(1)))]
  {
    hide Leads;
    s := FirstWaits(b);
    s := SecondSubmitted(b, s);
    s := Take(b, s, RunStep(0));
    assert |s.queues| == 1 && s.queues[0] == [];
    s := Begins(b, s, 0);
    s := Take(b, s, BodyStep(0, Block(FD)));
  }

  /** With its queue empty, the worker falls idle and returns from epoll_wait. */
  lemma FallsIdle(b: State, s: State) returns (s': State)
    requires Leads(b, s) && s.workers == [Worker(Pop, FiberState.Ready, false, 0)] && s.queues == [[]] && !s.stop
    ensures Leads(b, s') && s' == s.(workers := [Worker(IdleEvents, Running, false, 0)])
  {
    hide Leads;
    s' := ComesToPoll(b, s, 0);
    s' := PollReturns(b, s', 0);
  }

  /** The event on the slot queues a copy of the callback behind the second task. */
  lemma CopyQueued(b: State, s: State) returns (s': State)
    requires Leads(b, s) && s.workers == [Worker(IdleEvents, Running, false, 0)] && s.queues == [[Job(1)]] && !s.stop
    requires s.callbacks == map[FD := 0] && s.home == map[0 := 0]
    ensures Leads(b, s')
    ensures s' == s.(workers := [Worker(Pop, FiberState.Ready, false, 0)], queues := [[Job(1), Wake(0)]])
  {
    hide Leads;
    s' := EventQueues(b, s, 0, FD);
    assert |s'.queues| == 1 && s'.queues[0] == [Job(1), Wake(0)];
    s' := EventsOver(b, s', 0);
  }

  /** The copy runs in a fiber of its own and queues fiber 0. */
  lemma CopyRuns(b: State, s: State) returns (s': State)
    requires Leads(b, s) && s.workers == [Worker(Pop, FiberState.Ready, false, 0)] && s.queues == [[Wake(0)]]
    requires |s.fibers| == 2
    requires |s.waits| == 2 && s.waits[0] == Wait(0, FD, false)
    ensures Leads(b, s')
    ensures s' == s.(queues := [[Resume(0)]], waits := s.waits[0 := Wait(0, FD, true)],
                     fibers := s.fibers + [Fiber(Term, Done, None, true, Some(Wake(0)))])
  {
    hide Leads;
    s' := Take(b, s, RunStep(0));
    assert |s'.queues| == 1 && s'.queues[0] == [];
    s' := Begins(b, s', 0);
    s' := Take(b, s', CodeStep(0));
    assert s'.fibers[2].pc == WakePush(0);
    s' := Take(b, s', CodeStep(0));
    assert |s'.queues| == 1 && s'.queues[0] == [Resume(0)] && s'.fibers[2].pc == Ending;
    s' := Ends(b, s', 0, 2);
  }

  /** The second waiter overwrites the callback while a copy of it is queued. */
  lemma SecondWaits(b: State) returns (s: State)
    requires b == Init(1)
    ensures Leads(b, s)
    ensures s.workers == [Worker(Pop, FiberState.Ready, false, 0)] && s.queues == [[Wake(0)]]
    ensures s.outside == [Tickle(0, true), Tickle(0, true)]
    ensures s.waits == [Wait(0, FD, false), Wait(1, FD, false)] && s.callbacks == map[FD := 1]
    ensures s.fibers == [Fiber(Hold, IoHeld(FD, 0), None, true, Some(Job(0))),
                         Fiber(Hold, IoHeld(FD, 1), None, true, Some(Job(1)))]
  {
    hide Leads;
    s := FirstWaits(b);
    s := FallsIdle(b, s);
    s := SecondSubmitted(b, s);
    s := CopyQueued(b, s);
    s := Take(b, s, RunStep(0));
    assert |s.queues| == 1 && s.queues[0] == [Wake(0)];
    assert s.workers == [Worker(Got(Job(1)), FiberState.Ready, false, 0)];
    s := Begins(b, s, 0);
    s := Parks(b, s, 0, 1, FD);
  }

  /** The other way: the first waiter, woken by the copy, is about to remove the callback of a quiet second one. */
  lemma FirstWaiterLeaves()
    ensures exists s ::
              Reachable(1, s) && QuietWait(s, 1, FD, 1) && CodeCan(s, 0) && Mine(s, 0).pc == IoUnregister(FD, 0)
  {
    hide Leads, Count;
    var b := Init(1);
    var s := SecondWaits(b);
    s := FirstWakes(b, s);
    NothingHeld(s, Wake(1));
    assert QuietWait(s, 1, FD, 1) && CodeCan(s, 0);
  }

  lemma FirstWakes(b: State, s: State) returns (s': State)
    requires Leads(b, s) && s.workers == [Worker(Pop, FiberState.Ready, false, 0)] && s.queues == [[Wake(0)]]
    requires s.waits == [Wait(0, FD, false), Wait(1, FD, false)]
    requires s.fibers == [Fiber(Hold, IoHeld(FD, 0), None, true, Some(Job(0))),
                         Fiber(Hold, IoHeld(FD, 1), None, true, Some(Job(1)))]
    ensures Leads(b, s') && s'.outside == s.outside
    ensures s'.workers == [Worker(Run(0), FiberState.Ready, false, 0)] && s'.queues == [[]]
    ensures s'.waits == [Wait(0, FD, true), Wait(1, FD, false)]
    ensures s'.fibers == [Fiber(Running, IoUnregister(FD, 0), Some(0), true, Some(Job(0))),
                          Fiber(Hold, IoHeld(FD, 1), None, true, Some(Job(1))),
                          Fiber(Term, Done, None, true, Some(Wake(0)))]
  {
    hide Leads;
    s' := CopyRuns(b, s);
    s' := Take(b, s', RunStep(0));
    assert |s'.queues| == 1 && s'.queues[0] == [];
    s' := Resumes(b, s', 0, 0);
  }

  /** The idle fiber has terminated, and worker 0 takes a task that came late. */
  lemma LateTaskTaken(b: State) returns (s: State)
    requires b == Init(1)
    ensures Leads(b, s)
    ensures s == b.(workers := [Worker(Got(Job(0)), Term, false, 0)], outside := [Tickle(0, true)], jobs := 1,
                    post := 1, stop := true, stopper := Tickling(0, false))
  {
    hide Leads;
    Stay(b);
    s := Take(b, b, StopStep);
    s := IdleRunEnds(b, s, 0);
    assert 0 % 1 == 0;
    s := Take(b, s, SubmitStep(NewJob));
    assert s.outside == [Push(0, Job(0))] && s.queues == [[]];
    s := Take(b, s, OutsideStep(0));
    assert |s.queues| == 1 && s.queues[0] == [Job(0)];
    s := Take(b, s, RunStep(0));
    assert |s.queues| == 1 && s.queues[0] == [];
  }

  /** Its fiber parks, and the worker leaves: nobody polls for the descriptor, and the callback stays installed. */
  lemma ParksAndLeaves(b: State, s: State) returns (s': State)
    requires Leads(b, s) && s.workers == [Worker(Got(Job(0)), Term, false, 0)] && s.queues == [[]]
    requires s.fibers == [] && s.waits == [] && s.callbacks == map[] && s.home == map[]
    ensures Leads(b, s') && s'.workers == [Worker(Exited, Term, false, 0)]
    ensures s'.queues == [[]] && s'.outside == s.outside
    ensures s'.fibers == [Fiber(Hold, IoHeld(FD, 0), None, true, Some(Job(0)))] && s'.waits == [Wait(0, FD, false)]
    ensures s'.callbacks == map[FD := 0] && s'.home == map[0 := 0]
  {
    hide Leads;
    s' := Begins(b, s, 0);
    s' := Parks(b, s', 0, 0, FD);
    s' := ScanAll(b, s', 0);
    s' := Take(b, s', RunStep(0));
  }

  /** A callback can stay installed for ever with nobody left to report its event. */
  lemma LastPollerLeaves()
    ensures exists s :: Reachable(1, s) && AllExited(s) && 0 < |s.fibers| && OpenWait(s, 0) && Stranded(s, 0, 0)
  {
    hide Leads, Count;
    var b := Init(1);
    var s := LateTaskTaken(b);
    s := ParksAndLeaves(b, s);
    NothingHeld(s, Wake(0));
    assert OpenWait(s, 0) && Stranded(s, 0, 0);
  }
}

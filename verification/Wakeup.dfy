/** References stay in range, and every parked fiber is owed exactly one wake-up. */
module Wakeup {
  import opened Bags
  import opened Machine
  import opened Tokens
  import opened Switching
  import opened Frames

  /** In do_io, from the choice of a `triggered` flag to the resume that ends the wait. */
  predicate Waiting(pc: FiberPc) {
    pc.IoRegister? || pc.IoCount? || pc.IoHold? || pc.IoHeld?
  }

  /** In do_io, while the callback of the wait must be installed. */
  predicate Installing(pc: FiberPc) {
    pc.IoCount? || pc.IoHold? || pc.IoHeld? || pc.IoUnregister?
  }

  predicate TaskOk(s: State, t: Task) {
    match t
    case Job(j) => j < s.jobs
    case Wake(k) => k < |s.waits|
    case Resume(f) => f < |s.fibers|
  }

  predicate CallOk(n: nat, p: SubmitPc) {
    match p
    case Push(q, _) => q < n
    case Tickle(q, _) => q < n
    case WriteEventFd(q) => q < n
    case Returned => true
  }

  predicate PcOk(n: nat, waits: seq<Wait>, f: nat, pc: FiberPc) {
    && (pc.Submit? ==> CallOk(n, pc.call) && !pc.call.Returned?)
    && (Waiting(pc) || Installing(pc) ==>
          pc.wait < |waits| && waits[pc.wait].fiber == f && waits[pc.wait].slot == pc.slot)
    && (pc.WakeExchange? ==> pc.wait < |waits|)
  }

  ghost predicate Referenced(s: State) {
    && 0 < |s.queues| == |s.workers|
    && (forall t :: 0 < Count(s, t) ==> TaskOk(s, t))
    && (forall k | 0 <= k < |s.waits| :: s.waits[k].fiber < |s.fibers|)
    && (forall slot | slot in s.callbacks :: s.callbacks[slot] < |s.waits|)
    && (forall f | 0 <= f < |s.fibers| :: PcOk(|s.queues|, s.waits, f, s.fibers[f].pc))
    && (forall i | 0 <= i < |s.outside| :: CallOk(|s.queues|, s.outside[i]))
  }

  /** How many Resume tasks of a clean fiber must exist. */
  function Owed(x: Fiber, waits: seq<Wait>): nat {
    if x.state == FiberState.Ready then 1
    else if Waiting(x.pc) && x.pc.wait < |waits| && waits[x.pc.wait].triggered then 1
    else 0
  }

  /** The wait k has not been triggered only while its fiber is still in that wait. */
  predicate Current(s: State, k: nat)
    requires k < |s.waits|
  {
    var f := s.waits[k].fiber;
    || s.waits[k].triggered
    || (f < |s.fibers| && (s.fibers[f].clean ==> Waiting(s.fibers[f].pc) && s.fibers[f].pc.wait == k))
  }

  ghost predicate Woken(s: State) {
    && (forall f | 0 <= f < |s.fibers| && s.fibers[f].clean :: Count(s, Resume(f)) == Owed(s.fibers[f], s.waits))
    && (forall f | 0 <= f < |s.fibers| && s.fibers[f].state == FiberState.Ready :: 1 <= Count(s, Resume(f)))
    && (forall k | 0 <= k < |s.waits| :: Current(s, k))
  }

  /** A wait that has not been displaced is the one installed on its slot, from its registration to its end;
      before its registration it is neither installed nor displaced. */
  predicate InstalledAt(callbacks: map<Slot, nat>, displaced: set<nat>, pc: FiberPc) {
    && (Installing(pc) && pc.wait !in displaced ==> pc.slot in callbacks && callbacks[pc.slot] == pc.wait)
    && (pc.IoRegister? ==> pc.wait !in displaced && pc.wait !in callbacks.Values)
  }

  /** Only waits on the slot itself that have not been displaced are installed. */
  ghost predicate Installed(s: State) {
    && (forall slot | slot in s.callbacks ::
          && s.callbacks[slot] < |s.waits| && s.waits[s.callbacks[slot]].slot == slot
          && s.callbacks[slot] !in s.displaced)
    && (forall k | k in s.displaced :: k < |s.waits|)
    && (forall f | 0 <= f < |s.fibers| :: InstalledAt(s.callbacks, s.displaced, s.fibers[f].pc))
  }

  // ----- what a step can make larger -----

  /** Nothing that tasks, waits and calls refer to disappears. */
  ghost predicate Grown(s: State, s': State) {
    && |s'.queues| == |s.queues| && |s'.workers| == |s.workers|
    && |s.fibers| <= |s'.fibers| && |s.waits| <= |s'.waits| && s.jobs <= s'.jobs
    && (forall k | 0 <= k < |s.waits| :: s'.waits[k].fiber == s.waits[k].fiber && s'.waits[k].slot == s.waits[k].slot)
  }

  /** Every fiber but f keeps its pc; f and the fibers and waits that are new refer to what exists. */
  lemma ReferencedFrame(s: State, s': State, step: Step, f: nat)
    requires Referenced(s) && Can(s, step) && s' == Next(s, step) && Grown(s, s')
    requires step.RunStep? ==> BackAgrees(s, step.w)
    requires forall t :: 0 < Delta(s, step, t) ==> TaskOk(s', t)
    requires forall k | |s.waits| <= k < |s'.waits| :: s'.waits[k].fiber < |s'.fibers|
    requires forall slot | slot in s'.callbacks :: s'.callbacks[slot] < |s'.waits|
    requires forall g | 0 <= g < |s.fibers| && g != f :: s'.fibers[g].pc == s.fibers[g].pc
    requires forall g | |s.fibers| <= g < |s'.fibers| || (g == f && g < |s.fibers|) ::
               PcOk(|s.queues|, s'.waits, g, s'.fibers[g].pc)
    requires forall i | 0 <= i < |s'.outside| :: CallOk(|s.queues|, s'.outside[i])
    ensures Referenced(s')
  {
    hide Count, BagOf, Next, Delta, Can;
    forall t | 0 < Count(s', t) ensures TaskOk(s', t) {
      StepCount(s, step, t);
      if 0 < Count(s, t) {
        assert TaskOk(s, t);
      }
    }
    forall g | 0 <= g < |s'.fibers| ensures PcOk(|s'.queues|, s'.waits, g, s'.fibers[g].pc) {
      if g < |s.fibers| && g != f {
        assert PcOk(|s.queues|, s.waits, g, s.fibers[g].pc);
      }
    }
  }

  lemma HandCounts(s: State, w: nat, t: Task)
    requires w < |s.workers|
    ensures InHand(s.workers[w].pc)[t] <= Count(s, t)
  {
    BagMember(HandTasks, s.workers, w);
    assert HandTasks(s.workers[w])[t] <= BagOf(HandTasks, s.workers)[t];
  }

  lemma ReferencedRun(s: State, w: nat)
    requires Referenced(s) && RunCan(s, w) && BackAgrees(s, w)
    ensures Referenced(RunNext(s, w))
  {
    hide Count, BagOf, RunNext;
    RunFrame(s, w);
    var pc := s.workers[w].pc;
    if pc.Counted? {
      HandCounts(s, w, pc.task);
      assert TaskOk(s, pc.task);
    }
    var f := if pc.Locked? then pc.fiber else |s.fibers|;
    if f < |s.fibers| {
      assert PcOk(|s.queues|, s.waits, f, s.fibers[f].pc);
    }
    forall g | 0 <= g < |s.fibers| && g != f ensures RunNext(s, w).fibers[g].pc == s.fibers[g].pc {
      assert Bare(s.fibers[g]).pc == s.fibers[g].pc && Bare(RunNext(s, w).fibers[g]).pc == RunNext(s, w).fibers[g].pc;
    }
    ReferencedFrame(s, RunNext(s, w), RunStep(w), f);
  }

  lemma ReferencedBlocked(s: State, w: nat, holder: Holder)
    requires Referenced(s) && BlockedCan(s, w, holder)
    ensures Referenced(BlockedNext(s, w, holder))
  {
    hide Count, BagOf;
    ReferencedFrame(s, BlockedNext(s, w, holder), BlockedStep(w, holder), |s.fibers|);
  }

  lemma ReferencedIdle(s: State, w: nat)
    requires Referenced(s) && IdleCan(s, w)
    ensures Referenced(IdleNext(s, w))
  {
    hide Count, BagOf, IdleNext;
    IdleFrame(s, w);
    ReferencedFrame(s, IdleNext(s, w), IdleStep(w), |s.fibers|);
  }

  lemma ReferencedEvent(s: State, w: nat, e: Event)
    requires Referenced(s) && EventCan(s, w, e)
    ensures Referenced(EventNext(s, w, e))
  {
    hide Count, BagOf;
    EventFrame(s, w, e);
    ReferencedFrame(s, EventNext(s, w, e), EventStep(w, e), |s.fibers|);
  }

  lemma ReferencedYield(s: State, w: nat, a: Action)
    requires Referenced(s) && BodyCan(s, w, a) && (a.Yield? || a.Return? || a.AddTimer? || a.CancelTimer?)
    ensures Referenced(BodyNext(s, w, a))
  {
    hide Count, BagOf;
    ReferencedFrame(s, BodyNext(s, w, a), BodyStep(w, a), s.workers[w].pc.fiber);
  }

  lemma ReferencedSubmit(s: State, w: nat, what: Work)
    requires Referenced(s) && BodyCan(s, w, CallSubmit(what))
    ensures Referenced(BodyNext(s, w, CallSubmit(what)))
  {
    hide Count, BagOf, Issue;
    IssueFrame(s, what);
    IssueKeeps(s, w, what);
    var s1 := Issue(s, what);
    forall g | 0 <= g < |s.fibers| ensures s1.fibers[g].pc == s.fibers[g].pc {
      assert s1.fibers[g].(clean := false).pc == s.fibers[g].(clean := false).pc;
    }
    ReferencedFrame(s, BodyNext(s, w, CallSubmit(what)), BodyStep(w, CallSubmit(what)), s.workers[w].pc.fiber);
  }

  lemma ReferencedBlock(s: State, w: nat, slot: Slot)
    requires Referenced(s) && BodyCan(s, w, Block(slot))
    ensures Referenced(BodyNext(s, w, Block(slot)))
  {
    hide Count, BagOf;
    ReferencedFrame(s, BodyNext(s, w, Block(slot)), BodyStep(w, Block(slot)), s.workers[w].pc.fiber);
  }

  lemma CodeRefers(s: State, w: nat)
    requires Referenced(s) && CodeCan(s, w)
    ensures PcOk(|s.queues|, NextWaits(s, w), s.workers[w].pc.fiber, NextPc(s, w))
    ensures forall slot | slot in NextCallbacks(s, w) :: NextCallbacks(s, w)[slot] < |s.waits|
  {
    hide Count, BagOf;
    var f := s.workers[w].pc.fiber;
    assert PcOk(|s.queues|, s.waits, f, s.fibers[f].pc);
  }

  lemma ReferencedCode(s: State, w: nat)
    requires Referenced(s) && CodeCan(s, w)
    ensures Referenced(CodeNext(s, w))
  {
    hide Count, BagOf, CodeNext;
    CodeFrame(s, w);
    CodeRefers(s, w);
    CodeMakes(s, w);
    ReferencedFrame(s, CodeNext(s, w), CodeStep(w), s.workers[w].pc.fiber);
  }

  lemma CodeMakes(s: State, w: nat)
    requires Referenced(s) && CodeCan(s, w)
    ensures forall t :: 0 < CodeDelta(s, w, t) ==> TaskOk(s, t)
  {
    hide Count, BagOf;
  }

  lemma ReferencedExpired(s: State, w: nat)
    requires Referenced(s) && ExpiredCan(s, w)
    ensures Referenced(ExpiredNext(s, w))
  {
    hide Count, BagOf;
    ReferencedFrame(s, ExpiredNext(s, w), ExpiredStep(w), s.workers[w].pc.fiber);
  }

  lemma ReferencedBegin(s: State, what: Work)
    requires Referenced(s) && IssueCan(s, what)
    ensures Referenced(OutsideBegin(s, what))
  {
    hide Count, BagOf, Issue;
    IssueFrame(s, what);
    var s1 := Issue(s, what);
    forall g | 0 <= g < |s.fibers| ensures s1.fibers[g].pc == s.fibers[g].pc {
      assert s1.fibers[g].(clean := false).pc == s.fibers[g].(clean := false).pc;
    }
    ReferencedFrame(s, OutsideBegin(s, what), SubmitStep(what), |s.fibers|);
  }

  lemma ReferencedOutside(s: State, i: nat)
    requires Referenced(s) && OutsideCan(s, i)
    ensures Referenced(OutsideNext(s, i))
  {
    hide Count, BagOf, CallEffect;
    CallFrame(s, s.outside[i]);
    ReferencedFrame(s, OutsideNext(s, i), OutsideStep(i), |s.fibers|);
  }

  lemma ReferencedStop(s: State)
    requires Referenced(s)
    ensures Referenced(StopNext(s))
  {
    hide Count, BagOf, StopNext;
    StopFrame(s);
    ReferencedFrame(s, StopNext(s), StopStep, |s.fibers|);
  }

  lemma ReferencedStep(s: State, step: Step)
    requires Referenced(s) && Can(s, step)
    requires step.RunStep? ==> BackAgrees(s, step.w)
    ensures Referenced(Next(s, step))
  {
    hide Referenced, RunNext, IdleNext, EventNext, BodyNext, CodeNext, OutsideNext, OutsideBegin, StopNext, ExpiredNext,
         BlockedNext;
    match step
    case RunStep(w) => ReferencedRun(s, w);
    case BlockedStep(w, holder) => ReferencedBlocked(s, w, holder);
    case IdleStep(w) => ReferencedIdle(s, w);
    case EventStep(w, e) => ReferencedEvent(s, w, e);
    case BodyStep(w, a) =>
      if a.CallSubmit? {
        ReferencedSubmit(s, w, a.what);
      } else if a.Block? {
        ReferencedBlock(s, w, a.slot);
      } else {
        ReferencedYield(s, w, a);
      }
    case CodeStep(w) => ReferencedCode(s, w);
    case ExpiredStep(w) => ReferencedExpired(s, w);
    case SubmitStep(what) => ReferencedBegin(s, what);
    case OutsideStep(i) => ReferencedOutside(s, i);
    case StopStep => ReferencedStop(s);
  }
}

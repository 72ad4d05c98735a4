/** What each kind of step leaves alone. */
module Frames {
  import opened Options
  import opened Machine

  /** Only the scheduling fields of a fiber, not what its code does. */
  function Bare(x: Fiber): Fiber {
    x.(lockedBy := None)
  }

  ghost predicate SameButLocks(a: seq<Fiber>, b: seq<Fiber>) {
    |a| == |b| && forall g | 0 <= g < |a| :: Bare(a[g]) == Bare(b[g])
  }

  /** Where a step of run() takes the worker, and what it adds to active_thread_count_. */
  predicate RunArrives(pc: WorkerPc, pc': WorkerPc, d: int) {
    match pc
    case Pop => d == 0 && (pc' == Steal(1) || pc'.Got?)
    case Steal(i) => d == 0 && (pc' == Steal(i + 1) || pc'.Got? || pc' == Exited || pc' == IdleSet)
    case Got(t) => d == 1 && pc' == Counted(t)
    case Counted(t) => d == 0 && (pc'.Locked? || pc'.Refused?)
    case Refused(_) => d == 0 && pc' == RefusedUncount
    case RefusedUncount => d == -1 && pc' == Pop
    case Locked(f) => d == 0 && (pc' == Run(f) || pc' == Uncount)
    case Back(f, _) => d == 0 && (pc' == Requeue(f) || pc' == Unlock(f))
    case Requeue(f) => d == 0 && pc' == Unlock(f)
    case Unlock(_) => d == 0 && pc' == Uncount
    case Uncount => d == -1 && pc' == Pop
    case _ => false
  }

  /** run() resumes the idle fiber only on its way into idle(), and only if it has not terminated. */
  predicate IdleResumed(x: Worker, x': Worker) {
    x'.idle == (if x'.pc == IdleSet then Running else x.idle) && (x'.pc == IdleSet ==> !x.IdleTerm())
  }

  lemma TakeFrame(s: State, w: nat)
    requires RunCan(s, w) && (s.workers[w].pc.Pop? || s.workers[w].pc.Steal?)
    ensures var s' := RunNext(s, w);
            && s' == s.(workers := s'.workers, queues := s'.queues)
            && s'.workers == s.workers[w := s.workers[w].(pc := s'.workers[w].pc, idle := s'.workers[w].idle)]
            && IdleResumed(s.workers[w], s'.workers[w])
            && RunArrives(s.workers[w].pc, s'.workers[w].pc, s'.active - s.active)
            && |s'.queues| == |s.queues|
            && (forall q | 0 <= q < |s.queues| && q != w && s'.queues[q] != [] :: s.queues[q] != [])
  {
    hide Victim;
    if s.workers[w].pc.Steal? && s.workers[w].pc.offset < |s.workers| {
      StealFrame(s, w, s.workers[w].pc.offset);
    }
  }

  lemma StealFrame(s: State, w: nat, i: nat)
    requires At(s, w) && i < |s.workers|
    ensures var s' := StealOne(s, w, i);
            && s' == s.(workers := s'.workers, queues := s'.queues)
            && s'.workers == s.workers[w := s.workers[w].(pc := s'.workers[w].pc)]
            && (s'.workers[w].pc == Steal(i + 1) || s'.workers[w].pc.Got?)
            && |s'.queues| == |s.queues|
            && (forall q | 0 <= q < |s.queues| && q != w && s'.queues[q] != [] :: s.queues[q] != [])
  {
  }

  lemma LockFrame(s: State, w: nat)
    requires RunCan(s, w)
    requires var pc := s.workers[w].pc; pc.Unlock? || (pc.Counted? && pc.task.Resume?)
                                        || (pc.Locked? && s.fibers[pc.fiber].state == Term)
    ensures var s' := RunNext(s, w);
            && s' == s.(workers := s'.workers, fibers := s'.fibers)
            && s'.workers == s.workers[w := s.workers[w].(pc := s'.workers[w].pc)]
            && RunArrives(s.workers[w].pc, s'.workers[w].pc, s'.active - s.active)
            && SameButLocks(s.fibers, s'.fibers)
  {
  }

  /** The steps of run() that only move the worker, count, or push. */
  lemma MoveFrame(s: State, w: nat)
    requires RunCan(s, w)
    requires var pc := s.workers[w].pc; pc.Got? || pc.Refused? || pc.RefusedUncount? || pc.Back? || pc.Requeue?
                                        || pc.Uncount?
    ensures var s' := RunNext(s, w);
            && s' == s.(workers := s'.workers, queues := s'.queues, active := s'.active)
            && s'.workers == s.workers[w := s.workers[w].(pc := s'.workers[w].pc)]
            && RunArrives(s.workers[w].pc, s'.workers[w].pc, s'.active - s.active)
            && |s'.queues| == |s.queues|
            && (forall q | 0 <= q < |s.queues| && q != w && s'.queues[q] != [] :: s.queues[q] != [])
  {
  }

  lemma RunFrame(s: State, w: nat)
    requires RunCan(s, w)
    ensures var s' := RunNext(s, w); var pc := s.workers[w].pc;
            && s' == s.(workers := s'.workers, queues := s'.queues, fibers := s'.fibers, active := s'.active)
            && s'.workers == s.workers[w := s.workers[w].(pc := s'.workers[w].pc, idle := s'.workers[w].idle)]
            && IdleResumed(s.workers[w], s'.workers[w])
            && RunArrives(s.workers[w].pc, s'.workers[w].pc, s'.active - s.active)
            && |s'.queues| == |s.queues|
            && (forall q | 0 <= q < |s.queues| && q != w && s'.queues[q] != [] :: s.queues[q] != [])
            && (if pc.Counted? && !pc.task.Resume? then
                  s'.fibers == s.fibers + [Fiber(FiberState.Ready, FirstPc(pc.task), Some(w), true, Some(pc.task))]
                else if pc.Locked? && s.fibers[pc.fiber].state != Term then
                  s'.fibers == s.fibers[pc.fiber := Resumed(s.fibers[pc.fiber])]
                else SameButLocks(s.fibers, s'.fibers))
  {
    hide TakeOwn, StealOne, GiveUp, Recount, TryLock, PutBack, AfterResume, Release, Victim, RunNext;
    var pc := s.workers[w].pc;
    if pc.Pop? || pc.Steal? {
      TakeFrame(s, w);
    } else if pc.Counted? && !pc.task.Resume? {
      WrapFrame(s, w);
    } else if pc.Locked? && s.fibers[pc.fiber].state != Term {
      EnterFrame(s, w);
    } else if pc.Unlock? || pc.Counted? || pc.Locked? {
      LockFrame(s, w);
    } else {
      MoveFrame(s, w);
    }
  }

  lemma WrapFrame(s: State, w: nat)
    requires RunCan(s, w) && s.workers[w].pc.Counted? && !s.workers[w].pc.task.Resume?
    ensures var s' := RunNext(s, w); var t := s.workers[w].pc.task;
            && s' == s.(workers := s'.workers, fibers := s'.fibers)
            && s'.workers == s.workers[w := s.workers[w].(pc := Locked(|s.fibers|))]
            && s'.fibers == s.fibers + [Fiber(FiberState.Ready, FirstPc(t), Some(w), true, Some(t))]
  {
  }

  lemma EnterFrame(s: State, w: nat)
    requires RunCan(s, w) && s.workers[w].pc.Locked? && s.fibers[s.workers[w].pc.fiber].state != Term
    ensures var s' := RunNext(s, w); var f := s.workers[w].pc.fiber;
            && s' == s.(workers := s'.workers, fibers := s'.fibers)
            && s'.workers == s.workers[w := s.workers[w].(pc := Run(f))]
            && s'.fibers == s.fibers[f := Resumed(s.fibers[f])]
  {
  }

  lemma EventFrame(s: State, w: nat, e: Event)
    requires EventCan(s, w, e)
    ensures var s' := EventNext(s, w, e);
            && s' == s.(workers := s'.workers, queues := s'.queues, jobs := s'.jobs)
            && s'.workers == s.workers[w := s'.workers[w]] && |s'.workers| == |s.workers|
            && |s'.queues| == |s.queues| && s.jobs <= s'.jobs
            && (forall q | 0 <= q < |s.queues| && q != w :: s'.queues[q] == s.queues[q])
            && s'.workers[w].idle == s.workers[w].idle
            && s'.workers[w].idling == s.workers[w].idling
            && (s'.workers[w].pc == IdleEvents || s'.workers[w].pc == IdleStopping(true, 0)
                || s'.workers[w].pc.IdlePush?)
  {
  }

  lemma CallFrame(s: State, p: SubmitPc)
    requires CallCan(s, p)
    ensures var s' := CallEffect(s, p);
            && s' == s.(workers := s'.workers, queues := s'.queues)
            && |s'.workers| == |s.workers| && |s'.queues| == |s.queues|
            && (forall q | 0 <= q < |s.queues| && !(p.Push? && p.queue == q) :: s'.queues[q] == s.queues[q])
            && (forall u | 0 <= u < |s.workers| :: s'.workers[u].(eventfd := 0) == s.workers[u].(eventfd := 0)
                                                   && s.workers[u].eventfd <= s'.workers[u].eventfd)
  {
  }

  /** Issuing work touches counters, and adds a fiber or marks one as not clean. */
  lemma IssueFrame(s: State, what: Work)
    requires IssueCan(s, what)
    ensures var s' := Issue(s, what);
            && s' == s.(post := s'.post, jobs := s'.jobs, fibers := s'.fibers)
            && s.jobs <= s'.jobs
            && |s.fibers| <= |s'.fibers|
            && (forall g | 0 <= g < |s.fibers| :: s'.fibers[g].(clean := false) == s.fibers[g].(clean := false)
                                                  && (s'.fibers[g].clean ==> s.fibers[g].clean))
            && (if what.NewFiber? then s'.fibers == s.fibers + [Fiber(FiberState.Ready, Body, None, false, None)]
                else |s'.fibers| == |s.fibers|)
            && (what.NewJob? <==> s.jobs < s'.jobs)
            && (what.NewJob? ==> s'.jobs == s.jobs + 1 && s'.fibers == s.fibers)
  {
  }

  /** Where the code of worker w's fiber goes. */
  function NextPc(s: State, w: nat): FiberPc
    requires CodeCan(s, w)
  {
    match Mine(s, w).pc
    case Submit(p) => AfterCall(CallNext(s, p))
    case IoRegister(slot, k) => IoCount(slot, k)
    case IoCount(slot, k) => IoHold(slot, k)
    case IoHold(slot, k) => IoHeld(slot, k)
    case IoUnregister(slot, _) => IoUncount(slot)
    case IoUncount(_) => Body
    case WakeExchange(k) => if s.waits[k].triggered then Ending else WakePush(s.waits[k].fiber)
    case WakePush(_) => Ending
    case Ending => Done
  }

  /** The fiber of worker w after a step of its own code, other than a choice of its callback. */
  function NextFiber(s: State, w: nat): Fiber
    requires CodeCan(s, w)
  {
    var x := Mine(s, w);
    x.(pc := NextPc(s, w),
       state := if x.pc.IoHold? then Hold else if x.pc.Ending? then Term else x.state)
  }

  function NextWaits(s: State, w: nat): seq<Wait>
    requires CodeCan(s, w)
  {
    var pc := Mine(s, w).pc;
    if pc.WakeExchange? then s.waits[pc.wait := s.waits[pc.wait].(triggered := true)] else s.waits
  }

  function NextCallbacks(s: State, w: nat): map<Slot, nat>
    requires CodeCan(s, w)
  {
    match Mine(s, w).pc
    case IoRegister(slot, k) => s.callbacks[slot := k]
    case IoUnregister(slot, _) => s.callbacks - {slot}
    case _ => s.callbacks
  }

  function NextDisplaced(s: State, w: nat): set<nat>
    requires CodeCan(s, w)
  {
    var pc := Mine(s, w).pc;
    if pc.IoRegister? || pc.IoUnregister? then s.displaced + Displaces(s, pc.slot, pc.wait) else s.displaced
  }

  function NextPending(s: State, w: nat): int
    requires CodeCan(s, w)
  {
    var pc := Mine(s, w).pc;
    s.pending + if pc.IoCount? then 1 else if pc.IoUncount? then -1 else 0
  }

  /** Workers change in the eventfd of one, or in the pc of w when its fiber leaves. */
  ghost predicate WorkersAfterCode(s: State, s': State, w: nat)
    requires CodeCan(s, w)
  {
    && |s'.workers| == |s.workers|
    && (forall u | 0 <= u < |s.workers| ::
          && s'.workers[u].(eventfd := 0, pc := Pop) == s.workers[u].(eventfd := 0, pc := Pop)
          && s.workers[u].eventfd <= s'.workers[u].eventfd)
    && (forall u | 0 <= u < |s.workers| && u != w :: s'.workers[u].pc == s.workers[u].pc)
    && s'.workers[w].pc == match Mine(s, w).pc
                           case IoHold(_, _) => Back(s.workers[w].pc.fiber, Hold)
                           case Ending => Back(s.workers[w].pc.fiber, Term)
                           case _ => s.workers[w].pc
  }

  /** submit() pushes on the queue it picked, the wake callback on the queue of its worker. */
  ghost predicate QueuesAfterCode(s: State, s': State, w: nat)
    requires CodeCan(s, w)
  {
    && |s'.queues| == |s.queues|
    && forall q | 0 <= q < |s.queues| :: s'.queues[q] == s.queues[q] || q == w
                                         || (Mine(s, w).pc.Submit? && Mine(s, w).pc.call.Push?
                                             && Mine(s, w).pc.call.queue == q)
  }

  /** Everything a step of fiber code does, except to queues. */
  ghost predicate CodeMoves(s: State, s': State, w: nat)
    requires CodeCan(s, w)
  {
    && s' == s.(workers := s'.workers, queues := s'.queues,
                fibers := s.fibers[s.workers[w].pc.fiber := NextFiber(s, w)], waits := NextWaits(s, w),
                callbacks := NextCallbacks(s, w), displaced := NextDisplaced(s, w), pending := NextPending(s, w))
    && QueuesAfterCode(s, s', w)
    && WorkersAfterCode(s, s', w)
  }

  lemma SubmitMoves(s: State, w: nat)
    requires CodeCan(s, w) && Mine(s, w).pc.Submit?
    ensures CodeMoves(s, CodeNext(s, w), w)
  {
    hide CallEffect, CallNext;
    CallFrame(s, Mine(s, w).pc.call);
    forall u | 0 <= u < |s.workers|
      ensures CodeNext(s, w).workers[u].(eventfd := 0, pc := Pop) == s.workers[u].(eventfd := 0, pc := Pop)
              && CodeNext(s, w).workers[u].pc == s.workers[u].pc
    {
      assert CodeNext(s, w).workers[u].(eventfd := 0) == s.workers[u].(eventfd := 0);
    }
  }

  lemma LeaveMoves(s: State, w: nat)
    requires CodeCan(s, w) && (Mine(s, w).pc.IoHold? || Mine(s, w).pc.Ending?)
    ensures CodeMoves(s, CodeNext(s, w), w)
  {
  }

  lemma IoMoves(s: State, w: nat)
    requires CodeCan(s, w)
    requires var pc := Mine(s, w).pc; pc.IoRegister? || pc.IoCount? || pc.IoUnregister? || pc.IoUncount?
    ensures CodeMoves(s, CodeNext(s, w), w)
  {
  }

  lemma WakeMoves(s: State, w: nat)
    requires CodeCan(s, w) && (Mine(s, w).pc.WakeExchange? || Mine(s, w).pc.WakePush?)
    ensures CodeMoves(s, CodeNext(s, w), w)
  {
  }

  lemma CodeFrame(s: State, w: nat)
    requires CodeCan(s, w)
    ensures CodeMoves(s, CodeNext(s, w), w)
  {
    hide CodeNext, CodeMoves;
    match Mine(s, w).pc
    case Submit(_) => SubmitMoves(s, w);
    case IoHold(_, _) | Ending => LeaveMoves(s, w);
    case WakeExchange(_) | WakePush(_) => WakeMoves(s, w);
    case _ => IoMoves(s, w);
  }

  lemma StopFrame(s: State)
    ensures var s' := StopNext(s);
            && s' == s.(workers := s'.workers, stop := s'.stop, stopper := s'.stopper)
            && |s'.workers| == |s.workers|
            && (forall u | 0 <= u < |s.workers| :: s'.workers[u].(eventfd := 0) == s.workers[u].(eventfd := 0)
                                                   && s.workers[u].eventfd <= s'.workers[u].eventfd)
            && (s.stop ==> s'.stop)
  {
    hide StoppingRead;
  }
}

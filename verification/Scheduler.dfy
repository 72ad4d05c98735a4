/** What holds in every reachable state of the scheduler, and what follows for whole runs. */
module Scheduler {
  import opened Options
  import opened Bags
  import opened Machine
  import opened Tokens
  import opened Switching
  import opened Wakeup
  import opened WakeupSteps
  import opened Counters
  import opened Shutdown
  import opened Alert

  ghost predicate Inv(s: State) {
    && Referenced(s) && Switched(s) && Woken(s) && Installed(s)
    && ActiveExact(s) && PendingExact(s) && JobsKept(s)
    && StopFirst(s) && Alerted(s)
  }

  ghost predicate Reachable(n: nat, s: State) {
    0 < n && Leads(Init(n), s)
  }

  // ----- induction over runs -----

  lemma InitCounts(n: nat, t: Task)
    ensures Count(Init(n), t) == 0 && Started(Init(n), t) == 0
  {
    var s := Init(n);
    BagEmpty(QueueTasks, s.queues);
    BagEmpty(HandTasks, s.workers);
  }

  lemma InitInv(n: nat)
    requires 0 < n
    ensures Inv(Init(n))
  {
    hide Count, Started, SumOf, BagOf;
    var s := Init(n);
    forall t ensures Count(s, t) == 0 && Started(s, t) == 0 {
      InitCounts(n, t);
    }
    SumZero(ActiveWorker, s.workers);
    SumZero(PendingFiber, s.fibers);
    SumZero(LiveTimer, s.timers);
  }

  lemma BackAgreed(s: State, w: nat)
    requires Switched(s) && w < |s.workers|
    ensures BackAgrees(s, w)
  {
    HolderOk(s, w);
  }

  lemma InvStep(s: State, step: Step)
    requires Inv(s) && Can(s, step)
    ensures Inv(Next(s, step))
  {
    hide Referenced, Switched, Woken, Installed, ActiveExact, PendingExact, JobsKept, StopFirst, Alerted, Next, Can;
    if step.RunStep? {
      InRange(s, step);
      BackAgreed(s, step.w);
    }
    Workers(s);
    ReferencedStep(s, step);
    SwitchedStep(s, step);
    WokenStep(s, step);
    InstalledStep(s, step);
    ActiveStep(s, step);
    PendingStep(s, step);
    JobsStep(s, step);
    StopStepKeeps(s, step);
    AlertStep(s, step);
  }

  lemma InRange(s: State, step: Step)
    requires Can(s, step) && step.RunStep?
    ensures step.w < |s.workers|
  {
  }

  lemma Workers(s: State)
    requires Referenced(s)
    ensures 0 < |s.workers| == |s.queues|
  {
  }

  lemma {:induction false} InvReaches(s: State, steps: seq<Step>, s': State)
    requires Inv(s) && Reaches(s, steps, s')
    ensures Inv(s')
    decreases |steps|
  {
    hide Inv, Next, Can;
    if steps != [] {
      InvStep(s, steps[0]);
      InvReaches(Next(s, steps[0]), steps[1..], s');
    }
  }

  lemma ReachableInv(n: nat, s: State)
    requires Reachable(n, s)
    ensures Inv(s)
  {
    hide Inv;
    var steps :| Reaches(Init(n), steps, s);
    InitInv(n);
    InvReaches(Init(n), steps, s);
  }

  // ----- main results -----

  /** A fiber is executing, or its lock is held, on at most one worker, however often it was submitted. */
  lemma MutualExclusion(n: nat, s: State, u: nat, w: nat, f: nat)
    requires Reachable(n, s) && u < |s.workers| && w < |s.workers|
    requires Held(s.workers[u].pc) == Held(s.workers[w].pc) == Some(f)
    ensures u == w && f < |s.fibers| && s.fibers[f].lockedBy == Some(w)
  {
    ReachableInv(n, s);
    HolderOk(s, u);
    HolderOk(s, w);
  }

  /** The asserts of resume(), hold(), yield() and of run() after resume() hold whenever they are evaluated. */
  lemma AssertsHold(n: nat, s: State, w: nat)
    requires Reachable(n, s) && w < |s.workers| && Held(s.workers[w].pc).Some?
    ensures var f := Held(s.workers[w].pc).value;
            && f < |s.fibers|
            && (s.workers[w].pc.Locked? && s.fibers[f].state != Term ==>
                  s.fibers[f].state == FiberState.Ready || s.fibers[f].state == Hold)
            && (s.workers[w].pc.Run? ==> s.fibers[f].state == Running)
            && (s.workers[w].pc.Back? ==> s.fibers[f].state != Running && s.fibers[f].state == s.workers[w].pc.left)
  {
    ReachableInv(n, s);
    HolderOk(s, w);
  }

  /** The asserts on the idle fiber of a worker: it is ready, or has terminated, whenever the worker is in run(), and
      running whenever the worker is in idle() and may yield. */
  lemma IdleAssertsHold(n: nat, s: State, w: nat)
    requires Reachable(n, s) && w < |s.workers|
    ensures InIdle(s.workers[w].pc) ==> s.workers[w].idle == Running
    ensures !InIdle(s.workers[w].pc) ==> s.workers[w].idle == FiberState.Ready || s.workers[w].idle == Term
  {
    ReachableInv(n, s);
    assert StopWorker(s.stop, s.workers[w]);
  }

  /** `idling` is set exactly while the worker is on its way into, inside or on its way out of epoll_wait. */
  lemma IdlingMeansPolling(n: nat, s: State, w: nat)
    requires Reachable(n, s) && w < |s.workers|
    ensures s.workers[w].idling <==> Polling(s.workers[w].pc)
  {
    ReachableInv(n, s);
    assert StopWorker(s.stop, s.workers[w]);
  }

  /** The fibers in state kRunning are exactly those whose code some worker executes. */
  lemma RunningMeansExecuting(n: nat, s: State, f: nat)
    requires Reachable(n, s) && f < |s.fibers|
    ensures s.fibers[f].state == Running <==>
            exists w :: 0 <= w < |s.workers| && s.workers[w].pc == Run(f)
  {
    ReachableInv(n, s);
    assert FiberOk(s.workers, f, s.fibers[f]);
    forall w | 0 <= w < |s.workers| && s.workers[w].pc == Run(f) ensures s.fibers[f].state == Running {
      HolderOk(s, w);
    }
  }

  /** A wait whose flag is not set, with its callback still installed. */
  ghost predicate OpenWait(s: State, f: nat)
    requires f < |s.fibers|
  {
    var pc := s.fibers[f].pc;
    && pc.IoHeld? && pc.wait < |s.waits| && !s.waits[pc.wait].triggered && s.waits[pc.wait].fiber == f
    && pc.slot in s.callbacks && s.callbacks[pc.slot] == pc.wait
  }

  /** A parked wait that another wait has displaced before its flag was set. */
  ghost predicate Displaced(s: State, f: nat)
    requires f < |s.fibers|
  {
    var pc := s.fibers[f].pc;
    pc.IoHeld? && pc.wait in s.displaced && pc.wait < |s.waits| && !s.waits[pc.wait].triggered
  }

  /** No lost and no doubled wake-up: a fiber made from a callback that is neither executing nor finished is owed at
      most one wake-up, a task that will resume it or an open wait; and it is owed one unless its wait was displaced. */
  lemma OneWakeup(n: nat, s: State, f: nat)
    requires Reachable(n, s) && f < |s.fibers|
    requires s.fibers[f].clean && s.fibers[f].state != Running && s.fibers[f].state != Term
    ensures Count(s, Resume(f)) + One(OpenWait(s, f)) <= 1
    ensures Count(s, Resume(f)) + One(OpenWait(s, f)) == 1 <==> !Displaced(s, f)
  {
    hide Count;
    ReachableInv(n, s);
    assert FiberOk(s.workers, f, s.fibers[f]);
    assert PcOk(|s.queues|, s.waits, f, s.fibers[f].pc);
    assert InstalledAt(s.callbacks, s.displaced, s.fibers[f].pc);
  }

  /** A clean fiber never has two tasks, executing or not. */
  lemma NeverTwoTasks(n: nat, s: State, f: nat)
    requires Reachable(n, s) && f < |s.fibers| && s.fibers[f].clean
    ensures Count(s, Resume(f)) <= 1
  {
    hide Count;
    ReachableInv(n, s);
  }

  /** While a clean fiber is in do_io, from the choice of its flag to the end of the wait, it has a task exactly when
      the flag is set, even if that happens before it reaches hold(). */
  lemma TaskIffTriggered(n: nat, s: State, f: nat)
    requires Reachable(n, s) && f < |s.fibers| && s.fibers[f].clean && Waiting(s.fibers[f].pc)
    ensures s.fibers[f].pc.wait < |s.waits|
    ensures Count(s, Resume(f)) == 1 <==> s.waits[s.fibers[f].pc.wait].triggered
  {
    hide Count;
    ReachableInv(n, s);
    assert FiberOk(s.workers, f, s.fibers[f]);
    assert PcOk(|s.queues|, s.waits, f, s.fibers[f].pc);
  }

  /** Every fiber left in kReady, clean or not, has a task that will resume it. */
  lemma ReadyHasTask(n: nat, s: State, f: nat)
    requires Reachable(n, s) && f < |s.fibers| && s.fibers[f].state == FiberState.Ready
    ensures 1 <= Count(s, Resume(f))
  {
    ReachableInv(n, s);
  }

  /** Every callback ever made is in exactly one queue, hand or call of submit(), or was started, once. */
  lemma CallbacksConserved(n: nat, s: State, j: nat)
    requires Reachable(n, s)
    ensures Count(s, Job(j)) + Started(s, Job(j)) == if j < s.jobs then 1 else 0
  {
    hide Count, Started;
    ReachableInv(n, s);
    assert Count(s, Job(j)) + Started(s, Job(j)) == One(j < s.jobs);
  }

  /** active_thread_count_ counts the workers between its increment and its decrement. */
  lemma ActiveCount(n: nat, s: State)
    requires Reachable(n, s)
    ensures s.active == SumOf(ActiveWorker, s.workers)
    ensures s.active == 0 ==>
              forall f | 0 <= f < |s.fibers| :: s.fibers[f].state != Running && s.fibers[f].lockedBy == None
  {
    hide SumOf;
    ReachableInv(n, s);
    if s.active == 0 {
      forall f | 0 <= f < |s.fibers| ensures s.fibers[f].state != Running && s.fibers[f].lockedBy == None {
        assert FiberOk(s.workers, f, s.fibers[f]);
        if s.fibers[f].lockedBy.Some? {
          SumMember(ActiveWorker, s.workers, s.fibers[f].lockedBy.value);
        }
      }
    }
  }

  /** pending_event_count_ counts the registered waits and uncancelled timers; it never goes below zero, and at the
      instant stopping() reads zero no fiber is parked in do_io and no timer is live. */
  lemma PendingCount(n: nat, s: State)
    requires Reachable(n, s)
    ensures s.pending == SumOf(PendingFiber, s.fibers) + SumOf(LiveTimer, s.timers) >= 0
    ensures s.pending == 0 ==> forall f | 0 <= f < |s.fibers| :: s.fibers[f].state != Hold
    ensures s.pending == 0 ==> forall t | 0 <= t < |s.timers| :: !s.timers[t]
  {
    hide SumOf;
    ReachableInv(n, s);
    forall f | 0 <= f < |s.fibers| && s.fibers[f].state == Hold ensures 0 < s.pending {
      assert FiberOk(s.workers, f, s.fibers[f]);
      SumMember(PendingFiber, s.fibers, f);
    }
    forall t | 0 <= t < |s.timers| && s.timers[t] ensures 0 < s.pending {
      SumMember(LiveTimer, s.timers, t);
    }
  }

  /** A worker about to enter or inside epoll_wait with work in its queue has a readable eventfd,
      or some call of submit() has pushed and is still going to write it. */
  lemma NoLostWakeup(n: nat, s: State, w: nat)
    requires Reachable(n, s) && w < |s.workers| == |s.queues|
    requires s.workers[w].pc == IdleWait && s.queues[w] != []
    ensures 0 < s.workers[w].eventfd || Notified(s, w)
    ensures s.workers[w].idling
  {
    ReachableInv(n, s);
    assert AlertAt(s, w);
  }

  predicate AllExited(s: State) {
    forall w | 0 <= w < |s.workers| :: s.workers[w].pc == Exited
  }

  /** No step of the run abandons queue q. */
  ghost predicate NeverAbandoned(s: State, steps: seq<Step>, q: nat)
    decreases |steps|
  {
    steps != [] && Can(s, steps[0]) ==>
      !Abandons(s, steps[0], q) && NeverAbandoned(Next(s, steps[0]), steps[1..], q)
  }

  /** After stop() no thread outside the pool pushes on queue q, and no thief loses its try_lock on it to such a thread
      or to the caller of stop(). */
  ghost predicate Untouched(s: State, steps: seq<Step>, q: nat)
    decreases |steps|
  {
    steps != [] && Can(s, steps[0]) ==>
      !(s.stop && Touches(s, steps[0], q)) && Untouched(Next(s, steps[0]), steps[1..], q)
  }

  /** Whether queue q is deserted at the end of the run: a step abandoned it, and since then no worker has come to where
      it will look at it again. */
  ghost predicate Deserted(s: State, steps: seq<Step>, q: nat, before: bool)
    decreases |steps|
  {
    if steps == [] || !Can(s, steps[0]) then before
    else
      var s1 := Next(s, steps[0]);
      Deserted(s1, steps[1..], q, Abandons(s, steps[0], q) || (before && !Watched(s1, q)))
  }

  /** Drain at shutdown: when every worker has left run(), every queue that was never abandoned is empty. */
  lemma DrainAtShutdown(n: nat, steps: seq<Step>, s: State, q: nat)
    requires 0 < n && Reaches(Init(n), steps, s) && AllExited(s) && q < |s.queues|
    requires NeverAbandoned(Init(n), steps, q)
    ensures s.queues[q] == []
  {
    hide Inv, Reaches, NeverAbandoned, Covered, Watched;
    InitInv(n);
    InitCovered(n, q);
    KeepsCovered(Init(n), steps, s, q);
    InvReaches(Init(n), steps, s);
    ExitedWatchNothing(s, q);
  }

  /** In a caller's words: a queue that is left in peace after stop() is empty when every worker has left run(). */
  lemma DrainIfUntouched(n: nat, steps: seq<Step>, s: State, q: nat)
    requires 0 < n && Reaches(Init(n), steps, s) && AllExited(s) && q < |s.queues|
    requires Untouched(Init(n), steps, q)
    ensures s.queues[q] == []
  {
    hide Inv, Reaches, NeverAbandoned, Untouched;
    InitInv(n);
    UntouchedNeverAbandoned(Init(n), steps, s, q);
    DrainAtShutdown(n, steps, s, q);
  }

  lemma {:induction false} UntouchedNeverAbandoned(s: State, steps: seq<Step>, s': State, q: nat)
    requires Inv(s) && Reaches(s, steps, s') && Untouched(s, steps, q)
    ensures NeverAbandoned(s, steps, q)
    decreases |steps|
  {
    hide Inv, Next, Can, Abandons, Touches;
    if steps != [] {
      Stops(s);
      if Abandons(s, steps[0], q) {
        AbandonedAfterStop(s, steps[0], q);
      }
      InvStep(s, steps[0]);
      UntouchedNeverAbandoned(Next(s, steps[0]), steps[1..], s', q);
    }
  }

  lemma {:induction false} KeepsCovered(s: State, steps: seq<Step>, s': State, q: nat)
    requires Inv(s) && Reaches(s, steps, s') && Covered(s, q) && NeverAbandoned(s, steps, q)
    ensures Covered(s', q)
    decreases |steps|
  {
    hide Inv, Next, Can, Covered, Abandons;
    if steps != [] {
      Stops(s);
      CoveredStep(s, steps[0], q);
      InvStep(s, steps[0]);
      KeepsCovered(Next(s, steps[0]), steps[1..], s', q);
    }
  }

  lemma Stops(s: State)
    requires Inv(s)
    ensures StopFirst(s) && |s.queues| == |s.workers|
  {
  }

  /** Drain at shutdown, exactly: a queue still has tasks if and only if it is deserted at the end of the run. */
  lemma DrainExactly(n: nat, steps: seq<Step>, s: State, q: nat)
    requires 0 < n && Reaches(Init(n), steps, s) && AllExited(s) && q < |s.queues|
    ensures s.queues[q] != [] <==> Deserted(Init(n), steps, q, false)
  {
    hide Inv, Deserted, Reaches, Covered, Watched;
    InitInv(n);
    InitCovered(n, q);
    DesertedUncovered(Init(n), steps, s, q);
    InvReaches(Init(n), steps, s);
    ExitedWatchNothing(s, q);
  }

  lemma InitCovered(n: nat, q: nat)
    ensures Covered(Init(n), q)
  {
  }

  lemma ExitedWatchNothing(s: State, q: nat)
    requires Inv(s) && AllExited(s) && q < |s.queues|
    ensures Covered(s, q) <==> s.queues[q] == []
  {
  }

  /** A queue is deserted exactly when it has tasks and nobody will look at it: it keeps them as long as that lasts. */
  lemma {:induction false} DesertedUncovered(s: State, steps: seq<Step>, s': State, q: nat)
    requires Inv(s) && Reaches(s, steps, s')
    ensures Deserted(s, steps, q, !Covered(s, q)) <==> !Covered(s', q)
    decreases |steps|
  {
    hide Inv, Next, Can, Covered, Watched, Abandons;
    if steps != [] {
      DesertedStep(s, steps[0], q);
      InvStep(s, steps[0]);
      DesertedUncovered(Next(s, steps[0]), steps[1..], s', q);
    }
  }

  lemma Uncovered(s: State, q: nat)
    ensures Covered(s, q) <==> !(q < |s.queues| && s.queues[q] != [] && !Watched(s, q))
  {
  }

  lemma DesertedStep(s: State, step: Step, q: nat)
    requires Inv(s) && Can(s, step)
    ensures !Covered(Next(s, step), q)
       <==> Abandons(s, step, q) || (!Covered(s, q) && !Watched(Next(s, step), q))
  {
    hide Inv, Next, Can, Watched, Abandons;
    Stops(s);
    SameQueues(s, step);
    if Covered(s, q) {
      CoveredStep(s, step, q);
    } else {
      Uncovered(s, q);
      UnwatchedKeeps(s, step, q);
      if Abandons(s, step, q) {
        AbandonedUnwatched(s, step, q);
      }
    }
  }

  /** What is left of the tasks when the workers are gone: those in queues, which were abandoned, and those in calls of
      submit() outside the pool. */
  lemma OnlyOutside(n: nat, s: State, t: Task)
    requires Reachable(n, s) && AllExited(s)
    ensures Count(s, t) == BagOf(QueueTasks, s.queues)[t] + BagOf(CallTasks, s.outside)[t]
  {
    hide BagOf;
    ReachableInv(n, s);
    BagEmpty(HandTasks, s.workers);
    forall f | 0 <= f < |s.fibers| ensures FiberTasks(s.fibers[f]) == multiset{} {
      Stopped(s, f);
    }
    BagEmpty(FiberTasks, s.fibers);
  }

  /** With no worker in run(), no fiber is locked or inside submit() or a wake callback. */
  lemma Stopped(s: State, f: nat)
    requires Switched(s) && AllExited(s) && f < |s.fibers|
    ensures s.fibers[f].state != Running && s.fibers[f].lockedBy == None && InCode(s.fibers[f].pc) == multiset{}
  {
    assert FiberOk(s.workers, f, s.fibers[f]);
  }

  /** After a shutdown that leaves every queue empty, with no submit() pending, every callback was started exactly once,
      every fiber has finished or is parked in do_io, and a parked clean fiber has not been triggered. */
  lemma NothingLeftBehind(n: nat, s: State)
    requires Reachable(n, s) && AllExited(s) && forall q | 0 <= q < |s.queues| :: s.queues[q] == []
    requires forall i | 0 <= i < |s.outside| :: !s.outside[i].Push?
    ensures forall j | 0 <= j < s.jobs :: Started(s, Job(j)) == 1
    ensures forall f | 0 <= f < |s.fibers| :: s.fibers[f].state == Term || s.fibers[f].state == Hold
    ensures forall f | 0 <= f < |s.fibers| && s.fibers[f].state == Hold && s.fibers[f].clean ::
              s.fibers[f].pc.IoHeld? && s.fibers[f].pc.wait < |s.waits| && !s.waits[s.fibers[f].pc.wait].triggered
    ensures s.active == 0
  {
    hide Count, Started, BagOf, SumOf;
    ReachableInv(n, s);
    BagEmpty(QueueTasks, s.queues);
    BagEmpty(CallTasks, s.outside);
    forall j | 0 <= j < s.jobs ensures Started(s, Job(j)) == 1 {
      OnlyOutside(n, s, Job(j));
      CallbacksConserved(n, s, j);
    }
    forall f | 0 <= f < |s.fibers|
      ensures s.fibers[f].state == Term || s.fibers[f].state == Hold
      ensures s.fibers[f].state == Hold && s.fibers[f].clean ==>
                s.fibers[f].pc.IoHeld? && s.fibers[f].pc.wait < |s.waits| && !s.waits[s.fibers[f].pc.wait].triggered
    {
      OnlyOutside(n, s, Resume(f));
      Stopped(s, f);
      assert FiberOk(s.workers, f, s.fibers[f]);
      assert PcOk(|s.queues|, s.waits, f, s.fibers[f].pc);
    }
    SumZero(ActiveWorker, s.workers);
  }
}

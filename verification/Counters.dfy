/** The atomic counters are exact, and every callback is queued, held or started exactly once. */
module Counters {
  import opened Options
  import opened Bags
  import opened Machine
  import opened Tokens
  import opened Switching
  import opened Frames

  /** Between fetch_add and fetch_sub on active_thread_count_. */
  function ActiveAt(pc: WorkerPc): nat {
    match pc
    case Counted(_) | Refused(_) | RefusedUncount | Locked(_) | Run(_) | Back(_, _) | Requeue(_) | Unlock(_)
       | Uncount => 1
    case _ => 0
  }

  function ActiveWorker(w: Worker): nat {
    ActiveAt(w.pc)
  }

  /** Between fetch_add and fetch_sub on pending_event_count_, in do_io. */
  function PendingAt(pc: FiberPc): nat {
    match pc
    case IoHold(_, _) | IoHeld(_, _) | IoUnregister(_, _) | IoUncount(_) => 1
    case _ => 0
  }

  function PendingFiber(x: Fiber): nat {
    PendingAt(x.pc)
  }

  function LiveTimer(on: bool): nat {
    if on then 1 else 0
  }

  ghost predicate ActiveExact(s: State) {
    s.active == SumOf(ActiveWorker, s.workers)
  }

  ghost predicate PendingExact(s: State) {
    s.pending == SumOf(PendingFiber, s.fibers) + SumOf(LiveTimer, s.timers)
  }

  function OriginTasks(x: Fiber): multiset<Task> {
    if x.origin.Some? then multiset{x.origin.value} else multiset{}
  }

  /** How many fibers have been made for the callback t. */
  ghost function Started(s: State, t: Task): nat {
    BagOf(OriginTasks, s.fibers)[t]
  }

  lemma SamePcs(a: seq<Worker>, b: seq<Worker>)
    requires |a| == |b| && forall u | 0 <= u < |a| :: b[u].(eventfd := 0) == a[u].(eventfd := 0)
    ensures forall u | 0 <= u < |a| :: b[u].pc == a[u].pc && b[u].idle == a[u].idle && b[u].idling == a[u].idling
  {
    forall u | 0 <= u < |a|
      ensures b[u].pc == a[u].pc && b[u].idle == a[u].idle && b[u].idling == a[u].idling
    {
      var x, y := a[u].(eventfd := 0), b[u].(eventfd := 0);
      assert x.pc == y.pc && x.idle == y.idle && x.idling == y.idling;
    }
  }

  /** Every callback made so far is in exactly one place. */
  ghost predicate JobsKept(s: State) {
    forall j: nat :: Count(s, Job(j)) + Started(s, Job(j)) == One(j < s.jobs)
  }

  // ----- active_thread_count_ -----

  lemma ActiveRun(s: State, w: nat)
    requires ActiveExact(s) && RunCan(s, w)
    ensures ActiveExact(RunNext(s, w))
  {
    hide SumOf, RunNext;
    RunFrame(s, w);
    var s' := RunNext(s, w);
    SumUpdate(ActiveWorker, s.workers, w, s'.workers[w]);
  }

  lemma ActiveSame(s: State, s': State)
    requires ActiveExact(s) && s'.active == s.active && |s.workers| == |s'.workers|
    requires forall u | 0 <= u < |s.workers| :: ActiveAt(s'.workers[u].pc) == ActiveAt(s.workers[u].pc)
    ensures ActiveExact(s')
  {
    hide SumOf;
    SumSame(ActiveWorker, s.workers, s'.workers);
  }

  lemma ActiveStep(s: State, step: Step)
    requires ActiveExact(s) && Can(s, step)
    ensures ActiveExact(Next(s, step))
  {
    hide ActiveExact, RunNext, IdleNext, EventNext, BodyNext, CodeNext, StopNext, CallEffect, Issue;
    var s' := Next(s, step);
    match step
    case RunStep(w) => ActiveRun(s, w);
    case IdleStep(w) =>
      IdleFrame(s, w);
      ActiveSame(s, s');
    case EventStep(w, e) =>
      EventFrame(s, w, e);
      ActiveSame(s, s');
    case BodyStep(w, a) => ActiveBody(s, w, a);
    case CodeStep(w) =>
      CodeFrame(s, w);
      ActiveSame(s, s');
    case SubmitStep(what) =>
      IssueFrame(s, what);
      ActiveSame(s, s');
    case OutsideStep(i) => ActiveOutside(s, i);
    case StopStep => ActiveStop(s);
    case _ => ActiveSame(s, s');
  }

  lemma ActiveBody(s: State, w: nat, a: Action)
    requires ActiveExact(s) && BodyCan(s, w, a)
    ensures ActiveExact(BodyNext(s, w, a))
  {
    hide ActiveExact, Issue;
    if a.CallSubmit? {
      IssueFrame(s, a.what);
      IssueKeeps(s, w, a.what);
    }
    ActiveSame(s, BodyNext(s, w, a));
  }

  lemma ActiveOutside(s: State, i: nat)
    requires ActiveExact(s) && OutsideCan(s, i)
    ensures ActiveExact(OutsideNext(s, i))
  {
    hide ActiveExact, CallEffect;
    CallFrame(s, s.outside[i]);
    var s' := OutsideNext(s, i);
    SamePcs(s.workers, s'.workers);
    ActiveSame(s, s');
  }

  lemma ActiveStop(s: State)
    requires ActiveExact(s)
    ensures ActiveExact(StopNext(s))
  {
    hide ActiveExact, StopNext;
    StopFrame(s);
    SamePcs(s.workers, StopNext(s).workers);
    ActiveSame(s, StopNext(s));
  }

  // ----- pending_event_count_ -----

  lemma PendingSame(s: State, s': State)
    requires PendingExact(s) && s'.pending == s.pending && s'.timers == s.timers && |s.fibers| == |s'.fibers|
    requires forall g | 0 <= g < |s.fibers| :: PendingAt(s'.fibers[g].pc) == PendingAt(s.fibers[g].pc)
    ensures PendingExact(s')
  {
    hide SumOf;
    SumSame(PendingFiber, s.fibers, s'.fibers);
  }

  lemma PendingNew(s: State, s': State, x: Fiber)
    requires PendingExact(s) && s'.pending == s.pending && s'.timers == s.timers
    requires s'.fibers == s.fibers + [x] && PendingAt(x.pc) == 0
    ensures PendingExact(s')
  {
    hide SumOf;
    SumAppend(PendingFiber, s.fibers, x);
  }

  lemma PendingRun(s: State, w: nat)
    requires PendingExact(s) && RunCan(s, w)
    ensures PendingExact(RunNext(s, w))
  {
    hide PendingExact, RunNext;
    RunFrame(s, w);
    var s' := RunNext(s, w);
    var pc := s.workers[w].pc;
    if pc.Counted? && !pc.task.Resume? {
      PendingNew(s, s', s'.fibers[|s.fibers|]);
    } else {
      if SameButLocks(s.fibers, s'.fibers) {
        forall g | 0 <= g < |s.fibers| ensures s'.fibers[g].pc == s.fibers[g].pc {
          assert Bare(s.fibers[g]).pc == Bare(s'.fibers[g]).pc;
        }
      }
      PendingSame(s, s');
    }
  }

  lemma PendingCode(s: State, w: nat)
    requires PendingExact(s) && CodeCan(s, w)
    ensures PendingExact(CodeNext(s, w))
  {
    hide SumOf, CodeNext;
    CodeFrame(s, w);
    SumUpdate(PendingFiber, s.fibers, s.workers[w].pc.fiber, NextFiber(s, w));
  }

  lemma PendingTimers(s: State, w: nat, a: Action)
    requires PendingExact(s) && BodyCan(s, w, a) && (a.AddTimer? || a.CancelTimer?)
    ensures PendingExact(BodyNext(s, w, a))
  {
    hide SumOf;
    if a.AddTimer? {
      SumAppend(LiveTimer, s.timers, true);
    } else {
      SumUpdate(LiveTimer, s.timers, a.timer, false);
    }
  }

  lemma PendingIssue(s: State, what: Work)
    requires PendingExact(s) && IssueCan(s, what)
    ensures PendingExact(Issue(s, what))
  {
    hide PendingExact;
    if what.NewFiber? {
      PendingNew(s, Issue(s, what), Fiber(FiberState.Ready, Body, None, false, None));
    } else {
      PendingSame(s, Issue(s, what));
    }
  }

  lemma PendingBody(s: State, w: nat, a: Action)
    requires PendingExact(s) && BodyCan(s, w, a) && !a.AddTimer? && !a.CancelTimer?
    ensures PendingExact(BodyNext(s, w, a))
  {
    hide PendingExact, Issue;
    if a.CallSubmit? {
      PendingIssue(s, a.what);
      IssueKeeps(s, w, a.what);
      PendingSame(Issue(s, a.what), BodyNext(s, w, a));
    } else {
      PendingSame(s, BodyNext(s, w, a));
    }
  }

  lemma PendingStep(s: State, step: Step)
    requires PendingExact(s) && Can(s, step)
    ensures PendingExact(Next(s, step))
  {
    hide PendingExact, RunNext, IdleNext, EventNext, BodyNext, CodeNext, StopNext, CallEffect, Issue;
    var s' := Next(s, step);
    match step
    case RunStep(w) => PendingRun(s, w);
    case IdleStep(w) =>
      IdleFrame(s, w);
      PendingSame(s, s');
    case EventStep(w, e) =>
      EventFrame(s, w, e);
      PendingSame(s, s');
    case BodyStep(w, a) =>
      if a.AddTimer? || a.CancelTimer? {
        PendingTimers(s, w, a);
      } else {
        PendingBody(s, w, a);
      }
    case CodeStep(w) => PendingCode(s, w);
    case SubmitStep(what) =>
      PendingIssue(s, what);
      PendingSame(Issue(s, what), s');
    case OutsideStep(i) =>
      CallFrame(s, s.outside[i]);
      PendingSame(s, s');
    case StopStep =>
      StopFrame(s);
      PendingSame(s, s');
    case _ => PendingSame(s, s');
  }

  // ----- callbacks -----

  lemma StartedSame(s: State, s': State, t: Task)
    requires |s.fibers| == |s'.fibers| && forall g | 0 <= g < |s.fibers| :: s'.fibers[g].origin == s.fibers[g].origin
    ensures Started(s', t) == Started(s, t)
  {
    hide BagOf;
    BagSame(OriginTasks, s.fibers, s'.fibers);
  }

  lemma StartedNew(s: State, s': State, x: Fiber, t: Task)
    requires s'.fibers == s.fibers + [x]
    ensures Started(s', t) == Started(s, t) + OriginTasks(x)[t]
  {
    hide BagOf;
    CountAppend(OriginTasks, s.fibers, x, t);
  }

  lemma StartedRun(s: State, w: nat, t: Task)
    requires RunCan(s, w)
    ensures var pc := s.workers[w].pc;
            Started(RunNext(s, w), t) == Started(s, t) + One(pc.Counted? && !pc.task.Resume? && t == pc.task)
  {
    hide Started, RunNext;
    RunFrame(s, w);
    var s' := RunNext(s, w);
    var pc := s.workers[w].pc;
    if pc.Counted? && !pc.task.Resume? {
      StartedNew(s, s', s'.fibers[|s.fibers|], t);
    } else {
      if SameButLocks(s.fibers, s'.fibers) {
        forall g | 0 <= g < |s.fibers| ensures s'.fibers[g].origin == s.fibers[g].origin {
          assert Bare(s.fibers[g]).origin == Bare(s'.fibers[g]).origin;
        }
      }
      StartedSame(s, s', t);
    }
  }

  lemma StartedIssue(s: State, what: Work, t: Task)
    requires IssueCan(s, what)
    ensures Started(Issue(s, what), t) == Started(s, t)
  {
    hide Started;
    if what.NewFiber? {
      StartedNew(s, Issue(s, what), Fiber(FiberState.Ready, Body, None, false, None), t);
    } else {
      StartedSame(s, Issue(s, what), t);
    }
  }

  lemma StartedBody(s: State, w: nat, a: Action, t: Task)
    requires BodyCan(s, w, a)
    ensures Started(BodyNext(s, w, a), t) == Started(s, t)
  {
    hide Started, Issue;
    if a.CallSubmit? {
      StartedIssue(s, a.what, t);
      IssueKeeps(s, w, a.what);
      StartedSame(Issue(s, a.what), BodyNext(s, w, a), t);
    } else {
      StartedSame(s, BodyNext(s, w, a), t);
    }
  }

  /** Only run() starts callbacks, one at a time. */
  lemma StartedStep(s: State, step: Step, t: Task)
    requires Can(s, step) && !step.RunStep?
    ensures Started(Next(s, step), t) == Started(s, t)
  {
    hide Started, IdleNext, EventNext, BodyNext, CodeNext, StopNext, CallEffect, Issue;
    var s' := Next(s, step);
    match step
    case IdleStep(w) =>
      IdleFrame(s, w);
      StartedSame(s, s', t);
    case EventStep(w, e) =>
      EventFrame(s, w, e);
      StartedSame(s, s', t);
    case BodyStep(w, a) => StartedBody(s, w, a, t);
    case CodeStep(w) =>
      CodeFrame(s, w);
      StartedSame(s, s', t);
    case SubmitStep(what) =>
      StartedIssue(s, what, t);
      StartedSame(Issue(s, what), s', t);
    case OutsideStep(i) =>
      CallFrame(s, s.outside[i]);
      StartedSame(s, s', t);
    case StopStep =>
      StopFrame(s);
      StartedSame(s, s', t);
    case _ => StartedSame(s, s', t);
  }

  /** How the number of callbacks made changes, and with it the copies of each callback. */
  lemma JobDelta(s: State, step: Step, j: nat)
    requires Can(s, step)
    ensures var d := Delta(s, step, Job(j));
            var started := if step.RunStep? then
                             var pc := s.workers[step.w].pc; One(pc.Counted? && !pc.task.Resume? && Job(j) == pc.task)
                           else 0;
            d + started == One(j < Next(s, step).jobs) - One(j < s.jobs)
  {
    hide RunNext, IdleNext, EventNext, CodeNext, StopNext, CallEffect, Leave;
    match step
    case RunStep(w) => RunFrame(s, w);
    case IdleStep(w) => IdleFrame(s, w);
    case EventStep(w, e) => JobEvent(s, w, e, j);
    case CodeStep(w) => CodeFrame(s, w);
    case BodyStep(w, a) => JobBody(s, w, a, j);
    case SubmitStep(what) => JobIssue(s, what, j);
    case OutsideStep(i) => CallFrame(s, s.outside[i]);
    case StopStep => StopFrame(s);
    case BlockedStep(_, _) =>
    case ExpiredStep(_) =>
  }

  lemma JobEvent(s: State, w: nat, e: Event, j: nat)
    requires EventCan(s, w, e)
    ensures EventDelta(s, e, Job(j)) == One(j < EventNext(s, w, e).jobs) - One(j < s.jobs)
  {
  }

  lemma JobIssue(s: State, what: Work, j: nat)
    requires IssueCan(s, what)
    ensures One(Job(j) == IssueTask(s, what)) == One(j < Issue(s, what).jobs) - One(j < s.jobs)
  {
  }

  lemma JobBody(s: State, w: nat, a: Action, j: nat)
    requires BodyCan(s, w, a)
    ensures BodyDelta(s, w, a, Job(j)) == One(j < BodyNext(s, w, a).jobs) - One(j < s.jobs)
  {
    hide Issue;
    if a.CallSubmit? {
      JobIssue(s, a.what, j);
      IssueKeeps(s, w, a.what);
    }
  }

  lemma JobsStep(s: State, step: Step)
    requires JobsKept(s) && Can(s, step)
    requires step.RunStep? ==> BackAgrees(s, step.w)
    ensures JobsKept(Next(s, step))
  {
    hide Count, Started, Next, Can, Delta;
    var s' := Next(s, step);
    forall j: nat ensures Count(s', Job(j)) + Started(s', Job(j)) == One(j < s'.jobs) {
      assert Count(s, Job(j)) + Started(s, Job(j)) == One(j < s.jobs);
      JobStep(s, step, j);
    }
  }

  lemma JobStep(s: State, step: Step, j: nat)
    requires Can(s, step)
    requires step.RunStep? ==> BackAgrees(s, step.w)
    ensures var s' := Next(s, step);
            Count(s', Job(j)) + Started(s', Job(j)) - One(j < s'.jobs)
              == Count(s, Job(j)) + Started(s, Job(j)) - One(j < s.jobs)
  {
    hide Count, Started, RunNext, IdleNext, EventNext, BodyNext, CodeNext, StopNext, OutsideNext, OutsideBegin, Delta;
    StepCount(s, step, Job(j));
    JobDelta(s, step, j);
    if step.RunStep? {
      StartedRun(s, step.w, Job(j));
    } else {
      StartedStep(s, step, Job(j));
    }
  }
}

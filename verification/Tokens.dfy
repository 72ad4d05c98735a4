/** Where every task is: in a queue, in a worker's hand, or on its way into a queue. */
module Tokens {
  import opened Options
  import opened Bags
  import opened Machine

  function QueueTasks(q: seq<Task>): multiset<Task> {
    multiset(q)
  }

  /** The task a worker has taken and not yet consumed, or is about to push. */
  function HandTasks(w: Worker): multiset<Task> {
    InHand(w.pc)
  }

  function InHand(pc: WorkerPc): multiset<Task> {
    match pc
    case Got(t) => multiset{t}
    case Counted(t) => multiset{t}
    case Refused(f) => multiset{Resume(f)}
    case Locked(f) => multiset{Resume(f)}
    case Back(f, left) => if left == FiberState.Ready then multiset{Resume(f)} else multiset{}
    case Requeue(f) => multiset{Resume(f)}
    case IdlePush(k) => multiset{Wake(k)}
    case _ => multiset{}
  }

  function CallTasks(p: SubmitPc): multiset<Task> {
    if p.Push? then multiset{p.task} else multiset{}
  }

  function FiberTasks(f: Fiber): multiset<Task> {
    InCode(f.pc)
  }

  function InCode(pc: FiberPc): multiset<Task> {
    match pc
    case Submit(p) => CallTasks(p)
    case WakePush(g) => multiset{Resume(g)}
    case _ => multiset{}
  }

  /** How many copies of t exist: in queues, in hands, and in calls about to push. */
  ghost function Count(s: State, t: Task): nat {
    BagOf(QueueTasks, s.queues)[t] + BagOf(HandTasks, s.workers)[t]
    + BagOf(FiberTasks, s.fibers)[t] + BagOf(CallTasks, s.outside)[t]
  }

  function One(b: bool): int {
    if b then 1 else 0
  }

  function RunDelta(s: State, w: nat, t: Task): int
    requires w < |s.workers|
  {
    match s.workers[w].pc
    case Counted(c) => if c.Resume? then 0 else One(t == Resume(|s.fibers|)) - One(t == c)
    case Locked(f) => -One(t == Resume(f))
    case _ => 0
  }

  function EventDelta(s: State, e: Event, t: Task): int {
    match e
    case DueTimer | ErrorCallback => One(t == Job(s.jobs))
    case Activity(slot) => if slot in s.callbacks then One(t == Wake(s.callbacks[slot])) else 0
    case _ => 0
  }

  function BodyDelta(s: State, w: nat, a: Action, t: Task): int
    requires BodyCan(s, w, a)
  {
    match a
    case Yield => One(t == Resume(s.workers[w].pc.fiber))
    case CallSubmit(what) => One(t == IssueTask(s, what))
    case _ => 0
  }

  function CodeDelta(s: State, w: nat, t: Task): int
    requires CodeCan(s, w)
  {
    match Mine(s, w).pc
    case WakeExchange(k) => if s.waits[k].triggered then 0 else One(t == Resume(s.waits[k].fiber))
    case _ => 0
  }

  /** How many copies of t a step makes, less those it consumes. */
  function Delta(s: State, step: Step, t: Task): int
    requires Can(s, step)
  {
    match step
    case RunStep(w) => RunDelta(s, w, t)
    case EventStep(w, e) => EventDelta(s, e, t)
    case BodyStep(w, a) => BodyDelta(s, w, a, t)
    case CodeStep(w) => CodeDelta(s, w, t)
    case ExpiredStep(w) => -One(t == Resume(Mine(s, w).pc.target))
    case SubmitStep(what) => One(t == IssueTask(s, what))
    case _ => 0
  }

  // ----- how each kind of update moves the counts -----

  lemma WorkerCount(s: State, w: nat, x: Worker, t: Task)
    requires w < |s.workers|
    ensures Count(SetWorker(s, w, x), t) + InHand(s.workers[w].pc)[t] == Count(s, t) + HandTasks(x)[t]
  {
    CountUpdate(HandTasks, s.workers, w, x, t);
  }

  lemma GotoCount(s: State, w: nat, pc: WorkerPc, t: Task)
    requires w < |s.workers|
    ensures Count(Goto(s, w, pc), t) + InHand(s.workers[w].pc)[t]
         == Count(s, t) + InHand(pc)[t]
  {
    hide BagOf, Count;
    WorkerCount(s, w, s.workers[w].(pc := pc), t);
  }

  lemma FiberCount(s: State, f: nat, x: Fiber, t: Task)
    requires f < |s.fibers|
    ensures Count(SetFiber(s, f, x), t) + FiberTasks(s.fibers[f])[t] == Count(s, t) + FiberTasks(x)[t]
  {
    CountUpdate(FiberTasks, s.fibers, f, x, t);
  }

  lemma NewFiberCount(s: State, x: Fiber, t: Task)
    ensures Count(AddFiber(s, x), t) == Count(s, t) + FiberTasks(x)[t]
  {
    CountAppend(FiberTasks, s.fibers, x, t);
  }

  lemma OutsideCount(s: State, i: nat, p: SubmitPc, t: Task)
    requires i < |s.outside|
    ensures Count(s.(outside := s.outside[i := p]), t) + CallTasks(s.outside[i])[t] == Count(s, t) + CallTasks(p)[t]
  {
    CountUpdate(CallTasks, s.outside, i, p, t);
  }

  lemma NewOutsideCount(s: State, p: SubmitPc, t: Task)
    ensures Count(s.(outside := s.outside + [p]), t) == Count(s, t) + CallTasks(p)[t]
  {
    CountAppend(CallTasks, s.outside, p, t);
  }

  /** The counts depend on four components only. */
  lemma SameCount(s: State, s': State, t: Task)
    requires s.queues == s'.queues && s.workers == s'.workers && s.fibers == s'.fibers && s.outside == s'.outside
    ensures Count(s, t) == Count(s', t)
  {
  }

  lemma PushCount(s: State, q: nat, p: Task, t: Task)
    requires q < |s.queues|
    ensures Count(PushBack(s, q, p), t) == Count(s, t) + One(t == p)
  {
    CountUpdate(QueueTasks, s.queues, q, s.queues[q] + [p], t);
  }

  lemma PopFrontCount(s: State, q: nat, t: Task)
    requires q < |s.queues| && s.queues[q] != []
    ensures Count(SetQueue(s, q, s.queues[q][1..]), t) + One(t == s.queues[q][0]) == Count(s, t)
  {
    assert s.queues[q] == [s.queues[q][0]] + s.queues[q][1..];
    CountUpdate(QueueTasks, s.queues, q, s.queues[q][1..], t);
  }

  lemma PopBackCount(s: State, q: nat, t: Task)
    requires q < |s.queues| && s.queues[q] != []
    ensures var last := |s.queues[q]| - 1;
            Count(SetQueue(s, q, s.queues[q][..last]), t) + One(t == s.queues[q][last]) == Count(s, t)
  {
    var last := |s.queues[q]| - 1;
    assert s.queues[q] == s.queues[q][..last] + [s.queues[q][last]];
    CountUpdate(QueueTasks, s.queues, q, s.queues[q][..last], t);
  }

  /** The state in which the fiber switched back is still its state. */
  predicate BackAgrees(s: State, w: nat)
    requires w < |s.workers|
  {
    var pc := s.workers[w].pc;
    pc.Back? ==> pc.fiber < |s.fibers| && s.fibers[pc.fiber].state == pc.left
  }

  // ----- how each step moves the counts -----

  lemma TakeBackCount(s: State, w: nat, v: nat, t: Task)
    requires At(s, w) && v < |s.queues| && s.queues[v] != [] && InHand(s.workers[w].pc) == multiset{}
    ensures Count(TakeBack(s, w, v), t) == Count(s, t)
  {
    hide BagOf, Count;
    var x := s.queues[v][|s.queues[v]| - 1];
    GotoCount(s, w, Got(x), t);
    PopBackCount(Goto(s, w, Got(x)), v, t);
  }

  lemma TakeOwnCount(s: State, w: nat, t: Task)
    requires At(s, w) && InHand(s.workers[w].pc) == multiset{}
    ensures Count(TakeOwn(s, w), t) == Count(s, t)
  {
    hide BagOf, Count;
    if s.queues[w] == [] {
      GotoCount(s, w, Steal(1), t);
    } else {
      GotoCount(s, w, Got(s.queues[w][0]), t);
      PopFrontCount(Goto(s, w, Got(s.queues[w][0])), w, t);
    }
  }

  lemma StealOneCount(s: State, w: nat, i: nat, t: Task)
    requires At(s, w) && i < |s.workers| && InHand(s.workers[w].pc) == multiset{}
    ensures Count(StealOne(s, w, i), t) == Count(s, t)
  {
    hide BagOf, Count;
    var v := Victim(|s.workers|, w, i);
    if s.queues[v] == [] {
      GotoCount(s, w, Steal(i + 1), t);
    } else {
      TakeBackCount(s, w, v, t);
    }
  }

  lemma ResumedTasks(x: Fiber)
    ensures InCode(Resumed(x).pc) == InCode(x.pc)
  {
  }

  lemma FirstTasks(c: Task)
    ensures InCode(FirstPc(c)) == multiset{}
  {
  }

  lemma TryLockCount(s: State, w: nat, f: nat, t: Task)
    requires At(s, w) && f < |s.fibers| && InHand(s.workers[w].pc) == multiset{Resume(f)}
    ensures Count(TryLock(s, w, f), t) == Count(s, t)
  {
    hide BagOf, Count;
    if s.fibers[f].lockedBy.Some? {
      GotoCount(s, w, Refused(f), t);
    } else {
      GotoCount(s, w, Locked(f), t);
      FiberCount(Goto(s, w, Locked(f)), f, s.fibers[f].(lockedBy := Some(w)), t);
    }
  }

  lemma WrapCount(s: State, w: nat, c: Task, t: Task)
    requires At(s, w) && s.workers[w].pc == Counted(c)
    ensures Count(Wrap(s, w, c), t) == Count(s, t) + One(t == Resume(|s.fibers|)) - One(t == c)
  {
    hide BagOf, Count;
    var x := Fiber(FiberState.Ready, FirstPc(c), Some(w), true, Some(c));
    GotoCount(s, w, Locked(|s.fibers|), t);
    NewFiberCount(Goto(s, w, Locked(|s.fibers|)), x, t);
    FirstTasks(c);
    assert FiberTasks(x)[t] == 0;
  }

  lemma ReleaseCount(s: State, w: nat, f: nat, t: Task)
    requires At(s, w) && f < |s.fibers|
    ensures Count(Release(s, w, f), t) + InHand(s.workers[w].pc)[t] == Count(s, t)
  {
    hide BagOf, Count;
    GotoCount(s, w, Uncount, t);
    FiberCount(Goto(s, w, Uncount), f, s.fibers[f].(lockedBy := None), t);
  }

  lemma EnterCount(s: State, w: nat, f: nat, t: Task)
    requires At(s, w) && f < |s.fibers| && s.workers[w].pc == Locked(f)
    ensures Count(Enter(s, w, f), t) == Count(s, t) - One(t == Resume(f))
  {
    hide BagOf, Count;
    if s.fibers[f].state == Term {
      ReleaseCount(s, w, f, t);
    } else {
      GotoCount(s, w, Run(f), t);
      FiberCount(Goto(s, w, Run(f)), f, Resumed(s.fibers[f]), t);
      ResumedTasks(s.fibers[f]);
    }
  }

  lemma PutBackCount(s: State, w: nat, f: nat, pc: WorkerPc, t: Task)
    requires At(s, w) && InHand(s.workers[w].pc) == multiset{Resume(f)}
    requires pc.Unlock? || pc.RefusedUncount?
    ensures Count(PutBack(s, w, f, pc), t) == Count(s, t)
  {
    hide BagOf, Count;
    GotoCount(s, w, pc, t);
    PushCount(Goto(s, w, pc), w, Resume(f), t);
  }

  lemma RecountCount(s: State, w: nat, d: int, pc: WorkerPc, t: Task)
    requires At(s, w) && InHand(pc) == InHand(s.workers[w].pc)
    ensures Count(Recount(s, w, d, pc), t) == Count(s, t)
  {
    hide BagOf;
    GotoCount(s, w, pc, t);
    SameCount(Goto(s, w, pc), Recount(s, w, d, pc), t);
  }

  lemma StealCount(s: State, w: nat, t: Task)
    requires RunCan(s, w) && s.workers[w].pc.Steal?
    ensures Count(RunNext(s, w), t) == Count(s, t)
  {
    hide BagOf, Count, StealOne, Victim;
    var i := s.workers[w].pc.offset;
    if i < |s.workers| {
      StealOneCount(s, w, i, t);
    } else {
      WorkerCount(s, w, GiveUp(s, w).workers[w], t);
    }
  }

  lemma DispatchCount(s: State, w: nat, t: Task)
    requires RunCan(s, w) && s.workers[w].pc.Counted?
    ensures Count(RunNext(s, w), t) == Count(s, t) + RunDelta(s, w, t)
  {
    hide BagOf, Count, TryLock, Wrap;
    var c := s.workers[w].pc.task;
    if c.Resume? {
      TryLockCount(s, w, c.fiber, t);
    } else {
      WrapCount(s, w, c, t);
    }
  }

  lemma BackCount(s: State, w: nat, t: Task)
    requires RunCan(s, w) && BackAgrees(s, w) && s.workers[w].pc.Back?
    ensures Count(RunNext(s, w), t) == Count(s, t)
  {
    hide BagOf, Count;
    var f := s.workers[w].pc.fiber;
    GotoCount(s, w, if s.fibers[f].state == FiberState.Ready then Requeue(f) else Unlock(f), t);
  }

  lemma LockedCount(s: State, w: nat, t: Task)
    requires RunCan(s, w) && s.workers[w].pc.Locked?
    ensures Count(RunNext(s, w), t) == Count(s, t) + RunDelta(s, w, t)
  {
    hide BagOf, Count, Enter;
    EnterCount(s, w, s.workers[w].pc.fiber, t);
  }

  /** Steps that only move a task or a counter. */
  lemma MoveCount(s: State, w: nat, t: Task)
    requires RunCan(s, w)
    requires var pc := s.workers[w].pc;
      pc.Pop? || pc.Got? || pc.Refused? || pc.RefusedUncount? || pc.Requeue? || pc.Unlock? || pc.Uncount?
    ensures Count(RunNext(s, w), t) == Count(s, t)
  {
    hide BagOf, Count, TakeOwn, Release, PutBack, Recount;
    match s.workers[w].pc
    case Pop => TakeOwnCount(s, w, t);
    case Got(c) => RecountCount(s, w, 1, Counted(c), t);
    case Refused(f) => PutBackCount(s, w, f, RefusedUncount, t);
    case RefusedUncount => RecountCount(s, w, -1, Pop, t);
    case Requeue(f) => PutBackCount(s, w, f, Unlock(f), t);
    case Unlock(f) => ReleaseCount(s, w, f, t);
    case Uncount => RecountCount(s, w, -1, Pop, t);
  }

  lemma RunCount(s: State, w: nat, t: Task)
    requires RunCan(s, w) && BackAgrees(s, w)
    ensures Count(RunNext(s, w), t) == Count(s, t) + RunDelta(s, w, t)
  {
    hide BagOf, Count, RunNext;
    match s.workers[w].pc
    case Steal(_) => StealCount(s, w, t);
    case Counted(_) => DispatchCount(s, w, t);
    case Locked(_) => LockedCount(s, w, t);
    case Back(_, _) => BackCount(s, w, t);
    case _ => MoveCount(s, w, t);
  }

  lemma BlockedCount(s: State, w: nat, holder: Holder, t: Task)
    requires BlockedCan(s, w, holder)
    ensures Count(BlockedNext(s, w, holder), t) == Count(s, t)
  {
    hide BagOf;
    var pc := Steal(s.workers[w].pc.offset + 1);
    GotoCount(s, w, pc, t);
    SameCount(Goto(s, w, pc), BlockedNext(s, w, holder), t);
  }

  lemma IdleHands(s: State, w: nat)
    requires IdleCan(s, w)
    ensures InHand(IdleWorker(s, w).pc) == multiset{}
    ensures InHand(s.workers[w].pc)
         == if s.workers[w].pc.IdlePush? then multiset{Wake(s.workers[w].pc.wait)} else multiset{}
  {
    hide IdleWorker, IdleNext;
    IdleFrame(s, w);
  }

  lemma IdleCount(s: State, w: nat, t: Task)
    requires IdleCan(s, w)
    ensures Count(IdleNext(s, w), t) == Count(s, t)
  {
    hide BagOf, Count, IdleWorker, InHand;
    IdleHands(s, w);
    WorkerCount(s, w, IdleWorker(s, w), t);
    if s.workers[w].pc.IdlePush? {
      PushCount(SetWorker(s, w, IdleWorker(s, w)), w, Wake(s.workers[w].pc.wait), t);
    }
  }

  lemma PushJobCount(s: State, w: nat, t: Task)
    requires At(s, w)
    ensures Count(PushJob(s, w), t) == Count(s, t) + One(t == Job(s.jobs))
  {
    hide BagOf;
    PushCount(s, w, Job(s.jobs), t);
    SameCount(PushBack(s, w, Job(s.jobs)), PushJob(s, w), t);
  }

  lemma EventCount(s: State, w: nat, e: Event, t: Task)
    requires EventCan(s, w, e)
    ensures Count(EventNext(s, w, e), t) == Count(s, t) + EventDelta(s, e, t)
  {
    hide BagOf, Count, PushJob;
    match e
    case WakeupFd => WorkerCount(s, w, s.workers[w].(eventfd := 0), t);
    case DueTimer | ErrorCallback => PushJobCount(s, w, t);
    case Activity(slot) =>
      if slot in s.callbacks {
        GotoCount(s, w, IdlePush(s.callbacks[slot]), t);
      }
    case NoMore => GotoCount(s, w, IdleStopping(true, 0), t);
  }

  lemma ProceedCount(s: State, w: nat, pc: FiberPc, t: Task)
    requires InFiber(s, w)
    ensures Count(Proceed(s, w, pc), t) + InCode(Mine(s, w).pc)[t] == Count(s, t) + InCode(pc)[t]
  {
    hide BagOf, Count;
    FiberCount(s, s.workers[w].pc.fiber, Mine(s, w).(pc := pc), t);
  }

  lemma LeaveCount(s: State, w: nat, state: FiberState, pc: FiberPc, t: Task)
    requires InFiber(s, w) && InCode(Mine(s, w).pc) == InCode(pc) == multiset{}
    ensures Count(Leave(s, w, state, pc), t)
         == Count(s, t) + (if state == FiberState.Ready then One(t == Resume(s.workers[w].pc.fiber)) else 0)
  {
    hide BagOf, Count;
    var f := s.workers[w].pc.fiber;
    GotoCount(s, w, Back(f, state), t);
    FiberCount(Goto(s, w, Back(f, state)), f, Mine(s, w).(state := state, pc := pc), t);
  }

  lemma IssueCount(s: State, what: Work, t: Task)
    requires IssueCan(s, what)
    ensures Count(Issue(s, what), t) == Count(s, t)
  {
    hide BagOf;
    var s1 := s.(post := s.post + 1);
    SameCount(s, s1, t);
    match what
    case NewJob => SameCount(s, Issue(s, what), t);
    case OldFiber(g) => FiberCount(s1, g, s.fibers[g].(clean := false), t);
    case NewFiber => NewFiberCount(s1, Fiber(FiberState.Ready, Body, None, false, None), t);
  }

  lemma BeginSubmitCount(s: State, w: nat, what: Work, t: Task)
    requires InFiber(s, w) && IssueCan(s, what) && Mine(s, w).pc == Body
    ensures Count(BeginSubmit(s, w, what), t) == Count(s, t) + One(t == IssueTask(s, what))
  {
    hide BagOf, Count;
    IssueCount(s, what, t);
    assert Mine(Issue(s, what), w).pc == Body;
    ProceedCount(Issue(s, what), w, Submit(Push(IssueQueue(s), IssueTask(s, what))), t);
  }

  lemma BodyCount(s: State, w: nat, a: Action, t: Task)
    requires BodyCan(s, w, a)
    ensures Count(BodyNext(s, w, a), t) == Count(s, t) + BodyDelta(s, w, a, t)
  {
    hide BagOf;
    match a
    case Yield => LeaveCount(s, w, FiberState.Ready, Body, t);
    case Return => ProceedCount(s, w, Ending, t);
    case CallSubmit(what) => BeginSubmitCount(s, w, what, t);
    case Block(slot) =>
      ProceedCount(s, w, IoRegister(slot, |s.waits|), t);
      SameCount(Proceed(s, w, IoRegister(slot, |s.waits|)), BeginWait(s, w, slot), t);
    case AddTimer => SameCount(s, BodyNext(s, w, a), t);
    case CancelTimer(_) => SameCount(s, BodyNext(s, w, a), t);
  }

  /** A step of submit() moves the task from the call into the queue. */
  lemma CallCount(s: State, p: SubmitPc, t: Task)
    requires CallCan(s, p)
    ensures Count(CallEffect(s, p), t) == Count(s, t) + CallTasks(p)[t]
    ensures CallTasks(CallNext(s, p)) == multiset{}
  {
    hide BagOf, Count;
    match p
    case Push(q, c) => PushCount(s, q, c, t);
    case Tickle(_, _) =>
    case WriteEventFd(q) => WorkerCount(s, q, CallEffect(s, p).workers[q], t);
  }

  lemma StepSubmitCount(s: State, w: nat, p: SubmitPc, t: Task)
    requires InFiber(s, w) && CallCan(s, p) && Mine(s, w).pc == Submit(p)
    ensures Count(StepSubmit(s, w, p), t) == Count(s, t)
  {
    hide BagOf, Count;
    CallCount(s, p, t);
    var s1 := CallEffect(s, p);
    assert InFiber(s1, w) && Mine(s1, w) == Mine(s, w);
    ProceedCount(s1, w, AfterCall(CallNext(s, p)), t);
    assert InCode(AfterCall(CallNext(s, p))) == multiset{};
  }

  lemma RegisterCount(s: State, w: nat, slot: Slot, k: nat, t: Task)
    requires InFiber(s, w) && InCode(Mine(s, w).pc) == multiset{}
    ensures Count(Register(s, w, slot, k), t) == Count(s, t)
  {
    hide BagOf;
    ProceedCount(s, w, IoCount(slot, k), t);
    SameCount(Proceed(s, w, IoCount(slot, k)), Register(s, w, slot, k), t);
  }

  lemma UnregisterCount(s: State, w: nat, slot: Slot, k: nat, t: Task)
    requires InFiber(s, w) && InCode(Mine(s, w).pc) == multiset{}
    ensures Count(Unregister(s, w, slot, k), t) == Count(s, t)
  {
    hide BagOf;
    ProceedCount(s, w, IoUncount(slot), t);
    SameCount(Proceed(s, w, IoUncount(slot)), Unregister(s, w, slot, k), t);
  }

  lemma CountIoCount(s: State, w: nat, d: int, pc: FiberPc, t: Task)
    requires InFiber(s, w) && InCode(Mine(s, w).pc) == InCode(pc)
    ensures Count(CountIo(s, w, d, pc), t) == Count(s, t)
  {
    hide BagOf;
    ProceedCount(s, w, pc, t);
    SameCount(Proceed(s, w, pc), CountIo(s, w, d, pc), t);
  }

  lemma ExchangeCount(s: State, w: nat, k: nat, t: Task)
    requires InFiber(s, w) && k < |s.waits| && InCode(Mine(s, w).pc) == multiset{}
    ensures Count(Exchange(s, w, k), t)
         == Count(s, t) + (if s.waits[k].triggered then 0 else One(t == Resume(s.waits[k].fiber)))
  {
    hide BagOf;
    var pc := if s.waits[k].triggered then Ending else WakePush(s.waits[k].fiber);
    ProceedCount(s, w, pc, t);
    SameCount(Proceed(s, w, pc), Exchange(s, w, k), t);
  }

  lemma PushWokenCount(s: State, w: nat, g: nat, t: Task)
    requires InFiber(s, w) && Mine(s, w).pc == WakePush(g)
    ensures Count(PushWoken(s, w, g), t) == Count(s, t)
  {
    hide BagOf, Count;
    PushCount(s, w, Resume(g), t);
    ProceedCount(PushBack(s, w, Resume(g)), w, Ending, t);
  }

  lemma CodeCount(s: State, w: nat, t: Task)
    requires CodeCan(s, w)
    ensures Count(CodeNext(s, w), t) == Count(s, t) + CodeDelta(s, w, t)
  {
    hide BagOf, Count, StepSubmit, Leave, Register, Unregister, CountIo, Exchange, PushWoken;
    match Mine(s, w).pc
    case Submit(p) => StepSubmitCount(s, w, p, t);
    case IoRegister(slot, k) => RegisterCount(s, w, slot, k, t);
    case IoCount(slot, k) => CountIoCount(s, w, 1, IoHold(slot, k), t);
    case IoHold(slot, k) => LeaveCount(s, w, Hold, IoHeld(slot, k), t);
    case IoUnregister(slot, k) => UnregisterCount(s, w, slot, k, t);
    case IoUncount(slot) => CountIoCount(s, w, -1, Body, t);
    case WakeExchange(k) => ExchangeCount(s, w, k, t);
    case WakePush(g) => PushWokenCount(s, w, g, t);
    case Ending => LeaveCount(s, w, Term, Done, t);
  }

  lemma OutsideStepCount(s: State, i: nat, t: Task)
    requires OutsideCan(s, i)
    ensures Count(OutsideNext(s, i), t) == Count(s, t)
  {
    hide BagOf;
    var p := s.outside[i];
    CallCount(s, p, t);
    var s1 := CallEffect(s, p);
    OutsideCount(s1, i, CallNext(s, p), t);
    SameCount(s1.(outside := s1.outside[i := CallNext(s, p)]), OutsideNext(s, i), t);
  }

  lemma StopCount(s: State, t: Task)
    ensures Count(StopNext(s), t) == Count(s, t)
  {
    hide BagOf;
    if s.stopper.Writing? && s.stopper.index < |s.workers| {
      var i := s.stopper.index;
      var x := s.workers[i].(eventfd := s.workers[i].eventfd + 1);
      WorkerCount(s, i, x, t);
      SameCount(SetWorker(s, i, x), StopNext(s), t);
    } else {
      SameCount(s, StopNext(s), t);
    }
  }

  /** Tasks are neither lost nor duplicated: a step changes the number of copies of t by what it makes or consumes. */
  lemma StepCount(s: State, step: Step, t: Task)
    requires Can(s, step)
    requires step.RunStep? ==> BackAgrees(s, step.w)
    ensures Count(Next(s, step), t) == Count(s, t) + Delta(s, step, t)
  {
    hide BagOf, Count, RunNext, IdleNext, EventNext, BodyNext, CodeNext, OutsideNext, StopNext, BlockedNext,
         ExpiredNext;
    match step
    case RunStep(w) => RunCount(s, w, t);
    case BlockedStep(w, holder) => BlockedCount(s, w, holder, t);
    case IdleStep(w) => IdleCount(s, w, t);
    case EventStep(w, e) => EventCount(s, w, e, t);
    case BodyStep(w, a) => BodyCount(s, w, a, t);
    case CodeStep(w) => CodeCount(s, w, t);
    case ExpiredStep(w) => ExpiredCount(s, w, t);
    case SubmitStep(what) => BeginOutsideCount(s, what, t);
    case OutsideStep(i) => OutsideStepCount(s, i, t);
    case StopStep => StopCount(s, t);
  }

  lemma ExpiredCount(s: State, w: nat, t: Task)
    requires ExpiredCan(s, w)
    ensures Count(ExpiredNext(s, w), t) == Count(s, t) - One(t == Resume(Mine(s, w).pc.target))
  {
    hide BagOf, Count;
    ProceedCount(s, w, Ending, t);
  }

  lemma BeginOutsideCount(s: State, what: Work, t: Task)
    requires IssueCan(s, what)
    ensures Count(OutsideBegin(s, what), t) == Count(s, t) + One(t == IssueTask(s, what))
  {
    hide BagOf, Count;
    IssueCount(s, what, t);
    NewOutsideCount(Issue(s, what), Push(IssueQueue(s), IssueTask(s, what)), t);
  }
}

/**
 * The scheduler, its fibers and the blocking-I/O protocol as one transition system.
 *
 * Every atomic operation and every section under a queue or channel mutex is one step, so a run is any
 * interleaving of the workers' loops, the code of the fibers they execute, and threads outside the pool.
 * A section under a mutex takes effect when the mutex is released: a worker whose program counter stands at
 * such a section may hold the mutex, and then another worker's try_lock may fail.
 */
module Machine {
  import opened Options

  /** ScheduledTask: a fiber to resume, or a callback. Callbacks are told apart by who made them. */
  datatype Task =
    | Job(job: nat)       // a callback handed to submit(), a due timer or an error callback
    | Wake(wait: nat)     // a copy of the callback installed by one wait in do_io
    | Resume(fiber: nat)

  /** One direction of one descriptor, that is, one callback slot of a channel. */
  datatype Slot = Slot(fd: nat, writing: bool)

  /** Fiber::State */
  datatype FiberState = Ready | Running | Hold | Term

  /** A call of submit() after it has picked a queue. */
  datatype SubmitPc =
    | Push(queue: nat, task: Task)
    | Tickle(queue: nat, needTickle: bool)
    | WriteEventFd(queue: nat)
    | Returned

  /** Where the code of a fiber stands. */
  datatype FiberPc =
    | Body                                  // in the callback, outside every call modelled here
    | Ending                                // the callback has returned
    | Done
    | Submit(call: SubmitPc)
    | IoRegister(slot: Slot, wait: nat)     // do_io: EAGAIN seen, `triggered` allocated
    | IoCount(slot: Slot, wait: nat)        // callback installed, pending count not yet raised
    | IoHold(slot: Slot, wait: nat)         // counted, about to hold
    | IoHeld(slot: Slot, wait: nat)         // switched out by hold()
    | IoUnregister(slot: Slot, wait: nat)   // resumed, callback still installed
    | IoUncount(slot: Slot)                 // callback removed, pending count not yet lowered
    | WakeExchange(wait: nat)               // the wake callback, before triggered.exchange
    | WakePush(target: nat)                 // the wake callback, before its push

  /** `lockedBy` is the flag `execute`, remembering which worker's compare-exchange set it.
      `clean` fibers were made by a worker from a callback and were never passed to submit() themselves. */
  datatype Fiber = Fiber(state: FiberState, pc: FiberPc, lockedBy: Option<nat>, clean: bool, origin: Option<Task>)

  /** One round of do_io: the fiber, the slot and the shared flag `triggered`. */
  datatype Wait = Wait(fiber: nat, slot: Slot, triggered: bool)

  /** Where a worker stands in run() or, from IdleSet on, in idle(). */
  datatype WorkerPc =
    | Pop
    | Steal(offset: nat)
    | Got(task: Task)                           // popped, not yet counted as active
    | Counted(task: Task)
    | Refused(fiber: nat)                       // tryLock failed: about to push the task back
    | RefusedUncount
    | Locked(fiber: nat)
    | Run(fiber: nat)                           // the fiber's code is executing
    | Back(fiber: nat, left: FiberState)        // switched back from a fiber that left in state `left`
    | Requeue(fiber: nat)
    | Unlock(fiber: nat)
    | Uncount
    | Exited
    | IdleSet
    | IdleStopping(again: bool, read: nat)      // evaluating stopping(), before its read number `read`
    | IdleQuit
    | IdleHas
    | IdleBack
    | IdleWait                                  // about to enter or inside epoll_wait
    | IdleClear
    | IdleEvents
    | IdlePush(wait: nat)                       // triggerEvent has copied a callback, before its push

  /** `idle` is the state of the worker's idle fiber. `idling` and `eventfd` live in the worker's TaskQueue. */
  datatype Worker = Worker(pc: WorkerPc, idle: FiberState, idling: bool, eventfd: nat)
  {
    predicate IdleTerm() {
      idle == Term
    }
  }

  /** Where the thread that called stop() stands. */
  datatype StopPc =
    | Off
    | Tickling(index: nat, last: bool)
    | Writing(index: nat, last: bool)     // idling was seen set, the eventfd not yet written
    | Checking(read: nat)
    | Joining

  datatype State = State(
    queues: seq<seq<Task>>,
    workers: seq<Worker>,
    fibers: seq<Fiber>,
    waits: seq<Wait>,
    callbacks: map<Slot, nat>,     // callback slots: the wait whose callback is installed
    home: map<nat, nat>,           // the worker a descriptor's channel is bound to
    timers: seq<bool>,             // registered timers: is it still uncancelled?
    outside: seq<SubmitPc>,        // calls of submit() by threads outside the pool
    active: int,                   // active_thread_count_
    pending: int,                  // pending_event_count_
    jobs: nat,                     // callbacks made so far
    post: nat,                     // thread_to_post_index_
    stop: bool,
    stopper: StopPc,
    displaced: set<nat>)           // waits whose callback another wait on the same slot has overwritten or removed

  /** The state init() leaves, with n workers about to enter run(). */
  function Init(n: nat): State {
    State(seq(n, i => []), seq(n, i => Worker(Pop, FiberState.Ready, false, 0)), [], [], map[], map[], [], [],
          0, 0, 0, 0, false, Off, {})
  }

  // ----- pieces shared by several steps -----

  function SetWorker(s: State, w: nat, x: Worker): State
    requires w < |s.workers|
  {
    s.(workers := s.workers[w := x])
  }

  function Goto(s: State, w: nat, pc: WorkerPc): State
    requires w < |s.workers|
  {
    SetWorker(s, w, s.workers[w].(pc := pc))
  }

  function SetFiber(s: State, f: nat, x: Fiber): State
    requires f < |s.fibers|
  {
    s.(fibers := s.fibers[f := x])
  }

  function AddFiber(s: State, x: Fiber): State {
    s.(fibers := s.fibers + [x])
  }

  function SetQueue(s: State, q: nat, x: seq<Task>): State
    requires q < |s.queues|
  {
    s.(queues := s.queues[q := x])
  }

  function PushBack(s: State, q: nat, t: Task): State
    requires q < |s.queues|
  {
    SetQueue(s, q, s.queues[q] + [t])
  }

  /** The queue a thief looks at in its round number i. */
  function Victim(n: nat, thief: nat, i: nat): (v: nat)
    requires 0 < n
    ensures v < n
  {
    (thief + i) % n
  }

  /** One read of stopping(): go on to the next, or the answer. */
  datatype Answer = More | No | Yes

  function StoppingRead(s: State, read: nat): Answer {
    if read == 0 then if s.stop then More else No
    else if read == 1 then if s.active == 0 then More else No
    else if read == 2 then if s.pending == 0 then More else No
    else if read - 3 < |s.queues| then if s.queues[read - 3] == [] then More else No
    else Yes
  }

  // ----- Scheduler::run -----

  predicate RunCan(s: State, w: nat) {
    && w < |s.workers| == |s.queues|
    && match s.workers[w].pc {
         case Pop | Steal(_) | Got(_) | Counted(Job(_)) | Counted(Wake(_)) | RefusedUncount | Uncount => true
         case Counted(Resume(f)) => f < |s.fibers|
         case Refused(f) => true
         case Locked(f) => f < |s.fibers|
         case Back(f, _) => f < |s.fibers|
         case Requeue(f) => true
         case Unlock(f) => f < |s.fibers|
         case _ => false
       }
  }

  /** The first step of the fiber made for a callback. */
  function FirstPc(t: Task): FiberPc {
    match t
    case Wake(k) => WakeExchange(k)
    case _ => Body
  }

  /** What resume() does to the fiber: it continues where it left. */
  function Resumed(f: Fiber): Fiber {
    f.(state := Running, pc := match f.pc case IoHeld(slot, k) => IoUnregister(slot, k) case pc => pc)
  }

  predicate At(s: State, w: nat) {
    w < |s.workers| == |s.queues|
  }

  /** Take the front of the worker's own queue. */
  function TakeOwn(s: State, w: nat): State
    requires At(s, w)
  {
    if s.queues[w] == [] then Goto(s, w, Steal(1))
    else SetQueue(Goto(s, w, Got(s.queues[w][0])), w, s.queues[w][1..])
  }

  /** One round of stealTask: the back of the victim's queue. */
  function StealOne(s: State, w: nat, i: nat): State
    requires At(s, w) && i < |s.workers|
  {
    var v := Victim(|s.workers|, w, i);
    if s.queues[v] == [] then Goto(s, w, Steal(i + 1)) else TakeBack(s, w, v)
  }

  function TakeBack(s: State, w: nat, v: nat): State
    requires At(s, w) && v < |s.queues| && s.queues[v] != []
  {
    var last := |s.queues[v]| - 1;
    SetQueue(Goto(s, w, Got(s.queues[v][last])), v, s.queues[v][..last])
  }

  /** No task anywhere: resume the idle fiber, or leave if it has terminated. */
  function GiveUp(s: State, w: nat): State
    requires At(s, w)
  {
    SetWorker(s, w, if s.workers[w].IdleTerm() then s.workers[w].(pc := Exited)
                    else s.workers[w].(pc := IdleSet, idle := Running))
  }

  /** active_thread_count_ changes by d. */
  function Recount(s: State, w: nat, d: int, pc: WorkerPc): State
    requires At(s, w)
  {
    Goto(s, w, pc).(active := s.active + d)
  }

  /** tryLock on the fiber of a task. */
  function TryLock(s: State, w: nat, f: nat): State
    requires At(s, w) && f < |s.fibers|
  {
    if s.fibers[f].lockedBy.Some? then Goto(s, w, Refused(f))
    else SetFiber(Goto(s, w, Locked(f)), f, s.fibers[f].(lockedBy := Some(w)))
  }

  /** A callback gets a fiber of its own, locked by its maker. */
  function Wrap(s: State, w: nat, t: Task): State
    requires At(s, w)
  {
    AddFiber(Goto(s, w, Locked(|s.fibers|)), Fiber(Ready, FirstPc(t), Some(w), true, Some(t)))
  }

  /** Push a fiber's task on the worker's own queue. */
  function PutBack(s: State, w: nat, f: nat, pc: WorkerPc): State
    requires At(s, w)
  {
    PushBack(Goto(s, w, pc), w, Resume(f))
  }

  /** With the fiber locked: resume it, or drop its task if it has terminated. */
  function Enter(s: State, w: nat, f: nat): State
    requires At(s, w) && f < |s.fibers|
  {
    if s.fibers[f].state == Term then Release(s, w, f)
    else SetFiber(Goto(s, w, Run(f)), f, Resumed(s.fibers[f]))
  }

  function AfterResume(s: State, w: nat, f: nat): State
    requires At(s, w) && f < |s.fibers|
  {
    Goto(s, w, if s.fibers[f].state == Ready then Requeue(f) else Unlock(f))
  }

  function Release(s: State, w: nat, f: nat): State
    requires At(s, w) && f < |s.fibers|
  {
    SetFiber(Goto(s, w, Uncount), f, s.fibers[f].(lockedBy := None))
  }

  function RunNext(s: State, w: nat): State
    requires RunCan(s, w)
  {
    match s.workers[w].pc
    case Pop => TakeOwn(s, w)
    case Steal(i) => if i < |s.workers| then StealOne(s, w, i) else GiveUp(s, w)
    case Got(t) => Recount(s, w, 1, Counted(t))
    case Counted(t) => if t.Resume? then TryLock(s, w, t.fiber) else Wrap(s, w, t)
    case Refused(f) => PutBack(s, w, f, RefusedUncount)
    case RefusedUncount => Recount(s, w, -1, Pop)
    case Locked(f) => Enter(s, w, f)
    case Back(f, _) => AfterResume(s, w, f)
    case Requeue(f) => PutBack(s, w, f, Unlock(f))
    case Unlock(f) => Release(s, w, f)
    case Uncount => Recount(s, w, -1, Pop)
  }

  /** Who holds the mutex that makes a try_lock fail. */
  datatype Holder = ByWorker(index: nat) | ByOutside(call: nat) | ByStopper

  /** Worker u stands at a section under the mutex of queue q. */
  predicate AtQueue(s: State, u: nat, q: nat)
    requires u < |s.workers| == |s.queues|
  {
    match s.workers[u].pc
    case Pop | Refused(_) | RefusedUncount | Requeue(_) | IdleHas | IdleEvents | IdlePush(_) => q == u
    case Steal(i) => i < |s.workers| && Victim(|s.workers|, u, i) == q
    case IdleStopping(_, read) => read == q + 3
    case Run(f) =>
      && f < |s.fibers|
      && match s.fibers[f].pc {
           case Submit(Push(p, _)) => p == q
           case WakePush(_) => q == u
           case _ => false
         }
    case _ => false
  }

  /** try_lock on the victim of a steal pass can fail because `holder` holds the mutex. */
  predicate BlockedCan(s: State, w: nat, holder: Holder) {
    && w < |s.workers| == |s.queues|
    && s.workers[w].pc.Steal?
    && s.workers[w].pc.offset < |s.workers|
    && var q := Victim(|s.workers|, w, s.workers[w].pc.offset);
    match holder {
      case ByWorker(u) => u < |s.workers| && u != w && AtQueue(s, u, q)
      case ByOutside(i) => i < |s.outside| && s.outside[i].Push? && s.outside[i].queue == q
      case ByStopper => s.stopper == Checking(q + 3)
    }
  }

  function BlockedNext(s: State, w: nat, holder: Holder): State
    requires BlockedCan(s, w, holder)
  {
    Goto(s, w, Steal(s.workers[w].pc.offset + 1))
  }

  // ----- IOManager::idle -----

  predicate IdleCan(s: State, w: nat) {
    && w < |s.workers| == |s.queues|
    && match s.workers[w].pc {
         case IdleSet | IdleStopping(_, _) | IdleQuit | IdleHas | IdleBack | IdleWait | IdleClear | IdlePush(_) => true
         case _ => false
       }
  }

  /** The answer of a read of stopping(). The first stopping() of the loop decides between leaving and polling,
      the second between leaving and yielding. */
  function AfterRead(me: Worker, again: bool, read: nat, answer: Answer): Worker {
    match answer
    case More => me.(pc := IdleStopping(again, read + 1))
    case No => if again then me.(idle := Ready, pc := Pop) else me.(pc := IdleHas)
    case Yes => if again then me.(idle := Term, pc := Pop) else me.(pc := IdleQuit)
  }

  /** The worker after its next step in idle(). */
  function IdleWorker(s: State, w: nat): Worker
    requires IdleCan(s, w)
  {
    var me := s.workers[w];
    match me.pc
    case IdleSet => me.(idling := true, pc := IdleStopping(false, 0))
    case IdleStopping(again, read) => AfterRead(me, again, read, StoppingRead(s, read))
    case IdleQuit => me.(idling := false, idle := Term, pc := Pop)
    case IdleHas => me.(pc := if s.queues[w] == [] then IdleWait else IdleBack)
    case IdleBack => me.(idling := false, idle := Ready, pc := Pop)
    case IdleWait => me.(pc := IdleClear)
    case IdleClear => me.(idling := false, pc := IdleEvents)
    case IdlePush(_) => me.(pc := IdleEvents)
  }

  function IdleNext(s: State, w: nat): State
    requires IdleCan(s, w)
  {
    var s1 := SetWorker(s, w, IdleWorker(s, w));
    if s.workers[w].pc.IdlePush? then PushBack(s1, w, Wake(s.workers[w].pc.wait)) else s1
  }

  /** idle() touches only its own worker and queue, and leaves with no fiber and no scheduler task in hand. */
  lemma IdleFrame(s: State, w: nat)
    requires IdleCan(s, w)
    ensures var s' := IdleNext(s, w);
            && s' == s.(workers := s.workers[w := IdleWorker(s, w)], queues := s'.queues)
            && s'.queues == (if s.workers[w].pc.IdlePush? then s.queues[w := s.queues[w] + [Wake(s.workers[w].pc.wait)]]
                             else s.queues)
            && IdleArrives(IdleWorker(s, w).pc)
  {
    hide StoppingRead;
  }

  predicate IdleArrives(pc: WorkerPc) {
    match pc
    case Pop | IdleStopping(_, _) | IdleQuit | IdleHas | IdleBack | IdleWait | IdleClear | IdleEvents => true
    case _ => false
  }

  /** One entry of active_evs, or one due timer, as the loop over the events meets it. */
  datatype Event = WakeupFd | DueTimer | ErrorCallback | Activity(slot: Slot) | NoMore

  predicate EventCan(s: State, w: nat, e: Event) {
    && w < |s.workers| == |s.queues|
    && s.workers[w].pc == IdleEvents
    && (e.Activity? ==> e.slot.fd in s.home && s.home[e.slot.fd] == w)
  }

  function PushJob(s: State, w: nat): State
    requires At(s, w)
  {
    PushBack(s, w, Job(s.jobs)).(jobs := s.jobs + 1)
  }

  function EventNext(s: State, w: nat, e: Event): State
    requires EventCan(s, w, e)
  {
    match e
    case WakeupFd => SetWorker(s, w, s.workers[w].(eventfd := 0))
    case DueTimer => PushJob(s, w)
    case ErrorCallback => PushJob(s, w)
    case Activity(slot) => if slot in s.callbacks then Goto(s, w, IdlePush(s.callbacks[slot])) else s
    case NoMore => Goto(s, w, IdleStopping(true, 0))
  }

  // ----- Scheduler::submit -----

  /** What is handed to submit(). */
  datatype Work = NewJob | OldFiber(fiber: nat) | NewFiber

  predicate IssueCan(s: State, what: Work) {
    && 0 < |s.queues|
    && (what.OldFiber? ==> what.fiber < |s.fibers|)
  }

  function IssueTask(s: State, what: Work): Task {
    match what
    case NewJob => Job(s.jobs)
    case OldFiber(g) => Resume(g)
    case NewFiber => Resume(|s.fibers|)
  }

  function IssueQueue(s: State): nat
    requires 0 < |s.queues|
  {
    s.post % |s.queues|
  }

  function Issue(s: State, what: Work): State
    requires IssueCan(s, what)
  {
    var s1 := s.(post := s.post + 1);
    match what
    case NewJob => s1.(jobs := s.jobs + 1)
    case OldFiber(g) => SetFiber(s1, g, s.fibers[g].(clean := false))
    case NewFiber => AddFiber(s1, Fiber(Ready, Body, None, false, None))
  }

  predicate CallCan(s: State, p: SubmitPc) {
    && |s.queues| == |s.workers|
    && match p {
         case Push(q, _) => q < |s.queues|
         case Tickle(q, _) => q < |s.queues|
         case WriteEventFd(q) => q < |s.queues|
         case Returned => false
       }
  }

  /** The effect of one step of submit() on the shared state, and where the call stands after it. */
  function CallEffect(s: State, p: SubmitPc): State
    requires CallCan(s, p)
  {
    match p
    case Push(q, t) => PushBack(s, q, t)
    case Tickle(_, _) => s
    case WriteEventFd(q) => SetWorker(s, q, s.workers[q].(eventfd := s.workers[q].eventfd + 1))
  }

  function CallNext(s: State, p: SubmitPc): SubmitPc
    requires CallCan(s, p)
  {
    match p
    case Push(q, t) => Tickle(q, s.queues[q] == [])
    case Tickle(q, need) => if need && s.workers[q].idling then WriteEventFd(q) else Returned
    case WriteEventFd(q) => Returned
  }

  // ----- code of a fiber -----

  predicate InFiber(s: State, w: nat) {
    && w < |s.workers| == |s.queues|
    && s.workers[w].pc.Run?
    && s.workers[w].pc.fiber < |s.fibers|
  }

  /** What the callback of a fiber chooses to do next. */
  datatype Action =
    | Yield
    | Return
    | CallSubmit(what: Work)
    | Block(slot: Slot)         // do_io, the system call answering EAGAIN
    | AddTimer
    | CancelTimer(timer: nat)   // each timer is cancelled at most once

  predicate BodyCan(s: State, w: nat, a: Action) {
    && InFiber(s, w)
    && s.fibers[s.workers[w].pc.fiber].pc == Body
    && (a.CallSubmit? ==> IssueCan(s, a.what))
    && (a.CancelTimer? ==> a.timer < |s.timers| && s.timers[a.timer])
  }

  /** The fiber of worker w. */
  function Mine(s: State, w: nat): Fiber
    requires InFiber(s, w)
  {
    s.fibers[s.workers[w].pc.fiber]
  }

  /** The fiber of worker w moves to pc. */
  function Proceed(s: State, w: nat, pc: FiberPc): State
    requires InFiber(s, w)
  {
    SetFiber(s, s.workers[w].pc.fiber, Mine(s, w).(pc := pc))
  }

  /** The fiber of worker w leaves in the given state: control is back in run(). */
  function Leave(s: State, w: nat, state: FiberState, pc: FiberPc): State
    requires InFiber(s, w)
  {
    var f := s.workers[w].pc.fiber;
    SetFiber(Goto(s, w, Back(f, state)), f, Mine(s, w).(state := state, pc := pc))
  }

  function BeginSubmit(s: State, w: nat, what: Work): State
    requires InFiber(s, w) && IssueCan(s, what)
  {
    Proceed(Issue(s, what), w, Submit(Push(IssueQueue(s), IssueTask(s, what))))
  }

  /** bindTaskQueue, EAGAIN, and a fresh `triggered`. */
  function BeginWait(s: State, w: nat, slot: Slot): State
    requires InFiber(s, w)
  {
    Proceed(s, w, IoRegister(slot, |s.waits|))
    .(waits := s.waits + [Wait(s.workers[w].pc.fiber, slot, false)],
      home := if slot.fd in s.home then s.home else s.home[slot.fd := w])
  }

  function BodyNext(s: State, w: nat, a: Action): State
    requires BodyCan(s, w, a)
  {
    match a
    case Yield => Leave(s, w, Ready, Body)
    case Return => Proceed(s, w, Ending)
    case CallSubmit(what) => BeginSubmit(s, w, what)
    case Block(slot) => BeginWait(s, w, slot)
    case AddTimer => s.(pending := s.pending + 1, timers := s.timers + [true])
    case CancelTimer(t) => s.(pending := s.pending - 1, timers := s.timers[t := false])
  }

  predicate CodeCan(s: State, w: nat) {
    && InFiber(s, w)
    && match s.fibers[s.workers[w].pc.fiber].pc {
         case Submit(p) => CallCan(s, p)
         case IoRegister(_, _) | IoCount(_, _) | IoHold(_, _) | IoUnregister(_, _) | IoUncount(_) => true
         case WakeExchange(k) => k < |s.waits|
         case WakePush(_) | Ending => true
         case Body | IoHeld(_, _) | Done => false
       }
  }

  function AfterCall(p: SubmitPc): FiberPc {
    if p.Returned? then Body else Submit(p)
  }

  function StepSubmit(s: State, w: nat, p: SubmitPc): State
    requires InFiber(s, w) && CallCan(s, p)
  {
    Proceed(CallEffect(s, p), w, AfterCall(CallNext(s, p)))
  }

  /** The wait other than k that loses its callback when wait k changes the slot. */
  function Displaces(s: State, slot: Slot, k: nat): set<nat> {
    if slot in s.callbacks && s.callbacks[slot] != k then {s.callbacks[slot]} else {}
  }

  /** The locked part of registerEvent. */
  function Register(s: State, w: nat, slot: Slot, k: nat): State
    requires InFiber(s, w)
  {
    Proceed(s, w, IoCount(slot, k))
    .(callbacks := s.callbacks[slot := k],
      displaced := s.displaced + Displaces(s, slot, k))
  }

  /** The locked part of unregisterEvent. */
  function Unregister(s: State, w: nat, slot: Slot, k: nat): State
    requires InFiber(s, w)
  {
    Proceed(s, w, IoUncount(slot)).(callbacks := s.callbacks - {slot}, displaced := s.displaced + Displaces(s, slot, k))
  }

  /** pending_event_count_ changes by d. */
  function CountIo(s: State, w: nat, d: int, pc: FiberPc): State
    requires InFiber(s, w)
  {
    Proceed(s, w, pc).(pending := s.pending + d)
  }

  /** The wake callback: triggered.exchange(true). */
  function Exchange(s: State, w: nat, k: nat): State
    requires InFiber(s, w) && k < |s.waits|
  {
    if s.waits[k].triggered then Proceed(s, w, Ending)
    else Proceed(s, w, WakePush(s.waits[k].fiber)).(waits := s.waits[k := s.waits[k].(triggered := true)])
  }

  /** The wake callback pushes the waiting fiber on the queue of the worker that runs the callback. */
  function PushWoken(s: State, w: nat, g: nat): State
    requires InFiber(s, w)
  {
    Proceed(PushBack(s, w, Resume(g)), w, Ending)
  }

  function CodeNext(s: State, w: nat): State
    requires CodeCan(s, w)
  {
    match Mine(s, w).pc
    case Submit(p) => StepSubmit(s, w, p)
    case IoRegister(slot, k) => Register(s, w, slot, k)
    case IoCount(slot, k) => CountIo(s, w, 1, IoHold(slot, k))
    case IoHold(slot, k) => Leave(s, w, Hold, IoHeld(slot, k))
    case IoUnregister(slot, k) => Unregister(s, w, slot, k)
    case IoUncount(slot) => CountIo(s, w, -1, Body)
    case WakeExchange(k) => Exchange(s, w, k)
    case WakePush(g) => PushWoken(s, w, g)
    case Ending => Leave(s, w, Term, Done)
  }

  /** weak_fiber.lock() finds nothing: the waiting fiber has been destroyed, so it has terminated. */
  predicate ExpiredCan(s: State, w: nat) {
    && InFiber(s, w)
    && var x := s.fibers[s.workers[w].pc.fiber];
    x.pc.WakePush? && x.pc.target < |s.fibers| && s.fibers[x.pc.target].state == Term
  }

  function ExpiredNext(s: State, w: nat): State
    requires ExpiredCan(s, w)
  {
    Proceed(s, w, Ending)
  }

  // ----- threads outside the pool -----

  function OutsideBegin(s: State, what: Work): State
    requires IssueCan(s, what)
  {
    Issue(s, what).(outside := s.outside + [Push(IssueQueue(s), IssueTask(s, what))])
  }

  predicate OutsideCan(s: State, i: nat) {
    i < |s.outside| && CallCan(s, s.outside[i])
  }

  function OutsideNext(s: State, i: nat): State
    requires OutsideCan(s, i)
  {
    CallEffect(s, s.outside[i])
    .(outside := s.outside[i := CallNext(s, s.outside[i])])
  }

  /** Scheduler::stop: set the flag, then tickle every worker and ask stopping() until it says yes. */
  function StopNext(s: State): State {
    match s.stopper
    case Off => s.(stop := true, stopper := Tickling(0, false))
    case Tickling(i, last) =>
      if i < |s.workers| then s.(stopper := if s.workers[i].idling then Writing(i, last) else Tickling(i + 1, last))
      else s.(stopper := if last then Joining else Checking(0))
    case Writing(i, last) =>
      if i < |s.workers| then
        SetWorker(s, i, s.workers[i].(eventfd := s.workers[i].eventfd + 1)).(stopper := Tickling(i + 1, last))
      else s
    case Checking(read) =>
      s.(stopper := match StoppingRead(s, read)
                    case More => Checking(read + 1)
                    case No => Tickling(0, false)
                    case Yes => Tickling(0, true))
    case Joining => s
  }

  // ----- steps and runs -----

  datatype Step =
    | RunStep(w: nat)
    | BlockedStep(w: nat, holder: Holder)
    | IdleStep(w: nat)
    | EventStep(w: nat, event: Event)
    | BodyStep(w: nat, action: Action)
    | CodeStep(w: nat)
    | ExpiredStep(w: nat)
    | SubmitStep(what: Work)
    | OutsideStep(call: nat)
    | StopStep

  predicate Can(s: State, step: Step) {
    match step
    case RunStep(w) => RunCan(s, w)
    case BlockedStep(w, holder) => BlockedCan(s, w, holder)
    case IdleStep(w) => IdleCan(s, w)
    case EventStep(w, e) => EventCan(s, w, e)
    case BodyStep(w, a) => BodyCan(s, w, a)
    case CodeStep(w) => CodeCan(s, w)
    case ExpiredStep(w) => ExpiredCan(s, w)
    case SubmitStep(what) => IssueCan(s, what)
    case OutsideStep(i) => OutsideCan(s, i)
    case StopStep => true
  }

  function Next(s: State, step: Step): State
    requires Can(s, step)
  {
    match step
    case RunStep(w) => RunNext(s, w)
    case BlockedStep(w, holder) => BlockedNext(s, w, holder)
    case IdleStep(w) => IdleNext(s, w)
    case EventStep(w, e) => EventNext(s, w, e)
    case BodyStep(w, a) => BodyNext(s, w, a)
    case CodeStep(w) => CodeNext(s, w)
    case ExpiredStep(w) => ExpiredNext(s, w)
    case SubmitStep(what) => OutsideBegin(s, what)
    case OutsideStep(i) => OutsideNext(s, i)
    case StopStep => StopNext(s)
  }

  /** s' can be reached from s by the steps in order. */
  ghost predicate Reaches(s: State, steps: seq<Step>, s': State)
    decreases |steps|
  {
    if steps == [] then s' == s
    else Can(s, steps[0]) && Reaches(Next(s, steps[0]), steps[1..], s')
  }

  /** Some run leads from s to s'. */
  ghost predicate Leads(s: State, s': State) {
    exists steps :: Reaches(s, steps, s')
  }
}

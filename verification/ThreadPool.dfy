/**
 * The plain thread pool: one queue, mutex and condition variable per worker, stealing, and a destructor that stops the
 * workers one by one. Every section under a mutex is one step.
 */
module ThreadPool {
  import opened Bags
  import Machine
  import Stealing

  /** Where a worker stands in its loop. */
  datatype WorkerPc =
    | Look                    // about to lock its own mutex at the top of the loop
    | Steal(offset: nat)
    | Recheck                 // stole nothing: about to lock again
    | Parked                  // inside cv.wait
    | Run(task: nat)
    | Exited

  /** `notified`: a notify_one has reached the worker since it parked. `own`: the tasks it took from its own queue. */
  datatype Worker = Worker(pc: WorkerPc, notified: bool, own: seq<nat>)

  /** A call of submit() after it has picked a queue. */
  datatype Call = Push(queue: nat) | Notify(queue: nat) | Returned

  /** The destructor. */
  datatype Destroyer = Alive | SetStop(index: nat) | NotifyStop(index: nat) | Joining

  /** Tasks are numbered in the order in which they are pushed. */
  datatype Pool = Pool(
    queues: seq<seq<nat>>,
    stop: seq<bool>,
    workers: seq<Worker>,
    calls: seq<Call>,
    destroyer: Destroyer,
    curId: nat,
    pushed: nat,
    done: seq<nat>,        // the tasks that have run, in the order in which they finished
    late: set<nat>,        // the tasks pushed on the queue of a worker that had already left its loop
    stolen: set<nat>)      // the tasks that a worker has taken from another's queue

  function Init(n: nat): Pool {
    Pool(seq(n, i => []), seq(n, i => false), seq(n, i => Worker(Look, false, [])), [], Alive, 0, 0, [], {}, {})
  }

  datatype Step =
    | Work(w: nat)
    | Busy(w: nat)            // try_lock on the victim fails
    | BeginSubmit
    | Advance(call: nat)
    | Destroy

  predicate Shaped(p: Pool) {
    0 < |p.workers| == |p.queues| == |p.stop|
  }

  predicate Can(p: Pool, step: Step) {
    && Shaped(p)
    && match step {
         case Work(w) => w < |p.workers| && p.workers[w].pc != Exited
         case Busy(w) => w < |p.workers| && p.workers[w].pc.Steal? && p.workers[w].pc.offset < |p.workers|
         case BeginSubmit => true
         case Advance(i) => i < |p.calls| && !p.calls[i].Returned? && p.calls[i].queue < |p.workers|
         case Destroy => true
       }
  }

  function Goto(p: Pool, w: nat, pc: WorkerPc): Pool
    requires w < |p.workers|
  {
    p.(workers := p.workers[w := p.workers[w].(pc := pc)])
  }

  /** The top of the loop: own task, or go stealing, or leave. */
  function LookNext(p: Pool, w: nat): Pool
    requires Shaped(p) && w < |p.workers|
  {
    if p.queues[w] != [] then
      var t := p.queues[w][0];
      p.(workers := p.workers[w := p.workers[w].(pc := Run(t), own := p.workers[w].own + [t])],
         queues := p.queues[w := p.queues[w][1..]])
    else Goto(p, w, if p.stop[w] then Exited else Steal(1))
  }

  function StealNext(p: Pool, w: nat, i: nat): Pool
    requires Shaped(p) && w < |p.workers|
  {
    var v := (w + i) % |p.workers|;
    if i >= |p.workers| then Goto(p, w, Recheck)
    else if p.queues[v] == [] then Goto(p, w, Steal(i + 1))
    else
      var last := |p.queues[v]| - 1;
      Goto(p, w, Run(p.queues[v][last]))
      .(queues := p.queues[v := p.queues[v][..last]], stolen := p.stolen + {p.queues[v][last]})
  }

  function WorkNext(p: Pool, w: nat): Pool
    requires Can(p, Work(w))
  {
    match p.workers[w].pc
    case Look => LookNext(p, w)
    case Steal(i) => StealNext(p, w, i)
    case Recheck => Goto(p, w, if p.queues[w] == [] && !p.stop[w] then Parked else Look)
    case Parked =>      // woken, by a notify or spuriously: the predicate decides
      p.(workers := p.workers[w := p.workers[w].(pc := if p.queues[w] != [] || p.stop[w] then Look else Parked,
                                                 notified := false)])
    case Run(t) => Goto(p, w, Look).(done := p.done + [t])
  }

  /** notify_one on the condition variable of worker w reaches the worker if it waits there. */
  function NotifyOne(p: Pool, w: nat): Pool
    requires w < |p.workers|
  {
    if p.workers[w].pc == Parked then p.(workers := p.workers[w := p.workers[w].(notified := true)]) else p
  }

  function AdvanceNext(p: Pool, i: nat): Pool
    requires Can(p, Advance(i))
  {
    match p.calls[i]
    case Push(q) =>
      p.(queues := p.queues[q := p.queues[q] + [p.pushed]], pushed := p.pushed + 1, calls := p.calls[i := Notify(q)],
         late := if p.workers[q].pc == Exited then p.late + {p.pushed} else p.late)
    case Notify(q) => NotifyOne(p, q).(calls := p.calls[i := Returned])
  }

  function DestroyNext(p: Pool): Pool
    requires Shaped(p)
  {
    match p.destroyer
    case Alive => p.(destroyer := SetStop(0))
    case SetStop(i) =>
      if i < |p.workers| then p.(stop := p.stop[i := true], destroyer := NotifyStop(i)) else p.(destroyer := Joining)
    case NotifyStop(i) =>
      if i < |p.workers| then NotifyOne(p, i).(destroyer := SetStop(i + 1)) else p
    case Joining => p
  }

  function Next(p: Pool, step: Step): Pool
    requires Can(p, step)
  {
    match step
    case Work(w) => WorkNext(p, w)
    case Busy(w) => Goto(p, w, Steal(p.workers[w].pc.offset + 1))
    case BeginSubmit => p.(calls := p.calls + [Push(p.curId % |p.workers|)], curId := p.curId + 1)
    case Advance(i) => AdvanceNext(p, i)
    case Destroy => DestroyNext(p)
  }

  ghost predicate Reaches(p: Pool, steps: seq<Step>, p': Pool)
    decreases |steps|
  {
    if steps == [] then p' == p
    else Can(p, steps[0]) && Reaches(Next(p, steps[0]), steps[1..], p')
  }

  /** Some run leads from p to p'. */
  ghost predicate Leads(p: Pool, p': Pool) {
    exists steps :: Reaches(p, steps, p')
  }

  ghost predicate Reachable(n: nat, p: Pool) {
    0 < n && Leads(Init(n), p)
  }

  // ----- where the tasks are -----

  function QueueTasks(q: seq<nat>): multiset<nat> {
    multiset(q)
  }

  function HandTasks(w: Worker): multiset<nat> {
    InHand(w.pc)
  }

  function InHand(pc: WorkerPc): multiset<nat> {
    if pc.Run? then multiset{pc.task} else multiset{}
  }

  /** The copies of task t in queues, in hands and among those that have run. */
  ghost function Count(p: Pool, t: nat): nat {
    BagOf(QueueTasks, p.queues)[t] + BagOf(HandTasks, p.workers)[t] + multiset(p.done)[t]
  }

  ghost predicate Conserved(p: Pool) {
    forall t: nat :: Count(p, t) == if t < p.pushed then 1 else 0
  }

  // ----- order of the queues -----

  predicate Increasing(s: seq<nat>) {
    forall i, j | 0 <= i < j < |s| :: s[i] < s[j]
  }

  /** What a worker has taken from its queue, followed by what is still there, is in push order. */
  ghost predicate Sorted(p: Pool) {
    Shaped(p) && forall w | 0 <= w < |p.workers| :: SortedAt(p.workers[w].own, p.queues[w], p.pushed)
  }

  predicate SortedAt(own: seq<nat>, queue: seq<nat>, pushed: nat) {
    Increasing(own + queue) && forall i | 0 <= i < |own + queue| :: (own + queue)[i] < pushed
  }

  // ----- stopping -----

  ghost predicate Stopping(p: Pool) {
    && Shaped(p)
    && (forall w | 0 <= w < |p.workers| :: p.stop[w] ==> p.destroyer != Alive)
    && (forall w | 0 <= w < |p.workers| && p.workers[w].pc == Exited :: p.stop[w])
  }

  // ----- late and stolen tasks -----

  /** Late task t lies in the queue of a worker that has left. */
  ghost predicate LeftBehind(p: Pool, t: nat) {
    exists w :: 0 <= w < |p.workers| && w < |p.queues| && p.workers[w].pc == Exited && t in p.queues[w]
  }

  /** The queues of workers that have left hold just the late tasks that have not been stolen; a stolen task is in no
      queue any more. */
  ghost predicate Tracked(p: Pool) {
    && Shaped(p)
    && (forall w | 0 <= w < |p.workers| && p.workers[w].pc == Exited :: forall t | t in p.queues[w] :: t in p.late)
    && (forall t | t in p.late :: t < p.pushed && (t !in p.stolen ==> LeftBehind(p, t)))
    && (forall t | t in p.stolen :: t < p.pushed && forall w | 0 <= w < |p.queues| :: t !in p.queues[w])
  }

  // ----- parked workers -----

  /** A notify for worker w is still to come. */
  ghost predicate Owed(p: Pool, w: nat) {
    || p.destroyer == NotifyStop(w)
    || exists i :: 0 <= i < |p.calls| && p.calls[i] == Notify(w)
  }

  ghost predicate AwakeAt(p: Pool, w: nat)
    requires Shaped(p) && w < |p.workers|
  {
    p.workers[w].pc == Parked && (p.queues[w] != [] || p.stop[w]) ==> p.workers[w].notified || Owed(p, w)
  }

  ghost predicate Awake(p: Pool) {
    Shaped(p) && forall w | 0 <= w < |p.workers| :: AwakeAt(p, w)
  }

  // ----- the destructor's progress, and the queues of the calls -----

  /** The destructor is past worker w: it has set its flag and notified it. */
  predicate Past(d: Destroyer, w: nat) {
    match d
    case Alive => false
    case SetStop(i) => w < i
    case NotifyStop(i) => w < i
    case Joining => true
  }

  /** The flags set are those of the workers the destructor has come to, in order; a parked worker it is past has been
      notified, and only parked workers hold a notify. */
  ghost predicate Driven(p: Pool) {
    && Shaped(p)
    && (p.destroyer.SetStop? ==> p.destroyer.index <= |p.workers|)
    && (p.destroyer.NotifyStop? ==> p.destroyer.index < |p.workers|)
    && (forall w | 0 <= w < |p.workers| :: p.stop[w] <==> Past(p.destroyer, w) || p.destroyer == NotifyStop(w))
    && (forall w | 0 <= w < |p.workers| :: p.workers[w].notified ==> p.workers[w].pc == Parked)
    && (forall w | 0 <= w < |p.workers| && Past(p.destroyer, w) && p.workers[w].pc == Parked :: p.workers[w].notified)
  }

  /** Call number i of submit() goes to queue i modulo the number of workers. */
  ghost predicate RoundRobin(p: Pool) {
    && Shaped(p) && p.curId == |p.calls|
    && forall i | 0 <= i < |p.calls| && !p.calls[i].Returned? :: p.calls[i].queue == i % |p.workers|
  }

  predicate InRange(p: Pool) {
    forall i | 0 <= i < |p.calls| && !p.calls[i].Returned? :: p.calls[i].queue < |p.workers|
  }

  ghost predicate Inv(p: Pool) {
    Shaped(p) && InRange(p) && Conserved(p) && Sorted(p) && Stopping(p) && Tracked(p) && Awake(p)
    && Driven(p) && RoundRobin(p)
  }

  // ----- every step keeps the invariant -----

  lemma GotoCount(p: Pool, w: nat, pc: WorkerPc, t: nat)
    requires w < |p.workers|
    ensures Count(Goto(p, w, pc), t) + InHand(p.workers[w].pc)[t] == Count(p, t) + InHand(pc)[t]
  {
    CountUpdate(HandTasks, p.workers, w, p.workers[w].(pc := pc), t);
  }

  lemma LookCount(p: Pool, w: nat, t: nat)
    requires Shaped(p) && w < |p.workers| && p.workers[w].pc == Look
    ensures Count(LookNext(p, w), t) == Count(p, t)
  {
    hide BagOf;
    var q := p.queues[w];
    CountUpdate(HandTasks, p.workers, w, LookNext(p, w).workers[w], t);
    if q != [] {
      assert q == [q[0]] + q[1..];
      CountUpdate(QueueTasks, p.queues, w, q[1..], t);
    }
  }

  lemma StealCount(p: Pool, w: nat, i: nat, t: nat)
    requires Shaped(p) && w < |p.workers| && p.workers[w].pc == Steal(i)
    ensures Count(StealNext(p, w, i), t) == Count(p, t)
  {
    hide BagOf;
    CountUpdate(HandTasks, p.workers, w, StealNext(p, w, i).workers[w], t);
    if i < |p.workers| {
      var v := (w + i) % |p.workers|;
      var q := p.queues[v];
      if q != [] {
        assert q == q[..|q| - 1] + [q[|q| - 1]];
        CountUpdate(QueueTasks, p.queues, v, q[..|q| - 1], t);
      }
    }
  }

  lemma WorkCount(p: Pool, w: nat, t: nat)
    requires Can(p, Work(w))
    ensures Count(WorkNext(p, w), t) == Count(p, t)
  {
    hide BagOf, LookNext, StealNext;
    match p.workers[w].pc
    case Look => LookCount(p, w, t);
    case Steal(i) => StealCount(p, w, i, t);
    case Recheck => GotoCount(p, w, WorkNext(p, w).workers[w].pc, t);
    case Parked => CountUpdate(HandTasks, p.workers, w, WorkNext(p, w).workers[w], t);
    case Run(_) => CountUpdate(HandTasks, p.workers, w, WorkNext(p, w).workers[w], t);
  }

  lemma NotifyCount(p: Pool, w: nat, t: nat)
    requires w < |p.workers|
    ensures Count(NotifyOne(p, w), t) == Count(p, t)
  {
    hide BagOf;
    CountUpdate(HandTasks, p.workers, w, NotifyOne(p, w).workers[w], t);
  }

  lemma AdvanceCount(p: Pool, i: nat, t: nat)
    requires Can(p, Advance(i))
    ensures Count(AdvanceNext(p, i), t)
         == Count(p, t) + if p.pushed <= t < AdvanceNext(p, i).pushed then 1 else 0
  {
    hide BagOf;
    var q := p.calls[i].queue;
    if p.calls[i].Push? {
      CountUpdate(QueueTasks, p.queues, q, p.queues[q] + [p.pushed], t);
    } else {
      NotifyCount(p, q, t);
    }
  }

  /** The only task that ever appears is the one pushed; none is lost or doubled. */
  lemma StepCount(p: Pool, step: Step, t: nat)
    requires Can(p, step)
    ensures Count(Next(p, step), t) == Count(p, t) + if p.pushed <= t < Next(p, step).pushed then 1 else 0
  {
    hide BagOf, WorkNext, AdvanceNext;
    match step
    case Work(w) =>
      WorkCount(p, w, t);
      WorkPushes(p, w);
    case Busy(w) => GotoCount(p, w, Steal(p.workers[w].pc.offset + 1), t);
    case BeginSubmit =>
    case Advance(i) => AdvanceCount(p, i, t);
    case Destroy =>
      if p.destroyer.NotifyStop? && p.destroyer.index < |p.workers| {
        NotifyCount(p, p.destroyer.index, t);
      }
  }

  lemma WorkPushes(p: Pool, w: nat)
    requires Can(p, Work(w))
    ensures WorkNext(p, w).pushed == p.pushed
  {
  }

  /** A worker's step leaves the flags, the calls and the other workers alone, and shortens at most one queue. */
  lemma WorkFrame(p: Pool, w: nat)
    requires Can(p, Work(w))
    ensures var p' := WorkNext(p, w);
            && p' == p.(workers := p'.workers, queues := p'.queues, done := p'.done, stolen := p'.stolen)
            && p'.workers == p.workers[w := p'.workers[w]] && |p'.workers| == |p.workers|
            && |p'.queues| == |p.queues|
            && (forall q | 0 <= q < |p.queues| && p'.queues[q] != [] :: p.queues[q] != [])
            && (p'.workers[w].pc == Exited ==> p.stop[w] && p'.queues[w] == [])
            && (p'.workers[w].pc == Parked ==> p'.queues[w] == [] && !p.stop[w])
  {
    match p.workers[w].pc
    case Steal(i) => StealFrame(p, w, i);
    case _ =>
  }

  lemma StealFrame(p: Pool, w: nat, i: nat)
    requires Shaped(p) && w < |p.workers|
    ensures var p' := StealNext(p, w, i);
            && p' == p.(workers := p'.workers, queues := p'.queues, stolen := p'.stolen)
            && p'.workers == p.workers[w := p.workers[w].(pc := p'.workers[w].pc)]
            && (p'.workers[w].pc == Recheck || p'.workers[w].pc.Steal? || p'.workers[w].pc.Run?)
            && |p'.queues| == |p.queues|
            && (forall q | 0 <= q < |p.queues| :: p'.queues[q] <= p.queues[q])
  {
  }

  lemma ConservedStep(p: Pool, step: Step)
    requires Conserved(p) && Can(p, step)
    ensures Conserved(Next(p, step))
  {
    hide Count, Next, Can;
    Pushes(p, step);
    forall t: nat ensures Count(Next(p, step), t) == if t < Next(p, step).pushed then 1 else 0 {
      StepCount(p, step, t);
    }
  }

  lemma Pushes(p: Pool, step: Step)
    requires Can(p, step)
    ensures p.pushed <= Next(p, step).pushed
  {
  }

  // ----- order -----

  lemma SortedWork(p: Pool, w: nat)
    requires Sorted(p) && Can(p, Work(w))
    ensures Sorted(WorkNext(p, w))
  {
    var p' := WorkNext(p, w);
    assert SortedAt(p.workers[w].own, p.queues[w], p.pushed);
    match p.workers[w].pc
    case Look =>
      if p.queues[w] != [] {
        var t := p.queues[w][0];
        assert p.workers[w].own + p.queues[w] == (p.workers[w].own + [t]) + p.queues[w][1..];
      }
    case Steal(i) => SortedSteal(p, w, i);
    case _ =>
  }

  lemma SortedSteal(p: Pool, w: nat, i: nat)
    requires Sorted(p) && w < |p.workers|
    ensures Sorted(StealNext(p, w, i))
  {
    hide StealNext;
    StealFrame(p, w, i);
    var p' := StealNext(p, w, i);
    forall v | 0 <= v < |p'.workers| ensures SortedAt(p'.workers[v].own, p'.queues[v], p'.pushed) {
      var own, q, q' := p.workers[v].own, p.queues[v], p'.queues[v];
      assert SortedAt(own, q, p.pushed);
      assert own + q' == (own + q)[..|own| + |q'|];
    }
  }

  lemma SortedPush(own: seq<nat>, queue: seq<nat>, pushed: nat)
    requires SortedAt(own, queue, pushed)
    ensures SortedAt(own, queue + [pushed], pushed + 1) && SortedAt(own, queue, pushed + 1)
  {
    assert own + (queue + [pushed]) == (own + queue) + [pushed];
  }

  lemma SortedStep(p: Pool, step: Step)
    requires Sorted(p) && Can(p, step)
    ensures Sorted(Next(p, step))
  {
    hide WorkNext;
    var p' := Next(p, step);
    match step
    case Work(w) => SortedWork(p, w);
    case Advance(i) =>
      forall v | 0 <= v < |p'.workers| ensures SortedAt(p'.workers[v].own, p'.queues[v], p'.pushed) {
        assert SortedAt(p.workers[v].own, p.queues[v], p.pushed);
        SortedPush(p.workers[v].own, p.queues[v], p.pushed);
      }
    case _ =>
      forall v | 0 <= v < |p'.workers| ensures SortedAt(p'.workers[v].own, p'.queues[v], p'.pushed) {
        assert SortedAt(p.workers[v].own, p.queues[v], p.pushed);
      }
  }

  // ----- stopping and parking -----

  lemma StoppingStep(p: Pool, step: Step)
    requires Stopping(p) && Can(p, step)
    ensures Stopping(Next(p, step))
  {
    hide WorkNext;
    if step.Work? {
      WorkFrame(p, step.w);
    }
  }

  // ----- the destructor and the calls, step by step -----

  lemma DrivenStep(p: Pool, step: Step)
    requires Driven(p) && Can(p, step)
    ensures Driven(Next(p, step))
  {
    hide WorkNext;
    if step.Work? {
      WorkFrame(p, step.w);
      WorkNotified(p, step.w);
    }
  }

  /** A worker keeps a notify only while it stays parked, and it does not park with its flag set. */
  lemma WorkNotified(p: Pool, w: nat)
    requires Driven(p) && Can(p, Work(w))
    ensures !WorkNext(p, w).workers[w].notified
  {
  }

  lemma RoundRobinStep(p: Pool, step: Step)
    requires RoundRobin(p) && Can(p, step)
    ensures RoundRobin(Next(p, step))
  {
    hide WorkNext;
    if step.Work? {
      WorkFrame(p, step.w);
    }
  }

  // ----- late and stolen tasks, step by step -----

  /** A task in a hand is in no queue. */
  lemma HeldNotQueued(p: Pool, w: nat, t: nat)
    requires Conserved(p) && w < |p.workers| && p.workers[w].pc == Run(t)
    ensures t < p.pushed && forall q | 0 <= q < |p.queues| :: t !in p.queues[q]
  {
    hide BagOf;
    assert Count(p, t) == if t < p.pushed then 1 else 0;
    BagMember(HandTasks, p.workers, w);
    assert HandTasks(p.workers[w])[t] <= BagOf(HandTasks, p.workers)[t];
    forall q | 0 <= q < |p.queues| ensures t !in p.queues[q] {
      BagMember(QueueTasks, p.queues, q);
      assert QueueTasks(p.queues[q])[t] <= BagOf(QueueTasks, p.queues)[t];
    }
  }

  /** Workers that had left are still gone, with their queues, and no task is stolen. */
  lemma TrackedSame(p: Pool, p': Pool)
    requires Tracked(p) && Shaped(p') && |p'.workers| == |p.workers| && p'.late == p.late && p'.stolen == p.stolen
    requires p'.pushed == p.pushed
    requires forall w | 0 <= w < |p.workers| ::
               (p.workers[w].pc == Exited ==> p'.workers[w].pc == Exited && p'.queues[w] == p.queues[w])
               && (p'.workers[w].pc == Exited ==> p.workers[w].pc == Exited || p'.queues[w] == [])
    requires forall w, t | 0 <= w < |p.workers| && t in p'.queues[w] :: t in p.queues[w]
    ensures Tracked(p')
  {
    forall t | t in p'.late && t !in p'.stolen ensures LeftBehind(p', t) {
      var w :| 0 <= w < |p.workers| && p.workers[w].pc == Exited && t in p.queues[w];
      assert p'.workers[w].pc == Exited && t in p'.queues[w];
    }
  }

  lemma TrackedLook(p: Pool, w: nat)
    requires Tracked(p) && w < |p.workers| && p.workers[w].pc == Look
    ensures Tracked(LookNext(p, w))
  {
    TrackedSame(p, LookNext(p, w));
  }

  lemma TrackedSteal(p: Pool, w: nat, i: nat)
    requires Tracked(p) && w < |p.workers| && p.workers[w].pc == Steal(i) && Conserved(StealNext(p, w, i))
    ensures Tracked(StealNext(p, w, i))
  {
    hide Conserved;
    var p' := StealNext(p, w, i);
    if p'.workers[w].pc.Run? {
      HeldNotQueued(p', w, p'.workers[w].pc.task);
      forall t | t in p'.late && t !in p'.stolen ensures LeftBehind(p', t) {
        var u :| 0 <= u < |p.workers| && p.workers[u].pc == Exited && t in p.queues[u];
        assert p'.workers[u].pc == Exited && t in p'.queues[u];
      }
    } else {
      TrackedSame(p, p');
    }
  }

  lemma TrackedPush(p: Pool, i: nat)
    requires Tracked(p) && Can(p, Advance(i)) && p.calls[i].Push?
    ensures Tracked(AdvanceNext(p, i))
  {
    var p' := AdvanceNext(p, i);
    var q := p.calls[i].queue;
    forall t | t in p'.late && t !in p'.stolen ensures LeftBehind(p', t) {
      if t in p.late {
        var w :| 0 <= w < |p.workers| && p.workers[w].pc == Exited && t in p.queues[w];
        assert p'.workers[w].pc == Exited && t in p'.queues[w];
      } else {
        assert p'.workers[q].pc == Exited && t in p'.queues[q];
      }
    }
  }

  lemma TrackedStep(p: Pool, step: Step)
    requires Tracked(p) && Can(p, step) && Conserved(Next(p, step))
    ensures Tracked(Next(p, step))
  {
    hide LookNext, StealNext, Conserved, Tracked;
    match step
    case Work(w) =>
      match p.workers[w].pc {
        case Look => TrackedLook(p, w);
        case Steal(i) => TrackedSteal(p, w, i);
        case Recheck | Parked | Run(_) => TrackedSame(p, Next(p, step));
        case Exited =>
      }
    case Advance(i) =>
      if p.calls[i].Push? {
        TrackedPush(p, i);
      } else {
        TrackedSame(p, Next(p, step));
      }
    case _ => TrackedSame(p, Next(p, step));
  }

  lemma AwakeFrame(p: Pool, p': Pool)
    requires Awake(p) && Shaped(p') && |p.workers| == |p'.workers| && |p.calls| <= |p'.calls|
    requires forall w | 0 <= w < |p.workers| && p'.workers[w].pc == Parked && (p'.queues[w] != [] || p'.stop[w]) ::
               || p'.workers[w].notified || Owed(p', w)
               || (p.workers[w].pc == Parked && (p.queues[w] != [] || p.stop[w]) && !p.workers[w].notified)
    requires p.destroyer.NotifyStop? ==>
               p'.destroyer == p.destroyer || p.destroyer.index >= |p.workers|
               || p'.workers[p.destroyer.index].pc != Parked || p'.workers[p.destroyer.index].notified
    requires forall i | 0 <= i < |p.calls| && p.calls[i].Notify? ::
               p'.calls[i] == p.calls[i] || p.calls[i].queue >= |p.workers|
               || p'.workers[p.calls[i].queue].pc != Parked || p'.workers[p.calls[i].queue].notified
    ensures Awake(p')
  {
    forall w | 0 <= w < |p'.workers| ensures AwakeAt(p', w) {
      assert AwakeAt(p, w);
      if i :| 0 <= i < |p.calls| && p.calls[i] == Notify(w) {
        assert p'.calls[i] == p.calls[i] ==> Owed(p', w);
      }
    }
  }

  lemma AwakeStep(p: Pool, step: Step)
    requires Awake(p) && InRange(p) && Can(p, step)
    ensures Awake(Next(p, step))
  {
    hide WorkNext, Owed, Awake;
    var p' := Next(p, step);
    match step
    case Work(w) => AwakeWork(p, w);
    case Advance(i) => AwakeAdvance(p, i);
    case Destroy => AwakeDestroy(p);
    case _ => AwakeFrame(p, p');
  }

  lemma AwakeWork(p: Pool, w: nat)
    requires Awake(p) && Can(p, Work(w))
    ensures Awake(WorkNext(p, w))
  {
    hide WorkNext, Owed;
    WorkFrame(p, w);
    var p' := WorkNext(p, w);
    AwakeRest(p, p', w);
  }

  /** Worker w does not need waking; for the others nothing has changed but shorter queues. */
  lemma AwakeRest(p: Pool, p': Pool, w: nat)
    requires Awake(p) && Shaped(p') && w < |p.workers| == |p'.workers|
    requires p'.calls == p.calls && p'.destroyer == p.destroyer && p'.stop == p.stop
    requires forall v | 0 <= v < |p.workers| && v != w :: p'.workers[v] == p.workers[v]
    requires forall q | 0 <= q < |p.queues| && p'.queues[q] != [] :: p.queues[q] != []
    requires p'.workers[w].pc == Parked ==> p'.queues[w] == [] && !p.stop[w]
    ensures Awake(p')
  {
    forall v | 0 <= v < |p'.workers| ensures AwakeAt(p', v) {
      assert AwakeAt(p, v);
      if i :| 0 <= i < |p.calls| && p.calls[i] == Notify(v) {
        assert p'.calls[i] == Notify(v);
      }
    }
  }

  lemma AwakeAdvance(p: Pool, i: nat)
    requires Awake(p) && Can(p, Advance(i))
    ensures Awake(AdvanceNext(p, i))
  {
    var p' := AdvanceNext(p, i);
    if p.calls[i].Push? {
      assert p'.calls[i] == Notify(p.calls[i].queue);
      assert Owed(p', p.calls[i].queue);
    }
    AwakeFrame(p, p');
  }

  lemma AwakeDestroy(p: Pool)
    requires Awake(p) && Can(p, Destroy)
    ensures Awake(DestroyNext(p))
  {
    AwakeFrame(p, DestroyNext(p));
  }

  lemma RangeStep(p: Pool, step: Step)
    requires InRange(p) && Can(p, step)
    ensures Shaped(Next(p, step)) && InRange(Next(p, step))
  {
    hide WorkNext;
    if step.Work? {
      WorkFrame(p, step.w);
    }
  }

  lemma InitInv(n: nat)
    requires 0 < n
    ensures Inv(Init(n))
  {
    hide BagOf;
    BagEmpty(QueueTasks, Init(n).queues);
    BagEmpty(HandTasks, Init(n).workers);
  }

  lemma InvStep(p: Pool, step: Step)
    requires Inv(p) && Can(p, step)
    ensures Inv(Next(p, step))
  {
    hide Conserved, Sorted, Stopping, Tracked, Awake, Driven, RoundRobin, InRange, Next;
    RangeStep(p, step);
    ConservedStep(p, step);
    TrackedStep(p, step);
    DrivenStep(p, step);
    RoundRobinStep(p, step);
    SortedStep(p, step);
    StoppingStep(p, step);
    AwakeStep(p, step);
  }

  lemma {:induction false} InvReaches(p: Pool, steps: seq<Step>, p': Pool)
    requires Inv(p) && Reaches(p, steps, p')
    ensures Inv(p')
    decreases |steps|
  {
    hide Inv, Next, Can;
    if steps != [] {
      InvStep(p, steps[0]);
      InvReaches(Next(p, steps[0]), steps[1..], p');
    }
  }

  lemma ReachableInv(n: nat, p: Pool)
    requires Reachable(n, p)
    ensures Inv(p)
  {
    hide Inv;
    var steps :| Reaches(Init(n), steps, p);
    InitInv(n);
    InvReaches(Init(n), steps, p);
  }

  // ----- main results -----

  predicate AllExited(p: Pool) {
    forall w | 0 <= w < |p.workers| :: p.workers[w].pc == Exited
  }

  /** When all workers have been joined, every task ever pushed has run exactly once, in every interleaving of own pops,
      steals and stop flags, except those that came after their worker had left and that no other worker stole: these
      have not run. */
  lemma DrainOnDestruction(n: nat, p: Pool, t: nat)
    requires Reachable(n, p) && AllExited(p) && t < p.pushed
    ensures multiset(p.done)[t] == if t in p.late && t !in p.stolen then 0 else 1
  {
    hide BagOf;
    ReachableInv(n, p);
    BagEmpty(HandTasks, p.workers);
    assert Count(p, t) == 1;
    if t in p.late && t !in p.stolen {
      assert LeftBehind(p, t);
      var w :| 0 <= w < |p.workers| && t in p.queues[w];
      BagMember(QueueTasks, p.queues, w);
      assert QueueTasks(p.queues[w])[t] <= BagOf(QueueTasks, p.queues)[t];
    } else if 0 < BagOf(QueueTasks, p.queues)[t] {
      var w := BagSource(QueueTasks, p.queues, t);
    }
  }

  /** A push before the destructor begins is never too late, nor is one on the queue of a worker not yet stopped. */
  lemma InTime(n: nat, p: Pool, i: nat)
    requires Reachable(n, p) && Can(p, Advance(i)) && p.calls[i].Push?
    requires p.destroyer == Alive || !p.stop[p.calls[i].queue]
    ensures Next(p, Advance(i)).late == p.late
  {
    ReachableInv(n, p);
  }

  lemma Take(b: Pool, p: Pool, step: Step) returns (p': Pool)
    requires Leads(b, p) && Can(p, step)
    ensures p' == Next(p, step) && Leads(b, p')
  {
    hide Next, Can;
    var steps :| Reaches(b, steps, p);
    ReachesMore(b, steps, p, step);
    p' := Next(p, step);
  }

  lemma {:induction false} ReachesMore(p: Pool, steps: seq<Step>, p': Pool, step: Step)
    requires Reaches(p, steps, p') && Can(p', step)
    ensures Reaches(p, steps + [step], Next(p', step))
    decreases |steps|
  {
    hide Next, Can;
    if steps != [] {
      assert (steps + [step])[1..] == steps[1..] + [step];
      ReachesMore(Next(p, steps[0]), steps[1..], p', step);
    }
  }

  /** A push on the queue of a worker that has left can be lost: here its task never runs. */
  lemma LatePushIsLost()
    ensures exists p ::
              Reachable(1, p) && |p.workers| == 1 && AllExited(p) && p.late == {0} && p.pushed == 1 && p.done == []
  {
    var p := LatePushRun();
  }

  lemma LatePushRun() returns (p: Pool)
    ensures Reachable(1, p) && |p.workers| == 1 && AllExited(p) && p.late == {0} && p.pushed == 1 && p.done == []
  {
    hide Leads;
    var b := Init(1);
    Stay(b);
    p := Take(b, b, Destroy);
    p := Take(b, p, Destroy);
    p := Take(b, p, Work(0));
    p := Take(b, p, BeginSubmit);
    p := Take(b, p, Advance(0));
  }

  lemma Stay(b: Pool)
    ensures Leads(b, b)
  {
    assert Reaches(b, [], b);
  }

  /** No task runs twice, or is queued again after it ran, at any time. */
  lemma RunsAtMostOnce(n: nat, p: Pool, t: nat)
    requires Reachable(n, p)
    ensures multiset(p.done)[t] <= 1
    ensures t in p.done ==> forall w | 0 <= w < |p.queues| :: t !in p.queues[w]
  {
    hide BagOf;
    ReachableInv(n, p);
    assert Count(p, t) == if t < p.pushed then 1 else 0;
    if t in p.done {
      assert 0 < multiset(p.done)[t];
      forall w | 0 <= w < |p.queues| ensures t !in p.queues[w] {
        BagMember(QueueTasks, p.queues, w);
        assert QueueTasks(p.queues[w])[t] <= BagOf(QueueTasks, p.queues)[t];
      }
    }
  }

  /** A parked worker that has something to do, a task or a stop flag, has been notified or is still owed a notify. */
  lemma NoLostNotify(n: nat, p: Pool, w: nat)
    requires Reachable(n, p) && w < |p.workers| == |p.queues| == |p.stop|
    requires p.workers[w].pc == Parked && (p.queues[w] != [] || p.stop[w])
    ensures p.workers[w].notified || Owed(p, w)
  {
    ReachableInv(n, p);
    assert AwakeAt(p, w);
  }

  /** Over the whole run, the tasks a worker takes from its own queue are strictly increasing in push order, and precede
      everything still in the queue. */
  lemma OwnerOrder(n: nat, p: Pool, w: nat)
    requires Reachable(n, p) && w < |p.workers| == |p.queues|
    ensures Increasing(p.workers[w].own) && Increasing(p.queues[w])
    ensures forall i, j | 0 <= i < |p.workers[w].own| && 0 <= j < |p.queues[w]| :: p.workers[w].own[i] < p.queues[w][j]
  {
    ReachableInv(n, p);
    var own, q := p.workers[w].own, p.queues[w];
    assert SortedAt(own, q, p.pushed);
    forall i, j | 0 <= i < j < |own| ensures own[i] < own[j] {
      assert (own + q)[i] == own[i] && (own + q)[j] == own[j];
    }
    forall i, j | 0 <= i < j < |q| ensures q[i] < q[j] {
      assert (own + q)[|own| + i] == q[i] && (own + q)[|own| + j] == q[j];
    }
    forall i, j | 0 <= i < |own| && 0 <= j < |q| ensures own[i] < q[j] {
      assert (own + q)[i] == own[i] && (own + q)[|own| + j] == q[j];
    }
  }

  // ----- the destructor -----

  /** The destructor sets the flags in order, one worker at a time; when it joins, every flag is set and every
      worker that is parked has been notified. */
  lemma DestructorStopsAll(n: nat, p: Pool)
    requires Reachable(n, p)
    ensures p.destroyer == Alive ==> forall w | 0 <= w < |p.stop| :: !p.stop[w]
    ensures p.destroyer.SetStop? ==> forall w | 0 <= w < |p.stop| :: p.stop[w] <==> w < p.destroyer.index
    ensures p.destroyer.NotifyStop? ==> forall w | 0 <= w < |p.stop| :: p.stop[w] <==> w < p.destroyer.index + 1
    ensures p.destroyer == Joining ==> forall w | 0 <= w < |p.stop| :: p.stop[w]
    ensures p.destroyer == Joining ==>
              forall w | 0 <= w < |p.workers| && p.workers[w].pc == Parked :: p.workers[w].notified
  {
    ReachableInv(n, p);
  }

  /** Only a notified worker's predicate or a spurious wake-up lets a worker look again, and only if it has a task
      or has been stopped does it leave cv.wait. */
  lemma WaitsForWork(n: nat, p: Pool, step: Step, w: nat)
    requires Reachable(n, p) && Can(p, step) && w < |p.workers|
    requires p.workers[w].pc == Parked && Next(p, step).workers[w].pc != Parked
    ensures step == Work(w) && (p.queues[w] != [] || p.stop[w]) && Next(p, step).workers[w].pc == Look
  {
    hide WorkNext;
    if step.Work? {
      WorkFrame(p, step.w);
      if step.w == w {
        LeavesParked(p, w);
      }
    }
  }

  lemma LeavesParked(p: Pool, w: nat)
    requires Can(p, Work(w)) && p.workers[w].pc == Parked && WorkNext(p, w).workers[w].pc != Parked
    ensures (p.queues[w] != [] || p.stop[w]) && WorkNext(p, w).workers[w].pc == Look
  {
  }

  /** Call number i of submit() goes to worker i modulo the number of workers. */
  lemma SubmitsInTurn(n: nat, p: Pool, i: nat)
    requires Reachable(n, p) && i < |p.calls| && !p.calls[i].Returned? && 0 < |p.workers|
    ensures p.calls[i].queue == i % |p.workers| && p.curId == |p.calls|
  {
    ReachableInv(n, p);
  }

  // ----- whole turns of a worker -----

  /** Only worker w has moved, and its queue has not grown. */
  ghost predicate Moved(p: Pool, p': Pool, w: nat) {
    && Shaped(p) && Shaped(p') && |p'.workers| == |p.workers| && w < |p.workers|
    && p'.stop == p.stop && p'.destroyer == p.destroyer
    && (forall u | 0 <= u < |p.workers| && u != w :: p'.workers[u] == p.workers[u])
    && |p'.queues[w]| <= |p.queues[w]|
  }

  lemma WorkMoves(p: Pool, w: nat)
    requires Can(p, Work(w))
    ensures Moved(p, WorkNext(p, w), w)
  {
  }

  /** A stopped worker that has not left comes to the top of its loop. */
  lemma ToLook(b: Pool, p: Pool, w: nat) returns (p': Pool)
    requires Leads(b, p) && Shaped(p) && w < |p.workers| && p.stop[w] && p.workers[w].pc != Exited
    ensures Leads(b, p') && Moved(p, p', w) && p'.workers[w].pc == Look
  {
    hide Leads, WorkNext;
    p' := p;
    while p'.workers[w].pc != Look
      invariant Leads(b, p') && Moved(p, p', w) && p'.workers[w].pc != Exited
      decreases Distance(|p.workers|, p'.workers[w].pc)
    {
      Nearer(p', w);
      WorkMoves(p', w);
      p' := Take(b, p', Work(w));
    }
  }

  /** How many steps a stopped worker is from the top of its loop, at most. */
  function Distance(n: nat, pc: WorkerPc): nat {
    match pc
    case Look => 0
    case Run(_) | Recheck | Parked => 1
    case Steal(i) => if i < n then 2 + n - i else 2
    case Exited => 0
  }

  lemma Nearer(p: Pool, w: nat)
    requires Shaped(p) && w < |p.workers| && p.stop[w] && p.workers[w].pc != Exited && p.workers[w].pc != Look
    ensures Can(p, Work(w)) && WorkNext(p, w).workers[w].pc != Exited
    ensures Distance(|p.workers|, WorkNext(p, w).workers[w].pc) < Distance(|p.workers|, p.workers[w].pc)
  {
  }

  /** A stopped worker runs what is in its queue and leaves. */
  lemma Leaves(b: Pool, p: Pool, w: nat) returns (p': Pool)
    requires Leads(b, p) && Shaped(p) && w < |p.workers| && p.stop[w] && p.workers[w].pc != Exited
    ensures Leads(b, p') && Moved(p, p', w) && p'.workers[w].pc == Exited
  {
    hide Leads, WorkNext;
    p' := ToLook(b, p, w);
    while p'.queues[w] != []
      invariant Leads(b, p') && Moved(p, p', w) && p'.workers[w].pc == Look
      decreases |p'.queues[w]|
    {
      WorkMoves(p', w);
      LooksAtOwn(p', w);
      var p1 := Take(b, p', Work(w));
      p' := ToLook(b, p1, w);
    }
    WorkMoves(p', w);
    LooksAtOwn(p', w);
    p' := Take(b, p', Work(w));
  }

  lemma LooksAtOwn(p: Pool, w: nat)
    requires Shaped(p) && w < |p.workers| && p.workers[w].pc == Look
    ensures p.queues[w] != [] ==> WorkNext(p, w).workers[w].pc.Run? && |WorkNext(p, w).queues[w]| < |p.queues[w]|
    ensures p.queues[w] == [] && p.stop[w] ==> WorkNext(p, w).workers[w].pc == Exited
  {
  }

  /** Joining can end: from every state in which the destructor joins, some run takes all workers out of their loops. */
  lemma JoinReturns(n: nat, p: Pool)
    requires Reachable(n, p) && p.destroyer == Joining
    ensures exists p' :: Leads(p, p') && p'.destroyer == Joining && AllExited(p')
  {
    hide Leads;
    DestructorStopsAll(n, p);
    ReachableInv(n, p);
    Stay(p);
    var p' := p;
    for w := 0 to |p.workers|
      invariant Leads(p, p') && Shaped(p') && |p'.workers| == |p.workers|
      invariant p'.stop == p.stop && p'.destroyer == Joining
      invariant forall u | 0 <= u < w :: p'.workers[u].pc == Exited
    {
      if p'.workers[w].pc != Exited {
        p' := Leaves(p, p', w);
      }
    }
  }

  // ----- the steal pass -----

  /** What a whole pass of worker w does, with `free` the answers of try_lock. */
  ghost predicate PassDone(p: Pool, w: nat, free: seq<bool>, p': Pool)
    requires Shaped(p) && w < |p.workers| == |free|
  {
    var (task, queues) := Stealing.Stolen(p.queues, w, free);
    p' == (if task.Some? then Goto(p, w, Run(task.value)).(stolen := p.stolen + {task.value}) else Goto(p, w, Recheck))
          .(queues := queues)
  }

  lemma OneRound(p: Pool, w: nat, k: nat)
    requires Shaped(p) && w < |p.workers| && p.workers[w].pc == Steal(k)
    ensures Can(p, Work(w)) && (k < |p.workers| ==> Can(p, Busy(w)) && Next(p, Busy(w)) == Goto(p, w, Steal(k + 1)))
    ensures |p.workers| <= k ==> Next(p, Work(w)) == Goto(p, w, Recheck)
    ensures k < |p.workers| ==>
              var v := Machine.Victim(|p.workers|, w, k);
              Next(p, Work(w)) == if p.queues[v] == [] then Goto(p, w, Steal(k + 1)) else TakenBack(p, w, v)
  {
  }

  /** Worker w has the last task of queue v in hand. */
  function TakenBack(p: Pool, w: nat, v: nat): Pool
    requires Shaped(p) && w < |p.workers| && v < |p.queues| && p.queues[v] != []
  {
    var last := |p.queues[v]| - 1;
    Goto(p, w, Run(p.queues[v][last]))
    .(queues := p.queues[v := p.queues[v][..last]], stolen := p.stolen + {p.queues[v][last]})
  }

  /** A pass, if the queues do not change meanwhile: it takes the last task of the first queue after the worker's
      own, in their order around the pool, whose try_lock succeeds and that has one; a try_lock that fails skips
      just its queue. */
  lemma PassRuns(p: Pool, w: nat, free: seq<bool>)
    requires Shaped(p) && w < |p.workers| == |free| && p.workers[w].pc == Steal(1)
    ensures exists p' :: Leads(p, p') && PassDone(p, w, free, p')
  {
    hide Leads, Next, Can, Machine.Victim;
    Stay(p);
    var p' := p;
    var n, k := |p.workers|, 1;
    while k < n && !Stealing.Takes(p.queues, w, free, k)
      invariant 1 <= k <= n && Leads(p, p') && p' == Goto(p, w, Steal(k))
      invariant Stealing.FirstTaken(p.queues, w, free, 1) == Stealing.FirstTaken(p.queues, w, free, k)
    {
      OneRound(p', w, k);
      p' := Take(p, p', if free[Machine.Victim(n, w, k)] then Work(w) else Busy(w));
      k := k + 1;
    }
    OneRound(p', w, k);
    p' := Take(p, p', Work(w));
    assert PassDone(p, w, free, p');
  }

  /** With every try_lock free, a pass comes to nothing if and only if every other queue is empty. */
  lemma PassFindsAll(p: Pool, w: nat, free: seq<bool>, p': Pool)
    requires Shaped(p) && w < |p.workers| == |free| && PassDone(p, w, free, p')
    requires forall v | 0 <= v < |free| :: free[v]
    ensures p'.workers[w].pc == Recheck <==> forall v | 0 <= v < |p.queues| && v != w :: p.queues[v] == []
  {
    Stealing.NothingToSteal(p.queues, w, free);
  }

  /** A worker with nothing to do and no flag set parks. */
  lemma ParksWhenIdle(p: Pool, w: nat)
    requires Shaped(p) && w < |p.workers| && p.workers[w].pc == Look && !p.stop[w]
    requires forall q | 0 <= q < |p.queues| :: p.queues[q] == []
    ensures exists p' :: Leads(p, p') && p' == Goto(p, w, Parked)
  {
    hide Leads, Next, Can, Machine.Victim;
    Stay(p);
    TopOfLoop(p, w);
    var p' := Take(p, p, Work(w));
    var k := 1;
    while k < |p.workers|
      invariant 1 <= k <= |p.workers| && Leads(p, p') && p' == Goto(p, w, Steal(k))
    {
      OneRound(p', w, k);
      p' := Take(p, p', Work(w));
      k := k + 1;
    }
    OneRound(p', w, k);
    p' := Take(p, p', Work(w));
    TopOfLoop(p', w);
    p' := Take(p, p', Work(w));
  }

  lemma TopOfLoop(p: Pool, w: nat)
    requires Shaped(p) && w < |p.workers| && p.queues[w] == [] && !p.stop[w]
    ensures p.workers[w].pc == Look ==> Can(p, Work(w)) && Next(p, Work(w)) == Goto(p, w, Steal(1))
    ensures p.workers[w].pc == Recheck ==> Can(p, Work(w)) && Next(p, Work(w)) == Goto(p, w, Parked)
  {
  }
}

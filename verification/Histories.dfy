/** What holds of whole runs of the scheduler: the order of the queues, the eventfds, and the calls of submit() and
    stop(). */
module Histories {
  import opened Machine
  import opened Frames
  import opened Scheduler
  import opened Traces
  import opened Stopping
  import Counters
  import Shutdown

  // ----- the queues as deques -----

  /** Queue q as it was, or with one task more at the back. */
  predicate KeptOrPushed(before: seq<Task>, after: seq<Task>) {
    after == before || (|after| == |before| + 1 && after[..|before|] == before)
  }

  /** The owner takes the front, a thief the back; everybody else only pushes at the back. */
  lemma QueueDiscipline(s: State, step: Step, q: nat)
    requires Shutdown.StopFirst(s) && Can(s, step) && q < |s.queues| == |s.workers|
    ensures |Next(s, step).queues| == |s.queues| && |Next(s, step).workers| == |s.workers|
    ensures var s' := Next(s, step);
            var before, after := s.queues[q], s'.queues[q];
            if step == RunStep(q) && s.workers[q].pc == Pop && before != [] then
              before == [before[0]] + after && s'.workers[q].pc == Got(before[0])
            else
              || KeptOrPushed(before, after)
              || (step.RunStep? && step.w != q && s.workers[step.w].pc.Steal? && before != []
                  && before == after + [before[|before| - 1]] && s'.workers[step.w].pc == Got(before[|before| - 1]))
  {
    hide RunNext, IdleNext, EventNext, BodyNext, CodeNext, OutsideNext, StopNext, Issue;
    Shutdown.SameQueues(s, step);
    match step
    case RunStep(w) => RunDiscipline(s, w, q);
    case IdleStep(w) => IdleFrame(s, w);
    case EventStep(w, e) => EventDiscipline(s, w, e, q);
    case BodyStep(w, a) => BodyDiscipline(s, w, a, q);
    case CodeStep(w) => CodeDiscipline(s, w, q);
    case OutsideStep(i) => CallDiscipline(s, i, q);
    case StopStep => StopFrame(s);
    case SubmitStep(what) => IssueFrame(s, what);
    case BlockedStep(_, _) =>
    case ExpiredStep(_) =>
  }

  lemma RunDiscipline(s: State, w: nat, q: nat)
    requires Shutdown.StopFirst(s) && RunCan(s, w) && q < |s.queues|
    ensures |RunNext(s, w).queues| == |s.queues| && |RunNext(s, w).workers| == |s.workers|
    ensures var s' := RunNext(s, w);
            var before, after := s.queues[q], s'.queues[q];
            if w == q && s.workers[q].pc == Pop && before != [] then
              before == [before[0]] + after && s'.workers[q].pc == Got(before[0])
            else
              || KeptOrPushed(before, after)
              || (w != q && s.workers[w].pc.Steal? && before != []
                  && before == after + [before[|before| - 1]] && s'.workers[w].pc == Got(before[|before| - 1]))
  {
    hide Victim;
    assert Shutdown.StopWorker(s.stop, s.workers[w]);
    if s.workers[w].pc.Steal? {
      StealDiscipline(s, w, q);
    } else if s.workers[w].pc == Pop {
      PopDiscipline(s, w, q);
    } else {
      RestDiscipline(s, w, q);
    }
  }

  lemma PopDiscipline(s: State, w: nat, q: nat)
    requires RunCan(s, w) && q < |s.queues| && s.workers[w].pc == Pop
    ensures |RunNext(s, w).queues| == |s.queues| && |RunNext(s, w).workers| == |s.workers|
    ensures var s' := RunNext(s, w);
            var before, after := s.queues[q], s'.queues[q];
            if w == q && before != [] then before == [before[0]] + after && s'.workers[q].pc == Got(before[0])
            else after == before
  {
  }

  lemma StealDiscipline(s: State, w: nat, q: nat)
    requires RunCan(s, w) && q < |s.queues| && s.workers[w].pc.Steal? && 0 < s.workers[w].pc.offset
    ensures |RunNext(s, w).queues| == |s.queues| && |RunNext(s, w).workers| == |s.workers|
    ensures var s' := RunNext(s, w);
            var before, after := s.queues[q], s'.queues[q];
            || after == before
            || (w != q && before != []
                && before == after + [before[|before| - 1]] && s'.workers[w].pc == Got(before[|before| - 1]))
  {
    hide Victim;
    if s.workers[w].pc.offset < |s.workers| {
      Shutdown.VictimOffset(|s.workers|, w, s.workers[w].pc.offset, w);
    }
  }

  lemma RestDiscipline(s: State, w: nat, q: nat)
    requires RunCan(s, w) && q < |s.queues| && s.workers[w].pc != Pop && !s.workers[w].pc.Steal?
    ensures |RunNext(s, w).queues| == |s.queues| && |RunNext(s, w).workers| == |s.workers|
    ensures KeptOrPushed(s.queues[q], RunNext(s, w).queues[q])
  {
    hide RunNext;
    RunFrame(s, w);
    if s.workers[w].pc.Refused? || s.workers[w].pc.Requeue? {
      RequeueDiscipline(s, w, q);
    } else {
      NoQueues(s, w);
    }
  }

  lemma RequeueDiscipline(s: State, w: nat, q: nat)
    requires RunCan(s, w) && q < |s.queues| && (s.workers[w].pc.Refused? || s.workers[w].pc.Requeue?)
    ensures |RunNext(s, w).queues| == |s.queues| && KeptOrPushed(s.queues[q], RunNext(s, w).queues[q])
  {
  }

  lemma NoQueues(s: State, w: nat)
    requires RunCan(s, w) && s.workers[w].pc != Pop && !s.workers[w].pc.Steal?
    requires !s.workers[w].pc.Refused? && !s.workers[w].pc.Requeue?
    ensures RunNext(s, w).queues == s.queues
  {
  }

  lemma EventDiscipline(s: State, w: nat, e: Event, q: nat)
    requires EventCan(s, w, e) && q < |s.queues|
    ensures |EventNext(s, w, e).queues| == |s.queues| && KeptOrPushed(s.queues[q], EventNext(s, w, e).queues[q])
  {
  }

  lemma BodyDiscipline(s: State, w: nat, a: Action, q: nat)
    requires BodyCan(s, w, a) && q < |s.queues|
    ensures |BodyNext(s, w, a).queues| == |s.queues| && KeptOrPushed(s.queues[q], BodyNext(s, w, a).queues[q])
  {
  }

  lemma CodeDiscipline(s: State, w: nat, q: nat)
    requires CodeCan(s, w) && q < |s.queues|
    ensures |CodeNext(s, w).queues| == |s.queues| && KeptOrPushed(s.queues[q], CodeNext(s, w).queues[q])
  {
    hide Register, Unregister, CountIo, Exchange, Leave, CodeNext;
    if Mine(s, w).pc.Submit? || Mine(s, w).pc.WakePush? {
      PushingCode(s, w, q);
    } else {
      Shutdown.OtherCode(s, w);
    }
  }

  lemma PushingCode(s: State, w: nat, q: nat)
    requires CodeCan(s, w) && (Mine(s, w).pc.Submit? || Mine(s, w).pc.WakePush?) && q < |s.queues|
    ensures |CodeNext(s, w).queues| == |s.queues| && KeptOrPushed(s.queues[q], CodeNext(s, w).queues[q])
  {
  }

  lemma CallDiscipline(s: State, i: nat, q: nat)
    requires OutsideCan(s, i) && q < |s.queues|
    ensures |OutsideNext(s, i).queues| == |s.queues| && KeptOrPushed(s.queues[q], OutsideNext(s, i).queues[q])
  {
  }

  lemma {:induction false} SameSize(n: nat, states: seq<State>, steps: seq<Step>, i: nat)
    requires Trace(n, states, steps) && i < |states|
    ensures |states[i].queues| == |states[i].workers| == n && Shutdown.StopFirst(states[i])
  {
    hide Next, Can, Inv, Shutdown.StopFirst;
    TraceReachable(n, states, steps, i);
    ReachableInv(n, states[i]);
    Stops(states[i]);
    AllQueues(n, states, steps, i);
  }

  /** The tasks pushed on queue q up to instant i. */
  ghost function Pushed(states: seq<State>, q: nat, i: nat): seq<Task>
    requires i < |states| && forall j | 0 <= j < |states| :: q < |states[j].queues|
  {
    if i == 0 then []
    else
      var before, after := states[i - 1].queues[q], states[i].queues[q];
      Pushed(states, q, i - 1) + if |before| < |after| then [after[|after| - 1]] else []
  }

  /** The tasks that worker q has taken from its own queue up to instant i. */
  ghost function OwnTaken(states: seq<State>, q: nat, i: nat): seq<Task>
    requires i < |states| && forall j | 0 <= j < |states| :: q < |states[j].workers|
  {
    if i == 0 then []
    else
      var before, after := states[i - 1].workers[q].pc, states[i].workers[q].pc;
      OwnTaken(states, q, i - 1) + if before == Pop && after.Got? then [after.task] else []
  }

  /** The tasks of part are those of whole at the increasing places idx. */
  ghost predicate Picks(part: seq<Task>, idx: seq<nat>, whole: seq<Task>) {
    && |idx| == |part|
    && (forall i | 0 <= i < |part| :: idx[i] < |whole| && part[i] == whole[idx[i]])
    && (forall i, j | 0 <= i < j < |part| :: idx[i] < idx[j])
  }

  /** What one step does to what the owner has taken, the queue, and what was pushed: nothing, a push, the owner's own
      pop, or a theft at the back. */
  ghost predicate DequeStep(own: seq<Task>, queue: seq<Task>, pushed: seq<Task>,
      own': seq<Task>, queue': seq<Task>, pushed': seq<Task>) {
    || (own' == own && queue' == queue && pushed' == pushed)
    || (queue' != [] && own' == own && queue' == queue + [queue'[|queue'| - 1]]
        && pushed' == pushed + [queue'[|queue'| - 1]])
    || (queue != [] && own' == own + [queue[0]] && queue == [queue[0]] + queue' && pushed' == pushed)
    || (queue != [] && own' == own && queue == queue' + [queue[|queue| - 1]] && pushed' == pushed)
  }

  lemma PicksStep(own: seq<Task>, queue: seq<Task>, pushed: seq<Task>, own': seq<Task>, queue': seq<Task>,
      pushed': seq<Task>, idx: seq<nat>) returns (idx': seq<nat>)
    requires Picks(own + queue, idx, pushed) && DequeStep(own, queue, pushed, own', queue', pushed')
    ensures Picks(own' + queue', idx', pushed')
  {
    if own' == own && queue' == queue && pushed' == pushed {
      idx' := idx;
    } else if queue' != [] && queue' == queue + [queue'[|queue'| - 1]] {
      idx' := idx + [|pushed|];
      assert own' + queue' == (own + queue) + [queue'[|queue'| - 1]];
    } else if own' == own {
      idx' := idx[..|idx| - 1];
      assert own' + queue' == (own + queue)[..|idx| - 1];
    } else {
      idx' := idx;
      assert own' + queue' == own + queue;
    }
  }

  lemma Dequeued(n: nat, states: seq<State>, steps: seq<Step>, q: nat, i: nat)
    requires Trace(n, states, steps) && 0 < i < |states|
    requires forall j | 0 <= j < |states| :: q < |states[j].queues| && q < |states[j].workers|
    ensures DequeStep(OwnTaken(states, q, i - 1), states[i - 1].queues[q], Pushed(states, q, i - 1),
                      OwnTaken(states, q, i), states[i].queues[q], Pushed(states, q, i))
  {
    hide Next, Can, Shutdown.StopFirst;
    var s, step := states[i - 1], steps[i - 1];
    SameSize(n, states, steps, i - 1);
    QueueDiscipline(s, step, q);
    if s.workers[q].pc == Pop {
      TakesOnlyOwn(s, step, q);
    }
  }

  /** First in, first out for the owner: over a whole run, what a worker has taken from its own queue, followed by
      what is still there, is in the order in which it was pushed. */
  lemma {:induction false} OwnerInOrder(n: nat, states: seq<State>, steps: seq<Step>, q: nat, i: nat)
      returns (idx: seq<nat>)
    requires Trace(n, states, steps) && q < n && i < |states|
    requires forall j | 0 <= j < |states| :: q < |states[j].queues| && q < |states[j].workers|
    ensures Picks(OwnTaken(states, q, i) + states[i].queues[q], idx, Pushed(states, q, i))
  {
    hide Next, Can, DequeStep, Picks, OwnTaken, Pushed;
    if i == 0 {
      NoneYet(n, states, q);
      idx := [];
    } else {
      var before := OwnerInOrder(n, states, steps, q, i - 1);
      Dequeued(n, states, steps, q, i);
      idx := PicksStep(OwnTaken(states, q, i - 1), states[i - 1].queues[q], Pushed(states, q, i - 1),
                       OwnTaken(states, q, i), states[i].queues[q], Pushed(states, q, i), before);
    }
  }

  lemma NoneYet(n: nat, states: seq<State>, q: nat)
    requires 0 < |states| && states[0] == Init(n) && q < n
    requires forall j | 0 <= j < |states| :: q < |states[j].queues| && q < |states[j].workers|
    ensures Picks(OwnTaken(states, q, 0) + states[0].queues[q], [], Pushed(states, q, 0))
  {
  }

  /** A worker goes from the top of run() to a task in hand only by taking from its own queue. */
  lemma TakesOnlyOwn(s: State, step: Step, q: nat)
    requires Can(s, step) && q < |s.queues| == |s.workers| && s.workers[q].pc == Pop
    ensures q < |Next(s, step).workers|
    ensures Next(s, step).workers[q].pc.Got? <==> step == RunStep(q) && s.queues[q] != []
  {
    hide IdleNext, EventNext, BodyNext, CodeNext, CallEffect, StopNext, Issue;
    Shutdown.SameQueues(s, step);
    match step
    case RunStep(w) => OwnPop(s, w, q);
    case IdleStep(u) => IdleFrame(s, u);
    case EventStep(u, e) => EventFrame(s, u, e);
    case BodyStep(u, a) => BodyPcs(s, u, a, q);
    case CodeStep(u) => CodePcs(s, u, q);
    case OutsideStep(i) =>
      CallFrame(s, s.outside[i]);
      Counters.SamePcs(s.workers, Next(s, step).workers);
    case StopStep =>
      StopFrame(s);
      Counters.SamePcs(s.workers, Next(s, step).workers);
    case SubmitStep(what) => IssueFrame(s, what);
    case BlockedStep(_, _) =>
    case ExpiredStep(_) =>
  }

  lemma OwnPop(s: State, w: nat, q: nat)
    requires RunCan(s, w) && q < |s.workers| && s.workers[q].pc == Pop
    ensures |RunNext(s, w).workers| == |s.workers|
    ensures RunNext(s, w).workers[q].pc.Got? <==> w == q && s.queues[q] != []
  {
    if w != q {
      hide RunNext;
      RunFrame(s, w);
    }
  }

  // ----- the eventfds -----

  /** The step writes the eventfd of worker w: a call of submit(), outside or in a fiber, or stop(). */
  predicate Writes(s: State, step: Step, w: nat)
    requires Can(s, step)
  {
    match step
    case OutsideStep(i) => s.outside[i] == WriteEventFd(w)
    case CodeStep(u) => s.fibers[s.workers[u].pc.fiber].pc == Submit(WriteEventFd(w))
    case StopStep => s.stopper.Writing? && s.stopper.index == w
    case _ => false
  }

  /** The worker reads it empty. */
  predicate Reads(step: Step, w: nat) {
    step == EventStep(w, WakeupFd)
  }

  lemma EventFdStep(s: State, step: Step, w: nat)
    requires Can(s, step) && w < |s.workers|
    ensures |Next(s, step).workers| == |s.workers|
    ensures Next(s, step).workers[w].eventfd
         == if Reads(step, w) then 0 else s.workers[w].eventfd + if Writes(s, step, w) then 1 else 0
  {
    hide RunNext, IdleNext, EventNext, BodyNext, CodeNext, OutsideNext, StopNext, Issue;
    Shutdown.SameQueues(s, step);
    match step
    case RunStep(u) => RunFrame(s, u);
    case IdleStep(u) => IdleEventFd(s, u, w);
    case EventStep(u, e) => ReadEventFd(s, u, e, w);
    case BodyStep(u, a) => BodyEventFd(s, u, a, w);
    case CodeStep(u) => CodeEventFd(s, u, w);
    case OutsideStep(i) => CallEventFd(s, i, w);
    case StopStep => StopEventFd(s, w);
    case SubmitStep(what) => IssueFrame(s, what);
    case BlockedStep(_, _) =>
    case ExpiredStep(_) =>
  }

  lemma IdleEventFd(s: State, u: nat, w: nat)
    requires IdleCan(s, u) && w < |s.workers|
    ensures |IdleNext(s, u).workers| == |s.workers| && IdleNext(s, u).workers[w].eventfd == s.workers[w].eventfd
  {
    hide IdleNext, StoppingRead;
    IdleFrame(s, u);
  }

  lemma ReadEventFd(s: State, u: nat, e: Event, w: nat)
    requires EventCan(s, u, e) && w < |s.workers|
    ensures |EventNext(s, u, e).workers| == |s.workers|
    ensures EventNext(s, u, e).workers[w].eventfd == if u == w && e == WakeupFd then 0 else s.workers[w].eventfd
  {
  }

  lemma BodyEventFd(s: State, u: nat, a: Action, w: nat)
    requires BodyCan(s, u, a) && w < |s.workers|
    ensures |BodyNext(s, u, a).workers| == |s.workers| && BodyNext(s, u, a).workers[w].eventfd == s.workers[w].eventfd
  {
    hide Issue;
    if a.CallSubmit? {
      IssueFrame(s, a.what);
    }
  }

  lemma CodeEventFd(s: State, u: nat, w: nat)
    requires CodeCan(s, u) && w < |s.workers|
    ensures |CodeNext(s, u).workers| == |s.workers|
    ensures CodeNext(s, u).workers[w].eventfd
         == s.workers[w].eventfd + if Mine(s, u).pc == Submit(WriteEventFd(w)) then 1 else 0
  {
    hide Register, Unregister, CountIo, Exchange, PushWoken;
    if !Mine(s, u).pc.Submit? {
      PlainEventFd(s, u, w);
    }
  }

  lemma PlainEventFd(s: State, u: nat, w: nat)
    requires CodeCan(s, u) && w < |s.workers| && !Mine(s, u).pc.Submit?
    ensures |CodeNext(s, u).workers| == |s.workers| && CodeNext(s, u).workers[w].eventfd == s.workers[w].eventfd
  {
  }

  lemma CallEventFd(s: State, i: nat, w: nat)
    requires OutsideCan(s, i) && w < |s.workers|
    ensures |OutsideNext(s, i).workers| == |s.workers|
    ensures OutsideNext(s, i).workers[w].eventfd
         == s.workers[w].eventfd + if s.outside[i] == WriteEventFd(w) then 1 else 0
  {
  }

  lemma StopEventFd(s: State, w: nat)
    requires w < |s.workers|
    ensures |StopNext(s).workers| == |s.workers|
    ensures StopNext(s).workers[w].eventfd
         == s.workers[w].eventfd + if s.stopper.Writing? && s.stopper.index == w then 1 else 0
  {
    hide StoppingRead;
  }

  /** At instant i the eventfd of worker w has been written after it was last read. */
  ghost predicate Unread(states: seq<State>, steps: seq<Step>, w: nat, i: nat)
    requires |states| == |steps| + 1 && i < |states|
    requires forall j | 0 <= j < |steps| :: Can(states[j], steps[j])
  {
    exists j :: 0 <= j < i && Writes(states[j], steps[j], w) && forall k | j < k < i :: !Reads(steps[k], w)
  }

  /** An eventfd is readable exactly when it has been written since it was last read. */
  lemma {:induction false} ReadableIfWritten(n: nat, states: seq<State>, steps: seq<Step>, w: nat, i: nat)
    requires Trace(n, states, steps) && w < n && i < |states|
    ensures w < |states[i].workers| && (0 < states[i].workers[w].eventfd <==> Unread(states, steps, w, i))
  {
    hide Next, Can, Writes, Shutdown.StopFirst;
    SameSize(n, states, steps, i);
    if 0 < i {
      ReadableIfWritten(n, states, steps, w, i - 1);
      EventFdStep(states[i - 1], steps[i - 1], w);
      if Unread(states, steps, w, i - 1) {
        var j :| 0 <= j < i - 1 && Writes(states[j], steps[j], w) && forall k | j < k < i - 1 :: !Reads(steps[k], w);
        if !Reads(steps[i - 1], w) {
          assert Writes(states[j], steps[j], w) && forall k | j < k < i :: !Reads(steps[k], w);
        }
      }
      if Writes(states[i - 1], steps[i - 1], w) {
        WritesNotReads(states[i - 1], steps[i - 1], w);
      }
    }
  }

  lemma WritesNotReads(s: State, step: Step, w: nat)
    requires Can(s, step) && Writes(s, step, w)
    ensures !Reads(step, w)
  {
  }

  // ----- submit() -----

  /** At instant j call i pushed on queue q. */
  predicate PushedAt(states: seq<State>, steps: seq<Step>, i: nat, q: nat, j: nat) {
    j < |states| && j < |steps| && steps[j] == OutsideStep(i) && i < |states[j].outside| && q < |states[j].queues|
    && states[j].outside[i].Push? && states[j].outside[i].queue == q
  }

  /** At instant j call i saw worker q idling. */
  predicate SawIdling(states: seq<State>, steps: seq<Step>, i: nat, q: nat, j: nat) {
    j < |states| && j < |steps| && steps[j] == OutsideStep(i) && q < |states[j].workers| && states[j].workers[q].idling
  }

  lemma CallStep(s: State, step: Step, i: nat)
    requires Can(s, step) && i < |Next(s, step).outside|
    ensures i < |s.outside| && step != OutsideStep(i) ==> Next(s, step).outside[i] == s.outside[i]
    ensures step == OutsideStep(i) ==>
              i < |s.outside| && CallCan(s, s.outside[i]) && Next(s, step).outside[i] == CallNext(s, s.outside[i])
    ensures |s.outside| <= i ==> Next(s, step).outside[i].Push?
  {
    hide RunNext, IdleNext, EventNext, CodeNext, CallEffect, StopNext, Issue, CallNext;
    match step
    case RunStep(u) => RunFrame(s, u);
    case IdleStep(u) => IdleFrame(s, u);
    case EventStep(u, e) => EventFrame(s, u, e);
    case BodyStep(u, a) => BodyCalls(s, u, a);
    case CodeStep(u) => CodeFrame(s, u);
    case OutsideStep(k) => CallFrame(s, s.outside[k]);
    case StopStep => StopFrame(s);
    case SubmitStep(what) => IssueFrame(s, what);
    case BlockedStep(_, _) =>
    case ExpiredStep(_) =>
  }

  lemma BodyCalls(s: State, u: nat, a: Action)
    requires BodyCan(s, u, a)
    ensures BodyNext(s, u, a).outside == s.outside
  {
    hide Issue;
    if a.CallSubmit? {
      IssueFrame(s, a.what);
    }
  }

  lemma CallMeans(s: State, p: SubmitPc)
    requires CallCan(s, p)
    ensures CallNext(s, p).Tickle? ==>
              p.Push? && p.queue == CallNext(s, p).queue && (CallNext(s, p).needTickle <==> s.queues[p.queue] == [])
    ensures CallNext(s, p).WriteEventFd? ==>
              p == Tickle(CallNext(s, p).queue, true) && s.workers[p.queue].idling
    ensures !CallNext(s, p).Push?
  {
  }

  /** A call of submit() tickles only the worker whose queue it found empty when it pushed, and writes its eventfd only
      if it then saw it idling. */
  lemma {:induction false} SubmitTickles(n: nat, states: seq<State>, steps: seq<Step>, i: nat, k: nat)
    requires Trace(n, states, steps) && k < |states| && i < |states[k].outside|
    ensures states[k].outside[i].Tickle? ==>
              exists j :: 0 <= j < k && PushedAt(states, steps, i, states[k].outside[i].queue, j)
                && (states[k].outside[i].needTickle <==> states[j].queues[states[k].outside[i].queue] == [])
    ensures states[k].outside[i].WriteEventFd? ==>
              exists j, l :: 0 <= j < l < k && PushedAt(states, steps, i, states[k].outside[i].queue, j)
                && states[j].queues[states[k].outside[i].queue] == []
                && SawIdling(states, steps, i, states[k].outside[i].queue, l)
  {
    hide Next, Can, CallNext, CallCan;
    if 0 < k {
      var s, step := states[k - 1], steps[k - 1];
      CallStep(s, step, i);
      if i < |s.outside| {
        SubmitTickles(n, states, steps, i, k - 1);
        if step == OutsideStep(i) {
          CallMeans(s, s.outside[i]);
          InBounds(s, s.outside[i]);
          if states[k].outside[i].Tickle? {
            assert PushedAt(states, steps, i, states[k].outside[i].queue, k - 1);
          } else if states[k].outside[i].WriteEventFd? {
            var q := states[k].outside[i].queue;
            var j :| 0 <= j < k - 1 && PushedAt(states, steps, i, q, j) && states[j].queues[q] == [];
            assert SawIdling(states, steps, i, q, k - 1);
          }
        }
      }
    }
  }

  lemma InBounds(s: State, p: SubmitPc)
    requires CallCan(s, p)
    ensures !p.Returned? && p.queue < |s.queues| == |s.workers|
  {
  }

  /** The step begins a call of submit(). */
  predicate Issues(step: Step) {
    step.SubmitStep? || (step.BodyStep? && step.action.CallSubmit?)
  }

  ghost function Issued(steps: seq<Step>): nat {
    if steps == [] then 0 else Issued(steps[..|steps| - 1]) + if Issues(steps[|steps| - 1]) then 1 else 0
  }

  lemma PostStep(s: State, step: Step)
    requires Can(s, step)
    ensures Next(s, step).post == s.post + if Issues(step) then 1 else 0
  {
    hide RunNext, IdleNext, EventNext, CodeNext, CallEffect, StopNext;
    match step
    case RunStep(u) => RunFrame(s, u);
    case IdleStep(u) => IdleFrame(s, u);
    case EventStep(u, e) => EventFrame(s, u, e);
    case CodeStep(u) => CodeFrame(s, u);
    case OutsideStep(k) => CallFrame(s, s.outside[k]);
    case StopStep => StopFrame(s);
    case BodyStep(_, _) =>
    case SubmitStep(_) =>
    case BlockedStep(_, _) =>
    case ExpiredStep(_) =>
  }

  /** The calls of submit(), from outside and from fibers together, go to the queues in turn. */
  lemma {:induction false} SubmitsInTurn(n: nat, states: seq<State>, steps: seq<Step>, k: nat)
    requires Trace(n, states, steps) && k <= |steps|
    ensures states[k].post == Issued(steps[..k])
    ensures k < |steps| && steps[k].SubmitStep? ==>
              && |states[k + 1].outside| == |states[k].outside| + 1
              && states[k + 1].outside[|states[k].outside|].Push?
              && states[k + 1].outside[|states[k].outside|].queue == Issued(steps[..k]) % n
    ensures k < |steps| && Issues(steps[k]) && steps[k].BodyStep? ==>
              && InFiber(states[k + 1], steps[k].w) && Mine(states[k + 1], steps[k].w).pc.Submit?
              && Mine(states[k + 1], steps[k].w).pc.call.Push?
              && Mine(states[k + 1], steps[k].w).pc.call.queue == Issued(steps[..k]) % n
  {
    hide Next, Can;
    if 0 < k {
      SubmitsInTurn(n, states, steps, k - 1);
      assert steps[..k][..k - 1] == steps[..k - 1];
      PostStep(states[k - 1], steps[k - 1]);
    }
    if k < |steps| && Issues(steps[k]) {
      SameSize(n, states, steps, k);
      IssuedTo(states[k], steps[k]);
    }
  }

  lemma IssuedTo(s: State, step: Step)
    requires Can(s, step) && Issues(step) && 0 < |s.queues|
    ensures step.SubmitStep? ==>
              && |Next(s, step).outside| == |s.outside| + 1 && Next(s, step).outside[|s.outside|].Push?
              && Next(s, step).outside[|s.outside|].queue == s.post % |s.queues|
    ensures step.BodyStep? ==>
              && InFiber(Next(s, step), step.w) && Mine(Next(s, step), step.w).pc.Submit?
              && Mine(Next(s, step), step.w).pc.call.Push?
              && Mine(Next(s, step), step.w).pc.call.queue == s.post % |s.queues|
  {
  }

  // ----- stop() -----

  /** stop() has not yet come past worker w in its round. */
  predicate Before(p: StopPc, w: nat) {
    (p.Tickling? || p.Writing?) && p.index == w
  }

  /** A worker that is inside epoll_wait when stop() comes to it, and still is when stop() has gone on, has a readable
      eventfd: stop() wakes it. */
  lemma {:induction false} StopWakes(n: nat, states: seq<State>, steps: seq<Step>, w: nat, i: nat, j: nat)
    requires Trace(n, states, steps) && w < n && i <= j < |states|
    requires Before(states[i].stopper, w) && !Before(states[j].stopper, w)
    requires forall k | i <= k <= j :: w < |states[k].workers| && states[k].workers[w].pc == IdleWait
    ensures 0 < states[j].workers[w].eventfd
  {
    hide Next, Can, Writes, Before, Shutdown.StopFirst;
    var s, step := states[j - 1], steps[j - 1];
    SameSize(n, states, steps, j - 1);
    EventFdStep(s, step, w);
    StaysUnread(s, step, w);
    if Before(s.stopper, w) {
      Woken(n, states, steps, w, j);
    } else {
      StopWakes(n, states, steps, w, i, j - 1);
    }
  }

  lemma StaysUnread(s: State, step: Step, w: nat)
    requires Can(s, step) && w < |s.workers| && s.workers[w].pc == IdleWait
    ensures !Reads(step, w)
  {
  }

  /** The step with which stop() goes past a worker in epoll_wait is its write. */
  lemma Woken(n: nat, states: seq<State>, steps: seq<Step>, w: nat, j: nat)
    requires Trace(n, states, steps) && w < n && 0 < j < |states|
    requires Before(states[j - 1].stopper, w) && !Before(states[j].stopper, w)
    requires w < |states[j - 1].workers| && states[j - 1].workers[w].pc == IdleWait
    ensures Writes(states[j - 1], steps[j - 1], w)
  {
    hide Next, Can;
    var s, step := states[j - 1], steps[j - 1];
    TraceReachable(n, states, steps, j - 1);
    IdlingMeansPolling(n, s, w);
    if step.StopStep? {
      StopPasses(s, w);
    } else {
      SameStopper(s, step);
    }
  }

  lemma StopPasses(s: State, w: nat)
    requires w < |s.workers| && s.workers[w].idling && Before(s.stopper, w)
    requires !Before(Next(s, StopStep).stopper, w)
    ensures Writes(s, StopStep, w)
  {
    hide StoppingRead;
  }
}

/** Building runs of the scheduler step by step, from any state. */
module Runs {
  import opened Options
  import opened Machine

  lemma Stay(b: State)
    ensures Leads(b, b)
  {
    assert Reaches(b, [], b);
  }

  lemma {:induction false} ReachesMore(s: State, steps: seq<Step>, s': State, step: Step)
    requires Reaches(s, steps, s') && Can(s', step)
    ensures Reaches(s, steps + [step], Next(s', step))
    decreases |steps|
  {
    hide Next, Can;
    if steps != [] {
      assert (steps + [step])[1..] == steps[1..] + [step];
      ReachesMore(Next(s, steps[0]), steps[1..], s', step);
    }
  }

  lemma Take(b: State, s: State, step: Step) returns (s': State)
    requires Leads(b, s) && Can(s, step)
    ensures s' == Next(s, step) && Leads(b, s')
  {
    hide Next, Can;
    var steps :| Reaches(b, steps, s);
    ReachesMore(b, steps, s, step);
    s' := Next(s, step);
  }

  predicate NoWork(s: State) {
    && |s.queues| == |s.workers| && s.stop && s.active == 0 && s.pending == 0
    && forall q | 0 <= q < |s.queues| :: s.queues[q] == []
  }

  /** With every queue empty, a worker at the top of run() comes to the end of its steal pass. */
  lemma ScanAll(b: State, s: State, w: nat) returns (s': State)
    requires Leads(b, s) && w < |s.workers| == |s.queues| && s.workers[w].pc == Pop
    requires forall q | 0 <= q < |s.queues| :: s.queues[q] == []
    ensures Leads(b, s') && s' == Goto(s, w, Steal(|s.workers|))
  {
    hide Victim, Leads;
    s' := Take(b, s, RunStep(w));
    var i := 1;
    while i < |s.workers|
      invariant 1 <= i <= |s.workers|
      invariant Leads(b, s') && s' == Goto(s, w, Steal(i))
    {
      s' := Take(b, s', RunStep(w));
      i := i + 1;
    }
  }

  /** With stop_ set, both counters zero and every queue empty, an idle fiber that enters its loop terminates. */
  lemma IdleEnds(b: State, s: State, w: nat) returns (s': State)
    requires Leads(b, s) && NoWork(s) && w < |s.workers| && s.workers[w].pc == IdleSet
    ensures Leads(b, s')
    ensures s' == SetWorker(s, w, s.workers[w].(pc := Pop, idle := Term, idling := false))
  {
    hide Leads;
    var me := s.workers[w].(idling := true);
    s' := Take(b, s, IdleStep(w));
    var read := 0;
    while read < |s.queues| + 3
      invariant 0 <= read <= |s.queues| + 3
      invariant Leads(b, s') && s' == SetWorker(s, w, me.(pc := IdleStopping(false, read)))
    {
      s' := Take(b, s', IdleStep(w));
      read := read + 1;
    }
    s' := Take(b, s', IdleStep(w));
    assert s' == SetWorker(s, w, me.(pc := IdleQuit));
    s' := Take(b, s', IdleStep(w));
  }

  /** From the top of run() with nothing to do, a worker's idle fiber terminates. */
  lemma IdleRunEnds(b: State, s: State, w: nat) returns (s': State)
    requires Leads(b, s) && NoWork(s) && w < |s.workers| && s.workers[w].pc == Pop && !s.workers[w].IdleTerm()
    ensures Leads(b, s') && NoWork(s')
    ensures s' == SetWorker(s, w, s.workers[w].(idle := Term, idling := false))
  {
    hide Leads, NoWork, Victim;
    Quiet(s);
    s' := ScanAll(b, s, w);
    s' := Take(b, s', RunStep(w));
    assert s' == SetWorker(s, w, s.workers[w].(pc := IdleSet, idle := Running));
    SameQuiet(s, s');
    s' := IdleEnds(b, s', w);
    SameQuiet(s, s');
  }

  lemma Quiet(s: State)
    requires NoWork(s)
    ensures |s.queues| == |s.workers| && forall q | 0 <= q < |s.queues| :: s.queues[q] == []
  {
  }

  lemma SameQuiet(s: State, s': State)
    requires NoWork(s) && s' == s.(workers := s'.workers) && |s'.workers| == |s.workers|
    ensures NoWork(s')
  {
  }

  /** With nothing to take and stop_ not set, a worker at the top of run() comes to block in epoll_wait, idling. */
  lemma ComesToPoll(b: State, s: State, w: nat) returns (s': State)
    requires Leads(b, s) && At(s, w) && s.workers[w].pc == Pop && !s.workers[w].IdleTerm() && !s.stop
    requires forall q | 0 <= q < |s.queues| :: s.queues[q] == []
    ensures Leads(b, s')
    ensures s' == SetWorker(s, w, s.workers[w].(pc := IdleWait, idle := Running, idling := true))
  {
    hide Leads, Victim;
    s' := ScanAll(b, s, w);
    s' := Take(b, s', RunStep(w));
    assert s' == SetWorker(s, w, s.workers[w].(pc := IdleSet, idle := Running));
    s' := Asks(b, s', w);
    s' := Take(b, s', IdleStep(w));
  }

  /** stop_ not being set, the idle fiber goes on to look at its queue. */
  lemma Asks(b: State, s: State, w: nat) returns (s': State)
    requires Leads(b, s) && At(s, w) && s.workers[w].pc == IdleSet && !s.stop
    ensures Leads(b, s') && s' == SetWorker(s, w, s.workers[w].(pc := IdleHas, idling := true))
  {
    hide Leads;
    s' := Take(b, s, IdleStep(w));
    assert s' == SetWorker(s, w, s.workers[w].(pc := IdleStopping(false, 0), idling := true));
    s' := Take(b, s', IdleStep(w));
  }

  /** With a task in its queue the idle fiber yields, without polling, and run() takes the task. */
  lemma TakesInstead(b: State, s: State, w: nat) returns (s': State)
    requires Leads(b, s) && At(s, w) && s.workers[w].pc == IdleHas && s.queues[w] != []
    ensures Leads(b, s')
    ensures s' == SetQueue(SetWorker(s, w, s.workers[w].(pc := Got(s.queues[w][0]), idle := FiberState.Ready,
                                                            idling := false)), w, s.queues[w][1..])
  {
    hide Leads;
    s' := Take(b, s, IdleStep(w));
    assert s' == SetWorker(s, w, s.workers[w].(pc := IdleBack));
    s' := Take(b, s', IdleStep(w));
    assert s' == SetWorker(s, w, s.workers[w].(pc := Pop, idle := FiberState.Ready, idling := false));
    s' := Take(b, s', RunStep(w));
  }

  /** epoll_wait returns, and the worker comes to its events with `idling` cleared. */
  lemma PollReturns(b: State, s: State, w: nat) returns (s': State)
    requires Leads(b, s) && At(s, w) && s.workers[w].pc == IdleWait
    ensures Leads(b, s') && s' == SetWorker(s, w, s.workers[w].(pc := IdleEvents, idling := false))
  {
    hide Leads;
    s' := Take(b, s, IdleStep(w));
    assert s' == SetWorker(s, w, s.workers[w].(pc := IdleClear));
    s' := Take(b, s', IdleStep(w));
  }

  /** An event on a slot bound to the worker queues the callback installed there on the worker's own queue. */
  lemma EventQueues(b: State, s: State, w: nat, slot: Slot) returns (s': State)
    requires Leads(b, s) && At(s, w) && s.workers[w].pc == IdleEvents
    requires slot.fd in s.home && s.home[slot.fd] == w && slot in s.callbacks
    ensures Leads(b, s') && s' == SetQueue(s, w, s.queues[w] + [Wake(s.callbacks[slot])])
  {
    hide Leads;
    s' := Take(b, s, EventStep(w, Activity(slot)));
    assert s' == SetWorker(s, w, s.workers[w].(pc := IdlePush(s.callbacks[slot])));
    s' := Take(b, s', IdleStep(w));
  }

  /** After the last event, with stop_ set, both counters zero and every queue empty, the idle fiber terminates. */
  lemma EventsEnd(b: State, s: State, w: nat) returns (s': State)
    requires Leads(b, s) && NoWork(s) && w < |s.workers| && s.workers[w].pc == IdleEvents
    ensures Leads(b, s') && s' == SetWorker(s, w, s.workers[w].(pc := Pop, idle := Term))
  {
    hide Leads;
    s' := Take(b, s, EventStep(w, NoMore));
    var read := 0;
    while read < |s.queues| + 3
      invariant 0 <= read <= |s.queues| + 3
      invariant Leads(b, s') && s' == SetWorker(s, w, s.workers[w].(pc := IdleStopping(true, read)))
    {
      s' := Take(b, s', IdleStep(w));
      read := read + 1;
    }
    s' := Take(b, s', IdleStep(w));
  }

  /** After the last event, stop_ not being set, the idle fiber yields to run(). */
  lemma EventsOver(b: State, s: State, w: nat) returns (s': State)
    requires Leads(b, s) && At(s, w) && s.workers[w].pc == IdleEvents && !s.stop
    ensures Leads(b, s') && s' == SetWorker(s, w, s.workers[w].(pc := Pop, idle := FiberState.Ready))
  {
    hide Leads;
    s' := Take(b, s, EventStep(w, NoMore));
    assert s' == SetWorker(s, w, s.workers[w].(pc := IdleStopping(true, 0)));
    s' := Take(b, s', IdleStep(w));
  }

  // ----- stop() -----

  /** The workers after stop() has tickled those below k. */
  ghost predicate Tickled(s: State, s': State, k: nat) {
    && |s'.workers| == |s.workers| && s' == s.(workers := s'.workers, stopper := s'.stopper)
    && (forall w | 0 <= w < |s.workers| ::
          s'.workers[w] == if w < k && s.workers[w].idling then s.workers[w].(eventfd := s.workers[w].eventfd + 1)
                           else s.workers[w])
  }

  /** One round of stop(): it writes the eventfd of every worker it sees idling, and of no other. */
  lemma TicklesAll(b: State, s: State, last: bool) returns (s': State)
    requires Leads(b, s) && s.stopper == Tickling(0, last)
    ensures Leads(b, s') && Tickled(s, s', |s.workers|)
    ensures s'.stopper == if last then Joining else Checking(0)
  {
    hide Leads, Tickled;
    NoneTickled(s);
    s' := s;
    var k := 0;
    while k < |s.workers|
      invariant 0 <= k <= |s.workers| && Leads(b, s') && Tickled(s, s', k) && s'.stopper == Tickling(k, last)
    {
      s' := TicklesOne(b, s, s', k, last);
      k := k + 1;
    }
    RoundOver(s, s', last);
    s' := Take(b, s', StopStep);
  }

  lemma NoneTickled(s: State)
    ensures Tickled(s, s, 0)
  {
  }

  lemma RoundOver(s: State, s1: State, last: bool)
    requires Tickled(s, s1, |s.workers|) && s1.stopper == Tickling(|s.workers|, last)
    ensures Can(s1, StopStep) && Tickled(s, Next(s1, StopStep), |s.workers|)
    ensures Next(s1, StopStep).stopper == if last then Joining else Checking(0)
  {
  }

  lemma TicklesOne(b: State, s: State, s1: State, k: nat, last: bool) returns (s2: State)
    requires Leads(b, s1) && k < |s.workers| && Tickled(s, s1, k) && s1.stopper == Tickling(k, last)
    ensures Leads(b, s2) && Tickled(s, s2, k + 1) && s2.stopper == Tickling(k + 1, last)
  {
    hide Leads;
    s2 := Take(b, s1, StopStep);
    if s1.workers[k].idling {
      s2 := Take(b, s2, StopStep);
    }
  }

  /** With stop_ set, both counters zero and every queue empty, stop() gets its "yes", tickles once more and joins. */
  lemma StopEnds(b: State, s: State) returns (s': State)
    requires Leads(b, s) && NoWork(s) && s.stopper == Checking(0)
    ensures Leads(b, s') && s'.stopper == Joining && Tickled(s, s', |s.workers|)
  {
    hide Leads;
    s' := s;
    var read := 0;
    while read < |s.queues| + 3
      invariant 0 <= read <= |s.queues| + 3 && Leads(b, s') && s' == s.(stopper := Checking(read))
    {
      s' := Take(b, s', StopStep);
      read := read + 1;
    }
    s' := Take(b, s', StopStep);
    var s1 := s';
    s' := TicklesAll(b, s1, true);
    assert s1 == s.(stopper := s1.stopper);
  }

  // ----- a worker and one task, from the top of run() to the top of run() -----

  /** A callback in hand gets a fiber and starts. */
  lemma Begins(b: State, s: State, w: nat) returns (s': State)
    requires Leads(b, s) && At(s, w) && s.workers[w].pc.Got? && !s.workers[w].pc.task.Resume?
    ensures Leads(b, s')
    ensures var t := s.workers[w].pc.task;
            s' == Goto(s, w, Run(|s.fibers|)).(active := s.active + 1,
                                               fibers := s.fibers
                                                         + [Fiber(Running, FirstPc(t), Some(w), true, Some(t))])
  {
    hide Leads;
    s' := Take(b, s, RunStep(w));
    assert s' == Goto(s, w, Counted(s.workers[w].pc.task)).(active := s.active + 1);
    s' := Take(b, s', RunStep(w));
    s' := Take(b, s', RunStep(w));
  }

  /** A fiber in hand is locked and resumed. */
  lemma Resumes(b: State, s: State, w: nat, f: nat) returns (s': State)
    requires Leads(b, s) && At(s, w) && s.workers[w].pc == Got(Resume(f)) && f < |s.fibers|
    requires s.fibers[f].lockedBy == None && s.fibers[f].state != Term
    ensures Leads(b, s')
    ensures s' == Goto(s, w, Run(f)).(active := s.active + 1,
                                      fibers := s.fibers[f := Resumed(s.fibers[f]).(lockedBy := Some(w))])
  {
    hide Leads;
    s' := Take(b, s, RunStep(w));
    assert s' == Goto(s, w, Counted(Resume(f))).(active := s.active + 1);
    s' := Take(b, s', RunStep(w));
    assert s' == Goto(s, w, Locked(f))
                 .(active := s.active + 1, fibers := s.fibers[f := s.fibers[f].(lockedBy := Some(w))]);
    s' := Take(b, s', RunStep(w));
  }

  lemma Frees(b: State, s: State, w: nat, f: nat) returns (s': State)
    requires Leads(b, s) && At(s, w) && s.workers[w].pc == Unlock(f) && f < |s.fibers|
    ensures Leads(b, s')
    ensures s' == Goto(s, w, Pop).(active := s.active - 1, fibers := s.fibers[f := s.fibers[f].(lockedBy := None)])
  {
    hide Leads;
    s' := Take(b, s, RunStep(w));
    assert s' == Goto(s, w, Uncount).(fibers := s.fibers[f := s.fibers[f].(lockedBy := None)]);
    s' := Take(b, s', RunStep(w));
  }

  /** The callback of the fiber has returned. */
  lemma Ends(b: State, s: State, w: nat, f: nat) returns (s': State)
    requires Leads(b, s) && At(s, w) && s.workers[w].pc == Run(f) && f < |s.fibers| && s.fibers[f].pc == Ending
    ensures Leads(b, s')
    ensures s' == Goto(s, w, Pop).(active := s.active - 1,
                                   fibers := s.fibers[f := s.fibers[f].(state := Term, pc := Done, lockedBy := None)])
  {
    hide Leads;
    s' := Take(b, s, CodeStep(w));
    assert s' == Goto(s, w, Back(f, Term)).(fibers := s.fibers[f := s.fibers[f].(state := Term, pc := Done)]);
    s' := Take(b, s', RunStep(w));
    assert s' == Goto(s, w, Unlock(f)).(fibers := s.fibers[f := s.fibers[f].(state := Term, pc := Done)]);
    s' := Frees(b, s', w, f);
  }

  lemma Returns(b: State, s: State, w: nat, f: nat) returns (s': State)
    requires Leads(b, s) && At(s, w) && s.workers[w].pc == Run(f) && f < |s.fibers| && s.fibers[f].pc == Body
    ensures Leads(b, s')
    ensures s' == Goto(s, w, Pop).(active := s.active - 1,
                                   fibers := s.fibers[f := s.fibers[f].(state := Term, pc := Done, lockedBy := None)])
  {
    hide Leads;
    s' := Take(b, s, BodyStep(w, Return));
    assert s' == s.(fibers := s.fibers[f := s.fibers[f].(pc := Ending)]);
    s' := Ends(b, s', w, f);
  }

  lemma Yields(b: State, s: State, w: nat, f: nat) returns (s': State)
    requires Leads(b, s) && At(s, w) && s.workers[w].pc == Run(f) && f < |s.fibers| && s.fibers[f].pc == Body
    ensures Leads(b, s')
    ensures s' == Goto(s, w, Pop).(active := s.active - 1, queues := s.queues[w := s.queues[w] + [Resume(f)]],
                                   fibers := s.fibers[f := s.fibers[f].(state := FiberState.Ready, lockedBy := None)])
  {
    hide Leads;
    var x := s.fibers[f].(state := FiberState.Ready);
    s' := Take(b, s, BodyStep(w, Yield));
    assert s' == Goto(s, w, Back(f, FiberState.Ready)).(fibers := s.fibers[f := x]);
    s' := Take(b, s', RunStep(w));
    assert s' == Goto(s, w, Requeue(f)).(fibers := s.fibers[f := x]);
    s' := Requeues(b, s', w, f);
  }

  lemma Requeues(b: State, s: State, w: nat, f: nat) returns (s': State)
    requires Leads(b, s) && At(s, w) && s.workers[w].pc == Requeue(f) && f < |s.fibers|
    ensures Leads(b, s')
    ensures s' == Goto(s, w, Pop).(active := s.active - 1, queues := s.queues[w := s.queues[w] + [Resume(f)]],
                                   fibers := s.fibers[f := s.fibers[f].(lockedBy := None)])
  {
    hide Leads;
    s' := Take(b, s, RunStep(w));
    assert s' == Goto(s, w, Unlock(f)).(queues := s.queues[w := s.queues[w] + [Resume(f)]]);
    s' := Frees(b, s', w, f);
  }

  /** Back in run() after hold(). */
  lemma Holds(b: State, s: State, w: nat, f: nat, slot: Slot, k: nat) returns (s': State)
    requires Leads(b, s) && At(s, w) && s.workers[w].pc == Run(f) && f < |s.fibers| && s.fibers[f].pc == IoHold(slot, k)
    ensures Leads(b, s')
    ensures s' == Goto(s, w, Pop)
                  .(active := s.active - 1,
                    fibers := s.fibers[f := s.fibers[f].(state := Hold, pc := IoHeld(slot, k), lockedBy := None)])
  {
    hide Leads;
    var x := s.fibers[f].(state := Hold, pc := IoHeld(slot, k));
    s' := Take(b, s, CodeStep(w));
    assert s' == Goto(s, w, Back(f, Hold)).(fibers := s.fibers[f := x]);
    s' := Take(b, s', RunStep(w));
    assert s' == Goto(s, w, Unlock(f)).(fibers := s.fibers[f := x]);
    s' := Frees(b, s', w, f);
  }

  /** The state in which the fiber that runs on worker w has registered a wait and is about to hold. */
  function Registered(s: State, w: nat, f: nat, slot: Slot): State
    requires f < |s.fibers|
  {
    var k := |s.waits|;
    s.(pending := s.pending + 1,
       fibers := s.fibers[f := s.fibers[f].(pc := IoHold(slot, k))],
       waits := s.waits + [Wait(f, slot, false)],
       callbacks := s.callbacks[slot := k],
       displaced := s.displaced + Displaces(s, slot, k),
       home := if slot.fd in s.home then s.home else s.home[slot.fd := w])
  }

  lemma Registers(b: State, s: State, w: nat, f: nat, slot: Slot) returns (s': State)
    requires Leads(b, s) && At(s, w) && s.workers[w].pc == Run(f) && f < |s.fibers| && s.fibers[f].pc == Body
    ensures Leads(b, s') && s' == Registered(s, w, f, slot)
  {
    hide Leads;
    var k := |s.waits|;
    s' := Take(b, s, BodyStep(w, Block(slot)));
    assert s'.fibers == s.fibers[f := s.fibers[f].(pc := IoRegister(slot, k))];
    s' := Take(b, s', CodeStep(w));
    assert s'.fibers == s.fibers[f := s.fibers[f].(pc := IoCount(slot, k))];
    s' := Take(b, s', CodeStep(w));
  }

  lemma Parks(b: State, s: State, w: nat, f: nat, slot: Slot) returns (s': State)
    requires Leads(b, s) && At(s, w) && s.workers[w].pc == Run(f) && f < |s.fibers| && s.fibers[f].pc == Body
    ensures Leads(b, s')
    ensures s' == Goto(Registered(s, w, f, slot), w, Pop)
                  .(active := s.active - 1,
                    fibers := s.fibers[f := s.fibers[f]
                                            .(state := Hold, pc := IoHeld(slot, |s.waits|), lockedBy := None)])
  {
    hide Leads;
    s' := Registers(b, s, w, f, slot);
    s' := Holds(b, s', w, f, slot, |s.waits|);
  }
}

/** Runs of a shutdown that leave a task behind, and one that abandons a queue and still comes to its task. */
module Losses {
  import opened Options
  import opened Machine
  import opened Scheduler
  import opened Shutdown
  import opened Runs

  // ----- a push that comes too late -----

  /** A thread outside the pool that submits after stop() can leave a task that no worker will ever take. */
  lemma LateSubmitIsLost()
    ensures exists s :: Reachable(1, s) && AllExited(s) && s.queues == [[Job(0)]]
  {
    hide Leads;
    var b := Init(1);
    Stay(b);
    var s := Take(b, b, StopStep);
    s := IdleRunEnds(b, s, 0);
    s := ScanAll(b, s, 0);
    s := Take(b, s, RunStep(0));
    s := LatePush(b, s);
  }

  lemma LatePush(b: State, s: State) returns (s': State)
    requires Leads(b, s) && s.workers == [Worker(Exited, Term, false, 0)] && s.queues == [[]]
    requires s.outside == [] && s.post == 0 && s.jobs == 0
    ensures Leads(b, s') && s'.workers == s.workers && s'.queues == [[Job(0)]]
  {
    hide Leads;
    assert 0 % 1 == 0;
    s' := Take(b, s, SubmitStep(NewJob));
    assert s'.outside == [Push(0, Job(0))] && s'.queues == [[]];
    s' := Take(b, s', OutsideStep(0));
    assert |s'.queues| == 1 && s'.queues[0] == [Job(0)];
  }

  // ----- a try_lock lost to the caller of stop() -----

  /** Two workers: worker 1 holds the only task, popped but not counted. The one push from outside is over. */
  lemma TaskInHand(b: State) returns (s: State)
    requires b == Init(2)
    ensures Leads(b, s)
    ensures s == b.(workers := [Worker(Pop, FiberState.Ready, false, 0),
                                Worker(Got(Job(0)), FiberState.Ready, false, 0)],
                    outside := [Tickle(0, true)], jobs := 1, post := 1)
  {
    hide Leads;
    Stay(b);
    assert 0 % 2 == 0;
    s := Take(b, b, SubmitStep(NewJob));
    assert s.outside == [Push(0, Job(0))] && s.queues == [[], []];
    s := Take(b, s, OutsideStep(0));
    assert |s.queues| == 2 && s.queues[0] == [Job(0)] && s.queues[1] == [];
    assert s.queues == [[Job(0)], []] && s.outside == [Tickle(0, true)];
    s := Take(b, s, RunStep(1));
    assert s.workers == [Worker(Pop, FiberState.Ready, false, 0), Worker(Steal(1), FiberState.Ready, false, 0)];
    assert Victim(2, 1, 1) == 0;
    s := Take(b, s, RunStep(1));
    assert |s.queues| == 2 && s.queues[0] == [] && s.queues[1] == [];
  }

  /** stop() sets its flag, tickles nobody, and reads up to queue 1, whose mutex its caller then holds. */
  lemma StopperReads(b: State, s: State) returns (s': State)
    requires Leads(b, s) && |s.workers| == |s.queues| == 2 && s.stopper == Off && s.active == 0 && s.pending == 0
    requires s.queues[0] == [] && !s.workers[0].idling && !s.workers[1].idling
    ensures Leads(b, s') && s' == s.(stop := true, stopper := Checking(4))
  {
    hide Leads;
    s' := Take(b, s, StopStep);
    s' := Take(b, s', StopStep);
    s' := Take(b, s', StopStep);
    s' := Take(b, s', StopStep);
    assert s' == s.(stop := true, stopper := Checking(0));
    s' := Take(b, s', StopStep);
    s' := Take(b, s', StopStep);
    s' := Take(b, s', StopStep);
    s' := Take(b, s', StopStep);
  }

  /** Worker 0 steals the only task of queue 1. */
  lemma Steals(b: State, s: State, t: Task) returns (s': State)
    requires Leads(b, s) && |s.workers| == |s.queues| == 2 && s.queues == [[], [t]] && s.workers[0].pc == Pop
    ensures Leads(b, s')
    ensures s' == Goto(s, 0, Got(t)).(queues := [[], []])
  {
    hide Leads;
    s' := Take(b, s, RunStep(0));
    assert Victim(2, 0, 1) == 1;
    s' := Take(b, s', RunStep(0));
  }

  /** Fiber 0, on worker 0, submits a callback, which goes to queue 1. */
  lemma Submits(b: State, s: State) returns (s': State)
    requires Leads(b, s) && |s.workers| == |s.queues| == 2 && s.post == 1 && s.jobs == 1
    requires s.queues[1] == [] && s.workers[0].pc == Run(0) && !s.workers[1].idling
    requires |s.fibers| == 1 && s.fibers[0].pc == Body
    ensures Leads(b, s') && s' == s.(queues := s.queues[1 := [Job(1)]], post := 2, jobs := 2)
  {
    hide Leads;
    assert 1 % 2 == 1;
    s' := Take(b, s, BodyStep(0, CallSubmit(NewJob)));
    assert s'.fibers[0].pc == Submit(Push(1, Job(1)));
    s' := Take(b, s', CodeStep(0));
    assert s'.fibers[0].pc == Submit(Tickle(1, true)) && s'.queues[1] == [Job(1)];
    s' := Take(b, s', CodeStep(0));
    assert s'.fibers == s.fibers && s'.queues == s.queues[1 := [Job(1)]];
  }

  /** After stop(), worker 1 starts fiber 0, which yields; worker 0, whose idle fiber has terminated, steals it. */
  lemma FiberMoves(b: State, s: State) returns (s': State)
    requires Leads(b, s) && s.stopper == Off && s.active == 0 && s.pending == 0
    requires s.fibers == [] && s.queues == [[], []]
    requires s.workers == [Worker(Pop, FiberState.Ready, false, 0), Worker(Got(Job(0)), FiberState.Ready, false, 0)]
    ensures Leads(b, s')
    ensures s' == s.(workers := [Worker(Got(Resume(0)), Term, false, 0), Worker(Pop, FiberState.Ready, false, 0)],
                     stop := true, stopper := Checking(4),
                     fibers := [Fiber(FiberState.Ready, Body, None, true, Some(Job(0)))])
  {
    hide Leads, Victim;
    s' := StopperReads(b, s);
    s' := IdleRunEnds(b, s', 0);
    s' := Begins(b, s', 1);
    s' := Yields(b, s', 1, 0);
    assert |s'.queues| == 2 && s'.queues[0] == [] && s'.queues[1] == [Resume(0)];
    s' := Steals(b, s', Resume(0));
  }

  /** Worker 1 ends what may be its last scan; then fiber 0, on worker 0, submits a callback to queue 1 and returns. */
  lemma FiberSubmits(b: State, s: State) returns (s': State)
    requires Leads(b, s) && s.stop && s.stopper == Checking(4) && s.active == 0 && s.pending == 0
    requires s.queues == [[], []]
    requires s.workers == [Worker(Got(Resume(0)), Term, false, 0), Worker(Pop, FiberState.Ready, false, 0)]
    requires s.fibers == [Fiber(FiberState.Ready, Body, None, true, Some(Job(0)))] && s.post == 1 && s.jobs == 1
    ensures Leads(b, s') && s'.queues == [[], [Job(1)]] && s'.stopper == Checking(4)
    ensures s'.stop && s'.outside == s.outside
    ensures s'.workers == [Worker(Steal(1), Term, false, 0), Worker(Steal(2), Term, false, 0)]
  {
    hide Leads, Victim;
    s' := IdleRunEnds(b, s, 1);
    s' := ScanAll(b, s', 1);
    s' := Resumes(b, s', 0, 0);
    s' := Submits(b, s');
    s' := Returns(b, s', 0, 0);
    s' := Take(b, s', RunStep(0));
  }

  /** Worker 0 has lost its try_lock, and both workers leave. */
  lemma BothLeave(b: State, s: State) returns (s': State)
    requires Leads(b, s) && |s.queues| == 2
    requires s.workers == [Worker(Steal(2), Term, false, 0), Worker(Steal(2), Term, false, 0)]
    ensures Leads(b, s') && AllExited(s') && s'.queues == s.queues && s'.outside == s.outside
  {
    hide Leads;
    s' := Take(b, s, RunStep(0));
    assert s'.workers == [Worker(Exited, Term, false, 0), Worker(Steal(2), Term, false, 0)];
    s' := Take(b, s', RunStep(1));
  }

  /** A task can be lost although no thread outside the pool submits after stop(): the only such thread has pushed
      before stop(), and it does nothing later. A fiber submits the task; the last thief that could take it loses its
      try_lock to the caller of stop(), and with that step the queue is abandoned. */
  lemma LockedOutTaskIsLost()
    ensures exists s0, s1, s2 ::
              && Reachable(2, s0) && !s0.stop && s0.outside == [Tickle(0, true)]
              && Leads(s0, s1) && s1.stop
              && Can(s1, BlockedStep(0, ByStopper)) && Abandons(s1, BlockedStep(0, ByStopper), 1)
              && Leads(Next(s1, BlockedStep(0, ByStopper)), s2)
              && AllExited(s2) && s2.outside == s0.outside && s2.queues == [[], [Job(1)]]
  {
    hide Leads;
    var b := Init(2);
    var s0 := TaskInHand(b);
    Stay(s0);
    var s1 := FiberMoves(s0, s0);
    s1 := FiberSubmits(s0, s1);
    ThiefLockedOut(s1);
    var s := Next(s1, BlockedStep(0, ByStopper));
    Stay(s);
    var s2 := BothLeave(s, s);
  }

  lemma ThiefLockedOut(s: State)
    requires s.stopper == Checking(4) && s.queues == [[], [Job(1)]]
    requires s.workers == [Worker(Steal(1), Term, false, 0), Worker(Steal(2), Term, false, 0)]
    ensures Can(s, BlockedStep(0, ByStopper)) && Abandons(s, BlockedStep(0, ByStopper), 1)
    ensures var s' := Next(s, BlockedStep(0, ByStopper));
            && s'.workers == [Worker(Steal(2), Term, false, 0), Worker(Steal(2), Term, false, 0)]
            && s'.queues == s.queues && s'.outside == s.outside
  {
    assert Victim(2, 0, 1) == 1;
  }

  // ----- an abandoned queue that is emptied after all -----

  /** Worker 0 has left, worker 1 is in what may be its last scan, and two calls of submit() are about to push. */
  lemma LastThief(b: State) returns (s: State)
    requires b == Init(2)
    ensures Leads(b, s)
    ensures s == b.(workers := [Worker(Exited, Term, false, 0), Worker(Steal(1), Term, false, 0)],
                    outside := [Push(0, Job(0)), Push(1, Job(1))], jobs := 2, post := 2, stop := true,
                    stopper := Tickling(0, false))
  {
    hide Leads;
    Stay(b);
    s := Take(b, b, StopStep);
    s := IdleRunEnds(b, s, 0);
    s := IdleRunEnds(b, s, 1);
    s := ScanAll(b, s, 0);
    s := Take(b, s, RunStep(0));
    s := Take(b, s, RunStep(1));
    assert s.workers == [Worker(Exited, Term, false, 0), Worker(Steal(1), Term, false, 0)];
    assert 0 % 2 == 0 && 1 % 2 == 1;
    s := Take(b, s, SubmitStep(NewJob));
    assert s.outside == [Push(0, Job(0))];
    s := Take(b, s, SubmitStep(NewJob));
    assert s.outside == [Push(0, Job(0)), Push(1, Job(1))];
  }

  /** The other push, on queue 0, gives worker 1 a task to steal. */
  lemma FindsAnother(b: State, s: State) returns (s': State)
    requires Leads(b, s) && s.queues == [[], [Job(1)]] && s.outside == [Push(0, Job(0)), Tickle(1, true)]
    requires s.workers == [Worker(Exited, Term, false, 0), Worker(Steal(1), Term, false, 0)]
    ensures Leads(b, s') && s'.queues == [[], [Job(1)]] && s'.fibers == s.fibers
    ensures s'.workers == [Worker(Exited, Term, false, 0), Worker(Got(Job(0)), Term, false, 0)]
  {
    hide Leads;
    s' := Take(b, s, OutsideStep(0));
    assert |s'.queues| == 2 && s'.queues[0] == [Job(0)] && s'.queues[1] == [Job(1)];
    assert Victim(2, 1, 1) == 0;
    s' := Take(b, s', RunStep(1));
    assert |s'.queues| == 2 && s'.queues[0] == [] && s'.queues[1] == [Job(1)];
  }

  /** The task brings worker 1 back to the top of run(). */
  lemma RunsAnother(b: State, s: State) returns (s': State)
    requires Leads(b, s) && |s.queues| == 2 && s.fibers == []
    requires s.workers == [Worker(Exited, Term, false, 0), Worker(Got(Job(0)), Term, false, 0)]
    ensures Leads(b, s') && s'.queues == s.queues && |s'.fibers| == 1
    ensures s'.workers == [Worker(Exited, Term, false, 0), Worker(Pop, Term, false, 0)]
  {
    hide Leads;
    s' := Begins(b, s, 1);
    s' := Returns(b, s', 1, 0);
  }

  /** Worker 1 takes the task of its own queue, and leaves. */
  lemma TakesOwn(b: State, s: State) returns (s': State)
    requires Leads(b, s) && s.queues == [[], [Job(1)]] && |s.fibers| == 1
    requires s.workers == [Worker(Exited, Term, false, 0), Worker(Pop, Term, false, 0)]
    ensures Leads(b, s') && AllExited(s') && s'.queues == [[], []]
  {
    hide Leads;
    s' := Take(b, s, RunStep(1));
    assert |s'.queues| == 2 && s'.queues[0] == [] && s'.queues[1] == [] && s'.workers[1].pc == Got(Job(1));
    s' := Begins(b, s', 1);
    s' := Returns(b, s', 1, 1);
    s' := ScanAll(b, s', 1);
    s' := Take(b, s', RunStep(1));
  }

  /** A step that abandons a queue need not lose its task: a worker that still finds another task comes back to it. */
  lemma AbandonedTaskIsTaken()
    ensures exists s, step, s' :: Reachable(2, s) && Can(s, step) && Abandons(s, step, 1)
              && Leads(Next(s, step), s') && AllExited(s') && s'.queues == [[], []]
  {
    hide Leads;
    var b := Init(2);
    var s := LastThief(b);
    var step := OutsideStep(1);
    var s1 := Next(s, step);
    assert |s1.queues| == 2 && s1.queues[0] == [] && s1.queues[1] == [Job(1)];
    assert !Watched(s, 1);
    Stay(s1);
    var s' := FindsAnother(s1, s1);
    s' := RunsAnother(s1, s');
    s' := TakesOwn(s1, s');
    assert Abandons(s, step, 1);
  }
}

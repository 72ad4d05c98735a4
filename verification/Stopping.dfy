/**
 * What a "yes" of stopping() has seen. It is no snapshot, but each thing it needs held at some instant of its
 * evaluation, in the order in which the reads come.
 */
module Stopping {
  import opened Machine
  import opened Frames
  import opened Scheduler
  import opened Traces
  import opened Options
  import Counters
  import Shutdown

  /** Who evaluates stopping(): the idle fiber of a worker, at one of its two places, or the caller of stop(). */
  datatype Evaluator = Idle(worker: nat, again: bool) | Stopper

  /** The evaluator is about to make read number k. */
  predicate Reading(s: State, e: Evaluator, k: nat) {
    match e
    case Idle(w, again) => w < |s.workers| && s.workers[w].pc == IdleStopping(again, k)
    case Stopper => s.stopper == Checking(k)
  }

  /** The evaluator is between the beginning and the end of stopping(). */
  predicate Evaluating(s: State, e: Evaluator) {
    match e
    case Idle(w, again) => w < |s.workers| && s.workers[w].pc.IdleStopping? && s.workers[w].pc.again == again
    case Stopper => s.stopper.Checking?
  }

  /** What read number k must find: stop_ set, no active worker, nothing pending, and then each queue empty. */
  predicate Finds(s: State, k: nat) {
    if k == 0 then s.stop
    else if k == 1 then s.active == 0
    else if k == 2 then s.pending == 0
    else k - 3 < |s.queues| && s.queues[k - 3] == []
  }

  /** Up to instant i the evaluator has been evaluating, and its reads found what they must, one after the other. */
  ghost predicate Saw(states: seq<State>, e: Evaluator, ts: seq<nat>, i: nat) {
    && i < |states|
    && (forall k | 0 <= k < |ts| :: ts[k] < i && Reading(states[ts[k]], e, k) && Finds(states[ts[k]], k))
    && (forall k, l | 0 <= k < l < |ts| :: ts[k] < ts[l])
    && (ts != [] ==> forall j | ts[0] <= j < i :: Evaluating(states[j], e))
  }

  // ----- one step -----

  /** An evaluation begins with its first read, and goes on to the next only past one that found what it must. */
  lemma ReadingStep(s: State, step: Step, e: Evaluator, k: nat)
    requires Can(s, step) && Reading(Next(s, step), e, k)
    ensures k == 0 || Reading(s, e, k) || (Reading(s, e, k - 1) && Finds(s, k - 1))
  {
    match e
    case Idle(w, again) => IdleReads(s, step, w);
    case Stopper => StopReads(s, step);
  }

  /** Only a worker's own steps in idle() take it into or through an evaluation. */
  lemma IdleReads(s: State, step: Step, w: nat)
    requires Can(s, step) && w < |Next(s, step).workers| && Next(s, step).workers[w].pc.IdleStopping?
    ensures var pc := Next(s, step).workers[w].pc;
            pc.read == 0
            || (w < |s.workers| && s.workers[w].pc == pc)
            || (w < |s.workers| && s.workers[w].pc == IdleStopping(pc.again, pc.read - 1) && Finds(s, pc.read - 1))
  {
    hide RunNext, IdleNext, EventNext, BodyNext, CodeNext, CallEffect, StopNext, Issue;
    Shutdown.SameQueues(s, step);
    match step
    case RunStep(u) => RunFrame(s, u);
    case IdleStep(u) => IdleReadsOwn(s, u, w);
    case EventStep(u, e) => EventFrame(s, u, e);
    case BodyStep(u, a) => BodyPcs(s, u, a, w);
    case CodeStep(u) => CodeFrame(s, u);
    case OutsideStep(i) =>
      CallFrame(s, s.outside[i]);
      Counters.SamePcs(s.workers, Next(s, step).workers);
    case StopStep =>
      StopFrame(s);
      Counters.SamePcs(s.workers, Next(s, step).workers);
    case SubmitStep(what) => IssueFrame(s, what);
    case BlockedStep(_, _) =>
    case ExpiredStep(_) =>
  }

  lemma IdleReadsOwn(s: State, u: nat, w: nat)
    requires IdleCan(s, u) && w < |s.workers| && IdleNext(s, u).workers[w].pc.IdleStopping?
    ensures var pc := IdleNext(s, u).workers[w].pc;
            pc.read == 0 || s.workers[w].pc == pc
            || (s.workers[w].pc == IdleStopping(pc.again, pc.read - 1) && Finds(s, pc.read - 1))
  {
    hide IdleNext;
    IdleFrame(s, u);
  }

  lemma BodyPcs(s: State, u: nat, a: Action, w: nat)
    requires BodyCan(s, u, a) && w < |s.workers|
    ensures |BodyNext(s, u, a).workers| == |s.workers|
    ensures BodyNext(s, u, a).workers[w].pc == s.workers[w].pc || BodyNext(s, u, a).workers[w].pc.Back?
    ensures BodyNext(s, u, a).workers[w].idle == s.workers[w].idle && BodyNext(s, u, a).stopper == s.stopper
  {
    hide Issue;
    if a.CallSubmit? {
      IssueFrame(s, a.what);
    }
  }

  lemma StopReads(s: State, step: Step)
    requires Can(s, step) && Next(s, step).stopper.Checking?
    ensures var k := Next(s, step).stopper.read;
            k == 0 || s.stopper == Checking(k) || (s.stopper == Checking(k - 1) && Finds(s, k - 1))
  {
    if !step.StopStep? {
      SameStopper(s, step);
    }
  }

  lemma SameStopper(s: State, step: Step)
    requires Can(s, step) && !step.StopStep?
    ensures Next(s, step).stopper == s.stopper
  {
    hide RunNext, IdleNext, EventNext, BodyNext, CodeNext, CallEffect, Issue;
    match step
    case RunStep(w) => RunFrame(s, w);
    case IdleStep(w) => IdleFrame(s, w);
    case EventStep(w, e) => EventFrame(s, w, e);
    case BodyStep(w, a) => BodyPcs(s, w, a, w);
    case CodeStep(w) => CodeFrame(s, w);
    case OutsideStep(i) => CallFrame(s, s.outside[i]);
    case SubmitStep(what) => IssueFrame(s, what);
    case BlockedStep(_, _) =>
    case ExpiredStep(_) =>
  }

  // ----- a "yes" -----

  /** The evaluator has had its "yes": the idle fiber is about to end or has ended, stop() is in its last round or
      past it. */
  predicate Over(s: State, e: Evaluator) {
    match e
    case Idle(w, again) => w < |s.workers| && (s.workers[w].pc == IdleQuit || s.workers[w].IdleTerm())
    case Stopper =>
      s.stopper == Joining || (s.stopper.Tickling? && s.stopper.last) || (s.stopper.Writing? && s.stopper.last)
  }

  /** The same evaluator, at either of its places. */
  predicate Same(e: Evaluator, e': Evaluator) {
    e == e' || (e.Idle? && e'.Idle? && e.worker == e'.worker)
  }

  /** It comes only after a read beyond the last queue. */
  lemma YesStep(s: State, step: Step, e: Evaluator) returns (e': Evaluator, k: nat)
    requires Can(s, step) && Over(Next(s, step), e) && !Over(s, e)
    ensures Same(e, e') && Reading(s, e', k) && |s.queues| + 3 <= k
  {
    match e
    case Idle(w, again) =>
      OnlyYes(s, step, w);
      e', k := Idle(w, s.workers[w].pc.again), s.workers[w].pc.read;
    case Stopper =>
      StopYes(s, step);
      e', k := e, s.stopper.read;
  }

  lemma OnlyYes(s: State, step: Step, w: nat)
    requires Can(s, step) && Over(Next(s, step), Idle(w, false)) && !Over(s, Idle(w, false))
    ensures w < |s.workers| && s.workers[w].pc.IdleStopping? && |s.queues| + 3 <= s.workers[w].pc.read
  {
    Shutdown.SameQueues(s, step);
    if step == IdleStep(w) {
      IdleYesOwn(s, w);
    } else {
      NotOverByOthers(s, step, w);
    }
  }

  /** Only a worker's own step in idle() ends its idle fiber. */
  lemma NotOverByOthers(s: State, step: Step, w: nat)
    requires Can(s, step) && step != IdleStep(w) && w < |s.workers|
    ensures |Next(s, step).workers| == |s.workers|
    ensures Next(s, step).workers[w].pc == IdleQuit ==> s.workers[w].pc == IdleQuit
    ensures Next(s, step).workers[w].IdleTerm() ==> s.workers[w].IdleTerm()
  {
    hide RunNext, IdleNext, EventNext, BodyNext, CodeNext, CallEffect, StopNext, Issue;
    match step
    case RunStep(u) => RunFrame(s, u);
    case IdleStep(u) => IdleFrame(s, u);
    case EventStep(u, e) => EventFrame(s, u, e);
    case BodyStep(u, a) => BodyPcs(s, u, a, w);
    case CodeStep(u) => CodePcs(s, u, w);
    case OutsideStep(i) =>
      CallFrame(s, s.outside[i]);
      Counters.SamePcs(s.workers, Next(s, step).workers);
    case StopStep =>
      StopFrame(s);
      Counters.SamePcs(s.workers, Next(s, step).workers);
    case SubmitStep(what) => IssueFrame(s, what);
    case BlockedStep(_, _) =>
    case ExpiredStep(_) =>
  }

  lemma IdleYesOwn(s: State, w: nat)
    requires IdleCan(s, w) && Over(IdleNext(s, w), Idle(w, false)) && !Over(s, Idle(w, false))
    ensures s.workers[w].pc.IdleStopping? && |s.queues| + 3 <= s.workers[w].pc.read
  {
    hide IdleNext;
    IdleFrame(s, w);
  }

  lemma CodePcs(s: State, u: nat, w: nat)
    requires CodeCan(s, u) && w < |s.workers|
    ensures |CodeNext(s, u).workers| == |s.workers|
    ensures CodeNext(s, u).workers[w].pc == s.workers[w].pc || CodeNext(s, u).workers[w].pc.Back?
    ensures CodeNext(s, u).workers[w].idle == s.workers[w].idle
  {
    hide CodeNext;
    CodeFrame(s, u);
    var s' := CodeNext(s, u);
    assert s'.workers[w].(eventfd := 0, pc := Pop).idle == s.workers[w].(eventfd := 0, pc := Pop).idle;
  }

  lemma StopYes(s: State, step: Step)
    requires Can(s, step) && Over(Next(s, step), Stopper) && !Over(s, Stopper)
    ensures s.stopper.Checking? && |s.queues| + 3 <= s.stopper.read
  {
    if !step.StopStep? {
      SameStopper(s, step);
    }
  }

  // ----- over runs -----

  /** Behind every read stand the earlier reads of the same evaluation. */
  lemma {:induction false} Evaluated(n: nat, states: seq<State>, steps: seq<Step>, e: Evaluator, i: nat, k: nat)
      returns (ts: seq<nat>)
    requires Trace(n, states, steps) && i < |states| && Reading(states[i], e, k)
    ensures |ts| == k && Saw(states, e, ts, i)
    decreases i
  {
    hide Next, Can, Reading, Finds;
    if k == 0 {
      ts := [];
    } else if i == 0 {
      NotReading(n, e, k);
    } else {
      ReadingStep(states[i - 1], steps[i - 1], e, k);
      if Reading(states[i - 1], e, k) {
        ts := Evaluated(n, states, steps, e, i - 1, k);
        SawMore(states, e, ts, i - 1, k);
      } else {
        var before := Evaluated(n, states, steps, e, i - 1, k - 1);
        ts := before + [i - 1];
        SawRead(states, e, before, i - 1);
      }
    }
  }

  lemma SawMore(states: seq<State>, e: Evaluator, ts: seq<nat>, i: nat, k: nat)
    requires Saw(states, e, ts, i) && i + 1 < |states| && Reading(states[i], e, k)
    ensures Saw(states, e, ts, i + 1)
  {
    hide Finds;
  }

  lemma SawRead(states: seq<State>, e: Evaluator, ts: seq<nat>, i: nat)
    requires Saw(states, e, ts, i) && i + 1 < |states| && Reading(states[i], e, |ts|) && Finds(states[i], |ts|)
    ensures Saw(states, e, ts + [i], i + 1)
  {
    hide Finds;
  }

  lemma NotReading(n: nat, e: Evaluator, k: nat)
    ensures !Reading(Init(n), e, k)
  {
  }

  /** Whenever an idle fiber has terminated, or stop() is in its last round or joining, there was an evaluation of
      stopping(), by that worker or by stop(), with stop_ set at its first instant, later no worker active, later
      nothing pending, and later each queue empty, one after the other. */
  lemma {:induction false} StoppedForAReason(n: nat, states: seq<State>, steps: seq<Step>, e: Evaluator, i: nat)
      returns (e': Evaluator, ts: seq<nat>, j: nat)
    requires Trace(n, states, steps) && i < |states| && Over(states[i], e)
    ensures Same(e, e') && j <= i && |ts| == n + 3 && Saw(states, e', ts, j)
    decreases i
  {
    hide Next, Can, Reading, Over;
    if i == 0 {
      NotOver(n, e);
    } else if Over(states[i - 1], e) {
      e', ts, j := StoppedForAReason(n, states, steps, e, i - 1);
    } else {
      var k;
      e', k := YesStep(states[i - 1], steps[i - 1], e);
      ts := Evaluated(n, states, steps, e', i - 1, k);
      j := i - 1;
      AllQueues(n, states, steps, i - 1);
      assert Finds(states[ts[k - 1]], k - 1);
      AllQueues(n, states, steps, ts[k - 1]);
    }
  }

  lemma NotOver(n: nat, e: Evaluator)
    ensures !Over(Init(n), e)
  {
  }

  lemma {:induction false} AllQueues(n: nat, states: seq<State>, steps: seq<Step>, i: nat)
    requires Trace(n, states, steps) && i < |states|
    ensures |states[i].queues| == n
  {
    hide Next, Can;
    if 0 < i {
      AllQueues(n, states, steps, i - 1);
      Shutdown.SameQueues(states[i - 1], steps[i - 1]);
    }
  }

  /** So at one instant of the evaluation no fiber was executing or locked, and at a later one no fiber was parked
      in do_io and no timer was live. */
  lemma QuietInstants(n: nat, states: seq<State>, steps: seq<Step>, e: Evaluator, ts: seq<nat>, j: nat)
    requires Trace(n, states, steps) && |ts| == n + 3 && Saw(states, e, ts, j)
    ensures ts[0] < ts[1] < ts[2] < |states| && states[ts[0]].stop
    ensures forall f | 0 <= f < |states[ts[1]].fibers| ::
              states[ts[1]].fibers[f].state != Running && states[ts[1]].fibers[f].lockedBy == None
    ensures forall f | 0 <= f < |states[ts[2]].fibers| :: states[ts[2]].fibers[f].state != Hold
    ensures forall t | 0 <= t < |states[ts[2]].timers| :: !states[ts[2]].timers[t]
    ensures forall k | 3 <= k < n + 3 ::
              ts[k] < |states| && |states[ts[k]].queues| == n && states[ts[k]].queues[k - 3] == []
  {
    hide Trace;
    assert Finds(states[ts[0]], 0) && Finds(states[ts[1]], 1) && Finds(states[ts[2]], 2);
    TraceReachable(n, states, steps, ts[1]);
    ActiveCount(n, states[ts[1]]);
    TraceReachable(n, states, steps, ts[2]);
    PendingCount(n, states[ts[2]]);
    forall k | 3 <= k < n + 3 ensures |states[ts[k]].queues| == n && states[ts[k]].queues[k - 3] == [] {
      assert Finds(states[ts[k]], k);
      AllQueues(n, states, steps, ts[k]);
    }
  }
}

/**
 * Scheduler::stealTask as the loop it is, over the task queues as objects, and its place in the machine:
 * one call is a run of the worker's steal rounds.
 */
module Stealing {
  import opened Options
  import opened Machine
  import opened Runs

  class TaskQueue {
    var tasks: seq<Task>

    constructor ()
      ensures tasks == []
    {
      tasks := [];
    }

    method PopBack() returns (task: Task)
      requires tasks != []
      modifies this
      ensures old(tasks) == tasks + [task]
    {
      task := tasks[|tasks| - 1];
      tasks := tasks[..|tasks| - 1];
    }
  }

  ghost function Contents(queues: seq<TaskQueue>): (r: seq<seq<Task>>)
    reads queues
    ensures |r| == |queues|
  {
    seq(|queues|, i requires 0 <= i < |queues| reads queues => queues[i].tasks)
  }

  /** The thief can take from the victim of round k: try_lock succeeds and there is a task. */
  predicate Takes<T>(queues: seq<seq<T>>, thief: nat, free: seq<bool>, k: nat)
    requires 0 < |queues| == |free|
  {
    free[Victim(|queues|, thief, k)] && |queues[Victim(|queues|, thief, k)]| != 0
  }

  /** The first round from k on in which the thief takes a task; the number of queues if there is none. */
  function FirstTaken<T>(queues: seq<seq<T>>, thief: nat, free: seq<bool>, k: nat): (r: nat)
    requires 0 < |queues| == |free| && k <= |queues|
    ensures k <= r <= |queues|
    ensures r < |queues| ==> Takes(queues, thief, free, r)
    ensures forall i | k <= i < r :: !Takes(queues, thief, free, i)
    decreases |queues| - k
  {
    if k == |queues| || Takes(queues, thief, free, k) then k else FirstTaken(queues, thief, free, k + 1)
  }

  /** What a whole pass does to the queues. */
  function Stolen<T>(queues: seq<seq<T>>, thief: nat, free: seq<bool>): (r: (Option<T>, seq<seq<T>>))
    requires 0 < |queues| == |free|
  {
    var k := FirstTaken(queues, thief, free, 1);
    if k == |queues| then (None, queues) else
      var v := Victim(|queues|, thief, k);
      var last := |queues[v]| - 1;
      (Some(queues[v][last]), queues[v := queues[v][..last]])
  }

  /** `free[v]` is the answer of try_lock on queue v. */
  method StealTask(queues: seq<TaskQueue>, thief: nat, free: seq<bool>) returns (task: Option<Task>)
    requires 0 < |queues| == |free|
    requires forall i, j | 0 <= i < j < |queues| :: queues[i] != queues[j]
    modifies queues
    ensures (task, Contents(queues)) == Stolen(old(Contents(queues)), thief, free)
  {
    for i := 1 to |queues|
      invariant unchanged(queues)
      invariant FirstTaken(Contents(queues), thief, free, 1) == FirstTaken(Contents(queues), thief, free, i)
    {
      var victim := (thief + i) % |queues|;
      if free[victim] && |queues[victim].tasks| != 0 {
        ghost var before := Contents(queues);
        var t := queues[victim].PopBack();
        assert Contents(queues) == before[victim := queues[victim].tasks];
        return Some(t);
      }
    }
    return None;
  }

  /** A pass looks at every other queue once, and never at the thief's own. */
  lemma EveryOtherQueue(n: nat, thief: nat, v: nat)
    requires thief < n && v < n
    ensures v != thief <==> exists k :: 1 <= k < n && Victim(n, thief, k) == v
    ensures forall j, k | 1 <= j < n && 1 <= k < n && Victim(n, thief, j) == Victim(n, thief, k) :: j == k
  {
    forall k | 1 <= k < n ensures Victim(n, thief, k) == if thief + k < n then thief + k else thief + k - n {
      VictimIs(n, thief, k);
    }
    hide Victim;
    if v != thief {
      var k := if thief < v then v - thief else v + n - thief;
      assert Victim(n, thief, k) == v;
    }
  }

  /** With every try_lock free, a pass finds nothing if and only if every other queue is empty. */
  lemma NothingToSteal<T>(queues: seq<seq<T>>, thief: nat, free: seq<bool>)
    requires thief < |queues| == |free| && forall v | 0 <= v < |free| :: free[v]
    ensures Stolen(queues, thief, free).0.None? <==> forall v | 0 <= v < |queues| && v != thief :: |queues[v]| == 0
  {
    hide Victim;
    if Stolen(queues, thief, free).0.None? {
      forall v | 0 <= v < |queues| && v != thief ensures |queues[v]| == 0 {
        if |queues[v]| != 0 {
          FoundSomewhere(queues, thief, free, v);
        }
      }
    } else {
      var v := Victim(|queues|, thief, FirstTaken(queues, thief, free, 1));
      EveryOtherQueue(|queues|, thief, v);
      assert |queues[v]| != 0;
    }
  }

  lemma FoundSomewhere<T>(queues: seq<seq<T>>, thief: nat, free: seq<bool>, v: nat)
    requires thief < |queues| == |free| && v < |queues| && v != thief && free[v] && |queues[v]| != 0
    ensures Stolen(queues, thief, free).0.Some?
  {
    hide Victim;
    EveryOtherQueue(|queues|, thief, v);
    var k :| 1 <= k < |queues| && Victim(|queues|, thief, k) == v;
    assert Takes(queues, thief, free, k);
  }

  lemma VictimIs(n: nat, thief: nat, k: nat)
    requires thief < n && 1 <= k < n
    ensures Victim(n, thief, k) == if thief + k < n then thief + k else thief + k - n
  {
    var v := if thief + k < n then thief + k else thief + k - n;
    assert thief + k == n * (if thief + k < n then 0 else 1) + v;
  }

  lemma OneRound(s: State, w: nat, k: nat)
    requires w < |s.workers| == |s.queues| && s.workers[w].pc == Steal(k) && k < |s.workers|
    ensures Can(s, RunStep(w)) && Next(s, RunStep(w)) == StealOne(s, w, k)
    ensures forall h | BlockedCan(s, w, h) ::
              Can(s, BlockedStep(w, h)) && Next(s, BlockedStep(w, h)) == BlockedNext(s, w, h)
  {
    hide BlockedCan, BlockedNext, StealOne;
  }

  /** The machine stands at round k of a pass that began in s. */
  predicate AtRound(s: State, w: nat, k: nat, s': State)
    requires w < |s.workers|
  {
    s' == Goto(s, w, Steal(k))
  }

  lemma MissedRound(b: State, s: State, w: nat, free: seq<bool>, k: nat, s1: State) returns (s2: State)
    requires w < |s.workers| == |s.queues| == |free| && 1 <= k < |s.queues|
    requires Leads(b, s1) && AtRound(s, w, k, s1) && !Takes(s.queues, w, free, k)
    requires free[Victim(|s.queues|, w, k)] || Blocked(s, w, k)
    ensures Leads(b, s2) && AtRound(s, w, k + 1, s2)
  {
    hide Leads, Next, Can, Victim;
    OneRound(s1, w, k);
    if free[Victim(|s.queues|, w, k)] {
      s2 := Take(b, s1, RunStep(w));
    } else {
      var holder :| BlockedCan(Goto(s, w, Steal(k)), w, holder);
      assert BlockedCan(s1, w, holder);
      s2 := Take(b, s1, BlockedStep(w, holder));
    }
  }

  lemma TakenRound(b: State, s: State, w: nat, free: seq<bool>, k: nat, s1: State) returns (s2: State)
    requires w < |s.workers| == |s.queues| == |free| && 1 <= k < |s.queues|
    requires Leads(b, s1) && AtRound(s, w, k, s1) && Takes(s.queues, w, free, k)
    ensures Leads(b, s2) && |s2.workers| == |s.workers|
    ensures var v := Victim(|s.queues|, w, k);
            var last := |s.queues[v]| - 1;
            s2.queues == s.queues[v := s.queues[v][..last]] && s2.workers[w].pc == Got(s.queues[v][last])
  {
    hide Leads, Next, Can, Victim;
    OneRound(s1, w, k);
    s2 := Take(b, s1, RunStep(w));
  }

  /** If the queues do not change meanwhile and every failed try_lock has its holder, the worker's rounds in the machine
      are this pass. */
  lemma PassRuns(s: State, w: nat, free: seq<bool>)
    requires w < |s.workers| == |s.queues| == |free| && s.workers[w].pc == Steal(1)
    requires forall k: nat | 1 <= k < |s.queues| && !free[Victim(|s.queues|, w, k)] :: Blocked(s, w, k)
    ensures exists s' :: Leads(s, s') && PassDone(s, w, free, s')
  {
    hide Leads, PassDone;
    Stay(s);
    var s' := RunPass(s, s, w, free);
  }

  ghost predicate PassDone(s: State, w: nat, free: seq<bool>, s': State)
    requires w < |s.workers| == |s.queues| == |free|
  {
    var (task, queues) := Stolen(s.queues, w, free);
    && s'.queues == queues && |s'.workers| == |s.workers|
    && s'.workers[w].pc == (if task.Some? then Got(task.value) else Steal(|s.queues|))
  }

  lemma RunPass(b: State, s: State, w: nat, free: seq<bool>) returns (s': State)
    requires Leads(b, s) && w < |s.workers| == |s.queues| == |free| && s.workers[w].pc == Steal(1)
    requires forall k: nat | 1 <= k < |s.queues| && !free[Victim(|s.queues|, w, k)] :: Blocked(s, w, k)
    ensures Leads(b, s') && PassDone(s, w, free, s')
  {
    hide Leads, Next, Can, Victim, Blocked, Takes;
    s' := s;
    var k := 1;
    while k < |s.queues| && !Takes(s.queues, w, free, k)
      invariant 1 <= k <= |s.queues|
      invariant FirstTaken(s.queues, w, free, 1) == FirstTaken(s.queues, w, free, k)
      invariant Leads(b, s') && AtRound(s, w, k, s')
    {
      s' := MissedRound(b, s, w, free, k, s');
      k := k + 1;
    }
    if k < |s.queues| {
      s' := TakenRound(b, s, w, free, k, s');
    }
  }

  /** A thief can pass a queue that has tasks while its owner is at its own pop. */
  lemma OwnerLocksOut(s: State, w: nat, k: nat, u: nat)
    requires w < |s.workers| == |s.queues| && k < |s.workers| && u < |s.workers| && u != w
    requires s.workers[w].pc == Steal(k) && Victim(|s.queues|, w, k) == u && s.workers[u].pc == Pop
    ensures Can(s, BlockedStep(w, ByWorker(u))) && Next(s, BlockedStep(w, ByWorker(u))) == Goto(s, w, Steal(k + 1))
  {
    hide Victim;
  }

  /** Somebody holds the mutex of the victim of round k. */
  ghost predicate Blocked(s: State, w: nat, k: nat)
    requires w < |s.workers|
  {
    exists holder :: BlockedCan(Goto(s, w, Steal(k)), w, holder)
  }
}

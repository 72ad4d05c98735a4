/** Runs of the scheduler with all their states. */
module Traces {
  import opened Machine
  import opened Scheduler
  import opened Runs

  /** states[i] is the state before steps[i], and after steps[i - 1]. */
  ghost predicate Trace(n: nat, states: seq<State>, steps: seq<Step>) {
    && 0 < n && |states| == |steps| + 1 && states[0] == Init(n)
    && forall i | 0 <= i < |steps| :: Can(states[i], steps[i]) && states[i + 1] == Next(states[i], steps[i])
  }

  lemma {:induction false} TraceReachable(n: nat, states: seq<State>, steps: seq<Step>, i: nat)
    requires Trace(n, states, steps) && i < |states|
    ensures Reachable(n, states[i])
  {
    hide Next, Can, Leads;
    if i == 0 {
      Stay(Init(n));
    } else {
      TraceReachable(n, states, steps, i - 1);
      var s := Take(Init(n), states[i - 1], steps[i - 1]);
    }
  }

  /** Every run has a trace. */
  lemma {:induction false} HasTrace(n: nat, steps: seq<Step>, s: State)
    requires 0 < n && Reaches(Init(n), steps, s)
    ensures exists states :: Trace(n, states, steps) && states[|steps|] == s
  {
    hide Next, Can, Reaches;
    var states := Unfold(Init(n), steps, s);
    assert Trace(n, states, steps);
  }

  lemma {:induction false} Unfold(b: State, steps: seq<Step>, s: State) returns (states: seq<State>)
    requires Reaches(b, steps, s)
    ensures |states| == |steps| + 1 && states[0] == b && states[|steps|] == s
    ensures forall i | 0 <= i < |steps| :: Can(states[i], steps[i]) && states[i + 1] == Next(states[i], steps[i])
    decreases |steps|
  {
    hide Next, Can;
    if steps == [] {
      states := [b];
    } else {
      var rest := Unfold(Next(b, steps[0]), steps[1..], s);
      states := [b] + rest;
      forall i | 0 <= i < |steps| ensures Can(states[i], steps[i]) && states[i + 1] == Next(states[i], steps[i]) {
        if 0 < i {
          assert rest[i - 1] == states[i] && rest[i] == states[i + 1] && steps[1..][i - 1] == steps[i];
        }
      }
    }
  }
}

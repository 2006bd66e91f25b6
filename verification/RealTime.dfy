/** The serial order of the commands is also the order in which they were answered and made. */
module RealTime {
  import opened Serial
  import opened Protocol
  import opened System
  import opened Theorems
  import opened Permissions

  predicate Over(s: State, id: CallId) {
    id in s.calls && s.calls[id].pc.Finished?
  }

  lemma StaysOver(s: State, a: Action, id: CallId)
    requires Enabled(s, a) && Over(s, id)
    ensures Over(Next(s, a), id)
  {
    if a.CallStep? { CallMovesAlone(s, a.call, a.call_action); }
  }

  lemma {:induction false} OverForEver(states: seq<State>, run: seq<Action>, m: nat, n: nat, id: CallId)
    requires Behaviour(states, run) && m <= n <= |run| && Over(states[m], id)
    ensures Over(states[n], id)
    decreases n - m
  {
    if m < n {
      assert StepAt(states, run, m);
      StaysOver(states[m], run[m], id);
      OverForEver(states, run, m + 1, n, id);
    }
  }

  /** Once the call is over, its entry, if it has one, has been written. */
  lemma EntryByThen(s0: State, states: seq<State>, run: seq<Action>, s: State, m: nat, i: nat)
    requires Init(s0) && Links(states, run, s0, s) && m <= |run| && i < |s.trace| && Over(states[m], s.trace[i].call)
    ensures i < |states[m].trace|
  {
    var n := WhoRecorded(s0, states, run, s, i);
    if m <= n {
      OverForEver(states, run, m, n, s.trace[i].call);
    } else {
      PartLeads(states, run, 0, n + 1);
      PartLeads(states, run, n + 1, m);
      LaterAdvances(s0, run[0..n + 1], states[n + 1], run[n + 1..m], states[m]);
    }
  }

  /** Before the call is made, it has no entry. */
  lemma NoEntryBefore(s0: State, states: seq<State>, run: seq<Action>, s: State, m: nat, j: nat)
    requires Init(s0) && Links(states, run, s0, s) && m <= |run| && j < |s.trace| && s.trace[j].call !in states[m].calls
    ensures j >= |states[m].trace|
  {
    TraceGrows(s0, states, run, m);
    PartLeads(states, run, 0, m);
    ReachableOutcomes(s0, run[0..m], states[m]);
  }

  /**
   * If one call is over before another is made, then it comes first in the serial order.  With
   * `Theorems.Serializability` this is strict serializability: a caller who has had an answer finds its effect in
   * every later call.
   */
  lemma RealTimeOrder(s0: State, states: seq<State>, run: seq<Action>, s: State, m: nat, i: nat, j: nat)
    requires Init(s0) && Links(states, run, s0, s) && m <= |run| && i < |s.trace| && j < |s.trace|
    requires Over(states[m], s.trace[i].call) && s.trace[j].call !in states[m].calls
    ensures i < j
  {
    EntryByThen(s0, states, run, s, m, i);
    NoEntryBefore(s0, states, run, s, m, j);
  }
}

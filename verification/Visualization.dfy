/** The replay of partial linearizations for display, which panics if a step is refused. */
module Visualization {
  import opened Linearizability
  import opened Search
  import opened SearchBound

  /** The input and output of every operation, read off the history. */
  method ReadValues<V>(history: seq<Entry<V>>, ghost n: nat) returns (callValue: map<nat, V>, returnValue: map<nat, V>)
    requires WellFormed(history, n)
    ensures forall i: nat :: i < n ==>
              && i in callValue && callValue[i] == history[CallPos(history, i)].value
              && i in returnValue && returnValue[i] == history[ReturnPos(history, i)].value
  {
    callValue, returnValue := map[], map[];
    for p := 0 to |history|
      invariant forall i: nat :: i < n && CallPos(history, i) < p ==> i in callValue && callValue[i] == history[CallPos(history, i)].value
      invariant forall i: nat :: i < n && ReturnPos(history, i) < p ==> i in returnValue && returnValue[i] == history[ReturnPos(history, i)].value
    {
      var elem := history[p];
      PosUnique(history, elem.id, p);
      match elem.kind
      case CallEntry => callValue := callValue[elem.id := elem.value];
      case ReturnEntry => returnValue := returnValue[elem.id := elem.value];
    }
  }

  lemma OneStep<S, V>(m: Model<S, V>, history: seq<Entry<V>>, state: S, order: seq<nat>, j: nat)
    requires j < |order| && Known(history, order[j..]) && Legal(m, history, state, order[j..])
    ensures Paired(history, order[j])
    ensures Perform(m, history, state, order[j]).0
    ensures Known(history, order[j + 1..]) && Legal(m, history, Perform(m, history, state, order[j]).1, order[j + 1..])
  {
    assert order[j..][0] == order[j] && order[j..][1..] == order[j + 1..];
    var rest := order[j + 1..];
    forall k | 0 <= k < |rest| ensures Paired(history, rest[k]) {
      assert rest[k] == order[j..][k + 1];
    }
  }

  /** A partial linearization recorded by the search never makes the replay panic. */
  method Replay<S, V>(m: Model<S, V>, history: seq<Entry<V>>, ghost n: nat, partial: seq<nat>, ghost i: nat)
    returns (panicked: bool, states: seq<S>)
    requires WellFormed(history, n) && IsPartial(m, history, n, i, partial)
    ensures !panicked && |states| == |partial|
  {
    var callValue, returnValue := ReadValues(history, n);
    var state := m.init;
    states := [];
    assert partial[0..] == partial;
    for j := 0 to |partial|
      invariant |states| == j && Known(history, partial[j..]) && Legal(m, history, state, partial[j..])
    {
      OneStep(m, history, state, partial, j);
      var (ok, next) := m.step(state, callValue[partial[j]], returnValue[partial[j]]);
      if !ok {
        return true, states;
      }
      state := next;
      states := states + [state];
    }
    return false, states;
  }
}

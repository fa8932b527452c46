/** The verdict of the parallel checker: one worker for each partition, a channel of their
    answers, a kill flag, and a timeout that may strike at any moment. */
module CheckParallel {
  import opened Linearizability
  import opened Operations
  import opened Locality
  import opened Partition
  import CheckSingle
  import KvModel

  datatype CheckResult = Unknown | Ok | Illegal

  datatype Worker = Running | Answered(answer: bool)

  /** workers: by partition.  received: the partitions whose answer has been received.
      looping: the collecting loop has not been left. */
  datatype Check = Check(workers: seq<Worker>, received: set<nat>, ok: bool, timedOut: bool, count: nat, kill: bool, looping: bool)

  datatype Event = Finish(i: nat, answer: bool) | Receive(i: nat) | Timeout

  function Start(n: nat): Check { Check(seq(n, _ => Running), {}, true, false, 0, false, true) }

  /** What a worker may answer, by the contract of `CheckSingle.CheckSingle`: true only when
      its partition is linearizable, and exactly then if the kill flag is still clear. */
  predicate MayAnswer(linearizable: bool, killed: bool, answer: bool) {
    (answer ==> linearizable) && (!killed ==> answer == linearizable)
  }

  predicate Enabled(partitions: seq<bool>, c: Check, e: Event) {
    match e
    case Finish(i, answer) =>
      i < |partitions| == |c.workers| && c.workers[i] == Running && MayAnswer(partitions[i], c.kill, answer)
    case Receive(i) => c.looping && i < |c.workers| && c.workers[i].Answered? && i !in c.received
    case Timeout => c.looping
  }

  /** partitions[i] says whether partition i is linearizable. */
  function Do(partitions: seq<bool>, computeInfo: bool, c: Check, e: Event): Check
    requires Enabled(partitions, c, e)
  {
    match e
    case Finish(i, answer) => c.(workers := c.workers[i := Answered(answer)])
    case Receive(i) =>
      var d := c.(count := c.count + 1, ok := c.ok && c.workers[i].answer, received := c.received + {i});
      if !d.ok && !computeInfo then d.(kill := true, looping := false)
      else if d.count >= |partitions| then d.(looping := false)
      else d
    case Timeout => c.(timedOut := true, kill := true, looping := false)
  }

  function Verdict(c: Check): CheckResult {
    if !c.ok then Illegal else if c.timedOut then Unknown else Ok
  }

  ghost predicate IsRun(partitions: seq<bool>, computeInfo: bool, states: seq<Check>, events: seq<Event>) {
    && |states| == |events| + 1 && states[0] == Start(|partitions|)
    && forall t {:trigger events[t]} :: 0 <= t < |events| ==>
         Enabled(partitions, states[t], events[t]) && states[t + 1] == Do(partitions, computeInfo, states[t], events[t])
  }

  /** Before the loop is left the kill flag is clear, so every answer received is exact. */
  ghost predicate Inv(partitions: seq<bool>, c: Check) {
    && |c.workers| == |partitions| && c.count == |c.received|
    && (c.looping ==> !c.kill && !c.timedOut)
    && (!c.kill ==> forall i :: 0 <= i < |c.workers| && c.workers[i].Answered? ==> c.workers[i].answer == partitions[i])
    && (forall i :: i in c.received ==> i < |c.workers| && c.workers[i].Answered? && c.workers[i].answer == partitions[i])
    && (c.ok <==> forall i :: i in c.received ==> partitions[i])
    && (!c.looping ==> c.timedOut || !c.ok || c.count >= |partitions|)
  }

  lemma StepKeeps(partitions: seq<bool>, computeInfo: bool, c: Check, e: Event)
    requires Inv(partitions, c) && Enabled(partitions, c, e)
    ensures Inv(partitions, Do(partitions, computeInfo, c, e))
  {
    var d := Do(partitions, computeInfo, c, e);
    if e.Receive? {
      assert d.ok <==> c.ok && partitions[e.i];
      assert |d.received| == |c.received| + 1;
      forall i | i in c.received ensures i in d.received {
      }
    }
  }

  lemma {:induction false} RunKeeps(partitions: seq<bool>, computeInfo: bool, states: seq<Check>, events: seq<Event>, t: nat)
    requires IsRun(partitions, computeInfo, states, events) && t < |states|
    ensures Inv(partitions, states[t])
  {
    if t > 0 {
      RunKeeps(partitions, computeInfo, states, events, t - 1);
      assert Enabled(partitions, states[t - 1], events[t - 1]);
      StepKeeps(partitions, computeInfo, states[t - 1], events[t - 1]);
    }
  }

  ghost predicate Below(s: set<nat>, n: nat) { forall i :: i in s ==> i < n }

  lemma {:induction false} AllReceived(s: set<nat>, n: nat)
    requires Below(s, n)
    ensures |s| <= n && (|s| == n ==> forall i: nat :: i < n ==> i in s)
  {
    if n == 0 {
      assert s == {};
    } else {
      var t := s - {n - 1};
      AllReceived(t, n - 1);
      if n - 1 in s {
        assert |s| == |t| + 1;
      } else {
        assert s == t;
      }
    }
  }

  /** Whatever the interleaving of answers, kill and timeout: the verdict Ok means that every
      partition is linearizable, Illegal that some is not, and Unknown comes only from a
      timeout; without one the verdict is exact. */
  lemma VerdictSound(partitions: seq<bool>, computeInfo: bool, states: seq<Check>, events: seq<Event>, t: nat)
    requires IsRun(partitions, computeInfo, states, events) && t < |states| && !states[t].looping
    ensures Verdict(states[t]) == Ok ==> forall i :: 0 <= i < |partitions| ==> partitions[i]
    ensures Verdict(states[t]) == Illegal ==> exists i :: 0 <= i < |partitions| && !partitions[i]
    ensures Verdict(states[t]) == Unknown ==> states[t].timedOut
    ensures !states[t].timedOut ==> (Verdict(states[t]) == Ok <==> forall i :: 0 <= i < |partitions| ==> partitions[i])
  {
    RunKeeps(partitions, computeInfo, states, events, t);
    var c := states[t];
    assert Below(c.received, |partitions|);
    AllReceived(c.received, |partitions|);
  }

  /** What the loop has received decides: Illegal if and only if a bad partition was among it,
      whether or not the time ran out afterwards, and Unknown if and only if the time ran out and
      none was.  Where all results are wanted, only the time can keep one from being received;
      and whenever the loop is left early, the workers are told to stop. */
  lemma VerdictExactly(partitions: seq<bool>, computeInfo: bool, states: seq<Check>, events: seq<Event>, t: nat)
    requires IsRun(partitions, computeInfo, states, events) && t < |states| && !states[t].looping
    ensures Verdict(states[t]) == Illegal <==> exists i :: i in states[t].received && i < |partitions| && !partitions[i]
    ensures Verdict(states[t]) == Unknown <==> states[t].timedOut && forall i :: i in states[t].received && i < |partitions| ==> partitions[i]
    ensures Verdict(states[t]) == Ok <==> !states[t].timedOut && forall i :: 0 <= i < |partitions| ==> partitions[i]
    ensures computeInfo && !states[t].timedOut ==> forall i: nat :: i < |partitions| ==> i in states[t].received
    ensures states[t].kill <==> states[t].timedOut || (Verdict(states[t]) == Illegal && !computeInfo)
  {
    RunKeeps(partitions, computeInfo, states, events, t);
    LeftFor(partitions, computeInfo, states, events, t);
    var c := states[t];
    assert Below(c.received, |partitions|);
    AllReceived(c.received, |partitions|);
  }

  /** Why the loop was left. */
  lemma {:induction false} LeftFor(partitions: seq<bool>, computeInfo: bool, states: seq<Check>, events: seq<Event>, t: nat)
    requires IsRun(partitions, computeInfo, states, events) && t < |states|
    ensures var c := states[t];
            && (c.kill <==> !c.looping && (c.timedOut || (!c.ok && !computeInfo)))
            && (!c.looping ==> c.timedOut || (!c.ok && !computeInfo) || c.count >= |partitions|)
  {
    if t > 0 {
      LeftFor(partitions, computeInfo, states, events, t - 1);
      RunKeeps(partitions, computeInfo, states, events, t - 1);
      assert Enabled(partitions, states[t - 1], events[t - 1]);
    }
  }

  /** Once the loop is left, its verdict stays. */
  lemma {:induction false} VerdictStays(partitions: seq<bool>, computeInfo: bool, states: seq<Check>, events: seq<Event>, t: nat, u: nat)
    requires IsRun(partitions, computeInfo, states, events) && t <= u < |states| && !states[t].looping
    ensures !states[u].looping && Verdict(states[u]) == Verdict(states[t]) && states[u].timedOut == states[t].timedOut
    decreases u
  {
    if t < u {
      VerdictStays(partitions, computeInfo, states, events, t, u - 1);
      assert Enabled(partitions, states[u - 1], events[u - 1]);
    }
  }

  /** With no partition at all, only a timeout ends the loop. */
  lemma {:induction false} EmptyNeverDecides(computeInfo: bool, states: seq<Check>, events: seq<Event>, t: nat)
    requires IsRun([], computeInfo, states, events) && t < |states|
    ensures states[t].looping || Verdict(states[t]) == Unknown
  {
    if t > 0 {
      EmptyNeverDecides(computeInfo, states, events, t - 1);
      RunKeeps([], computeInfo, states, events, t - 1);
      assert Enabled([], states[t - 1], events[t - 1]);
    }
  }

  /** The records are those of the partition's entries: real, and the longest where they are
      wanted and the search was not stopped. */
  ghost predicate RecordsOf<S(!new), V(!new)>(m: Model<S, V>, history: seq<Operation<V>>, whole: bool, partials: seq<CheckSingle.Partial>) {
    exists entries, perm ::
      && AreEntries(history, entries, perm) && WellFormed(entries, |history|)
      && CheckSingle.PartialsOk(m, entries, |history|, partials) && (whole ==> CheckSingle.Longest(m, entries, |history|, partials))
  }

  /** One worker: the entries of a partition, searched while the flag `kill` may be set. */
  method Work<S(==, !new), V(!new)>(m: Model<S, V>, history: seq<Operation<V>>, computePartial: bool, kill: nat -> bool)
    returns (answer: bool, partials: seq<CheckSingle.Partial>)
    requires Timely(history)
    ensures MayAnswer(OpsLinearizable(m, history), exists t :: kill(t), answer)
    ensures RecordsOf(m, history, computePartial && !(exists t :: kill(t)), partials)
  {
    var entries, perm := MakeEntries(history);
    EntriesWellFormed(history, entries, perm);
    EntriesLinearizable(m, history, entries, perm);
    answer, partials := CheckSingle.CheckSingle(m, entries, computePartial, kill, |history|);
  }

  /** Which partitions are linearizable. */
  ghost predicate Exact<S, V>(m: Model<S, V>, groups: seq<seq<Operation<V>>>, partitions: seq<bool>) {
    |partitions| == |groups| && forall g :: 0 <= g < |groups| ==> (partitions[g] <==> OpsLinearizable(m, groups[g]))
  }

  /** The checker's verdict on a whole history, through its partition: Ok only if the history
      is linearizable for the whole map, Illegal only if it is not, and without a timeout
      exactly so.  Each partition is a history a worker can be given. */
  lemma CheckOperationsExact<S, V>(m: Model<S, V>, key: V -> Key, history: seq<Operation<V>>, keys: seq<Key>, groups: seq<seq<Operation<V>>>,
                                   partitions: seq<bool>, computeInfo: bool, states: seq<Check>, events: seq<Event>, t: nat)
    requires Timely(history) && IsPartition(key, history, keys, groups) && Exact(m, groups, partitions)
    requires IsRun(partitions, computeInfo, states, events) && t < |states| && !states[t].looping
    ensures Verdict(states[t]) == Ok ==> OpsLinearizable(Whole(m, key), history)
    ensures Verdict(states[t]) == Illegal ==> !OpsLinearizable(Whole(m, key), history)
    ensures !states[t].timedOut ==> (Verdict(states[t]) == Ok <==> OpsLinearizable(Whole(m, key), history))
    ensures forall g :: 0 <= g < |groups| ==> Timely(groups[g])
  {
    forall g | 0 <= g < |groups| ensures Timely(groups[g]) {
      GroupsTimely(key, history, keys[g]);
    }
    VerdictSound(partitions, computeInfo, states, events, t);
    PartitionIsLocal(m, key, history, keys, groups);
    if Verdict(states[t]) == Illegal {
      var i :| 0 <= i < |partitions| && !partitions[i];
      assert !OpsLinearizable(m, groups[i]);
    }
    if OpsLinearizable(Whole(m, key), history) {
      forall i | 0 <= i < |partitions| ensures partitions[i] {
        assert OpsLinearizable(m, groups[i]);
      }
    }
  }

  /** One run of the checker on a history: the partition it is split into, which parts are
      linearizable, and the run up to its step t. */
  datatype Judgement<V> = Judgement(keys: seq<Key>, groups: seq<seq<Operation<V>>>, partitions: seq<bool>,
                                    computeInfo: bool, states: seq<Check>, events: seq<Event>, t: nat)

  type KvHistory = seq<Operation<KvModel.KvValue>>

  ghost predicate Judges(j: Judgement<KvModel.KvValue>, history: KvHistory, verdict: CheckResult) {
    && IsPartition(KvModel.KeyOf, history, j.keys, j.groups) && Exact(KvModel.MODEL, j.groups, j.partitions)
    && IsRun(j.partitions, j.computeInfo, j.states, j.events) && j.t < |j.states| && !j.states[j.t].looping
    && Verdict(j.states[j.t]) == verdict
  }

  /** The checker for the key/value service, which splits by key and knows the specification of
      one key only, judges whole histories soundly. */
  lemma KvJudgedRightly(j: Judgement<KvModel.KvValue>, history: KvHistory, verdict: CheckResult)
    requires Timely(history) && Judges(j, history, verdict)
    ensures verdict == Ok ==> OpsLinearizable(Whole(KvModel.MODEL, KvModel.KeyOf), history)
    ensures verdict == Illegal ==> !OpsLinearizable(Whole(KvModel.MODEL, KvModel.KeyOf), history)
    ensures verdict == Unknown ==> j.states[j.t].timedOut
  {
    CheckOperationsExact(KvModel.MODEL, KvModel.KeyOf, history, j.keys, j.groups, j.partitions, j.computeInfo, j.states, j.events, j.t);
    VerdictSound(j.partitions, j.computeInfo, j.states, j.events, j.t);
  }
}

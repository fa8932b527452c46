/** The service is linearizable, judged by the specification that the checker uses. */
module KvTheorem {
  import opened Commands
  import opened KvState
  import opened KvService
  import opened KvCommon
  import opened KvInvariant
  import opened KvSteps
  import opened Linearizability
  import opened Operations
  import opened Locality
  import Search
  import KvModel
  import RaftPeer
  import RaftCluster

  type Value = KvModel.KvValue

  function OpCode(opType: string): nat {
    if opType == "Get" then KvModel.GET else if opType == "Put" then KvModel.PUT else KvModel.APPEND
  }

  /** A clerk's operation as the specification sees it. */
  function InputOf(op: Op): Value { KvModel.KvInput(OpCode(op.opType), op.key, op.value) }

  /** The operation of a record; one that has not returned is taken to return at step `end`,
      with some output. */
  ghost predicate IsOperation(o: Operation<Value>, rec: Record, end: nat) {
    && o.clientId == rec.op.clientId && o.input == InputOf(rec.op) && o.call == rec.call && o.output.KvOutput?
    && if rec.done then o.output == KvModel.KvOutput(rec.output) && o.ret == rec.ret else o.ret == end
  }

  /** `h` completes the records: it has every operation that returned, with its own times and
      output, and of those that did not return it may have any. */
  ghost predicate Completes(h: seq<Operation<Value>>, of: seq<nat>, records: seq<Record>, end: nat) {
    && |of| == |h| && Distinct(of)
    && (forall j :: 0 <= j < |h| ==> of[j] < |records| && IsOperation(h[j], records[of[j]], end))
    && (forall k: nat :: k < |records| && records[k].done ==> k in of)
  }

  // ---------------------------------------------------------------- the order

  /** The first entries of their kind, in order: the order of execution. */
  ghost function Firsts(cmds: seq<Command>, k: nat): (r: seq<nat>)
    requires k < |cmds|
    ensures forall f: nat :: f in r <==> f <= k && FirstOfItsKind(cmds, f)
    ensures forall a, b :: 0 <= a < b < |r| ==> r[a] < r[b]
  {
    if k == 0 then []
    else
      var before := Firsts(cmds, k - 1);
      assert forall a :: 0 <= a < |before| ==> before[a] in before;
      if FirstOfItsKind(cmds, k) then before + [k] else before
  }

  /** The record of a request that was called. */
  ghost function RecordAt(records: seq<Record>, op: Op, t: nat): (k: nat)
    requires CalledBefore(records, op, t)
    ensures k < |records| && records[k].op == op
  {
    var k :| 0 <= k < |records| && records[k].op == op && records[k].call < t;
    k
  }

  ghost function OperationAt(cmds: seq<Command>, f: nat, rec: Record, end: nat): Operation<Value>
    requires 1 <= f < |cmds| && cmds[f].Kv?
  {
    Operation(rec.op.clientId, InputOf(rec.op), rec.call, KvModel.KvOutput(AnswerAt(cmds, f).1), if rec.done then rec.ret else end)
  }

  /** Every request of the log has a record. */
  ghost predicate AllRecorded(cmds: seq<Command>, records: seq<Record>, end: nat) {
    forall f :: 1 <= f < |cmds| && cmds[f].Kv? ==> CalledBefore(records, cmds[f].op, end) && ClerkOp(cmds[f].op)
  }

  ghost function RecordOf(cmds: seq<Command>, records: seq<Record>, end: nat, f: nat): (k: nat)
    requires AllRecorded(cmds, records, end) && FirstOfItsKind(cmds, f)
    ensures k < |records| && records[k].op == cmds[f].op
  {
    assert CalledBefore(records, cmds[f].op, end);
    RecordAt(records, cmds[f].op, end)
  }

  ghost function OfAll(cmds: seq<Command>, records: seq<Record>, end: nat, fs: seq<nat>): (r: seq<nat>)
    requires AllRecorded(cmds, records, end) && forall f :: f in fs ==> FirstOfItsKind(cmds, f)
    ensures |r| == |fs| && forall j :: 0 <= j < |r| ==> r[j] == RecordOf(cmds, records, end, fs[j])
  {
    seq(|fs|, j requires 0 <= j < |fs| => RecordOf(cmds, records, end, fs[j]))
  }

  ghost function HistoryOf(cmds: seq<Command>, records: seq<Record>, end: nat, fs: seq<nat>): (h: seq<Operation<Value>>)
    requires AllRecorded(cmds, records, end) && forall f :: f in fs ==> FirstOfItsKind(cmds, f)
    ensures |h| == |fs|
    ensures forall j :: 0 <= j < |h| ==> h[j] == OperationAt(cmds, fs[j], records[RecordOf(cmds, records, end, fs[j])], end)
  {
    seq(|fs|, j requires 0 <= j < |fs| => OperationAt(cmds, fs[j], records[RecordOf(cmds, records, end, fs[j])], end))
  }

  // ---------------------------------------------------------------- outputs

  /** The specification's map holds what the server's store holds. */
  ghost predicate SameStore(state: map<Key, string>, store: map<string, string>) {
    forall k :: StateOf(KvModel.MODEL, state, k) == Lookup(store, k)
  }

  /** Over the same data the specification allows an operation exactly what executing it gives,
      if it is a read, and anything if it is not; what both leave is again the same. */
  lemma ExecutionAllowed(state: map<Key, string>, store: map<string, string>, op: Op, output: string)
    requires SameStore(state, store) && ClerkOp(op)
    ensures var (store', err, value) := ExecuteOperation(store, op);
            var (ok, next) := WholeStep(KvModel.MODEL, KvModel.KeyOf, state, InputOf(op), KvModel.KvOutput(output));
            && (ok <==> (op.opType == "Get" ==> output == value))
            && SameStore(next, store')
  {
    assert StateOf(KvModel.MODEL, state, op.key) == Lookup(store, op.key);
    var store' := ExecuteOperation(store, op).0;
    var next := WholeStep(KvModel.MODEL, KvModel.KeyOf, state, InputOf(op), KvModel.KvOutput(output)).1;
    forall k ensures StateOf(KvModel.MODEL, next, k) == Lookup(store', k) {
      assert StateOf(KvModel.MODEL, state, k) == Lookup(store, k);
    }
  }

  /** Between two executions the store does not change. */
  lemma {:induction false} StoreStays(cmds: seq<Command>, a: nat, b: nat)
    requires a <= b < |cmds| && forall f :: a < f <= b ==> !FirstOfItsKind(cmds, f)
    ensures StoreOf(cmds, b) == StoreOf(cmds, a)
    decreases b
  {
    if a < b {
      StoreStays(cmds, a, b - 1);
    }
  }

  function Upto(a: nat, b: nat): (r: seq<nat>)
    requires a <= b
    ensures |r| == b - a && forall j :: 0 <= j < |r| ==> r[j] == a + j
  {
    seq(b - a, j requires 0 <= j => a + j)
  }

  /** Before its next execution the store is still the one after the last. */
  lemma NextStore(cmds: seq<Command>, fs: seq<nat>, j: nat, k: nat)
    requires 0 < |cmds| && fs == Firsts(cmds, |cmds| - 1) && j < |fs|
    requires k < |cmds| && forall a :: 0 <= a < |fs| ==> (a < j <==> fs[a] <= k)
    ensures fs[j] > k && fs[j] < |cmds| && FirstOfItsKind(cmds, fs[j])
    ensures StoreOf(cmds, fs[j] - 1) == StoreOf(cmds, k) == Replay(cmds, fs[j] - 1).store
  {
    hide FirstOfItsKind, StoreOf, Replay;
    var f := fs[j];
    assert f in fs;
    forall g: nat | g in fs ensures g <= k || g >= f {
      var a :| 0 <= a < |fs| && fs[a] == g;
      assert a == j || a < j || fs[j] < fs[a];
    }
    StoreStays(cmds, k, f - 1);
    ExactlyOnce(cmds, f - 1);
  }

  /** The j-th operation in the order of execution is allowed. */
  lemma OneAllowed(cmds: seq<Command>, rec: Record, end: nat, f: nat, state: map<Key, string>)
    requires 1 <= f < |cmds| && FirstOfItsKind(cmds, f) && rec.op == cmds[f].op && ClerkOp(rec.op)
    requires SameStore(state, StoreOf(cmds, f - 1)) && StoreOf(cmds, f - 1) == Replay(cmds, f - 1).store
    ensures var o := OperationAt(cmds, f, rec, end);
            var (ok, next) := WholeStep(KvModel.MODEL, KvModel.KeyOf, state, o.input, o.output);
            ok && SameStore(next, StoreOf(cmds, f))
  {
    ExecutionAllowed(state, StoreOf(cmds, f - 1), rec.op, AnswerAt(cmds, f).1);
  }

  /** Executed in the order of the log, every output is what the specification gives. */
  lemma {:induction false} LogAllowed(cmds: seq<Command>, records: seq<Record>, end: nat, fs: seq<nat>, j: nat, k: nat, state: map<Key, string>)
    requires AllRecorded(cmds, records, end) && 0 < |cmds| && fs == Firsts(cmds, |cmds| - 1) && j <= |fs|
    requires k < |cmds| && (forall a :: 0 <= a < |fs| ==> (a < j <==> fs[a] <= k)) && SameStore(state, StoreOf(cmds, k))
    ensures InRange(HistoryOf(cmds, records, end, fs), Upto(j, |fs|))
    ensures Allowed(Whole(KvModel.MODEL, KvModel.KeyOf), HistoryOf(cmds, records, end, fs), state, Upto(j, |fs|))
    decreases |fs| - j
  {
    hide SameStore, FirstOfItsKind, StoreOf, WholeStep, AnswerAt;
    if j < |fs| {
      var f := fs[j];
      NextStore(cmds, fs, j, k);
      var rec := records[RecordOf(cmds, records, end, f)];
      FirstAt(cmds, records, end, f);
      OneAllowed(cmds, rec, end, f, state);
      var h := HistoryOf(cmds, records, end, fs);
      assert h[j] == OperationAt(cmds, f, rec, end);
      var next := WholeStep(KvModel.MODEL, KvModel.KeyOf, state, h[j].input, h[j].output).1;
      forall a | 0 <= a < |fs| ensures a < j + 1 <==> fs[a] <= f {
        assert a < j ==> fs[a] < fs[j];
        assert a > j ==> fs[j] < fs[a];
      }
      LogAllowed(cmds, records, end, fs, j + 1, f, next);
      assert Upto(j, |fs|)[1..] == Upto(j + 1, |fs|);
      assert Upto(j, |fs|)[0] == j;
    }
  }

  lemma FirstAt(cmds: seq<Command>, records: seq<Record>, end: nat, f: nat)
    requires AllRecorded(cmds, records, end) && FirstOfItsKind(cmds, f)
    ensures 1 <= f < |cmds| && cmds[f].Kv? && ClerkOp(cmds[f].op)
  {
  }

  // ---------------------------------------------------------------- times

  lemma FirstsUnique(cmds: seq<Command>, f: nat, g: nat)
    requires FirstOfItsKind(cmds, f) && FirstOfItsKind(cmds, g) && cmds[f] == cmds[g]
    ensures f == g
  {
  }

  /** One operation that returned before another was called is executed first. */
  lemma TimesKept(cmds: seq<Command>, v: Service, end: nat, a: nat, b: nat)
    requires AllRecorded(cmds, v.records, end) && ClerksOk(v, end) && RecordsOk(cmds, v)
    requires FirstOfItsKind(cmds, a) && FirstOfItsKind(cmds, b) && a <= b
    ensures var ra, rb := RecordOf(cmds, v.records, end, a), RecordOf(cmds, v.records, end, b);
            OperationAt(cmds, a, v.records[ra], end).call <= OperationAt(cmds, b, v.records[rb], end).ret
  {
    var ra, rb := RecordOf(cmds, v.records, end, a), RecordOf(cmds, v.records, end, b);
    assert RecordKept(v, ra, end) && RecordKept(v, rb, end);
    if v.records[rb].done {
      assert DoneOk(cmds, v.records, rb);
      var f :| ExecutedAt(cmds, f, v.records[rb].op, v.records[rb].output) && CalledUpTo(cmds, f, v.records, v.records[rb].ret);
      FirstsUnique(cmds, f, b);
      assert CalledBefore(v.records, cmds[a].op, v.records[rb].ret);
      var j :| 0 <= j < |v.records| && v.records[j].op == cmds[a].op && v.records[j].call < v.records[rb].ret;
      assert j == ra by {
        assert SameRequest(v.records[j].op, v.records[ra].op);
      }
    }
  }

  // ---------------------------------------------------------------- the theorem

  lemma HistoryCompletes(cmds: seq<Command>, v: Service, end: nat, fs: seq<nat>)
    requires 0 < |cmds| && fs == Firsts(cmds, |cmds| - 1)
    requires AllRecorded(cmds, v.records, end) && ClerksOk(v, end) && RecordsOk(cmds, v)
    ensures Completes(HistoryOf(cmds, v.records, end, fs), OfAll(cmds, v.records, end, fs), v.records, end)
  {
    var h, of := HistoryOf(cmds, v.records, end, fs), OfAll(cmds, v.records, end, fs);
    forall a, b | 0 <= a < b < |of| ensures of[a] != of[b] {
      assert fs[a] in fs && fs[b] in fs;
      if of[a] == of[b] {
        FirstsUnique(cmds, fs[a], fs[b]);
      }
    }
    forall j | 0 <= j < |h| ensures IsOperation(h[j], v.records[of[j]], end) {
      assert fs[j] in fs;
      var rec := v.records[of[j]];
      if rec.done {
        assert DoneOk(cmds, v.records, of[j]);
        var f :| ExecutedAt(cmds, f, rec.op, rec.output);
        FirstsUnique(cmds, f, fs[j]);
      }
    }
    forall k: nat | k < |v.records| && v.records[k].done ensures k in of {
      assert DoneOk(cmds, v.records, k);
      var f :| ExecutedAt(cmds, f, v.records[k].op, v.records[k].output);
      assert f in fs;
      var j :| 0 <= j < |fs| && fs[j] == f;
      assert of[j] == k by {
        assert SameRequest(v.records[of[j]].op, v.records[k].op);
      }
    }
  }

  lemma AllTimesKept(cmds: seq<Command>, v: Service, end: nat, fs: seq<nat>)
    requires 0 < |cmds| && fs == Firsts(cmds, |cmds| - 1)
    requires AllRecorded(cmds, v.records, end) && ClerksOk(v, end) && RecordsOk(cmds, v)
    ensures InRange(HistoryOf(cmds, v.records, end, fs), Upto(0, |fs|))
    ensures KeepsTime(HistoryOf(cmds, v.records, end, fs), Upto(0, |fs|)) && Timely(HistoryOf(cmds, v.records, end, fs))
  {
    hide AllRecorded, ClerksOk, RecordsOk, FirstOfItsKind;
    var h, order := HistoryOf(cmds, v.records, end, fs), Upto(0, |fs|);
    forall a, b | 0 <= a < b < |order| ensures h[order[a]].call <= h[order[b]].ret {
      assert fs[a] in fs && fs[b] in fs;
      TimesKept(cmds, v, end, fs[a], fs[b]);
    }
    forall a | 0 <= a < |h| ensures h[a].call <= h[a].ret {
      assert fs[a] in fs;
      TimesKept(cmds, v, end, fs[a], fs[a]);
    }
  }

  lemma UptoIsAll(n: nat)
    ensures Distinct(Upto(0, n)) && Search.Elements(Upto(0, n)) == Search.Ids(n)
  {
    forall i: nat ensures i in Search.Elements(Upto(0, n)) <==> i in Search.Ids(n) {
      if i < n {
        assert Upto(0, n)[i] == i;
      }
    }
  }

  lemma HistoryOrders(cmds: seq<Command>, v: Service, end: nat, fs: seq<nat>)
    requires 0 < |cmds| && fs == Firsts(cmds, |cmds| - 1)
    requires AllRecorded(cmds, v.records, end) && ClerksOk(v, end) && RecordsOk(cmds, v)
    ensures Timely(HistoryOf(cmds, v.records, end, fs))
    ensures OpsLinearizable(Whole(KvModel.MODEL, KvModel.KeyOf), HistoryOf(cmds, v.records, end, fs))
  {
    hide AllRecorded, ClerksOk, RecordsOk, KeepsTime, Allowed, Timely;
    var h := HistoryOf(cmds, v.records, end, fs);
    forall a | 0 <= a < |fs| ensures fs[a] > 0 {
      assert fs[a] in fs;
    }
    LogAllowed(cmds, v.records, end, fs, 0, 0, map[]);
    AllTimesKept(cmds, v, end, fs);
    UptoIsAll(|fs|);
    assert Orders(Whole(KvModel.MODEL, KvModel.KeyOf), h, Search.Ids(|h|), Upto(0, |fs|));
  }

  lemma LogRecorded(rules: RaftPeer.Rules, n: nat, clients: set<int>, r: ServiceRun, log: seq<RaftPeer.Entry>, i: nat, s: nat)
    requires BenignServiceRun(rules, n, clients, r) && AllFit(n, r.raft, log)
    requires i < |r.raft.states| && s < n && s < |r.raft.states[i].peers| && |log| == Commit(r.raft, i, s) + 1
    ensures AllRecorded(CommandsOf(log), r.services[|r.steps|].records, |r.steps|)
  {
    var cmds, end := CommandsOf(log), |r.steps|;
    var v := r.services[end];
    RunKeeps(rules, n, log, r, clients, i);
    RunKeeps(rules, n, log, r, clients, end);
    var p := r.raft.states[i].peers[s];
    assert Fits(log, p) && PeerOurs(p, r.services[i].requests);
    CommittedCovered(log, p, r.services[i].requests, p.commitIndex);
    RequestsStay(rules, n, clients, r, i, end);
    forall f | 1 <= f < |cmds| && cmds[f].Kv? ensures CalledBefore(v.records, cmds[f].op, end) && ClerkOp(cmds[f].op) {
      NumbersBounded(v, end, cmds[f].op);
    }
  }

  lemma {:induction false} RequestsStay(rules: RaftPeer.Rules, n: nat, clients: set<int>, r: ServiceRun, i: nat, j: nat)
    requires BenignServiceRun(rules, n, clients, r) && i <= j < |r.services|
    ensures r.services[i].requests <= r.services[j].requests
    decreases j
  {
    if i < j {
      RequestsStay(rules, n, clients, r, i, j - 1);
      assert IsServiceStep(r, j - 1);
    }
  }

  /** In every run of the service, with any interleaving, retries, loss, changes of leader,
      crashes and restarts: the operations that returned, completed by some that did not, are
      linearizable for the whole key map. */
  lemma ServiceLinearizable(rules: RaftPeer.Rules, n: nat, clients: set<int>, r: ServiceRun)
    returns (h: seq<Operation<Value>>, of: seq<nat>)
    requires BenignServiceRun(rules, n, clients, r)
    ensures Completes(h, of, r.services[|r.steps|].records, |r.steps|) && Timely(h)
    ensures OpsLinearizable(Whole(KvModel.MODEL, KvModel.KeyOf), h)
  {
    var log, i, s := CommonLog(rules, n, r.raft);
    var cmds, end := CommandsOf(log), |r.steps|;
    var v := r.services[end];
    RunKeeps(rules, n, log, r, clients, end);
    if n > 0 {
      RunSized(rules, n, r.raft);
      LogRecorded(rules, n, clients, r, log, i, s);
    }
    var fs := Firsts(cmds, |cmds| - 1);
    h, of := HistoryOf(cmds, v.records, end, fs), OfAll(cmds, v.records, end, fs);
    HistoryCompletes(cmds, v, end, fs);
    HistoryOrders(cmds, v, end, fs);
  }
}

/** What a key/value server keeps, and what one applied command does to it. */
module KvState {
  import opened Commands

  datatype Err = OK | ErrNoKey | ErrUnknownOp

  /** store: the data.  lastSeq and lastResult: by client, the last request executed and the
      answer of its last Get.  index: the last log index applied. */
  datatype Replica = Replica(store: map<string, string>, lastSeq: map<int, int>, lastResult: map<int, string>, index: nat)

  const EMPTY := Replica(map[], map[], map[], 0)

  datatype Result = NoResult | Result(err: Err, value: string)

  function Lookup(store: map<string, string>, key: string): string { if key in store then store[key] else "" }

  function ExecuteOperation(store: map<string, string>, op: Op): (map<string, string>, Err, string) {
    if op.opType == "Get" then
      if op.key in store then (store, OK, store[op.key]) else (store, ErrNoKey, "")
    else if op.opType == "Put" then (store[op.key := op.value], OK, "")
    else if op.opType == "Append" then (store[op.key := Lookup(store, op.key) + op.value], OK, "")
    else (store, ErrUnknownOp, "")
  }

  /** What a read finds: what was last put under its key and appended to it since. */
  lemma ReadAfter(store: map<string, string>, op: Op, get: Op)
    requires get.opType == "Get"
    ensures ExecuteOperation(map[], get) == (map[], ErrNoKey, "")
    ensures var after := ExecuteOperation(store, op).0;
            var (same, err, value) := ExecuteOperation(after, get);
            && same == after && (err == OK || (err == ErrNoKey && value == ""))
            && (get.key != op.key ==> (err, value) == (ExecuteOperation(store, get).1, ExecuteOperation(store, get).2))
            && (op.opType == "Put" && get.key == op.key ==> (err, value) == (OK, op.value))
            && (op.opType == "Append" && get.key == op.key ==> (err, value) == (OK, ExecuteOperation(store, get).2 + op.value))
            && (op.opType != "Put" && op.opType != "Append" ==> after == store)
  {
  }

  /** Every operation type but the three is an error, and only reads of what is not there fail
      otherwise. */
  lemma ErrorsExactly(store: map<string, string>, op: Op)
    ensures ExecuteOperation(store, op).1 == ErrUnknownOp <==> op.opType != "Get" && op.opType != "Put" && op.opType != "Append"
    ensures ExecuteOperation(store, op).1 == ErrNoKey <==> op.opType == "Get" && op.key !in store
    ensures op.opType != "Get" ==> ExecuteOperation(store, op).2 == ""
  {
  }

  /** The request was executed before, or a later one of its client was. */
  predicate IsDuplicate(kv: Replica, op: Op) {
    op.clientId in kv.lastSeq && kv.lastSeq[op.clientId] >= op.seqNum
  }

  function CachedResult(kv: Replica, clientId: int): string {
    if clientId in kv.lastResult then kv.lastResult[clientId] else ""
  }

  function ApplyOp(kv: Replica, op: Op): (Replica, Result) {
    if IsDuplicate(kv, op) then
      (kv, Result(OK, if op.opType == "Get" then CachedResult(kv, op.clientId) else ""))
    else
      var (store, err, value) := ExecuteOperation(kv.store, op);
      (kv.(store := store,
           lastSeq := kv.lastSeq[op.clientId := op.seqNum],
           lastResult := if op.opType == "Get" then kv.lastResult[op.clientId := value] else kv.lastResult),
       Result(err, value))
  }

  /** One delivered command: ignored when its index was passed already. */
  function ApplyCommand(kv: Replica, index: nat, command: Command): (Replica, Result) {
    if index <= kv.index then (kv, NoResult)
    else
      var next := kv.(index := index);
      if command.Kv? then ApplyOp(next, command.op) else (next, NoResult)
  }

  // ---------------------------------------------------------------- a whole log

  /** The state after the commands of log indices 1..k; index 0 holds the sentinel. */
  function Replay(log: seq<Command>, k: nat): Replica
    requires k < |log|
  {
    if k == 0 then EMPTY else ApplyCommand(Replay(log, k - 1), k, log[k]).0
  }

  lemma {:induction false} ReplayIndex(log: seq<Command>, k: nat)
    requires k < |log|
    ensures Replay(log, k).index == k
  {
    if k > 0 {
      ReplayIndex(log, k - 1);
    }
  }

  /** Entry f is the first request of its client with a number that high: no earlier entry of
      the client has this number or a later one. */
  ghost predicate FirstOfItsKind(log: seq<Command>, f: nat) {
    && 1 <= f < |log| && log[f].Kv?
    && forall g :: 1 <= g < f && log[g].Kv? && log[g].op.clientId == log[f].op.clientId ==> log[g].op.seqNum < log[f].op.seqNum
  }

  /** The highest number among a client's entries up to k is the one the server remembers. */
  lemma {:induction false} RemembersHighest(log: seq<Command>, k: nat, c: int)
    requires k < |log|
    ensures forall g :: 1 <= g <= k && log[g].Kv? && log[g].op.clientId == c ==>
              c in Replay(log, k).lastSeq && log[g].op.seqNum <= Replay(log, k).lastSeq[c]
    ensures c in Replay(log, k).lastSeq ==>
              exists g :: 1 <= g <= k && log[g].Kv? && log[g].op.clientId == c && log[g].op.seqNum == Replay(log, k).lastSeq[c]
  {
    if k > 0 {
      RemembersHighest(log, k - 1, c);
      ReplayIndex(log, k - 1);
      if log[k].Kv? && !IsDuplicate(Replay(log, k - 1), log[k].op) && log[k].op.clientId == c {
        assert Replay(log, k).lastSeq[c] == log[k].op.seqNum;
      } else {
        assert Replay(log, k).lastSeq == Replay(log, k - 1).lastSeq || log[k].op.clientId != c;
      }
    }
  }

  /** A server executes an entry exactly when it is the first of its kind. */
  lemma ExecutedExactly(log: seq<Command>, f: nat)
    requires 1 <= f < |log| && log[f].Kv?
    ensures FirstOfItsKind(log, f) <==> !IsDuplicate(Replay(log, f - 1), log[f].op)
  {
    RemembersHighest(log, f - 1, log[f].op.clientId);
  }

  /** Plain execution, without tables, of the entries that are the first of their kind. */
  ghost function StoreOf(log: seq<Command>, k: nat): map<string, string>
    requires k < |log|
  {
    if k == 0 then map[]
    else if FirstOfItsKind(log, k) then ExecuteOperation(StoreOf(log, k - 1), log[k].op).0
    else StoreOf(log, k - 1)
  }

  /** Exactly once: however often each request is in the log, the store is as if each had been
      executed at its first entry and nowhere else. */
  lemma {:induction false} ExactlyOnce(log: seq<Command>, k: nat)
    requires k < |log|
    ensures Replay(log, k).store == StoreOf(log, k)
  {
    if k > 0 {
      ExactlyOnce(log, k - 1);
      ReplayIndex(log, k - 1);
      if log[k].Kv? {
        ExecutedExactly(log, k);
      }
    }
  }

  /** The answer of the entry when it is executed. */
  function AnswerAt(log: seq<Command>, f: nat): (Err, string)
    requires 1 <= f < |log| && log[f].Kv?
  {
    var (_, err, value) := ExecuteOperation(Replay(log, f - 1).store, log[f].op);
    (err, value)
  }

  /** What the tables say of a client is about the last of its entries that was executed. */
  ghost predicate LastExecuted(log: seq<Command>, k: nat, c: int, f: nat)
    requires k < |log|
  {
    && FirstOfItsKind(log, f) && f <= k && log[f].op.clientId == c
    && c in Replay(log, k).lastSeq && log[f].op.seqNum == Replay(log, k).lastSeq[c]
    && (log[f].op.opType == "Get" ==> CachedResult(Replay(log, k), c) == AnswerAt(log, f).1)
  }

  lemma {:induction false} TablesTell(log: seq<Command>, k: nat, c: int) returns (f: nat)
    requires k < |log| && c in Replay(log, k).lastSeq
    ensures LastExecuted(log, k, c, f)
  {
    ReplayIndex(log, k - 1);
    if log[k].Kv? && log[k].op.clientId == c && !IsDuplicate(Replay(log, k - 1), log[k].op) {
      ExecutedExactly(log, k);
      f := k;
    } else {
      f := TablesTell(log, k - 1, c);
    }
  }

  /** Replaying a prefix gives the same whatever follows it. */
  lemma {:induction false} ReplayPrefix(a: seq<Command>, b: seq<Command>, k: nat)
    requires k < |a| && k < |b| && forall j :: 0 <= j <= k ==> a[j] == b[j]
    ensures Replay(a, k) == Replay(b, k)
  {
    if k > 0 {
      ReplayPrefix(a, b, k - 1);
    }
  }

  // ---------------------------------------------------------------- out of order

  /** A command delivered late is dropped, and nothing else is. */
  lemma DroppedExactly(kv: Replica, index: nat, command: Command)
    ensures ApplyCommand(kv, index, command) == (kv, NoResult) <==> index <= kv.index
  {
  }

  function ApplyAll(kv: Replica, ds: seq<Delivery>): Replica
    decreases |ds|
  {
    if |ds| == 0 then kv else ApplyAll(ApplyCommand(kv, ds[0].index, ds[0].command).0, ds[1..])
  }

  /** The deliveries whose index is above `low` and above all earlier ones. */
  function Ascending(ds: seq<Delivery>, low: nat): (r: seq<Delivery>)
    ensures forall i :: 0 <= i < |r| ==> r[i] in ds && r[i].index > low
    ensures forall i, j :: 0 <= i < j < |r| ==> r[i].index < r[j].index
  {
    if |ds| == 0 then []
    else if ds[0].index > low then [ds[0]] + Ascending(ds[1..], ds[0].index)
    else Ascending(ds[1..], low)
  }

  /** Deliveries in any order, with repetitions: the state is that of the ascending ones alone. */
  lemma {:induction false} AnyOrder(kv: Replica, ds: seq<Delivery>)
    ensures ApplyAll(kv, ds) == ApplyAll(kv, Ascending(ds, kv.index))
    decreases |ds|
  {
    if |ds| > 0 {
      var d := ds[0];
      DroppedExactly(kv, d.index, d.command);
      IndexRises(kv, d.index, d.command);
      hide ApplyCommand;
      AnyOrder(ApplyCommand(kv, d.index, d.command).0, ds[1..]);
      if d.index > kv.index {
        var rest := Ascending(ds[1..], d.index);
        assert ([d] + rest)[1..] == rest;
      }
    }
  }

  lemma IndexRises(kv: Replica, index: nat, command: Command)
    ensures ApplyCommand(kv, index, command).0.index == if index <= kv.index then kv.index else index
  {
  }

  /** The effect of `a` on the store is gone once `b` is executed. */
  predicate Hidden(store: map<string, string>, a: Op, b: Op) {
    var after := ExecuteOperation(store, a).0;
    || after == store
    || (b.key == a.key && (b.opType == "Put" || (b.opType == "Append" && Lookup(after, a.key) == Lookup(store, a.key))))
  }

  lemma SameTail(x: string, y: string, tail: string)
    ensures x + tail == y + tail <==> x == y
  {
    if x + tail == y + tail {
      assert x == (x + tail)[..|x|] && y == (y + tail)[..|x|];
    }
  }

  lemma HiddenExactly(store: map<string, string>, a: Op, b: Op)
    ensures Hidden(store, a, b) <==> ExecuteOperation(ExecuteOperation(store, a).0, b).0 == ExecuteOperation(store, b).0
  {
    var after := ExecuteOperation(store, a).0;
    if after != store {
      assert a.key in after && forall k :: k != a.key ==> (k in after <==> k in store) && (k in store ==> after[k] == store[k]);
      var late, right := ExecuteOperation(store, b).0, ExecuteOperation(after, b).0;
      if b.key != a.key {
        assert (a.key in late <==> a.key in store) && right[a.key] == after[a.key];
        assert a.key in store ==> late[a.key] == store[a.key];
      } else if b.opType == "Put" {
        assert late == right;
      } else if b.opType == "Append" {
        SameTail(Lookup(after, a.key), Lookup(store, a.key), b.value);
        assert late[a.key] == Lookup(store, a.key) + b.value && right[a.key] == Lookup(after, a.key) + b.value;
        assert Lookup(after, a.key) == Lookup(store, a.key) ==> late == right;
      }
    }
  }

  /** Executing `op` leaves the answer that is remembered for its client as it is. */
  predicate AnswerKnown(kv: Replica, op: Op) {
    op.opType == "Get" ==> op.clientId in kv.lastResult && kv.lastResult[op.clientId] == ExecuteOperation(kv.store, op).2
  }

  /** When the new request `a` may be lost because `b` was applied first. */
  predicate Replaced(kv: Replica, a: Op, b: Op) {
    && b.clientId == a.clientId
    && if b.seqNum == a.seqNum then
         && ExecuteOperation(kv.store, a).0 == ExecuteOperation(kv.store, b).0
         && if a.opType == "Get" && b.opType == "Get" then ExecuteOperation(kv.store, a).2 == ExecuteOperation(kv.store, b).2
            else AnswerKnown(kv, a) && AnswerKnown(kv, b)
       else
         b.seqNum > a.seqNum && Hidden(kv.store, a, b) && (b.opType == "Get" || AnswerKnown(kv, a))
  }

  lemma LostOnOtherClient(kv: Replica, a: Op, b: Op)
    requires !IsDuplicate(kv, a) && b.clientId != a.clientId
    ensures ApplyOp(ApplyOp(kv, a).0, b).0 != ApplyOp(kv, b).0
  {
    var late, right := ApplyOp(kv, b).0, ApplyOp(ApplyOp(kv, a).0, b).0;
    assert a.clientId in right.lastSeq && right.lastSeq[a.clientId] == a.seqNum;
    assert a.clientId in late.lastSeq <==> a.clientId in kv.lastSeq;
  }

  /** The answers remembered for the client, when both requests are executed or one of them. */
  lemma AnswersKept(kv: Replica, a: Op, value: string)
    ensures !IsDuplicate(kv, a) ==> (ApplyOp(kv, a).0.lastResult == kv.lastResult <==> AnswerKnown(kv, a))
    ensures a.opType == "Get" ==> kv.lastResult[a.clientId := ExecuteOperation(kv.store, a).2][a.clientId := value] == kv.lastResult[a.clientId := value]
  {
    if a.opType == "Get" && AnswerKnown(kv, a) {
      assert kv.lastResult[a.clientId := ExecuteOperation(kv.store, a).2] == kv.lastResult;
    }
  }

  lemma LostOnSameNumber(kv: Replica, a: Op, b: Op)
    requires !IsDuplicate(kv, a) && b.clientId == a.clientId && b.seqNum == a.seqNum
    ensures ApplyOp(ApplyOp(kv, a).0, b).0 == ApplyOp(kv, b).0 <==> Replaced(kv, a, b)
  {
    var c := a.clientId;
    var one, other := ApplyOp(kv, a).0, ApplyOp(kv, b).0;
    assert ApplyOp(one, b).0 == one && one.lastSeq == other.lastSeq;
    if a.opType == "Get" && b.opType == "Get" {
      assert one.lastResult[c] == ExecuteOperation(kv.store, a).2 && other.lastResult[c] == ExecuteOperation(kv.store, b).2;
    } else {
      AnswersKept(kv, a, "");
      AnswersKept(kv, b, "");
    }
  }

  lemma LostOnLaterNumber(kv: Replica, a: Op, b: Op)
    requires !IsDuplicate(kv, a) && b.clientId == a.clientId && b.seqNum > a.seqNum
    ensures ApplyOp(ApplyOp(kv, a).0, b).0 == ApplyOp(kv, b).0 <==> Replaced(kv, a, b)
  {
    var c := a.clientId;
    var one := ApplyOp(kv, a).0;
    var late, right := ApplyOp(kv, b).0, ApplyOp(one, b).0;
    HiddenExactly(kv.store, a, b);
    AnswersKept(kv, a, ExecuteOperation(kv.store, b).2);
    assert late.lastSeq == right.lastSeq by {
      assert kv.lastSeq[c := a.seqNum][c := b.seqNum] == kv.lastSeq[c := b.seqNum];
    }
  }

  /** Two appliers can deliver neighbouring entries in the wrong order; the first of them is
      then dropped.  The state is still the right one exactly when that entry was no new request
      anyway, or the second is of the same client and leaves nothing of it: another request of
      its number with the same effect, or a later one that overwrites what it did. */
  lemma OutOfOrder(kv: Replica, k: nat, a: Command, b: Command)
    requires kv.index < k
    ensures ApplyCommand(ApplyCommand(kv, k + 1, b).0, k, a).0 == ApplyCommand(kv, k + 1, b).0
    ensures ApplyCommand(ApplyCommand(kv, k + 1, b).0, k, a).0 == ApplyCommand(ApplyCommand(kv, k, a).0, k + 1, b).0
            <==> !a.Kv? || IsDuplicate(kv, a.op) || (b.Kv? && Replaced(kv, a.op, b.op))
  {
    if a.Kv? && !IsDuplicate(kv, a.op) {
      var next := kv.(index := k + 1);
      var late, right := ApplyCommand(kv, k + 1, b).0, ApplyCommand(ApplyCommand(kv, k, a).0, k + 1, b).0;
      if !b.Kv? {
        assert right.lastSeq[a.op.clientId] == a.op.seqNum;
      } else {
        assert late == ApplyOp(next, b.op).0 && right == ApplyOp(ApplyOp(next, a.op).0, b.op).0;
        assert Replaced(next, a.op, b.op) == Replaced(kv, a.op, b.op);
        if b.op.clientId != a.op.clientId {
          LostOnOtherClient(next, a.op, b.op);
        } else if b.op.seqNum < a.op.seqNum {
          assert right.lastSeq[a.op.clientId] == a.op.seqNum;
        } else if b.op.seqNum == a.op.seqNum {
          LostOnSameNumber(next, a.op, b.op);
        } else {
          LostOnLaterNumber(next, a.op, b.op);
        }
      }
    }
  }
}

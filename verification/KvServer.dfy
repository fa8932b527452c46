/** A key/value server as the object it is.  Its methods are proved to do to the object what
    `KvState` says they do to its tables. */
module KvServer {
  import opened Commands
  import opened KvState

  /** What a waiting request is told: the peer's term when the entry was applied, and the
      result. */
  datatype Notice = NoNotice | Notice(term: nat, result: Result)

  /** A channel that holds one notice. */
  class NotifyCh {
    var slot: Notice

    constructor ()
      ensures slot == NoNotice
    {
      slot := NoNotice;
    }
  }

  /** The answer of a request handler. */
  datatype Reply = WrongLeader | TimedOut | Answer(err: Err, value: string)

  class KVServer {
    var kvStore: map<string, string>
    var lastApplied: map<int, int>
    var lastResult: map<int, string>
    var notifyChans: map<nat, NotifyCh>
    var lastAppliedIndex: nat

    ghost function Abs(): Replica
      reads this
    {
      Replica(kvStore, lastApplied, lastResult, lastAppliedIndex)
    }

    constructor ()
      ensures Abs() == EMPTY && notifyChans == map[]
    {
      kvStore := map[];
      lastApplied := map[];
      lastResult := map[];
      notifyChans := map[];
      lastAppliedIndex := 0;
    }

    method ExecuteOperation(op: Op) returns (err: Err, value: string)
      modifies this`kvStore
      ensures (kvStore, err, value) == KvState.ExecuteOperation(old(kvStore), op)
    {
      if op.opType == "Get" {
        if op.key in kvStore {
          return OK, kvStore[op.key];
        } else {
          return ErrNoKey, "";
        }
      } else if op.opType == "Put" {
        kvStore := kvStore[op.key := op.value];
        return OK, "";
      } else if op.opType == "Append" {
        kvStore := kvStore[op.key := Lookup(kvStore, op.key) + op.value];
        return OK, "";
      } else {
        return ErrUnknownOp, "";
      }
    }

    /** Applies one delivered command, and tells the request that waits at its index. */
    method ApplyCommand(index: nat, command: Command, currentTerm: nat)
      modifies this`kvStore, this`lastApplied, this`lastResult, this`lastAppliedIndex, notifyChans.Values
      ensures Abs() == KvState.ApplyCommand(old(Abs()), index, command).0
      ensures forall i :: i in notifyChans ==>
                var told := i == index && old(notifyChans[i].slot) == NoNotice && KvState.ApplyCommand(old(Abs()), index, command).1.Result?;
                told ==> notifyChans[i].slot == Notice(currentTerm, KvState.ApplyCommand(old(Abs()), index, command).1)
      ensures forall c :: c in notifyChans.Values && (old(c.slot) != NoNotice || !(index in notifyChans && c == notifyChans[index])) ==>
                c.slot == old(c.slot)
      ensures index !in notifyChans || KvState.ApplyCommand(old(Abs()), index, command).1.NoResult? ==>
                forall c :: c in notifyChans.Values ==> c.slot == old(c.slot)
    {
      if index <= lastAppliedIndex {
        return;
      }
      lastAppliedIndex := index;
      if !command.Kv? {
        return;
      }
      var op := command.op;
      var result: Result;
      if op.clientId in lastApplied && lastApplied[op.clientId] >= op.seqNum {
        var value := "";
        if op.opType == "Get" {
          value := if op.clientId in lastResult then lastResult[op.clientId] else "";
        }
        result := Result(OK, value);
      } else {
        var err, value := ExecuteOperation(op);
        result := Result(err, value);
        lastApplied := lastApplied[op.clientId := op.seqNum];
        if op.opType == "Get" {
          lastResult := lastResult[op.clientId := value];
        }
      }
      if index in notifyChans {
        var notifyCh := notifyChans[index];
        if notifyCh.slot == NoNotice {
          notifyCh.slot := Notice(currentTerm, result);
        }
      }
    }

    /** What a handler answers from the tables alone, before it proposes anything. */
    method AnswerDuplicate(op: Op) returns (known: bool, value: string)
      ensures known == IsDuplicate(Abs(), op)
      ensures known && op.opType == "Get" ==> value == CachedResult(Abs(), op.clientId)
      ensures !known || op.opType != "Get" ==> value == ""
    {
      if op.clientId in lastApplied && lastApplied[op.clientId] >= op.seqNum {
        if op.opType == "Get" {
          value := if op.clientId in lastResult then lastResult[op.clientId] else "";
        } else {
          value := "";
        }
        return true, value;
      }
      return false, "";
    }

    /** Begin to wait for the entry at `index`. */
    method Register(index: nat) returns (notifyCh: NotifyCh)
      modifies this`notifyChans
      ensures fresh(notifyCh) && notifyCh.slot == NoNotice && notifyChans == old(notifyChans)[index := notifyCh]
    {
      notifyCh := new NotifyCh();
      notifyChans := notifyChans[index := notifyCh];
    }

    /** Stop waiting: with a notice, or without one after the time is up.  A notice of another
        term than the request was proposed in is not trusted. */
    method Conclude(index: nat, term: nat, notifyCh: NotifyCh) returns (reply: Reply)
      modifies this`notifyChans
      ensures notifyChans == old(notifyChans) - {index}
      ensures reply == match notifyCh.slot
                       case NoNotice => TimedOut
                       case Notice(t, result) =>
                         if t != term || result.NoResult? then WrongLeader else Answer(result.err, result.value)
    {
      notifyChans := notifyChans - {index};
      match notifyCh.slot
      case NoNotice => reply := TimedOut;
      case Notice(t, result) =>
        if t != term || result.NoResult? {
          reply := WrongLeader;
        } else {
          reply := Answer(result.err, result.value);
        }
    }
  }
}

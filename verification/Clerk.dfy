/** A client of the service: numbered requests, retried at one server after another until one
    accepts. */
module Clerk {
  import opened Commands
  import opened KvState
  import opened KvService

  /** What becomes of one call: lost, refused as to the wrong server or too late, or answered. */
  datatype Attempt = Lost | Refused | Answered(err: Err, value: string)

  predicate Ends(op: Op, a: Attempt) { a.Answered? && Accepted(op, a.err) }

  /** A read is answered with a value, or with the answer that there is none. */
  predicate Found(a: Attempt) { a.Answered? && (a.err == OK || a.err == ErrNoKey) }

  predicate Written(a: Attempt) { a.Answered? && a.err == OK }

  datatype Sent = Sent(server: nat, op: Op)

  /** Every call carries the same request; they go around the servers from `first`. */
  ghost predicate RoundRobin(sent: seq<Sent>, op: Op, first: nat, servers: nat)
    requires servers > 0
  {
    && (forall i :: 0 <= i < |sent| ==> sent[i].op == op && sent[i].server < servers)
    && (|sent| > 0 ==> sent[0].server == first)
    && (forall i :: 0 < i < |sent| ==> sent[i].server == (sent[i - 1].server + 1) % servers)
  }

  class Client {
    const servers: nat
    const clientId: int
    var seqNum: int
    var lastLeader: nat

    ghost predicate Valid()
      reads this
    {
      lastLeader < servers
    }

    constructor (servers: nat, clientId: int)
      requires servers > 0
      ensures Valid() && this.servers == servers && this.clientId == clientId && seqNum == 0 && lastLeader == 0
    {
      this.servers, this.clientId := servers, clientId;
      seqNum, lastLeader := 0, 0;
    }

    /** Sends `op` around the servers, from the last leader on, while the network does
        `attempts` to the calls.  Not done means still trying. */
    method Retry(op: Op, attempts: seq<Attempt>) returns (done: bool, output: string, sent: seq<Sent>)
      requires Valid()
      modifies this`lastLeader
      ensures Valid() && |sent| <= |attempts|
      ensures RoundRobin(sent, op, old(lastLeader), servers)
      ensures forall i :: 0 <= i < |sent| - 1 ==> !Ends(op, attempts[i])
      ensures done <==> exists i :: 0 <= i < |attempts| && Ends(op, attempts[i])
      ensures done ==>
                && |sent| > 0 && Ends(op, attempts[|sent| - 1]) && lastLeader == sent[|sent| - 1].server
                && output == Outcome(op, attempts[|sent| - 1].err, attempts[|sent| - 1].value)
      ensures !done ==> lastLeader == old(lastLeader) && |sent| == |attempts|
    {
      var serverIndex := lastLeader;
      sent, output, done := [], "", false;
      while |sent| < |attempts|
        invariant |sent| <= |attempts| && lastLeader == old(lastLeader)
        invariant serverIndex == (if |sent| == 0 then lastLeader else (sent[|sent| - 1].server + 1) % servers) && serverIndex < servers
        invariant RoundRobin(sent, op, lastLeader, servers) && forall i :: 0 <= i < |sent| ==> !Ends(op, attempts[i])
      {
        var reply := attempts[|sent|];
        sent := sent + [Sent(serverIndex, op)];
        if Ends(op, reply) {
          lastLeader := serverIndex;
          output := Outcome(op, reply.err, reply.value);
          done := true;
          return;
        }
        serverIndex := (serverIndex + 1) % servers;
      }
    }

    method Get(key: string, attempts: seq<Attempt>) returns (done: bool, output: string, sent: seq<Sent>)
      requires Valid()
      modifies this
      ensures Valid() && seqNum == old(seqNum) + 1
      ensures var op := Op("Get", key, "", clientId, seqNum);
              && ClerkOp(op) && RoundRobin(sent, op, old(lastLeader), servers) && |sent| <= |attempts|
              && (done <==> exists i :: 0 <= i < |attempts| && Found(attempts[i]))
              && (forall i :: 0 <= i < |sent| - 1 ==> !Found(attempts[i]))
              && (done ==> |sent| > 0 && Found(attempts[|sent| - 1]) && lastLeader == sent[|sent| - 1].server)
              && (done ==> output == if attempts[|sent| - 1].err == OK then attempts[|sent| - 1].value else "")
              && (!done ==> lastLeader == old(lastLeader) && |sent| == |attempts|)
    {
      seqNum := seqNum + 1;
      var op := Op("Get", key, "", clientId, seqNum);
      assert forall a :: Ends(op, a) <==> Found(a);
      done, output, sent := Retry(op, attempts);
    }

    method PutAppend(key: string, value: string, op: string, attempts: seq<Attempt>) returns (done: bool, sent: seq<Sent>)
      requires Valid() && (op == "Put" || op == "Append")
      modifies this
      ensures Valid() && seqNum == old(seqNum) + 1
      ensures var request := Op(op, key, value, clientId, seqNum);
              && ClerkOp(request) && RoundRobin(sent, request, old(lastLeader), servers) && |sent| <= |attempts|
              && (done <==> exists i :: 0 <= i < |attempts| && Written(attempts[i]))
              && (forall i :: 0 <= i < |sent| - 1 ==> !Written(attempts[i]))
              && (done ==> |sent| > 0 && Written(attempts[|sent| - 1]))
              && (done ==> lastLeader == sent[|sent| - 1].server)
              && (!done ==> lastLeader == old(lastLeader) && |sent| == |attempts|)
    {
      seqNum := seqNum + 1;
      var output;
      var request := Op(op, key, value, clientId, seqNum);
      assert forall a :: Ends(request, a) <==> Written(a);
      done, output, sent := Retry(request, attempts);
    }
  }
}

/** The replicated key/value service over a Raft cluster: clerks that retry, handlers that wait
    at a log index, appliers, and the crashes of all of them. */
module KvService {
  import opened Commands
  import opened KvState
  import RaftPeer
  import RaftCluster
  import RaftAppliers

  /** A handler of `server` that proposed `op` at `index` in `term`, by step `at` of the run. */
  datatype Pending = Pending(server: nat, index: nat, term: nat, op: Op, at: nat)

  /** A reply, paired by the call with its request. */
  datatype Reply = Reply(op: Op, err: Err, value: string)

  /** A server: its tables, and the appliers of its peer with what they have taken and it has
      not applied yet. */
  datatype Server = Server(kv: Replica, appliers: RaftAppliers.Appliers)

  /** One operation of a clerk, as its caller sees it: called at step `call`, and once done,
      returned at step `ret` with `output`. */
  datatype Record = Record(op: Op, call: nat, done: bool, output: string, ret: nat)

  /** A clerk: its last sequence number, and its outstanding operation among the records. */
  datatype Clerk = Clerk(seqNum: int, waiting: bool, current: nat)

  /** requests and replies are never removed, which covers retries, loss and delay. */
  datatype Service = Service(
    servers: seq<Server>,
    pendings: set<Pending>,
    requests: set<Op>,
    replies: set<Reply>,
    clerks: map<int, Clerk>,
    records: seq<Record>)

  datatype Step =
    | Raft(step: RaftCluster.Step)
    | Take(s: nat, a: nat)
    | Send(s: nat, a: nat)
    | Reboot(s: nat)
    | Interrupted(s: nat, m: RaftPeer.Message)
    | Call(op: Op)
    | Propose(s: nat, op: Op)
    | AnswerDuplicate(s: nat, op: Op)
    | Apply(s: nat)
    | Return(reply: Reply)

  /** What the cluster does meanwhile. */
  function RaftStep(step: Step): RaftCluster.Step {
    match step
    case Raft(x) => x
    case Take(s, a) => RaftCluster.Deliver(s)
    case Reboot(s) => RaftCluster.Reboot(s)
    case Interrupted(s, m) => RaftCluster.Interrupted(s, m)
    case Propose(s, op) => RaftCluster.Submit(s, Kv(op))
    case _ => RaftCluster.Idle
  }

  function NewServer(k: nat): Server { Server(EMPTY, RaftAppliers.Resting(k)) }

  /** n servers with k appliers each. */
  function Start(n: nat, k: nat, clients: set<int>): Service {
    Service(seq(n, _ => NewServer(k)), {}, {}, {}, map c | c in clients :: Clerk(0, false, 0), [])
  }

  /** The operations that `Get`, `Put` and `Append` of a clerk make. */
  predicate ClerkOp(op: Op) {
    (op.opType == "Get" && op.value == "") || op.opType == "Put" || op.opType == "Append"
  }

  /** Whether the clerk takes the reply as the end of its operation. */
  predicate Accepted(op: Op, err: Err) {
    err == OK || (op.opType == "Get" && err == ErrNoKey)
  }

  /** What the clerk then returns to its caller. */
  function Outcome(op: Op, err: Err, value: string): string {
    if op.opType == "Get" && err == OK then value else ""
  }

  predicate Enabled(c: RaftCluster.Cluster, v: Service, step: Step) {
    RaftCluster.Enabled(c, RaftStep(step))
    && match step
       case Raft(x) => !x.Submit? && !x.Deliver? && !x.Reboot? && !x.Interrupted?
       case Take(s, a) => s < |v.servers| && RaftAppliers.CanTake(v.servers[s].appliers, a, c.peers[s])
       case Send(s, a) => s < |v.servers| && RaftAppliers.CanSend(v.servers[s].appliers, a)
       case Reboot(s) => s < |v.servers|
       case Interrupted(s, m) => s < |v.servers|
       case Call(op) =>
         && op.clientId in v.clerks && !v.clerks[op.clientId].waiting
         && op.seqNum == v.clerks[op.clientId].seqNum + 1 && ClerkOp(op)
       case Propose(s, op) => op in v.requests
       case AnswerDuplicate(s, op) => s < |v.servers| && op in v.requests && IsDuplicate(v.servers[s].kv, op)
       case Apply(s) => s < |v.servers| && s < |c.peers| && |v.servers[s].appliers.sent| > 0
       case Return(reply) =>
         && reply in v.replies && reply.op.clientId in v.clerks && Accepted(reply.op, reply.err)
         && v.clerks[reply.op.clientId].waiting && v.clerks[reply.op.clientId].current < |v.records|
         && v.records[v.clerks[reply.op.clientId].current].op == reply.op
  }

  /** The handlers told of the result at `index`: those whose term is still the peer's. */
  function Told(pendings: set<Pending>, s: nat, index: nat, term: nat, result: Result): set<Reply> {
    if result.Result? then
      set p | p in pendings && p.server == s && p.index == index && p.term == term :: Reply(p.op, result.err, result.value)
    else {}
  }

  /** A server and its handlers are gone, and a new one starts empty. */
  function Crashed(v: Service, s: nat): Service
    requires s < |v.servers|
  {
    v.(servers := v.servers[s := NewServer(|v.servers[s].appliers.hands|)], pendings := set p | p in v.pendings && p.server != s)
  }

  function Do(c: RaftCluster.Cluster, v: Service, step: Step, now: nat): Service
    requires Enabled(c, v, step)
  {
    match step
    case Raft(x) => v
    case Take(s, a) =>
      v.(servers := v.servers[s := v.servers[s].(appliers := RaftAppliers.Take(v.servers[s].appliers, a, c.peers[s]).1)])
    case Send(s, a) =>
      v.(servers := v.servers[s := v.servers[s].(appliers := RaftAppliers.Send(v.servers[s].appliers, a))])
    case Reboot(s) => Crashed(v, s)
    case Interrupted(s, m) => Crashed(v, s)
    case Call(op) =>
      v.(clerks := v.clerks[op.clientId := Clerk(op.seqNum, true, |v.records|)],
         records := v.records + [Record(op, now, false, "", 0)],
         requests := v.requests + {op})
    case Propose(s, op) =>
      v.(pendings := v.pendings + {Pending(s, |c.peers[s].log|, c.peers[s].currentTerm, op, now)})
    case AnswerDuplicate(s, op) =>
      v.(replies := v.replies + {Reply(op, OK, if op.opType == "Get" then CachedResult(v.servers[s].kv, op.clientId) else "")})
    case Apply(s) =>
      var x := v.servers[s].appliers;
      var (kv, result) := ApplyCommand(v.servers[s].kv, x.sent[0].index, x.sent[0].command);
      v.(servers := v.servers[s := Server(kv, x.(sent := x.sent[1..]))],
         replies := v.replies + Told(v.pendings, s, x.sent[0].index, c.peers[s].currentTerm, result))
    case Return(reply) =>
      var clerk := v.clerks[reply.op.clientId];
      var output := Outcome(reply.op, reply.err, reply.value);
      v.(clerks := v.clerks[reply.op.clientId := clerk.(waiting := false)],
         records := v.records[clerk.current := v.records[clerk.current].(done := true, output := output, ret := now)])
  }

  /** A run of the service and of the cluster under it, step by step. */
  datatype ServiceRun = ServiceRun(raft: RaftCluster.Run, services: seq<Service>, steps: seq<Step>)

  predicate IsServiceStep(r: ServiceRun, i: nat)
    requires i < |r.steps| == |r.raft.steps| && |r.services| == |r.raft.states| == |r.steps| + 1
  {
    && r.raft.steps[i] == RaftStep(r.steps[i])
    && Enabled(r.raft.states[i], r.services[i], r.steps[i])
    && r.services[i + 1] == Do(r.raft.states[i], r.services[i], r.steps[i], i)
  }

  /** A run over n servers, with k appliers each, and clerks of the given, distinct, ids. */
  predicate IsServiceRun(rules: RaftPeer.Rules, n: nat, k: nat, clients: set<int>, r: ServiceRun) {
    && RaftCluster.IsRun(rules, n, r.raft)
    && |r.services| == |r.raft.states| == |r.steps| + 1 && |r.raft.steps| == |r.steps|
    && r.services[0] == Start(n, k, clients)
    && forall i {:trigger IsServiceStep(r, i)} :: 0 <= i < |r.steps| ==> IsServiceStep(r, i)
  }

  /** One with one applier for each server, over a benign run of the cluster. */
  predicate BenignServiceRun(rules: RaftPeer.Rules, n: nat, clients: set<int>, r: ServiceRun) {
    IsServiceRun(rules, n, 1, clients, r) && RaftCluster.BenignRun(rules, n, r.raft)
  }
}

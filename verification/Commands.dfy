/** What travels through the replicated log: the key/value service's operations,
    the empty command of the sentinel entry, and any other payload, which Raft
    carries without looking at it. */
module Commands {
  datatype Op = Op(opType: string, key: string, value: string, clientId: int, seqNum: int)

  datatype Command = Nil | Kv(op: Op) | Foreign(payload: int)

  /** What a peer's applier hands to the service. */
  datatype Delivery = Delivery(index: nat, command: Command)
}

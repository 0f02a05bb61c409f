/** The messages the runtime exchanges. A message is identified by its id; its body holds the
    payload fields the runtime reads. */
module Messages {
  import opened Types
  import Sessions

  datatype Status =
    | DISCOVERED | CONNECTED | REGISTERED | SYNCED | READY | RUNNING
    | DEGRADED | RECONNECTING | DISCONNECTED | REJECTED
    | Custom(text: string)

  /** The four commands the server sends with `requires_ack`. */
  datatype CommandKind = SESSION_START | SESSION_STOP | TRIAL_ARM | TRIAL_START_AT

  datatype Body =
      // server to client
    | Command(kind: CommandKind, command: CommandId, executeAt: real)
    | Notice  // TRIAL_END and STATE_UPDATE: no acknowledgement
    | RegisterOk(snapshot: Sessions.Snapshot, reconnected: bool)
    | RegisterReject
    | Pong(t0: real, t1: real, t2: real)
      // client to server
    | Register(role: string, version: string, capabilities: seq<string>, secret: Option<string>)
    | Ping(t0: real)
    | ClientStatus(status: Status, offsetMs: real, rttMs: real)
    | Heartbeat
    | Report  // RESULT_REPORT and EVENT_REPORT
    | Ack(replyTo: MsgId, receiver: Peer, receiveTs: real, applyTs: Option<real>)

  datatype Message = Message(id: MsgId, replyTo: Option<MsgId>, requiresAck: bool, body: Body)

  datatype Packet =
    | ToClient(peer: Peer, msg: Message)
    | ToServer(peer: Peer, msg: Message)

  /** What the server's message builder guarantees: acknowledgement is asked for exactly the
      four commands, and commands are never replies. */
  predicate WellFormed(m: Message) {
    && (m.requiresAck <==> m.body.Command?)
    && (m.body.Command? ==> m.replyTo == None)
  }
}

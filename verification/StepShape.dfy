/** What one step of the protocol builds, sends, and does to one client: invariants that speak of
    messages or of one client need only these. */
module StepShape {
  import opened Types
  import opened Messages
  import opened ClientLoop
  import opened Protocol
  import AckTable
  import Registry
  import Sessions

  // ---------- messages and packets ----------

  /** The packet of an acknowledgement, if the loop's output has one. */
  function AckPacket(p: Peer, out: Output, ackId: MsgId): Option<Packet> {
    match out.ack
    case Some(body) => if body.Ack? then Some(ToServer(p, Message(ackId, Some(body.replyTo), false, body))) else None
    case None => None
  }

  /** The packet of the server's answer to a message, if it has one. */
  function ReplyPacket(cfg: Config, s: System, p: Peer, msg: Message, replyId: MsgId): Option<Packet> {
    if msg.body.Ack? then None
    else match ServerReply(cfg, s, p, msg.body)
      case Some(body) => Some(ToClient(p, Message(replyId, Some(msg.id), false, body)))
      case None => None
  }

  /** The packet a step builds and sends, if it does both at once. */
  function Posted(cfg: Config, s: System, e: Event): Option<Packet>
    requires Enabled(cfg, s, e)
  {
    match e
    case ServerReceive(p, msg, replyId) => ReplyPacket(cfg, s, p, msg, replyId)
    case SendRequest(p, id, body) => Some(ToServer(p, Message(id, None, false, body)))
    case SendReport(p, id, body) => Some(ToServer(p, Message(id, None, false, body)))
    case ClientReceive(p, msg, ackId) =>
      AckPacket(p, Receive(s.clients[p], p, msg, cfg.dedupCacheSize, LocalTime(cfg, s, p)), ackId)
    case FinishJob(p, ackId) => AckPacket(p, Finish(s.clients[p], p, LocalTime(cfg, s, p)), ackId)
    case _ => None
  }

  function MessageOf(pkt: Option<Packet>): Option<Message> {
    match pkt
    case Some(x) => Some(x.msg)
    case None => None
  }

  function AsSet(pkt: Option<Packet>): set<Packet> {
    match pkt
    case Some(x) => {x}
    case None => {}
  }

  /** The message a step builds. */
  function Built(cfg: Config, s: System, e: Event): Option<Message>
    requires Enabled(cfg, s, e)
  {
    if e.Enter? then Some(CommandMessage(s, e.key, e.id))
    else if e.Announce? then Some(Message(e.id, None, false, Notice))
    else MessageOf(Posted(cfg, s, e))
  }

  /** The packets a step puts on the network. */
  function Sent(cfg: Config, s: System, e: Event): set<Packet>
    requires Enabled(cfg, s, e)
  {
    if e.Transmit? then {ToClient(e.key.peer, s.created[s.tasks[e.key].m])}
    else if e.Announce? then set p | p in e.peers :: ToClient(p, Message(e.id, None, false, Notice))
    else AsSet(Posted(cfg, s, e))
  }

  function WithBuilt(created: map<MsgId, Message>, built: Option<Message>): map<MsgId, Message> {
    match built
    case Some(m) => created[m.id := m]
    case None => created
  }

  /** s' has exactly the built message and the sent packets more than s. */
  predicate Adds(s: System, s': System, built: Option<Message>, sent: set<Packet>) {
    && s'.created == WithBuilt(s.created, built)
    && s'.net == s.net + sent
    && (built.Some? ==> built.value.id !in s.created)
  }

  lemma ReplyAdds(cfg: Config, s: System, p: Peer, msg: Message, replyId: MsgId)
    requires replyId !in s.created
    ensures var pkt := ReplyPacket(cfg, s, p, msg, replyId);
            Adds(s, DoServerReceive(cfg, s, p, msg, replyId), MessageOf(pkt), AsSet(pkt))
  {
    hide AckTable.Accept, Registry.Handle, ServerReply, ClockOf;
  }

  lemma AckAdds(s: System, p: Peer, out: Output, ackId: MsgId)
    requires ackId !in s.created
    ensures var pkt := AckPacket(p, out, ackId);
            Adds(s, ClientStep(s, p, out, ackId), MessageOf(pkt), AsSet(pkt))
  {
  }

  lemma ServerAdds(cfg: Config, s: System, e: Event)
    requires Enabled(cfg, s, e) && !ClientMoves(e)
    ensures Adds(s, Do(cfg, s, e), Built(cfg, s, e), Sent(cfg, s, e))
  {
    hide AckTable.GiveUp, AckTable.Expire, AckTable.Open, AckTable.Add, Registry.Scan, NewTasks, Sessions.Apply,
         DoServerReceive, ReplyPacket;
    if e.ServerReceive? {
      hide Adds;
      ReplyAdds(cfg, s, e.peer, e.msg, e.replyId);
    }
  }

  lemma ClientAdds(cfg: Config, s: System, e: Event)
    requires Enabled(cfg, s, e) && ClientMoves(e)
    ensures Adds(s, Do(cfg, s, e), Built(cfg, s, e), Sent(cfg, s, e))
  {
    hide Receive, Finish, Wake, Resume, Ask, LocalTime, IsRequest, IsReport, RequestOf, ClientStep, AckPacket;
    if e.ClientReceive? {
      hide Adds;
      AckAdds(s, e.peer, Receive(s.clients[e.peer], e.peer, e.msg, cfg.dedupCacheSize, LocalTime(cfg, s, e.peer)), e.ackId);
    } else if e.FinishJob? {
      hide Adds;
      AckAdds(s, e.peer, Finish(s.clients[e.peer], e.peer, LocalTime(cfg, s, e.peer)), e.ackId);
    }
  }

  lemma StepAdds(cfg: Config, s: System, e: Event)
    requires Enabled(cfg, s, e)
    ensures Adds(s, Do(cfg, s, e), Built(cfg, s, e), Sent(cfg, s, e))
  {
    hide Do, Built, Sent, Adds;
    if ClientMoves(e) {
      ClientAdds(cfg, s, e);
    } else {
      ServerAdds(cfg, s, e);
    }
  }

  // ---------- one client ----------

  /** Client p after the step. */
  function Moved(cfg: Config, s: System, e: Event, p: Peer): Client
    requires Enabled(cfg, s, e) && p in s.clients
  {
    var c, now := s.clients[p], LocalTime(cfg, s, p);
    match e
    case SendRequest(q, id, body) => if q == p then Ask(c, id, RequestOf(body)) else c
    case ClientReceive(q, msg, _) => if q == p then Receive(c, p, msg, cfg.dedupCacheSize, now).client else c
    case WakeUp(q) => if q == p then Wake(c, now) else c
    case FinishJob(q, _) => if q == p then Finish(c, p, now).client else c
    case ResumeExchange(q, r) => if q == p then Resume(c, r, now) else c
    case _ => c
  }

  lemma ClientsMove(cfg: Config, s: System, e: Event)
    requires Enabled(cfg, s, e)
    ensures Do(cfg, s, e).clients.Keys == s.clients.Keys
    ensures forall p :: p in s.clients ==> Do(cfg, s, e).clients[p] == Moved(cfg, s, e, p)
  {
    hide Receive, Finish, Wake, Resume, Ask, LocalTime, IsRequest, IsReport, RequestOf, ClientStep;
    if !ClientMoves(e) {
      hide Do;
      ServerFrame(cfg, s, e);
    } else {
      OneClientMoves(cfg, s, e);
    }
  }

  lemma OneClientMoves(cfg: Config, s: System, e: Event)
    requires Enabled(cfg, s, e) && ClientMoves(e)
    ensures Do(cfg, s, e).clients == s.clients[e.peer := Moved(cfg, s, e, e.peer)]
  {
    hide Receive, Finish, Wake, Resume, Ask, LocalTime, IsRequest, IsReport, RequestOf, ClientStep;
    if e.ClientReceive? {
      OutputFrame(s, e.peer, Receive(s.clients[e.peer], e.peer, e.msg, cfg.dedupCacheSize, LocalTime(cfg, s, e.peer)), e.ackId);
    } else if e.FinishJob? {
      OutputFrame(s, e.peer, Finish(s.clients[e.peer], e.peer, LocalTime(cfg, s, e.peer)), e.ackId);
    }
  }
}

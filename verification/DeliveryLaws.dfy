/** Commands go to the peer they were sent for, and acknowledgements that a client records are
    packets it has sent. */
module DeliveryLaws {
  import opened Types
  import opened Messages
  import opened ClientLoop
  import opened Protocol
  import opened StepShape
  import AckTable
  import Clock
  import Dedupe
  import ExchangeLaws
  import GroundLaws
  import Registry
  import SafetyLaws
  import Theorems

  // ---------- commands ----------

  /** m is the copy of command c that was sent to p. */
  predicate OwnCopy(sends: map<MsgId, AckTable.Send>, p: Peer, m: MsgId, c: CommandId) {
    m in sends && sends[m] == AckTable.Send(p, c)
  }

  /** Commands travel only to the peer they were sent for. */
  ghost predicate WellAddressed(net: set<Packet>, sends: map<MsgId, AckTable.Send>) {
    forall pkt :: pkt in net && pkt.ToClient? && pkt.msg.body.Command? ==>
      OwnCopy(sends, pkt.peer, pkt.msg.id, pkt.msg.body.command)
  }

  /** The commands delivered to p were sent to p. */
  ghost predicate DeliveredOwn(p: Peer, c: Client, sends: map<MsgId, AckTable.Send>) {
    forall d :: d in c.delivered && d.requiresAck ==> d.id in sends && sends[d.id].peer == p
  }

  ghost predicate Addressed(s: System) {
    && WellAddressed(s.net, s.acks.sends)
    && forall p :: p in s.clients ==> DeliveredOwn(p, s.clients[p], s.acks.sends)
  }

  lemma SentWellAddressed(cfg: Config, s: System, e: Event, pkt: Packet)
    requires SafetyLaws.Safe(cfg, s) && Enabled(cfg, s, e) && pkt in Sent(cfg, s, e)
    requires pkt.ToClient? && pkt.msg.body.Command?
    ensures OwnCopy(s.acks.sends, pkt.peer, pkt.msg.id, pkt.msg.body.command)
  {
    hide SafetyLaws.Loops, SafetyLaws.AcksBacked, SafetyLaws.AcceptedBacked, AckTable.TableInv, Receive, Finish, Registry.Enroll;
    if e.Transmit? {
      assert SafetyLaws.TaskOk(e.key, s.tasks[e.key], s.acks.sends, s.acks.futures);
    } else {
      hide SafetyLaws.Wire, SafetyLaws.Tasks;
    }
  }

  /** A message that is delivered to p and asks for an acknowledgement was sent to p. */
  lemma DeliverableIsOwn(cfg: Config, s: System, e: Event)
    requires Addressed(s) && SafetyLaws.Safe(cfg, s) && Enabled(cfg, s, e) && e.ClientReceive? && e.msg.requiresAck
    ensures e.msg.id in s.acks.sends && s.acks.sends[e.msg.id].peer == e.peer
  {
    hide SafetyLaws.Tasks, SafetyLaws.Loops, SafetyLaws.AcksBacked, SafetyLaws.AcceptedBacked, AckTable.TableInv;
    assert SafetyLaws.PacketOk(ToClient(e.peer, e.msg), s.created, s.clients.Keys);
    assert ToClient(e.peer, e.msg).msg == e.msg;
  }

  /** Only taking a message from the network adds to the deliveries. */
  lemma MovedDelivered(cfg: Config, s: System, e: Event, p: Peer)
    requires Enabled(cfg, s, e) && p in s.clients
    ensures Moved(cfg, s, e, p).delivered ==
              s.clients[p].delivered +
              if e.ClientReceive? && e.peer == p then [Delivery(e.msg.id, e.msg.requiresAck)] else []
  {
    assert s.clients[p].delivered + [] == s.clients[p].delivered;
    hide LocalTime, Dedupe.Touch, StartJob, Clock.LocalForServer;
  }

  lemma MovedDeliveredOwn(cfg: Config, s: System, e: Event, p: Peer)
    requires Addressed(s) && SafetyLaws.Safe(cfg, s) && Enabled(cfg, s, e) && p in s.clients
    ensures DeliveredOwn(p, Moved(cfg, s, e, p), s.acks.sends)
  {
    hide SafetyLaws.Safe, Enabled, Moved, DeliveredOwn, WellAddressed;
    MovedDelivered(cfg, s, e, p);
    if e.ClientReceive? && e.msg.requiresAck {
      DeliverableIsOwn(cfg, s, e);
    }
    hide Addressed;
    OneMoreDelivered(p, s.clients[p], Moved(cfg, s, e, p), s.acks.sends,
                     if e.ClientReceive? && e.peer == p then [Delivery(e.msg.id, e.msg.requiresAck)] else []);
  }

  lemma OneMoreDelivered(p: Peer, c: Client, c': Client, sends: map<MsgId, AckTable.Send>, more: seq<Delivery>)
    requires DeliveredOwn(p, c, sends) && c'.delivered == c.delivered + more
    requires forall d :: d in more && d.requiresAck ==> d.id in sends && sends[d.id].peer == p
    ensures DeliveredOwn(p, c', sends)
  {
  }

  lemma StepKeepsAddressed(cfg: Config, s: System, e: Event)
    requires Addressed(s) && SafetyLaws.Safe(cfg, s) && Enabled(cfg, s, e)
    ensures Addressed(Do(cfg, s, e))
  {
    hide SafetyLaws.Safe, Enabled, Do, Sent, Built, Moved;
    var s' := Do(cfg, s, e);
    StepAdds(cfg, s, e);
    ClientsMove(cfg, s, e);
    Theorems.StepTablePersists(cfg, s, e);
    forall pkt | pkt in s'.net && pkt.ToClient? && pkt.msg.body.Command?
      ensures OwnCopy(s'.acks.sends, pkt.peer, pkt.msg.id, pkt.msg.body.command)
    {
      if pkt !in s.net {
        SentWellAddressed(cfg, s, e, pkt);
      }
    }
    forall p | p in s'.clients
      ensures DeliveredOwn(p, s'.clients[p], s'.acks.sends)
    {
      MovedDeliveredOwn(cfg, s, e, p);
    }
  }

  lemma InitIsAddressed(s: System)
    requires Init(s)
    ensures Addressed(s)
  {
  }

  lemma {:induction false} RunKeepsAddressed(cfg: Config, states: seq<System>, events: seq<Event>, i: nat)
    requires IsRun(cfg, states, events) && i < |states|
    ensures Addressed(states[i])
  {
    hide IsRun, Init, Next, Addressed, SafetyLaws.Safe, ExchangeLaws.Exchanges, GroundLaws.Grounded;
    Theorems.StartOfRun(cfg, states, events);
    if i == 0 {
      InitIsAddressed(states[0]);
    } else {
      RunKeepsAddressed(cfg, states, events, i - 1);
      Theorems.RunKeepsAll(cfg, states, events, i - 1);
      Theorems.StepOfRun(cfg, states, events, i - 1);
      NextKeepsAddressed(cfg, states[i - 1], events[i - 1], states[i]);
    }
  }

  lemma NextKeepsAddressed(cfg: Config, s: System, e: Event, s': System)
    requires Addressed(s) && SafetyLaws.Safe(cfg, s) && Next(cfg, s, e, s')
    ensures Addressed(s')
  {
    hide Addressed, SafetyLaws.Safe, Enabled, Do;
    StepKeepsAddressed(cfg, s, e);
  }

  // ---------- acknowledgements ----------

  /** The message is an acknowledgement of m in p's name. */
  predicate Acknowledges(msg: Message, p: Peer, m: MsgId) {
    msg.body.Ack? && msg.body.receiver == p && msg.body.replyTo == m
  }

  /** The acknowledgements of m by p that exist. */
  function AckIds(created: map<MsgId, Message>, p: Peer, m: MsgId): set<MsgId> {
    set id | id in created && Acknowledges(created[id], p, m)
  }

  /** p has built exactly as many acknowledgements of each m as it records. */
  ghost predicate AcksCounted(p: Peer, c: Client, created: map<MsgId, Message>) {
    forall m :: |AckIds(created, p, m)| == Count(c.acked, m)
  }

  /** Every acknowledgement that exists was put on the network, in its sender's name. */
  ghost predicate AcksSent(net: set<Packet>, created: map<MsgId, Message>, peers: set<Peer>) {
    forall id :: id in created && created[id].body.Ack? ==>
      created[id].body.receiver in peers && ToServer(created[id].body.receiver, created[id]) in net
  }

  ghost predicate AcksPosted(s: System) {
    && AcksSent(s.net, s.created, s.clients.Keys)
    && forall p :: p in s.clients ==> AcksCounted(p, s.clients[p], s.created)
  }

  lemma AckIdsAfter(created: map<MsgId, Message>, msg: Message, p: Peer, m: MsgId)
    requires msg.id !in created
    ensures AckIds(created[msg.id := msg], p, m) == AckIds(created, p, m) + if Acknowledges(msg, p, m) then {msg.id} else {}
    ensures msg.id !in AckIds(created, p, m)
  {
  }

  /** The acknowledgement client p sends in the step, if any. */
  function AckOf(cfg: Config, s: System, e: Event, p: Peer): Option<Message>
    requires Enabled(cfg, s, e)
  {
    match Built(cfg, s, e)
    case Some(msg) => if msg.body.Ack? && msg.body.receiver == p then Some(msg) else None
    case None => None
  }

  /** A client's record grows exactly by the acknowledgement it sends. */
  lemma MovedAcked(cfg: Config, s: System, e: Event, p: Peer)
    requires Enabled(cfg, s, e) && p in s.clients
    ensures Moved(cfg, s, e, p).acked ==
              s.clients[p].acked + match AckOf(cfg, s, e, p)
                                   case Some(msg) => [msg.body.replyTo]
                                   case None => []
  {
    var c := s.clients[p];
    assert c.acked + [] == c.acked;
    hide Receive, Finish, LocalTime, ServerReply;
    if e.ClientReceive? {
      ReceiveIsRecorded(s.clients[e.peer], e.peer, e.msg, cfg.dedupCacheSize, LocalTime(cfg, s, e.peer));
    } else if e.FinishJob? {
      AckedIsSent(s.clients[e.peer], e.peer, s.clients[e.peer].job.value.msg, cfg.dedupCacheSize, LocalTime(cfg, s, e.peer));
    } else if e.ServerReceive? {
      SafetyLaws.ReplyKind(cfg, s, e.peer, e.msg.body);
    }
  }

  lemma ReceiveIsRecorded(c: Client, self: Peer, msg: Message, maxSize: int, now: real)
    requires c.job == None
    ensures Recorded(c, Receive(c, self, msg, maxSize, now), self)
  {
    AckedIsSent(c, self, msg, maxSize, now);
  }

  /** An acknowledgement is built only by the client in whose name it is, and sent at once. */
  lemma BuiltAckIsSent(cfg: Config, s: System, e: Event)
    requires Enabled(cfg, s, e) && Built(cfg, s, e).Some? && Built(cfg, s, e).value.body.Ack?
    ensures var msg := Built(cfg, s, e).value;
            msg.body.receiver in s.clients && ToServer(msg.body.receiver, msg) in Sent(cfg, s, e)
  {
    hide Receive, Finish, LocalTime, ServerReply;
    if e.ClientReceive? {
      ReceiveIsRecorded(s.clients[e.peer], e.peer, e.msg, cfg.dedupCacheSize, LocalTime(cfg, s, e.peer));
    } else if e.FinishJob? {
      AckedIsSent(s.clients[e.peer], e.peer, s.clients[e.peer].job.value.msg, cfg.dedupCacheSize, LocalTime(cfg, s, e.peer));
    } else if e.ServerReceive? {
      SafetyLaws.ReplyKind(cfg, s, e.peer, e.msg.body);
    }
  }

  lemma StepKeepsCounted(cfg: Config, s: System, e: Event, p: Peer)
    requires AcksPosted(s) && Enabled(cfg, s, e) && p in s.clients
    ensures AcksCounted(p, Moved(cfg, s, e, p), Do(cfg, s, e).created)
  {
    hide Enabled, Do, Sent, Built, Moved, AcksSent, AckIds;
    StepAdds(cfg, s, e);
    MovedAcked(cfg, s, e, p);
    assert AcksCounted(p, s.clients[p], s.created);
    var acked := s.clients[p].acked;
    forall m
      ensures |AckIds(Do(cfg, s, e).created, p, m)| == Count(Moved(cfg, s, e, p).acked, m)
    {
      if Built(cfg, s, e).Some? {
        var msg := Built(cfg, s, e).value;
        AckIdsAfter(s.created, msg, p, m);
        CountAppend(acked, if msg.body.Ack? then msg.body.replyTo else m, m);
      } else {
        CountAppend(acked, m, m);
      }
    }
  }

  lemma StepKeepsPosted(cfg: Config, s: System, e: Event)
    requires AcksPosted(s) && Enabled(cfg, s, e)
    ensures AcksPosted(Do(cfg, s, e))
  {
    hide Enabled, Do, Sent, Built, Moved, AcksCounted;
    var s' := Do(cfg, s, e);
    StepAdds(cfg, s, e);
    ClientsMove(cfg, s, e);
    if Built(cfg, s, e).Some? && Built(cfg, s, e).value.body.Ack? {
      BuiltAckIsSent(cfg, s, e);
    }
    forall p | p in s'.clients
      ensures AcksCounted(p, s'.clients[p], s'.created)
    {
      StepKeepsCounted(cfg, s, e, p);
    }
  }

  lemma InitIsPosted(s: System)
    requires Init(s)
    ensures AcksPosted(s)
  {
  }

  lemma {:induction false} RunKeepsPosted(cfg: Config, states: seq<System>, events: seq<Event>, i: nat)
    requires IsRun(cfg, states, events) && i < |states|
    ensures AcksPosted(states[i])
  {
    hide IsRun, Init, Next, AcksPosted;
    Theorems.StartOfRun(cfg, states, events);
    if i == 0 {
      InitIsPosted(states[0]);
    } else {
      RunKeepsPosted(cfg, states, events, i - 1);
      Theorems.StepOfRun(cfg, states, events, i - 1);
      NextKeepsPosted(cfg, states[i - 1], events[i - 1], states[i]);
    }
  }

  lemma NextKeepsPosted(cfg: Config, s: System, e: Event, s': System)
    requires AcksPosted(s) && Next(cfg, s, e, s')
    ensures AcksPosted(s')
  {
    hide AcksPosted, Enabled, Do;
    StepKeepsPosted(cfg, s, e);
  }
}

/** Requests and their replies, and the session snapshots that registration replies carry. */
module ExchangeLaws {
  import opened Types
  import opened Messages
  import opened ClientLoop
  import opened Protocol
  import AckTable
  import Registry
  import Sessions
  import SafetyLaws

  // ---------- the invariant ----------

  /** The reply types `_exchange` expects for a request. */
  predicate Expected(request: Body, reply: Body) {
    || (request.Register? && (reply.RegisterOk? || reply.RegisterReject?))
    || (request.Ping? && reply.Pong?)
  }

  /** The message answers the request with id r, and has a type that request expects. */
  ghost predicate AnswersTo(msg: Message, r: MsgId, created: map<MsgId, Message>) {
    msg.replyTo == Some(r) && r in created && Expected(created[r].body, msg.body)
  }

  ghost predicate ExchangeOk(c: Client, created: map<MsgId, Message>) {
    && (forall r :: r in c.responses ==>
          r in created && IsAsked(created[r].body) && RequestOf(created[r].body) == c.responses[r] && r !in c.replies)
    && (forall r :: r in c.answers ==>
          && r in c.replies && c.replies[r] == c.answers[r].reply
          && r in created && RequestOf(created[r].body) == c.answers[r].request)
    && (forall r :: r in c.replies ==> AnswersTo(c.replies[r], r, created))
  }

  predicate IsAsked(body: Body) {
    body.Register? || body.Ping?
  }

  /** Every reply on its way answers a request that was made, with an expected type. */
  ghost predicate RepliesOk(net: set<Packet>, created: map<MsgId, Message>) {
    forall pkt :: pkt in net && pkt.ToClient? && pkt.msg.replyTo.Some? ==>
      AnswersTo(pkt.msg, pkt.msg.replyTo.value, created)
  }

  ghost predicate Exchanges(s: System) {
    && RepliesOk(s.net, s.created)
    && forall p :: p in s.clients ==> ExchangeOk(s.clients[p], s.created)
  }

  // ---------- steps ----------

  lemma CreatedGrows(s: System, m: Message)
    requires Exchanges(s) && m.id !in s.created
    ensures Exchanges(s.(created := s.created[m.id := m]))
  {
    forall p | p in s.clients
      ensures ExchangeOk(s.clients[p], s.created[m.id := m])
    {
      ExchangeOkGrows(s.clients[p], s.created, m);
    }
    hide ExchangeOk;
  }

  lemma ExchangeOkGrows(c: Client, created: map<MsgId, Message>, m: Message)
    requires ExchangeOk(c, created) && m.id !in created
    ensures ExchangeOk(c, created[m.id := m])
  {
  }

  lemma PostKeepsExchanges(s: System, pkt: Packet)
    requires Exchanges(s) && pkt.msg.id !in s.created
    requires pkt.ToClient? && pkt.msg.replyTo.Some? ==> AnswersTo(pkt.msg, pkt.msg.replyTo.value, s.created)
    ensures Exchanges(Post(s, pkt))
  {
    CreatedGrows(s, pkt.msg);
    hide ExchangeOk;
  }

  lemma ClientKeepsExchanges(s: System, p: Peer, c': Client)
    requires Exchanges(s) && p in s.clients && ExchangeOk(c', s.created)
    ensures Exchanges(s.(clients := s.clients[p := c']))
  {
    hide ExchangeOk, RepliesOk;
  }

  /** Taking a message from the network matches it to its request at most once. */
  lemma ReceiveKeepsExchange(c: Client, self: Peer, msg: Message, maxSize: int, now: real, created: map<MsgId, Message>)
    requires ExchangeOk(c, created) && c.job == None
    requires msg.replyTo.Some? ==> AnswersTo(msg, msg.replyTo.value, created)
    ensures ExchangeOk(Receive(c, self, msg, maxSize, now).client, created)
  {
  }

  lemma ServerReplyAnswers(cfg: Config, s: System, p: Peer, msg: Message, replyId: MsgId)
    requires ServerReply(cfg, s, p, msg.body).Some? && msg.id in s.created && s.created[msg.id] == msg
    ensures AnswersTo(Message(replyId, Some(msg.id), false, ServerReply(cfg, s, p, msg.body).value), msg.id, s.created)
  {
    hide Registry.Enroll;
  }

  lemma ServerReceiveKeepsExchanges(cfg: Config, s: System, p: Peer, msg: Message, replyId: MsgId)
    requires Exchanges(s) && SafetyLaws.Wire(s.net, s.created, s.clients.Keys)
    requires ToServer(p, msg) in s.net && replyId !in s.created
    ensures Exchanges(DoServerReceive(cfg, s, p, msg, replyId))
  {
    assert SafetyLaws.PacketOk(ToServer(p, msg), s.created, s.clients.Keys);
    hide SafetyLaws.Wire, Registry.Handle, AckTable.Accept, ServerReply, ExchangeOk, RepliesOk, AnswersTo;
    var s1 := s.(registry := Registry.Handle(s.registry, p, msg.body, s.now, cfg.policy));
    if !msg.body.Ack? && ServerReply(cfg, s, p, msg.body).Some? {
      ServerReplyAnswers(cfg, s, p, msg, replyId);
      PostKeepsExchanges(s1, ToClient(p, Message(replyId, Some(msg.id), false, ServerReply(cfg, s, p, msg.body).value)));
    }
  }

  lemma AnnounceKeepsExchanges(s: System, id: MsgId, peers: set<Peer>)
    requires Exchanges(s) && id !in s.created
    ensures var msg := Message(id, None, false, Notice);
            Exchanges(s.(created := s.created[id := msg], net := s.net + set p | p in peers :: ToClient(p, msg)))
  {
    CreatedGrows(s, Message(id, None, false, Notice));
    hide ExchangeOk;
  }

  lemma SameExchanges(s: System, s': System)
    requires Exchanges(s) && s'.net == s.net && s'.created == s.created && s'.clients == s.clients
    ensures Exchanges(s')
  {
    hide ExchangeOk, RepliesOk;
  }

  lemma TransmitKeepsExchanges(s: System, k: TaskKey, m: Message, tasks: map<TaskKey, Task>)
    requires Exchanges(s) && m.body.Command? && WellFormed(m)
    ensures Exchanges(s.(net := s.net + {ToClient(k.peer, m)}, tasks := tasks))
  {
    hide ExchangeOk;
  }

  predicate ServerSpeaks(e: Event) {
    e.Enter? || e.Announce? || e.ServerReceive? || e.Transmit?
  }

  lemma QuietStepKeepsExchanges(cfg: Config, s: System, e: Event)
    requires Exchanges(s) && Enabled(cfg, s, e) && !ClientMoves(e) && !ServerSpeaks(e)
    ensures Exchanges(Do(cfg, s, e))
  {
    hide Exchanges, AckTable.GiveUp, AckTable.Expire, AckTable.Open, Registry.Scan, Sessions.Apply, NewTasks;
    SameExchanges(s, Do(cfg, s, e));
  }

  lemma ServerStepKeepsExchanges(cfg: Config, s: System, e: Event)
    requires Exchanges(s) && SafetyLaws.Safe(cfg, s) && Enabled(cfg, s, e) && ServerSpeaks(e)
    ensures Exchanges(Do(cfg, s, e))
  {
    assert SafetyLaws.Wire(s.net, s.created, s.clients.Keys);
    hide SafetyLaws.Safe, SafetyLaws.Wire, Exchanges, AckTable.Add, DoServerReceive;
    if e.Enter? {
      var msg := CommandMessage(s, e.key, e.id);
      CreatedGrows(s, msg);
      SameExchanges(s.(created := s.created[e.id := msg]), Do(cfg, s, e));
    } else if e.Announce? {
      AnnounceKeepsExchanges(s, e.id, e.peers);
    } else if e.ServerReceive? {
      ServerReceiveKeepsExchanges(cfg, s, e.peer, e.msg, e.replyId);
    } else {
      SafetyLaws.EnteredIsCommand(cfg, s, e.key);
      TransmitKeepsExchanges(s, e.key, s.created[s.tasks[e.key].m], Do(cfg, s, e).tasks);
    }
  }

  lemma ClientPacketOk(s: System, p: Peer, msg: Message)
    requires RepliesOk(s.net, s.created) && ToClient(p, msg) in s.net && msg.replyTo.Some?
    ensures AnswersTo(msg, msg.replyTo.value, s.created)
  {
    assert ToClient(p, msg).msg == msg;
  }

  lemma ClientReceiveKeepsExchanges(s: System, p: Peer, msg: Message, maxSize: int, now: real, ackId: MsgId)
    requires Exchanges(s) && p in s.clients && ToClient(p, msg) in s.net && ackId !in s.created && s.clients[p].job == None
    ensures Exchanges(ClientStep(s, p, Receive(s.clients[p], p, msg, maxSize, now), ackId))
  {
    assert ExchangeOk(s.clients[p], s.created);
    if msg.replyTo.Some? {
      ClientPacketOk(s, p, msg);
    }
    hide Exchanges, ExchangeOk, AnswersTo;
    ReceiveKeepsExchange(s.clients[p], p, msg, maxSize, now, s.created);
    hide Receive, ClientStep;
    ClientOutputKeepsExchanges(s, p, Receive(s.clients[p], p, msg, maxSize, now), ackId);
  }

  lemma FinishKeepsExchanges(s: System, p: Peer, now: real, ackId: MsgId)
    requires Exchanges(s) && p in s.clients && ackId !in s.created
    requires s.clients[p].job.Some? && s.clients[p].job.value.phase.Handling?
    ensures Exchanges(ClientStep(s, p, Finish(s.clients[p], p, now), ackId))
  {
    var out := Finish(s.clients[p], p, now);
    assert ExchangeOk(s.clients[p], s.created);
    assert ExchangeOk(out.client, s.created) by { hide AnswersTo; }
    hide Exchanges, ExchangeOk, Finish, ClientStep;
    ClientOutputKeepsExchanges(s, p, out, ackId);
  }

  lemma WakeKeepsExchange(c: Client, created: map<MsgId, Message>, now: real)
    requires ExchangeOk(c, created)
    requires c.job.Some? && c.job.value.phase.Sleeping? && now >= c.job.value.phase.target
    ensures ExchangeOk(Wake(c, now), created)
  {
    hide AnswersTo;
  }

  lemma WakeKeepsExchanges(s: System, p: Peer, now: real)
    requires Exchanges(s) && p in s.clients
    requires s.clients[p].job.Some? && s.clients[p].job.value.phase.Sleeping? && now >= s.clients[p].job.value.phase.target
    ensures Exchanges(s.(clients := s.clients[p := Wake(s.clients[p], now)]))
  {
    hide AnswersTo, Wake, ExchangeOk;
    assert ExchangeOk(s.clients[p], s.created);
    hide Exchanges;
    WakeKeepsExchange(s.clients[p], s.created, now);
    ClientKeepsExchanges(s, p, Wake(s.clients[p], now));
  }

  lemma ResumeKeepsExchange(c: Client, created: map<MsgId, Message>, r: MsgId, now: real)
    requires ExchangeOk(c, created) && r in c.answers
    ensures ExchangeOk(Resume(c, r, now), created)
  {
    hide AnswersTo;
    var c' := Resume(c, r, now);
    assert c'.responses == c.responses && c'.replies == c.replies && c'.answers == c.answers - {r};
    hide Resume;
  }

  lemma ResumeKeepsExchanges(s: System, p: Peer, r: MsgId, now: real)
    requires Exchanges(s) && p in s.clients && r in s.clients[p].answers
    ensures Exchanges(s.(clients := s.clients[p := Resume(s.clients[p], r, now)]))
  {
    hide AnswersTo, Resume, ExchangeOk;
    assert ExchangeOk(s.clients[p], s.created);
    hide Exchanges;
    ResumeKeepsExchange(s.clients[p], s.created, r, now);
    ClientKeepsExchanges(s, p, Resume(s.clients[p], r, now));
  }

  lemma ClientStepKeepsExchanges(cfg: Config, s: System, e: Event)
    requires Exchanges(s) && Enabled(cfg, s, e)
    requires ClientMoves(e)
    ensures Exchanges(Do(cfg, s, e))
  {
    hide Exchanges, Post, Receive, Finish, ClientStep, Ask, Wake, Resume;
    match e
    case SendRequest(p, id, body) => SendRequestKeepsExchanges(s, p, id, body);
    case SendReport(p, id, body) => PostKeepsExchanges(s, ToServer(p, Message(id, None, false, body)));
    case ClientReceive(p, msg, ackId) =>
      ClientReceiveKeepsExchanges(s, p, msg, cfg.dedupCacheSize, LocalTime(cfg, s, p), ackId);
    case WakeUp(p) => WakeKeepsExchanges(s, p, LocalTime(cfg, s, p));
    case FinishJob(p, ackId) => FinishKeepsExchanges(s, p, LocalTime(cfg, s, p), ackId);
    case ResumeExchange(p, r) => ResumeKeepsExchanges(s, p, r, LocalTime(cfg, s, p));
  }

  lemma ClientOutputKeepsExchanges(s: System, p: Peer, out: Output, ackId: MsgId)
    requires Exchanges(s) && p in s.clients && ExchangeOk(out.client, s.created) && ackId !in s.created
    ensures Exchanges(ClientStep(s, p, out, ackId))
  {
    hide Exchanges, ExchangeOk, Post;
    var s1 := s.(clients := s.clients[p := out.client]);
    ClientKeepsExchanges(s, p, out.client);
    if out.ack.Some? && out.ack.value.Ack? {
      PostKeepsExchanges(s1, ToServer(p, Message(ackId, Some(out.ack.value.replyTo), false, out.ack.value)));
    }
  }

  lemma AskKeepsExchange(c: Client, id: MsgId, body: Body, created: map<MsgId, Message>)
    requires ExchangeOk(c, created) && id !in created && IsAsked(body)
    ensures ExchangeOk(Ask(c, id, RequestOf(body)), created[id := Message(id, None, false, body)])
  {
  }

  lemma SendRequestKeepsExchanges(s: System, p: Peer, id: MsgId, body: Body)
    requires Exchanges(s) && p in s.clients && id !in s.created && IsAsked(body)
    ensures var s1 := s.(clients := s.clients[p := Ask(s.clients[p], id, RequestOf(body))]);
            Exchanges(Post(s1, ToServer(p, Message(id, None, false, body))))
  {
    var msg := Message(id, None, false, body);
    AskKeepsExchange(s.clients[p], id, body, s.created);
    PostKeepsExchanges(s, ToServer(p, msg));
    hide Exchanges, ExchangeOk, Ask;
    ClientKeepsExchanges(Post(s, ToServer(p, msg)), p, Ask(s.clients[p], id, RequestOf(body)));
  }

  lemma StepKeepsExchanges(cfg: Config, s: System, e: Event)
    requires Exchanges(s) && SafetyLaws.Safe(cfg, s) && Enabled(cfg, s, e)
    ensures Exchanges(Do(cfg, s, e))
  {
    hide SafetyLaws.Safe, Exchanges, Do, Enabled;
    if ClientMoves(e) {
      ClientStepKeepsExchanges(cfg, s, e);
    } else if !ServerSpeaks(e) {
      QuietStepKeepsExchanges(cfg, s, e);
    } else {
      ServerStepKeepsExchanges(cfg, s, e);
    }
  }
}

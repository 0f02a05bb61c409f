/** What every step of the control protocol keeps about commands and acknowledgements. */
module SafetyLaws {
  import opened Types
  import opened Messages
  import opened ClientLoop
  import opened Protocol
  import AckTable
  import AckLaws
  import Registry
  import Sessions

  // ---------- the invariant ----------

  predicate FromServer(body: Body) {
    body.Command? || body.Notice? || body.RegisterOk? || body.RegisterReject? || body.Pong?
  }

  /** Packets carry messages that were built, unchanged; ids name messages uniquely; each
      direction carries its own kinds. */
  ghost predicate Wire(net: set<Packet>, created: map<MsgId, Message>, peers: set<Peer>) {
    && (forall m :: m in created ==> created[m].id == m && WellFormed(created[m]))
    && (forall pkt :: pkt in net ==> PacketOk(pkt, created, peers))
  }

  ghost predicate PacketOk(pkt: Packet, created: map<MsgId, Message>, peers: set<Peer>) {
    && pkt.msg.id in created && created[pkt.msg.id] == pkt.msg
    && (pkt.ToClient? <==> FromServer(pkt.msg.body))
    && (pkt.ToServer? ==> pkt.peer in peers)
  }

  /** Coroutines, orders and sends agree. */
  ghost predicate Tasks(tasks: map<TaskKey, Task>, orders: map<CommandId, Order>, acks: AckTable.Table,
                        created: map<MsgId, Message>) {
    && orders.Keys == acks.commands.Keys
    && (forall k :: k in tasks <==> k.command in acks.commands && k.peer in acks.commands[k.command])
    && (forall k :: k in tasks ==> TaskOk(k, tasks[k], acks.sends, acks.futures))
    && (forall m :: m in acks.sends ==> m in created && IsCommand(created[m], acks.sends[m].command))
  }

  predicate IsCommand(m: Message, c: CommandId) {
    m.body.Command? && m.requiresAck && m.body.command == c
  }

  ghost predicate TaskOk(k: TaskKey, task: Task, sends: map<MsgId, AckTable.Send>, futures: map<MsgId, AckTable.Future>) {
    match task
    case Scheduled => forall n :: n in sends ==> sends[n] != AckTable.Send(k.peer, k.command)
    case Entered(m) => m in sends && sends[m] == AckTable.Send(k.peer, k.command)
    case Awaiting(m, _) => m in sends && sends[m] == AckTable.Send(k.peer, k.command)
    case TimedOut(m) => m in sends && sends[m] == AckTable.Send(k.peer, k.command)
    case Returned(m) =>
      m in sends && sends[m] == AckTable.Send(k.peer, k.command) && m in futures && futures[m].HasValue?
  }

  /** Every client's loop keeps its own invariant, over messages that really exist. */
  ghost predicate Loops(clients: map<Peer, Client>, created: map<MsgId, Message>, maxSize: int) {
    forall p :: p in clients ==> LoopInv(clients[p], maxSize) && Genuine(clients[p], created)
  }

  ghost predicate Genuine(c: Client, created: map<MsgId, Message>) {
    && (forall d :: d in c.delivered ==> d.id in created && created[d.id].requiresAck == d.requiresAck)
    && (c.job.Some? ==> c.job.value.msg.id in created && created[c.job.value.msg.id] == c.job.value.msg)
  }

  /** The client has completed the handlers of m; a given apply time is when it did. */
  ghost predicate Backed(c: Client, m: MsgId, ts: Option<real>) {
    && (exists x :: x in c.completed && x.id == m)
    && (ts.Some? ==> Completion(m, ts.value) in c.completed)
  }

  /** No acknowledgement exists of a command whose handlers its sender has not completed. */
  ghost predicate AcksBacked(net: set<Packet>, clients: map<Peer, Client>) {
    forall pkt :: pkt in net && pkt.ToServer? && pkt.msg.body.Ack? ==>
      pkt.msg.body.receiver == pkt.peer && pkt.peer in clients &&
      Backed(clients[pkt.peer], pkt.msg.body.replyTo, pkt.msg.body.applyTs)
  }

  ghost predicate AcceptedBacked(accepted: map<MsgId, Option<real>>, sends: map<MsgId, AckTable.Send>, clients: map<Peer, Client>) {
    forall m :: m in accepted ==>
      m in sends && sends[m].peer in clients && Backed(clients[sends[m].peer], m, accepted[m])
  }

  ghost predicate Safe(cfg: Config, s: System) {
    && AckTable.TableInv(s.acks)
    && Wire(s.net, s.created, s.clients.Keys)
    && Tasks(s.tasks, s.orders, s.acks, s.created)
    && Loops(s.clients, s.created, cfg.dedupCacheSize)
    && AcksBacked(s.net, s.clients)
    && AcceptedBacked(s.acks.accepted, s.acks.sends, s.clients)
  }

  // ---------- growth ----------

  lemma BackedGrows(c: Client, c': Client, m: MsgId, ts: Option<real>)
    requires Backed(c, m, ts) && c.completed <= c'.completed
    ensures Backed(c', m, ts)
  {
    forall x | x in c.completed ensures x in c'.completed {
      var i :| 0 <= i < |c.completed| && c.completed[i] == x;
      assert c'.completed[i] == x;
    }
  }

  lemma AllBackedGrow(net: set<Packet>, accepted: map<MsgId, Option<real>>, sends: map<MsgId, AckTable.Send>,
                      clients: map<Peer, Client>, p: Peer, c': Client)
    requires AcksBacked(net, clients) && AcceptedBacked(accepted, sends, clients)
    requires p in clients && clients[p].completed <= c'.completed
    ensures AcksBacked(net, clients[p := c']) && AcceptedBacked(accepted, sends, clients[p := c'])
  {
    forall m, ts | Backed(clients[p], m, ts)
      ensures Backed(c', m, ts)
    {
      BackedGrows(clients[p], c', m, ts);
    }
    hide Backed;
  }

  lemma PostKeepsWire(net: set<Packet>, created: map<MsgId, Message>, peers: set<Peer>, pkt: Packet)
    requires Wire(net, created, peers) && pkt.msg.id !in created && WellFormed(pkt.msg)
    requires pkt.ToClient? <==> FromServer(pkt.msg.body)
    requires pkt.ToServer? ==> pkt.peer in peers
    ensures Wire(net + {pkt}, created[pkt.msg.id := pkt.msg], peers)
  {
    hide FromServer;
  }

  lemma NewMessageKeepsTasks(tasks: map<TaskKey, Task>, orders: map<CommandId, Order>, acks: AckTable.Table,
                             created: map<MsgId, Message>, m: Message)
    requires Tasks(tasks, orders, acks, created) && m.id !in created
    ensures Tasks(tasks, orders, acks, created[m.id := m])
  {
    hide TaskOk;
  }

  lemma NewMessageKeepsLoops(clients: map<Peer, Client>, created: map<MsgId, Message>, maxSize: int, m: Message)
    requires Loops(clients, created, maxSize) && m.id !in created
    ensures Loops(clients, created[m.id := m], maxSize)
  {
    hide LoopInv;
    forall p | p in clients
      ensures Genuine(clients[p], created[m.id := m])
    {
    }
  }

  lemma OtherPacketKeepsBacked(net: set<Packet>, clients: map<Peer, Client>, pkt: Packet)
    requires AcksBacked(net, clients)
    requires pkt.ToClient? || !pkt.msg.body.Ack?
    ensures AcksBacked(net + {pkt}, clients)
  {
    hide Backed;
  }

  /** Posting a fresh message that is not an acknowledgement keeps everything. */
  lemma PostKeepsSafe(cfg: Config, s: System, pkt: Packet)
    requires Safe(cfg, s) && pkt.msg.id !in s.created && WellFormed(pkt.msg)
    requires pkt.ToClient? <==> FromServer(pkt.msg.body)
    requires pkt.ToServer? ==> pkt.peer in s.clients && !pkt.msg.body.Ack?
    ensures Safe(cfg, Post(s, pkt))
  {
    hide AckTable.TableInv, Wire, Tasks, Loops, AcksBacked, AcceptedBacked, FromServer;
    PostKeepsWire(s.net, s.created, s.clients.Keys, pkt);
    NewMessageKeepsTasks(s.tasks, s.orders, s.acks, s.created, pkt.msg);
    NewMessageKeepsLoops(s.clients, s.created, cfg.dedupCacheSize, pkt.msg);
    OtherPacketKeepsBacked(s.net, s.clients, pkt);
  }

  /** Replacing one client by one with the same history of deliveries and completions. */
  lemma QuietClientKeepsSafe(cfg: Config, s: System, p: Peer, c': Client)
    requires Safe(cfg, s) && p in s.clients
    requires LoopInv(c', cfg.dedupCacheSize) && Genuine(c', s.created) && s.clients[p].completed <= c'.completed
    ensures Safe(cfg, s.(clients := s.clients[p := c']))
  {
    hide AckTable.TableInv, Wire, Tasks, LoopInv, Genuine, AcksBacked, AcceptedBacked;
    AllBackedGrow(s.net, s.acks.accepted, s.acks.sends, s.clients, p, c');
    assert s.clients[p := c'].Keys == s.clients.Keys;
  }

  // ---------- server steps ----------

  lemma IssueKeepsSafe(cfg: Config, s: System, c: CommandId, order: Order)
    requires Safe(cfg, s) && c !in s.acks.commands
    ensures Safe(cfg, DoIssue(s, c, order))
  {
    hide AckTable.TableInv, Wire, Loops, AcksBacked, AcceptedBacked, Tasks;
    AckLaws.OpenKeeps(s.acks, c, s.registry.Keys);
    IssueKeepsTasks(s, c, order) by { assert AckTable.OnePerPeer(s.acks.sends, s.acks.commands) by { Unpack(s.acks); } }
  }

  lemma Unpack(t: AckTable.Table)
    requires AckTable.TableInv(t)
    ensures AckTable.OnePerPeer(t.sends, t.commands)
    ensures AckTable.Fates(t.pending, t.sends, t.accepted, t.expired)
    ensures AckTable.FuturesFollow(t.futures, t.sends, t.accepted)
    ensures AckTable.Tracked(t.tracking, t.sends, t.accepted)
  {
    hide AckTable.OnePerPeer, AckTable.Fates, AckTable.Tracked, AckTable.FuturesFollow, AckTable.GroupsExact,
         AckTable.SkewsCounted, AckTable.LastSkews, AckTable.SkewsAreSpreads, AckTable.Conserved;
  }

  lemma IssueKeepsTasks(s: System, c: CommandId, order: Order)
    requires Tasks(s.tasks, s.orders, s.acks, s.created) && AckTable.OnePerPeer(s.acks.sends, s.acks.commands)
    requires c !in s.acks.commands
    ensures var s' := DoIssue(s, c, order); Tasks(s'.tasks, s'.orders, s'.acks, s'.created)
  {
    var s' := DoIssue(s, c, order);
    forall k | k in s'.tasks
      ensures TaskOk(k, s'.tasks[k], s'.acks.sends, s'.acks.futures)
    {
      if k.command == c {
        assert s'.tasks[k] == Scheduled;
      } else {
        assert s'.tasks[k] == s.tasks[k];
      }
    }
    hide TaskOk;
  }

  lemma EnterKeepsSafe(cfg: Config, s: System, k: TaskKey, id: MsgId)
    requires Safe(cfg, s) && k in s.tasks && s.tasks[k].Scheduled? && k.command in s.orders && id !in s.created
    ensures Safe(cfg, DoEnter(cfg, s, k, id))
  {
    hide AckTable.TableInv, Loops, AcksBacked, AcceptedBacked;
    assert id !in s.acks.sends;
    assert TaskOk(k, s.tasks[k], s.acks.sends, s.acks.futures);
    AckLaws.AddKeeps(s.acks, id, k.peer, k.command, s.now, cfg.ackTimeoutMs);
    EnterKeepsTasks(cfg, s, k, id);
    var msg := CommandMessage(s, k, id);
    EnterKeepsWire(s, msg);
    hide Tasks, Wire;
    NewMessageKeepsLoops(s.clients, s.created, cfg.dedupCacheSize, msg);
    AcceptedBackedAdd(s, id, AckTable.Send(k.peer, k.command));
  }

  lemma AcceptedBackedAdd(s: System, id: MsgId, send: AckTable.Send)
    requires AcceptedBacked(s.acks.accepted, s.acks.sends, s.clients) && id !in s.acks.sends
    ensures AcceptedBacked(s.acks.accepted, s.acks.sends[id := send], s.clients)
  {
    hide Backed;
  }

  lemma EnterKeepsWire(s: System, msg: Message)
    requires Wire(s.net, s.created, s.clients.Keys) && msg.id !in s.created && WellFormed(msg)
    ensures Wire(s.net, s.created[msg.id := msg], s.clients.Keys)
  {
    hide FromServer;
  }

  lemma EnterKeepsTasks(cfg: Config, s: System, k: TaskKey, id: MsgId)
    requires Tasks(s.tasks, s.orders, s.acks, s.created)
    requires k in s.tasks && s.tasks[k].Scheduled? && k.command in s.orders && id !in s.created
    ensures var s' := DoEnter(cfg, s, k, id); Tasks(s'.tasks, s'.orders, s'.acks, s'.created)
  {
    var s' := DoEnter(cfg, s, k, id);
    assert id !in s.acks.sends;
    forall j | j in s'.tasks
      ensures TaskOk(j, s'.tasks[j], s'.acks.sends, s'.acks.futures)
    {
      assert TaskOk(j, s.tasks[j], s.acks.sends, s.acks.futures);
    }
    hide TaskOk;
  }

  lemma EnteredIsCommand(cfg: Config, s: System, k: TaskKey)
    requires Safe(cfg, s) && k in s.tasks && s.tasks[k].Entered? && s.tasks[k].m in s.created
    ensures s.created[s.tasks[k].m].body.Command? && WellFormed(s.created[s.tasks[k].m])
  {
    hide AckTable.TableInv, Loops, AcksBacked, AcceptedBacked;
    assert TaskOk(k, s.tasks[k], s.acks.sends, s.acks.futures);
    assert IsCommand(s.created[s.tasks[k].m], s.acks.sends[s.tasks[k].m].command);
  }

  lemma TransmitKeepsSafe(cfg: Config, s: System, k: TaskKey, deadline: real)
    requires Safe(cfg, s) && k in s.tasks && s.tasks[k].Entered? && s.tasks[k].m in s.created
    ensures Safe(cfg, s.(net := s.net + {ToClient(k.peer, s.created[s.tasks[k].m])},
                         tasks := s.tasks[k := Awaiting(s.tasks[k].m, deadline)]))
  {
    hide AckTable.TableInv, Loops, AcksBacked, AcceptedBacked;
    var m := s.tasks[k].m;
    assert TaskOk(k, s.tasks[k], s.acks.sends, s.acks.futures);
    assert IsCommand(s.created[m], s.acks.sends[m].command);
    MoveTask(s, k, Awaiting(m, deadline));
    OtherPacketKeepsBacked(s.net, s.clients, ToClient(k.peer, s.created[m]));
  }

  lemma MoveTask(s: System, k: TaskKey, task: Task)
    requires Tasks(s.tasks, s.orders, s.acks, s.created) && k in s.tasks
    requires TaskOk(k, task, s.acks.sends, s.acks.futures)
    ensures Tasks(s.tasks[k := task], s.orders, s.acks, s.created)
  {
    hide TaskOk;
  }

  lemma ReturnKeepsSafe(cfg: Config, s: System, k: TaskKey)
    requires Safe(cfg, s) && k in s.tasks && s.tasks[k].Awaiting?
    requires s.tasks[k].m in s.acks.futures && s.acks.futures[s.tasks[k].m].HasValue?
    ensures Safe(cfg, s.(tasks := s.tasks[k := Returned(s.tasks[k].m)]))
  {
    hide AckTable.TableInv, Loops, AcksBacked, AcceptedBacked, Wire;
    assert TaskOk(k, s.tasks[k], s.acks.sends, s.acks.futures);
    MoveTask(s, k, Returned(s.tasks[k].m));
  }

  /** Futures that have a value keep it. */
  lemma ValuesStay(s: System, acks: AckTable.Table)
    requires Tasks(s.tasks, s.orders, s.acks, s.created)
    requires acks.commands == s.acks.commands && acks.sends == s.acks.sends
    requires forall m :: m in s.acks.futures && s.acks.futures[m].HasValue? ==> m in acks.futures && acks.futures[m].HasValue?
    ensures Tasks(s.tasks, s.orders, acks, s.created)
  {
    forall k | k in s.tasks
      ensures TaskOk(k, s.tasks[k], acks.sends, acks.futures)
    {
      assert TaskOk(k, s.tasks[k], s.acks.sends, s.acks.futures);
    }
    hide TaskOk;
  }

  lemma TimeoutKeepsSafe(cfg: Config, s: System, k: TaskKey)
    requires Safe(cfg, s) && k in s.tasks && s.tasks[k].Awaiting?
    ensures Safe(cfg, s.(acks := AckTable.GiveUp(s.acks, s.tasks[k].m), tasks := s.tasks[k := TimedOut(s.tasks[k].m)]))
  {
    hide AckTable.TableInv, Loops, AcksBacked, AcceptedBacked, Wire;
    assert TaskOk(k, s.tasks[k], s.acks.sends, s.acks.futures);
    AckLaws.GiveUpKeeps(s.acks, s.tasks[k].m);
    hide Tasks;
    ValuesStay(s, AckTable.GiveUp(s.acks, s.tasks[k].m));
    MoveTask(s.(acks := AckTable.GiveUp(s.acks, s.tasks[k].m)), k, TimedOut(s.tasks[k].m));
  }

  lemma ExpireKeepsSafe(cfg: Config, s: System)
    requires Safe(cfg, s)
    ensures Safe(cfg, s.(acks := AckTable.Expire(s.acks, s.now)))
  {
    hide AckTable.TableInv, Loops, AcksBacked, AcceptedBacked, Wire, Tasks, AckTable.Overdue;
    AckLaws.ExpireKeeps(s.acks, s.now);
    ValuesStay(s, AckTable.Expire(s.acks, s.now));
  }

  lemma AnnounceKeepsSafe(cfg: Config, s: System, id: MsgId, peers: set<Peer>)
    requires Safe(cfg, s) && id !in s.created
    ensures var msg := Message(id, None, false, Notice);
            Safe(cfg, s.(created := s.created[id := msg], net := s.net + set p | p in peers :: ToClient(p, msg)))
  {
    var msg := Message(id, None, false, Notice);
    hide AckTable.TableInv, Loops, AcceptedBacked, Tasks, Backed;
    NewMessageKeepsTasks(s.tasks, s.orders, s.acks, s.created, msg);
    NewMessageKeepsLoops(s.clients, s.created, cfg.dedupCacheSize, msg);
  }

  lemma AcceptedBackedAccept(accepted: map<MsgId, Option<real>>, sends: map<MsgId, AckTable.Send>,
                             clients: map<Peer, Client>, m: MsgId, ts: Option<real>)
    requires AcceptedBacked(accepted, sends, clients)
    requires m in sends && sends[m].peer in clients && Backed(clients[sends[m].peer], m, ts)
    ensures AcceptedBacked(accepted[m := ts], sends, clients)
  {
    hide Backed;
  }

  lemma AcceptKeepsTasksAndBacking(s: System, m: MsgId, p: Peer, reply: AckTable.Reply, clock: AckTable.ClockPair)
    requires AckTable.TableInv(s.acks) && Tasks(s.tasks, s.orders, s.acks, s.created)
    requires AcceptedBacked(s.acks.accepted, s.acks.sends, s.clients)
    requires p in s.clients && Backed(s.clients[p], m, reply.applyTs)
    ensures var acks := AckTable.Accept(s.acks, m, p, reply, clock, s.now);
      Tasks(s.tasks, s.orders, acks, s.created) && AcceptedBacked(acks.accepted, acks.sends, s.clients)
  {
    hide Tasks, Backed, AcceptedBacked, AckTable.Accept, AckTable.TableInv, AckTable.Fates, AckTable.FuturesFollow,
         AckTable.Tracked, AckTable.OnePerPeer;
    Unpack(s.acks);
    AckLaws.AcceptFlow(s.acks, m, p, reply, clock, s.now);
    var acks := AckTable.Accept(s.acks, m, p, reply, clock, s.now);
    hide AckTable.FeedGroup, AckTable.FeedSkews;
    ValuesStay(s, acks);
    if acks.accepted != s.acks.accepted {
      AcceptedBackedAccept(s.acks.accepted, s.acks.sends, s.clients, m, reply.applyTs);
    }
  }

  lemma AcceptKeepsSafe(cfg: Config, s: System, p: Peer, msg: Message, clock: AckTable.ClockPair)
    requires Safe(cfg, s) && ToServer(p, msg) in s.net && msg.body.Ack?
    ensures var a := msg.body;
            Safe(cfg, s.(acks := AckTable.Accept(s.acks, a.replyTo, a.receiver, AckTable.Reply(a.receiveTs, a.applyTs),
                                                 clock, s.now)))
  {
    hide AckTable.TableInv, Loops, AcksBacked, Wire, Tasks, Backed, AcceptedBacked, AckTable.Accept;
    var a := msg.body;
    var reply := AckTable.Reply(a.receiveTs, a.applyTs);
    AckIsBacked(s, p, msg);
    AckLaws.AcceptKeeps(s.acks, a.replyTo, p, reply, clock, s.now);
    AcceptKeepsTasksAndBacking(s, a.replyTo, p, reply, clock);
  }

  lemma AckIsBacked(s: System, p: Peer, msg: Message)
    requires AcksBacked(s.net, s.clients) && ToServer(p, msg) in s.net && msg.body.Ack?
    ensures msg.body.receiver == p && p in s.clients && Backed(s.clients[p], msg.body.replyTo, msg.body.applyTs)
  {
    hide Backed;
    assert ToServer(p, msg).msg == msg;
  }

  /** The clock, the session and the registry do not matter here. */
  lemma ElsewhereKeepsSafe(cfg: Config, s: System, now: real, session: Sessions.Snapshot, registry: Registry.Table)
    requires Safe(cfg, s)
    ensures Safe(cfg, s.(now := now, session := session, registry := registry))
  {
    hide AckTable.TableInv, Loops, AcksBacked, Wire, Tasks, AcceptedBacked;
  }

  lemma ReplyKind(cfg: Config, s: System, p: Peer, body: Body)
    ensures ServerReply(cfg, s, p, body).Some? ==>
              var r := ServerReply(cfg, s, p, body).value; FromServer(r) && !r.Command?
  {
    hide Registry.Enroll;
  }

  lemma ServerReceiveKeepsSafe(cfg: Config, s: System, p: Peer, msg: Message, replyId: MsgId)
    requires Safe(cfg, s) && ToServer(p, msg) in s.net && replyId !in s.created
    ensures Safe(cfg, DoServerReceive(cfg, s, p, msg, replyId))
  {
    hide Safe, Registry.Handle, ServerReply, AckTable.Accept, ClockOf, FromServer, Post;
    var s1 := s.(registry := Registry.Handle(s.registry, p, msg.body, s.now, cfg.policy));
    ElsewhereKeepsSafe(cfg, s, s.now, s.session, s1.registry);
    if msg.body.Ack? {
      AcceptKeepsSafe(cfg, s1, p, msg, ClockOf(s1.registry, msg.body.receiver));
    } else {
      ReplyKind(cfg, s, p, msg.body);
      var reply := ServerReply(cfg, s, p, msg.body);
      if reply.Some? {
        PostKeepsSafe(cfg, s1, ToClient(p, Message(replyId, Some(msg.id), false, reply.value)));
      }
    }
  }

  // ---------- client steps ----------

  lemma SendRequestKeepsSafe(cfg: Config, s: System, p: Peer, id: MsgId, body: Body)
    requires Safe(cfg, s) && p in s.clients && id !in s.created && (body.Register? || body.Ping?)
    ensures var s1 := s.(clients := s.clients[p := Ask(s.clients[p], id, RequestOf(body))]);
            Safe(cfg, Post(s1, ToServer(p, Message(id, None, false, body))))
  {
    hide Safe, Post;
    var c' := Ask(s.clients[p], id, RequestOf(body));
    QuietStepKeepsSafe(cfg, s, p, c');
    PostKeepsSafe(cfg, s.(clients := s.clients[p := c']), ToServer(p, Message(id, None, false, body)));
  }

  /** A remembered command has been completed. */
  lemma HitWasCompleted(c: Client, created: map<MsgId, Message>, maxSize: int, m: MsgId)
    requires LoopInv(c, maxSize) && Genuine(c, created) && c.job == None
    requires m in c.items && m in created && created[m].requiresAck
    ensures Backed(c, m, None)
  {
    ItemsWereDelivered(Ids(c.delivered), maxSize, m);
    var i :| 0 <= i < |c.delivered| && Ids(c.delivered)[i] == m;
    assert c.delivered[i] == Delivery(m, true);
    assert Consistent(c.delivered);
    DeliveredMeansRun(c.delivered, maxSize, m);
    assert CompletedIds(c.completed) + [] == CompletedIds(c.completed);
    var j :| 0 <= j < |c.completed| && CompletedIds(c.completed)[j] == m;
    assert c.completed[j].id == m;
  }

  lemma ReceiveStaysGenuine(c: Client, self: Peer, msg: Message, maxSize: int, now: real, created: map<MsgId, Message>)
    requires Genuine(c, created) && c.job == None && WellFormed(msg)
    requires msg.id in created && created[msg.id] == msg
    ensures Genuine(Receive(c, self, msg, maxSize, now).client, created)
  {
    ReceiveEffect(c, self, msg, maxSize, now);
    var c' := Receive(c, self, msg, maxSize, now).client;
    hide Receive;
    forall d | d in c'.delivered
      ensures d in c.delivered || d == Delivery(msg.id, msg.requiresAck)
    {
    }
  }

  lemma NewAckKeepsBacked(net: set<Packet>, clients: map<Peer, Client>, pkt: Packet)
    requires AcksBacked(net, clients)
    requires pkt.ToServer? && pkt.msg.body.Ack? && pkt.msg.body.receiver == pkt.peer && pkt.peer in clients
    requires Backed(clients[pkt.peer], pkt.msg.body.replyTo, pkt.msg.body.applyTs)
    ensures AcksBacked(net + {pkt}, clients)
  {
    hide Backed;
  }

  /** Posting an acknowledgement that its client backs. */
  lemma PostAckKeepsSafe(cfg: Config, s: System, p: Peer, ackId: MsgId, body: Body)
    requires Safe(cfg, s) && p in s.clients && ackId !in s.created
    requires body.Ack? && body.receiver == p && Backed(s.clients[p], body.replyTo, body.applyTs)
    ensures Safe(cfg, Post(s, ToServer(p, Message(ackId, Some(body.replyTo), false, body))))
  {
    var pkt := ToServer(p, Message(ackId, Some(body.replyTo), false, body));
    hide AckTable.TableInv, Wire, Tasks, Loops, AcksBacked, AcceptedBacked, Backed;
    PostKeepsWire(s.net, s.created, s.clients.Keys, pkt);
    NewMessageKeepsTasks(s.tasks, s.orders, s.acks, s.created, pkt.msg);
    NewMessageKeepsLoops(s.clients, s.created, cfg.dedupCacheSize, pkt.msg);
    NewAckKeepsBacked(s.net, s.clients, pkt);
  }

  /** The acknowledgement a Receive emits repeats one for a remembered command. */
  lemma ReceiveAck(c: Client, self: Peer, msg: Message, maxSize: int, now: real)
    requires c.job == None
    ensures var out := Receive(c, self, msg, maxSize, now);
      out.ack.Some? ==> msg.id in c.items && msg.requiresAck && out.ack.value == Ack(msg.id, self, now, None)
  {
  }

  lemma ClientReceiveKeepsSafe(cfg: Config, s: System, p: Peer, msg: Message, ackId: MsgId, now: real)
    requires Safe(cfg, s) && p in s.clients && ToClient(p, msg) in s.net && ackId !in s.created
    requires s.clients[p].job == None
    ensures Safe(cfg, ClientStep(s, p, Receive(s.clients[p], p, msg, cfg.dedupCacheSize, now), ackId))
  {
    var c := s.clients[p];
    var out := Receive(c, p, msg, cfg.dedupCacheSize, now);
    assert PacketOk(ToClient(p, msg), s.created, s.clients.Keys);
    assert LoopInv(c, cfg.dedupCacheSize) && Genuine(c, s.created) && WellFormed(msg);
    hide Safe, LoopInv, Genuine, Backed;
    ReceiveEffect(c, p, msg, cfg.dedupCacheSize, now);
    ReceiveAck(c, p, msg, cfg.dedupCacheSize, now);
    ReceiveKeepsLoopInv(c, p, msg, cfg.dedupCacheSize, now);
    ReceiveStaysGenuine(c, p, msg, cfg.dedupCacheSize, now, s.created);
    hide Receive;
    QuietClientKeepsSafe(cfg, s, p, out.client);
    if out.ack.Some? {
      HitWasCompleted(c, s.created, cfg.dedupCacheSize, msg.id);
      BackedGrows(c, out.client, msg.id, None);
      PostAckKeepsSafe(cfg, s.(clients := s.clients[p := out.client]), p, ackId, out.ack.value);
    }
  }

  lemma FinishStaysGenuine(c: Client, self: Peer, now: real, created: map<MsgId, Message>)
    requires Genuine(c, created) && c.job.Some? && c.job.value.phase.Handling?
    ensures Genuine(Finish(c, self, now).client, created)
  {
  }

  /** An acknowledgement sent on finishing is backed by the completion it reports. */
  lemma FinishIsBacked(c: Client, self: Peer, now: real)
    requires c.job.Some? && c.job.value.phase.Handling?
    ensures var out := Finish(c, self, now);
      && c.completed <= out.client.completed
      && (out.ack.Some? ==> out.ack.value.Ack? && out.ack.value.receiver == self
                            && Backed(out.client, out.ack.value.replyTo, out.ack.value.applyTs))
  {
    var out := Finish(c, self, now);
    if out.ack.Some? {
      assert out.client.completed[|c.completed|] == Completion(c.job.value.msg.id, now);
    }
  }

  lemma ClientIsSafe(cfg: Config, s: System, p: Peer)
    requires Safe(cfg, s) && p in s.clients
    ensures LoopInv(s.clients[p], cfg.dedupCacheSize) && Genuine(s.clients[p], s.created)
  {
    hide AckTable.TableInv, Wire, Tasks, AcksBacked, AcceptedBacked, LoopInv, Genuine;
  }

  lemma FinishKeepsSafe(cfg: Config, s: System, p: Peer, ackId: MsgId, now: real)
    requires Safe(cfg, s) && p in s.clients && ackId !in s.created
    requires s.clients[p].job.Some? && s.clients[p].job.value.phase.Handling?
    ensures Safe(cfg, ClientStep(s, p, Finish(s.clients[p], p, now), ackId))
  {
    hide Safe, LoopInv, Genuine, Backed, Finish;
    var c, out := s.clients[p], Finish(s.clients[p], p, now);
    ClientIsSafe(cfg, s, p);
    FinishKeepsLoopInv(c, p, now, cfg.dedupCacheSize);
    FinishStaysGenuine(c, p, now, s.created);
    FinishIsBacked(c, p, now);
    QuietClientKeepsSafe(cfg, s, p, out.client);
    if out.ack.Some? {
      PostAckKeepsSafe(cfg, s.(clients := s.clients[p := out.client]), p, ackId, out.ack.value);
    }
  }

  lemma QuietStepKeepsSafe(cfg: Config, s: System, p: Peer, c': Client)
    requires Safe(cfg, s) && p in s.clients
    requires c'.items == s.clients[p].items && c'.delivered == s.clients[p].delivered
    requires c'.completed == s.clients[p].completed && c'.acked == s.clients[p].acked
    requires c'.job.Some? <==> s.clients[p].job.Some?
    requires c'.job.Some? ==> c'.job.value.msg == s.clients[p].job.value.msg
    ensures Safe(cfg, s.(clients := s.clients[p := c']))
  {
    assert LoopInv(s.clients[p], cfg.dedupCacheSize) && Genuine(s.clients[p], s.created);
    assert LoopInv(c', cfg.dedupCacheSize) && Genuine(c', s.created);
    hide Safe;
    QuietClientKeepsSafe(cfg, s, p, c');
  }

  // ---------- every step, every run ----------

  lemma ServerStepKeepsSafe(cfg: Config, s: System, e: Event)
    requires Safe(cfg, s) && Enabled(cfg, s, e)
    requires !ClientMoves(e)
    ensures Safe(cfg, Do(cfg, s, e))
  {
    hide Safe, DoIssue, DoEnter, DoServerReceive, AckTable.GiveUp, AckTable.Expire, Registry.Scan, Sessions.Apply;
    match e
    case Tick(dt) => ElsewhereKeepsSafe(cfg, s, s.now + dt, s.session, s.registry);
    case ChangeSession(op) => ElsewhereKeepsSafe(cfg, s, s.now, Sessions.Apply(s.session, op), s.registry);
    case Issue(c, order) => IssueKeepsSafe(cfg, s, c, order);
    case Enter(k, id) => EnterKeepsSafe(cfg, s, k, id);
    case Transmit(k) => TransmitKeepsSafe(cfg, s, k, s.now + cfg.ackTimeoutMs / 1000.0);
    case Return(k) => ReturnKeepsSafe(cfg, s, k);
    case Timeout(k) => TimeoutKeepsSafe(cfg, s, k);
    case Announce(id, peers) => AnnounceKeepsSafe(cfg, s, id, peers);
    case ServerReceive(p, msg, replyId) => ServerReceiveKeepsSafe(cfg, s, p, msg, replyId);
    case ExpireAcks => ExpireKeepsSafe(cfg, s);
    case ScanHealth => ElsewhereKeepsSafe(cfg, s, s.now, s.session, Registry.Scan(s.registry, s.now, cfg.policy.timeout));
  }

  lemma ClientStepKeepsSafe(cfg: Config, s: System, e: Event)
    requires Safe(cfg, s) && Enabled(cfg, s, e)
    requires ClientMoves(e)
    ensures Safe(cfg, Do(cfg, s, e))
  {
    hide Safe, Post, Receive, Finish, ClientStep, Ask;
    match e
    case SendRequest(p, id, body) => SendRequestKeepsSafe(cfg, s, p, id, body);
    case SendReport(p, id, body) => PostKeepsSafe(cfg, s, ToServer(p, Message(id, None, false, body)));
    case ClientReceive(p, msg, ackId) => ClientReceiveKeepsSafe(cfg, s, p, msg, ackId, LocalTime(cfg, s, p));
    case WakeUp(p) => QuietStepKeepsSafe(cfg, s, p, Wake(s.clients[p], LocalTime(cfg, s, p)));
    case FinishJob(p, ackId) => FinishKeepsSafe(cfg, s, p, ackId, LocalTime(cfg, s, p));
    case ResumeExchange(p, r) => QuietStepKeepsSafe(cfg, s, p, Resume(s.clients[p], r, LocalTime(cfg, s, p)));
  }

  lemma StepKeepsSafe(cfg: Config, s: System, e: Event)
    requires Safe(cfg, s) && Enabled(cfg, s, e)
    ensures Safe(cfg, Do(cfg, s, e))
  {
    hide Safe, Do, Enabled;
    if ClientMoves(e) {
      ClientStepKeepsSafe(cfg, s, e);
    } else {
      ServerStepKeepsSafe(cfg, s, e);
    }
  }
}

/** The whole control protocol as one step system: the server, every client and the network. A
    step is the code between two awaits. The network remembers every packet ever sent and may
    deliver any of them, to its addressee, at any time and any number of times: packets are
    duplicated, delayed and reordered freely, and a packet never delivered is lost. */
module Protocol {
  import opened Types
  import opened Messages
  import opened ClientLoop
  import AckTable
  import Registry
  import Sessions

  /** The constants of a run. trueOffset is the (unknown) distance of each client's clock. */
  datatype Config = Config(trueOffset: Peer -> real, dedupCacheSize: int, ackTimeoutMs: real, policy: Registry.Policy)

  /** One `_send_control` coroutine. */
  datatype Task =
    | Scheduled
    | Entered(m: MsgId)                      // tables filled, transport.send not done
    | Awaiting(m: MsgId, deadline: real)     // in wait_for
    | Returned(m: MsgId)
    | TimedOut(m: MsgId)

  datatype TaskKey = TaskKey(command: CommandId, peer: Peer)

  datatype Order = Order(kind: CommandKind, executeAt: real)

  datatype System = System(
    now: real,
    registry: Registry.Table,
    session: Sessions.Snapshot,
    acks: AckTable.Table,
    orders: map<CommandId, Order>,
    tasks: map<TaskKey, Task>,
    clients: map<Peer, Client>,
    created: map<MsgId, Message>,
    net: set<Packet>)

  datatype Event =
    | Tick(dt: real)
      // server
    | ChangeSession(op: Sessions.Op)
    | Issue(command: CommandId, order: Order)
    | Enter(key: TaskKey, id: MsgId)
    | Transmit(key: TaskKey)
    | Return(key: TaskKey)
    | Timeout(key: TaskKey)
    | Announce(id: MsgId, peers: set<Peer>)
    | ServerReceive(peer: Peer, msg: Message, replyId: MsgId)
    | ExpireAcks
    | ScanHealth
      // clients
    | SendRequest(peer: Peer, id: MsgId, body: Body)
    | SendReport(peer: Peer, id: MsgId, body: Body)
    | ClientReceive(peer: Peer, msg: Message, ackId: MsgId)
    | WakeUp(peer: Peer)
    | FinishJob(peer: Peer, ackId: MsgId)
    | ResumeExchange(peer: Peer, request: MsgId)

  ghost predicate Init(s: System) {
    && s.registry == map[] && s.session == Sessions.INITIAL && s.acks == AckTable.EMPTY
    && s.orders == map[] && s.tasks == map[] && s.created == map[] && s.net == {}
    && forall p :: p in s.clients ==> s.clients[p] == NEW_CLIENT
  }

  function LocalTime(cfg: Config, s: System, p: Peer): real {
    s.now - cfg.trueOffset(p)
  }

  /** The command message of a task. */
  function CommandMessage(s: System, key: TaskKey, id: MsgId): Message
    requires key.command in s.orders
  {
    Message(id, None, true, Command(s.orders[key.command].kind, key.command, s.orders[key.command].executeAt))
  }

  /** Adds a freshly built message, addressed as given. */
  function Post(s: System, packet: Packet): System {
    s.(created := s.created[packet.msg.id := packet.msg], net := s.net + {packet})
  }

  /** What a client asks in `register` and `sync_clock`. */
  predicate IsRequest(body: Body, localNow: real) {
    body.Register? || body == Ping(localNow)
  }

  function RequestOf(body: Body): Request {
    if body.Ping? then PingRequest(body.t0) else RegisterRequest
  }

  /** What a client sends without waiting for a reply: status reports carry its clock pair. */
  predicate IsReport(body: Body, c: Client) {
    || (body.ClientStatus? && body.offsetMs == c.offsetMs && body.rttMs == c.rttMs)
    || body.Heartbeat?
    || body.Report?
  }

  function ClockOf(registry: Registry.Table, p: Peer): AckTable.ClockPair {
    if p in registry then AckTable.ClockPair(registry[p].offsetMs, registry[p].rttMs) else AckTable.ClockPair(0.0, 0.0)
  }

  /** The server's answer to a request, if the message is one. */
  function ServerReply(cfg: Config, s: System, p: Peer, body: Body): Option<Body> {
    match body
    case Register(role, version, capabilities, secret) =>
      var outcome := Registry.Enroll(Registry.Touch(s.registry, p, s.now), p, role, version, capabilities, secret,
                                     s.now, cfg.policy).1;
      Some(match outcome
           case Registered(refreshed) => RegisterOk(s.session, refreshed)
           case Refused(_) => RegisterReject)
    case Ping(t0) => Some(Pong(t0, s.now, s.now))
    case _ => None
  }

  ghost predicate Enabled(cfg: Config, s: System, e: Event) {
    match e
    case Tick(dt) => dt >= 0.0
    case ChangeSession(_) => true
    case Issue(c, _) => c !in s.acks.commands
    case Enter(k, id) => k in s.tasks && s.tasks[k].Scheduled? && k.command in s.orders && id !in s.created
    case Transmit(k) => k in s.tasks && s.tasks[k].Entered? && s.tasks[k].m in s.created
    case Return(k) => k in s.tasks && s.tasks[k].Awaiting? && s.tasks[k].m in s.acks.futures &&
                      s.acks.futures[s.tasks[k].m].HasValue?
    case Timeout(k) => k in s.tasks && s.tasks[k].Awaiting? && s.now >= s.tasks[k].deadline &&
                       s.tasks[k].m in s.acks.futures && s.acks.futures[s.tasks[k].m].Waiting?
    case Announce(id, _) => id !in s.created
    case ServerReceive(p, msg, replyId) => ToServer(p, msg) in s.net && replyId !in s.created
    case ExpireAcks => true
    case ScanHealth => true
    case SendRequest(p, id, body) => p in s.clients && id !in s.created && IsRequest(body, LocalTime(cfg, s, p))
    case SendReport(p, id, body) => p in s.clients && id !in s.created && IsReport(body, s.clients[p])
    case ClientReceive(p, msg, ackId) =>
      p in s.clients && ToClient(p, msg) in s.net && ackId !in s.created && s.clients[p].job == None
    case WakeUp(p) =>
      && p in s.clients && s.clients[p].job.Some? && s.clients[p].job.value.phase.Sleeping?
      && LocalTime(cfg, s, p) >= s.clients[p].job.value.phase.target
    case FinishJob(p, ackId) =>
      p in s.clients && s.clients[p].job.Some? && s.clients[p].job.value.phase.Handling? && ackId !in s.created
    case ResumeExchange(p, r) => p in s.clients && r in s.clients[p].answers
  }

  function Do(cfg: Config, s: System, e: Event): System
    requires Enabled(cfg, s, e)
  {
    match e
    case Tick(dt) => s.(now := s.now + dt)
    case ChangeSession(op) => s.(session := Sessions.Apply(s.session, op))
    case Issue(c, order) => DoIssue(s, c, order)
    case Enter(k, id) => DoEnter(cfg, s, k, id)
    case Transmit(k) =>
      var m := s.tasks[k].m;
      s.(net := s.net + {ToClient(k.peer, s.created[m])},
         tasks := s.tasks[k := Awaiting(m, s.now + cfg.ackTimeoutMs / 1000.0)])
    case Return(k) => s.(tasks := s.tasks[k := Returned(s.tasks[k].m)])
    case Timeout(k) =>
      s.(acks := AckTable.GiveUp(s.acks, s.tasks[k].m), tasks := s.tasks[k := TimedOut(s.tasks[k].m)])
    case Announce(id, peers) =>
      var msg := Message(id, None, false, Notice);
      s.(created := s.created[id := msg], net := s.net + set p | p in peers :: ToClient(p, msg))
    case ServerReceive(p, msg, replyId) => DoServerReceive(cfg, s, p, msg, replyId)
    case ExpireAcks => s.(acks := AckTable.Expire(s.acks, s.now))
    case ScanHealth => s.(registry := Registry.Scan(s.registry, s.now, cfg.policy.timeout))
    case SendRequest(p, id, body) =>
      var s1 := s.(clients := s.clients[p := Ask(s.clients[p], id, RequestOf(body))]);
      Post(s1, ToServer(p, Message(id, None, false, body)))
    case SendReport(p, id, body) => Post(s, ToServer(p, Message(id, None, false, body)))
    case ClientReceive(p, msg, ackId) =>
      ClientStep(s, p, Receive(s.clients[p], p, msg, cfg.dedupCacheSize, LocalTime(cfg, s, p)), ackId)
    case WakeUp(p) => s.(clients := s.clients[p := Wake(s.clients[p], LocalTime(cfg, s, p))])
    case FinishJob(p, ackId) => ClientStep(s, p, Finish(s.clients[p], p, LocalTime(cfg, s, p)), ackId)
    case ResumeExchange(p, r) => s.(clients := s.clients[p := Resume(s.clients[p], r, LocalTime(cfg, s, p))])
  }

  function NewTasks(c: CommandId, peers: set<Peer>): (r: map<TaskKey, Task>)
    ensures forall k :: k in r <==> k.command == c && k.peer in peers
    ensures forall k :: k in r ==> r[k] == Scheduled
  {
    var keys := set p | p in peers :: TaskKey(c, p);
    assert forall k: TaskKey :: k.command == c && k.peer in peers ==> k == TaskKey(c, k.peer);
    map k | k in keys :: Scheduled
  }

  function DoIssue(s: System, c: CommandId, order: Order): System {
    s.(acks := AckTable.Open(s.acks, c, s.registry.Keys),
       orders := s.orders[c := order],
       tasks := s.tasks + NewTasks(c, s.registry.Keys))
  }

  function DoEnter(cfg: Config, s: System, k: TaskKey, id: MsgId): System
    requires k.command in s.orders
  {
    s.(created := s.created[id := CommandMessage(s, k, id)],
       acks := AckTable.Add(s.acks, id, k.peer, k.command, s.now, cfg.ackTimeoutMs),
       tasks := s.tasks[k := Entered(id)])
  }

  function DoServerReceive(cfg: Config, s: System, p: Peer, msg: Message, replyId: MsgId): System {
    var s1 := s.(registry := Registry.Handle(s.registry, p, msg.body, s.now, cfg.policy));
    if msg.body.Ack? then
      var a := msg.body;
      s1.(acks := AckTable.Accept(s.acks, a.replyTo, a.receiver, AckTable.Reply(a.receiveTs, a.applyTs),
                                  ClockOf(s1.registry, a.receiver), s.now))
    else match ServerReply(cfg, s, p, msg.body)
      case None => s1
      case Some(body) => Post(s1, ToClient(p, Message(replyId, Some(msg.id), false, body)))
  }

  function ClientStep(s: System, p: Peer, out: Output, ackId: MsgId): System {
    var s1 := s.(clients := s.clients[p := out.client]);
    match out.ack
    case Some(body) => if body.Ack? then Post(s1, ToServer(p, Message(ackId, Some(body.replyTo), false, body))) else s1
    case None => s1
  }

  /** The steps that change a client. */
  predicate ClientMoves(e: Event) {
    e.SendRequest? || e.SendReport? || e.ClientReceive? || e.WakeUp? || e.FinishJob? || e.ResumeExchange?
  }

  /** A client's step touches neither the server's tables nor its session. */
  lemma ClientFrame(cfg: Config, s: System, e: Event)
    requires Enabled(cfg, s, e) && ClientMoves(e)
    ensures var s' := Do(cfg, s, e); s'.registry == s.registry && s'.session == s.session && s'.acks == s.acks
  {
    hide Receive, Finish, Wake, Resume, Ask, LocalTime, IsRequest, IsReport, RequestOf, ClientStep;
    if e.ClientReceive? {
      OutputFrame(s, e.peer, Receive(s.clients[e.peer], e.peer, e.msg, cfg.dedupCacheSize, LocalTime(cfg, s, e.peer)), e.ackId);
    } else if e.FinishJob? {
      OutputFrame(s, e.peer, Finish(s.clients[e.peer], e.peer, LocalTime(cfg, s, e.peer)), e.ackId);
    }
  }

  lemma OutputFrame(s: System, p: Peer, out: Output, ackId: MsgId)
    ensures var s' := ClientStep(s, p, out, ackId);
      && s'.registry == s.registry && s'.session == s.session && s'.acks == s.acks
      && s'.clients == s.clients[p := out.client]
  {
  }

  lemma ReceiveFrame(cfg: Config, s: System, p: Peer, msg: Message, replyId: MsgId)
    ensures var s' := DoServerReceive(cfg, s, p, msg, replyId);
      && s'.clients == s.clients && s'.session == s.session && s'.now == s.now
      && s'.registry == Registry.Handle(s.registry, p, msg.body, s.now, cfg.policy)
  {
    hide Registry.Handle, AckTable.Accept, ServerReply, ClockOf;
  }

  /** A server's step touches no client, and its registry and session only where it says so. */
  lemma ServerFrame(cfg: Config, s: System, e: Event)
    requires Enabled(cfg, s, e) && !ClientMoves(e)
    ensures var s' := Do(cfg, s, e);
      && s'.clients == s.clients
      && (!e.ChangeSession? ==> s'.session == s.session)
      && (!e.ServerReceive? && !e.ScanHealth? ==> s'.registry == s.registry)
  {
    hide AckTable.GiveUp, AckTable.Expire, AckTable.Open, AckTable.Add, Registry.Scan, DoServerReceive, NewTasks, Sessions.Apply;
    if e.ServerReceive? {
      ReceiveFrame(cfg, s, e.peer, e.msg, e.replyId);
    }
  }

  /** The server's table of acknowledgements changes only in these steps. */
  predicate TouchesTable(e: Event) {
    e.Issue? || e.Enter? || e.Timeout? || e.ServerReceive? || e.ExpireAcks?
  }

  lemma TableFrame(cfg: Config, s: System, e: Event)
    requires Enabled(cfg, s, e) && !ClientMoves(e) && !TouchesTable(e)
    ensures Do(cfg, s, e).acks == s.acks
  {
    hide Registry.Scan, Sessions.Apply;
  }

  ghost predicate Next(cfg: Config, s: System, e: Event, s': System) {
    Enabled(cfg, s, e) && s' == Do(cfg, s, e)
  }

  /** A run: states joined by steps, from an initial state. */
  ghost predicate IsRun(cfg: Config, states: seq<System>, events: seq<Event>) {
    && |states| == |events| + 1
    && Init(states[0])
    && forall i :: 0 <= i < |events| ==> Next(cfg, states[i], events[i], states[i + 1])
  }
}

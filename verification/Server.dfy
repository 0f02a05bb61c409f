/** The server as the objects it is made of. Each method is one step of the protocol between two
    awaits, and leaves the objects in the state the protocol's step functions name. */
module Server {
  import opened Types
  import opened Messages
  import opened AckTable
  import opened Registry
  import Protocol
  import Sessions
  import Versioning

  /** The table of messages waiting for an acknowledgement. */
  class PendingAckManager {
    const timeoutMs: real
    var pending: map<Key, Entry>

    constructor (timeoutMs: real)
      ensures this.timeoutMs == timeoutMs && pending == map[]
    {
      this.timeoutMs := timeoutMs;
      pending := map[];
    }

    method AddEntry(m: MsgId, peer: Peer, now: real)
      modifies this
      ensures pending == old(pending)[Key(m, peer) := Entry(now, now + timeoutMs / 1000.0)]
    {
      pending := pending[Key(m, peer) := Entry(now, now + timeoutMs / 1000.0)];
    }

    /** Takes the entry out, if it is still there. */
    method ResolveEntry(replyTo: MsgId, peer: Peer) returns (entry: Option<Entry>)
      modifies this
      ensures entry == if Key(replyTo, peer) in old(pending) then Some(old(pending)[Key(replyTo, peer)]) else None
      ensures pending == old(pending) - {Key(replyTo, peer)}
    {
      var key := Key(replyTo, peer);
      if key !in pending {
        return None;
      }
      entry := Some(pending[key]);
      pending := pending - {key};
    }

    /** Takes out every entry whose deadline has passed, each once, and no other. */
    method ExpireEntries(now: real) returns (expired: seq<Key>)
      modifies this
      ensures NoRepeats(expired)
      ensures forall k :: k in expired <==> k in old(pending) && old(pending)[k].timeoutAt <= now
      ensures forall k :: k in pending <==> k in old(pending) && now < old(pending)[k].timeoutAt
      ensures forall k :: k in pending ==> pending[k] == old(pending)[k]
    {
      expired := CollectOverdue(now);
      hide NoRepeats;
      var i := 0;
      while i < |expired|
        invariant 0 <= i <= |expired|
        invariant pending == old(pending) - SetOf(expired[..i])
      {
        SetOfSnoc(expired, i);
        pending := pending - {expired[i]};
        i := i + 1;
      }
      assert expired[..i] == expired;
    }

    method CollectOverdue(now: real) returns (expired: seq<Key>)
      ensures NoRepeats(expired)
      ensures forall k :: k in expired <==> k in pending && pending[k].timeoutAt <= now
    {
      expired := [];
      var todo := pending.Keys;
      while todo != {}
        invariant todo <= pending.Keys
        invariant forall k :: k in expired <==> k in pending && k !in todo && pending[k].timeoutAt <= now
        invariant NoRepeats(expired)
        decreases |todo|
      {
        var k :| k in todo;
        if pending[k].timeoutAt <= now {
          expired := expired + [k];
        }
        todo := todo - {k};
      }
    }
  }

  /** The list holds each of the items once. */
  ghost predicate Lists(s: seq<Key>, items: set<Key>) {
    NoRepeats(s) && forall k :: k in s <==> k in items
  }

  function SetOf(s: seq<Key>): (r: set<Key>)
    ensures forall k :: k in r <==> k in s
  {
    set k | k in s
  }

  lemma SetOfSnoc(s: seq<Key>, i: nat)
    requires i < |s|
    ensures SetOf(s[..i + 1]) == SetOf(s[..i]) + {s[i]}
  {
    assert s[..i + 1] == s[..i] + [s[i]];
  }

  ghost predicate NoRepeats(s: seq<Key>) {
    forall i, j :: 0 <= i < j < |s| ==> s[i] != s[j]
  }

  lemma {:induction false} SizeOfList(s: seq<Key>, items: set<Key>)
    requires Lists(s, items)
    ensures |s| == |items|
  {
    if s != [] {
      var init, last := s[..|s| - 1], s[|s| - 1];
      assert s == init + [last];
      assert last in items;
      SizeOfList(init, items - {last});
    } else {
      assert items == {};
    }
  }

  /** What the health scan finds: a client not yet disconnected has given no sign of life for the
      timeout, or an active one for half of it. */
  predicate Finds(info: ClientInfo, now: real, timeoutS: real, finding: Verdict) {
    match finding
    case MarkDisconnected => info.status != DISCONNECTED && info.lastSeen + timeoutS <= now
    case MarkDegraded => Active(info.status) && info.lastSeen + timeoutS / 2.0 <= now < info.lastSeen + timeoutS
    case Keep => false
  }

  /** One line the health scan writes to the log. */
  datatype HealthRecord = HealthRecord(peer: Peer, verdict: Verdict)

  class ExperimentServer {
    const config: Protocol.Config
    const registry: ClientRegistry
    const session: Sessions.SessionManager
    const pendingAcks: PendingAckManager
    var messageTracking: map<MsgId, Tracking>
    var commandGroups: map<CommandId, Group>
    var futures: map<MsgId, Future>
    // metrics
    var ackLatencyMs: seq<real>
    var ackTimeouts: nat
    var receiveDelayMs: seq<real>
    var applyDelayMs: seq<real>
    var applySkewMs: seq<real>
    // what has happened so far
    ghost var skews: seq<Skew>
    ghost var commands: map<CommandId, set<Peer>>
    ghost var sends: map<MsgId, Send>
    ghost var accepted: map<MsgId, Option<real>>
    ghost var expired: set<MsgId>

    constructor (config: Protocol.Config)
      ensures this.config == config && Valid() && fresh(registry) && fresh(session) && fresh(pendingAcks)
      ensures registry.clients == map[] && session.View() == Sessions.INITIAL && Acks() == EMPTY
    {
      this.config := config;
      registry := new ClientRegistry();
      session := new Sessions.SessionManager();
      pendingAcks := new PendingAckManager(config.ackTimeoutMs);
      messageTracking, commandGroups, futures := map[], map[], map[];
      ackLatencyMs, ackTimeouts, receiveDelayMs, applyDelayMs, applySkewMs := [], 0, [], [], [];
      skews, commands, sends, accepted, expired := [], map[], map[], map[], {};
    }

    ghost predicate Valid()
      reads this, pendingAcks
    {
      && pendingAcks.timeoutMs == config.ackTimeoutMs
      && applySkewMs == SkewValues(skews)
    }

    /** The bookkeeping of acknowledged commands, as one value. */
    ghost function Acks(): AckTable.Table
      reads this, pendingAcks
    {
      Table(pendingAcks.pending, messageTracking, commandGroups, futures, ackLatencyMs, ackTimeouts,
            receiveDelayMs, applyDelayMs, skews, commands, sends, accepted, expired)
    }

    /** The objects hold the server's part of protocol state s. */
    ghost predicate Represents(s: Protocol.System)
      reads this, registry, session, pendingAcks
    {
      s.registry == registry.clients && s.session == session.View() && s.acks == Acks()
    }

    /** `_send_to_all` up to its first await: a fresh group, and one coroutine for each client. */
    method OpenCommand(c: CommandId, order: Protocol.Order, ghost s: Protocol.System) returns (targets: set<Peer>)
      requires Valid() && Represents(s)
      modifies this
      ensures Valid() && Represents(Protocol.DoIssue(s, c, order))
      ensures Protocol.DoIssue(s, c, order).tasks == s.tasks + Protocol.NewTasks(c, targets)
      ensures targets == registry.clients.Keys
    {
      targets := registry.clients.Keys;
      commandGroups := commandGroups[c := Group(targets, [])];
      commands := commands[c := targets];
    }

    /** `start_session` up to its first await: a new session, running, and the command to every
        client registered now. */
    method StartSession(id: string, c: CommandId, ghost s: Protocol.System) returns (targets: set<Peer>)
      requires Valid() && Represents(s)
      modifies this, session
      ensures Valid() && targets == registry.clients.Keys
      ensures session.View() == Sessions.Snapshot(Some(id), Sessions.RUNNING, None, None, s.session.parameterVersion)
      ensures Represents(Protocol.DoIssue(s.(session := session.View()), c, Protocol.Order(SESSION_START, 0.0)))
    {
      session.Perform(Sessions.Create(id));
      session.Perform(Sessions.Start);
      targets := OpenCommand(c, Protocol.Order(SESSION_START, 0.0), s.(session := session.View()));
    }

    /** `stop_session` up to its first await. */
    method StopSession(c: CommandId, ghost s: Protocol.System) returns (targets: set<Peer>)
      requires Valid() && Represents(s)
      modifies this, session
      ensures Valid() && targets == registry.clients.Keys
      ensures session.View() == s.session.(state := Sessions.STOPPED)
      ensures Represents(Protocol.DoIssue(s.(session := session.View()), c, Protocol.Order(SESSION_STOP, 0.0)))
    {
      session.Perform(Sessions.Stop);
      targets := OpenCommand(c, Protocol.Order(SESSION_STOP, 0.0), s.(session := session.View()));
    }

    /** `arm_trial` up to its first await. */
    method ArmTrial(trialId: string, c: CommandId, ghost s: Protocol.System) returns (targets: set<Peer>)
      requires Valid() && Represents(s)
      modifies this, session
      ensures Valid() && targets == registry.clients.Keys
      ensures session.View() == s.session.(trialId := Some(trialId), phase := Some("armed"))
      ensures Represents(Protocol.DoIssue(s.(session := session.View()), c, Protocol.Order(TRIAL_ARM, 0.0)))
    {
      session.Perform(Sessions.ArmTrial(trialId));
      targets := OpenCommand(c, Protocol.Order(TRIAL_ARM, 0.0), s.(session := session.View()));
    }

    /** `start_trial` up to its first await, its time being resolved. */
    method StartTrial(trialId: string, executeAt: real, c: CommandId, ghost s: Protocol.System) returns (targets: set<Peer>)
      requires Valid() && Represents(s)
      modifies this, session
      ensures Valid() && targets == registry.clients.Keys
      ensures session.View() == s.session.(trialId := Some(trialId), phase := Some("running"))
      ensures Represents(Protocol.DoIssue(s.(session := session.View()), c, Protocol.Order(TRIAL_START_AT, executeAt)))
    {
      session.Perform(Sessions.StartTrial(trialId));
      targets := OpenCommand(c, Protocol.Order(TRIAL_START_AT, executeAt), s.(session := session.View()));
    }

    /** `_send_control` up to its first await: the message enters both tables. */
    method EnterControl(k: Protocol.TaskKey, m: MsgId, now: real, ghost s: Protocol.System)
      requires Valid() && Represents(s) && now == s.now && k.command in s.orders
      modifies this, pendingAcks
      ensures Valid() && Represents(Protocol.DoEnter(config, s, k, m))
    {
      futures := futures[m := Waiting];
      pendingAcks.AddEntry(m, k.peer, now);
      messageTracking := messageTracking[m := Tracking(k.command, now, k.peer)];
      sends := sends[m := Send(k.peer, k.command)];
    }

    /** `wait_for` runs out of time: it cancels a future that has no value. */
    method GiveUpWaiting(m: MsgId)
      requires Valid()
      modifies this
      ensures Valid() && Acks() == GiveUp(old(Acks()), m)
    {
      if m in futures && futures[m].Waiting? {
        futures := futures[m := Cancelled];
      }
    }

    /** The ACK branch of `_handle_message`. */
    method HandleAck(replyTo: MsgId, receiver: Peer, reply: Reply, now: real)
      requires Valid()
      modifies this, pendingAcks
      ensures Valid()
      ensures Acks() == Accept(old(Acks()), replyTo, receiver, reply, Protocol.ClockOf(registry.clients, receiver), now)
    {
      hide Observe, Resolve, Protocol.ClockOf;
      var closed := CloseEntry(replyTo, receiver, reply, now);
      if closed {
        ObserveAckTiming(replyTo, receiver, reply);
      }
    }

    /** `resolve_entry`, and the latency of the entry it closes. */
    method CloseEntry(replyTo: MsgId, receiver: Peer, reply: Reply, now: real) returns (closed: bool)
      requires Valid()
      modifies this, pendingAcks
      ensures Valid() && closed == (Key(replyTo, receiver) in old(pendingAcks.pending))
      ensures Acks() == if closed then Resolve(old(Acks()), Key(replyTo, receiver), reply, now) else old(Acks())
    {
      hide SkewValues;
      var entry := pendingAcks.ResolveEntry(replyTo, receiver);
      if entry.None? {
        assert pendingAcks.pending == old(pendingAcks.pending);
        return false;
      }
      if replyTo in futures && futures[replyTo].Waiting? {
        futures := futures[replyTo := HasValue];
      }
      ackLatencyMs := ackLatencyMs + [(now - entry.value.createdAt) * 1000.0];
      accepted := accepted[replyTo := reply.applyTs];
      closed := true;
    }

    method ObserveAckTiming(m: MsgId, receiver: Peer, reply: Reply)
      requires Valid()
      modifies this
      ensures Valid()
      ensures Acks() == Observe(old(Acks()), m, receiver, reply, Protocol.ClockOf(registry.clients, receiver))
    {
      hide FeedGroup, FeedSkews, SkewValues, Put, DelayMs, Protocol.ClockOf;
      if m !in messageTracking {
        return;
      }
      var tracking := messageTracking[m];
      messageTracking := messageTracking - {m};
      var clock := Protocol.ClockOf(registry.clients, receiver);
      ObserveReceive(tracking, reply, clock);
      if reply.applyTs.Some? {
        ObserveApply(tracking, EntryFor(receiver, reply.applyTs.value, clock));
      }
    }

    method ObserveReceive(tracking: Tracking, reply: Reply, clock: ClockPair)
      modifies this`receiveDelayMs
      ensures receiveDelayMs == old(receiveDelayMs) + [DelayMs(reply.receiveTs + clock.offsetMs / 1000.0, tracking.serverTs)]
    {
      var delayMs := ((reply.receiveTs + clock.offsetMs / 1000.0) - tracking.serverTs) * 1000.0;
      receiveDelayMs := receiveDelayMs + [Max(0.0, delayMs)];
    }

    method ObserveApply(tracking: Tracking, entry: ApplyTime)
      requires Valid()
      modifies this`applyDelayMs, this`commandGroups, this`applySkewMs, this`skews
      ensures Valid()
      ensures applyDelayMs == old(applyDelayMs) + [DelayMs(entry.at, tracking.serverTs)]
      ensures commandGroups == FeedGroup(old(commandGroups), tracking.command, entry)
      ensures skews == FeedSkews(old(skews), old(commandGroups), tracking.command, entry)
    {
      hide FeedGroup, FeedSkews, SkewValues;
      applyDelayMs := applyDelayMs + [DelayMs(entry.at, tracking.serverTs)];
      FeedCommand(tracking.command, entry);
    }

    /** The part of `_observe_ack_timing` that concerns the command's group. */
    method FeedCommand(c: CommandId, entry: ApplyTime)
      requires Valid()
      modifies this`commandGroups, this`applySkewMs, this`skews
      ensures Valid()
      ensures commandGroups == FeedGroup(old(commandGroups), c, entry)
      ensures skews == FeedSkews(old(skews), old(commandGroups), c, entry)
    {
      hide Put, MaxAt, MinAt, SkewValues;
      if c !in commandGroups {
        return;
      }
      var group := commandGroups[c];
      var applyTimes := Put(group.applyTimes, entry);
      if |applyTimes| >= 2 {
        var skewMs := (MaxAt(applyTimes) - MinAt(applyTimes)) * 1000.0;
        applySkewMs := applySkewMs + [skewMs];
        SkewValuesSnoc(skews, Skew(c, skewMs, applyTimes));
        skews := skews + [Skew(c, skewMs, applyTimes)];
      }
      if |applyTimes| >= |group.expected| {
        commandGroups := commandGroups - {c};
      } else {
        commandGroups := commandGroups[c := group.(applyTimes := applyTimes)];
      }
    }

    /** `_expire_acks`: counts one timeout for each entry it takes out. */
    method ExpireAcks(now: real) returns (log: seq<Key>)
      requires Valid()
      modifies this, pendingAcks
      ensures Valid()
      ensures Acks() == Expire(old(Acks()), now)
      ensures NoRepeats(log)
      ensures forall k :: k in log <==> k in old(pendingAcks.pending) && old(pendingAcks.pending)[k].timeoutAt <= now
    {
      hide NoRepeats, SkewValues;
      ghost var overdue := Overdue(pendingAcks.pending, now);
      log := pendingAcks.ExpireEntries(now);
      assert pendingAcks.pending == old(pendingAcks.pending) - overdue;
      hide Overdue;
      SizeOfList(log, overdue);
      var i := 0;
      while i < |log|
        invariant 0 <= i <= |log| && ackTimeouts == old(ackTimeouts) + i
        invariant pendingAcks.pending == old(pendingAcks.pending) - overdue
        invariant Acks() == old(Acks()).(pending := pendingAcks.pending, timeouts := ackTimeouts)
        invariant Valid()
      {
        ackTimeouts := ackTimeouts + 1;
        i := i + 1;
      }
      expired := expired + IdsOf(overdue);
    }

    /** `_refresh_client_health`: one pass over all clients. It logs exactly the clients it
        degrades or disconnects. */
    method RefreshClientHealth(now: real) returns (log: seq<HealthRecord>)
      requires Valid()
      modifies registry
      ensures registry.clients == Scan(old(registry.clients), now, config.policy.timeout)
      ensures forall p, v :: HealthRecord(p, v) in log <==>
                p in old(registry.clients) && Finds(old(registry.clients[p]), now, config.policy.timeout, v)
    {
      hide SkewValues, ScanClient, Finds;
      var timeoutS := config.policy.timeout;
      log := [];
      ghost var was := registry.clients;
      var todo := registry.clients.Keys;
      while todo != {}
        invariant todo <= was.Keys && registry.clients.Keys == was.Keys
        invariant forall p :: p in todo ==> registry.clients[p] == was[p]
        invariant forall p :: p in was && p !in todo ==> registry.clients[p] == ScanClient(was[p], now, timeoutS)
        invariant forall p, v :: HealthRecord(p, v) in log <==> p in was && p !in todo && Finds(was[p], now, timeoutS, v)
        decreases |todo|
      {
        var p :| p in todo;
        var verdict := CheckClient(p, now);
        if verdict != Keep {
          log := log + [HealthRecord(p, verdict)];
        }
        todo := todo - {p};
      }
    }

    /** The body of the health scan's loop. */
    method CheckClient(p: Peer, now: real) returns (verdict: Verdict)
      requires p in registry.clients
      modifies registry
      ensures forall v :: Finds(old(registry.clients)[p], now, config.policy.timeout, v) <==> v != Keep && v == verdict
      ensures registry.clients == old(registry.clients)[p := ScanClient(old(registry.clients)[p], now, config.policy.timeout)]
    {
      var timeoutS := config.policy.timeout;
      var degradedS := timeoutS / 2.0;
      var client := registry.clients[p];
      var age := now - client.lastSeen;
      if age >= timeoutS && client.status != DISCONNECTED {
        registry.DoUpdateStatus(p, DISCONNECTED, now);
        return MarkDisconnected;
      }
      if age >= degradedS && client.status in {CONNECTED, REGISTERED, SYNCED, READY, RUNNING} {
        registry.DoUpdateStatus(p, DEGRADED, now);
        return MarkDegraded;
      }
      verdict := Keep;
    }

    /** `_handle_register` up to its reply. */
    method HandleRegister(p: Peer, role: string, version: string, capabilities: seq<string>, secret: Option<string>,
                          now: real) returns (reply: Body)
      modifies registry
      ensures var (t, outcome) := Enroll(old(registry.clients), p, role, version, capabilities, secret, now, config.policy);
        && registry.clients == t
        && reply == match outcome
                    case Registered(refreshed) => RegisterOk(session.View(), refreshed)
                    case Refused(_) => RegisterReject
    {
      var policy := config.policy;
      var protocol := Versioning.Negotiate(policy.version, version, ServerCapabilities(policy.requireSecret), capabilities);
      if protocol.Err? {
        return RegisterReject;
      }
      if policy.requireSecret && !(p in policy.secrets && Some(policy.secrets[p]) == secret) {
        return RegisterReject;
      }
      var info := ClientInfo(role, protocol.value.version, protocol.value.capabilities, now, now, REGISTERED, 0.0, 0.0);
      var outcome := registry.DoRegisterOrRefresh(p, info, now);
      match outcome
      case Registered(refreshed) => reply := RegisterOk(session.View(), refreshed);
      case Refused(_) => reply := RegisterReject;
    }

    /** The registry's part of `_handle_message`, and the reply it calls for, if any. */
    method HandleBody(p: Peer, body: Body, now: real, ghost s: Protocol.System) returns (reply: Option<Body>)
      requires s.registry == registry.clients && s.session == session.View() && s.now == now
      modifies registry
      ensures registry.clients == Registry.Handle(old(registry.clients), p, body, now, config.policy)
      ensures reply == Protocol.ServerReply(config, s, p, body)
    {
      hide Enroll, Registry.Touch, UpdateStatus, UpdateSync;
      registry.DoTouch(p, now);
      reply := None;
      match body
      case Register(role, version, capabilities, secret) =>
        var answer := HandleRegister(p, role, version, capabilities, secret, now);
        reply := Some(answer);
      case Ping(t0) =>
        reply := Some(Pong(t0, now, now));
      case ClientStatus(status, offsetMs, rttMs) =>
        registry.DoUpdateStatus(p, status, now);
        registry.DoUpdateSync(p, offsetMs, rttMs, now);
      case Heartbeat =>
        registry.DoUpdateStatus(p, if p in registry.clients then registry.clients[p].status else CONNECTED, now);
      case _ =>
    }

    /** `_handle_message`: the next protocol state, and the reply to be sent, if any. */
    method HandleMessage(p: Peer, msg: Message, replyId: MsgId, now: real, ghost s: Protocol.System)
      returns (reply: Option<Message>)
      requires Valid() && Represents(s) && now == s.now
      modifies this, registry, pendingAcks
      ensures Valid() && Represents(Protocol.DoServerReceive(config, s, p, msg, replyId))
      ensures Replied(s, Protocol.DoServerReceive(config, s, p, msg, replyId), p, reply)
    {
      hide Accept, Registry.Handle, SkewValues, Protocol.ClockOf, Protocol.ServerReply;
      var body := HandleBody(p, msg.body, now, s);
      if msg.body.Ack? {
        AckHasNoReply(config, s, p, msg.body);
        var ack := msg.body;
        HandleAck(ack.replyTo, ack.receiver, Reply(ack.receiveTs, ack.applyTs), now);
      }
      reply := if body.Some? then Some(Message(replyId, Some(msg.id), false, body.value)) else None;
    }

    /** One iteration of `_serve_loop`, with or without a message received. */
    method ServeOnce(received: Option<(Peer, Message)>, replyId: MsgId, now: real, ghost s: Protocol.System)
      returns (reply: Option<Message>, timedOut: seq<Key>, health: seq<HealthRecord>)
      requires Valid() && Represents(s) && now == s.now
      modifies this, registry, pendingAcks
      ensures Valid() && Represents(Served(config, s, received, replyId))
      ensures received.Some? ==> Replied(s, Served(config, s, received, replyId), received.value.0, reply)
      ensures received.None? ==> reply == None
      ensures var s1 := Heard(config, s, received, replyId);
        && NoRepeats(timedOut)
        && (forall k :: k in timedOut <==> k in s1.acks.pending && s1.acks.pending[k].timeoutAt <= now)
        && (forall p, v :: HealthRecord(p, v) in health <==>
              p in s1.registry && Finds(s1.registry[p], now, config.policy.timeout, v))
    {
      hide Expire, Scan, Overdue, SkewValues, Judge, NoRepeats, Protocol.DoServerReceive;
      reply := None;
      if received.Some? {
        reply := HandleMessage(received.value.0, received.value.1, replyId, now, s);
        Protocol.ReceiveFrame(config, s, received.value.0, received.value.1, replyId);
      }
      timedOut := ExpireAcks(now);
      health := RefreshClientHealth(now);
    }
  }

  /** The protocol state after the message, if there was one. */
  function Heard(cfg: Protocol.Config, s: Protocol.System, received: Option<(Peer, Message)>, replyId: MsgId): Protocol.System {
    match received
    case Some((p, msg)) => Protocol.DoServerReceive(cfg, s, p, msg, replyId)
    case None => s
  }

  /** The protocol state after one iteration of the serve loop. */
  function Served(cfg: Protocol.Config, s: Protocol.System, received: Option<(Peer, Message)>, replyId: MsgId)
    : Protocol.System
  {
    var s1 := Heard(cfg, s, received, replyId);
    s1.(acks := Expire(s1.acks, s1.now), registry := Scan(s1.registry, s1.now, cfg.policy.timeout))
  }

  /** An iteration that received a message is three steps of the protocol, in this order. */
  lemma ServedIsThreeSteps(cfg: Protocol.Config, s: Protocol.System, p: Peer, msg: Message, replyId: MsgId,
                           s1: Protocol.System, s2: Protocol.System)
    requires Protocol.Next(cfg, s, Protocol.ServerReceive(p, msg, replyId), s1)
    requires Protocol.Next(cfg, s1, Protocol.ExpireAcks, s2)
    ensures Protocol.Next(cfg, s2, Protocol.ScanHealth, Served(cfg, s, Some((p, msg)), replyId))
  {
    hide Expire, Scan, Protocol.DoServerReceive;
    Protocol.ReceiveFrame(cfg, s, p, msg, replyId);
  }

  lemma AckHasNoReply(cfg: Protocol.Config, s: Protocol.System, p: Peer, body: Body)
    requires body.Ack?
    ensures Protocol.ServerReply(cfg, s, p, body) == None
  {
  }

  /** From s to s' exactly the reply, if any, was put on the network. */
  ghost predicate Replied(s: Protocol.System, s': Protocol.System, p: Peer, reply: Option<Message>) {
    match reply
    case Some(msg) => s'.net == s.net + {ToClient(p, msg)} && s'.created == s.created[msg.id := msg]
    case None => s'.net == s.net && s'.created == s.created
  }

  function SkewValues(skews: seq<Skew>): (r: seq<real>)
    ensures |r| == |skews|
  {
    if skews == [] then [] else SkewValues(skews[..|skews| - 1]) + [skews[|skews| - 1].ms]
  }

  lemma SkewValuesSnoc(skews: seq<Skew>, x: Skew)
    ensures SkewValues(skews + [x]) == SkewValues(skews) + [x.ms]
  {
    assert (skews + [x])[..|skews|] == skews;
  }
}

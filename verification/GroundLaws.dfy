/** Every clock reading and clock pair that a message, a client or the server holds comes from a
    real earlier moment of the run. */
module GroundLaws {
  import opened Types
  import opened Messages
  import opened ClientLoop
  import opened Protocol
  import AckTable
  import AckLaws
  import Clock
  import Dedupe
  import ClockLaws
  import Registry
  import Sessions
  import SafetyLaws
  import ExchangeLaws

  // ---------- the invariant ----------

  /** A client held this clock pair at some moment. */
  datatype Held = Held(peer: Peer, offsetMs: real, rttMs: real)

  /** held contains the clock pairs the clients have had. */
  ghost predicate PacketGrounded(cfg: Config, pkt: Packet, created: map<MsgId, Message>, now: real, held: set<Held>) {
    var theta := cfg.trueOffset(pkt.peer);
    match pkt
    case ToServer(p, msg) =>
      && (msg.body.Ping? ==> msg.body.t0 + theta <= now)
      && (msg.body.ClientStatus? ==> Held(p, msg.body.offsetMs, msg.body.rttMs) in held)
    case ToClient(p, msg) =>
      msg.body.Pong? ==>
        && msg.replyTo.Some? && msg.replyTo.value in created
        && created[msg.replyTo.value].body == Ping(msg.body.t0)
        && msg.body.t0 + theta <= msg.body.t1 <= msg.body.t2 <= now
  }

  ghost predicate AnswerGrounded(theta: real, a: Answer, now: real) {
    a.request.PingRequest? && a.reply.body.Pong? ==>
      a.request.t0 + theta <= a.reply.body.t1 && a.reply.body.t2 <= now
  }

  ghost predicate JobGrounded(theta: real, job: Job, now: real) {
    && job.arrivedAt + theta <= now
    && (job.phase.Sleeping? ==>
          job.msg.body.Command? && job.phase.target == Clock.LocalForServer(job.msg.body.executeAt, job.offsetMs))
  }

  /** A trial started no earlier than its local target. */
  ghost predicate StartGrounded(theta: real, x: TrialStart, created: map<MsgId, Message>, now: real) {
    && x.target == Clock.LocalForServer(x.executeAt, x.offsetMs)
    && x.target <= x.at && x.arrivedAt <= x.at && x.at + theta <= now
    && x.id in created && created[x.id].body.Command? && created[x.id].body.executeAt == x.executeAt
  }

  ghost predicate ClientGrounded(theta: real, c: Client, created: map<MsgId, Message>, now: real) {
    && (forall r :: r in c.responses && c.responses[r].PingRequest? ==> c.responses[r].t0 + theta <= now)
    && (forall r :: r in c.answers ==> AnswerGrounded(theta, c.answers[r], now))
    && (c.job.Some? ==> JobGrounded(theta, c.job.value, now))
    && (forall x :: x in c.starts ==> StartGrounded(theta, x, created, now))
  }

  /** An apply time of the command is one its peer reported, mapped with a pair that peer had. */
  ghost predicate EntryGrounded(held: set<Held>, x: AckTable.ApplyTime, c: CommandId,
                                sends: map<MsgId, AckTable.Send>, accepted: map<MsgId, Option<real>>) {
    && x.at == x.applyTs + x.offsetMs / 1000.0
    && Held(x.peer, x.offsetMs, x.rttMs) in held
    && exists m :: m in accepted && m in sends && accepted[m] == Some(x.applyTs) && sends[m] == AckTable.Send(x.peer, c)
  }

  ghost predicate TimesGrounded(held: set<Held>, times: seq<AckTable.ApplyTime>, c: CommandId,
                                sends: map<MsgId, AckTable.Send>, accepted: map<MsgId, Option<real>>) {
    forall x :: x in times ==> EntryGrounded(held, x, c, sends, accepted)
  }

  ghost predicate TableGrounded(held: set<Held>, t: AckTable.Table) {
    && (forall c :: c in t.groups ==> TimesGrounded(held, t.groups[c].applyTimes, c, t.sends, t.accepted))
    && (forall i :: 0 <= i < |t.skews| ==> TimesGrounded(held, t.skews[i].times, t.skews[i].command, t.sends, t.accepted))
  }

  ghost predicate RegistryGrounded(held: set<Held>, registry: Registry.Table) {
    forall p :: p in registry ==> Held(p, registry[p].offsetMs, registry[p].rttMs) in held
  }

  ghost predicate PacketsGrounded(cfg: Config, net: set<Packet>, created: map<MsgId, Message>, now: real, held: set<Held>) {
    forall pkt :: pkt in net ==> PacketGrounded(cfg, pkt, created, now, held)
  }

  ghost predicate ClientsGrounded(cfg: Config, clients: map<Peer, Client>, created: map<MsgId, Message>, now: real) {
    forall p :: p in clients ==> ClientGrounded(cfg.trueOffset(p), clients[p], created, now)
  }

  /** held has every client's present pair and its initial one. */
  ghost predicate PairsHeld(held: set<Held>, clients: map<Peer, Client>) {
    forall p :: p in clients ==> Held(p, clients[p].offsetMs, clients[p].rttMs) in held && Held(p, 0.0, 0.0) in held
  }

  ghost predicate Grounded(cfg: Config, s: System, held: set<Held>) {
    && PacketsGrounded(cfg, s.net, s.created, s.now, held)
    && ClientsGrounded(cfg, s.clients, s.created, s.now)
    && PairsHeld(held, s.clients)
    && RegistryGrounded(held, s.registry)
    && TableGrounded(held, s.acks)
  }

  // ---------- monotonicity ----------

  ghost predicate Extends(created: map<MsgId, Message>, created': map<MsgId, Message>) {
    forall m :: m in created ==> m in created' && created'[m] == created[m]
  }

  lemma PacketGroundedGrows(cfg: Config, pkt: Packet, created: map<MsgId, Message>, created': map<MsgId, Message>,
                            now: real, now': real, held: set<Held>, held': set<Held>)
    requires PacketGrounded(cfg, pkt, created, now, held)
    requires Extends(created, created') && now <= now' && held <= held'
    ensures PacketGrounded(cfg, pkt, created', now', held')
  {
  }

  lemma ClientGroundedGrows(theta: real, c: Client, created: map<MsgId, Message>, created': map<MsgId, Message>,
                            now: real, now': real)
    requires ClientGrounded(theta, c, created, now) && Extends(created, created') && now <= now'
    ensures ClientGrounded(theta, c, created', now')
  {
    forall x | x in c.starts
      ensures StartGrounded(theta, x, created', now')
    {
      assert StartGrounded(theta, x, created, now);
    }
    hide StartGrounded;
  }

  /** Time passing and new messages keep what was grounded grounded. */
  lemma GroundedGrows(cfg: Config, s: System, s': System, held: set<Held>)
    requires Grounded(cfg, s, held)
    requires Extends(s.created, s'.created) && s.now <= s'.now
    requires s'.net == s.net && s'.clients == s.clients && s'.registry == s.registry && s'.acks == s.acks
    ensures Grounded(cfg, s', held)
  {
    forall pkt | pkt in s.net
      ensures PacketGrounded(cfg, pkt, s'.created, s'.now, held)
    {
      PacketGroundedGrows(cfg, pkt, s.created, s'.created, s.now, s'.now, held, held);
    }
    forall p | p in s.clients
      ensures ClientGrounded(cfg.trueOffset(p), s.clients[p], s'.created, s'.now)
    {
      ClientGroundedGrows(cfg.trueOffset(p), s.clients[p], s.created, s'.created, s.now, s'.now);
    }
    hide PacketGrounded, ClientGrounded, PairsHeld, RegistryGrounded, TableGrounded;
  }

  /** More pairs have been held. */
  lemma HeldGrows(cfg: Config, s: System, held: set<Held>, held': set<Held>)
    requires Grounded(cfg, s, held) && held <= held'
    ensures Grounded(cfg, s, held')
  {
    forall pkt | pkt in s.net
      ensures PacketGrounded(cfg, pkt, s.created, s.now, held')
    {
      PacketGroundedGrows(cfg, pkt, s.created, s.created, s.now, s.now, held, held');
    }
    TableHeldGrows(s.acks, held, held');
    hide PacketGrounded, ClientGrounded, TableGrounded;
  }

  lemma TableHeldGrows(t: AckTable.Table, held: set<Held>, held': set<Held>)
    requires TableGrounded(held, t) && held <= held'
    ensures TableGrounded(held', t)
  {
    forall times, c | TimesGrounded(held, times, c, t.sends, t.accepted)
      ensures TimesGrounded(held', times, c, t.sends, t.accepted)
    {
      forall x | x in times
        ensures EntryGrounded(held', x, c, t.sends, t.accepted)
      {
        assert EntryGrounded(held, x, c, t.sends, t.accepted);
      }
    }
    hide TimesGrounded;
  }

  lemma PostKeepsGrounded(cfg: Config, s: System, pkt: Packet, held: set<Held>)
    requires Grounded(cfg, s, held) && pkt.msg.id !in s.created
    requires PacketGrounded(cfg, pkt, s.created[pkt.msg.id := pkt.msg], s.now, held)
    ensures Grounded(cfg, Post(s, pkt), held)
  {
    GroundedGrows(cfg, s, s.(created := s.created[pkt.msg.id := pkt.msg]), held);
    hide PacketGrounded, ClientsGrounded, PairsHeld, RegistryGrounded, TableGrounded;
  }

  lemma ClientKeepsGrounded(cfg: Config, s: System, p: Peer, c': Client, held: set<Held>)
    requires Grounded(cfg, s, held) && p in s.clients
    requires ClientGrounded(cfg.trueOffset(p), c', s.created, s.now) && Held(p, c'.offsetMs, c'.rttMs) in held
    ensures Grounded(cfg, s.(clients := s.clients[p := c']), held)
  {
    hide PacketsGrounded, ClientGrounded, RegistryGrounded, TableGrounded;
  }

  /** The same clients, network and registry. */
  lemma TableKeepsGrounded(cfg: Config, s: System, s': System, held: set<Held>)
    requires Grounded(cfg, s, held) && TableGrounded(held, s'.acks)
    requires s'.net == s.net && s'.clients == s.clients && s'.registry == s.registry
    requires s'.created == s.created && s'.now == s.now
    ensures Grounded(cfg, s', held)
  {
    hide PacketsGrounded, ClientsGrounded, RegistryGrounded, TableGrounded;
  }

  lemma RegistryKeepsGrounded(cfg: Config, s: System, registry: Registry.Table, held: set<Held>)
    requires Grounded(cfg, s, held) && RegistryGrounded(held, registry)
    ensures Grounded(cfg, s.(registry := registry), held)
  {
    hide PacketsGrounded, ClientsGrounded, RegistryGrounded, TableGrounded;
  }

  // ---------- server steps ----------

  lemma HandleKeepsRegistry(cfg: Config, registry: Registry.Table, p: Peer, body: Body, now: real, held: set<Held>)
    requires RegistryGrounded(held, registry) && Held(p, 0.0, 0.0) in held
    requires body.ClientStatus? ==> Held(p, body.offsetMs, body.rttMs) in held
    ensures RegistryGrounded(held, Registry.Handle(registry, p, body, now, cfg.policy))
  {
  }

  lemma ScanKeepsRegistry(cfg: Config, registry: Registry.Table, now: real, held: set<Held>)
    requires RegistryGrounded(held, registry)
    ensures RegistryGrounded(held, Registry.Scan(registry, now, cfg.policy.timeout))
  {
  }

  lemma PutMembers(times: seq<AckTable.ApplyTime>, e: AckTable.ApplyTime)
    ensures forall x :: x in AckTable.Put(times, e) ==> x in times || x == e
  {
  }

  lemma TimesGroundedGrow(held: set<Held>, times: seq<AckTable.ApplyTime>, c: CommandId, sends: map<MsgId, AckTable.Send>,
                          accepted: map<MsgId, Option<real>>, sends': map<MsgId, AckTable.Send>,
                          accepted': map<MsgId, Option<real>>)
    requires TimesGrounded(held, times, c, sends, accepted)
    requires forall m :: m in accepted && m in sends ==> m in accepted' && accepted'[m] == accepted[m] && m in sends' && sends'[m] == sends[m]
    ensures TimesGrounded(held, times, c, sends', accepted')
  {
    forall x | x in times
      ensures EntryGrounded(held, x, c, sends', accepted')
    {
      assert EntryGrounded(held, x, c, sends, accepted);
      var m :| m in accepted && m in sends && accepted[m] == Some(x.applyTs) && sends[m] == AckTable.Send(x.peer, c);
      assert m in accepted';
    }
  }

  /** Nothing is fed to groups or skews, and sends and acceptances only grow. */
  lemma TableGroundedGrows(held: set<Held>, t: AckTable.Table, t': AckTable.Table)
    requires TableGrounded(held, t)
    requires forall c :: c in t'.groups ==> t'.groups[c].applyTimes == [] || (c in t.groups && t'.groups[c] == t.groups[c])
    requires t'.skews == t.skews
    requires forall m :: m in t.accepted && m in t.sends ==>
               m in t'.accepted && t'.accepted[m] == t.accepted[m] && m in t'.sends && t'.sends[m] == t.sends[m]
    ensures TableGrounded(held, t')
  {
    forall times, c | TimesGrounded(held, times, c, t.sends, t.accepted)
      ensures TimesGrounded(held, times, c, t'.sends, t'.accepted)
    {
      TimesGroundedGrow(held, times, c, t.sends, t.accepted, t'.sends, t'.accepted);
    }
    assert forall c :: TimesGrounded(held, [], c, t'.sends, t'.accepted);
    hide TimesGrounded;
  }

  lemma FeedKeepsGrounded(held: set<Held>, t: AckTable.Table, c: CommandId, e: AckTable.ApplyTime)
    requires TableGrounded(held, t) && EntryGrounded(held, e, c, t.sends, t.accepted)
    ensures TableGrounded(held, t.(groups := AckTable.FeedGroup(t.groups, c, e), skews := AckTable.FeedSkews(t.skews, t.groups, c, e)))
  {
    if c in t.groups {
      PutMembers(t.groups[c].applyTimes, e);
      assert TimesGrounded(held, AckTable.Put(t.groups[c].applyTimes, e), c, t.sends, t.accepted) by { hide EntryGrounded; }
      hide TimesGrounded, AckTable.Put, AckTable.Spread;
    }
  }

  lemma ClosingKeepsGrounded(held: set<Held>, t: AckTable.Table, t': AckTable.Table, m: MsgId, p: Peer,
                             reply: AckTable.Reply, clock: AckTable.ClockPair)
    requires TableGrounded(held, t) && Held(p, clock.offsetMs, clock.rttMs) in held
    requires t'.sends == t.sends && AckLaws.Closes(t, t', m, p, reply, clock)
    ensures TableGrounded(held, t')
  {
    hide TableGrounded, AckTable.FeedGroup, AckTable.FeedSkews;
    var t1 := t.(accepted := t'.accepted);
    TableGroundedGrows(held, t, t1);
    if reply.applyTs.Some? {
      var c, e := t.tracking[m].command, AckTable.EntryFor(p, reply.applyTs.value, clock);
      assert t1.accepted[m] == Some(e.applyTs) && t1.sends[m] == AckTable.Send(e.peer, c);
      FeedKeepsGrounded(held, t1, c, e);
      SameTimes(held, t1.(groups := t'.groups, skews := t'.skews), t');
    } else {
      SameTimes(held, t1, t');
    }
  }

  lemma ClockIsHeld(held: set<Held>, registry: Registry.Table, p: Peer)
    requires RegistryGrounded(held, registry) && Held(p, 0.0, 0.0) in held
    ensures Held(p, ClockOf(registry, p).offsetMs, ClockOf(registry, p).rttMs) in held
  {
  }

  lemma AcceptKeepsGrounded(held: set<Held>, s: System, m: MsgId, p: Peer, reply: AckTable.Reply)
    requires AckTable.TableInv(s.acks) && TableGrounded(held, s.acks) && RegistryGrounded(held, s.registry)
    requires Held(p, 0.0, 0.0) in held
    ensures TableGrounded(held, AckTable.Accept(s.acks, m, p, reply, ClockOf(s.registry, p), s.now))
  {
    var clock := ClockOf(s.registry, p);
    ClockIsHeld(held, s.registry, p);
    hide TableGrounded, RegistryGrounded, AckTable.Accept, AckTable.TableInv, ClockOf;
    SafetyLaws.Unpack(s.acks);
    hide AckTable.Fates, AckTable.Tracked, AckTable.FuturesFollow, AckTable.OnePerPeer, AckLaws.Closes;
    AckLaws.AcceptFlow(s.acks, m, p, reply, clock, s.now);
    var t' := AckTable.Accept(s.acks, m, p, reply, clock, s.now);
    if AckLaws.Closes(s.acks, t', m, p, reply, clock) {
      ClosingKeepsGrounded(held, s.acks, t', m, p, reply, clock);
    } else {
      SameTimes(held, s.acks, t');
    }
  }

  lemma SameTimes(held: set<Held>, t: AckTable.Table, t': AckTable.Table)
    requires TableGrounded(held, t)
    requires t'.groups == t.groups && t'.skews == t.skews && t'.sends == t.sends && t'.accepted == t.accepted
    ensures TableGrounded(held, t')
  {
    hide TimesGrounded;
  }

  lemma ReplyIsGrounded(cfg: Config, s: System, p: Peer, msg: Message, replyId: MsgId, held: set<Held>)
    requires PacketGrounded(cfg, ToServer(p, msg), s.created, s.now, held)
    requires msg.id in s.created && s.created[msg.id] == msg && replyId !in s.created
    requires ServerReply(cfg, s, p, msg.body).Some?
    ensures var reply := Message(replyId, Some(msg.id), false, ServerReply(cfg, s, p, msg.body).value);
            PacketGrounded(cfg, ToClient(p, reply), s.created[replyId := reply], s.now, held)
  {
    hide Registry.Enroll;
  }

  lemma ServerReceiveKeepsGrounded(cfg: Config, s: System, p: Peer, msg: Message, replyId: MsgId, held: set<Held>)
    requires Grounded(cfg, s, held) && SafetyLaws.Safe(cfg, s)
    requires ToServer(p, msg) in s.net && replyId !in s.created
    ensures Grounded(cfg, DoServerReceive(cfg, s, p, msg, replyId), held)
  {
    ReceivedAtServer(cfg, s, p, msg, held);
    hide SafetyLaws.Safe, PacketGrounded, Registry.Handle, ServerReply, AckTable.Accept, AckTable.TableInv, Grounded;
    var s1 := s.(registry := Registry.Handle(s.registry, p, msg.body, s.now, cfg.policy));
    RegistryKeepsGrounded(cfg, s, s1.registry, held);
    if msg.body.Ack? {
      var a := msg.body;
      GroundedParts(cfg, s1, held);
      AcceptKeepsGrounded(held, s1, a.replyTo, a.receiver, AckTable.Reply(a.receiveTs, a.applyTs));
      TableKeepsGrounded(cfg, s1, DoServerReceive(cfg, s, p, msg, replyId), held);
    } else if ServerReply(cfg, s, p, msg.body).Some? {
      ReplyIsGrounded(cfg, s, p, msg, replyId, held);
      PostKeepsGrounded(cfg, s1, ToClient(p, Message(replyId, Some(msg.id), false, ServerReply(cfg, s, p, msg.body).value)), held);
    }
  }

  lemma GroundedParts(cfg: Config, s: System, held: set<Held>)
    requires Grounded(cfg, s, held)
    ensures PairsHeld(held, s.clients) && RegistryGrounded(held, s.registry) && TableGrounded(held, s.acks)
  {
    hide PacketsGrounded, ClientsGrounded, PairsHeld, RegistryGrounded, TableGrounded;
  }

  lemma ReceivedAtServer(cfg: Config, s: System, p: Peer, msg: Message, held: set<Held>)
    requires Grounded(cfg, s, held) && SafetyLaws.Safe(cfg, s) && ToServer(p, msg) in s.net
    ensures PacketGrounded(cfg, ToServer(p, msg), s.created, s.now, held)
    ensures msg.id in s.created && s.created[msg.id] == msg
    ensures AckTable.TableInv(s.acks)
    ensures RegistryGrounded(held, Registry.Handle(s.registry, p, msg.body, s.now, cfg.policy))
    ensures msg.body.Ack? ==> Held(msg.body.receiver, 0.0, 0.0) in held
  {
    if msg.body.Ack? {
      hide SafetyLaws.Tasks, SafetyLaws.Loops, AckTable.TableInv;
      SafetyLaws.AckIsBacked(s, p, msg);
    }
    hide AckTable.TableInv, SafetyLaws.Tasks, SafetyLaws.Loops, SafetyLaws.AcksBacked, SafetyLaws.AcceptedBacked,
         ClientsGrounded, RegistryGrounded, TableGrounded, Registry.Handle;
    assert SafetyLaws.PacketOk(ToServer(p, msg), s.created, s.clients.Keys);
    assert PacketGrounded(cfg, ToServer(p, msg), s.created, s.now, held);
    HandleKeepsRegistry(cfg, s.registry, p, msg.body, s.now, held);
  }

  lemma AnnounceKeepsGrounded(cfg: Config, s: System, id: MsgId, peers: set<Peer>, held: set<Held>)
    requires Grounded(cfg, s, held) && id !in s.created
    ensures var msg := Message(id, None, false, Notice);
            Grounded(cfg, s.(created := s.created[id := msg], net := s.net + set p | p in peers :: ToClient(p, msg)), held)
  {
    GroundedGrows(cfg, s, s.(created := s.created[id := Message(id, None, false, Notice)]), held);
    hide ClientsGrounded, PairsHeld, RegistryGrounded, TableGrounded;
  }

  lemma TransmitKeepsGrounded(cfg: Config, s: System, k: TaskKey, m: Message, tasks: map<TaskKey, Task>, held: set<Held>)
    requires Grounded(cfg, s, held) && m.body.Command?
    ensures Grounded(cfg, s.(net := s.net + {ToClient(k.peer, m)}, tasks := tasks), held)
  {
    assert PacketGrounded(cfg, ToClient(k.peer, m), s.created, s.now, held);
    hide ClientsGrounded, PairsHeld, RegistryGrounded, TableGrounded, PacketGrounded;
  }

  /** The steps that touch only the command tables. */
  lemma TablesKeepGrounded(cfg: Config, s: System, e: Event, held: set<Held>)
    requires Grounded(cfg, s, held) && SafetyLaws.Safe(cfg, s) && Enabled(cfg, s, e)
    requires e.Issue? || e.Return? || e.Timeout? || e.ExpireAcks?
    ensures Grounded(cfg, Do(cfg, s, e), held)
  {
    hide SafetyLaws.Safe, Grounded, PacketsGrounded, ClientsGrounded, RegistryGrounded, TableGrounded, NewTasks,
         AckTable.Open, AckTable.GiveUp, AckTable.Expire;
    GroundedParts(cfg, s, held);
    TableOpsKeepGrounded(held, s, e);
    TableKeepsGrounded(cfg, s, Do(cfg, s, e), held);
  }

  lemma TableOpsKeepGrounded(held: set<Held>, s: System, e: Event)
    requires TableGrounded(held, s.acks)
    ensures e.Issue? ==> TableGrounded(held, AckTable.Open(s.acks, e.command, s.registry.Keys))
    ensures e.Timeout? && e.key in s.tasks && s.tasks[e.key].Awaiting? ==>
              TableGrounded(held, AckTable.GiveUp(s.acks, s.tasks[e.key].m))
    ensures e.ExpireAcks? ==> TableGrounded(held, AckTable.Expire(s.acks, s.now))
  {
    hide TimesGrounded, AckTable.Overdue, TableGrounded;
    if e.Issue? {
      TableGroundedGrows(held, s.acks, AckTable.Open(s.acks, e.command, s.registry.Keys));
    } else if e.Timeout? && e.key in s.tasks && s.tasks[e.key].Awaiting? {
      TableGroundedGrows(held, s.acks, AckTable.GiveUp(s.acks, s.tasks[e.key].m));
    } else if e.ExpireAcks? {
      TableGroundedGrows(held, s.acks, AckTable.Expire(s.acks, s.now));
    }
  }

  lemma AddKeepsTableGrounded(held: set<Held>, t: AckTable.Table, id: MsgId, p: Peer, c: CommandId, now: real, timeoutMs: real)
    requires TableGrounded(held, t) && id !in t.sends
    ensures TableGrounded(held, AckTable.Add(t, id, p, c, now, timeoutMs))
  {
    hide TimesGrounded, TableGrounded;
    TableGroundedGrows(held, t, AckTable.Add(t, id, p, c, now, timeoutMs));
  }

  lemma EnterKeepsGrounded(cfg: Config, s: System, k: TaskKey, id: MsgId, held: set<Held>)
    requires Grounded(cfg, s, held) && SafetyLaws.Safe(cfg, s)
    requires k.command in s.orders && id !in s.created
    ensures Grounded(cfg, DoEnter(cfg, s, k, id), held)
  {
    hide SafetyLaws.Safe, Grounded, RegistryGrounded, TableGrounded, AckTable.Add;
    FreshIsUnsent(cfg, s, id);
    GroundedParts(cfg, s, held);
    var s1 := s.(created := s.created[id := CommandMessage(s, k, id)]);
    GroundedGrows(cfg, s, s1, held);
    AddKeepsTableGrounded(held, s.acks, id, k.peer, k.command, s.now, cfg.ackTimeoutMs);
    TableKeepsGrounded(cfg, s1, DoEnter(cfg, s, k, id), held);
  }

  lemma FreshIsUnsent(cfg: Config, s: System, id: MsgId)
    requires SafetyLaws.Safe(cfg, s) && id !in s.created
    ensures id !in s.acks.sends
  {
    hide AckTable.TableInv, SafetyLaws.Wire, SafetyLaws.Loops, SafetyLaws.AcksBacked, SafetyLaws.AcceptedBacked, SafetyLaws.TaskOk;
  }

  lemma ServerStepKeepsGrounded(cfg: Config, s: System, e: Event, held: set<Held>)
    requires Grounded(cfg, s, held) && SafetyLaws.Safe(cfg, s) && Enabled(cfg, s, e)
    requires !ClientMoves(e)
    ensures Grounded(cfg, Do(cfg, s, e), held)
  {
    hide SafetyLaws.Safe, Grounded, AckTable.GiveUp, AckTable.Expire, AckTable.Open, AckTable.Add, Registry.Scan,
         Sessions.Apply, NewTasks, DoServerReceive, DoIssue, DoEnter;
    GroundedParts(cfg, s, held);
    hide PairsHeld, RegistryGrounded, TableGrounded;
    if e.Tick? || e.ChangeSession? {
      GroundedGrows(cfg, s, Do(cfg, s, e), held);
    } else if e.Enter? {
      EnterKeepsGrounded(cfg, s, e.key, e.id, held);
    } else if e.Announce? {
      AnnounceKeepsGrounded(cfg, s, e.id, e.peers, held);
    } else if e.ServerReceive? {
      ServerReceiveKeepsGrounded(cfg, s, e.peer, e.msg, e.replyId, held);
    } else if e.Transmit? {
      SafetyLaws.EnteredIsCommand(cfg, s, e.key);
      TransmitKeepsGrounded(cfg, s, e.key, s.created[s.tasks[e.key].m], Do(cfg, s, e).tasks, held);
    } else if e.ScanHealth? {
      ScanKeepsRegistry(cfg, s.registry, s.now, held);
      RegistryKeepsGrounded(cfg, s, Registry.Scan(s.registry, s.now, cfg.policy.timeout), held);
    } else {
      TablesKeepGrounded(cfg, s, e, held);
    }
  }

  // ---------- client steps ----------

  lemma StartIsGrounded(theta: real, job: Job, local: real, now: real, created: map<MsgId, Message>)
    requires JobGrounded(theta, job, now) && local + theta == now
    requires job.msg.body.Command? && job.msg.id in created && created[job.msg.id] == job.msg
    requires Clock.LocalForServer(job.msg.body.executeAt, job.offsetMs) <= local
    ensures var executeAt := job.msg.body.executeAt;
      StartGrounded(theta, TrialStart(job.msg.id, executeAt, Clock.LocalForServer(executeAt, job.offsetMs), job.arrivedAt, local,
                                      job.offsetMs, job.rttMs), created, now)
  {
  }

  lemma NoteStartKeepsGrounded(theta: real, c: Client, job: Job, local: real, now: real, created: map<MsgId, Message>)
    requires ClientGrounded(theta, c, created, now) && JobGrounded(theta, job, now) && local + theta == now
    requires job.msg.id in created && created[job.msg.id] == job.msg
    requires job.msg.body.Command? && job.msg.body.kind == TRIAL_START_AT ==>
               Clock.LocalForServer(job.msg.body.executeAt, job.offsetMs) <= local
    ensures ClientGrounded(theta, NoteStart(c, job, local), created, now)
  {
    if job.msg.body.Command? && job.msg.body.kind == TRIAL_START_AT {
      StartIsGrounded(theta, job, local, now, created);
    }
    hide StartGrounded, JobGrounded, AnswerGrounded;
  }

  lemma StartJobIsGrounded(theta: real, c: Client, msg: Message, local: real, now: real)
    requires local + theta == now
    ensures var job := StartJob(c, msg, local);
      && JobGrounded(theta, job, now) && job.msg == msg
      && (job.phase.Handling? && msg.body.Command? && msg.body.kind == TRIAL_START_AT ==>
            Clock.LocalForServer(msg.body.executeAt, job.offsetMs) <= local)
  {
  }

  lemma AnswerIsGrounded(cfg: Config, c: Client, p: Peer, msg: Message, created: map<MsgId, Message>, now: real,
                         held: set<Held>)
    requires ExchangeLaws.ExchangeOk(c, created)
    requires PacketGrounded(cfg, ToClient(p, msg), created, now, held)
    requires msg.replyTo.Some? && msg.replyTo.value in c.responses
    ensures AnswerGrounded(cfg.trueOffset(p), Answer(c.responses[msg.replyTo.value], msg), now)
  {
    assert RequestOf(created[msg.replyTo.value].body) == c.responses[msg.replyTo.value];
  }

  lemma ReceiveKeepsGrounded(cfg: Config, c: Client, p: Peer, msg: Message, local: real, now: real,
                             created: map<MsgId, Message>, held: set<Held>)
    requires ClientGrounded(cfg.trueOffset(p), c, created, now) && ExchangeLaws.ExchangeOk(c, created)
    requires PacketGrounded(cfg, ToClient(p, msg), created, now, held)
    requires msg.id in created && created[msg.id] == msg
    requires c.job == None && local + cfg.trueOffset(p) == now
    ensures ClientGrounded(cfg.trueOffset(p), Receive(c, p, msg, cfg.dedupCacheSize, local).client, created, now)
  {
    var theta := cfg.trueOffset(p);
    if msg.replyTo.Some? && msg.replyTo.value in c.responses {
      AnswerIsGrounded(cfg, c, p, msg, created, now, held);
    }
    StartJobIsGrounded(theta, c, msg, local, now);
    var job := StartJob(c, msg, local);
    hide StartJob, JobGrounded, StartGrounded, AnswerGrounded, PacketGrounded, ExchangeLaws.ExchangeOk;
    var c1 := c.(items := Receive(c, p, msg, cfg.dedupCacheSize, local).client.items,
                 delivered := Receive(c, p, msg, cfg.dedupCacheSize, local).client.delivered, job := Some(job));
    assert ClientGrounded(theta, c1, created, now);
    if job.phase.Handling? {
      NoteStartKeepsGrounded(theta, c1, job, local, now, created);
    }
    hide NoteStart;
  }

  lemma WakeKeepsGrounded(theta: real, c: Client, local: real, now: real, created: map<MsgId, Message>)
    requires ClientGrounded(theta, c, created, now) && local + theta == now
    requires c.job.Some? && c.job.value.phase.Sleeping? && local >= c.job.value.phase.target
    requires c.job.value.msg.id in created && created[c.job.value.msg.id] == c.job.value.msg
    ensures ClientGrounded(theta, Wake(c, local), created, now)
  {
    var job := c.job.value;
    var c1 := c.(job := Some(job.(phase := Handling)));
    assert ClientGrounded(theta, c1, created, now) by { hide StartGrounded, AnswerGrounded; }
    NoteStartKeepsGrounded(theta, c1, job, local, now, created) by { hide StartGrounded, AnswerGrounded; }
  }

  lemma ResumeKeepsGrounded(theta: real, c: Client, r: MsgId, local: real, now: real, created: map<MsgId, Message>)
    requires ClientGrounded(theta, c, created, now) && r in c.answers
    ensures ClientGrounded(theta, Resume(c, r, local), created, now)
  {
    hide StartGrounded, JobGrounded, AnswerGrounded, Clock.SampleOf;
  }

  /** The sample taken when a coroutine resumes with a PONG is accurate. */
  lemma SampleIsGrounded(theta: real, c: Client, r: MsgId, local: real, now: real, created: map<MsgId, Message>)
    requires ClientGrounded(theta, c, created, now) && local + theta == now && r in c.answers
    requires c.answers[r].request.PingRequest? && c.answers[r].reply.body.Pong?
    ensures var c' := Resume(c, r, local); Clock.Accurate(theta, c'.offsetMs, c'.rttMs)
  {
    var a := c.answers[r];
    assert AnswerGrounded(theta, a, now);
    ClockLaws.SampleIsAccurate(theta, a.request.t0, a.reply.body.t1, a.reply.body.t2, local);
  }

  lemma ClientOutputKeepsGrounded(cfg: Config, s: System, p: Peer, out: Output, ackId: MsgId, held: set<Held>)
    requires Grounded(cfg, s, held) && p in s.clients && ackId !in s.created
    requires ClientGrounded(cfg.trueOffset(p), out.client, s.created, s.now)
    requires Held(p, out.client.offsetMs, out.client.rttMs) in held
    ensures Grounded(cfg, ClientStep(s, p, out, ackId), held)
  {
    hide Grounded, ClientGrounded, Post;
    var s1 := s.(clients := s.clients[p := out.client]);
    ClientKeepsGrounded(cfg, s, p, out.client, held);
    if out.ack.Some? && out.ack.value.Ack? {
      PostKeepsGrounded(cfg, s1, ToServer(p, Message(ackId, Some(out.ack.value.replyTo), false, out.ack.value)), held);
    }
  }

  lemma ClientIsGrounded(cfg: Config, s: System, p: Peer, held: set<Held>)
    requires Grounded(cfg, s, held) && SafetyLaws.Safe(cfg, s) && ExchangeLaws.Exchanges(s) && p in s.clients
    ensures ClientGrounded(cfg.trueOffset(p), s.clients[p], s.created, s.now)
    ensures ExchangeLaws.ExchangeOk(s.clients[p], s.created)
    ensures SafetyLaws.Genuine(s.clients[p], s.created)
    ensures Held(p, s.clients[p].offsetMs, s.clients[p].rttMs) in held
  {
    hide PacketsGrounded, ClientGrounded, RegistryGrounded, TableGrounded, AckTable.TableInv, SafetyLaws.Wire,
         SafetyLaws.Tasks, SafetyLaws.AcksBacked, SafetyLaws.AcceptedBacked, SafetyLaws.Genuine, LoopInv,
         ExchangeLaws.ExchangeOk, ExchangeLaws.RepliesOk;
  }

  lemma ArrivedAtClient(cfg: Config, s: System, p: Peer, msg: Message, held: set<Held>)
    requires Grounded(cfg, s, held) && SafetyLaws.Safe(cfg, s) && ToClient(p, msg) in s.net
    ensures PacketGrounded(cfg, ToClient(p, msg), s.created, s.now, held)
    ensures msg.id in s.created && s.created[msg.id] == msg
  {
    hide AckTable.TableInv, SafetyLaws.Tasks, SafetyLaws.Loops, SafetyLaws.AcksBacked, SafetyLaws.AcceptedBacked,
         ClientsGrounded, RegistryGrounded, TableGrounded;
    assert SafetyLaws.PacketOk(ToClient(p, msg), s.created, s.clients.Keys);
    hide PacketGrounded;
  }

  lemma SendsKeepGrounded(cfg: Config, s: System, e: Event, held: set<Held>)
    requires Grounded(cfg, s, held) && Enabled(cfg, s, e) && (e.SendRequest? || e.SendReport?)
    requires ClientGrounded(cfg.trueOffset(e.peer), s.clients[e.peer], s.created, s.now)
    requires Held(e.peer, s.clients[e.peer].offsetMs, s.clients[e.peer].rttMs) in held
    ensures Grounded(cfg, Do(cfg, s, e), held)
  {
    hide Grounded, StartGrounded, JobGrounded, AnswerGrounded, Post;
    var pkt := ToServer(e.peer, Message(e.id, None, false, e.body));
    PostKeepsGrounded(cfg, s, pkt, held);
    if e.SendRequest? {
      var c' := Ask(s.clients[e.peer], e.id, RequestOf(e.body));
      assert ClientGrounded(cfg.trueOffset(e.peer), c', s.created, s.now);
      hide ClientGrounded, PacketGrounded;
      ClientKeepsGrounded(cfg, s, e.peer, c', held);
      PostKeepsGrounded(cfg, s.(clients := s.clients[e.peer := c']), pkt, held);
    }
  }

  lemma PairStays(c: Client, p: Peer, msg: Message, maxSize: int, now: real)
    ensures c.job == None ==> SamePair(c, Receive(c, p, msg, maxSize, now).client)
    ensures c.job.Some? && c.job.value.phase.Handling? ==> SamePair(c, Finish(c, p, now).client)
    ensures c.job.Some? && c.job.value.phase.Sleeping? && now >= c.job.value.phase.target ==> SamePair(c, Wake(c, now))
  {
    hide Dedupe.Touch, StartJob, Clock.LocalForServer;
  }

  predicate SamePair(c: Client, c': Client) {
    c'.offsetMs == c.offsetMs && c'.rttMs == c.rttMs
  }

  lemma ClientReceiveKeepsGrounded(cfg: Config, s: System, p: Peer, msg: Message, ackId: MsgId, held: set<Held>)
    requires Grounded(cfg, s, held) && SafetyLaws.Safe(cfg, s) && ExchangeLaws.Exchanges(s)
    requires p in s.clients && ToClient(p, msg) in s.net && ackId !in s.created && s.clients[p].job == None
    ensures Grounded(cfg, ClientStep(s, p, Receive(s.clients[p], p, msg, cfg.dedupCacheSize, LocalTime(cfg, s, p)), ackId), held)
  {
    hide Grounded, ClientGrounded, SafetyLaws.Safe, SafetyLaws.Genuine, ExchangeLaws.Exchanges, ExchangeLaws.ExchangeOk,
         PacketGrounded, Receive, ClientStep;
    ClientIsGrounded(cfg, s, p, held);
    ArrivedAtClient(cfg, s, p, msg, held);
    ReceiveKeepsGrounded(cfg, s.clients[p], p, msg, LocalTime(cfg, s, p), s.now, s.created, held);
    PairStays(s.clients[p], p, msg, cfg.dedupCacheSize, LocalTime(cfg, s, p));
    ClientOutputKeepsGrounded(cfg, s, p, Receive(s.clients[p], p, msg, cfg.dedupCacheSize, LocalTime(cfg, s, p)), ackId, held);
  }

  lemma WakeUpKeepsGrounded(cfg: Config, s: System, p: Peer, held: set<Held>)
    requires Grounded(cfg, s, held) && SafetyLaws.Safe(cfg, s) && ExchangeLaws.Exchanges(s)
    requires p in s.clients && s.clients[p].job.Some? && s.clients[p].job.value.phase.Sleeping?
    requires LocalTime(cfg, s, p) >= s.clients[p].job.value.phase.target
    ensures Grounded(cfg, s.(clients := s.clients[p := Wake(s.clients[p], LocalTime(cfg, s, p))]), held)
  {
    hide Grounded, ClientGrounded, SafetyLaws.Safe, ExchangeLaws.Exchanges, ExchangeLaws.ExchangeOk, Wake;
    ClientIsGrounded(cfg, s, p, held);
    WakeKeepsGrounded(cfg.trueOffset(p), s.clients[p], LocalTime(cfg, s, p), s.now, s.created);
    PairStays(s.clients[p], p, s.clients[p].job.value.msg, 0, LocalTime(cfg, s, p));
    ClientKeepsGrounded(cfg, s, p, Wake(s.clients[p], LocalTime(cfg, s, p)), held);
  }

  lemma FinishJobKeepsGrounded(cfg: Config, s: System, p: Peer, ackId: MsgId, held: set<Held>)
    requires Grounded(cfg, s, held) && SafetyLaws.Safe(cfg, s) && ExchangeLaws.Exchanges(s)
    requires p in s.clients && s.clients[p].job.Some? && s.clients[p].job.value.phase.Handling? && ackId !in s.created
    ensures Grounded(cfg, ClientStep(s, p, Finish(s.clients[p], p, LocalTime(cfg, s, p)), ackId), held)
  {
    hide Grounded, SafetyLaws.Safe, SafetyLaws.Genuine, ExchangeLaws.Exchanges, ExchangeLaws.ExchangeOk, ClientStep,
         StartGrounded, AnswerGrounded, JobGrounded;
    ClientIsGrounded(cfg, s, p, held);
    assert ClientGrounded(cfg.trueOffset(p), Finish(s.clients[p], p, LocalTime(cfg, s, p)).client, s.created, s.now);
    PairStays(s.clients[p], p, s.clients[p].job.value.msg, 0, LocalTime(cfg, s, p));
    hide ClientGrounded, Finish;
    ClientOutputKeepsGrounded(cfg, s, p, Finish(s.clients[p], p, LocalTime(cfg, s, p)), ackId, held);
  }

  /** Resuming may give the client a pair it never held before. */
  lemma ResumeExchangeKeepsGrounded(cfg: Config, s: System, p: Peer, r: MsgId, held: set<Held>)
    requires Grounded(cfg, s, held) && SafetyLaws.Safe(cfg, s) && ExchangeLaws.Exchanges(s)
    requires p in s.clients && r in s.clients[p].answers
    ensures var c' := Resume(s.clients[p], r, LocalTime(cfg, s, p));
            Grounded(cfg, s.(clients := s.clients[p := c']), held + {Held(p, c'.offsetMs, c'.rttMs)})
  {
    hide Grounded, ClientGrounded, SafetyLaws.Safe, SafetyLaws.Genuine, ExchangeLaws.Exchanges, ExchangeLaws.ExchangeOk, Resume;
    ClientIsGrounded(cfg, s, p, held);
    var c' := Resume(s.clients[p], r, LocalTime(cfg, s, p));
    ResumeKeepsGrounded(cfg.trueOffset(p), s.clients[p], r, LocalTime(cfg, s, p), s.now, s.created);
    HeldGrows(cfg, s, held, held + {Held(p, c'.offsetMs, c'.rttMs)});
    ClientKeepsGrounded(cfg, s, p, c', held + {Held(p, c'.offsetMs, c'.rttMs)});
  }

  lemma ClientStepKeepsGrounded(cfg: Config, s: System, e: Event, held: set<Held>)
    requires Grounded(cfg, s, held) && SafetyLaws.Safe(cfg, s) && ExchangeLaws.Exchanges(s) && Enabled(cfg, s, e)
    requires ClientMoves(e) && !e.ResumeExchange?
    ensures Grounded(cfg, Do(cfg, s, e), held)
  {
    hide Grounded, ClientGrounded, SafetyLaws.Safe, SafetyLaws.Genuine, ExchangeLaws.Exchanges, ExchangeLaws.ExchangeOk,
         Receive, Finish, Wake, Ask, ClientStep, Post, LocalTime, IsRequest, IsReport, RequestOf;
    if e.SendRequest? || e.SendReport? {
      ClientIsGrounded(cfg, s, e.peer, held);
      SendsKeepGrounded(cfg, s, e, held);
    } else if e.ClientReceive? {
      ClientReceiveKeepsGrounded(cfg, s, e.peer, e.msg, e.ackId, held);
    } else if e.WakeUp? {
      WakeUpKeepsGrounded(cfg, s, e.peer, held);
    } else {
      FinishJobKeepsGrounded(cfg, s, e.peer, e.ackId, held);
    }
  }

  /** The pairs the clients have now. */
  function PairsOf(clients: map<Peer, Client>): set<Held> {
    set p | p in clients :: Held(p, clients[p].offsetMs, clients[p].rttMs)
  }

  lemma StepKeepsGrounded(cfg: Config, s: System, e: Event, held: set<Held>)
    requires Grounded(cfg, s, held) && SafetyLaws.Safe(cfg, s) && ExchangeLaws.Exchanges(s) && Enabled(cfg, s, e)
    ensures Grounded(cfg, Do(cfg, s, e), held + PairsOf(Do(cfg, s, e).clients))
  {
    hide SafetyLaws.Safe, ExchangeLaws.Exchanges, Grounded;
    var s' := Do(cfg, s, e);
    if e.ResumeExchange? {
      hide Resume, LocalTime;
      ResumeExchangeKeepsGrounded(cfg, s, e.peer, e.request, held);
      var c' := s'.clients[e.peer];
      assert Held(e.peer, c'.offsetMs, c'.rttMs) in PairsOf(s'.clients);
      HeldGrows(cfg, s', held + {Held(e.peer, c'.offsetMs, c'.rttMs)}, held + PairsOf(s'.clients));
    } else {
      hide Do, Enabled, PairsOf;
      if ClientMoves(e) {
        ClientStepKeepsGrounded(cfg, s, e, held);
      } else {
        ServerStepKeepsGrounded(cfg, s, e, held);
      }
      HeldGrows(cfg, s', held, held + PairsOf(s'.clients));
    }
  }
}

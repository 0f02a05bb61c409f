/** What holds in every state of every run of the control protocol. */
module Theorems {
  import opened Types
  import opened Messages
  import opened ClientLoop
  import opened Protocol
  import AckTable
  import Registry
  import SafetyLaws
  import Sessions
  import StepShape
  import ExchangeLaws
  import GroundLaws

  // ---------- the invariants hold throughout a run ----------

  /** The clock pairs the clients have had up to state i. */
  function Pairs(states: seq<System>, i: nat): set<GroundLaws.Held>
    requires i < |states|
  {
    if i == 0 then GroundLaws.PairsOf(states[0].clients)
    else Pairs(states, i - 1) + GroundLaws.PairsOf(states[i].clients)
  }

  /** x is the clock pair its peer had in state k. */
  predicate HasPair(s: System, x: GroundLaws.Held) {
    x.peer in s.clients && s.clients[x.peer].offsetMs == x.offsetMs && s.clients[x.peer].rttMs == x.rttMs
  }

  lemma {:induction false} PairWasHeld(states: seq<System>, i: nat, x: GroundLaws.Held)
    requires i < |states| && x in Pairs(states, i)
    ensures exists k :: 0 <= k <= i && HasPair(states[k], x)
  {
    if HasPair(states[i], x) {
    } else if i > 0 {
      PairWasHeld(states, i - 1, x);
    }
  }

  lemma NewTableIsSound()
    ensures AckTable.TableInv(AckTable.EMPTY)
  {
  }

  lemma NewClientIsSound(maxSize: int)
    ensures LoopInv(NEW_CLIENT, maxSize)
  {
    assert CompletedIds([]) == [] && Ids([]) == [];
  }

  lemma InitIsSafe(cfg: Config, s: System)
    requires Init(s)
    ensures SafetyLaws.Safe(cfg, s)
  {
    NewTableIsSound();
    NewClientIsSound(cfg.dedupCacheSize);
    hide AckTable.TableInv, LoopInv;
  }

  lemma InitIsGrounded(cfg: Config, s: System)
    requires Init(s)
    ensures ExchangeLaws.Exchanges(s) && GroundLaws.Grounded(cfg, s, GroundLaws.PairsOf(s.clients))
  {
  }

  lemma {:induction false} RunKeepsAll(cfg: Config, states: seq<System>, events: seq<Event>, i: nat)
    requires IsRun(cfg, states, events) && i < |states|
    ensures SafetyLaws.Safe(cfg, states[i]) && ExchangeLaws.Exchanges(states[i])
    ensures GroundLaws.Grounded(cfg, states[i], Pairs(states, i))
  {
    hide SafetyLaws.Safe, ExchangeLaws.Exchanges, GroundLaws.Grounded, Enabled, Do;
    if i == 0 {
      InitIsSafe(cfg, states[0]);
      InitIsGrounded(cfg, states[0]);
    } else {
      RunKeepsAll(cfg, states, events, i - 1);
      var s, e := states[i - 1], events[i - 1];
      assert Next(cfg, s, e, states[i - 1 + 1]);
      SafetyLaws.StepKeepsSafe(cfg, s, e);
      ExchangeLaws.StepKeepsExchanges(cfg, s, e);
      GroundLaws.StepKeepsGrounded(cfg, s, e, Pairs(states, i - 1));
    }
  }

  // ---------- what never changes again ----------

  /** A sent command keeps its peers, a settled future stays as it is, and sends and reported
      skews are only added to. */
  ghost predicate TablePersists(t: AckTable.Table, t': AckTable.Table) {
    && (forall m :: m in t.sends ==> m in t'.sends && t'.sends[m] == t.sends[m])
    && t.skews <= t'.skews
    && (forall c :: c in t.commands ==> c in t'.commands && t'.commands[c] == t.commands[c])
    && (forall m :: m in t.futures ==> m in t'.futures && FuturePersists(t.futures[m], t'.futures[m]))
  }

  predicate FuturePersists(f: AckTable.Future, f': AckTable.Future) {
    f.Waiting? || f' == f
  }

  /** The reply a request got stays its reply. */
  ghost predicate ClientsPersist(clients: map<Peer, Client>, clients': map<Peer, Client>) {
    forall p :: p in clients ==> p in clients' && RepliesPersist(clients[p], clients'[p])
  }

  ghost predicate RepliesPersist(c: Client, c': Client) {
    forall r :: r in c.replies ==> r in c'.replies && c'.replies[r] == c.replies[r]
  }

  lemma AcceptPersists(t: AckTable.Table, m: MsgId, p: Peer, reply: AckTable.Reply, clock: AckTable.ClockPair, now: real)
    ensures TablePersists(t, AckTable.Accept(t, m, p, reply, clock, now))
  {
    hide AckTable.FeedGroup, AckTable.FeedSkews, AckTable.EntryFor, AckTable.DelayMs;
    if m in t.tracking && reply.applyTs.Some? {
      SkewsAppended(t.skews, t.groups, t.tracking[m].command, AckTable.EntryFor(p, reply.applyTs.value, clock));
    }
  }

  lemma SkewsAppended(skews: seq<AckTable.Skew>, groups: map<CommandId, AckTable.Group>, c: CommandId, e: AckTable.ApplyTime)
    ensures skews <= AckTable.FeedSkews(skews, groups, c, e) && |AckTable.FeedSkews(skews, groups, c, e)| <= |skews| + 1
  {
    hide AckTable.Put, AckTable.Spread;
  }

  /** An acknowledgement adds at most one skew. */
  lemma AcceptAddsSkew(t: AckTable.Table, m: MsgId, p: Peer, reply: AckTable.Reply, clock: AckTable.ClockPair, now: real)
    ensures var t' := AckTable.Accept(t, m, p, reply, clock, now);
            t.skews <= t'.skews && |t'.skews| <= |t.skews| + 1
  {
    hide AckTable.FeedGroup, AckTable.FeedSkews, AckTable.EntryFor, AckTable.DelayMs;
    if m in t.tracking && reply.applyTs.Some? {
      SkewsAppended(t.skews, t.groups, t.tracking[m].command, AckTable.EntryFor(p, reply.applyTs.value, clock));
    }
  }

  lemma OpenPersists(t: AckTable.Table, c: CommandId, peers: set<Peer>)
    requires c !in t.commands
    ensures TablePersists(t, AckTable.Open(t, c, peers))
  {
  }

  lemma AddPersists(t: AckTable.Table, m: MsgId, p: Peer, c: CommandId, now: real, timeoutMs: real)
    requires m !in t.futures && m !in t.sends
    ensures TablePersists(t, AckTable.Add(t, m, p, c, now, timeoutMs))
  {
  }

  lemma GiveUpPersists(t: AckTable.Table, m: MsgId)
    ensures TablePersists(t, AckTable.GiveUp(t, m))
  {
  }

  lemma ExpirePersists(t: AckTable.Table, now: real)
    ensures TablePersists(t, AckTable.Expire(t, now))
  {
    hide AckTable.Overdue;
  }

  lemma SameTablePersists(t: AckTable.Table)
    ensures TablePersists(t, t)
  {
  }

  lemma ServerReceivePersists(cfg: Config, s: System, p: Peer, msg: Message, replyId: MsgId)
    ensures TablePersists(s.acks, DoServerReceive(cfg, s, p, msg, replyId).acks)
  {
    hide Registry.Handle, ServerReply, AckTable.Accept, ClockOf, TablePersists;
    if msg.body.Ack? {
      AcceptPersists(s.acks, msg.body.replyTo, msg.body.receiver, AckTable.Reply(msg.body.receiveTs, msg.body.applyTs),
                     ClockOf(Registry.Handle(s.registry, p, msg.body, s.now, cfg.policy), msg.body.receiver), s.now);
    } else {
      SameTablePersists(s.acks);
    }
  }

  lemma FuturesAreSends(cfg: Config, s: System)
    requires SafetyLaws.Safe(cfg, s)
    ensures forall m :: m in s.acks.futures <==> m in s.acks.sends
  {
    hide AckTable.TableInv, SafetyLaws.Wire, SafetyLaws.Tasks, SafetyLaws.Loops, SafetyLaws.AcksBacked, SafetyLaws.AcceptedBacked;
    SafetyLaws.Unpack(s.acks);
  }

  lemma StepTablePersists(cfg: Config, s: System, e: Event)
    requires SafetyLaws.Safe(cfg, s) && Enabled(cfg, s, e)
    ensures TablePersists(s.acks, Do(cfg, s, e).acks)
  {
    hide SafetyLaws.Safe, DoServerReceive, NewTasks, TablePersists, AckTable.Open, AckTable.Add, AckTable.GiveUp, AckTable.Expire;
    if ClientMoves(e) {
      hide Do;
      ClientFrame(cfg, s, e);
      SameTablePersists(s.acks);
    } else if !TouchesTable(e) {
      hide Do;
      TableFrame(cfg, s, e);
      SameTablePersists(s.acks);
    } else if e.Issue? {
      OpenPersists(s.acks, e.command, s.registry.Keys);
    } else if e.Enter? {
      FuturesAreSends(cfg, s);
      GroundLaws.FreshIsUnsent(cfg, s, e.id);
      AddPersists(s.acks, e.id, e.key.peer, e.key.command, s.now, cfg.ackTimeoutMs);
    } else if e.Timeout? {
      GiveUpPersists(s.acks, s.tasks[e.key].m);
    } else if e.ServerReceive? {
      ServerReceivePersists(cfg, s, e.peer, e.msg, e.replyId);
    } else {
      ExpirePersists(s.acks, s.now);
    }
  }

  lemma ReceivePersists(c: Client, self: Peer, msg: Message, maxSize: int, now: real, created: map<MsgId, Message>)
    requires c.job == None && ExchangeLaws.ExchangeOk(c, created)
    ensures RepliesPersist(c, Receive(c, self, msg, maxSize, now).client)
  {
  }

  lemma ClientMovesPersist(c: Client, p: Peer, id: MsgId, request: Request, now: real)
    ensures RepliesPersist(c, c) && RepliesPersist(c, Ask(c, id, request))
    ensures c.job.Some? && c.job.value.phase.Handling? ==> RepliesPersist(c, Finish(c, p, now).client)
    ensures c.job.Some? && c.job.value.phase.Sleeping? && now >= c.job.value.phase.target ==> RepliesPersist(c, Wake(c, now))
    ensures id in c.answers ==> RepliesPersist(c, Resume(c, id, now))
  {
  }

  lemma OneClientPersists(clients: map<Peer, Client>, p: Peer, c': Client)
    requires p in clients && RepliesPersist(clients[p], c')
    ensures ClientsPersist(clients, clients[p := c'])
  {
  }

  lemma StepClientsPersist(cfg: Config, s: System, e: Event)
    requires ExchangeLaws.Exchanges(s) && Enabled(cfg, s, e)
    ensures ClientsPersist(s.clients, Do(cfg, s, e).clients)
  {
    hide ExchangeLaws.Exchanges, RepliesPersist, ClientsPersist, Receive, Finish, Wake, Resume, Ask;
    if !ClientMoves(e) {
      ServerFrame(cfg, s, e);
      hide Do;
      SameClientsPersist(s.clients);
    } else {
      ClientMovePersists(cfg, s, e);
    }
  }

  lemma SameClientsPersist(clients: map<Peer, Client>)
    ensures ClientsPersist(clients, clients)
  {
  }

  lemma ClientMovePersists(cfg: Config, s: System, e: Event)
    requires ExchangeLaws.Exchanges(s) && Enabled(cfg, s, e) && ClientMoves(e)
    ensures ClientsPersist(s.clients, Do(cfg, s, e).clients)
  {
    var p := e.peer;
    var c, local := s.clients[p], LocalTime(cfg, s, p);
    assert ExchangeLaws.ExchangeOk(c, s.created);
    hide ExchangeLaws.Exchanges, ExchangeLaws.ExchangeOk, RepliesPersist, ClientsPersist, Receive, Finish, Wake, Resume, Ask,
         LocalTime, IsRequest, IsReport, RequestOf, ClientStep;
    if e.SendRequest? {
      ClientMovesPersist(c, p, e.id, RequestOf(e.body), local);
      OneClientPersists(s.clients, p, Ask(c, e.id, RequestOf(e.body)));
    } else if e.SendReport? {
      SameClientsPersist(s.clients);
    } else if e.ClientReceive? {
      ReceivePersists(c, p, e.msg, cfg.dedupCacheSize, local, s.created);
      OutputFrame(s, p, Receive(c, p, e.msg, cfg.dedupCacheSize, local), e.ackId);
      OneClientPersists(s.clients, p, Receive(c, p, e.msg, cfg.dedupCacheSize, local).client);
    } else if e.WakeUp? {
      ClientMovesPersist(c, p, MsgId(""), RegisterRequest, local);
      OneClientPersists(s.clients, p, Wake(c, local));
    } else if e.FinishJob? {
      ClientMovesPersist(c, p, MsgId(""), RegisterRequest, local);
      OutputFrame(s, p, Finish(c, p, local), e.ackId);
      OneClientPersists(s.clients, p, Finish(c, p, local).client);
    } else {
      ClientMovesPersist(c, p, e.request, RegisterRequest, local);
      OneClientPersists(s.clients, p, Resume(c, e.request, local));
    }
  }

  lemma StartOfRun(cfg: Config, states: seq<System>, events: seq<Event>)
    requires IsRun(cfg, states, events)
    ensures |states| == |events| + 1 && Init(states[0])
  {
    hide Init, Next;
  }

  lemma StepOfRun(cfg: Config, states: seq<System>, events: seq<Event>, k: nat)
    requires IsRun(cfg, states, events) && k < |events|
    ensures |states| == |events| + 1 && Next(cfg, states[k], events[k], states[k + 1])
  {
    hide Init, Next;
  }

  lemma RunShape(cfg: Config, states: seq<System>, events: seq<Event>)
    requires IsRun(cfg, states, events)
    ensures |states| == |events| + 1
  {
    hide Enabled, Do, Init;
  }

  /** Over any stretch of a run: a sent command keeps its peers, a settled future is never
      revised, and no request ever gets a second reply. */
  lemma {:induction false} RunPersists(cfg: Config, states: seq<System>, events: seq<Event>, i: nat, j: nat)
    requires IsRun(cfg, states, events) && i <= j < |states|
    ensures TablePersists(states[i].acks, states[j].acks)
    ensures ClientsPersist(states[i].clients, states[j].clients)
    decreases j - i
  {
    hide IsRun, Init, Next, Enabled, Do, TablePersists, ClientsPersist;
    RunShape(cfg, states, events);
    if i < j {
      RunPersists(cfg, states, events, i, j - 1);
      OneStepPersists(cfg, states, events, j - 1);
      TablePersistsOn(states[i].acks, states[j - 1].acks, states[j].acks);
      ClientsPersistOn(states[i].clients, states[j - 1].clients, states[j].clients);
    } else {
      SameClientsPersist(states[i].clients);
      SameTablePersists(states[i].acks);
    }
  }

  lemma OneStepPersists(cfg: Config, states: seq<System>, events: seq<Event>, i: nat)
    requires IsRun(cfg, states, events) && i < |events|
    ensures TablePersists(states[i].acks, states[i + 1].acks)
    ensures ClientsPersist(states[i].clients, states[i + 1].clients)
  {
    hide SafetyLaws.Safe, ExchangeLaws.Exchanges, GroundLaws.Grounded, Enabled, Do, TablePersists, ClientsPersist;
    RunKeepsAll(cfg, states, events, i);
    assert Next(cfg, states[i], events[i], states[i + 1]);
    StepTablePersists(cfg, states[i], events[i]);
    StepClientsPersist(cfg, states[i], events[i]);
  }

  lemma TablePersistsOn(a: AckTable.Table, b: AckTable.Table, c: AckTable.Table)
    requires TablePersists(a, b) && TablePersists(b, c)
    ensures TablePersists(a, c)
  {
  }

  lemma ClientsPersistOn(a: map<Peer, Client>, b: map<Peer, Client>, c: map<Peer, Client>)
    requires ClientsPersist(a, b) && ClientsPersist(b, c)
    ensures ClientsPersist(a, c)
  {
  }

  // ---------- what only grows ----------

  /** Messages are never unmade, and the clock never goes back. */
  lemma StepGrows(cfg: Config, s: System, e: Event)
    requires Enabled(cfg, s, e)
    ensures s.created.Keys <= Do(cfg, s, e).created.Keys && s.now <= Do(cfg, s, e).now
  {
    hide Do, Enabled, StepShape.Built, StepShape.Sent;
    StepShape.StepAdds(cfg, s, e);
    TimeGrows(cfg, s, e);
  }

  lemma TimeGrows(cfg: Config, s: System, e: Event)
    requires Enabled(cfg, s, e)
    ensures s.now <= Do(cfg, s, e).now
  {
    hide DoServerReceive, Receive, Finish, Wake, Resume, Ask, LocalTime, IsRequest, IsReport, RequestOf, ClientStep,
         AckTable.GiveUp, AckTable.Expire, AckTable.Open, AckTable.Add, Registry.Scan, NewTasks, Sessions.Apply;
    if e.ServerReceive? {
      ReceiveFrame(cfg, s, e.peer, e.msg, e.replyId);
    } else if e.ClientReceive? {
      OutputTime(s, e.peer, Receive(s.clients[e.peer], e.peer, e.msg, cfg.dedupCacheSize, LocalTime(cfg, s, e.peer)), e.ackId);
    } else if e.FinishJob? {
      OutputTime(s, e.peer, Finish(s.clients[e.peer], e.peer, LocalTime(cfg, s, e.peer)), e.ackId);
    }
  }

  lemma OutputTime(s: System, p: Peer, out: Output, ackId: MsgId)
    ensures ClientStep(s, p, out, ackId).now == s.now
  {
  }

  lemma {:induction false} RunGrows(cfg: Config, states: seq<System>, events: seq<Event>, i: nat, j: nat)
    requires IsRun(cfg, states, events) && i <= j < |states|
    ensures states[i].created.Keys <= states[j].created.Keys && states[i].now <= states[j].now
    decreases j
  {
    hide IsRun, Enabled, Do;
    RunShape(cfg, states, events);
    if i < j {
      RunGrows(cfg, states, events, i, j - 1);
      StepOfRun(cfg, states, events, j - 1);
      StepGrows(cfg, states[j - 1], events[j - 1]);
    }
  }
}

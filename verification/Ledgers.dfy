/** What the server has commanded, sent, accepted and given up, read off the steps of the run. The
    history fields of its table are these. */
module Ledgers {
  import opened Types
  import opened Protocol
  import AckLaws
  import AckTable
  import ExchangeLaws
  import GroundLaws
  import Registry
  import SafetyLaws
  import Theorems

  /** The commands issued in the first i steps, each with the peers registered then. */
  function Commands(states: seq<System>, events: seq<Event>, i: nat): map<CommandId, set<Peer>>
    requires i <= |events| < |states|
  {
    if i == 0 then map[]
    else
      var before, e := Commands(states, events, i - 1), events[i - 1];
      if e.Issue? then before[e.command := states[i - 1].registry.Keys] else before
  }

  /** The messages entered in the first i steps, each with its peer and command. */
  function Sends(events: seq<Event>, i: nat): map<MsgId, AckTable.Send>
    requires i <= |events|
  {
    if i == 0 then map[]
    else
      var before, e := Sends(events, i - 1), events[i - 1];
      if e.Enter? then before[e.id := AckTable.Send(e.key.peer, e.key.command)] else before
  }

  /** The orders given in the first i steps. */
  function Orders(events: seq<Event>, i: nat): map<CommandId, Order>
    requires i <= |events|
  {
    if i == 0 then map[]
    else
      var before, e := Orders(events, i - 1), events[i - 1];
      if e.Issue? then before[e.command := e.order] else before
  }

  /** The messages entered in the first i steps, each with the time. */
  function EnteredAt(states: seq<System>, events: seq<Event>, i: nat): (r: map<MsgId, real>)
    requires i <= |events| < |states|
    ensures r.Keys == Sends(events, i).Keys
  {
    if i == 0 then map[]
    else
      var before, e := EnteredAt(states, events, i - 1), events[i - 1];
      if e.Enter? then before[e.id := states[i - 1].now] else before
  }

  /** What has become of the messages entered: apply times of accepted acknowledgements, and the
      messages given up. */
  datatype Fate = Fate(accepted: map<MsgId, Option<real>>, expired: set<MsgId>)

  predicate Open(fate: Fate, m: MsgId) {
    m !in fate.accepted && m !in fate.expired
  }

  /** The first acknowledgement from its own peer closes a message, unless a scan at least the
      timeout after it was entered has come before. */
  function NextFate(fate: Fate, sends: map<MsgId, AckTable.Send>, entered: map<MsgId, real>, e: Event, now: real, timeout: real): Fate {
    if AcksOpen(sends, fate, e) then fate.(accepted := fate.accepted[e.msg.body.replyTo := e.msg.body.applyTs])
    else if e.ExpireAcks? then fate.(expired := fate.expired + Late(entered, fate, now, timeout))
    else fate
  }

  function Fates(cfg: Config, states: seq<System>, events: seq<Event>, i: nat): Fate
    requires i <= |events| < |states|
  {
    if i == 0 then Fate(map[], {})
    else
      NextFate(Fates(cfg, states, events, i - 1), Sends(events, i - 1), EnteredAt(states, events, i - 1), events[i - 1],
               states[i - 1].now, cfg.ackTimeoutMs / 1000.0)
  }

  /** An open message is acknowledged by its own peer. */
  predicate AcksOpen(sends: map<MsgId, AckTable.Send>, fate: Fate, e: Event) {
    && e.ServerReceive? && e.msg.body.Ack?
    && e.msg.body.replyTo in sends && sends[e.msg.body.replyTo].peer == e.msg.body.receiver && Open(fate, e.msg.body.replyTo)
  }

  /** The open messages entered at least this long ago. */
  function Late(entered: map<MsgId, real>, fate: Fate, now: real, timeout: real): set<MsgId> {
    set m | m in entered && Open(fate, m) && entered[m] + timeout <= now
  }

  // ---------- the table ----------

  /** An acknowledgement comes in from the peer it is pending for. */
  predicate Accepts(s: System, e: Event) {
    && e.ServerReceive? && e.msg.body.Ack?
    && AckTable.Key(e.msg.body.replyTo, e.msg.body.receiver) in s.acks.pending
  }

  /** What one step adds to the ledgers. */
  predicate Books(s: System, e: Event, t': AckTable.Table) {
    var t := s.acks;
    && t'.commands == (if e.Issue? then t.commands[e.command := s.registry.Keys] else t.commands)
    && t'.sends == (if e.Enter? then t.sends[e.id := AckTable.Send(e.key.peer, e.key.command)] else t.sends)
    && t'.accepted == (if Accepts(s, e) then t.accepted[e.msg.body.replyTo := e.msg.body.applyTs] else t.accepted)
    && t'.expired == t.expired + (if e.ExpireAcks? then AckTable.IdsOf(AckTable.Overdue(t.pending, s.now)) else {})
  }

  lemma AcceptBooks(t: AckTable.Table, m: MsgId, p: Peer, reply: AckTable.Reply, clock: AckTable.ClockPair, now: real)
    ensures var t' := AckTable.Accept(t, m, p, reply, clock, now);
      && t'.commands == t.commands && t'.sends == t.sends && t'.expired == t.expired
      && t'.accepted == if AckTable.Key(m, p) in t.pending then t.accepted[m := reply.applyTs] else t.accepted
  {
    hide AckTable.Resolve, AckTable.Observe;
    if AckTable.Key(m, p) in t.pending {
      var r := AckTable.Resolve(t, AckTable.Key(m, p), reply, now);
      ResolveBooks(t, AckTable.Key(m, p), reply, now);
      ObserveBooks(r, m, p, reply, clock);
    }
  }

  lemma ResolveBooks(t: AckTable.Table, key: AckTable.Key, reply: AckTable.Reply, now: real)
    requires key in t.pending
    ensures var t' := AckTable.Resolve(t, key, reply, now);
      && t'.commands == t.commands && t'.sends == t.sends && t'.expired == t.expired
      && t'.accepted == t.accepted[key.msgId := reply.applyTs]
  {
  }

  lemma ObserveBooks(t: AckTable.Table, m: MsgId, p: Peer, reply: AckTable.Reply, clock: AckTable.ClockPair)
    ensures var t' := AckTable.Observe(t, m, p, reply, clock);
            t'.commands == t.commands && t'.sends == t.sends && t'.expired == t.expired && t'.accepted == t.accepted
  {
    if m in t.tracking {
      hide AckTable.Observe;
      AckLaws.ObserveShape(t, m, p, reply, clock);
    }
  }

  lemma ReceiveBooks(cfg: Config, s: System, e: Event)
    requires e.ServerReceive?
    ensures Books(s, e, DoServerReceive(cfg, s, e.peer, e.msg, e.replyId).acks)
  {
    hide ServerReply, ClockOf, Registry.Handle, AckTable.Accept, AckTable.Overdue, AckTable.IdsOf;
    if e.msg.body.Ack? {
      var b := e.msg.body;
      AcceptBooks(s.acks, b.replyTo, b.receiver, AckTable.Reply(b.receiveTs, b.applyTs),
                  ClockOf(Registry.Handle(s.registry, e.peer, b, s.now, cfg.policy), b.receiver), s.now);
    }
  }

  lemma SendBooks(cfg: Config, s: System, e: Event)
    requires Enabled(cfg, s, e) && (e.Issue? || e.Enter?)
    ensures Books(s, e, Do(cfg, s, e).acks)
  {
    assert s.acks.expired + {} == s.acks.expired;
    hide NewTasks, AckTable.Overdue, AckTable.IdsOf;
  }

  lemma GiveUpBooks(cfg: Config, s: System, e: Event)
    requires Enabled(cfg, s, e) && (e.Timeout? || e.ExpireAcks?)
    ensures Books(s, e, Do(cfg, s, e).acks)
  {
    assert s.acks.expired + {} == s.acks.expired;
    hide AckTable.Overdue, AckTable.IdsOf, Enabled, Accepts;
    if e.Timeout? {
      hide Do;
      TimeoutAcks(cfg, s, e);
    }
  }

  lemma TimeoutAcks(cfg: Config, s: System, e: Event)
    requires Enabled(cfg, s, e) && e.Timeout?
    ensures var t, t' := s.acks, Do(cfg, s, e).acks;
            t'.commands == t.commands && t'.sends == t.sends && t'.accepted == t.accepted && t'.expired == t.expired
  {
  }

  lemma SameBooks(s: System, e: Event)
    requires ClientMoves(e) || !TouchesTable(e)
    ensures Books(s, e, s.acks)
  {
  }

  lemma StepBooks(cfg: Config, s: System, e: Event)
    requires Enabled(cfg, s, e)
    ensures Books(s, e, Do(cfg, s, e).acks)
  {
    hide DoServerReceive, Books;
    if ClientMoves(e) {
      hide Do;
      ClientFrame(cfg, s, e);
      SameBooks(s, e);
    } else if !TouchesTable(e) {
      hide Do;
      TableFrame(cfg, s, e);
      SameBooks(s, e);
    } else if e.ServerReceive? {
      ReceiveBooks(cfg, s, e);
    } else {
      hide Do;
      if e.Issue? || e.Enter? {
        SendBooks(cfg, s, e);
      } else {
        GiveUpBooks(cfg, s, e);
      }
    }
  }

  /** Pending entries have the time of their entering, and their deadline the timeout after it. */
  ghost predicate PendingTimed(timeout: real, pending: map<AckTable.Key, AckTable.Entry>, entered: map<MsgId, real>) {
    forall k :: k in pending ==>
      k.msgId in entered && pending[k] == AckTable.Entry(entered[k.msgId], entered[k.msgId] + timeout)
  }

  /** Every pending entry was pending before, as it is, or has just been entered. */
  ghost predicate PendingFrom(cfg: Config, s: System, e: Event, pending': map<AckTable.Key, AckTable.Entry>) {
    forall k :: k in pending' ==>
      || (k in s.acks.pending && pending'[k] == s.acks.pending[k])
      || (e.Enter? && k == AckTable.Key(e.id, e.key.peer)
          && pending'[k] == AckTable.Entry(s.now, s.now + cfg.ackTimeoutMs / 1000.0))
  }

  lemma ObserveKeepsPending(t: AckTable.Table, m: MsgId, p: Peer, reply: AckTable.Reply, clock: AckTable.ClockPair)
    ensures AckTable.Observe(t, m, p, reply, clock).pending == t.pending
  {
    if m in t.tracking {
      hide AckTable.Observe;
      AckLaws.ObserveShape(t, m, p, reply, clock);
    }
  }

  lemma AcceptPending(t: AckTable.Table, m: MsgId, p: Peer, reply: AckTable.Reply, clock: AckTable.ClockPair, now: real)
    ensures AckTable.Accept(t, m, p, reply, clock, now).pending == t.pending - {AckTable.Key(m, p)}
  {
    hide AckTable.Resolve, AckTable.Observe;
    var key := AckTable.Key(m, p);
    if key in t.pending {
      AckLaws.ResolveShape(t, key, reply, now);
      ObserveKeepsPending(AckTable.Resolve(t, key, reply, now), m, p, reply, clock);
    } else {
      assert t.pending - {key} == t.pending;
    }
  }

  lemma ReceivePending(cfg: Config, s: System, e: Event)
    requires e.ServerReceive?
    ensures PendingFrom(cfg, s, e, DoServerReceive(cfg, s, e.peer, e.msg, e.replyId).acks.pending)
  {
    hide ServerReply, ClockOf, Registry.Handle, AckTable.Accept;
    if e.msg.body.Ack? {
      var b := e.msg.body;
      AcceptPending(s.acks, b.replyTo, b.receiver, AckTable.Reply(b.receiveTs, b.applyTs),
                    ClockOf(Registry.Handle(s.registry, e.peer, b, s.now, cfg.policy), b.receiver), s.now);
    }
  }

  lemma StepPending(cfg: Config, s: System, e: Event)
    requires Enabled(cfg, s, e)
    ensures PendingFrom(cfg, s, e, Do(cfg, s, e).acks.pending)
  {
    hide DoServerReceive, NewTasks, AckTable.Overdue;
    if ClientMoves(e) {
      hide Do;
      ClientFrame(cfg, s, e);
    } else if !TouchesTable(e) {
      hide Do;
      TableFrame(cfg, s, e);
    } else if e.ServerReceive? {
      hide PendingFrom;
      ReceivePending(cfg, s, e);
    }
  }

  // ---------- the ledgers are real ----------

  /** An entry is pending exactly while its message is open. */
  lemma PendingIsOpen(t: AckTable.Table, m: MsgId, p: Peer)
    requires AckTable.Fates(t.pending, t.sends, t.accepted, t.expired)
    ensures AckTable.Key(m, p) in t.pending <==>
              m in t.sends && t.sends[m].peer == p && Open(Fate(t.accepted, t.expired), m)
  {
    assert AckTable.Key(m, p).msgId == m && AckTable.Key(m, p).peer == p;
  }

  /** The entries found overdue are those of the messages that are open and late. */
  lemma OverdueIsLate(t: AckTable.Table, entered: map<MsgId, real>, now: real, timeout: real)
    requires AckTable.Fates(t.pending, t.sends, t.accepted, t.expired) && entered.Keys == t.sends.Keys
    requires PendingTimed(timeout, t.pending, entered)
    ensures AckTable.IdsOf(AckTable.Overdue(t.pending, now)) == Late(entered, Fate(t.accepted, t.expired), now, timeout)
  {
    hide AckTable.Fates;
    var gone := AckTable.Overdue(t.pending, now);
    forall m
      ensures m in AckTable.IdsOf(gone) <==> m in Late(entered, Fate(t.accepted, t.expired), now, timeout)
    {
      if m in t.sends {
        PendingIsOpen(t, m, t.sends[m].peer);
        assert AckTable.Key(m, t.sends[m].peer).msgId == m;
      }
      if m in AckTable.IdsOf(gone) {
        var k :| k in gone && k.msgId == m;
        PendingIsOpen(t, m, k.peer);
        assert k == AckTable.Key(m, k.peer);
      }
    }
  }

  /** The table's history and deadlines are those of the run. */
  ghost predicate Agrees(cfg: Config, states: seq<System>, events: seq<Event>, i: nat)
    requires i <= |events| < |states|
  {
    var t := states[i].acks;
    && t.commands == Commands(states, events, i) && t.sends == Sends(events, i)
    && Fate(t.accepted, t.expired) == Fates(cfg, states, events, i)
    && PendingTimed(cfg.ackTimeoutMs / 1000.0, t.pending, EnteredAt(states, events, i))
  }

  lemma PendingStaysTimed(cfg: Config, s: System, e: Event, pending': map<AckTable.Key, AckTable.Entry>, entered: map<MsgId, real>)
    requires PendingTimed(cfg.ackTimeoutMs / 1000.0, s.acks.pending, entered) && PendingFrom(cfg, s, e, pending')
    requires e.Enter? ==> e.id !in entered
    ensures PendingTimed(cfg.ackTimeoutMs / 1000.0, pending', if e.Enter? then entered[e.id := s.now] else entered)
  {
  }

  lemma FateFollows(s: System, e: Event, t': AckTable.Table, entered: map<MsgId, real>, timeout: real)
    requires var t := s.acks;
      && AckTable.Fates(t.pending, t.sends, t.accepted, t.expired) && entered.Keys == t.sends.Keys
      && PendingTimed(timeout, t.pending, entered)
    requires Books(s, e, t')
    ensures Fate(t'.accepted, t'.expired) ==
              NextFate(Fate(s.acks.accepted, s.acks.expired), s.acks.sends, entered, e, s.now, timeout)
  {
    if e.ServerReceive? && e.msg.body.Ack? {
      PendingIsOpen(s.acks, e.msg.body.replyTo, e.msg.body.receiver);
    }
    OverdueIsLate(s.acks, entered, s.now, timeout);
    hide AckTable.Fates, AckTable.Overdue, AckTable.IdsOf, Late, PendingTimed;
    assert s.acks.expired + {} == s.acks.expired;
  }

  lemma StepParts(cfg: Config, s: System, e: Event, s': System, entered: map<MsgId, real>)
    requires Next(cfg, s, e, s') && SafetyLaws.Safe(cfg, s)
    requires entered.Keys == s.acks.sends.Keys && PendingTimed(cfg.ackTimeoutMs / 1000.0, s.acks.pending, entered)
    ensures Books(s, e, s'.acks)
    ensures Fate(s'.acks.accepted, s'.acks.expired) ==
              NextFate(Fate(s.acks.accepted, s.acks.expired), s.acks.sends, entered, e, s.now, cfg.ackTimeoutMs / 1000.0)
    ensures PendingTimed(cfg.ackTimeoutMs / 1000.0, s'.acks.pending, if e.Enter? then entered[e.id := s.now] else entered)
  {
    hide SafetyLaws.Safe, Do, AckTable.Fates, PendingFrom, PendingTimed, NextFate, Books;
    StepBooks(cfg, s, e);
    StepPending(cfg, s, e);
    SafeFates(cfg, s);
    if e.Enter? {
      GroundLaws.FreshIsUnsent(cfg, s, e.id);
    }
    hide Enabled;
    FateFollows(s, e, s'.acks, entered, cfg.ackTimeoutMs / 1000.0);
    PendingStaysTimed(cfg, s, e, s'.acks.pending, entered);
  }

  lemma StepAgrees(cfg: Config, states: seq<System>, events: seq<Event>, i: nat)
    requires i < |events| < |states| && Next(cfg, states[i], events[i], states[i + 1])
    requires Agrees(cfg, states, events, i) && SafetyLaws.Safe(cfg, states[i])
    ensures Agrees(cfg, states, events, i + 1)
  {
    hide Next, SafetyLaws.Safe, PendingTimed, NextFate, Accepts, AckTable.Overdue, AckTable.IdsOf;
    StepParts(cfg, states[i], events[i], states[i + 1], EnteredAt(states, events, i));
  }

  lemma SafeFates(cfg: Config, s: System)
    requires SafetyLaws.Safe(cfg, s)
    ensures AckTable.Fates(s.acks.pending, s.acks.sends, s.acks.accepted, s.acks.expired)
  {
    hide SafetyLaws.Wire, SafetyLaws.Tasks, SafetyLaws.Loops, SafetyLaws.AcksBacked, SafetyLaws.AcceptedBacked, AckTable.Fates,
         AckTable.Tracked, AckTable.FuturesFollow, AckTable.OnePerPeer, AckTable.TableInv;
    SafetyLaws.Unpack(s.acks);
  }

  lemma {:induction false} RunAgrees(cfg: Config, states: seq<System>, events: seq<Event>, i: nat)
    requires IsRun(cfg, states, events) && i <= |events| < |states|
    ensures Agrees(cfg, states, events, i)
  {
    hide IsRun, Next, SafetyLaws.Safe, ExchangeLaws.Exchanges, GroundLaws.Grounded;
    if i == 0 {
      NothingBooked(cfg, states, events);
    } else {
      hide Agrees;
      RunAgrees(cfg, states, events, i - 1);
      Theorems.RunKeepsAll(cfg, states, events, i - 1);
      Theorems.StepOfRun(cfg, states, events, i - 1);
      StepAgrees(cfg, states, events, i - 1);
    }
  }

  /** The commands, sends, accepted and expired messages of the server's table are those of the
      run's steps and their times. */
  lemma LedgersAreReal(cfg: Config, states: seq<System>, events: seq<Event>, i: nat)
    requires IsRun(cfg, states, events) && i <= |events| < |states|
    ensures var t := states[i].acks;
      && t.commands == Commands(states, events, i) && t.sends == Sends(events, i)
      && Fate(t.accepted, t.expired) == Fates(cfg, states, events, i)
  {
    hide IsRun, PendingTimed;
    RunAgrees(cfg, states, events, i);
  }

  lemma NothingBooked(cfg: Config, states: seq<System>, events: seq<Event>)
    requires IsRun(cfg, states, events)
    ensures |states| > 0 && states[0].acks == AckTable.EMPTY
  {
    assert Init(states[0]);
  }
}

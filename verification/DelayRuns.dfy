/** The delay and latency metrics of a run: which moments each of them was measured between. */
module DelayRuns {
  import opened Types
  import opened Messages
  import opened ClientLoop
  import opened Protocol
  import opened StepShape
  import opened Theorems
  import AckLaws
  import AckTable
  import ClientRuns
  import Clock
  import ClockLaws
  import ClockTheorems
  import Dedupe
  import EntryRuns
  import ExchangeLaws
  import GroundLaws
  import Histories
  import Registry
  import SafetyLaws
  import TrialRuns

  // ---------- when a message was entered in the tables ----------

  /** In this step the server enters message m, for p, in its tables. */
  predicate Enters(e: Event, p: Peer, m: MsgId) {
    e.Enter? && e.id == m && e.key.peer == p
  }

  predicate InTables(t: AckTable.Table, p: Peer, m: MsgId) {
    AckTable.Key(m, p) in t.pending && m in t.tracking
  }

  /** When m was entered, as both tables have it. */
  predicate EnteredAt(t: AckTable.Table, p: Peer, m: MsgId, at: real) {
    InTables(t, p, m) && t.pending[AckTable.Key(m, p)].createdAt == at && t.tracking[m].serverTs == at
  }

  /** What both tables have after an acknowledgement they had before. */
  lemma AcceptEnters(t: AckTable.Table, replyTo: MsgId, receiver: Peer, reply: AckTable.Reply, clock: AckTable.ClockPair,
                     now: real, p: Peer, m: MsgId, at: real)
    ensures var t' := AckTable.Accept(t, replyTo, receiver, reply, clock, now);
      InTables(t', p, m) ==> InTables(t, p, m) && (EnteredAt(t, p, m, at) ==> EnteredAt(t', p, m, at))
  {
    hide AckTable.FeedGroup, AckTable.FeedSkews, AckTable.EntryFor, AckTable.DelayMs;
  }

  lemma ReceiveEnters(cfg: Config, s: System, q: Peer, msg: Message, replyId: MsgId, p: Peer, m: MsgId, at: real)
    ensures var t' := DoServerReceive(cfg, s, q, msg, replyId).acks;
      InTables(t', p, m) ==> InTables(s.acks, p, m) && (EnteredAt(s.acks, p, m, at) ==> EnteredAt(t', p, m, at))
  {
    hide ServerReply, ClockOf, Registry.Handle, AckTable.Accept, InTables, EnteredAt;
    if msg.body.Ack? {
      AcceptEnters(s.acks, msg.body.replyTo, msg.body.receiver, AckTable.Reply(msg.body.receiveTs, msg.body.applyTs),
                   ClockOf(Registry.Handle(s.registry, q, msg.body, s.now, cfg.policy), msg.body.receiver), s.now, p, m, at);
    }
  }

  /** A message in both tables was there before, or has just been entered. */
  lemma StepEnters(cfg: Config, s: System, e: Event, p: Peer, m: MsgId, at: real)
    requires SafetyLaws.Safe(cfg, s) && Enabled(cfg, s, e) && InTables(Do(cfg, s, e).acks, p, m)
    ensures if Enters(e, p, m) then EnteredAt(Do(cfg, s, e).acks, p, m, s.now)
            else InTables(s.acks, p, m) && (EnteredAt(s.acks, p, m, at) ==> EnteredAt(Do(cfg, s, e).acks, p, m, at))
  {
    hide SafetyLaws.Safe, DoServerReceive, NewTasks, AckTable.Overdue;
    if ClientMoves(e) {
      hide Do;
      ClientFrame(cfg, s, e);
    } else if !TouchesTable(e) {
      hide Do;
      TableFrame(cfg, s, e);
    } else if e.ServerReceive? {
      ReceiveEnters(cfg, s, e.peer, e.msg, e.replyId, p, m, at);
    } else if e.Enter? {
      FreshIsNotPending(cfg, s, e.id, p);
    }
  }

  lemma FreshIsNotPending(cfg: Config, s: System, m: MsgId, p: Peer)
    requires SafetyLaws.Safe(cfg, s) && m !in s.created
    ensures AckTable.Key(m, p) !in s.acks.pending
  {
    GroundLaws.FreshIsUnsent(cfg, s, m);
    hide SafetyLaws.Wire, SafetyLaws.Tasks, SafetyLaws.Loops, SafetyLaws.AcksBacked, SafetyLaws.AcceptedBacked;
    SafetyLaws.Unpack(s.acks);
    hide AckTable.TableInv;
  }

  lemma {:induction false} WasEntered(cfg: Config, states: seq<System>, events: seq<Event>, i: nat, p: Peer, m: MsgId) returns (k: nat)
    requires IsRun(cfg, states, events) && i <= |events| < |states| && InTables(states[i].acks, p, m)
    ensures k < i && Enters(events[k], p, m) && EnteredAt(states[i].acks, p, m, states[k].now)
  {
    hide IsRun, Enabled, Do, SafetyLaws.Safe, ExchangeLaws.Exchanges, GroundLaws.Grounded, EnteredAt, InTables;
    if i == 0 {
      NothingEntered(cfg, states, events, p, m);
    } else {
      RunKeepsAll(cfg, states, events, i - 1);
      StepOfRun(cfg, states, events, i - 1);
      StepEnters(cfg, states[i - 1], events[i - 1], p, m, 0.0);
      if Enters(events[i - 1], p, m) {
        k := i - 1;
      } else {
        k := WasEntered(cfg, states, events, i - 1, p, m);
        StepEnters(cfg, states[i - 1], events[i - 1], p, m, states[k].now);
      }
    }
  }

  lemma NothingEntered(cfg: Config, states: seq<System>, events: seq<Event>, p: Peer, m: MsgId)
    requires IsRun(cfg, states, events)
    ensures |states| > 0 && !InTables(states[0].acks, p, m)
  {
    assert Init(states[0]);
  }

  // ---------- when a message was acknowledged ----------

  /** In this step p builds the acknowledgement msg of m: m has just been delivered to it again, or
      p's handlers for m have just returned, and then the acknowledgement has an apply time. Its
      times are p's local time. */
  predicate BuildsAck(cfg: Config, s: System, e: Event, p: Peer, m: MsgId, msg: Message) {
    && msg.body.Ack? && msg.body.replyTo == m && msg.body.receiver == p && msg.body.receiveTs == LocalTime(cfg, s, p)
    && match msg.body.applyTs
       case Some(at) => Histories.Completes(cfg, s, e, p, Completion(m, at))
       case None => Histories.Arrives(e, p) && e.msg.id == m
  }

  lemma SentAckIsBuilt(cfg: Config, s: System, e: Event, p: Peer, msg: Message)
    requires Enabled(cfg, s, e) && ToServer(p, msg) in Sent(cfg, s, e) && msg.body.Ack?
    ensures BuildsAck(cfg, s, e, p, msg.body.replyTo, msg)
  {
    hide Dedupe.Touch, StartJob, Clock.LocalForServer, ServerReply, LocalTime;
  }

  lemma {:induction false} AckWasBuilt(cfg: Config, states: seq<System>, events: seq<Event>, i: nat, p: Peer, msg: Message)
    returns (l: nat)
    requires IsRun(cfg, states, events) && i <= |events| < |states| && ToServer(p, msg) in states[i].net && msg.body.Ack?
    ensures l < i && BuildsAck(cfg, states[l], events[l], p, msg.body.replyTo, msg)
  {
    hide IsRun, Enabled, Do, Built, Sent, BuildsAck;
    if i == 0 {
      NothingSent(cfg, states, events);
    } else {
      StepOfRun(cfg, states, events, i - 1);
      StepAdds(cfg, states[i - 1], events[i - 1]);
      if ToServer(p, msg) in states[i - 1].net {
        l := AckWasBuilt(cfg, states, events, i - 1, p, msg);
      } else {
        SentAckIsBuilt(cfg, states[i - 1], events[i - 1], p, msg);
        l := i - 1;
      }
    }
  }

  lemma NothingSent(cfg: Config, states: seq<System>, events: seq<Event>)
    requires IsRun(cfg, states, events)
    ensures |states| > 0 && states[0].net == {}
  {
    assert Init(states[0]);
  }

  // ---------- the order of these moments ----------

  /** A message is acknowledged only after it was entered. */
  lemma EnteredFirst(cfg: Config, states: seq<System>, events: seq<Event>, k: nat, l: nat, p: Peer, m: MsgId, msg: Message)
    requires IsRun(cfg, states, events) && k < |events| < |states| && l < |events|
    requires Enters(events[k], p, m) && BuildsAck(cfg, states[l], events[l], p, m, msg)
    ensures k < l && states[k].now <= states[l].now
  {
    hide IsRun, Do, ExchangeLaws.Exchanges, GroundLaws.Grounded, SafetyLaws.Safe;
    StepOfRun(cfg, states, events, k);
    StepOfRun(cfg, states, events, l);
    RunKeepsAll(cfg, states, events, l);
    if msg.body.applyTs.Some? {
      TrialRuns.RunsHaveStarts(cfg, states, events, l, p);
    } else {
      ClientRuns.ArrivalIsBuilt(cfg, states[l], events[l]);
    }
    assert m in states[l].created && m !in states[k].created;
    hide Enabled;
    if l <= k {
      RunGrows(cfg, states, events, l, k);
    } else {
      RunGrows(cfg, states, events, k, l);
    }
  }

  // ---------- what an acknowledgement adds to the metrics ----------

  /** In this step the server takes an acknowledgement that closes an entry. */
  predicate Closes(s: System, e: Event) {
    e.ServerReceive? && e.msg.body.Ack? && InTables(s.acks, e.msg.body.receiver, e.msg.body.replyTo)
  }

  /** The clock pair the server uses for an acknowledgement. */
  function PairUsed(cfg: Config, s: System, e: Event): AckTable.ClockPair
    requires e.ServerReceive? && e.msg.body.Ack?
  {
    ClockOf(Registry.Handle(s.registry, e.peer, e.msg.body, s.now, cfg.policy), e.msg.body.receiver)
  }

  function Latency(s: System, e: Event): real
    requires Closes(s, e)
  {
    (s.now - s.acks.pending[AckTable.Key(e.msg.body.replyTo, e.msg.body.receiver)].createdAt) * 1000.0
  }

  /** The delay to a client's local time ts. */
  function DelayTo(cfg: Config, s: System, e: Event, ts: real): real
    requires Closes(s, e)
  {
    AckTable.DelayMs(ts + PairUsed(cfg, s, e).offsetMs / 1000.0, s.acks.tracking[e.msg.body.replyTo].serverTs)
  }

  /** The table after a step, as far as these metrics and the accepted messages go. */
  predicate Measured(cfg: Config, s: System, e: Event, t': AckTable.Table) {
    var t := s.acks;
    if Closes(s, e) then
      var b := e.msg.body;
      && t'.latencies == t.latencies + [Latency(s, e)]
      && t'.receiveDelays == t.receiveDelays + [DelayTo(cfg, s, e, b.receiveTs)]
      && t'.applyDelays == t.applyDelays + (match b.applyTs case Some(at) => [DelayTo(cfg, s, e, at)] case None => [])
      && t'.accepted == t.accepted[b.replyTo := b.applyTs]
    else
      && t'.latencies == t.latencies && t'.receiveDelays == t.receiveDelays
      && t'.applyDelays == t.applyDelays && t'.accepted == t.accepted
  }

  lemma PendingIsTracked(cfg: Config, s: System, p: Peer, m: MsgId)
    requires SafetyLaws.Safe(cfg, s) && AckTable.Key(m, p) in s.acks.pending
    ensures InTables(s.acks, p, m) && m !in s.acks.accepted
  {
    hide SafetyLaws.Wire, SafetyLaws.Tasks, SafetyLaws.Loops, SafetyLaws.AcksBacked, SafetyLaws.AcceptedBacked, AckTable.TableInv,
         AckTable.Fates, AckTable.Tracked, AckTable.FuturesFollow, AckTable.OnePerPeer, InTables;
    SafetyLaws.Unpack(s.acks);
    TrackedIfPending(s.acks, p, m);
  }

  lemma TrackedIfPending(t: AckTable.Table, p: Peer, m: MsgId)
    requires AckTable.Fates(t.pending, t.sends, t.accepted, t.expired) && AckTable.Tracked(t.tracking, t.sends, t.accepted)
    requires AckTable.Key(m, p) in t.pending
    ensures InTables(t, p, m) && m !in t.accepted
  {
    assert AckTable.Key(m, p).msgId == m;
  }

  lemma AcceptMeasures(t: AckTable.Table, m: MsgId, p: Peer, reply: AckTable.Reply, clock: AckTable.ClockPair, now: real)
    requires AckTable.Key(m, p) in t.pending && m in t.tracking
    ensures var t', offset, since := AckTable.Accept(t, m, p, reply, clock, now), clock.offsetMs / 1000.0, t.tracking[m].serverTs;
      && t'.latencies == t.latencies + [(now - t.pending[AckTable.Key(m, p)].createdAt) * 1000.0]
      && t'.receiveDelays == t.receiveDelays + [AckTable.DelayMs(reply.receiveTs + offset, since)]
      && t'.applyDelays == t.applyDelays + (match reply.applyTs case Some(at) => [AckTable.DelayMs(at + offset, since)] case None => [])
      && t'.accepted == t.accepted[m := reply.applyTs]
  {
    assert t.applyDelays + [] == t.applyDelays;
    hide AckTable.FeedGroup, AckTable.FeedSkews, AckTable.DelayMs;
  }

  lemma ReceiveMeasures(cfg: Config, s: System, e: Event)
    requires SafetyLaws.Safe(cfg, s) && e.ServerReceive?
    ensures Measured(cfg, s, e, DoServerReceive(cfg, s, e.peer, e.msg, e.replyId).acks)
  {
    hide SafetyLaws.Safe, ServerReply, ClockOf, Registry.Handle, AckTable.Observe, AckTable.Resolve, AckTable.DelayMs;
    if e.msg.body.Ack? && AckTable.Key(e.msg.body.replyTo, e.msg.body.receiver) in s.acks.pending {
      hide AckTable.Accept;
      var b := e.msg.body;
      PendingIsTracked(cfg, s, b.receiver, b.replyTo);
      AcceptMeasures(s.acks, b.replyTo, b.receiver, AckTable.Reply(b.receiveTs, b.applyTs), PairUsed(cfg, s, e), s.now);
    }
  }

  lemma StepMeasures(cfg: Config, s: System, e: Event)
    requires SafetyLaws.Safe(cfg, s) && Enabled(cfg, s, e)
    ensures Measured(cfg, s, e, Do(cfg, s, e).acks)
  {
    hide SafetyLaws.Safe, DoServerReceive, NewTasks, AckTable.Overdue;
    if ClientMoves(e) {
      hide Do;
      ClientFrame(cfg, s, e);
    } else if !TouchesTable(e) {
      hide Do;
      TableFrame(cfg, s, e);
    } else if e.ServerReceive? {
      hide Measured;
      ReceiveMeasures(cfg, s, e);
    }
  }

  lemma RunMeasures(cfg: Config, states: seq<System>, events: seq<Event>, i: nat)
    requires IsRun(cfg, states, events) && i < |events|
    ensures i + 1 < |states| && Measured(cfg, states[i], events[i], states[i + 1].acks)
    ensures Closes(states[i], events[i]) ==> events[i].msg.body.replyTo !in states[i].acks.accepted
  {
    hide IsRun, Do, ExchangeLaws.Exchanges, GroundLaws.Grounded, SafetyLaws.Safe, Measured;
    StepOfRun(cfg, states, events, i);
    RunKeepsAll(cfg, states, events, i);
    StepMeasures(cfg, states[i], events[i]);
    if Closes(states[i], events[i]) {
      PendingIsTracked(cfg, states[i], events[i].msg.body.receiver, events[i].msg.body.replyTo);
    }
  }

  // ---------- how many there are ----------

  /** The accepted acknowledgements that had an apply time. */
  function Applied(accepted: map<MsgId, Option<real>>): set<MsgId> {
    set m | m in accepted && accepted[m].Some?
  }

  lemma OneMoreApplied(accepted: map<MsgId, Option<real>>, m: MsgId, ts: Option<real>)
    requires m !in accepted
    ensures |accepted[m := ts]| == |accepted| + 1
    ensures |Applied(accepted[m := ts])| == |Applied(accepted)| + if ts.Some? then 1 else 0
  {
    OneMoreKey(accepted, m, ts);
    AppliedAfter(accepted, m, ts);
    hide Applied;
  }

  lemma OneMoreKey(accepted: map<MsgId, Option<real>>, m: MsgId, ts: Option<real>)
    requires m !in accepted
    ensures |accepted[m := ts]| == |accepted| + 1
  {
    var keys := accepted.Keys;
    assert accepted[m := ts].Keys == keys + {m};
    assert |keys + {m}| == |keys| + 1;
  }

  lemma AppliedAfter(accepted: map<MsgId, Option<real>>, m: MsgId, ts: Option<real>)
    requires m !in accepted
    ensures Applied(accepted[m := ts]) == if ts.Some? then Applied(accepted) + {m} else Applied(accepted)
    ensures m !in Applied(accepted)
  {
  }

  /** Every accepted acknowledgement gives one latency and one receive delay, and one apply delay if
      it has an apply time. */
  lemma {:induction false} DelaysAreCounted(cfg: Config, states: seq<System>, events: seq<Event>, i: nat)
    requires IsRun(cfg, states, events) && i <= |events| < |states|
    ensures var t := states[i].acks;
            |t.latencies| == |t.accepted| == |t.receiveDelays| && |t.applyDelays| == |Applied(t.accepted)|
  {
    hide IsRun, InTables, Applied, PairUsed;
    if i == 0 {
      NothingMeasured(cfg, states, events);
    } else {
      DelaysAreCounted(cfg, states, events, i - 1);
      RunMeasures(cfg, states, events, i - 1);
      if Closes(states[i - 1], events[i - 1]) {
        OneMoreApplied(states[i - 1].acks.accepted, events[i - 1].msg.body.replyTo, events[i - 1].msg.body.applyTs);
      }
    }
  }

  lemma NothingMeasured(cfg: Config, states: seq<System>, events: seq<Event>)
    requires IsRun(cfg, states, events)
    ensures |states| > 0
    ensures var t := states[0].acks;
            t.latencies == [] && t.receiveDelays == [] && t.applyDelays == [] && t.accepted == map[] && |Applied(t.accepted)| == 0
  {
    assert Init(states[0]);
    assert Applied(map[]) == {};
  }

  // ---------- what they mean ----------

  /** Between steps k and l, in a run: the server entered m for p, and p built the acknowledgement
      msg of m, which the server took in step j; x is the clock pair p had last reported then. */
  ghost predicate Timed(cfg: Config, states: seq<System>, events: seq<Event>, k: nat, l: nat, j: nat, x: GroundLaws.Held)
    requires k <= l <= j < |events| < |states|
  {
    && Closes(states[j], events[j])
    && Enters(events[k], x.peer, events[j].msg.body.replyTo)
    && BuildsAck(cfg, states[l], events[l], x.peer, events[j].msg.body.replyTo, events[j].msg)
    && EnteredAt(states[j].acks, x.peer, events[j].msg.body.replyTo, states[k].now)
    && events[j].msg.body.receiver == x.peer
    && AckTable.ClockPair(x.offsetMs, x.rttMs) == EntryRuns.PairReported(cfg, states, events, j + 1, x.peer)
    && (ClockTheorems.HadPair(states, events, j + 1, x, true) || ClockTheorems.HadPair(states, events, j + 1, x, false))
  }

  /** The pair the server uses for an acknowledgement of p is one p has had. */
  lemma PairUsedWasHad(cfg: Config, states: seq<System>, events: seq<Event>, j: nat, p: Peer)
    requires IsRun(cfg, states, events) && j < |events| < |states| && p in states[j].clients
    requires events[j].ServerReceive? && events[j].msg.body.Ack? && events[j].msg.body.receiver == p
    ensures var pair := PairUsed(cfg, states[j], events[j]);
      var x := GroundLaws.Held(p, pair.offsetMs, pair.rttMs);
      ClockTheorems.HadPair(states, events, j + 1, x, true) || ClockTheorems.HadPair(states, events, j + 1, x, false)
    ensures PairUsed(cfg, states[j], events[j]) == EntryRuns.PairReported(cfg, states, events, j + 1, p)
  {
    hide IsRun, Enabled, Registry.Handle, DoServerReceive, ClockTheorems.Synced, EntryRuns.PairReported;
    StepOfRun(cfg, states, events, j);
    ReceiveFrame(cfg, states[j], events[j].peer, events[j].msg, events[j].replyId);
    hide Do;
    EntryRuns.ClockIsLastReported(cfg, states, events, j + 1, p);
    if p in states[j + 1].registry {
      hide ClockTheorems.HadPair;
      ClockTheorems.RegistryPairWasHad(cfg, states, events, j + 1, p);
    } else {
      ClientRuns.ClientsStay(cfg, states, events, j);
      ClientRuns.StartsNew(cfg, states, events, p);
      assert HasPair(states[0], GroundLaws.Held(p, 0.0, 0.0));
      assert ClockTheorems.Synced(states, events, 0, p) || !ClockTheorems.Synced(states, events, 0, p);
    }
  }

  /** An acknowledgement that closes an entry was built after the message was entered, and before it
      was taken, by the client that the message was for. */
  lemma ClosedIsTimed(cfg: Config, states: seq<System>, events: seq<Event>, j: nat) returns (k: nat, l: nat, x: GroundLaws.Held)
    requires IsRun(cfg, states, events) && j < |events| < |states| && Closes(states[j], events[j])
    ensures k < l < j && states[k].now <= states[l].now <= states[j].now && Timed(cfg, states, events, k, l, j, x)
    ensures AckTable.ClockPair(x.offsetMs, x.rttMs) == PairUsed(cfg, states[j], events[j])
  {
    hide IsRun, Do, ExchangeLaws.Exchanges, GroundLaws.Grounded, SafetyLaws.Wire, SafetyLaws.Tasks, SafetyLaws.Loops,
         SafetyLaws.AcceptedBacked, AckTable.TableInv, SafetyLaws.Backed, BuildsAck, InTables, EnteredAt, PairUsed, ClockTheorems.HadPair,
         EntryRuns.PairReported;
    var msg, p := events[j].msg, events[j].peer;
    StepOfRun(cfg, states, events, j);
    RunKeepsAll(cfg, states, events, j);
    SafetyLaws.AckIsBacked(states[j], p, msg);
    hide SafetyLaws.Safe;
    l := AckWasBuilt(cfg, states, events, j, p, msg);
    k := WasEntered(cfg, states, events, j, p, msg.body.replyTo);
    EnteredFirst(cfg, states, events, k, l, p, msg.body.replyTo, msg);
    RunGrows(cfg, states, events, l, j);
    PairUsedWasHad(cfg, states, events, j, p);
    var pair := PairUsed(cfg, states[j], events[j]);
    x := GroundLaws.Held(p, pair.offsetMs, pair.rttMs);
  }

  /** The step that added the n-th latency and receive delay. */
  lemma {:induction false} NthClosed(cfg: Config, states: seq<System>, events: seq<Event>, i: nat, n: nat) returns (j: nat)
    requires IsRun(cfg, states, events) && i <= |events| < |states| && n < |states[i].acks.latencies|
    ensures j < i && Closes(states[j], events[j]) && |states[i].acks.receiveDelays| > n
    ensures states[i].acks.latencies[n] == Latency(states[j], events[j])
    ensures states[i].acks.receiveDelays[n] == DelayTo(cfg, states[j], events[j], events[j].msg.body.receiveTs)
  {
    hide IsRun, InTables, Latency, DelayTo;
    if i == 0 {
      NothingMeasured(cfg, states, events);
    } else {
      DelaysAreCounted(cfg, states, events, i - 1);
      RunMeasures(cfg, states, events, i - 1);
      if n < |states[i - 1].acks.latencies| {
        j := NthClosed(cfg, states, events, i - 1, n);
      } else {
        j := i - 1;
      }
    }
  }

  /** The step that added the n-th apply delay. */
  lemma {:induction false} NthApplied(cfg: Config, states: seq<System>, events: seq<Event>, i: nat, n: nat) returns (j: nat)
    requires IsRun(cfg, states, events) && i <= |events| < |states| && n < |states[i].acks.applyDelays|
    ensures j < i && Closes(states[j], events[j]) && events[j].msg.body.applyTs.Some?
    ensures states[i].acks.applyDelays[n] == DelayTo(cfg, states[j], events[j], events[j].msg.body.applyTs.value)
  {
    hide IsRun, InTables, Latency, DelayTo;
    if i == 0 {
      NothingMeasured(cfg, states, events);
    } else {
      RunMeasures(cfg, states, events, i - 1);
      if n < |states[i - 1].acks.applyDelays| {
        j := NthApplied(cfg, states, events, i - 1, n);
      } else {
        j := i - 1;
      }
    }
  }

  /** How far a delay between steps k and l may be off: by half the round trip of the pair if it was
      had after a synchronisation, and by the client's whole offset if it was had before. */
  ghost predicate NearlyTrue(cfg: Config, states: seq<System>, events: seq<Event>, i: nat, ms: real, k: nat, l: nat, x: GroundLaws.Held)
    requires i <= |events| < |states| && k < |states| && l < |states|
  {
    && (ClockTheorems.HadPair(states, events, i, x, true) ==> Abs(ms - (states[l].now - states[k].now) * 1000.0) <= x.rttMs / 2.0)
    && (ClockTheorems.HadPair(states, events, i, x, false) ==>
          ms == Max(0.0, (states[l].now - states[k].now - cfg.trueOffset(x.peer)) * 1000.0))
  }

  lemma DelayIsNearlyTrue(cfg: Config, states: seq<System>, events: seq<Event>, i: nat, k: nat, l: nat, x: GroundLaws.Held)
    requires IsRun(cfg, states, events) && i <= |events| < |states| && k < |states| && l < |states| && states[k].now <= states[l].now
    ensures NearlyTrue(cfg, states, events, i, AckTable.DelayMs(LocalTime(cfg, states[l], x.peer) + x.offsetMs / 1000.0, states[k].now), k, l, x)
  {
    hide IsRun, ClockTheorems.HadPair;
    var theta, ts := cfg.trueOffset(x.peer), LocalTime(cfg, states[l], x.peer);
    if ClockTheorems.HadPair(states, events, i, x, true) {
      ClockTheorems.HadPairMeans(cfg, states, events, i, x, true);
      ClockLaws.DelayIsSound(theta, x.offsetMs, x.rttMs, ts, states[k].now);
    }
    if ClockTheorems.HadPair(states, events, i, x, false) {
      ClockTheorems.HadPairMeans(cfg, states, events, i, x, false);
    }
  }

  /** The n-th latency is the time from the step k that entered its message to the step j that took
      its acknowledgement. The n-th receive delay is, as nearly as the client's clock pair tells,
      the time from k to the step l in which the client built that acknowledgement. */
  lemma AcknowledgementIsTimed(cfg: Config, states: seq<System>, events: seq<Event>, i: nat, n: nat)
    returns (k: nat, l: nat, j: nat, x: GroundLaws.Held)
    requires IsRun(cfg, states, events) && i <= |events| < |states| && n < |states[i].acks.latencies|
    ensures k < l < j < i && Timed(cfg, states, events, k, l, j, x) && n < |states[i].acks.receiveDelays|
    ensures states[i].acks.latencies[n] == (states[j].now - states[k].now) * 1000.0
    ensures NearlyTrue(cfg, states, events, j + 1, states[i].acks.receiveDelays[n], k, l, x)
  {
    hide IsRun, ClockTheorems.HadPair, PairUsed, NearlyTrue, EntryRuns.PairReported;
    j := NthClosed(cfg, states, events, i, n);
    k, l, x := ClosedIsTimed(cfg, states, events, j);
    DelayIsNearlyTrue(cfg, states, events, j + 1, k, l, x);
  }

  /** The n-th apply delay is, as nearly as the client's clock pair tells, the time from the step k
      that entered its message to the step l in which the client's handlers for it returned. */
  lemma ApplyDelayIsTimed(cfg: Config, states: seq<System>, events: seq<Event>, i: nat, n: nat)
    returns (k: nat, l: nat, j: nat, x: GroundLaws.Held)
    requires IsRun(cfg, states, events) && i <= |events| < |states| && n < |states[i].acks.applyDelays|
    ensures k < l < j < i && Timed(cfg, states, events, k, l, j, x)
    ensures Histories.FinishesCommand(states[l], events[l], x.peer)
    ensures NearlyTrue(cfg, states, events, j + 1, states[i].acks.applyDelays[n], k, l, x)
  {
    hide IsRun, ClockTheorems.HadPair, PairUsed, NearlyTrue, EntryRuns.PairReported;
    j := NthApplied(cfg, states, events, i, n);
    k, l, x := ClosedIsTimed(cfg, states, events, j);
    DelayIsNearlyTrue(cfg, states, events, j + 1, k, l, x);
  }

  // ---------- the times of skews ----------

  /** In step j the server accepts x.peer's apply time for the command, and maps it with the pair
      that peer had last reported. */
  predicate Feeds(cfg: Config, states: seq<System>, events: seq<Event>, j: nat, c: CommandId, x: AckTable.ApplyTime)
    requires j < |events| < |states|
  {
    && Closes(states[j], events[j])
    && events[j].msg.body.receiver == x.peer && events[j].msg.body.applyTs == Some(x.applyTs)
    && states[j].acks.tracking[events[j].msg.body.replyTo].command == c
    && AckTable.ClockPair(x.offsetMs, x.rttMs) == EntryRuns.PairReported(cfg, states, events, j + 1, x.peer)
    && x.at == x.applyTs + x.offsetMs / 1000.0
  }

  /** A live group or a skew of the command has this time. */
  ghost predicate HasTime(t: AckTable.Table, c: CommandId, x: AckTable.ApplyTime) {
    || (c in t.groups && x in t.groups[c].applyTimes)
    || exists k :: 0 <= k < |t.skews| && t.skews[k].command == c && x in t.skews[k].times
  }

  lemma FeedTimes(t: AckTable.Table, c': CommandId, e: AckTable.ApplyTime, t': AckTable.Table, c: CommandId, x: AckTable.ApplyTime)
    requires t'.groups == AckTable.FeedGroup(t.groups, c', e) && t'.skews == AckTable.FeedSkews(t.skews, t.groups, c', e)
    requires HasTime(t', c, x)
    ensures HasTime(t, c, x) || (c == c' && x == e)
  {
    hide AckTable.Put, AckTable.Spread;
    if c' in t.groups && x in AckTable.Put(t.groups[c'].applyTimes, e) {
      GroundLaws.PutMembers(t.groups[c'].applyTimes, e);
    }
  }

  lemma SameTimes(t: AckTable.Table, t': AckTable.Table, c: CommandId, x: AckTable.ApplyTime)
    requires t'.groups == t.groups && t'.skews == t.skews && HasTime(t', c, x)
    ensures HasTime(t, c, x)
  {
  }

  lemma AcceptTimes(t: AckTable.Table, m: MsgId, p: Peer, reply: AckTable.Reply, clock: AckTable.ClockPair, now: real,
                    c: CommandId, x: AckTable.ApplyTime)
    requires AckTable.Key(m, p) in t.pending ==> m in t.tracking
    requires HasTime(AckTable.Accept(t, m, p, reply, clock, now), c, x)
    ensures HasTime(t, c, x)
            || (InTables(t, p, m) && reply.applyTs.Some? && t.tracking[m].command == c
                && x == AckTable.EntryFor(p, reply.applyTs.value, clock))
  {
    if AckTable.Key(m, p) in t.pending {
      hide AckTable.Accept, AckTable.EntryFor, HasTime;
      AckLaws.AcceptShape(t, m, p, reply, clock, now);
      var t' := AckTable.Accept(t, m, p, reply, clock, now);
      if reply.applyTs.Some? {
        FeedTimes(t, t.tracking[m].command, AckTable.EntryFor(p, reply.applyTs.value, clock), t', c, x);
      } else {
        SameTimes(t, t', c, x);
      }
    }
  }

  lemma ReceiveTimes(cfg: Config, s: System, e: Event, c: CommandId, x: AckTable.ApplyTime)
    requires SafetyLaws.Safe(cfg, s) && e.ServerReceive?
    requires HasTime(DoServerReceive(cfg, s, e.peer, e.msg, e.replyId).acks, c, x)
    ensures HasTime(s.acks, c, x)
            || (Closes(s, e) && e.msg.body.applyTs.Some? && s.acks.tracking[e.msg.body.replyTo].command == c
                && x == AckTable.EntryFor(e.msg.body.receiver, e.msg.body.applyTs.value, PairUsed(cfg, s, e)))
  {
    hide SafetyLaws.Safe, ServerReply, ClockOf, Registry.Handle, AckTable.Accept, HasTime, AckTable.EntryFor;
    if e.msg.body.Ack? {
      var b := e.msg.body;
      if AckTable.Key(b.replyTo, b.receiver) in s.acks.pending {
        PendingIsTracked(cfg, s, b.receiver, b.replyTo);
      }
      AcceptTimes(s.acks, b.replyTo, b.receiver, AckTable.Reply(b.receiveTs, b.applyTs), PairUsed(cfg, s, e), s.now, c, x);
    }
  }

  lemma StepTimes(cfg: Config, s: System, e: Event, c: CommandId, x: AckTable.ApplyTime)
    requires SafetyLaws.Safe(cfg, s) && Enabled(cfg, s, e) && HasTime(Do(cfg, s, e).acks, c, x)
    ensures HasTime(s.acks, c, x)
            || (Closes(s, e) && e.msg.body.applyTs.Some? && s.acks.tracking[e.msg.body.replyTo].command == c
                && x == AckTable.EntryFor(e.msg.body.receiver, e.msg.body.applyTs.value, PairUsed(cfg, s, e)))
  {
    hide SafetyLaws.Safe, DoServerReceive, NewTasks, AckTable.Overdue, PairUsed;
    if ClientMoves(e) {
      hide Do;
      ClientFrame(cfg, s, e);
    } else if !TouchesTable(e) {
      hide Do;
      TableFrame(cfg, s, e);
    } else if e.ServerReceive? {
      hide HasTime, Closes;
      ReceiveTimes(cfg, s, e, c, x);
    } else {
      hide Closes;
    }
  }

  /** Every apply time that a group or a skew of a command holds was accepted for that command, and
      mapped with the clock pair its peer had last reported at that moment. */
  lemma {:induction false} TimesAreMapped(cfg: Config, states: seq<System>, events: seq<Event>, i: nat, c: CommandId, x: AckTable.ApplyTime)
    returns (j: nat)
    requires IsRun(cfg, states, events) && i <= |events| < |states| && HasTime(states[i].acks, c, x)
    ensures j < i && Feeds(cfg, states, events, j, c, x)
  {
    hide IsRun, Do, SafetyLaws.Safe, ExchangeLaws.Exchanges, GroundLaws.Grounded, HasTime, InTables, PairUsed, EntryRuns.PairReported,
         ClockTheorems.HadPair, Enabled;
    if i == 0 {
      NoTimes(cfg, states, events, c, x);
    } else {
      var s, e := states[i - 1], events[i - 1];
      StepOfRun(cfg, states, events, i - 1);
      RunKeepsAll(cfg, states, events, i - 1);
      StepTimes(cfg, s, e, c, x);
      if HasTime(s.acks, c, x) {
        j := TimesAreMapped(cfg, states, events, i - 1, c, x);
      } else {
        j := i - 1;
        AckIsFromClient(cfg, s, e);
        PairUsedWasHad(cfg, states, events, i - 1, x.peer);
      }
    }
  }

  lemma AckIsFromClient(cfg: Config, s: System, e: Event)
    requires SafetyLaws.Safe(cfg, s) && Enabled(cfg, s, e) && e.ServerReceive? && e.msg.body.Ack?
    ensures e.msg.body.receiver == e.peer && e.peer in s.clients
  {
    hide SafetyLaws.Wire, SafetyLaws.Tasks, SafetyLaws.Loops, SafetyLaws.AcceptedBacked, AckTable.TableInv, SafetyLaws.Backed;
    SafetyLaws.AckIsBacked(s, e.peer, e.msg);
  }

  lemma NoTimes(cfg: Config, states: seq<System>, events: seq<Event>, c: CommandId, x: AckTable.ApplyTime)
    requires IsRun(cfg, states, events)
    ensures |states| > 0 && !HasTime(states[0].acks, c, x)
  {
    assert Init(states[0]);
  }
}

/** The main results: statements about every run of the control protocol. */
module RunTheorems {
  import opened Types
  import opened Messages
  import opened ClientLoop
  import opened Protocol
  import opened Theorems
  import AckTable
  import ClientRuns
  import Clock
  import Dedupe
  import DeliveryLaws
  import ExchangeLaws
  import GroundLaws
  import Histories
  import Ledgers
  import Registry
  import SafetyLaws
  import Sessions
  import StepShape

  // ---------- commands and acknowledgements ----------

  /** Every coroutine of the command has returned: gather completes without an exception. */
  ghost predicate ReturnedNormally(s: System, c: CommandId) {
    c in s.acks.commands && forall p :: p in s.acks.commands[c] ==>
      TaskKey(c, p) in s.tasks && s.tasks[TaskKey(c, p)].Returned?
  }

  /** In this step p's handlers for message m return. */
  predicate Finishes(s: System, e: Event, p: Peer, m: MsgId) {
    Histories.FinishesCommand(s, e, p) && s.clients[p].job.value.msg.id == m
  }

  /** p's handlers for m have returned in one of the first i steps. */
  ghost predicate HasFinished(states: seq<System>, events: seq<Event>, i: nat, p: Peer, m: MsgId)
    requires i <= |events| < |states|
  {
    exists k :: 0 <= k < i && Finishes(states[k], events[k], p, m)
  }

  /** m is a message of the command, and p has completed its handlers. */
  ghost predicate RanCommand(states: seq<System>, events: seq<Event>, i: nat, c: CommandId, p: Peer, m: MsgId)
    requires i <= |events| < |states|
  {
    && m in states[i].created && SafetyLaws.IsCommand(states[i].created[m], c)
    && p in states[i].clients && HasFinished(states, events, i, p, m)
  }

  /** An id a client records as completed has been finished in some step. */
  lemma RecordedHasFinished(cfg: Config, states: seq<System>, events: seq<Event>, i: nat, p: Peer, x: Completion)
    requires IsRun(cfg, states, events) && i <= |events| < |states|
    requires p in states[i].clients && x in states[i].clients[p].completed
    ensures exists k :: 0 <= k < i && Histories.Completes(cfg, states[k], events[k], p, x)
    ensures HasFinished(states, events, i, p, x.id)
  {
    hide IsRun;
    Histories.RecordHasStep(cfg, states, events, i, p, x);
    var k :| 0 <= k < i && Histories.Completes(cfg, states[k], events[k], p, x);
    assert Finishes(states[k], events[k], p, x.id);
  }

  /** m is a message of the command that p records as completed. */
  ghost predicate Recorded(s: System, c: CommandId, p: Peer, m: MsgId) {
    && m in s.created && SafetyLaws.IsCommand(s.created[m], c)
    && p in s.clients && m in CompletedIds(s.clients[p].completed)
  }

  lemma ReturnedMeansRun(cfg: Config, s: System, c: CommandId, p: Peer)
    requires SafetyLaws.Safe(cfg, s) && TaskKey(c, p) in s.tasks && s.tasks[TaskKey(c, p)].Returned?
    ensures Recorded(s, c, p, s.tasks[TaskKey(c, p)].m)
  {
    hide SafetyLaws.Wire, SafetyLaws.Loops, SafetyLaws.AcksBacked, AckTable.TableInv, LoopInv, SafetyLaws.Backed;
    var k := TaskKey(c, p);
    var m := s.tasks[k].m;
    SafetyLaws.Unpack(s.acks);
    hide AckTable.Fates, AckTable.Tracked, AckTable.OnePerPeer;
    assert SafetyLaws.TaskOk(k, s.tasks[k], s.acks.sends, s.acks.futures);
    assert m in s.acks.accepted;
    BackedIsCompleted(s.clients[p], m, s.acks.accepted[m]);
  }

  lemma BackedIsCompleted(c: Client, m: MsgId, ts: Option<real>)
    requires SafetyLaws.Backed(c, m, ts)
    ensures m in CompletedIds(c.completed)
  {
    var x :| x in c.completed && x.id == m;
    var i :| 0 <= i < |c.completed| && c.completed[i] == x;
    assert CompletedIds(c.completed)[i] == m;
  }

  /** End-to-end command safety: if the call that issued a command returns normally, every peer
      registered when it was issued has completed its handlers for that command. */
  lemma CommandReachesEveryone(cfg: Config, states: seq<System>, events: seq<Event>, i: nat, j: nat)
    requires IsRun(cfg, states, events) && i < j <= |events| < |states|
    requires events[i].Issue? && ReturnedNormally(states[j], events[i].command)
    ensures forall p :: p in states[i].registry ==>
              exists m :: RanCommand(states, events, j, events[i].command, p, m)
  {
    var c := events[i].command;
    assert Next(cfg, states[i], events[i], states[i + 1]);
    assert c in states[i + 1].acks.commands && states[i + 1].acks.commands[c] == states[i].registry.Keys;
    hide Init, Next, Enabled, Do, IsRun, TablePersists, SafetyLaws.Safe, HasFinished;
    RunPersists(cfg, states, events, i + 1, j);
    assert states[j].acks.commands[c] == states[i].registry.Keys by {
      CommandsPersist(states[i + 1].acks, states[j].acks, c);
    }
    RunKeepsAll(cfg, states, events, j);
    forall p | p in states[i].registry
      ensures exists m :: RanCommand(states, events, j, c, p, m)
    {
      ReturnedMeansRun(cfg, states[j], c, p);
      var m := states[j].tasks[TaskKey(c, p)].m;
      var n :| 0 <= n < |states[j].clients[p].completed| && CompletedIds(states[j].clients[p].completed)[n] == m;
      RecordedHasFinished(cfg, states, events, j, p, states[j].clients[p].completed[n]);
      assert RanCommand(states, events, j, c, p, m);
    }
  }

  /** m is the copy of the command that was sent to p; p has completed its handlers, has begun
      those of no other message of the command, and has run them once if and only if every
      redelivery of m stayed inside its duplicate filter's window. */
  ghost predicate RanOwnCopy(cfg: Config, states: seq<System>, events: seq<Event>, i: nat, c: CommandId, p: Peer, m: MsgId)
    requires i <= |events| < |states|
  {
    && RanCommand(states, events, i, c, p, m)
    && DeliveryLaws.OwnCopy(states[i].acks.sends, p, m, c)
    && OnlyCopy(states[i], Begun(cfg, states, events, i, p), c, m)
    && (Count(Begun(cfg, states, events, i, p), m) == 1 <==>
          StaysInWindow(Ids(Histories.Deliveries(events, i, p)), cfg.dedupCacheSize, m))
  }

  /** No other message of the command is among these. */
  ghost predicate OnlyCopy(s: System, begun: seq<MsgId>, c: CommandId, m: MsgId) {
    forall n :: n in begun && n in s.created && SafetyLaws.IsCommand(s.created[n], c) ==> n == m
  }

  /** End-to-end: a command that returned normally ran on every peer registered at its issue,
      under one message only, at least once, and exactly once where that stayed in the window. */
  lemma CommandRunsOnce(cfg: Config, states: seq<System>, events: seq<Event>, i: nat, j: nat)
    requires IsRun(cfg, states, events) && i < j <= |events| < |states|
    requires events[i].Issue? && ReturnedNormally(states[j], events[i].command)
    ensures forall p :: p in states[i].registry ==>
              exists m :: RanOwnCopy(cfg, states, events, j, events[i].command, p, m)
  {
    CommandReachesEveryone(cfg, states, events, i, j);
    hide IsRun, ReturnedNormally, RanCommand, RanOwnCopy;
    var c := events[i].command;
    forall p | p in states[i].registry
      ensures exists m :: RanOwnCopy(cfg, states, events, j, c, p, m)
    {
      var m :| RanCommand(states, events, j, c, p, m);
      RanIsOwnCopy(cfg, states, events, j, c, p, m);
    }
  }

  lemma RanIsOwnCopy(cfg: Config, states: seq<System>, events: seq<Event>, i: nat, c: CommandId, p: Peer, m: MsgId)
    requires IsRun(cfg, states, events) && i <= |events| < |states| && RanCommand(states, events, i, c, p, m)
    ensures RanOwnCopy(cfg, states, events, i, c, p, m)
  {
    hide IsRun, StaysInWindow, Count, SafetyLaws.Safe, ExchangeLaws.Exchanges, GroundLaws.Grounded, DeliveryLaws.Addressed;
    RunKeepsAll(cfg, states, events, i);
    DeliveryLaws.RunKeepsAddressed(cfg, states, events, i);
    FinishedWasBegun(cfg, states, events, i, p, m);
    hide HasFinished;
    BegunIsRecorded(cfg, states, events, i, p);
    ExactlyOnce(cfg, states, events, i, p, m);
    BegunIsOwn(cfg, states[i], c, p, m);
    var begun := Begun(cfg, states, events, i, p);
    forall n | n in begun && n in states[i].created && SafetyLaws.IsCommand(states[i].created[n], c)
      ensures n == m
    {
      BegunIsOwn(cfg, states[i], c, p, n);
      OneCopy(cfg, states[i], p, c, m, n);
    }
  }

  lemma FinishedWasBegun(cfg: Config, states: seq<System>, events: seq<Event>, i: nat, p: Peer, m: MsgId)
    requires i <= |events| < |states| && p in states[i].clients && HasFinished(states, events, i, p, m)
    ensures m in Begun(cfg, states, events, i, p)
  {
    var k :| 0 <= k < i && Finishes(states[k], events[k], p, m);
    var done := Histories.Completions(cfg, states, events, i, p);
    Histories.StepIsInCompletions(cfg, states, events, i, p, k);
    var n :| 0 <= n < |done| && done[n] == Histories.CompletionAt(cfg, states[k], events[k], p);
    assert CompletedIds(done)[n] == m;
  }

  /** A message of the command that p has begun is p's own copy. */
  lemma BegunIsOwn(cfg: Config, s: System, c: CommandId, p: Peer, m: MsgId)
    requires SafetyLaws.Safe(cfg, s) && DeliveryLaws.Addressed(s) && p in s.clients && m in RecordedBegun(s.clients[p])
    requires m in s.created && SafetyLaws.IsCommand(s.created[m], c)
    ensures DeliveryLaws.OwnCopy(s.acks.sends, p, m, c)
  {
    hide SafetyLaws.Safe, DeliveryLaws.Addressed, RecordedBegun;
    BegunWasDelivered(cfg, s, p, m);
    DeliveredWasSent(s, p, m);
    SentIsCommand(cfg, s, m);
  }

  lemma DeliveredWasSent(s: System, p: Peer, m: MsgId)
    requires DeliveryLaws.Addressed(s) && p in s.clients && Delivery(m, true) in s.clients[p].delivered
    ensures m in s.acks.sends && s.acks.sends[m].peer == p
  {
    assert DeliveryLaws.DeliveredOwn(p, s.clients[p], s.acks.sends);
    hide DeliveryLaws.Addressed;
  }

  lemma SentIsCommand(cfg: Config, s: System, m: MsgId)
    requires SafetyLaws.Safe(cfg, s) && m in s.acks.sends
    ensures m in s.created && SafetyLaws.IsCommand(s.created[m], s.acks.sends[m].command)
  {
    hide SafetyLaws.Wire, SafetyLaws.Loops, SafetyLaws.AcksBacked, SafetyLaws.AcceptedBacked, AckTable.TableInv, SafetyLaws.TaskOk;
  }

  lemma BegunWasDelivered(cfg: Config, s: System, p: Peer, m: MsgId)
    requires SafetyLaws.Safe(cfg, s) && p in s.clients && m in RecordedBegun(s.clients[p])
    ensures Delivery(m, true) in s.clients[p].delivered
  {
    hide AckTable.TableInv, SafetyLaws.Wire, SafetyLaws.Tasks, SafetyLaws.AcksBacked, SafetyLaws.AcceptedBacked;
    var c := s.clients[p];
    assert LoopInv(c, cfg.dedupCacheSize);
    hide SafetyLaws.Safe, SafetyLaws.Loops;
    RunsWereDelivered(c.delivered, cfg.dedupCacheSize, m);
  }

  lemma OneCopy(cfg: Config, s: System, p: Peer, c: CommandId, m: MsgId, n: MsgId)
    requires SafetyLaws.Safe(cfg, s)
    requires DeliveryLaws.OwnCopy(s.acks.sends, p, m, c) && DeliveryLaws.OwnCopy(s.acks.sends, p, n, c)
    ensures m == n
  {
    hide SafetyLaws.Wire, SafetyLaws.Tasks, SafetyLaws.Loops, SafetyLaws.AcksBacked, SafetyLaws.AcceptedBacked;
    SafetyLaws.Unpack(s.acks);
    hide AckTable.TableInv, SafetyLaws.Safe;
  }

  lemma CommandsPersist(t: AckTable.Table, t': AckTable.Table, c: CommandId)
    requires TablePersists(t, t') && c in t.commands
    ensures c in t'.commands && t'.commands[c] == t.commands[c]
  {
  }

  /** The runs of handlers that p has begun for ack-required messages, in order: those the run let
      it complete and the one in progress. */
  function Begun(cfg: Config, states: seq<System>, events: seq<Event>, i: nat, p: Peer): seq<MsgId>
    requires i <= |events| < |states| && p in states[i].clients
  {
    CompletedIds(Histories.Completions(cfg, states, events, i, p)) + InProgress(states[i].clients[p])
  }

  function RecordedBegun(c: Client): seq<MsgId> {
    CompletedIds(c.completed) + InProgress(c)
  }

  lemma BegunIsRecorded(cfg: Config, states: seq<System>, events: seq<Event>, i: nat, p: Peer)
    requires IsRun(cfg, states, events) && i <= |events| < |states| && p in states[i].clients
    ensures Begun(cfg, states, events, i, p) == RecordedBegun(states[i].clients[p])
    ensures states[i].clients[p].delivered == Histories.Deliveries(events, i, p)
  {
    hide IsRun;
    Histories.RecordsAreReal(cfg, states, events, i, p);
  }

  /** A command a client has begun has been begun exactly once, if and only if each redelivery of
      it came while fewer than the cache size of other ids had arrived. */
  lemma ExactlyOnce(cfg: Config, states: seq<System>, events: seq<Event>, i: nat, p: Peer, m: MsgId)
    requires IsRun(cfg, states, events) && i <= |events| < |states|
    requires p in states[i].clients && m in Begun(cfg, states, events, i, p)
    ensures var begun := Begun(cfg, states, events, i, p);
      && Count(begun, m) >= 1
      && (Count(begun, m) == 1 <==> StaysInWindow(Ids(Histories.Deliveries(events, i, p)), cfg.dedupCacheSize, m))
  {
    hide IsRun, SafetyLaws.Safe, ExchangeLaws.Exchanges, GroundLaws.Grounded, Begun, Count, StaysInWindow;
    RunKeepsAll(cfg, states, events, i);
    BegunIsRecorded(cfg, states, events, i, p);
    BegunOnce(cfg, states[i], p, m);
  }

  lemma BegunOnce(cfg: Config, s: System, p: Peer, m: MsgId)
    requires SafetyLaws.Safe(cfg, s) && p in s.clients && m in RecordedBegun(s.clients[p])
    ensures var c := s.clients[p];
      && Count(RecordedBegun(c), m) >= 1
      && (Count(RecordedBegun(c), m) == 1 <==> StaysInWindow(Ids(c.delivered), cfg.dedupCacheSize, m))
  {
    hide AckTable.TableInv, SafetyLaws.Wire, SafetyLaws.Tasks, SafetyLaws.AcksBacked, SafetyLaws.AcceptedBacked, StaysInWindow, Count;
    var c := s.clients[p];
    assert LoopInv(c, cfg.dedupCacheSize) && SafetyLaws.Genuine(c, s.created);
    RunsWereDelivered(c.delivered, cfg.dedupCacheSize, m);
    assert Consistent(c.delivered);
    hide SafetyLaws.Safe, SafetyLaws.Loops, SafetyLaws.Genuine;
    ExactlyOnceIffWindow(c.delivered, cfg.dedupCacheSize, m);
  }

  lemma {:induction false} RunsWereDelivered(d: seq<Delivery>, maxSize: int, m: MsgId)
    requires m in Runs(d, maxSize)
    ensures Delivery(m, true) in d
  {
    var before, last := d[..|d| - 1], d[|d| - 1];
    if m in Runs(before, maxSize) {
      RunsWereDelivered(before, maxSize, m);
    } else {
      assert last == Delivery(m, true);
    }
  }

  /** p's handlers for m have returned in one of the first i steps, at local time ts if it is
      given. */
  ghost predicate HasFinishedAt(cfg: Config, states: seq<System>, events: seq<Event>, i: nat, p: Peer, m: MsgId, ts: Option<real>)
    requires i <= |events| < |states|
  {
    && HasFinished(states, events, i, p, m)
    && (ts.Some? ==> exists k :: 0 <= k < i && Histories.Completes(cfg, states[k], events[k], p, Completion(m, ts.value)))
  }

  lemma BackedHasFinished(cfg: Config, states: seq<System>, events: seq<Event>, i: nat, p: Peer, m: MsgId, ts: Option<real>)
    requires IsRun(cfg, states, events) && i <= |events| < |states|
    requires p in states[i].clients && SafetyLaws.Backed(states[i].clients[p], m, ts)
    ensures HasFinishedAt(cfg, states, events, i, p, m, ts)
  {
    hide IsRun;
    var x :| x in states[i].clients[p].completed && x.id == m;
    RecordedHasFinished(cfg, states, events, i, p, x);
    if ts.Some? {
      RecordedHasFinished(cfg, states, events, i, p, Completion(m, ts.value));
    }
  }

  /** No acknowledgement is ever on the network of a command before its sender's handlers have
      returned, and the server has accepted none either; the apply time of both is the sender's
      local time at such a return. */
  lemma NoAckBeforeHandlers(cfg: Config, states: seq<System>, events: seq<Event>, i: nat)
    requires IsRun(cfg, states, events) && i <= |events| < |states|
    ensures forall p, msg :: ToServer(p, msg) in states[i].net && msg.body.Ack? ==>
              HasFinishedAt(cfg, states, events, i, p, msg.body.replyTo, msg.body.applyTs)
    ensures forall m :: m in states[i].acks.accepted ==>
              && m in states[i].acks.sends
              && HasFinishedAt(cfg, states, events, i, states[i].acks.sends[m].peer, m, states[i].acks.accepted[m])
  {
    hide Init, Next, Enabled, Do, IsRun, AckTable.TableInv, SafetyLaws.Wire, SafetyLaws.Tasks, SafetyLaws.AcksBacked,
         SafetyLaws.Loops, GroundLaws.Grounded, ExchangeLaws.Exchanges, SafetyLaws.Backed, HasFinishedAt;
    RunKeepsAll(cfg, states, events, i);
    forall p, msg | ToServer(p, msg) in states[i].net && msg.body.Ack?
      ensures HasFinishedAt(cfg, states, events, i, p, msg.body.replyTo, msg.body.applyTs)
    {
      SafetyLaws.AckIsBacked(states[i], p, msg);
      BackedHasFinished(cfg, states, events, i, p, msg.body.replyTo, msg.body.applyTs);
    }
    var t := states[i].acks;
    forall m | m in t.accepted
      ensures m in t.sends && HasFinishedAt(cfg, states, events, i, t.sends[m].peer, m, t.accepted[m])
    {
      BackedHasFinished(cfg, states, events, i, t.sends[m].peer, m, t.accepted[m]);
    }
  }

  /** Every delivery of a command is acknowledged exactly once: the acknowledgements a client has
      built, with the command it is working on, answer exactly the ack-required messages that
      were delivered to it, repeats included, in order; and for each message it has built as many
      acknowledgement packets, with different ids, all of them put on the network. */
  lemma EveryDeliveryIsAcked(cfg: Config, states: seq<System>, events: seq<Event>, i: nat, p: Peer)
    requires IsRun(cfg, states, events) && i <= |events| < |states| && p in states[i].clients
    ensures var s, acked, asked := states[i], Histories.Acked(states, events, i, p), AckDeliveries(Histories.Deliveries(events, i, p));
      && acked + InProgress(s.clients[p]) == asked
      && (forall m :: |DeliveryLaws.AckIds(s.created, p, m)| == Count(acked, m))
      && (forall m, id :: id in DeliveryLaws.AckIds(s.created, p, m) ==> ToServer(p, s.created[id]) in s.net)
  {
    AckedInOrder(cfg, states, events, i, p);
    hide IsRun, AckDeliveries, Count, InProgress;
    Histories.RecordsAreReal(cfg, states, events, i, p);
    DeliveryLaws.RunKeepsPosted(cfg, states, events, i);
    assert DeliveryLaws.AcksCounted(p, states[i].clients[p], states[i].created);
  }

  lemma AckedInOrder(cfg: Config, states: seq<System>, events: seq<Event>, i: nat, p: Peer)
    requires IsRun(cfg, states, events) && i < |states| && p in states[i].clients
    ensures var c := states[i].clients[p]; c.acked + InProgress(c) == AckDeliveries(c.delivered)
  {
    hide Init, Next, Enabled, Do, IsRun, AckTable.TableInv, SafetyLaws.Wire, SafetyLaws.Tasks, SafetyLaws.AcksBacked,
         SafetyLaws.AcceptedBacked, GroundLaws.Grounded, ExchangeLaws.Exchanges, AckDeliveries, SafetyLaws.Genuine;
    RunKeepsAll(cfg, states, events, i);
  }

  /** Fates, conservation, group accounting and skew counts hold in every state, whatever the
      network does; the sends, commands, accepted and expired messages they speak of are those of
      the run's steps. */
  lemma AcksAreAccounted(cfg: Config, states: seq<System>, events: seq<Event>, i: nat)
    requires IsRun(cfg, states, events) && i <= |events| < |states|
    ensures Accounted(states[i].acks)
    ensures var t := states[i].acks;
      && t.sends == Ledgers.Sends(events, i) && t.commands == Ledgers.Commands(states, events, i)
      && Ledgers.Fate(t.accepted, t.expired) == Ledgers.Fates(cfg, states, events, i)
  {
    hide IsRun, Accounted;
    TableIsAccounted(cfg, states, events, i);
    Ledgers.LedgersAreReal(cfg, states, events, i);
  }

  ghost predicate Accounted(t: AckTable.Table) {
    && AckTable.Fates(t.pending, t.sends, t.accepted, t.expired)
    && AckTable.Tracked(t.tracking, t.sends, t.accepted)
    && AckTable.Conserved(t)
    && AckTable.FuturesFollow(t.futures, t.sends, t.accepted)
    && AckTable.OnePerPeer(t.sends, t.commands)
    && AckTable.GroupsExact(t.groups, t.commands, AckTable.AppliedMap(t))
    && AckTable.SkewsCounted(t.skews, AckTable.AppliedMap(t))
  }

  lemma TableIsAccounted(cfg: Config, states: seq<System>, events: seq<Event>, i: nat)
    requires IsRun(cfg, states, events) && i < |states|
    ensures Accounted(states[i].acks)
  {
    hide Init, Next, Enabled, Do, IsRun, AckTable.Fates, AckTable.Tracked, AckTable.Conserved, AckTable.FuturesFollow,
         AckTable.OnePerPeer, AckTable.GroupsExact, AckTable.SkewsCounted, AckTable.AppliedMap, AckTable.LastSkews,
         AckTable.SkewsAreSpreads, SafetyLaws.Wire, SafetyLaws.Tasks, SafetyLaws.AcksBacked, SafetyLaws.AcceptedBacked,
         SafetyLaws.Loops, GroundLaws.Grounded, ExchangeLaws.Exchanges;
    RunKeepsAll(cfg, states, events, i);
  }

  /** A future that has a value or was given up is never revised, however many acknowledgements
      arrive late or twice. */
  lemma FuturesSettleOnce(cfg: Config, states: seq<System>, events: seq<Event>, i: nat, j: nat, m: MsgId)
    requires IsRun(cfg, states, events) && i <= j < |states|
    requires m in states[i].acks.futures && !states[i].acks.futures[m].Waiting?
    ensures m in states[j].acks.futures && states[j].acks.futures[m] == states[i].acks.futures[m]
  {
    hide Init, Next, Enabled, Do, IsRun, ClientsPersist;
    RunPersists(cfg, states, events, i, j);
  }

  // ---------- requests, replies and snapshots ----------

  /** The reply a coroutine in `_exchange` resumes with answers its own request, with a type that
      request expects: the unexpected-response error cannot occur. It is the only reply the
      request will ever get. */
  lemma RepliesMatchRequests(cfg: Config, states: seq<System>, events: seq<Event>, i: nat, j: nat, p: Peer, r: MsgId)
    requires IsRun(cfg, states, events) && i <= j < |states|
    requires p in states[i].clients && r in states[i].clients[p].answers
    ensures AnswersOwnRequest(states[i].clients[p].answers[r], r, states[i].created)
    ensures p in states[j].clients && OnlyReply(states[j].clients[p], r, states[i].clients[p].answers[r].reply)
  {
    hide Init, Next, Enabled, Do, IsRun, SafetyLaws.Safe, GroundLaws.Grounded, ExchangeLaws.RepliesOk, TablePersists,
         ExchangeLaws.ExchangeOk, AnswersOwnRequest, OnlyReply, ClientsPersist;
    RunKeepsAll(cfg, states, events, i);
    RunKeepsAll(cfg, states, events, j);
    RunPersists(cfg, states, events, i, j);
    assert ExchangeLaws.ExchangeOk(states[i].clients[p], states[i].created);
    AnswerIsOwn(states[i].clients[p], r, states[i].created);
    RepliesOf(states[i].clients, states[j].clients, p);
    assert ExchangeLaws.ExchangeOk(states[j].clients[p], states[j].created);
    ReplyIsOnly(states[i].clients[p], states[j].clients[p], r, states[i].created, states[j].created);
  }

  /** The answer replies to request r, with a type that request expects, and is handed to the
      coroutine that made it. */
  ghost predicate AnswersOwnRequest(a: Answer, r: MsgId, created: map<MsgId, Message>) {
    && a.reply.replyTo == Some(r)
    && r in created && ExchangeLaws.Expected(created[r].body, a.reply.body)
    && RequestOf(created[r].body) == a.request
  }

  /** The request has been completed with this reply, and no longer waits for another. */
  ghost predicate OnlyReply(c: Client, r: MsgId, reply: Message) {
    r in c.replies && c.replies[r] == reply && r !in c.responses
  }

  lemma AnswerIsOwn(c: Client, r: MsgId, created: map<MsgId, Message>)
    requires ExchangeLaws.ExchangeOk(c, created) && r in c.answers
    ensures AnswersOwnRequest(c.answers[r], r, created)
  {
  }

  lemma RepliesOf(clients: map<Peer, Client>, clients': map<Peer, Client>, p: Peer)
    requires ClientsPersist(clients, clients') && p in clients
    ensures p in clients' && RepliesPersist(clients[p], clients'[p])
  {
    hide RepliesPersist;
  }

  lemma ReplyIsOnly(c: Client, c': Client, r: MsgId, created: map<MsgId, Message>, created': map<MsgId, Message>)
    requires ExchangeLaws.ExchangeOk(c, created) && ExchangeLaws.ExchangeOk(c', created')
    requires RepliesPersist(c, c') && r in c.answers
    ensures OnlyReply(c', r, c.answers[r].reply)
  {
    hide ExchangeLaws.AnswersTo;
  }

  /** A request has an answer to resume with only if it had one or was waiting, and none once it has
      resumed. */
  lemma MovedAnswerKeys(cfg: Config, s: System, e: Event, p: Peer, r: MsgId)
    requires Enabled(cfg, s, e) && p in s.clients
    ensures var c, c' := s.clients[p], StepShape.Moved(cfg, s, e, p);
      && (r in c'.answers ==> r in c.answers || r in c.responses)
      && (e == ResumeExchange(p, r) ==> r in c.answers && r !in c'.answers)
  {
    hide LocalTime, Dedupe.Touch, StartJob, Clock.LocalForServer, Clock.SampleOf;
  }

  lemma AnsweredIsOver(c: Client, created: map<MsgId, Message>, r: MsgId)
    requires ExchangeLaws.ExchangeOk(c, created)
    ensures r in c.answers ==> r in c.replies
    ensures r in c.replies ==> r !in c.responses
  {
    hide ExchangeLaws.AnswersTo;
  }

  lemma {:induction false} ResumedIsOver(cfg: Config, states: seq<System>, events: seq<Event>, k: nat, i: nat, p: Peer, r: MsgId)
    requires IsRun(cfg, states, events) && k < i <= |events| < |states| && events[k] == ResumeExchange(p, r)
    ensures p in states[i].clients && r in states[i].clients[p].replies && r !in states[i].clients[p].answers
    decreases i
  {
    hide IsRun, Enabled, Do, StepShape.Moved, ExchangeLaws.ExchangeOk, SafetyLaws.Safe, GroundLaws.Grounded, ExchangeLaws.RepliesOk;
    ClientRuns.ClientsStay(cfg, states, events, i);
    ClientRuns.ClientsStay(cfg, states, events, i - 1);
    StepOfRun(cfg, states, events, i - 1);
    if i > k + 1 {
      ResumedIsOver(cfg, states, events, k, i - 1, p, r);
    } else {
      ResumesOwn(cfg, states[k], events[k]);
    }
    RunKeepsAll(cfg, states, events, i - 1);
    AnsweredIsOver(states[i - 1].clients[p], states[i - 1].created, r);
    ClientRuns.StepMoves(cfg, states, events, i - 1, p);
    MovedAnswerKeys(cfg, states[i - 1], events[i - 1], p, r);
    OneStepPersists(cfg, states, events, i - 1);
  }

  lemma ResumesOwn(cfg: Config, s: System, e: Event)
    requires Enabled(cfg, s, e) && e.ResumeExchange?
    ensures e.peer in s.clients && e.request in s.clients[e.peer].answers
  {
  }

  /** No request resumes twice. */
  lemma RequestsResumeOnce(cfg: Config, states: seq<System>, events: seq<Event>, k: nat, j: nat, p: Peer, r: MsgId)
    requires IsRun(cfg, states, events) && k < j < |events| < |states| && events[k] == ResumeExchange(p, r)
    ensures events[j] != ResumeExchange(p, r)
  {
    hide IsRun, Enabled, Do;
    if events[j] == ResumeExchange(p, r) {
      StepOfRun(cfg, states, events, j);
      ResumesOwn(cfg, states[j], events[j]);
      ResumedIsOver(cfg, states, events, k, j, p, r);
    }
  }

  /** A client's session is the initial one until its first accepted registration resumes. From
      then on it is, whole, the server's session at the very step in which the server accepted
      the last of these registrations. */
  lemma SnapshotIsServersSession(cfg: Config, states: seq<System>, events: seq<Event>, i: nat, p: Peer)
    requires IsRun(cfg, states, events) && i <= |events| < |states| && p in states[i].clients
    ensures match ClientRuns.LastJoin(states, events, i, p)
            case None => states[i].clients[p].session == Sessions.INITIAL
            case Some(j) =>
              var reply := ClientRuns.Answered(states[j], events[j], p).reply;
              exists k :: 0 <= k < j && ClientRuns.AcceptsWithSession(cfg, states[k], events[k], reply)
                          && states[i].clients[p].session == states[k].session
  {
    hide IsRun, ClientRuns.Joins, ClientRuns.AcceptsWithSession;
    ClientRuns.SessionIsLastSnapshot(cfg, states, events, i, p);
    match ClientRuns.LastJoin(states, events, i, p)
    case None =>
    case Some(j) =>
      assert ClientRuns.Joins(states[j], events[j], p);
      JoinOrigin(cfg, states, events, j, p);
  }

  lemma JoinOrigin(cfg: Config, states: seq<System>, events: seq<Event>, j: nat, p: Peer)
    requires IsRun(cfg, states, events) && j < |events| < |states| && ClientRuns.Joins(states[j], events[j], p)
    ensures var reply := ClientRuns.Answered(states[j], events[j], p).reply;
      exists k :: 0 <= k < j && ClientRuns.AcceptsWithSession(cfg, states[k], events[k], reply)
                  && ClientRuns.SnapshotAt(states[j], events[j], p) == states[k].session
  {
    hide IsRun;
    var reply := ClientRuns.Answered(states[j], events[j], p).reply;
    ClientRuns.AnswersAreBuilt(cfg, states, events, j, p);
    ClientRuns.SnapshotOrigin(cfg, states, events, j, reply.id);
    var k :| 0 <= k < j && ClientRuns.AcceptsWithSession(cfg, states[k], events[k], states[j].created[reply.id]);
    assert ClientRuns.AcceptsWithSession(cfg, states[k], events[k], reply);
  }

  // ---------- skews ----------

  /** The skew is made of the apply times of exactly the peers that have reported one for its
      command in this state, one of each. */
  ghost predicate SkewIsWhole(s: System, skew: AckTable.Skew) {
    && AckTable.DistinctPeers(skew.times)
    && AckTable.PeersOf(skew.times) == AckTable.Applied(s.acks.sends, s.acks.accepted, skew.command)
  }

  /** Every skew was, in the state in which it was first reported, made of the apply times of all
      peers that had reported one by then. */
  lemma {:induction false} SkewsAreWhole(cfg: Config, states: seq<System>, events: seq<Event>, i: nat, k: nat)
    requires IsRun(cfg, states, events) && i < |states| && k < |states[i].acks.skews|
    ensures exists j :: 0 < j <= i && |states[j - 1].acks.skews| == k < |states[j].acks.skews|
              && states[j].acks.skews[k] == states[i].acks.skews[k] && SkewIsWhole(states[j], states[i].acks.skews[k])
  {
    hide IsRun, Init, Next, Enabled, Do, SkewIsWhole, TablePersists;
    RunShape(cfg, states, events);
    if i == 0 {
      NoSkewsAtFirst(cfg, states, events);
    } else {
      OneStepAddsSkew(cfg, states, events, i);
      if k < |states[i - 1].acks.skews| {
        SkewsAreWhole(cfg, states, events, i - 1, k);
      } else {
        LastSkewIsWhole(cfg, states, events, i);
      }
    }
  }

  /** The skew reported last is made of the apply times of all peers that have reported one. */
  lemma LastSkewIsWhole(cfg: Config, states: seq<System>, events: seq<Event>, i: nat)
    requires IsRun(cfg, states, events) && i < |states| && states[i].acks.skews != []
    ensures SkewIsWhole(states[i], states[i].acks.skews[|states[i].acks.skews| - 1])
  {
    hide IsRun, AckTable.Fates, AckTable.Tracked, AckTable.Conserved, AckTable.FuturesFollow, AckTable.OnePerPeer,
         AckTable.GroupsExact, AckTable.SkewsCounted, AckTable.AppliedMap, SkewIsWhole;
    TableIsAccounted(cfg, states, events, i);
    LastIsWhole(states[i]);
  }

  lemma LastIsWhole(s: System)
    requires AckTable.SkewsCounted(s.acks.skews, AckTable.AppliedMap(s.acks)) && s.acks.skews != []
    ensures SkewIsWhole(s, s.acks.skews[|s.acks.skews| - 1])
  {
    hide AckTable.SkewCount, AckTable.PeersOf, AckTable.DistinctPeers, AckTable.Applied;
    var skews := s.acks.skews;
    var x := skews[|skews| - 1];
    var mine := AckTable.SkewsOf(skews, x.command);
    assert mine != [] && mine[|mine| - 1] == x;
    assert x.command in AckTable.AppliedMap(s.acks);
    assert AckTable.MadeOf(mine, AckTable.AppliedMap(s.acks)[x.command]);
  }

  /** A command to two or more peers, all of which have reported, has a last skew made of the
      apply times of all of them. */
  lemma CompleteSkewCoversAll(cfg: Config, states: seq<System>, events: seq<Event>, i: nat, c: CommandId)
    requires IsRun(cfg, states, events) && i < |states| && c in states[i].acks.commands
    requires c !in states[i].acks.groups && |states[i].acks.commands[c]| >= 2
    ensures var skews := AckTable.SkewsOf(states[i].acks.skews, c);
      && |skews| == |states[i].acks.commands[c]| - 1
      && AckTable.PeersOf(skews[|skews| - 1].times) == states[i].acks.commands[c]
      && AckTable.DistinctPeers(skews[|skews| - 1].times)
  {
    hide IsRun, AckTable.Fates, AckTable.Tracked, AckTable.Conserved, AckTable.FuturesFollow, AckTable.OnePerPeer,
         AckTable.Applied, AckTable.PeersOf, AckTable.DistinctPeers, AckTable.GroupExact, AckTable.NeverDecreases, AckTable.SkewsOf;
    TableIsAccounted(cfg, states, events, i);
    assert AckTable.MadeOf(AckTable.SkewsOf(states[i].acks.skews, c), AckTable.AppliedMap(states[i].acks)[c]);
  }

  lemma NoSkewsAtFirst(cfg: Config, states: seq<System>, events: seq<Event>)
    requires IsRun(cfg, states, events)
    ensures states[0].acks.skews == []
  {
    assert Init(states[0]);
  }

  /** A step reports at most one skew. */
  lemma OneStepAddsSkew(cfg: Config, states: seq<System>, events: seq<Event>, i: nat)
    requires IsRun(cfg, states, events) && 0 < i <= |events| < |states|
    ensures states[i - 1].acks.skews <= states[i].acks.skews
    ensures |states[i].acks.skews| <= |states[i - 1].acks.skews| + 1
  {
    hide IsRun, Init, Enabled, Do;
    StepOfRun(cfg, states, events, i - 1);
    StepAddsSkew(cfg, states[i - 1], events[i - 1]);
  }

  lemma StepAddsSkew(cfg: Config, s: System, e: Event)
    requires Enabled(cfg, s, e)
    ensures s.acks.skews <= Do(cfg, s, e).acks.skews && |Do(cfg, s, e).acks.skews| <= |s.acks.skews| + 1
  {
    hide DoServerReceive, NewTasks, AckTable.Overdue;
    if ClientMoves(e) {
      hide Do;
      ClientFrame(cfg, s, e);
    } else if !TouchesTable(e) {
      hide Do;
      TableFrame(cfg, s, e);
    } else if e.ServerReceive? {
      ReceiveAddsSkew(cfg, s, e.peer, e.msg, e.replyId);
    }
  }

  lemma ReceiveAddsSkew(cfg: Config, s: System, p: Peer, msg: Message, replyId: MsgId)
    ensures var s' := DoServerReceive(cfg, s, p, msg, replyId);
            s.acks.skews <= s'.acks.skews && |s'.acks.skews| <= |s.acks.skews| + 1
  {
    hide ServerReply, ClockOf, Registry.Handle, AckTable.Accept;
    if msg.body.Ack? {
      var registry := Registry.Handle(s.registry, p, msg.body, s.now, cfg.policy);
      AcceptAddsSkew(s.acks, msg.body.replyTo, msg.body.receiver, AckTable.Reply(msg.body.receiveTs, msg.body.applyTs),
                     ClockOf(registry, msg.body.receiver), s.now);
    }
  }
}

/** What a client does with each message delivered to it: which ones it works on, in which order,
    and when their handlers begin. */
module WorkRuns {
  import opened Types
  import opened Messages
  import opened ClientLoop
  import opened Protocol
  import opened StepShape
  import AckTable
  import ClientRuns
  import Clock
  import Dedupe
  import ExchangeLaws
  import GroundLaws
  import Histories
  import SafetyLaws
  import Theorems
  import TrialRuns

  // ---------- read off the run ----------

  /** The requests p has made in the first i steps and that no message delivered to it replies to. */
  function Waiting(events: seq<Event>, i: nat, p: Peer): set<MsgId>
    requires i <= |events|
  {
    if i == 0 then {}
    else
      var before, e := Waiting(events, i - 1, p), events[i - 1];
      if e.SendRequest? && e.peer == p then before + {e.id}
      else if Histories.Arrives(e, p) && e.msg.replyTo.Some? then before - {e.msg.replyTo.value}
      else before
  }

  /** The id was delivered before, and fewer than maxSize different ids since. */
  predicate SeenLately(ids: seq<MsgId>, maxSize: int, m: MsgId) {
    m in ids && |Dedupe.IdSet(ids[Dedupe.LastIndex(ids, m) + 1..])| < maxSize
  }

  /** In step k a command is delivered to p again. */
  predicate Repeats(cfg: Config, events: seq<Event>, k: nat, p: Peer)
    requires k < |events|
  {
    && Histories.Arrives(events[k], p) && events[k].msg.requiresAck
    && SeenLately(Ids(Histories.Deliveries(events, k, p)), cfg.dedupCacheSize, events[k].msg.id)
  }

  /** In step k a reply to a waiting request is delivered to p. */
  predicate RepliesTo(events: seq<Event>, k: nat, p: Peer)
    requires k < |events|
  {
    && Histories.Arrives(events[k], p)
    && events[k].msg.replyTo.Some? && events[k].msg.replyTo.value in Waiting(events, k, p)
  }

  /** In step k any other message is delivered to p. */
  predicate Work(cfg: Config, events: seq<Event>, k: nat, p: Peer)
    requires k < |events|
  {
    Histories.Arrives(events[k], p) && !Repeats(cfg, events, k, p) && !RepliesTo(events, k, p)
  }

  /** These messages, in order. */
  function Assigned(cfg: Config, events: seq<Event>, i: nat, p: Peer): seq<Message>
    requires i <= |events|
  {
    if i == 0 then []
    else Assigned(cfg, events, i - 1, p) + if Work(cfg, events, i - 1, p) then [events[i - 1].msg] else []
  }

  /** The handlers of a message are running. */
  predicate Handles(c: Client) {
    c.job.Some? && c.job.value.phase.Handling?
  }

  /** The messages whose handlers began to run in the first i steps, in order. */
  function Begun(states: seq<System>, i: nat, p: Peer): seq<Message>
    requires i < |states|
  {
    if i == 0 then []
    else
      var s, s' := states[i - 1], states[i];
      Begun(states, i - 1, p) +
      if p in s.clients && p in s'.clients && !Handles(s.clients[p]) && Handles(s'.clients[p]) then [s'.clients[p].job.value.msg]
      else []
  }

  /** The messages whose handlers returned in the first i steps, in order. */
  function Finished(states: seq<System>, events: seq<Event>, i: nat, p: Peer): seq<Message>
    requires i <= |events| < |states|
  {
    if i == 0 then []
    else
      var s, e := states[i - 1], events[i - 1];
      Finished(states, events, i - 1, p) +
      if e.FinishJob? && e.peer == p && p in s.clients && s.clients[p].job.Some? then [s.clients[p].job.value.msg] else []
  }

  function InHand(c: Client): seq<Message> {
    if c.job.Some? then [c.job.value.msg] else []
  }

  function Running(c: Client): seq<Message> {
    if Handles(c) then [c.job.value.msg] else []
  }

  // ---------- waiting requests ----------

  /** A message that asks for an acknowledgement is no reply. */
  lemma ArrivalIsWellFormed(cfg: Config, s: System, e: Event)
    requires SafetyLaws.Safe(cfg, s) && Enabled(cfg, s, e) && e.ClientReceive?
    ensures WellFormed(e.msg)
  {
    hide SafetyLaws.Tasks, SafetyLaws.Loops, SafetyLaws.AcksBacked, SafetyLaws.AcceptedBacked, AckTable.TableInv;
    assert SafetyLaws.PacketOk(ToClient(e.peer, e.msg), s.created, s.clients.Keys);
  }

  lemma MovedResponses(cfg: Config, s: System, e: Event, p: Peer)
    requires Enabled(cfg, s, e) && p in s.clients && (e.ClientReceive? ==> WellFormed(e.msg))
    ensures Moved(cfg, s, e, p).responses.Keys ==
              var keys := s.clients[p].responses.Keys;
              if e.SendRequest? && e.peer == p then keys + {e.id}
              else if Histories.Arrives(e, p) && e.msg.replyTo.Some? then keys - {e.msg.replyTo.value}
              else keys
  {
    hide LocalTime, Dedupe.Touch, StartJob, Clock.LocalForServer, Clock.SampleOf;
  }

  lemma {:induction false} WaitingIsReal(cfg: Config, states: seq<System>, events: seq<Event>, i: nat, p: Peer)
    requires IsRun(cfg, states, events) && i <= |events| < |states| && p in states[i].clients
    ensures states[i].clients[p].responses.Keys == Waiting(events, i, p)
  {
    hide IsRun, Enabled, Do, Moved, SafetyLaws.Safe, ExchangeLaws.Exchanges, GroundLaws.Grounded, WellFormed;
    if i == 0 {
      ClientRuns.StartsNew(cfg, states, events, p);
    } else {
      ClientRuns.StepMoves(cfg, states, events, i - 1, p);
      WaitingIsReal(cfg, states, events, i - 1, p);
      Theorems.RunKeepsAll(cfg, states, events, i - 1);
      if events[i - 1].ClientReceive? {
        ArrivalIsWellFormed(cfg, states[i - 1], events[i - 1]);
      }
      MovedResponses(cfg, states[i - 1], events[i - 1], p);
    }
  }

  // ---------- what becomes of a delivery ----------

  /** The filter holds exactly the ids seen lately. */
  lemma FilterIsReal(cfg: Config, states: seq<System>, events: seq<Event>, i: nat, p: Peer, m: MsgId)
    requires IsRun(cfg, states, events) && i <= |events| < |states| && p in states[i].clients
    ensures m in states[i].clients[p].items <==> SeenLately(Ids(Histories.Deliveries(events, i, p)), cfg.dedupCacheSize, m)
  {
    hide IsRun, ExchangeLaws.Exchanges, GroundLaws.Grounded, SafetyLaws.Safe, SeenLately, Histories.Deliveries, Ids;
    Theorems.RunKeepsAll(cfg, states, events, i);
    Histories.RecordsAreReal(cfg, states, events, i, p);
    FilterOf(cfg, states[i], p);
    ItemsAreSeen(Ids(Histories.Deliveries(events, i, p)), cfg.dedupCacheSize, m);
  }

  lemma ItemsAreSeen(ids: seq<MsgId>, maxSize: int, m: MsgId)
    ensures m in Dedupe.Items(ids, maxSize) <==> SeenLately(ids, maxSize, m)
  {
    hide Dedupe.Items, Dedupe.IdSet, Dedupe.LastIndex;
    Dedupe.HitExactlyInWindow(ids, maxSize, m);
  }

  lemma FilterOf(cfg: Config, s: System, p: Peer)
    requires SafetyLaws.Safe(cfg, s) && p in s.clients
    ensures s.clients[p].items == Dedupe.Items(Ids(s.clients[p].delivered), cfg.dedupCacheSize)
  {
    LoopOf(cfg, s, p);
    hide SafetyLaws.Safe, Dedupe.Items, Ids, Runs, AckDeliveries;
  }

  lemma LoopOf(cfg: Config, s: System, p: Peer)
    requires SafetyLaws.Safe(cfg, s) && p in s.clients
    ensures LoopInv(s.clients[p], cfg.dedupCacheSize)
  {
    hide SafetyLaws.Wire, SafetyLaws.Tasks, SafetyLaws.AcksBacked, SafetyLaws.AcceptedBacked, AckTable.TableInv, LoopInv, SafetyLaws.Genuine;
  }

  /** The start of the message's handlers has to be waited for. */
  predicate MustWait(c: Client, msg: Message, now: real) {
    TrialRuns.IsTrialStart(msg) && now < msg.body.executeAt - c.offsetMs / 1000.0
  }

  /** What taking one message does, by the three kinds of delivery. */
  lemma ReceiveDoes(c: Client, self: Peer, msg: Message, maxSize: int, now: real)
    requires c.job == None
    ensures var out := Receive(c, self, msg, maxSize, now);
      var repeated := msg.requiresAck && msg.id in c.items;
      var reply := msg.replyTo.Some? && msg.replyTo.value in c.responses;
      && (repeated ==> out.client.job == None && out.ack == Some(Ack(msg.id, self, now, None)) && out.client.answers == c.answers)
      && (!repeated && reply ==>
            && out.client.job == None && out.ack == None && msg.replyTo.value in c.responses
            && out.client.answers == c.answers[msg.replyTo.value := Answer(c.responses[msg.replyTo.value], msg)])
      && (!repeated && !reply ==>
            && out.ack == None && out.client.answers == c.answers && out.client.job.Some? && out.client.job.value.msg == msg
            && (Handles(out.client) <==> !MustWait(c, msg, now)))
  {
    hide Dedupe.Touch;
  }

  /** Every message delivered to a client is, if it is a command seen lately, acknowledged again and
      not worked on; if it replies to a waiting request, handed to the coroutine that made it; and
      otherwise, whatever its kind and however often it has come before, the client is working on
      exactly it afterwards, its handlers running at once unless a trial start must wait. */
  lemma EveryDeliveryIsUsed(cfg: Config, states: seq<System>, events: seq<Event>, k: nat, p: Peer)
    requires IsRun(cfg, states, events) && k < |events| < |states| && Histories.Arrives(events[k], p)
    ensures p in states[k].clients && p in states[k + 1].clients
    ensures var msg, now, c, c' := events[k].msg, LocalTime(cfg, states[k], p), states[k].clients[p], states[k + 1].clients[p];
      && (Repeats(cfg, events, k, p) ==>
            && c'.job == None && c'.answers == c.answers
            && ToServer(p, Message(events[k].ackId, Some(msg.id), false, Ack(msg.id, p, now, None))) in states[k + 1].net)
      && (!Repeats(cfg, events, k, p) && RepliesTo(events, k, p) ==>
            c'.job == None && msg.replyTo.value in c'.answers && c'.answers[msg.replyTo.value].reply == msg)
      && (Work(cfg, events, k, p) ==>
            && c'.job.Some? && c'.job.value.msg == msg && c'.answers == c.answers
            && (Handles(c') <==> !MustWait(c, msg, now)))
  {
    hide IsRun, Do, Sent, Built, Receive, SeenLately, MustWait, Handles, SafetyLaws.Safe, ExchangeLaws.Exchanges, GroundLaws.Grounded;
    Theorems.StepOfRun(cfg, states, events, k);
    var s, e := states[k], events[k];
    ClientsMove(cfg, s, e);
    StepAdds(cfg, s, e);
    FilterIsReal(cfg, states, events, k, p, e.msg.id);
    WaitingIsReal(cfg, states, events, k, p);
    ReceiveDoes(s.clients[p], p, e.msg, cfg.dedupCacheSize, LocalTime(cfg, s, p));
    hide Histories.Deliveries, Waiting, LocalTime;
    if Repeats(cfg, events, k, p) {
      SentIs(cfg, s, e);
    }
  }

  lemma SentIs(cfg: Config, s: System, e: Event)
    requires Enabled(cfg, s, e) && e.ClientReceive?
    ensures Sent(cfg, s, e) ==
              AsSet(AckPacket(e.peer, Receive(s.clients[e.peer], e.peer, e.msg, cfg.dedupCacheSize, LocalTime(cfg, s, e.peer)), e.ackId))
  {
    hide Receive, LocalTime, AckPacket;
  }

  // ---------- work ----------

  lemma MovedWork(cfg: Config, s: System, e: Event, p: Peer)
    requires Enabled(cfg, s, e) && p in s.clients && !Histories.Arrives(e, p)
    ensures var c, c' := s.clients[p], Moved(cfg, s, e, p);
      && InHand(c) == (if e.FinishJob? && e.peer == p && c.job.Some? then [c.job.value.msg] else []) + InHand(c')
      && Running(c) + (if !Handles(c) && Handles(c') then [c'.job.value.msg] else []) ==
           (if e.FinishJob? && e.peer == p && c.job.Some? then [c.job.value.msg] else []) + Running(c')
  {
    hide LocalTime, Clock.LocalForServer, Clock.SampleOf;
  }

  /** The messages a client's handlers have run for, with the one they are running for, are those
      they began with; and these, with a trial start it is waiting for, are exactly the deliveries
      that are neither commands seen lately nor awaited replies, in the order they came. */
  lemma {:induction false} WorkIsDoneInOrder(cfg: Config, states: seq<System>, events: seq<Event>, i: nat, p: Peer)
    requires IsRun(cfg, states, events) && i <= |events| < |states| && p in states[i].clients
    ensures var c := states[i].clients[p];
      && Finished(states, events, i, p) + Running(c) == Begun(states, i, p)
      && Finished(states, events, i, p) + InHand(c) == Assigned(cfg, events, i, p)
  {
    hide IsRun, Enabled, Do, Moved, Work, Repeats, RepliesTo, MustWait;
    if i == 0 {
      ClientRuns.StartsNew(cfg, states, events, p);
    } else {
      ClientRuns.StepMoves(cfg, states, events, i - 1, p);
      WorkIsDoneInOrder(cfg, states, events, i - 1, p);
      var c, c' := states[i - 1].clients[p], states[i].clients[p];
      if Histories.Arrives(events[i - 1], p) {
        JobIsFree(cfg, states, events, i - 1, p);
        EveryDeliveryIsUsed(cfg, states, events, i - 1, p);
        KindsOfDelivery(cfg, events, i - 1, p);
      } else {
        NoDelivery(cfg, events, i - 1, p);
        MovedWork(cfg, states[i - 1], events[i - 1], p);
      }
    }
  }

  lemma JobIsFree(cfg: Config, states: seq<System>, events: seq<Event>, k: nat, p: Peer)
    requires IsRun(cfg, states, events) && k < |events| < |states| && Histories.Arrives(events[k], p)
    ensures p in states[k].clients && states[k].clients[p].job == None
  {
    hide IsRun, Do;
    Theorems.StepOfRun(cfg, states, events, k);
  }

  lemma KindsOfDelivery(cfg: Config, events: seq<Event>, k: nat, p: Peer)
    requires k < |events| && Histories.Arrives(events[k], p)
    ensures Work(cfg, events, k, p) <==> !Repeats(cfg, events, k, p) && !RepliesTo(events, k, p)
  {
  }

  lemma NoDelivery(cfg: Config, events: seq<Event>, k: nat, p: Peer)
    requires k < |events| && !Histories.Arrives(events[k], p)
    ensures !Work(cfg, events, k, p)
  {
  }

  /** A client that waits with a trial start may go on exactly from its scheduled time, mapped to the
      client's clock with the pair it had when the message came in step k. */
  lemma WakesExactly(cfg: Config, states: seq<System>, events: seq<Event>, i: nat, p: Peer) returns (k: nat)
    requires IsRun(cfg, states, events) && i <= |events| < |states| && p in states[i].clients
    requires states[i].clients[p].job.Some? && !Handles(states[i].clients[p])
    ensures var job := states[i].clients[p].job.value;
      && TrialRuns.IsTrialStart(job.msg) && k < i && TrialRuns.ReceiptOfJob(cfg, states[k], events[k], p, job)
      && (Enabled(cfg, states[i], WakeUp(p)) <==>
            job.msg.body.executeAt - states[k].clients[p].offsetMs / 1000.0 <= LocalTime(cfg, states[i], p))
  {
    hide IsRun, ExchangeLaws.Exchanges, GroundLaws.Grounded, SafetyLaws.Safe, TrialRuns.ReceiptOfJob;
    var job := states[i].clients[p].job.value;
    TrialRuns.JobWasReceived(cfg, states, events, i, p);
    k :| 0 <= k < i && TrialRuns.ReceiptOfJob(cfg, states[k], events[k], p, job);
    Theorems.RunKeepsAll(cfg, states, events, i);
    SleepsForTrial(cfg, states, events, i, p);
    TargetOf(cfg, states[i], p, Theorems.Pairs(states, i));
    PairOfReceipt(cfg, states[k], events[k], p, job);
  }

  lemma PairOfReceipt(cfg: Config, s: System, e: Event, p: Peer, job: Job)
    requires TrialRuns.ReceiptOfJob(cfg, s, e, p, job)
    ensures p in s.clients && s.clients[p].offsetMs == job.offsetMs
  {
  }

  lemma TargetOf(cfg: Config, s: System, p: Peer, held: set<GroundLaws.Held>)
    requires GroundLaws.Grounded(cfg, s, held) && p in s.clients && s.clients[p].job.Some? && s.clients[p].job.value.phase.Sleeping?
    ensures var job := s.clients[p].job.value;
            job.msg.body.Command? && job.phase.target == Clock.LocalForServer(job.msg.body.executeAt, job.offsetMs)
  {
    hide GroundLaws.PacketsGrounded, GroundLaws.PairsHeld, GroundLaws.RegistryGrounded, GroundLaws.TableGrounded, GroundLaws.StartGrounded,
         GroundLaws.AnswerGrounded;
    assert GroundLaws.ClientGrounded(cfg.trueOffset(p), s.clients[p], s.created, s.now);
  }

  lemma MovedSleep(cfg: Config, s: System, e: Event, p: Peer)
    requires Enabled(cfg, s, e) && p in s.clients
    requires s.clients[p].job.Some? && !Handles(s.clients[p]) ==> TrialRuns.IsTrialStart(s.clients[p].job.value.msg)
    ensures var c' := Moved(cfg, s, e, p); c'.job.Some? && !Handles(c') ==> TrialRuns.IsTrialStart(c'.job.value.msg)
  {
    hide LocalTime, Dedupe.Touch, Clock.LocalForServer, Clock.SampleOf, Max;
  }

  lemma {:induction false} SleepsForTrial(cfg: Config, states: seq<System>, events: seq<Event>, i: nat, p: Peer)
    requires IsRun(cfg, states, events) && i <= |events| < |states| && p in states[i].clients
    ensures var c := states[i].clients[p]; c.job.Some? && !Handles(c) ==> TrialRuns.IsTrialStart(c.job.value.msg)
  {
    hide IsRun, Enabled, Moved, Handles, TrialRuns.IsTrialStart;
    if i == 0 {
      ClientRuns.StartsNew(cfg, states, events, p);
    } else {
      ClientRuns.StepMoves(cfg, states, events, i - 1, p);
      SleepsForTrial(cfg, states, events, i - 1, p);
      MovedSleep(cfg, states[i - 1], events[i - 1], p);
    }
  }
}

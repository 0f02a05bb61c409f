/** What a client has received, completed and acknowledged, read off the steps of the run. The lists
    that a client keeps are these. */
module Histories {
  import opened Types
  import opened ClientLoop
  import opened Protocol
  import opened StepShape
  import ClientRuns
  import Clock
  import Dedupe
  import DeliveryLaws
  import SafetyLaws
  import Theorems
  import TrialRuns

  // ---------- read off the run ----------

  predicate Arrives(e: Event, p: Peer) {
    e.ClientReceive? && e.peer == p
  }

  /** The messages delivered to p in the first i steps, in order, repeats included. */
  function Deliveries(events: seq<Event>, i: nat, p: Peer): seq<Delivery>
    requires i <= |events|
  {
    if i == 0 then []
    else
      var e := events[i - 1];
      Deliveries(events, i - 1, p) + if Arrives(e, p) then [Delivery(e.msg.id, e.msg.requiresAck)] else []
  }

  /** In this step the handlers of a command that p was running return. */
  predicate FinishesCommand(s: System, e: Event, p: Peer) {
    && e.FinishJob? && e.peer == p
    && p in s.clients && s.clients[p].job.Some? && s.clients[p].job.value.msg.body.Command?
  }

  function CompletionAt(cfg: Config, s: System, e: Event, p: Peer): Completion
    requires FinishesCommand(s, e, p)
  {
    Completion(s.clients[p].job.value.msg.id, LocalTime(cfg, s, p))
  }

  /** The commands p has completed in the first i steps, in order, each with p's local time. */
  function Completions(cfg: Config, states: seq<System>, events: seq<Event>, i: nat, p: Peer): seq<Completion>
    requires i <= |events| < |states|
  {
    if i == 0 then []
    else
      Completions(cfg, states, events, i - 1, p) +
      if FinishesCommand(states[i - 1], events[i - 1], p) then [CompletionAt(cfg, states[i - 1], events[i - 1], p)] else []
  }

  /** In this step p builds an acknowledgement. */
  predicate Answers(e: Event, s': System, p: Peer) {
    && (e.ClientReceive? || e.FinishJob?) && e.peer == p
    && e.ackId in s'.created && s'.created[e.ackId].body.Ack?
  }

  /** The messages that p's acknowledgements of the first i steps answer, in order. */
  function Acked(states: seq<System>, events: seq<Event>, i: nat, p: Peer): seq<MsgId>
    requires i <= |events| < |states|
  {
    if i == 0 then []
    else
      var e, s' := events[i - 1], states[i];
      Acked(states, events, i - 1, p) + if Answers(e, s', p) then [s'.created[e.ackId].body.replyTo] else []
  }

  /** p's handlers for a TRIAL_START_AT begin: they were not running, and now they are. */
  predicate BeginsTrial(c: Client, c': Client) {
    !TrialRuns.InTrial(c) && TrialRuns.InTrial(c')
  }

  /** The start of the trial that c' has just begun, at local time now. */
  function StartOfTrial(c': Client, now: real): TrialStart
    requires TrialRuns.InTrial(c')
  {
    var job := c'.job.value;
    var executeAt := job.msg.body.executeAt;
    TrialStart(job.msg.id, executeAt, Clock.LocalForServer(executeAt, job.offsetMs), job.arrivedAt, now, job.offsetMs, job.rttMs)
  }

  /** Step k begins the trial start x of p. */
  predicate Begins(cfg: Config, s: System, s': System, p: Peer, x: TrialStart) {
    && p in s.clients && p in s'.clients && BeginsTrial(s.clients[p], s'.clients[p])
    && x == StartOfTrial(s'.clients[p], LocalTime(cfg, s, p))
  }

  /** The trial starts of p in the first i steps, in order. */
  function TrialStarts(cfg: Config, states: seq<System>, i: nat, p: Peer): seq<TrialStart>
    requires i < |states|
  {
    if i == 0 then []
    else
      var s, s' := states[i - 1], states[i];
      TrialStarts(cfg, states, i - 1, p) +
      if p in s.clients && p in s'.clients && BeginsTrial(s.clients[p], s'.clients[p])
      then [StartOfTrial(s'.clients[p], LocalTime(cfg, s, p))] else []
  }

  // ---------- the clients' lists ----------

  lemma MovedCompleted(cfg: Config, s: System, e: Event, p: Peer)
    requires Enabled(cfg, s, e) && p in s.clients
    ensures Moved(cfg, s, e, p).completed ==
              s.clients[p].completed + if FinishesCommand(s, e, p) then [CompletionAt(cfg, s, e, p)] else []
  {
    assert s.clients[p].completed + [] == s.clients[p].completed;
    hide LocalTime, Dedupe.Touch, StartJob, Clock.LocalForServer;
  }

  lemma MovedStarts(cfg: Config, s: System, e: Event, p: Peer)
    requires Enabled(cfg, s, e) && p in s.clients
    ensures var c, c' := s.clients[p], Moved(cfg, s, e, p);
      c'.starts == c.starts + if BeginsTrial(c, c') then [StartOfTrial(c', LocalTime(cfg, s, p))] else []
  {
    assert s.clients[p].starts + [] == s.clients[p].starts;
    hide LocalTime, Dedupe.Touch, Clock.LocalForServer, Max;
  }

  /** The acknowledgement that p records is the one it builds. */
  lemma AckIsAnswer(cfg: Config, s: System, e: Event, p: Peer)
    requires Enabled(cfg, s, e) && p in s.clients
    ensures var s', ack := Do(cfg, s, e), DeliveryLaws.AckOf(cfg, s, e, p);
      && (ack.Some? <==> Answers(e, s', p))
      && (ack.Some? ==> s'.created[e.ackId].body.replyTo == ack.value.body.replyTo)
  {
    hide Do, Sent, Receive, Finish, LocalTime, ServerReply;
    StepAdds(cfg, s, e);
    if e.ClientReceive? {
      DeliveryLaws.ReceiveIsRecorded(s.clients[e.peer], e.peer, e.msg, cfg.dedupCacheSize, LocalTime(cfg, s, e.peer));
    } else if e.FinishJob? {
      AckedIsSent(s.clients[e.peer], e.peer, s.clients[e.peer].job.value.msg, cfg.dedupCacheSize, LocalTime(cfg, s, e.peer));
    } else if e.ServerReceive? {
      SafetyLaws.ReplyKind(cfg, s, e.peer, e.msg.body);
    }
  }

  /** What p has received, completed, acknowledged and started is what the steps of the run delivered
      to it, let it finish, let it build, and made it begin. */
  lemma {:induction false} RecordsAreReal(cfg: Config, states: seq<System>, events: seq<Event>, i: nat, p: Peer)
    requires IsRun(cfg, states, events) && i <= |events| < |states| && p in states[i].clients
    ensures states[i].clients[p].delivered == Deliveries(events, i, p)
    ensures states[i].clients[p].completed == Completions(cfg, states, events, i, p)
    ensures states[i].clients[p].acked == Acked(states, events, i, p)
    ensures states[i].clients[p].starts == TrialStarts(cfg, states, i, p)
  {
    hide IsRun, Enabled, Do, Moved, FinishesCommand, CompletionAt, Answers, Arrives, BeginsTrial, StartOfTrial;
    if i == 0 {
      ClientRuns.StartsNew(cfg, states, events, p);
    } else {
      var s, e := states[i - 1], events[i - 1];
      ClientRuns.StepMoves(cfg, states, events, i - 1, p);
      Theorems.StepOfRun(cfg, states, events, i - 1);
      RecordsAreReal(cfg, states, events, i - 1, p);
      StepRecords(cfg, s, e, p);
    }
  }

  lemma StepRecords(cfg: Config, s: System, e: Event, p: Peer)
    requires Enabled(cfg, s, e) && p in s.clients
    ensures var s', c, c' := Do(cfg, s, e), s.clients[p], Moved(cfg, s, e, p);
      && c'.delivered == c.delivered + (if Arrives(e, p) then [Delivery(e.msg.id, e.msg.requiresAck)] else [])
      && c'.completed == c.completed + (if FinishesCommand(s, e, p) then [CompletionAt(cfg, s, e, p)] else [])
      && c'.acked == c.acked + (if Answers(e, s', p) then [s'.created[e.ackId].body.replyTo] else [])
      && c'.starts == c.starts + (if BeginsTrial(c, c') then [StartOfTrial(c', LocalTime(cfg, s, p))] else [])
  {
    hide Enabled, Do, Moved, FinishesCommand, CompletionAt, Answers, DeliveryLaws.AckOf, BeginsTrial, StartOfTrial;
    MovedStarts(cfg, s, e, p);
    DeliveryLaws.MovedDelivered(cfg, s, e, p);
    MovedCompleted(cfg, s, e, p);
    DeliveryLaws.MovedAcked(cfg, s, e, p);
    AckIsAnswer(cfg, s, e, p);
  }

  /** Step k completes p's handlers for m, at local time x.at. */
  predicate Completes(cfg: Config, s: System, e: Event, p: Peer, x: Completion) {
    FinishesCommand(s, e, p) && CompletionAt(cfg, s, e, p) == x
  }

  lemma {:induction false} CompletionHasStep(cfg: Config, states: seq<System>, events: seq<Event>, i: nat, p: Peer, x: Completion)
    requires i <= |events| < |states| && x in Completions(cfg, states, events, i, p)
    ensures exists k :: 0 <= k < i && Completes(cfg, states[k], events[k], p, x)
  {
    if !Completes(cfg, states[i - 1], events[i - 1], p, x) {
      hide FinishesCommand, CompletionAt;
      CompletionHasStep(cfg, states, events, i - 1, p, x);
    }
  }

  /** A completion that p records happened in some step. */
  lemma RecordHasStep(cfg: Config, states: seq<System>, events: seq<Event>, i: nat, p: Peer, x: Completion)
    requires IsRun(cfg, states, events) && i <= |events| < |states|
    requires p in states[i].clients && x in states[i].clients[p].completed
    ensures exists k :: 0 <= k < i && Completes(cfg, states[k], events[k], p, x)
  {
    hide IsRun, Completes;
    RecordsAreReal(cfg, states, events, i, p);
    CompletionHasStep(cfg, states, events, i, p, x);
  }

  lemma {:induction false} StepIsInCompletions(cfg: Config, states: seq<System>, events: seq<Event>, i: nat, p: Peer, k: nat)
    requires k < i <= |events| < |states| && FinishesCommand(states[k], events[k], p)
    ensures CompletionAt(cfg, states[k], events[k], p) in Completions(cfg, states, events, i, p)
  {
    hide FinishesCommand, CompletionAt;
    if k < i - 1 {
      StepIsInCompletions(cfg, states, events, i - 1, p, k);
    }
  }

  /** Every start in the list began in some step. */
  lemma {:induction false} StartHasStep(cfg: Config, states: seq<System>, i: nat, p: Peer, x: TrialStart)
    requires i < |states| && x in TrialStarts(cfg, states, i, p)
    ensures exists k :: 0 <= k < i && Begins(cfg, states[k], states[k + 1], p, x)
  {
    hide BeginsTrial, StartOfTrial;
    if !Begins(cfg, states[i - 1], states[i], p, x) {
      StartHasStep(cfg, states, i - 1, p, x);
    } else {
      assert Begins(cfg, states[i - 1], states[i - 1 + 1], p, x);
    }
  }
}

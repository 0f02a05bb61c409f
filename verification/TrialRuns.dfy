/** Every run of TRIAL_START_AT handlers has a recorded start, and every recorded start comes from
    a message received with the clock pair the client had then. */
module TrialRuns {
  import opened Types
  import opened Messages
  import opened ClientLoop
  import opened Protocol
  import opened StepShape
  import ClientRuns
  import Clock
  import Dedupe
  import ExchangeLaws
  import GroundLaws
  import SafetyLaws
  import Theorems

  // ---------- runs and starts ----------

  predicate IsTrialStart(m: Message) {
    m.body.Command? && m.body.kind == TRIAL_START_AT
  }

  function TrialIds(created: map<MsgId, Message>): set<MsgId> {
    set m | m in created && IsTrialStart(created[m])
  }

  /** The completions of trial starts, in order. */
  function Trials(ids: set<MsgId>, completed: seq<Completion>): seq<Completion> {
    if completed == [] then []
    else Trials(ids, completed[..|completed| - 1]) +
         if completed[|completed| - 1].id in ids then [completed[|completed| - 1]] else []
  }

  lemma TrialsSnoc(ids: set<MsgId>, completed: seq<Completion>, x: Completion)
    ensures Trials(ids, completed + [x]) == Trials(ids, completed) + if x.id in ids then [x] else []
  {
    assert (completed + [x])[..|completed|] == completed;
  }

  lemma {:induction false} TrialsOfOldIds(ids: set<MsgId>, ids': set<MsgId>, completed: seq<Completion>)
    requires forall x :: x in completed ==> (x.id in ids <==> x.id in ids')
    ensures Trials(ids, completed) == Trials(ids', completed)
  {
    if completed != [] {
      TrialsOfOldIds(ids, ids', completed[..|completed| - 1]);
      assert completed[|completed| - 1] in completed;
    }
  }

  /** The handlers of a trial start are running. */
  predicate InTrial(c: Client) {
    c.job.Some? && c.job.value.phase.Handling? && IsTrialStart(c.job.value.msg)
  }

  /** The start belongs to the job. */
  predicate StartOf(x: TrialStart, job: Job) {
    x.id == job.msg.id && x.arrivedAt == job.arrivedAt && x.offsetMs == job.offsetMs && x.rttMs == job.rttMs
  }

  /** The first starts are those of the completions, each no later than its completion. */
  ghost predicate Aligned(starts: seq<TrialStart>, trials: seq<Completion>) {
    && |trials| <= |starts|
    && forall i :: 0 <= i < |trials| ==> starts[i].id == trials[i].id && starts[i].at <= trials[i].at
  }

  /** The recorded starts are, in order, those of the completed trial starts and of the one whose
      handlers are running; none is later than its completion. */
  ghost predicate StartsOfRuns(c: Client, ids: set<MsgId>) {
    var trials := Trials(ids, c.completed);
    && |c.starts| == |trials| + (if InTrial(c) then 1 else 0)
    && Aligned(c.starts, trials)
    && (InTrial(c) ==> StartOf(c.starts[|c.starts| - 1], c.job.value))
  }

  /** Completed and current messages are known. */
  ghost predicate Known(c: Client, created: map<MsgId, Message>) {
    && (forall x :: x in c.completed ==> x.id in created)
    && (c.job.Some? ==> c.job.value.msg.id in created && created[c.job.value.msg.id] == c.job.value.msg)
  }

  ghost predicate TrialsStarted(c: Client, created: map<MsgId, Message>) {
    Known(c, created) && StartsOfRuns(c, TrialIds(created))
  }

  lemma MoreMessages(c: Client, created: map<MsgId, Message>, created': map<MsgId, Message>)
    requires TrialsStarted(c, created) && GroundLaws.Extends(created, created')
    ensures TrialsStarted(c, created')
  {
    TrialsOfOldIds(TrialIds(created), TrialIds(created'), c.completed);
  }

  lemma ReceiveStarts(c: Client, self: Peer, msg: Message, maxSize: int, now: real, created: map<MsgId, Message>)
    requires TrialsStarted(c, created) && c.job == None && msg.id in created && created[msg.id] == msg
    ensures TrialsStarted(Receive(c, self, msg, maxSize, now).client, created)
  {
    hide Dedupe.Touch, Max, Clock.LocalForServer, Trials;
  }

  lemma WakeStarts(c: Client, now: real, created: map<MsgId, Message>)
    requires TrialsStarted(c, created)
    requires c.job.Some? && c.job.value.phase.Sleeping? && now >= c.job.value.phase.target
    ensures TrialsStarted(Wake(c, now), created)
  {
    hide Clock.LocalForServer, Trials;
  }

  lemma FinishStarts(c: Client, self: Peer, now: real, created: map<MsgId, Message>)
    requires TrialsStarted(c, created) && c.job.Some? && c.job.value.phase.Handling?
    requires forall x :: x in c.starts ==> x.at <= now
    ensures TrialsStarted(Finish(c, self, now).client, created)
  {
    hide Trials, TrialsStarted, Known, StartsOfRuns;
    FinishEffect(c, self, now);
    var c' := Finish(c, self, now).client;
    hide Finish;
    FinishedKnown(c, c', created, now);
    FinishedStarts(c, c', created, now);
  }

  /** What finishing does to the parts that matter here. */
  predicate Finished(c: Client, c': Client, now: real) {
    && c.job.Some? && c.job.value.phase.Handling? && c'.job == None && c'.starts == c.starts
    && c'.completed == if c.job.value.msg.body.Command? then c.completed + [Completion(c.job.value.msg.id, now)] else c.completed
  }

  lemma FinishEffect(c: Client, self: Peer, now: real)
    requires c.job.Some? && c.job.value.phase.Handling?
    ensures Finished(c, Finish(c, self, now).client, now)
  {
  }

  lemma FinishedKnown(c: Client, c': Client, created: map<MsgId, Message>, now: real)
    requires TrialsStarted(c, created) && Finished(c, c', now)
    ensures Known(c', created) && c.job.value.msg.id in created && created[c.job.value.msg.id] == c.job.value.msg
  {
    hide StartsOfRuns;
  }

  lemma FinishedStarts(c: Client, c': Client, created: map<MsgId, Message>, now: real)
    requires TrialsStarted(c, created) && Finished(c, c', now) && Known(c', created)
    requires c.job.value.msg.id in created && created[c.job.value.msg.id] == c.job.value.msg
    requires forall x :: x in c.starts ==> x.at <= now
    ensures TrialsStarted(c', created)
  {
    hide Trials, Known;
    var ids, x := TrialIds(created), Completion(c.job.value.msg.id, now);
    assert InTrial(c) <==> x.id in ids;
    hide TrialIds;
    TrialsSnoc(ids, c.completed, x);
    if InTrial(c) {
      OneMoreTrial(c.starts, Trials(ids, c.completed), x);
    } else {
      assert Trials(ids, c.completed) + [] == Trials(ids, c.completed);
    }
  }

  lemma OneMoreTrial(starts: seq<TrialStart>, trials: seq<Completion>, x: Completion)
    requires Aligned(starts, trials) && |starts| == |trials| + 1
    requires starts[|trials|].id == x.id && starts[|trials|].at <= x.at
    ensures Aligned(starts, trials + [x])
  {
  }

  lemma ResumeStarts(c: Client, r: MsgId, now: real, created: map<MsgId, Message>)
    requires TrialsStarted(c, created) && r in c.answers
    ensures TrialsStarted(Resume(c, r, now), created)
  {
    hide Clock.SampleOf, Trials;
  }

  lemma StartsArePast(cfg: Config, s: System, p: Peer, held: set<GroundLaws.Held>)
    requires GroundLaws.Grounded(cfg, s, held) && p in s.clients
    ensures forall x :: x in s.clients[p].starts ==> x.at <= LocalTime(cfg, s, p)
  {
    hide GroundLaws.PacketsGrounded, GroundLaws.PairsHeld, GroundLaws.RegistryGrounded, GroundLaws.TableGrounded;
    assert GroundLaws.ClientGrounded(cfg.trueOffset(p), s.clients[p], s.created, s.now);
    forall x | x in s.clients[p].starts
      ensures x.at <= LocalTime(cfg, s, p)
    {
      assert GroundLaws.StartGrounded(cfg.trueOffset(p), x, s.created, s.now);
    }
  }

  lemma MovedStarts(cfg: Config, s: System, e: Event, p: Peer, held: set<GroundLaws.Held>)
    requires Enabled(cfg, s, e) && p in s.clients && TrialsStarted(s.clients[p], s.created)
    requires SafetyLaws.Safe(cfg, s) && GroundLaws.Grounded(cfg, s, held)
    ensures TrialsStarted(Moved(cfg, s, e, p), s.created)
  {
    hide SafetyLaws.Safe, GroundLaws.Grounded, TrialsStarted, Receive, Finish, Wake, Resume, LocalTime;
    var c, now := s.clients[p], LocalTime(cfg, s, p);
    if e.ClientReceive? && e.peer == p {
      ClientRuns.ArrivalIsBuilt(cfg, s, e);
      ReceiveStarts(c, p, e.msg, cfg.dedupCacheSize, now, s.created);
    } else if e.WakeUp? && e.peer == p {
      WakeStarts(c, now, s.created);
    } else if e.FinishJob? && e.peer == p {
      StartsArePast(cfg, s, p, held);
      FinishStarts(c, p, now, s.created);
    } else if e.ResumeExchange? && e.peer == p {
      ResumeStarts(c, e.request, now, s.created);
    } else if e.SendRequest? && e.peer == p {
      AskStarts(c, e.id, RequestOf(e.body), s.created);
    }
  }

  lemma AskStarts(c: Client, id: MsgId, request: Request, created: map<MsgId, Message>)
    requires TrialsStarted(c, created)
    ensures TrialsStarted(Ask(c, id, request), created)
  {
  }

  lemma CreatedExtends(cfg: Config, s: System, e: Event)
    requires Enabled(cfg, s, e)
    ensures GroundLaws.Extends(s.created, Do(cfg, s, e).created)
  {
    hide Enabled, Do, Built, Sent;
    StepAdds(cfg, s, e);
  }

  /** In every state of every run the starts are those of the runs. */
  lemma {:induction false} RunsHaveStarts(cfg: Config, states: seq<System>, events: seq<Event>, i: nat, p: Peer)
    requires IsRun(cfg, states, events) && i <= |events| < |states| && p in states[i].clients
    ensures TrialsStarted(states[i].clients[p], states[i].created)
  {
    hide IsRun, Init, Next, Enabled, Moved, SafetyLaws.Safe, ExchangeLaws.Exchanges, GroundLaws.Grounded;
    if i == 0 {
      ClientRuns.StartsNew(cfg, states, events, p);
    } else {
      hide TrialsStarted;
      ClientRuns.StepMoves(cfg, states, events, i - 1, p);
      RunsHaveStarts(cfg, states, events, i - 1, p);
      Theorems.RunKeepsAll(cfg, states, events, i - 1);
      Theorems.StepOfRun(cfg, states, events, i - 1);
      NextStarts(cfg, states[i - 1], events[i - 1], states[i], p, Theorems.Pairs(states, i - 1));
    }
  }

  lemma NextStarts(cfg: Config, s: System, e: Event, s': System, p: Peer, held: set<GroundLaws.Held>)
    requires SafetyLaws.Safe(cfg, s) && GroundLaws.Grounded(cfg, s, held) && Next(cfg, s, e, s')
    requires p in s.clients && TrialsStarted(s.clients[p], s.created)
    requires p in s'.clients && s'.clients[p] == Moved(cfg, s, e, p)
    ensures TrialsStarted(s'.clients[p], s'.created)
  {
    hide SafetyLaws.Safe, GroundLaws.Grounded, Enabled, Do, Moved, TrialsStarted, GroundLaws.Extends;
    MovedStarts(cfg, s, e, p, held);
    CreatedExtends(cfg, s, e);
    MoreMessages(s'.clients[p], s.created, s'.created);
  }

  // ---------- starts and receipts ----------

  /** In this step p takes the message of the start or job from the network, having this pair. */
  predicate Receipt(cfg: Config, s: System, e: Event, p: Peer, id: MsgId, arrivedAt: real, offsetMs: real, rttMs: real) {
    && e.ClientReceive? && e.peer == p && e.msg.id == id
    && p in s.clients && s.clients[p].offsetMs == offsetMs && s.clients[p].rttMs == rttMs
    && arrivedAt == LocalTime(cfg, s, p)
  }

  predicate ReceiptOf(cfg: Config, s: System, e: Event, p: Peer, x: TrialStart) {
    Receipt(cfg, s, e, p, x.id, x.arrivedAt, x.offsetMs, x.rttMs)
  }

  predicate ReceiptOfJob(cfg: Config, s: System, e: Event, p: Peer, job: Job) {
    Receipt(cfg, s, e, p, job.msg.id, job.arrivedAt, job.offsetMs, job.rttMs)
  }

  /** A new job or start in a step comes from the message received in it, or from the job. */
  lemma MovedReceipts(cfg: Config, s: System, e: Event, p: Peer)
    requires Enabled(cfg, s, e) && p in s.clients
    ensures var c, c' := s.clients[p], Moved(cfg, s, e, p);
      && (c'.job.Some? ==> ReceiptOfJob(cfg, s, e, p, c'.job.value) || (c.job.Some? && SameJob(c.job.value, c'.job.value)))
      && (forall x :: x in c'.starts ==>
            x in c.starts || ReceiptOf(cfg, s, e, p, x) || (c.job.Some? && StartOf(x, c.job.value)))
  {
    hide LocalTime, Dedupe.Touch, Max, Clock.LocalForServer, Clock.SampleOf;
  }

  predicate SameJob(j: Job, k: Job) {
    k.msg == j.msg && k.arrivedAt == j.arrivedAt && k.offsetMs == j.offsetMs && k.rttMs == j.rttMs
  }

  ghost predicate JobReceived(cfg: Config, states: seq<System>, events: seq<Event>, i: nat, p: Peer, job: Job)
    requires i <= |events| < |states|
  {
    exists k :: 0 <= k < i && ReceiptOfJob(cfg, states[k], events[k], p, job)
  }

  lemma {:induction false} JobWasReceived(cfg: Config, states: seq<System>, events: seq<Event>, i: nat, p: Peer)
    requires IsRun(cfg, states, events) && i <= |events| < |states| && p in states[i].clients && states[i].clients[p].job.Some?
    ensures JobReceived(cfg, states, events, i, p, states[i].clients[p].job.value)
  {
    hide IsRun, Enabled, Moved;
    if i == 0 {
      ClientRuns.StartsNew(cfg, states, events, p);
    } else {
      ClientRuns.StepMoves(cfg, states, events, i - 1, p);
      MovedReceipts(cfg, states[i - 1], events[i - 1], p);
      if !ReceiptOfJob(cfg, states[i - 1], events[i - 1], p, states[i].clients[p].job.value) {
        JobWasReceived(cfg, states, events, i - 1, p);
        var k :| 0 <= k < i - 1 && ReceiptOfJob(cfg, states[k], events[k], p, states[i - 1].clients[p].job.value);
        assert ReceiptOfJob(cfg, states[k], events[k], p, states[i].clients[p].job.value);
      }
    }
  }

  /** Every recorded start comes from a message p received earlier in the run, and was mapped with
      the pair p had at that moment. */
  lemma {:induction false} StartWasReceived(cfg: Config, states: seq<System>, events: seq<Event>, i: nat, p: Peer, x: TrialStart)
    requires IsRun(cfg, states, events) && i <= |events| < |states| && p in states[i].clients && x in states[i].clients[p].starts
    ensures exists k :: 0 <= k < i && ReceiptOf(cfg, states[k], events[k], p, x)
  {
    hide IsRun, Enabled, Moved;
    if i == 0 {
      ClientRuns.StartsNew(cfg, states, events, p);
    } else {
      ClientRuns.StepMoves(cfg, states, events, i - 1, p);
      MovedReceipts(cfg, states[i - 1], events[i - 1], p);
      if x in states[i - 1].clients[p].starts {
        StartWasReceived(cfg, states, events, i - 1, p, x);
      } else if !ReceiptOf(cfg, states[i - 1], events[i - 1], p, x) {
        JobWasReceived(cfg, states, events, i - 1, p);
        var k :| 0 <= k < i - 1 && ReceiptOfJob(cfg, states[k], events[k], p, states[i - 1].clients[p].job.value);
        assert ReceiptOf(cfg, states[k], events[k], p, x);
      }
    }
  }
}

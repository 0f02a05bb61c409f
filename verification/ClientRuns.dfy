/** One client through a whole run: its clock pair and session come from the replies it resumed
    with, and its trial starts from the messages it received. */
module ClientRuns {
  import opened Types
  import opened Messages
  import opened ClientLoop
  import opened Protocol
  import opened StepShape
  import AckTable
  import Clock
  import Dedupe
  import EntryLaws
  import ExchangeLaws
  import GroundLaws
  import Registry
  import RegistryLaws
  import SafetyLaws
  import Sessions
  import Theorems

  // ---------- the steps that matter ----------

  predicate Resumes(s: System, e: Event, p: Peer) {
    e.ResumeExchange? && e.peer == p && p in s.clients && e.request in s.clients[p].answers
  }

  function Answered(s: System, e: Event, p: Peer): Answer
    requires Resumes(s, e, p)
  {
    s.clients[p].answers[e.request]
  }

  /** p's `sync_clock` resumes with a PONG. */
  predicate Syncs(s: System, e: Event, p: Peer) {
    Resumes(s, e, p) && Answered(s, e, p).request.PingRequest? && Answered(s, e, p).reply.body.Pong?
  }

  /** p's `register` resumes with a REGISTER_OK. */
  predicate Joins(s: System, e: Event, p: Peer) {
    Resumes(s, e, p) && Answered(s, e, p).request.RegisterRequest? && Answered(s, e, p).reply.body.RegisterOk?
  }

  /** The last step before state i at which p synchronised. */
  function LastSync(states: seq<System>, events: seq<Event>, i: nat, p: Peer): (r: Option<nat>)
    requires i <= |events| < |states|
    ensures r.Some? ==> r.value < i && Syncs(states[r.value], events[r.value], p)
    ensures forall k :: (if r.Some? then r.value < k < i else 0 <= k < i) ==> !Syncs(states[k], events[k], p)
  {
    if i == 0 then None
    else if Syncs(states[i - 1], events[i - 1], p) then Some(i - 1)
    else LastSync(states, events, i - 1, p)
  }

  /** The last step before state i at which p's registration was accepted. */
  function LastJoin(states: seq<System>, events: seq<Event>, i: nat, p: Peer): (r: Option<nat>)
    requires i <= |events| < |states|
    ensures r.Some? ==> r.value < i && Joins(states[r.value], events[r.value], p)
    ensures forall k :: (if r.Some? then r.value < k < i else 0 <= k < i) ==> !Joins(states[k], events[k], p)
  {
    if i == 0 then None
    else if Joins(states[i - 1], events[i - 1], p) then Some(i - 1)
    else LastJoin(states, events, i - 1, p)
  }

  /** The sample of the exchange that ends in step e. */
  function SampleAt(cfg: Config, s: System, e: Event, p: Peer): Clock.Sample
    requires Syncs(s, e, p)
  {
    var a := Answered(s, e, p);
    Clock.SampleOf(a.request.t0, a.reply.body.t1, a.reply.body.t2, LocalTime(cfg, s, p))
  }

  function SnapshotAt(s: System, e: Event, p: Peer): Sessions.Snapshot
    requires Joins(s, e, p)
  {
    Answered(s, e, p).reply.body.snapshot
  }

  /** What one step does to the pair and the session of p. */
  lemma MovedPairAndSession(cfg: Config, s: System, e: Event, p: Peer)
    requires Enabled(cfg, s, e) && p in s.clients
    ensures var c, c' := s.clients[p], Moved(cfg, s, e, p);
      && Clock.Sample(c'.rttMs, c'.offsetMs) == (if Syncs(s, e, p) then SampleAt(cfg, s, e, p) else Clock.Sample(c.rttMs, c.offsetMs))
      && c'.session == if Joins(s, e, p) then SnapshotAt(s, e, p) else c.session
  {
    hide LocalTime, Dedupe.Touch, StartJob, Clock.LocalForServer, Clock.SampleOf;
  }

  lemma {:induction false} ClientsStay(cfg: Config, states: seq<System>, events: seq<Event>, i: nat)
    requires IsRun(cfg, states, events) && i < |states|
    ensures states[i].clients.Keys == states[0].clients.Keys
  {
    hide IsRun, Enabled, Do, Moved;
    Theorems.RunShape(cfg, states, events);
    if i > 0 {
      ClientsStay(cfg, states, events, i - 1);
      Theorems.StepOfRun(cfg, states, events, i - 1);
      ClientsMove(cfg, states[i - 1], events[i - 1]);
    }
  }

  lemma StepMoves(cfg: Config, states: seq<System>, events: seq<Event>, i: nat, p: Peer)
    requires IsRun(cfg, states, events) && i < |events| && i + 1 < |states| && p in states[i + 1].clients
    ensures Enabled(cfg, states[i], events[i]) && p in states[i].clients
    ensures states[i + 1].clients[p] == Moved(cfg, states[i], events[i], p)
  {
    hide IsRun, Enabled, Do, Moved;
    Theorems.StepOfRun(cfg, states, events, i);
    ClientsMove(cfg, states[i], events[i]);
  }

  lemma StartsNew(cfg: Config, states: seq<System>, events: seq<Event>, p: Peer)
    requires IsRun(cfg, states, events) && p in states[0].clients
    ensures states[0].clients[p] == NEW_CLIENT
  {
    assert Init(states[0]);
  }

  /** A client's pair is the sample of its last synchronisation, or (0, 0) if there is none. */
  lemma {:induction false} PairIsLastSample(cfg: Config, states: seq<System>, events: seq<Event>, i: nat, p: Peer)
    requires IsRun(cfg, states, events) && i <= |events| < |states| && p in states[i].clients
    ensures Clock.Sample(states[i].clients[p].rttMs, states[i].clients[p].offsetMs) ==
              match LastSync(states, events, i, p)
              case Some(k) => SampleAt(cfg, states[k], events[k], p)
              case None => Clock.Sample(0.0, 0.0)
  {
    hide IsRun, Enabled, Moved, Syncs, SampleAt;
    if i == 0 {
      StartsNew(cfg, states, events, p);
    } else {
      StepMoves(cfg, states, events, i - 1, p);
      PairIsLastSample(cfg, states, events, i - 1, p);
      MovedPairAndSession(cfg, states[i - 1], events[i - 1], p);
    }
  }

  /** Every synchronisation yields an accurate pair. */
  lemma SyncIsAccurate(cfg: Config, states: seq<System>, events: seq<Event>, k: nat, p: Peer)
    requires IsRun(cfg, states, events) && k < |events| < |states| && Syncs(states[k], events[k], p)
    ensures var x := SampleAt(cfg, states[k], events[k], p); Clock.Accurate(cfg.trueOffset(p), x.offsetMs, x.rttMs)
  {
    hide IsRun, SafetyLaws.Safe, ExchangeLaws.Exchanges, GroundLaws.Grounded, GroundLaws.ClientGrounded;
    Theorems.RunKeepsAll(cfg, states, events, k);
    var s := states[k];
    GroundLaws.ClientIsGrounded(cfg, s, p, Theorems.Pairs(states, k));
    GroundLaws.SampleIsGrounded(cfg.trueOffset(p), s.clients[p], events[k].request, LocalTime(cfg, s, p), s.now, s.created);
  }

  /** A client that has synchronised has an accurate pair. */
  lemma SyncedPairIsAccurate(cfg: Config, states: seq<System>, events: seq<Event>, i: nat, p: Peer)
    requires IsRun(cfg, states, events) && i <= |events| < |states| && p in states[i].clients
    requires LastSync(states, events, i, p).Some?
    ensures Clock.Accurate(cfg.trueOffset(p), states[i].clients[p].offsetMs, states[i].clients[p].rttMs)
  {
    hide IsRun, Syncs, SampleAt, Clock.Accurate;
    PairIsLastSample(cfg, states, events, i, p);
    SyncIsAccurate(cfg, states, events, LastSync(states, events, i, p).value, p);
  }

  // ---------- sessions ----------

  /** A client's session is the snapshot of its last accepted registration, or the initial one. */
  lemma {:induction false} SessionIsLastSnapshot(cfg: Config, states: seq<System>, events: seq<Event>, i: nat, p: Peer)
    requires IsRun(cfg, states, events) && i <= |events| < |states| && p in states[i].clients
    ensures states[i].clients[p].session ==
              match LastJoin(states, events, i, p)
              case Some(k) => SnapshotAt(states[k], events[k], p)
              case None => Sessions.INITIAL
  {
    hide IsRun, Enabled, Moved, Joins, SnapshotAt;
    if i == 0 {
      StartsNew(cfg, states, events, p);
    } else {
      StepMoves(cfg, states, events, i - 1, p);
      SessionIsLastSnapshot(cfg, states, events, i - 1, p);
      MovedPairAndSession(cfg, states[i - 1], events[i - 1], p);
    }
  }

  /** The replies a client holds are messages that were built. */
  predicate AnswersBuilt(c: Client, created: map<MsgId, Message>) {
    forall r :: r in c.answers ==> c.answers[r].reply.id in created && created[c.answers[r].reply.id] == c.answers[r].reply
  }

  /** The answers a client holds afterwards are ones it held, or the message just delivered. */
  lemma MovedAnswers(cfg: Config, s: System, e: Event, p: Peer)
    requires Enabled(cfg, s, e) && p in s.clients
    ensures var c, c' := s.clients[p], Moved(cfg, s, e, p);
      forall r :: r in c'.answers ==>
        (r in c.answers && c'.answers[r].reply == c.answers[r].reply) || (e.ClientReceive? && c'.answers[r].reply == e.msg)
  {
    hide LocalTime, Dedupe.Touch, StartJob, Clock.LocalForServer, Clock.SampleOf;
  }

  lemma MovedAnswersBuilt(cfg: Config, s: System, e: Event, p: Peer)
    requires Enabled(cfg, s, e) && p in s.clients && AnswersBuilt(s.clients[p], s.created) && SafetyLaws.Safe(cfg, s)
    ensures AnswersBuilt(Moved(cfg, s, e, p), s.created)
  {
    hide SafetyLaws.Safe, Enabled, Moved;
    if e.ClientReceive? {
      ArrivalIsBuilt(cfg, s, e);
    }
    MovedAnswers(cfg, s, e, p);
  }

  lemma ArrivalIsBuilt(cfg: Config, s: System, e: Event)
    requires SafetyLaws.Safe(cfg, s) && Enabled(cfg, s, e) && e.ClientReceive?
    ensures e.msg.id in s.created && s.created[e.msg.id] == e.msg
  {
    hide SafetyLaws.Tasks, SafetyLaws.Loops, SafetyLaws.AcksBacked, SafetyLaws.AcceptedBacked, AckTable.TableInv;
    assert SafetyLaws.PacketOk(ToClient(e.peer, e.msg), s.created, s.clients.Keys);
  }

  lemma BuiltStays(cfg: Config, s: System, e: Event, c: Client)
    requires Enabled(cfg, s, e) && AnswersBuilt(c, s.created)
    ensures AnswersBuilt(c, Do(cfg, s, e).created)
  {
    hide Enabled, Do, Built, Sent;
    StepAdds(cfg, s, e);
  }

  lemma {:induction false} AnswersAreBuilt(cfg: Config, states: seq<System>, events: seq<Event>, i: nat, p: Peer)
    requires IsRun(cfg, states, events) && i <= |events| < |states| && p in states[i].clients
    ensures AnswersBuilt(states[i].clients[p], states[i].created)
  {
    hide IsRun, Init, Next, Enabled, Moved, SafetyLaws.Safe, ExchangeLaws.Exchanges, GroundLaws.Grounded;
    if i == 0 {
      StartsNew(cfg, states, events, p);
    } else {
      hide AnswersBuilt;
      StepMoves(cfg, states, events, i - 1, p);
      AnswersAreBuilt(cfg, states, events, i - 1, p);
      Theorems.RunKeepsAll(cfg, states, events, i - 1);
      Theorems.StepOfRun(cfg, states, events, i - 1);
      NextAnswersBuilt(cfg, states[i - 1], events[i - 1], states[i], p);
    }
  }

  lemma NextAnswersBuilt(cfg: Config, s: System, e: Event, s': System, p: Peer)
    requires SafetyLaws.Safe(cfg, s) && Next(cfg, s, e, s') && p in s.clients && AnswersBuilt(s.clients[p], s.created)
    requires p in s'.clients && s'.clients[p] == Moved(cfg, s, e, p)
    ensures AnswersBuilt(s'.clients[p], s'.created)
  {
    hide SafetyLaws.Safe, Enabled, Do, Moved, AnswersBuilt;
    MovedAnswersBuilt(cfg, s, e, p);
    BuiltStays(cfg, s, e, s'.clients[p]);
  }

  /** In this step the server handles the registration that `reply` accepts, finds it admissible, and
      answers with its session at that moment. */
  predicate AcceptsWithSession(cfg: Config, s: System, e: Event, reply: Message) {
    && e.ServerReceive? && e.msg.body.Register? && reply.body.RegisterOk?
    && reply.id == e.replyId && reply.id !in s.created && reply.replyTo == Some(e.msg.id)
    && reply.body.snapshot == s.session
    && EntryLaws.Admits(s.registry, Registry.Handled(e.peer, e.msg.body, s.now), cfg.policy, e.peer)
  }

  lemma BuiltRegisterOk(cfg: Config, s: System, e: Event)
    requires Enabled(cfg, s, e) && Built(cfg, s, e).Some? && Built(cfg, s, e).value.body.RegisterOk?
    ensures AcceptsWithSession(cfg, s, e, Built(cfg, s, e).value)
  {
    hide Receive, Finish, LocalTime, Registry.Enroll, RegistryLaws.Compatible, RegistryLaws.Authentic, RegistryLaws.HoldsAgreement,
         RegistryLaws.AllAgreeable;
    if e.ServerReceive? && e.msg.body.Register? {
      var b := e.msg.body;
      RegistryLaws.RegisterIsSafe(Registry.Touch(s.registry, e.peer, s.now), e.peer, b.role, b.version, b.capabilities, b.secret,
                                  s.now, cfg.policy);
    }
  }

  /** Every REGISTER_OK carries the session of the step that built it. */
  lemma {:induction false} SnapshotOrigin(cfg: Config, states: seq<System>, events: seq<Event>, i: nat, id: MsgId)
    requires IsRun(cfg, states, events) && i <= |events| < |states|
    requires id in states[i].created && states[i].created[id].body.RegisterOk?
    ensures exists k :: 0 <= k < i && AcceptsWithSession(cfg, states[k], events[k], states[i].created[id])
  {
    assert Init(states[0]);
    if i > 0 {
      hide IsRun, Init, Enabled, Do, Built, Sent, AcceptsWithSession;
      var s, e := states[i - 1], events[i - 1];
      Theorems.StepOfRun(cfg, states, events, i - 1);
      StepAdds(cfg, s, e);
      if id in s.created {
        SnapshotOrigin(cfg, states, events, i - 1, id);
      } else {
        BuiltRegisterOk(cfg, s, e);
      }
    }
  }
}

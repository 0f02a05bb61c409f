/** A run in which a client registers and a command completes: the statements about commands that
    return normally do not speak of nothing; and a run in which a trial starts too early. */
module ExampleRun {
  import opened Types
  import opened Messages
  import opened ClientLoop
  import opened Protocol
  import AckTable
  import AckLaws
  import ClientRuns
  import ClockTheorems
  import Dedupe
  import Histories
  import Registry
  import RunTheorems
  import Sessions
  import TrialRuns
  import Versioning

  const C := CommandId("command")

  /** The server lets p register: its own version is well formed, and it has a secret for p if it
      asks for one. */
  predicate Admits(cfg: Config, p: Peer) {
    Versioning.Parse(cfg.policy.version).Ok? && (cfg.policy.requireSecret ==> p in cfg.policy.secrets)
  }

  function Id(n: nat): MsgId {
    MsgId(seq(n, _ => 'x'))
  }

  lemma IdsDiffer(m: nat, n: nat)
    ensures Id(m) == Id(n) <==> m == n
  {
    assert |Id(m).hex| == m && |Id(n).hex| == n;
  }

  /** A run that ends in the given state. */
  ghost predicate RunsTo(cfg: Config, states: seq<System>, events: seq<Event>, s: System) {
    IsRun(cfg, states, events) && states[|states| - 1] == s
  }

  /** The run goes on with one more step. */
  lemma Then(cfg: Config, states: seq<System>, events: seq<Event>, s: System, e: Event)
    returns (states': seq<System>, events': seq<Event>, s': System)
    requires RunsTo(cfg, states, events, s) && Enabled(cfg, s, e)
    ensures RunsTo(cfg, states', events', s') && s' == Do(cfg, s, e)
    ensures events' == events + [e] && states' == states + [s']
  {
    hide Init, Enabled, Do;
    s' := Do(cfg, s, e);
    states', events' := states + [s'], events + [e];
    forall i | 0 <= i < |events'|
      ensures Next(cfg, states'[i], events'[i], states'[i + 1])
    {
      if i < |events| {
        assert Next(cfg, states[i], events[i], states[i + 1]);
      }
    }
  }

  function Start(p: Peer): System {
    System(0.0, map[], Sessions.INITIAL, AckTable.EMPTY, map[], map[], map[p := NEW_CLIENT], map[], {})
  }

  /** What the run has come to: the first unused id, the time, and the client's clock pair. */
  datatype Scene = Scene(next: nat, now: real, offsetMs: real, rttMs: real)

  /** Ids from n on are unused. */
  ghost predicate Unused(s: System, c: Client, n: nat) {
    forall k: nat :: k >= n ==> Id(k) !in s.created && Id(k) !in c.items
  }

  /** The client is doing nothing and has started nothing. */
  ghost predicate Idle(s: System, p: Peer, z: Scene) {
    && s.now == z.now && p in s.clients && s.clients[p].job == None && s.clients[p].starts == []
    && s.clients[p].offsetMs == z.offsetMs && s.clients[p].rttMs == z.rttMs
    && Unused(s, s.clients[p], z.next)
  }

  ghost predicate NothingCommanded(s: System) {
    s.acks == AckTable.EMPTY && s.tasks == map[] && s.orders == map[]
  }

  /** The client is registered; nothing has been commanded yet. */
  ghost predicate Registered(s: System, p: Peer, z: Scene) {
    s.registry.Keys == {p} && NothingCommanded(s) && Idle(s, p, z)
  }

  function Registration(cfg: Config, p: Peer): Message {
    var secret := if p in cfg.policy.secrets then Some(cfg.policy.secrets[p]) else None;
    Message(Id(0), None, false, Register("stimulus", cfg.policy.version, [], secret))
  }

  /** The client has asked to register. */
  ghost predicate Asked(cfg: Config, s: System, p: Peer) {
    && s.registry == map[] && NothingCommanded(s) && Idle(s, p, Scene(1, 0.0, 0.0, 0.0))
    && ToServer(p, Registration(cfg, p)) in s.net
  }

  /** A fresh id is used: those after it are still unused. */
  lemma OneMoreUsed(s: System, c: Client, s': System, c': Client, n: nat)
    requires Unused(s, c, n) && s'.created.Keys <= s.created.Keys + {Id(n)}
    requires forall x :: x in c'.items ==> x in c.items || x == Id(n)
    ensures Unused(s', c', n + 1)
  {
    forall k: nat | k >= n + 1
      ensures Id(k) !in s'.created && Id(k) !in c'.items
    {
      IdsDiffer(k, n);
    }
  }

  lemma ItAsks(cfg: Config, p: Peer)
    ensures var e := SendRequest(p, Id(0), Registration(cfg, p).body);
            Enabled(cfg, Start(p), e) && Asked(cfg, Do(cfg, Start(p), e), p)
  {
    var s' := Do(cfg, Start(p), SendRequest(p, Id(0), Registration(cfg, p).body));
    OneMoreUsed(Start(p), NEW_CLIENT, s', s'.clients[p], 0);
  }

  lemma ItIsRegistered(cfg: Config, s: System, p: Peer)
    requires Admits(cfg, p) && Asked(cfg, s, p)
    ensures var e := ServerReceive(p, Registration(cfg, p), Id(1));
            Enabled(cfg, s, e) && Registered(Do(cfg, s, e), p, Scene(2, 0.0, 0.0, 0.0))
  {
    Accepted(cfg, p, s);
    hide Registry.Handle, Registry.Enroll, AckTable.Accept;
    var s' := Do(cfg, s, ServerReceive(p, Registration(cfg, p), Id(1)));
    OneMoreUsed(s, s.clients[p], s', s'.clients[p], 1);
  }

  lemma ItRegisters(cfg: Config, p: Peer) returns (states: seq<System>, events: seq<Event>, s: System)
    requires Admits(cfg, p)
    ensures RunsTo(cfg, states, events, s) && Registered(s, p, Scene(2, 0.0, 0.0, 0.0)) && NeverResumes(events)
  {
    states, events, s := [Start(p)], [], Start(p);
    assert RunsTo(cfg, states, events, s);
    hide RunsTo, Enabled, Do, Asked, Registered;
    ItAsks(cfg, p);
    states, events, s := Then(cfg, states, events, s, SendRequest(p, Id(0), Registration(cfg, p).body));
    ItIsRegistered(cfg, s, p);
    states, events, s := Then(cfg, states, events, s, ServerReceive(p, Registration(cfg, p), Id(1)));
  }

  predicate NeverResumes(events: seq<Event>) {
    forall i :: 0 <= i < |events| ==> !events[i].ResumeExchange?
  }

  lemma Accepted(cfg: Config, p: Peer, s: System)
    requires Admits(cfg, p) && s.registry == map[]
    ensures Registry.Handle(s.registry, p, Registration(cfg, p).body, s.now, cfg.policy).Keys == {p}
  {
    Versioning.NegotiatedIsAgreeable(cfg.policy.version, cfg.policy.version,
                                     Registry.ServerCapabilities(cfg.policy.requireSecret), []);
    hide Versioning.Negotiate, Versioning.Agreeable, Registry.ServerCapabilities;
  }

  // ---------- the client synchronises ----------

  function PingOf(theta: real): Message {
    Message(Id(2), None, false, Ping(-theta))
  }

  /** The reply to a ping that took d to reach the server. */
  function PongOf(theta: real, d: real): Message {
    Message(Id(3), Some(Id(2)), false, Pong(-theta, d, d))
  }

  /** The ping has left at time 0; it is now z.now. */
  ghost predicate Pinged(cfg: Config, s: System, p: Peer, z: Scene) {
    && Registered(s, p, z) && ToServer(p, PingOf(cfg.trueOffset(p))) in s.net
    && Id(2) in s.clients[p].responses && s.clients[p].responses[Id(2)] == PingRequest(-cfg.trueOffset(p))
  }

  lemma ItPings(cfg: Config, s: System, p: Peer)
    requires Registered(s, p, Scene(2, 0.0, 0.0, 0.0))
    ensures var e := SendRequest(p, Id(2), PingOf(cfg.trueOffset(p)).body);
            Enabled(cfg, s, e) && Pinged(cfg, Do(cfg, s, e), p, Scene(3, 0.0, 0.0, 0.0))
  {
    var s' := Do(cfg, s, SendRequest(p, Id(2), PingOf(cfg.trueOffset(p)).body));
    OneMoreUsed(s, s.clients[p], s', s'.clients[p], 2);
  }

  lemma ItTravels(cfg: Config, s: System, p: Peer, d: real)
    requires Pinged(cfg, s, p, Scene(3, 0.0, 0.0, 0.0)) && d >= 0.0
    ensures Enabled(cfg, s, Tick(d)) && Pinged(cfg, Do(cfg, s, Tick(d)), p, Scene(3, d, 0.0, 0.0))
  {
    hide Unused;
    var s' := Do(cfg, s, Tick(d));
    SameUnused(s, s', s.clients[p], 3);
  }

  lemma SameUnused(s: System, s': System, c: Client, n: nat)
    requires Unused(s, c, n) && s'.created == s.created
    ensures Unused(s', c, n)
  {
  }

  lemma ItIsPonged(cfg: Config, s: System, p: Peer, d: real)
    requires Pinged(cfg, s, p, Scene(3, d, 0.0, 0.0))
    ensures var e := ServerReceive(p, PingOf(cfg.trueOffset(p)), Id(3));
      && Enabled(cfg, s, e) && Pinged(cfg, Do(cfg, s, e), p, Scene(4, d, 0.0, 0.0))
      && ToClient(p, PongOf(cfg.trueOffset(p), d)) in Do(cfg, s, e).net
      && Id(3) !in Do(cfg, s, e).clients[p].items
  {
    var s' := Do(cfg, s, ServerReceive(p, PingOf(cfg.trueOffset(p)), Id(3)));
    OneMoreUsed(s, s.clients[p], s', s'.clients[p], 3);
  }

  /** The reply is handed to the coroutine that asked. */
  ghost predicate Ponged(cfg: Config, s: System, p: Peer, d: real) {
    && Registered(s, p, Scene(4, d, 0.0, 0.0))
    && Id(2) in s.clients[p].answers
    && s.clients[p].answers[Id(2)] == Answer(PingRequest(-cfg.trueOffset(p)), PongOf(cfg.trueOffset(p), d))
  }

  lemma ItReceivesPong(cfg: Config, s: System, p: Peer, d: real)
    requires Pinged(cfg, s, p, Scene(4, d, 0.0, 0.0)) && Id(3) !in s.clients[p].items
    requires ToClient(p, PongOf(cfg.trueOffset(p), d)) in s.net
    ensures var e := ClientReceive(p, PongOf(cfg.trueOffset(p), d), Id(4));
            Enabled(cfg, s, e) && Ponged(cfg, Do(cfg, s, e), p, d)
  {
    var e := ClientReceive(p, PongOf(cfg.trueOffset(p), d), Id(4));
    var s' := Do(cfg, s, e);
    TouchAdds(s.clients[p].items, cfg.dedupCacheSize, Id(3));
    hide Dedupe.Touch;
    StillUnused(s, s.clients[p], s', s'.clients[p], 4, 3);
  }

  lemma TouchAdds(items: seq<MsgId>, maxSize: int, m: MsgId)
    ensures forall x :: x in Dedupe.Touch(items, maxSize, m) ==> x in items || x == m
  {
  }

  lemma StillUnused(s: System, c: Client, s': System, c': Client, n: nat, m: nat)
    requires Unused(s, c, n) && s'.created == s.created && m < n
    requires forall x :: x in c'.items ==> x in c.items || x == Id(m)
    ensures Unused(s', c', n)
  {
    forall k: nat | k >= n
      ensures Id(k) !in s'.created && Id(k) !in c'.items
    {
      IdsDiffer(k, m);
    }
  }

  lemma ItSyncs(cfg: Config, s: System, p: Peer, d: real)
    requires Ponged(cfg, s, p, d)
    ensures var e := ResumeExchange(p, Id(2));
      && Enabled(cfg, s, e) && Registered(Do(cfg, s, e), p, Scene(4, d, 1000.0 * cfg.trueOffset(p) + 500.0 * d, 1000.0 * d))
      && ClientRuns.Syncs(s, e, p)
  {
    var s' := Do(cfg, s, ResumeExchange(p, Id(2)));
    hide Unused;
    StillUnused(s, s.clients[p], s', s'.clients[p], 4, 0);
  }

  /** From registration to a clock pair taken over a path that is slow one way only. */
  lemma ItSynchronises(cfg: Config, p: Peer, d: real) returns (states: seq<System>, events: seq<Event>, s: System)
    requires Admits(cfg, p) && d >= 0.0
    ensures RunsTo(cfg, states, events, s) && |states| == |events| + 1
    ensures Registered(s, p, Scene(4, d, 1000.0 * cfg.trueOffset(p) + 500.0 * d, 1000.0 * d))
    ensures ClockTheorems.Synced(states, events, |events|, p)
  {
    hide Enabled, Do, Pinged, Ponged, Registered, ClientRuns.Syncs, RunsTo;
    var theta := cfg.trueOffset(p);
    states, events, s := ItRegisters(cfg, p);
    ItPings(cfg, s, p);
    states, events, s := Then(cfg, states, events, s, SendRequest(p, Id(2), PingOf(theta).body));
    ItTravels(cfg, s, p, d);
    states, events, s := Then(cfg, states, events, s, Tick(d));
    ItIsPonged(cfg, s, p, d);
    states, events, s := Then(cfg, states, events, s, ServerReceive(p, PingOf(theta), Id(3)));
    ItReceivesPong(cfg, s, p, d);
    states, events, s := Then(cfg, states, events, s, ClientReceive(p, PongOf(theta, d), Id(4)));
    ItSyncs(cfg, s, p, d);
    ghost var before := s;
    Lengths(cfg, states, events, s);
    states, events, s := Then(cfg, states, events, s, ResumeExchange(p, Id(2)));
    Lengths(cfg, states, events, s);
    assert states[|events| - 1] == before;
  }

  // ---------- a command is issued and sent ----------

  function CommandOf(order: Order, n: nat): Message {
    Message(Id(n), None, true, Command(order.kind, C, order.executeAt))
  }

  ghost predicate Issued(s: System, p: Peer, order: Order, z: Scene) {
    && s.acks == AckTable.Open(AckTable.EMPTY, C, {p}) && s.tasks == map[TaskKey(C, p) := Scheduled]
    && s.orders == map[C := order] && Idle(s, p, z)
  }

  lemma ItIsIssued(cfg: Config, s: System, p: Peer, order: Order, z: Scene)
    requires Registered(s, p, z)
    ensures Enabled(cfg, s, Issue(C, order)) && Issued(Do(cfg, s, Issue(C, order)), p, order, z)
  {
    hide AckTable.Open, Unused;
    assert NewTasks(C, {p}) == map[TaskKey(C, p) := Scheduled];
    SameUnused(s, Do(cfg, s, Issue(C, order)), s.clients[p], z.next);
  }

  /** The command with id n is entered in the tables. */
  ghost predicate OnTheBooks(s: System, p: Peer, order: Order, n: nat) {
    && s.acks.commands == map[C := {p}] && s.acks.futures == map[Id(n) := AckTable.Waiting]
    && AckTable.Key(Id(n), p) in s.acks.pending && Id(n) in s.acks.tracking
    && Id(n) in s.created && s.created[Id(n)] == CommandOf(order, n)
  }

  lemma ItIsEntered(cfg: Config, s: System, p: Peer, order: Order, z: Scene)
    requires Issued(s, p, order, z)
    ensures var e := Enter(TaskKey(C, p), Id(z.next));
      && Enabled(cfg, s, e) && OnTheBooks(Do(cfg, s, e), p, order, z.next)
      && Idle(Do(cfg, s, e), p, z.(next := z.next + 1)) && Id(z.next) !in Do(cfg, s, e).clients[p].items
      && Do(cfg, s, e).tasks == map[TaskKey(C, p) := Protocol.Entered(Id(z.next))]
  {
    var s' := Do(cfg, s, Enter(TaskKey(C, p), Id(z.next)));
    OneMoreUsed(s, s.clients[p], s', s'.clients[p], z.next);
  }

  ghost predicate Waits(s: System, p: Peer, n: nat) {
    s.tasks.Keys == {TaskKey(C, p)} && s.tasks[TaskKey(C, p)].Awaiting? && s.tasks[TaskKey(C, p)].m == Id(n)
  }

  ghost predicate Commanded(s: System, p: Peer, order: Order, z: Scene) {
    && OnTheBooks(s, p, order, z.next) && Idle(s, p, z.(next := z.next + 1)) && Id(z.next) !in s.clients[p].items
    && Waits(s, p, z.next) && ToClient(p, CommandOf(order, z.next)) in s.net
  }

  lemma ItIsSent(cfg: Config, s: System, p: Peer, order: Order, z: Scene)
    requires OnTheBooks(s, p, order, z.next) && Idle(s, p, z.(next := z.next + 1)) && Id(z.next) !in s.clients[p].items
    requires s.tasks == map[TaskKey(C, p) := Protocol.Entered(Id(z.next))]
    ensures var e := Transmit(TaskKey(C, p)); Enabled(cfg, s, e) && Commanded(Do(cfg, s, e), p, order, z)
  {
    hide Unused;
    SameUnused(s, Do(cfg, s, Transmit(TaskKey(C, p))), s.clients[p], z.next + 1);
  }

  /** The command needs no wait: it is no trial start, or its target on the client's clock has come. */
  predicate Due(theta: real, order: Order, z: Scene) {
    order.kind == TRIAL_START_AT ==> order.executeAt - z.offsetMs / 1000.0 <= z.now - theta
  }

  function StartAt(theta: real, order: Order, z: Scene): TrialStart {
    TrialStart(Id(z.next), order.executeAt, order.executeAt - z.offsetMs / 1000.0, z.now - theta, z.now - theta,
               z.offsetMs, z.rttMs)
  }

  /** The client is running the command's handlers. */
  ghost predicate Running(theta: real, s: System, p: Peer, order: Order, z: Scene) {
    && OnTheBooks(s, p, order, z.next) && Waits(s, p, z.next)
    && p in s.clients && s.clients[p].job.Some? && s.clients[p].job.value.phase.Handling?
    && s.clients[p].job.value.msg == CommandOf(order, z.next)
    && Id(z.next + 1) !in s.created && Id(z.next + 2) !in s.created
    && (order.kind == TRIAL_START_AT ==> s.clients[p].starts == [StartAt(theta, order, z)])
  }

  lemma ItIsReceived(cfg: Config, s: System, p: Peer, order: Order, z: Scene)
    requires Commanded(s, p, order, z) && Due(cfg.trueOffset(p), order, z)
    ensures var theta, e := cfg.trueOffset(p), ClientReceive(p, CommandOf(order, z.next), Id(z.next + 1));
      && Enabled(cfg, s, e) && Running(theta, Do(cfg, s, e), p, order, z)
      && TrialRuns.ReceiptOf(cfg, s, e, p, StartAt(theta, order, z))
  {
    var theta := cfg.trueOffset(p);
    ItRuns(s.clients[p], p, order, cfg.dedupCacheSize, z.now - theta, theta, z);
    hide Receive;
  }

  lemma ItRuns(c: Client, p: Peer, order: Order, maxSize: int, now: real, theta: real, z: Scene)
    requires c.job == None && Id(z.next) !in c.items && c.starts == [] && c.offsetMs == z.offsetMs && c.rttMs == z.rttMs
    requires now == z.now - theta && Due(theta, order, z)
    ensures var out := Receive(c, p, CommandOf(order, z.next), maxSize, now);
      && out.ack == None && out.client.job.Some? && out.client.job.value.phase.Handling?
      && out.client.job.value.msg == CommandOf(order, z.next)
      && (order.kind == TRIAL_START_AT ==> out.client.starts == [StartAt(theta, order, z)])
  {
    hide Dedupe.Touch;
  }

  // ---------- it is acknowledged and returns ----------

  function AckMessage(p: Peer, at: real, n: nat): Message {
    Message(Id(n + 1), Some(Id(n)), false, Ack(Id(n), p, at, Some(at)))
  }

  ghost predicate Acknowledged(s: System, p: Peer, at: real, n: nat) {
    && s.acks.commands == map[C := {p}] && s.acks.futures == map[Id(n) := AckTable.Waiting]
    && AckTable.Key(Id(n), p) in s.acks.pending && Id(n) in s.acks.tracking && Waits(s, p, n)
    && Id(n + 2) !in s.created && ToServer(p, AckMessage(p, at, n)) in s.net
  }

  lemma ItIsAcknowledged(cfg: Config, s: System, p: Peer, order: Order, z: Scene)
    requires Running(cfg.trueOffset(p), s, p, order, z)
    ensures var e := FinishJob(p, Id(z.next + 1));
            Enabled(cfg, s, e) && Acknowledged(Do(cfg, s, e), p, LocalTime(cfg, s, p), z.next)
  {
    IdsDiffer(z.next + 1, z.next + 2);
  }

  ghost predicate Resolved(s: System, p: Peer, n: nat) {
    s.acks.commands == map[C := {p}] && Id(n) in s.acks.futures && s.acks.futures[Id(n)].HasValue? && Waits(s, p, n)
  }

  lemma ItIsResolved(cfg: Config, s: System, p: Peer, at: real, n: nat)
    requires Acknowledged(s, p, at, n)
    ensures var e := ServerReceive(p, AckMessage(p, at, n), Id(n + 2)); Enabled(cfg, s, e) && Resolved(Do(cfg, s, e), p, n)
  {
    hide Registry.Handle, AckTable.Accept, ClockOf;
    var clock := ClockOf(Registry.Handle(s.registry, p, AckMessage(p, at, n).body, s.now, cfg.policy), p);
    AckLaws.AcceptShape(s.acks, Id(n), p, AckTable.Reply(at, Some(at)), clock, s.now);
  }

  lemma ItReturns(cfg: Config, s: System, p: Peer, n: nat)
    requires Resolved(s, p, n)
    ensures var e := Return(TaskKey(C, p)); Enabled(cfg, s, e) && RunTheorems.ReturnedNormally(Do(cfg, s, e), C)
  {
  }

  /** A run that has registered the client goes on to the running handlers of any command that is
      due. */
  lemma ItGetsToRun(cfg: Config, p: Peer, order: Order, z: Scene, states0: seq<System>, events0: seq<Event>, s0: System)
    returns (states: seq<System>, events: seq<Event>, s: System)
    requires RunsTo(cfg, states0, events0, s0) && |states0| == |events0| + 1 && Registered(s0, p, z)
    requires Due(cfg.trueOffset(p), order, z)
    ensures RunsTo(cfg, states, events, s) && Running(cfg.trueOffset(p), s, p, order, z)
    ensures |states| == |events| + 1 && |events| == |events0| + 4
    ensures states0 <= states && events0 <= events
    ensures events[|events0|] == Issue(C, order) && p in states[|events0|].registry
    ensures TrialRuns.ReceiptOf(cfg, states[|events| - 1], events[|events| - 1], p, StartAt(cfg.trueOffset(p), order, z))
    ensures forall i :: |events0| <= i < |events| ==> !events[i].ResumeExchange?
  {
    hide IsRun, Enabled, Do, Init, Idle, Issued, OnTheBooks, Commanded, Running, NothingCommanded, TrialRuns.ReceiptOf;
    states, events, s := states0, events0, s0;
    Lengths(cfg, states, events, s);
    hide RunsTo;
    ItIsIssued(cfg, s, p, order, z);
    states, events, s := Then(cfg, states, events, s, Issue(C, order));
    ItIsEntered(cfg, s, p, order, z);
    states, events, s := Then(cfg, states, events, s, Enter(TaskKey(C, p), Id(z.next)));
    ItIsSent(cfg, s, p, order, z);
    states, events, s := Then(cfg, states, events, s, Transmit(TaskKey(C, p)));
    ItIsReceived(cfg, s, p, order, z);
    ghost var before := s;
    Lengths(cfg, states, events, s);
    states, events, s := Then(cfg, states, events, s, ClientReceive(p, CommandOf(order, z.next), Id(z.next + 1)));
    Lengths(cfg, states, events, s);
    assert states[|events| - 1] == before;
  }

  /** For every configuration that admits p, some run registers p, issues a session start with it
      registered, and ends with that command returned normally. */
  lemma ACommandCanComplete(cfg: Config, p: Peer) returns (states: seq<System>, events: seq<Event>, i: nat)
    requires Admits(cfg, p)
    ensures IsRun(cfg, states, events) && i < |events| < |states| && events[i] == Issue(C, Order(SESSION_START, 0.0))
    ensures p in states[i].registry && RunTheorems.ReturnedNormally(states[|states| - 1], C)
  {
    hide IsRun, Enabled, Do, Init, RunsTo, Registered, Running, Acknowledged, Resolved, RunTheorems.ReturnedNormally, NeverResumes,
         TrialRuns.ReceiptOf;
    var order, z := Order(SESSION_START, 0.0), Scene(2, 0.0, 0.0, 0.0);
    var s;
    states, events, s := ItRegisters(cfg, p);
    Lengths(cfg, states, events, s);
    i := |events|;
    states, events, s := ItGetsToRun(cfg, p, order, z, states, events, s);
    ItIsAcknowledged(cfg, s, p, order, z);
    var at := LocalTime(cfg, s, p);
    states, events, s := Then(cfg, states, events, s, FinishJob(p, Id(3)));
    ItIsResolved(cfg, s, p, at, 2);
    states, events, s := Then(cfg, states, events, s, ServerReceive(p, AckMessage(p, at, 2), Id(4)));
    ItReturns(cfg, s, p, 2);
    states, events, s := Then(cfg, states, events, s, Return(TaskKey(C, p)));
    Lengths(cfg, states, events, s);
  }

  lemma Lengths(cfg: Config, states: seq<System>, events: seq<Event>, s: System)
    requires RunsTo(cfg, states, events, s)
    ensures |states| == |events| + 1 && states[|events|] == s && IsRun(cfg, states, events)
  {
    hide Init, Next;
  }

  // ---------- trials that start early ----------

  /** The client's only start is this one. */
  lemma StartedNow(cfg: Config, states: seq<System>, events: seq<Event>, s: System, p: Peer, order: Order, z: Scene)
    requires RunsTo(cfg, states, events, s) && Running(cfg.trueOffset(p), s, p, order, z) && order.kind == TRIAL_START_AT
    ensures IsRun(cfg, states, events) && |states| == |events| + 1
    ensures p in states[|events|].clients && StartAt(cfg.trueOffset(p), order, z) in Histories.TrialStarts(cfg, states, |events|, p)
  {
    Lengths(cfg, states, events, s);
    hide IsRun, RunsTo;
    Histories.RecordsAreReal(cfg, states, events, |events|, p);
  }

  /** The bound on starts of synchronised clients is reached: for every client the server admits and
      every d >= 0 there is a run in which the client, synchronised when the message reaches it, has
      measured a round trip of d seconds and starts the trial exactly half of it too early. */
  lemma ABoundaryStart(cfg: Config, p: Peer, d: real) returns (states: seq<System>, events: seq<Event>, x: TrialStart)
    requires Admits(cfg, p) && d >= 0.0
    ensures IsRun(cfg, states, events) && |events| < |states| && p in states[|events|].clients
    ensures x in Histories.TrialStarts(cfg, states, |events|, p)
    ensures ClockTheorems.ReceivedWhen(cfg, states, events, |events|, p, x, true)
    ensures x.rttMs == 1000.0 * d && x.at == x.target
    ensures ClockTheorems.ServerStart(cfg, p, x) == x.executeAt - x.rttMs / 2000.0
  {
    hide IsRun, RunsTo, Registered, TrialRuns.ReceiptOf, ClockTheorems.Synced, Running;
    var theta := cfg.trueOffset(p);
    var order, z := Order(TRIAL_START_AT, 1.5 * d), Scene(4, d, 1000.0 * theta + 500.0 * d, 1000.0 * d);
    var states0, events0, s := ItSynchronises(cfg, p, d);
    states, events, s := ItGetsToRun(cfg, p, order, z, states0, events0, s);
    StartedNow(cfg, states, events, s, p, order, z);
    x := StartAt(theta, order, z);
    StaysSynced(states0, events0, states, events, |events| - 1, p);
    assert TrialRuns.ReceiptOf(cfg, states[|events| - 1], events[|events| - 1], p, x);
  }

  /** A client that has synchronised in a run stays so when the run goes on. */
  lemma StaysSynced(states0: seq<System>, events0: seq<Event>, states: seq<System>, events: seq<Event>, i: nat, p: Peer)
    requires |events0| < |states0| && states0 <= states && events0 <= events && |events0| <= i <= |events| < |states|
    requires ClockTheorems.Synced(states0, events0, |events0|, p)
    ensures ClockTheorems.Synced(states, events, i, p)
  {
    var k := ClientRuns.LastSync(states0, events0, |events0|, p).value;
    assert states[k] == states0[k] && events[k] == events0[k];
  }

  lemma {:induction false} NeverSynced(states: seq<System>, events: seq<Event>, i: nat, p: Peer)
    requires i <= |events| < |states| && NeverResumes(events)
    ensures !ClockTheorems.Synced(states, events, i, p)
  {
  }

  /** In no run does p, not yet synchronised, start a trial before its time. */
  ghost predicate NeverEarly(cfg: Config, p: Peer) {
    forall states, events, i: nat, x :: IsRun(cfg, states, events) && i <= |events| < |states| ==>
      NotEarlyIn(cfg, states, events, i, p, x)
  }

  ghost predicate NotEarlyIn(cfg: Config, states: seq<System>, events: seq<Event>, i: nat, p: Peer, x: TrialStart)
    requires i <= |events| < |states|
  {
    p in states[i].clients && x in Histories.TrialStarts(cfg, states, i, p) && ClockTheorems.ReceivedWhen(cfg, states, events, i, p, x, false) ==>
      x.executeAt <= ClockTheorems.ServerStart(cfg, p, x)
  }

  /** If p's clock runs ahead of the server's, some run lets p start a trial before its time. */
  lemma AnEarlyStart(cfg: Config, p: Peer) returns (states: seq<System>, events: seq<Event>, x: TrialStart)
    requires Admits(cfg, p) && cfg.trueOffset(p) < 0.0
    ensures IsRun(cfg, states, events) && |events| < |states| && !NotEarlyIn(cfg, states, events, |events|, p, x)
  {
    var order, z := Order(TRIAL_START_AT, -cfg.trueOffset(p)), Scene(2, 0.0, 0.0, 0.0);
    hide IsRun, Running, Registered, TrialRuns.ReceiptOf, ClockTheorems.ReceivedWhen;
    var s;
    states, events, s := ItRegisters(cfg, p);
    Lengths(cfg, states, events, s);
    hide RunsTo;
    states, events, s := ItGetsToRun(cfg, p, order, z, states, events, s);
    StartedNow(cfg, states, events, s, p, order, z);
    x := StartAt(cfg.trueOffset(p), order, z);
    ClockTheorems.StartWasReceivedWhen(cfg, states, events, |events|, p, x);
    NotReceivedSynced(cfg, states, events, |events|, p, x);
  }

  lemma NotReceivedSynced(cfg: Config, states: seq<System>, events: seq<Event>, i: nat, p: Peer, x: TrialStart)
    requires i <= |events| < |states| && NeverResumes(events)
    ensures !ClockTheorems.ReceivedWhen(cfg, states, events, i, p, x, true)
  {
    forall k | 0 <= k < i
      ensures !ClockTheorems.Synced(states, events, k, p)
    {
      NeverSynced(states, events, k, p);
    }
  }

  /** The start of an unsynchronised client is safe exactly for clients whose clock is not ahead of
      the server's. */
  lemma UnsyncedIsNeverEarlyIff(cfg: Config, p: Peer)
    requires Admits(cfg, p)
    ensures NeverEarly(cfg, p) <==> cfg.trueOffset(p) >= 0.0
  {
    hide IsRun, NotEarlyIn;
    if cfg.trueOffset(p) < 0.0 {
      var states, events, x := AnEarlyStart(cfg, p);
    } else {
      forall states, events, i: nat, x | IsRun(cfg, states, events) && i <= |events| < |states|
        ensures NotEarlyIn(cfg, states, events, i, p, x)
      {
        NotEarly(cfg, states, events, i, p, x);
      }
    }
  }

  lemma NotEarly(cfg: Config, states: seq<System>, events: seq<Event>, i: nat, p: Peer, x: TrialStart)
    requires IsRun(cfg, states, events) && i <= |events| < |states| && cfg.trueOffset(p) >= 0.0
    ensures NotEarlyIn(cfg, states, events, i, p, x)
  {
    hide IsRun, ClockTheorems.ReceivedWhen;
    if p in states[i].clients && x in Histories.TrialStarts(cfg, states, i, p) && ClockTheorems.ReceivedWhen(cfg, states, events, i, p, x, false) {
      ClockTheorems.UnsyncedStartIsOff(cfg, states, events, i, p, x, 0.0);
    }
  }
}

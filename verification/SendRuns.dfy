/** The life of each send of a command in a run: what is sent, how long `_send_control` waits for its
    acknowledgement, and what becomes of the future it waits for. */
module SendRuns {
  import opened Types
  import opened Messages
  import opened Protocol
  import opened StepShape
  import opened Theorems
  import AckTable
  import AckLaws
  import DelayRuns
  import ExchangeLaws
  import GroundLaws
  import Ledgers
  import Registry
  import SafetyLaws
  import Sessions

  /** The timeout in seconds. */
  function Patience(cfg: Config): real {
    cfg.ackTimeoutMs / 1000.0
  }

  /** The step happens among those from i to before j. */
  ghost predicate Happens(events: seq<Event>, i: nat, j: nat, e: Event)
    requires j <= |events|
  {
    exists k :: i <= k < j && events[k] == e
  }

  // ---------- one coroutine ----------

  /** What a step makes of one coroutine. */
  predicate TaskMoves(cfg: Config, s: System, e: Event, k: TaskKey, task: Task, task': Task) {
    if e.Enter? && e.key == k then task.Scheduled? && task' == Entered(e.id)
    else if e == Transmit(k) then task.Entered? && task' == Awaiting(task.m, s.now + Patience(cfg))
    else if e == Return(k) then task.Awaiting? && task' == Returned(task.m)
    else if e == Timeout(k) then task.Awaiting? && task' == TimedOut(task.m)
    else task' == task
  }

  lemma IssueTask(cfg: Config, s: System, e: Event, k: TaskKey)
    requires SafetyLaws.Safe(cfg, s) && Enabled(cfg, s, e) && e.Issue?
    ensures k in s.tasks ==> k in Do(cfg, s, e).tasks && Do(cfg, s, e).tasks[k] == s.tasks[k]
    ensures k !in s.tasks && k in Do(cfg, s, e).tasks ==> Do(cfg, s, e).tasks[k] == Scheduled
  {
    hide AckTable.TableInv, SafetyLaws.Wire, SafetyLaws.Loops, SafetyLaws.AcksBacked, SafetyLaws.AcceptedBacked, SafetyLaws.TaskOk,
         NewTasks;
  }

  lemma ReceiveTasks(cfg: Config, s: System, p: Peer, msg: Message, replyId: MsgId)
    ensures DoServerReceive(cfg, s, p, msg, replyId).tasks == s.tasks && DoServerReceive(cfg, s, p, msg, replyId).orders == s.orders
  {
    hide Registry.Handle, AckTable.Accept, ServerReply, ClockOf;
  }

  lemma OutputTasks(s: System, p: Peer, out: ClientLoop.Output, ackId: MsgId)
    ensures ClientStep(s, p, out, ackId).tasks == s.tasks && ClientStep(s, p, out, ackId).orders == s.orders
  {
  }

  /** The steps that are no step of a coroutine leave them all alone. */
  lemma OtherTasks(cfg: Config, s: System, e: Event)
    requires Enabled(cfg, s, e) && !e.Issue? && !e.Enter? && !e.Transmit? && !e.Return? && !e.Timeout?
    ensures Do(cfg, s, e).tasks == s.tasks && Do(cfg, s, e).orders == s.orders
  {
    hide DoServerReceive, ClientLoop.Receive, ClientLoop.Finish, ClientLoop.Wake, ClientLoop.Resume, ClientLoop.Ask, LocalTime,
         IsRequest, IsReport, RequestOf, ClientStep, AckTable.Expire, Registry.Scan, Sessions.Apply;
    if e.ServerReceive? {
      ReceiveTasks(cfg, s, e.peer, e.msg, e.replyId);
    } else if e.ClientReceive? {
      OutputTasks(s, e.peer, ClientLoop.Receive(s.clients[e.peer], e.peer, e.msg, cfg.dedupCacheSize, LocalTime(cfg, s, e.peer)), e.ackId);
    } else if e.FinishJob? {
      OutputTasks(s, e.peer, ClientLoop.Finish(s.clients[e.peer], e.peer, LocalTime(cfg, s, e.peer)), e.ackId);
    }
  }

  lemma OwnTasks(cfg: Config, s: System, e: Event, k: TaskKey)
    requires Enabled(cfg, s, e) && (e.Enter? || e.Transmit? || e.Return? || e.Timeout?)
    ensures k in Do(cfg, s, e).tasks <==> k in s.tasks
    ensures k in s.tasks ==> TaskMoves(cfg, s, e, k, s.tasks[k], Do(cfg, s, e).tasks[k])
  {
    hide AckTable.Add, AckTable.GiveUp;
  }

  lemma StepTask(cfg: Config, s: System, e: Event, k: TaskKey)
    requires SafetyLaws.Safe(cfg, s) && Enabled(cfg, s, e)
    ensures k in s.tasks ==> k in Do(cfg, s, e).tasks && TaskMoves(cfg, s, e, k, s.tasks[k], Do(cfg, s, e).tasks[k])
    ensures k !in s.tasks && k in Do(cfg, s, e).tasks ==> Do(cfg, s, e).tasks[k] == Scheduled
  {
    hide Do, Enabled, SafetyLaws.Safe;
    if e.Issue? {
      IssueTask(cfg, s, e, k);
    } else if e.Enter? || e.Transmit? || e.Return? || e.Timeout? {
      OwnTasks(cfg, s, e, k);
    } else {
      OtherTasks(cfg, s, e);
    }
  }

  lemma RunTask(cfg: Config, states: seq<System>, events: seq<Event>, i: nat, k: TaskKey)
    requires IsRun(cfg, states, events) && i < |events|
    ensures |states| == |events| + 1
    ensures k in states[i].tasks ==>
              k in states[i + 1].tasks && TaskMoves(cfg, states[i], events[i], k, states[i].tasks[k], states[i + 1].tasks[k])
    ensures k !in states[i].tasks && k in states[i + 1].tasks ==> states[i + 1].tasks[k] == Scheduled
    ensures (events[i] == Transmit(k) || events[i] == Return(k) || events[i] == Timeout(k)) || (events[i].Enter? && events[i].key == k) ==>
              k in states[i].tasks
  {
    hide IsRun, Do, SafetyLaws.Safe, ExchangeLaws.Exchanges, GroundLaws.Grounded;
    StepOfRun(cfg, states, events, i);
    RunKeepsAll(cfg, states, events, i);
    StepTask(cfg, states[i], events[i], k);
  }

  // ---------- how long it waits ----------

  /** Since step t transmitted it, the coroutine waits for the deadline that step set, until it
      returns or times out. */
  ghost predicate Waits(cfg: Config, states: seq<System>, events: seq<Event>, t: nat, i: nat, k: TaskKey)
    requires t < i <= |events| < |states|
  {
    && k in states[t].tasks && states[t].tasks[k].Entered? && k in states[i].tasks
    && match states[i].tasks[k]
       case Awaiting(m, deadline) =>
         && m == states[t].tasks[k].m && deadline == states[t].now + Patience(cfg)
         && !Happens(events, t + 1, i, Return(k)) && !Happens(events, t + 1, i, Timeout(k))
       case Returned(m) =>
         m == states[t].tasks[k].m && Happens(events, t + 1, i, Return(k)) && !Happens(events, t + 1, i, Timeout(k))
       case TimedOut(m) =>
         m == states[t].tasks[k].m && Happens(events, t + 1, i, Timeout(k)) && !Happens(events, t + 1, i, Return(k))
       case _ => false
  }

  lemma {:induction false} WaitsSince(cfg: Config, states: seq<System>, events: seq<Event>, t: nat, i: nat, k: TaskKey)
    requires IsRun(cfg, states, events) && t < i <= |events| < |states| && events[t] == Transmit(k)
    ensures Waits(cfg, states, events, t, i, k)
    decreases i
  {
    hide IsRun;
    RunTask(cfg, states, events, i - 1, k);
    if i > t + 1 {
      WaitsSince(cfg, states, events, t, i - 1, k);
      hide Patience;
      assert Happens(events, t + 1, i, Return(k)) <==> Happens(events, t + 1, i - 1, Return(k)) || events[i - 1] == Return(k);
      assert Happens(events, t + 1, i, Timeout(k)) <==> Happens(events, t + 1, i - 1, Timeout(k)) || events[i - 1] == Timeout(k);
    }
  }

  /** A coroutine that has got past its sending was transmitted in some step. */
  lemma {:induction false} WasTransmitted(cfg: Config, states: seq<System>, events: seq<Event>, i: nat, k: TaskKey) returns (t: nat)
    requires IsRun(cfg, states, events) && i <= |events| < |states| && k in states[i].tasks
    requires !states[i].tasks[k].Scheduled? && !states[i].tasks[k].Entered?
    ensures t < i && events[t] == Transmit(k)
  {
    hide IsRun;
    StartOfRun(cfg, states, events);
    t := i - 1;
    RunTask(cfg, states, events, i - 1, k);
    if events[i - 1] != Transmit(k) {
      t := WasTransmitted(cfg, states, events, i - 1, k);
    }
  }

  /** A coroutine that has entered a message keeps it. */
  lemma {:induction false} KeepsMessage(cfg: Config, states: seq<System>, events: seq<Event>, e: nat, i: nat, k: TaskKey, m: MsgId)
    requires IsRun(cfg, states, events) && e < i <= |events| < |states| && events[e] == Enter(k, m)
    ensures k in states[i].tasks && !states[i].tasks[k].Scheduled? && states[i].tasks[k].m == m
    decreases i
  {
    hide IsRun;
    RunTask(cfg, states, events, i - 1, k);
    if i > e + 1 {
      KeepsMessage(cfg, states, events, e, i - 1, k, m);
    }
  }

  lemma {:induction false} WasEnteredFor(cfg: Config, states: seq<System>, events: seq<Event>, i: nat, k: TaskKey) returns (e: nat)
    requires IsRun(cfg, states, events) && i <= |events| < |states| && k in states[i].tasks && !states[i].tasks[k].Scheduled?
    ensures e < i && events[e] == Enter(k, states[i].tasks[k].m)
  {
    hide IsRun;
    StartOfRun(cfg, states, events);
    e := i - 1;
    RunTask(cfg, states, events, i - 1, k);
    if !(events[i - 1].Enter? && events[i - 1].key == k) {
      e := WasEnteredFor(cfg, states, events, i - 1, k);
    }
  }

  /** The coroutine has timed out exactly if such a step happened. */
  lemma {:induction false} TimedOutMeans(cfg: Config, states: seq<System>, events: seq<Event>, i: nat, k: TaskKey)
    requires IsRun(cfg, states, events) && i <= |events| < |states|
    ensures Happens(events, 0, i, Timeout(k)) <==> k in states[i].tasks && states[i].tasks[k].TimedOut?
  {
    hide IsRun;
    StartOfRun(cfg, states, events);
    if i > 0 {
      TimedOutMeans(cfg, states, events, i - 1, k);
      RunTask(cfg, states, events, i - 1, k);
      hide Patience;
      assert Happens(events, 0, i, Timeout(k)) <==> Happens(events, 0, i - 1, Timeout(k)) || events[i - 1] == Timeout(k);
    }
  }

  // ---------- the future ----------

  /** What a step makes of the futures. */
  predicate FuturesMove(s: System, e: Event, futures': map<MsgId, AckTable.Future>) {
    var futures := s.acks.futures;
    if e.Enter? then futures' == futures[e.id := AckTable.Waiting]
    else if e.Timeout? && e.key in s.tasks && !s.tasks[e.key].Scheduled? then futures' == futures[s.tasks[e.key].m := AckTable.Cancelled]
    else if Ledgers.Accepts(s, e) && e.msg.body.replyTo in futures && futures[e.msg.body.replyTo].Waiting? then
      futures' == futures[e.msg.body.replyTo := AckTable.HasValue]
    else futures' == futures
  }

  lemma ObserveKeepsFutures(t: AckTable.Table, m: MsgId, p: Peer, reply: AckTable.Reply, clock: AckTable.ClockPair)
    ensures AckTable.Observe(t, m, p, reply, clock).futures == t.futures
  {
    if m in t.tracking {
      hide AckTable.Observe;
      AckLaws.ObserveShape(t, m, p, reply, clock);
    }
  }

  lemma AcceptFutures(t: AckTable.Table, m: MsgId, p: Peer, reply: AckTable.Reply, clock: AckTable.ClockPair, now: real)
    ensures AckTable.Accept(t, m, p, reply, clock, now).futures ==
              if AckTable.Key(m, p) in t.pending && m in t.futures && t.futures[m].Waiting? then t.futures[m := AckTable.HasValue]
              else t.futures
  {
    hide AckTable.Resolve, AckTable.Observe;
    var key := AckTable.Key(m, p);
    if key in t.pending {
      AckLaws.ResolveShape(t, key, reply, now);
      ObserveKeepsFutures(AckTable.Resolve(t, key, reply, now), m, p, reply, clock);
    }
  }

  lemma ReceiveFutures(cfg: Config, s: System, e: Event)
    requires e.ServerReceive?
    ensures FuturesMove(s, e, DoServerReceive(cfg, s, e.peer, e.msg, e.replyId).acks.futures)
  {
    hide ServerReply, ClockOf, Registry.Handle, AckTable.Accept;
    if e.msg.body.Ack? {
      var b := e.msg.body;
      AcceptFutures(s.acks, b.replyTo, b.receiver, AckTable.Reply(b.receiveTs, b.applyTs),
                    ClockOf(Registry.Handle(s.registry, e.peer, b, s.now, cfg.policy), b.receiver), s.now);
    }
  }

  lemma StepFutures(cfg: Config, s: System, e: Event)
    requires Enabled(cfg, s, e)
    ensures FuturesMove(s, e, Do(cfg, s, e).acks.futures)
  {
    hide DoServerReceive, NewTasks, AckTable.Overdue;
    if ClientMoves(e) {
      hide Do;
      ClientFrame(cfg, s, e);
    } else if !TouchesTable(e) {
      hide Do;
      TableFrame(cfg, s, e);
    } else if e.ServerReceive? {
      hide FuturesMove;
      ReceiveFutures(cfg, s, e);
    }
  }

  function KeyOf(send: AckTable.Send): TaskKey {
    TaskKey(send.command, send.peer)
  }

  /** The future of a sent message: given up if its coroutine timed out, else there once the message
      is accepted. */
  predicate Settled(s: System, m: MsgId)
    requires m in s.acks.sends
  {
    && KeyOf(s.acks.sends[m]) in s.tasks && m in s.acks.futures
    && s.acks.futures[m] == if s.tasks[KeyOf(s.acks.sends[m])].TimedOut? then AckTable.Cancelled
                            else if m in s.acks.accepted then AckTable.HasValue
                            else AckTable.Waiting
  }

  ghost predicate AllSettled(s: System) {
    forall m :: m in s.acks.sends ==> Settled(s, m)
  }

  /** The coroutine of a sent message has that message, and no other message of that coroutine. */
  lemma TaskOfSend(cfg: Config, s: System, m: MsgId)
    requires SafetyLaws.Safe(cfg, s) && m in s.acks.sends
    ensures var k := KeyOf(s.acks.sends[m]);
      && k in s.tasks && !s.tasks[k].Scheduled? && s.tasks[k].m == m && m in s.acks.futures
  {
    hide SafetyLaws.Safe, AckTable.OnePerPeer, SafetyLaws.Tasks;
    SafeTasks(cfg, s);
    var k := KeyOf(s.acks.sends[m]);
    InTasks(s, m);
    if !s.tasks[k].Scheduled? {
      SameSend(s.acks, s.tasks[k].m, m);
    }
  }

  lemma SafeTasks(cfg: Config, s: System)
    requires SafetyLaws.Safe(cfg, s)
    ensures SafetyLaws.Tasks(s.tasks, s.orders, s.acks, s.created) && AckTable.OnePerPeer(s.acks.sends, s.acks.commands)
    ensures forall m :: m in s.acks.futures <==> m in s.acks.sends
  {
    hide SafetyLaws.Wire, SafetyLaws.Loops, SafetyLaws.AcksBacked, SafetyLaws.AcceptedBacked, SafetyLaws.Tasks, AckTable.TableInv,
         AckTable.Fates, AckTable.Tracked, AckTable.OnePerPeer;
    SafetyLaws.Unpack(s.acks);
  }

  lemma InTasks(s: System, m: MsgId)
    requires SafetyLaws.Tasks(s.tasks, s.orders, s.acks, s.created) && AckTable.OnePerPeer(s.acks.sends, s.acks.commands)
    requires m in s.acks.sends
    ensures var k := KeyOf(s.acks.sends[m]);
      k in s.tasks && !s.tasks[k].Scheduled? && s.tasks[k].m in s.acks.sends && s.acks.sends[s.tasks[k].m] == s.acks.sends[m]
  {
    hide SafetyLaws.IsCommand;
    var k := KeyOf(s.acks.sends[m]);
    assert s.acks.sends[m] == AckTable.Send(k.peer, k.command);
    assert k in s.tasks by { hide SafetyLaws.TaskOk; }
    assert SafetyLaws.TaskOk(k, s.tasks[k], s.acks.sends, s.acks.futures);
    hide SafetyLaws.Tasks, AckTable.OnePerPeer;
  }

  lemma SameSend(t: AckTable.Table, m: MsgId, n: MsgId)
    requires AckTable.OnePerPeer(t.sends, t.commands) && m in t.sends && n in t.sends && t.sends[m] == t.sends[n]
    ensures m == n
  {
  }

  /** No other coroutine has that message. */
  lemma SendOfTask(cfg: Config, s: System, k: TaskKey, m: MsgId)
    requires SafetyLaws.Safe(cfg, s) && k in s.tasks && !s.tasks[k].Scheduled? && s.tasks[k].m == m
    ensures m in s.acks.sends && KeyOf(s.acks.sends[m]) == k
  {
    SafeTasks(cfg, s);
    hide SafetyLaws.Safe;
    assert SafetyLaws.TaskOk(k, s.tasks[k], s.acks.sends, s.acks.futures);
  }

  lemma EnterSettles(cfg: Config, s: System, e: Event, s': System, m: MsgId)
    requires m in s.acks.sends && Settled(s, m) && e.Enter? && e.id != m && m in s'.acks.sends && s'.acks.sends[m] == s.acks.sends[m]
    requires FuturesMove(s, e, s'.acks.futures) && Ledgers.Books(s, e, s'.acks)
    requires var k := KeyOf(s.acks.sends[m]);
             k in s'.tasks && TaskMoves(cfg, s, e, k, s.tasks[k], s'.tasks[k]) && !s.tasks[k].Scheduled?
    ensures Settled(s', m)
  {
    hide AckTable.Overdue, AckTable.IdsOf;
  }

  lemma TimeoutSettles(cfg: Config, s: System, e: Event, s': System, m: MsgId)
    requires m in s.acks.sends && Settled(s, m) && e.Timeout? && m in s'.acks.sends && s'.acks.sends[m] == s.acks.sends[m]
    requires FuturesMove(s, e, s'.acks.futures) && s'.acks.accepted == s.acks.accepted
    requires e.key in s.tasks && s.tasks[e.key].Awaiting?
    requires s.tasks[e.key].m == m <==> e.key == KeyOf(s.acks.sends[m])
    requires var k := KeyOf(s.acks.sends[m]); k in s'.tasks && TaskMoves(cfg, s, e, k, s.tasks[k], s'.tasks[k])
    ensures Settled(s', m)
  {
  }

  lemma AcceptSettles(cfg: Config, s: System, e: Event, s': System, m: MsgId)
    requires m in s.acks.sends && Settled(s, m) && Ledgers.Accepts(s, e) && m in s'.acks.sends && s'.acks.sends[m] == s.acks.sends[m]
    requires FuturesMove(s, e, s'.acks.futures) && s'.acks.accepted == s.acks.accepted[e.msg.body.replyTo := e.msg.body.applyTs]
    requires e.msg.body.replyTo !in s.acks.accepted
    requires s'.tasks == s.tasks
    ensures Settled(s', m)
  {
  }

  lemma OtherSettles(cfg: Config, s: System, e: Event, s': System, m: MsgId)
    requires m in s.acks.sends && Settled(s, m) && m in s'.acks.sends && s'.acks.sends[m] == s.acks.sends[m]
    requires !e.Enter? && !e.Timeout? && !Ledgers.Accepts(s, e)
    requires FuturesMove(s, e, s'.acks.futures) && s'.acks.accepted == s.acks.accepted
    requires var k := KeyOf(s.acks.sends[m]); k in s'.tasks && TaskMoves(cfg, s, e, k, s.tasks[k], s'.tasks[k])
    ensures Settled(s', m)
  {
    hide Ledgers.Accepts;
  }

  lemma SettledStep(cfg: Config, s: System, e: Event, m: MsgId)
    requires SafetyLaws.Safe(cfg, s) && Enabled(cfg, s, e) && m in s.acks.sends && Settled(s, m)
    ensures m in Do(cfg, s, e).acks.sends && Settled(Do(cfg, s, e), m)
  {
    hide SafetyLaws.Safe, Do, Settled, AckTable.Overdue, AckTable.IdsOf, FuturesMove, TaskMoves;
    var k, s' := KeyOf(s.acks.sends[m]), Do(cfg, s, e);
    TaskOfSend(cfg, s, m);
    StepTask(cfg, s, e, k);
    StepFutures(cfg, s, e);
    Ledgers.StepBooks(cfg, s, e);
    if e.Enter? {
      GroundLaws.FreshIsUnsent(cfg, s, e.id);
      EnterSettles(cfg, s, e, s', m);
    } else if e.Timeout? {
      SendOfTask(cfg, s, e.key, s.tasks[e.key].m);
      TimeoutSettles(cfg, s, e, s', m);
    } else {
      hide Enabled;
      if Ledgers.Accepts(s, e) {
        DelayRuns.PendingIsTracked(cfg, s, e.msg.body.receiver, e.msg.body.replyTo);
        DoReceiveTasks(cfg, s, e);
        AcceptSettles(cfg, s, e, s', m);
      } else {
        OtherSettles(cfg, s, e, s', m);
      }
    }
  }

  lemma DoReceiveTasks(cfg: Config, s: System, e: Event)
    requires Enabled(cfg, s, e) && e.ServerReceive?
    ensures Do(cfg, s, e).tasks == s.tasks
  {
    hide DoServerReceive;
    ReceiveTasks(cfg, s, e.peer, e.msg, e.replyId);
  }

  /** A message that has just been entered is settled: nobody has accepted it yet. */
  lemma NewIsSettled(cfg: Config, s: System, e: Event)
    requires SafetyLaws.Safe(cfg, s) && Enabled(cfg, s, e) && e.Enter?
    ensures e.id in Do(cfg, s, e).acks.sends && Settled(Do(cfg, s, e), e.id)
  {
    hide SafetyLaws.Safe, Do, Settled, AckTable.Overdue, AckTable.IdsOf, FuturesMove, TaskMoves, AckTable.Fates;
    GroundLaws.FreshIsUnsent(cfg, s, e.id);
    StepTask(cfg, s, e, e.key);
    StepFutures(cfg, s, e);
    Ledgers.StepBooks(cfg, s, e);
    Ledgers.SafeFates(cfg, s);
    NewSettles(cfg, s, e, Do(cfg, s, e));
  }

  lemma NewSettles(cfg: Config, s: System, e: Event, s': System)
    requires e.Enter? && FuturesMove(s, e, s'.acks.futures) && Ledgers.Books(s, e, s'.acks)
    requires AckTable.Fates(s.acks.pending, s.acks.sends, s.acks.accepted, s.acks.expired) && e.id !in s.acks.sends
    requires e.key in s.tasks && e.key in s'.tasks && TaskMoves(cfg, s, e, e.key, s.tasks[e.key], s'.tasks[e.key])
    ensures e.id in s'.acks.sends && Settled(s', e.id)
  {
    hide AckTable.Overdue, AckTable.IdsOf;
  }

  lemma {:induction false} RunSettles(cfg: Config, states: seq<System>, events: seq<Event>, i: nat, m: MsgId)
    requires IsRun(cfg, states, events) && i <= |events| < |states| && m in states[i].acks.sends
    ensures Settled(states[i], m)
  {
    hide IsRun, Enabled, Do, Settled, SafetyLaws.Safe, ExchangeLaws.Exchanges, GroundLaws.Grounded, AckTable.Overdue, AckTable.IdsOf;
    if i == 0 {
      Ledgers.NothingBooked(cfg, states, events);
    } else {
      var s, e := states[i - 1], events[i - 1];
      StepOfRun(cfg, states, events, i - 1);
      RunKeepsAll(cfg, states, events, i - 1);
      Ledgers.StepBooks(cfg, s, e);
      if m in s.acks.sends {
        RunSettles(cfg, states, events, i - 1, m);
        SettledStep(cfg, s, e, m);
      } else {
        NewIsSettled(cfg, s, e);
      }
    }
  }

  // ---------- the main results ----------

  /** The future of the message that step e entered for coroutine k: given up if k has timed out,
      else it has its value exactly if an acknowledgement from its own peer was in time, before any
      scan found the message late. */
  lemma FutureIsFirst(cfg: Config, states: seq<System>, events: seq<Event>, e: nat, i: nat, k: TaskKey, m: MsgId)
    requires IsRun(cfg, states, events) && e < i <= |events| < |states| && events[e] == Enter(k, m)
    ensures m in states[i].acks.futures
    ensures states[i].acks.futures[m] ==
              if Happens(events, 0, i, Timeout(k)) then AckTable.Cancelled
              else if m in Ledgers.Fates(cfg, states, events, i).accepted then AckTable.HasValue
              else AckTable.Waiting
  {
    hide IsRun, ExchangeLaws.Exchanges, GroundLaws.Grounded, SafetyLaws.Safe, Ledgers.Fates, Happens, Ledgers.Commands, Ledgers.Sends;
    KeepsMessage(cfg, states, events, e, i, k, m);
    RunKeepsAll(cfg, states, events, i);
    SendOfTask(cfg, states[i], k, m);
    RunSettles(cfg, states, events, i, m);
    TimedOutMeans(cfg, states, events, i, k);
    Ledgers.LedgersAreReal(cfg, states, events, i);
  }

  /** How long `_send_control` waits: let step e enter the message of coroutine k, and step t send
      it. At any later state, as long as k has neither returned nor timed out, it may time out
      exactly if the timeout has passed since t and no acknowledgement was in time, and return
      exactly if one was. */
  lemma WaitsExactly(cfg: Config, states: seq<System>, events: seq<Event>, e: nat, t: nat, i: nat, k: TaskKey, m: MsgId)
    requires IsRun(cfg, states, events) && i <= |events| < |states|
    requires e < i && events[e] == Enter(k, m) && t < i && events[t] == Transmit(k)
    ensures var over := Happens(events, t + 1, i, Return(k)) || Happens(events, t + 1, i, Timeout(k));
      var inTime := m in Ledgers.Fates(cfg, states, events, i).accepted;
      && (Enabled(cfg, states[i], Timeout(k)) <==> !over && !inTime && states[t].now + Patience(cfg) <= states[i].now)
      && (Enabled(cfg, states[i], Return(k)) <==> !over && inTime)
  {
    hide IsRun, Ledgers.Fates, Happens;
    KeepsMessage(cfg, states, events, e, i, k, m);
    WaitsSince(cfg, states, events, t, i, k);
    FutureIsFirst(cfg, states, events, e, i, k, m);
    TimedOutMeans(cfg, states, events, i, k);
  }

  /** Every timeout comes at least the timeout after the sending. */
  lemma TimeoutIsLate(cfg: Config, states: seq<System>, events: seq<Event>, j: nat, k: TaskKey) returns (t: nat)
    requires IsRun(cfg, states, events) && j < |events| < |states| && events[j] == Timeout(k)
    ensures t < j && events[t] == Transmit(k) && states[t].now + Patience(cfg) <= states[j].now
  {
    hide IsRun, Do, Happens;
    StepOfRun(cfg, states, events, j);
    t := WasTransmitted(cfg, states, events, j, k);
    WaitsSince(cfg, states, events, t, j, k);
  }

  /** A message entered in step e is given up in step k exactly if that is a scan at least the timeout
      after e, and the message has been neither accepted nor given up before. */
  lemma ExpiresExactly(cfg: Config, states: seq<System>, events: seq<Event>, e: nat, k: nat, key: TaskKey, m: MsgId)
    requires IsRun(cfg, states, events) && e < k < |events| < |states| && events[e] == Enter(key, m)
    ensures m in states[k + 1].acks.expired && m !in states[k].acks.expired <==>
              && events[k].ExpireAcks? && states[e].now + Patience(cfg) <= states[k].now
              && m !in states[k].acks.accepted && m !in states[k].acks.expired
  {
    hide IsRun;
    Ledgers.LedgersAreReal(cfg, states, events, k);
    Ledgers.LedgersAreReal(cfg, states, events, k + 1);
    EnteredOnce(cfg, states, events, e, k, key, m);
    hide Ledgers.AcksOpen, Ledgers.EnteredAt, Ledgers.Sends;
  }

  /** The time a message was entered is that of the one step that did. */
  lemma {:induction false} EnteredOnce(cfg: Config, states: seq<System>, events: seq<Event>, e: nat, i: nat, k: TaskKey, m: MsgId)
    requires IsRun(cfg, states, events) && e < i <= |events| < |states| && events[e] == Enter(k, m)
    ensures m in Ledgers.EnteredAt(states, events, i) && Ledgers.EnteredAt(states, events, i)[m] == states[e].now
    decreases i
  {
    hide IsRun, SafetyLaws.Safe, ExchangeLaws.Exchanges, GroundLaws.Grounded, Do;
    if i > e + 1 {
      EnteredOnce(cfg, states, events, e, i - 1, k, m);
      StepOfRun(cfg, states, events, i - 1);
      RunKeepsAll(cfg, states, events, i - 1);
      if events[i - 1].Enter? {
        GroundLaws.FreshIsUnsent(cfg, states[i - 1], events[i - 1].id);
        hide Ledgers.Fates, Ledgers.Commands;
        Ledgers.LedgersAreReal(cfg, states, events, i - 1);
      }
    }
  }

  /** An acknowledgement that reaches the server from the peer it is expected from less than the
      timeout after its message was entered counts: the future has its value from then on, and its
      coroutine never times out. */
  lemma AckInTimeCounts(cfg: Config, states: seq<System>, events: seq<Event>, e: nat, a: nat, k: TaskKey, m: MsgId)
    requires IsRun(cfg, states, events) && e < |events| && a < |events| < |states| && events[e] == Enter(k, m)
    requires events[a].ServerReceive? && events[a].msg.body.Ack? && events[a].msg.body.replyTo == m
    requires events[a].msg.body.receiver == k.peer && states[a].now < states[e].now + Patience(cfg)
    ensures forall j :: 0 <= j < |events| ==> events[j] != Timeout(k)
    ensures forall i :: a < i <= |events| ==> m in states[i].acks.futures && states[i].acks.futures[m] == AckTable.HasValue
  {
    hide IsRun;
    AckAfterEnter(cfg, states, events, e, a, k, m);
    AckIsAccepted(cfg, states, events, e, a, k, m);
    forall j | 0 <= j < |events|
      ensures events[j] != Timeout(k)
    {
      NoTimeout(cfg, states, events, e, a, j, k, m);
    }
    forall i | a < i <= |events|
      ensures m in states[i].acks.futures && states[i].acks.futures[m] == AckTable.HasValue
    {
      FutureIsFirst(cfg, states, events, e, i, k, m);
      StaysAccepted(cfg, states, events, a + 1, i, m);
    }
  }

  /** No acknowledgement of a message comes before it is entered. */
  lemma AckAfterEnter(cfg: Config, states: seq<System>, events: seq<Event>, e: nat, a: nat, k: TaskKey, m: MsgId)
    requires IsRun(cfg, states, events) && e < |events| && a < |events| < |states| && events[e] == Enter(k, m)
    requires events[a].ServerReceive? && events[a].msg.body.Ack? && events[a].msg.body.replyTo == m && events[a].msg.body.receiver == k.peer
    ensures e < a
  {
    hide IsRun, Do, SafetyLaws.Safe, ExchangeLaws.Exchanges, GroundLaws.Grounded, DelayRuns.BuildsAck;
    StepOfRun(cfg, states, events, a);
    RunKeepsAll(cfg, states, events, a);
    AckIsFromPeer(cfg, states[a], events[a].peer, events[a].msg);
    var l := DelayRuns.AckWasBuilt(cfg, states, events, a, events[a].peer, events[a].msg);
    DelayRuns.EnteredFirst(cfg, states, events, e, l, k.peer, m, events[a].msg);
  }

  lemma AckIsFromPeer(cfg: Config, s: System, p: Peer, msg: Message)
    requires SafetyLaws.Safe(cfg, s) && ToServer(p, msg) in s.net && msg.body.Ack?
    ensures msg.body.receiver == p
  {
    hide SafetyLaws.Wire, SafetyLaws.Tasks, SafetyLaws.Loops, SafetyLaws.AcceptedBacked, AckTable.TableInv, SafetyLaws.Backed;
    SafetyLaws.AckIsBacked(s, p, msg);
  }

  /** A message that is late now was entered long enough ago. */
  lemma {:induction false} ExpiredIsLate(cfg: Config, states: seq<System>, events: seq<Event>, e: nat, i: nat, k: TaskKey, m: MsgId)
    requires IsRun(cfg, states, events) && e < i <= |events| < |states| && events[e] == Enter(k, m)
    requires m in Ledgers.Fates(cfg, states, events, i).expired
    ensures states[e].now + Patience(cfg) <= states[i].now
    decreases i
  {
    hide IsRun;
    RunGrows(cfg, states, events, i - 1, i);
    if m in Ledgers.Fates(cfg, states, events, i - 1).expired {
      if e < i - 1 {
        ExpiredIsLate(cfg, states, events, e, i - 1, k, m);
      } else {
        NotYetEntered(cfg, states, events, e, k, m);
      }
    } else if e < i - 1 {
      EnteredOnce(cfg, states, events, e, i - 1, k, m);
      hide Ledgers.EnteredAt, Ledgers.Sends, Ledgers.AcksOpen;
    }
  }

  lemma NotYetEntered(cfg: Config, states: seq<System>, events: seq<Event>, e: nat, k: TaskKey, m: MsgId)
    requires IsRun(cfg, states, events) && e < |events| < |states| && events[e] == Enter(k, m)
    ensures m !in Ledgers.Sends(events, e) && m !in Ledgers.Fates(cfg, states, events, e).expired
  {
    hide IsRun, SafetyLaws.Safe, ExchangeLaws.Exchanges, GroundLaws.Grounded, Do, Ledgers.Sends, Ledgers.Fates, Ledgers.Commands, AckTable.Fates;
    StepOfRun(cfg, states, events, e);
    RunKeepsAll(cfg, states, events, e);
    GroundLaws.FreshIsUnsent(cfg, states[e], m);
    Ledgers.LedgersAreReal(cfg, states, events, e);
    Ledgers.SafeFates(cfg, states[e]);
    OnlySentExpire(states[e].acks, m);
  }

  lemma OnlySentExpire(t: AckTable.Table, m: MsgId)
    requires AckTable.Fates(t.pending, t.sends, t.accepted, t.expired) && m !in t.sends
    ensures m !in t.expired
  {
  }

  lemma AckIsAccepted(cfg: Config, states: seq<System>, events: seq<Event>, e: nat, a: nat, k: TaskKey, m: MsgId)
    requires IsRun(cfg, states, events) && e < a < |events| < |states| && events[e] == Enter(k, m)
    requires events[a].ServerReceive? && events[a].msg.body.Ack? && events[a].msg.body.replyTo == m
    requires events[a].msg.body.receiver == k.peer && states[a].now < states[e].now + Patience(cfg)
    ensures m in Ledgers.Fates(cfg, states, events, a + 1).accepted
  {
    hide IsRun;
    if m in Ledgers.Fates(cfg, states, events, a).expired {
      ExpiredIsLate(cfg, states, events, e, a, k, m);
    }
    SentAs(cfg, states, events, e, a, k, m);
    hide Ledgers.Sends, Ledgers.EnteredAt, Ledgers.Late;
    assert Ledgers.AcksOpen(Ledgers.Sends(events, a), Ledgers.Fates(cfg, states, events, a), events[a]) <==>
             m !in Ledgers.Fates(cfg, states, events, a).accepted;
  }

  lemma SentAs(cfg: Config, states: seq<System>, events: seq<Event>, e: nat, i: nat, k: TaskKey, m: MsgId)
    requires IsRun(cfg, states, events) && e < i <= |events| < |states| && events[e] == Enter(k, m)
    ensures m in Ledgers.Sends(events, i) && Ledgers.Sends(events, i)[m] == AckTable.Send(k.peer, k.command)
  {
    hide IsRun, SafetyLaws.Safe, ExchangeLaws.Exchanges, GroundLaws.Grounded, Ledgers.Sends, Ledgers.Fates, Ledgers.Commands;
    KeepsMessage(cfg, states, events, e, i, k, m);
    RunKeepsAll(cfg, states, events, i);
    SendOfTask(cfg, states[i], k, m);
    Ledgers.LedgersAreReal(cfg, states, events, i);
  }

  lemma {:induction false} StaysAccepted(cfg: Config, states: seq<System>, events: seq<Event>, i: nat, j: nat, m: MsgId)
    requires i <= j <= |events| < |states| && m in Ledgers.Fates(cfg, states, events, i).accepted
    ensures m in Ledgers.Fates(cfg, states, events, j).accepted
    decreases j
  {
    if i < j {
      StaysAccepted(cfg, states, events, i, j - 1, m);
    }
  }

  lemma NoTimeout(cfg: Config, states: seq<System>, events: seq<Event>, e: nat, a: nat, j: nat, k: TaskKey, m: MsgId)
    requires IsRun(cfg, states, events) && e < a < |events| < |states| && events[e] == Enter(k, m)
    requires states[a].now < states[e].now + Patience(cfg) && m in Ledgers.Fates(cfg, states, events, a + 1).accepted
    requires j < |events|
    ensures events[j] != Timeout(k)
  {
    hide IsRun, Ledgers.Fates, Happens, Do;
    if events[j] == Timeout(k) {
      var t := TimeoutIsLate(cfg, states, events, j, k);
      EnterBeforeTransmit(cfg, states, events, e, t, k, m);
      RunGrows(cfg, states, events, e, t);
      if j <= a {
        RunGrows(cfg, states, events, j, a);
      } else {
        StaysAccepted(cfg, states, events, a + 1, j, m);
        WaitsExactly(cfg, states, events, e, t, j, k, m);
        StepOfRun(cfg, states, events, j);
      }
    }
  }

  lemma EnterBeforeTransmit(cfg: Config, states: seq<System>, events: seq<Event>, e: nat, t: nat, k: TaskKey, m: MsgId)
    requires IsRun(cfg, states, events) && e < |events| < |states| && events[e] == Enter(k, m) && t < |events| && events[t] == Transmit(k)
    ensures e < t
  {
    hide IsRun;
    RunTask(cfg, states, events, t, k);
    RunTask(cfg, states, events, e, k);
    if t < e {
      WaitsSince(cfg, states, events, t, e, k);
    }
  }

  // ---------- what is sent ----------

  function Ordered(order: Order, c: CommandId, m: MsgId): Message {
    Message(m, None, true, Command(order.kind, c, order.executeAt))
  }

  lemma StepOrders(cfg: Config, s: System, e: Event)
    requires Enabled(cfg, s, e)
    ensures Do(cfg, s, e).orders == if e.Issue? then s.orders[e.command := e.order] else s.orders
  {
    hide AckTable.Add, AckTable.GiveUp, AckTable.Open, NewTasks;
    if !e.Issue? && !e.Enter? && !e.Transmit? && !e.Return? && !e.Timeout? {
      hide Do;
      OtherTasks(cfg, s, e);
    }
  }

  lemma OrdersAreCommands(cfg: Config, s: System)
    requires SafetyLaws.Safe(cfg, s)
    ensures s.orders.Keys == s.acks.commands.Keys
  {
    hide AckTable.TableInv, SafetyLaws.Wire, SafetyLaws.Loops, SafetyLaws.AcksBacked, SafetyLaws.AcceptedBacked, SafetyLaws.TaskOk,
         SafetyLaws.IsCommand;
  }

  /** The order of a command is the one it was issued with. */
  lemma {:induction false} OrderStays(cfg: Config, states: seq<System>, events: seq<Event>, j: nat, i: nat, c: CommandId, order: Order)
    requires IsRun(cfg, states, events) && j < i <= |events| < |states| && events[j] == Issue(c, order)
    ensures c in states[i].orders && states[i].orders[c] == order
    decreases i
  {
    hide IsRun, SafetyLaws.Safe, ExchangeLaws.Exchanges, GroundLaws.Grounded, Do;
    StepOfRun(cfg, states, events, i - 1);
    StepOrders(cfg, states[i - 1], events[i - 1]);
    if i > j + 1 {
      OrderStays(cfg, states, events, j, i - 1, c, order);
      RunKeepsAll(cfg, states, events, i - 1);
      OrdersAreCommands(cfg, states[i - 1]);
    }
  }

  lemma EntersOrdered(cfg: Config, s: System, e: Event)
    requires Enabled(cfg, s, e) && e.Enter?
    ensures e.key.command in s.orders
    ensures Built(cfg, s, e) == Some(Ordered(s.orders[e.key.command], e.key.command, e.id))
  {
  }

  lemma {:induction false} CreatedAs(cfg: Config, states: seq<System>, events: seq<Event>, j: nat, e: nat, i: nat, order: Order, k: TaskKey,
                                     m: MsgId)
    requires IsRun(cfg, states, events) && e < i <= |events| < |states| && j < |events|
    requires events[j] == Issue(k.command, order) && events[e] == Enter(k, m)
    ensures m in states[i].created && states[i].created[m] == Ordered(order, k.command, m)
    decreases i
  {
    hide IsRun, Do, Enabled, Built, Sent;
    StepOfRun(cfg, states, events, i - 1);
    StepAdds(cfg, states[i - 1], events[i - 1]);
    if i > e + 1 {
      CreatedAs(cfg, states, events, j, e, i - 1, order, k, m);
    } else {
      IssuedFirst(cfg, states, events, j, e, order, k, m);
      OrderStays(cfg, states, events, j, e, k.command, order);
      EntersOrdered(cfg, states[e], events[e]);
    }
  }

  lemma IssuedFirst(cfg: Config, states: seq<System>, events: seq<Event>, j: nat, e: nat, order: Order, k: TaskKey, m: MsgId)
    requires IsRun(cfg, states, events) && e < |events| < |states| && j < |events|
    requires events[j] == Issue(k.command, order) && events[e] == Enter(k, m)
    ensures j < e
  {
    hide IsRun, SafetyLaws.Safe, ExchangeLaws.Exchanges, GroundLaws.Grounded, Do;
    StepOfRun(cfg, states, events, j);
    if e < j {
      KeepsMessage(cfg, states, events, e, j, k, m);
      RunKeepsAll(cfg, states, events, j);
      TaskIsIssued(cfg, states[j], k);
    }
  }

  /** There is a coroutine for a command and a peer exactly if the peer was registered at its issue. */
  lemma TaskIsIssued(cfg: Config, s: System, k: TaskKey)
    requires SafetyLaws.Safe(cfg, s)
    ensures k in s.tasks <==> k.command in s.acks.commands && k.peer in s.acks.commands[k.command]
  {
    hide AckTable.TableInv, SafetyLaws.Wire, SafetyLaws.Loops, SafetyLaws.AcksBacked, SafetyLaws.AcceptedBacked, SafetyLaws.TaskOk,
         SafetyLaws.IsCommand;
  }

  lemma TransmitSends(cfg: Config, s: System, e: Event)
    requires Enabled(cfg, s, e) && e.Transmit?
    ensures s.tasks[e.key].m in s.created && ToClient(e.key.peer, s.created[s.tasks[e.key].m]) in Sent(cfg, s, e)
  {
  }

  /** A coroutine whose command was issued in step j, whose message was entered in step e and which
      has transmitted has put on the network, for its peer, a message with that order's kind and
      time. */
  lemma {:induction false} SentAsOrdered(cfg: Config, states: seq<System>, events: seq<Event>, j: nat, e: nat, t: nat, i: nat,
                                         order: Order, k: TaskKey, m: MsgId)
    requires IsRun(cfg, states, events) && t < i <= |events| < |states| && j < |events| && e < |events|
    requires events[j] == Issue(k.command, order) && events[e] == Enter(k, m) && events[t] == Transmit(k)
    ensures ToClient(k.peer, Ordered(order, k.command, m)) in states[i].net
    decreases i
  {
    hide IsRun, Do, Enabled, Built, Sent;
    StepOfRun(cfg, states, events, i - 1);
    StepAdds(cfg, states[i - 1], events[i - 1]);
    if i > t + 1 {
      SentAsOrdered(cfg, states, events, j, e, t, i - 1, order, k, m);
    } else {
      EnterBeforeTransmit(cfg, states, events, e, t, k, m);
      KeepsMessage(cfg, states, events, e, t, k, m);
      CreatedAs(cfg, states, events, j, e, t, order, k, m);
      TransmitSends(cfg, states[t], events[t]);
    }
  }

  /** In every state the coroutines are those for the peers registered when their command was
      issued. */
  lemma CoroutinesAreIssued(cfg: Config, states: seq<System>, events: seq<Event>, i: nat, k: TaskKey)
    requires IsRun(cfg, states, events) && i <= |events| < |states|
    ensures k in states[i].tasks <==>
              k.command in Ledgers.Commands(states, events, i) && k.peer in Ledgers.Commands(states, events, i)[k.command]
  {
    hide IsRun, SafetyLaws.Safe, ExchangeLaws.Exchanges, GroundLaws.Grounded, Ledgers.Fates, Ledgers.Sends, Ledgers.Commands;
    RunKeepsAll(cfg, states, events, i);
    TaskIsIssued(cfg, states[i], k);
    Ledgers.LedgersAreReal(cfg, states, events, i);
  }

  /** Nothing is sent twice. */
  lemma SentOnce(cfg: Config, states: seq<System>, events: seq<Event>, t: nat, i: nat, k: TaskKey)
    requires IsRun(cfg, states, events) && t < i < |events| < |states| && events[t] == Transmit(k)
    ensures events[i] != Transmit(k)
  {
    hide IsRun, Do, Happens;
    WaitsSince(cfg, states, events, t, i, k);
    StepOfRun(cfg, states, events, i);
  }
}

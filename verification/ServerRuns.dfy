/** What the server answers in a run, and how its session follows the calls made to it. */
module ServerRuns {
  import opened Types
  import opened Messages
  import opened Protocol
  import AckTable
  import ClientLoop
  import EntryLaws
  import ExchangeLaws
  import GroundLaws
  import Registry
  import RegistryLaws
  import SafetyLaws
  import Sessions
  import Theorems

  // ---------- answers ----------

  /** The message is a registration that the server must accept. */
  predicate Admitted(cfg: Config, s: System, e: Event) {
    e.ServerReceive? && EntryLaws.Admits(s.registry, Registry.Handled(e.peer, e.msg.body, s.now), cfg.policy, e.peer)
  }

  /** The packet that answers the message of the step, if it is a request. */
  function AnswerTo(cfg: Config, s: System, e: Event): set<Packet>
    requires e.ServerReceive?
  {
    match e.msg.body
    case Register(_, _, _, _) =>
      var live := e.peer in s.registry && s.registry[e.peer].status != DISCONNECTED;
      {ToClient(e.peer, Message(e.replyId, Some(e.msg.id), false,
                                if Admitted(cfg, s, e) then RegisterOk(s.session, live) else RegisterReject))}
    case Ping(t0) => {ToClient(e.peer, Message(e.replyId, Some(e.msg.id), false, Pong(t0, s.now, s.now)))}
    case _ => {}
  }

  lemma ReplyIs(cfg: Config, s: System, e: Event)
    requires e.ServerReceive?
    ensures AnswerTo(cfg, s, e) ==
              match ServerReply(cfg, s, e.peer, e.msg.body)
              case None => {}
              case Some(body) => {ToClient(e.peer, Message(e.replyId, Some(e.msg.id), false, body))}
  {
    if e.msg.body.Register? {
      var b := e.msg.body;
      RegistryLaws.RegisterIsSafe(Registry.Touch(s.registry, e.peer, s.now), e.peer, b.role, b.version, b.capabilities, b.secret,
                                  s.now, cfg.policy);
    }
    hide Registry.Enroll, RegistryLaws.Compatible, RegistryLaws.Authentic, RegistryLaws.HoldsAgreement, RegistryLaws.AllAgreeable;
  }

  lemma ReceiveSends(cfg: Config, s: System, e: Event)
    requires e.ServerReceive?
    ensures DoServerReceive(cfg, s, e.peer, e.msg, e.replyId).net == s.net + AnswerTo(cfg, s, e)
  {
    ReplyIs(cfg, s, e);
    assert s.net + {} == s.net;
    hide AnswerTo, ServerReply, Registry.Handle, AckTable.Accept, ClockOf;
    if e.msg.body.Ack? {
      AckNeedsNoReply(cfg, s, e);
    }
  }

  lemma AckNeedsNoReply(cfg: Config, s: System, e: Event)
    requires e.ServerReceive? && e.msg.body.Ack?
    ensures AnswerTo(cfg, s, e) == {}
  {
  }

  /** Every message the server takes puts on the network exactly its answer: a registration is accepted
      with the session of that moment, or rejected, by the conditions on what it offers and the id's
      entry, and told whether the id was live; a ping gets its own time and the server's; nothing
      else is answered. */
  lemma EveryRequestIsAnswered(cfg: Config, states: seq<System>, events: seq<Event>, k: nat)
    requires IsRun(cfg, states, events) && k < |events| < |states| && events[k].ServerReceive?
    ensures states[k + 1].net == states[k].net + AnswerTo(cfg, states[k], events[k])
  {
    hide IsRun, DoServerReceive, AnswerTo;
    Theorems.StepOfRun(cfg, states, events, k);
    ReceiveSends(cfg, states[k], events[k]);
  }

  // ---------- what is sent unasked ----------

  /** A client's request or report is put on the network as it is, and an announcement goes to each of
      its peers, asking for no acknowledgement. */
  lemma WhatIsSentIsOnTheWay(cfg: Config, states: seq<System>, events: seq<Event>, k: nat)
    requires IsRun(cfg, states, events) && k < |events| < |states|
    ensures match events[k]
            case SendRequest(p, id, body) => ToServer(p, Message(id, None, false, body)) in states[k + 1].net
            case SendReport(p, id, body) => ToServer(p, Message(id, None, false, body)) in states[k + 1].net
            case Announce(id, peers) =>
              forall p :: ToClient(p, Message(id, None, false, Notice)) in states[k + 1].net <==> p in peers
            case _ => true
  {
    hide IsRun, SafetyLaws.Safe, ExchangeLaws.Exchanges, GroundLaws.Grounded, IsRequest, IsReport, LocalTime, RequestOf, ClientLoop.Ask;
    Theorems.StepOfRun(cfg, states, events, k);
    if events[k].Announce? {
      Theorems.RunKeepsAll(cfg, states, events, k);
      FreshIsNotSent(cfg, states[k], events[k].id);
    }
  }

  lemma FreshIsNotSent(cfg: Config, s: System, id: MsgId)
    requires SafetyLaws.Safe(cfg, s) && id !in s.created
    ensures forall pkt :: pkt in s.net ==> pkt.msg.id != id
  {
    hide SafetyLaws.Tasks, SafetyLaws.Loops, SafetyLaws.AcksBacked, SafetyLaws.AcceptedBacked, AckTable.TableInv, SafetyLaws.FromServer;
  }

  // ---------- the session ----------

  /** The calls made in the first i steps. */
  function Calls(events: seq<Event>, i: nat): seq<Sessions.Op>
    requires i <= |events|
  {
    if i == 0 then []
    else Calls(events, i - 1) + if events[i - 1].ChangeSession? then [events[i - 1].op] else []
  }

  lemma StepSession(cfg: Config, s: System, e: Event)
    requires Enabled(cfg, s, e)
    ensures Do(cfg, s, e).session == if e.ChangeSession? then Sessions.Apply(s.session, e.op) else s.session
  {
    hide Sessions.Apply;
    if !e.ChangeSession? {
      hide Do, Enabled;
      if ClientMoves(e) {
        ClientFrame(cfg, s, e);
      } else {
        ServerFrame(cfg, s, e);
      }
    }
  }

  lemma {:induction false} SessionIsCalls(cfg: Config, states: seq<System>, events: seq<Event>, i: nat)
    requires IsRun(cfg, states, events) && i <= |events| < |states|
    ensures states[i].session == Sessions.After(Calls(events, i))
  {
    hide IsRun, Enabled, Do, Sessions.Apply;
    if i == 0 {
      StartsIdle(cfg, states, events);
    } else {
      SessionIsCalls(cfg, states, events, i - 1);
      Theorems.StepOfRun(cfg, states, events, i - 1);
      StepSession(cfg, states[i - 1], events[i - 1]);
      var calls := Calls(events, i - 1);
      if events[i - 1].ChangeSession? {
        assert Calls(events, i)[..|calls|] == calls;
      } else {
        assert Calls(events, i) == calls;
      }
    }
  }

  lemma StartsIdle(cfg: Config, states: seq<System>, events: seq<Event>)
    requires IsRun(cfg, states, events)
    ensures |states| > 0 && states[0].session == Sessions.INITIAL
  {
    assert Init(states[0]);
  }

  /** In every run the server's session is the one its calls determine: the state last named, the
      session last created, the trial and phase since. */
  lemma SessionFollowsCalls(cfg: Config, states: seq<System>, events: seq<Event>, i: nat)
    requires IsRun(cfg, states, events) && i <= |events| < |states|
    ensures var s, calls := states[i].session, Calls(events, i);
      && Sessions.Names(Sessions.LastNaming(calls), s.state) && s.sessionId == Sessions.LastCreated(calls)
      && s.trialId == Sessions.TrialSet(Sessions.LastSetting(calls))
      && s.phase == (if s.trialId.None? then None
                     else if Sessions.EndedSince(calls) then Some("ended")
                     else if Sessions.LastSetting(calls).value.ArmTrial? then Some("armed")
                     else Some("running"))
  {
    hide IsRun, Calls;
    SessionIsCalls(cfg, states, events, i);
    Sessions.StateFollowsCalls(Calls(events, i));
    Sessions.TrialFollowsCalls(Calls(events, i));
  }
}

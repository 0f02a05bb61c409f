/** The client table inside runs of the whole protocol. */
module RegistryRuns {
  import opened Types
  import opened Messages
  import opened Protocol
  import Registry
  import RegistryLaws
  import Theorems

  /** What a step of the protocol means for the registry. */
  function RegistryEvents(s: System, e: Event): (r: seq<Registry.Event>)
    ensures |r| <= 1
  {
    if e.ServerReceive? then [Registry.Handled(e.peer, e.msg.body, s.now)]
    else if e.ScanHealth? then [Registry.Scanned(s.now)]
    else []
  }

  lemma StepMovesRegistry(cfg: Config, s: System, e: Event)
    requires Enabled(cfg, s, e)
    ensures Do(cfg, s, e).registry == Registry.After(s.registry, RegistryEvents(s, e), cfg.policy)
  {
    hide Registry.Scan, Registry.Handle;
    if e.ServerReceive? {
      hide DoServerReceive;
      ReceiveFrame(cfg, s, e.peer, e.msg, e.replyId);
      assert RegistryEvents(s, e)[..0] == [];
    } else if e.ScanHealth? {
      assert RegistryEvents(s, e)[..0] == [];
    } else {
      hide Do, Enabled;
      if ClientMoves(e) {
        ClientFrame(cfg, s, e);
      } else {
        ServerFrame(cfg, s, e);
      }
    }
  }

  /** The registry's events between states i and j. */
  function History(states: seq<System>, events: seq<Event>, i: nat, j: nat): seq<Registry.Event>
    requires i <= j <= |events| && |states| == |events| + 1
    decreases j
  {
    if i == j then [] else History(states, events, i, j - 1) + RegistryEvents(states[j - 1], events[j - 1])
  }

  lemma HistoryStep(cfg: Config, t: Registry.Table, h: seq<Registry.Event>, s: System, e: Event, s': System)
    requires Next(cfg, s, e, s') && s.registry == Registry.After(t, h, cfg.policy)
    ensures s'.registry == Registry.After(t, h + RegistryEvents(s, e), cfg.policy)
  {
    hide Registry.After, Enabled, Do, RegistryEvents;
    StepMovesRegistry(cfg, s, e);
    RegistryLaws.AfterAppend(t, h, RegistryEvents(s, e), cfg.policy);
  }

  /** The registry of a run is what its own event history makes of it. */
  lemma {:induction false} RegistryFollowsHistory(cfg: Config, states: seq<System>, events: seq<Event>, i: nat, j: nat)
    requires IsRun(cfg, states, events) && i <= j < |states|
    ensures j <= |events| && |states| == |events| + 1
    ensures states[j].registry == Registry.After(states[i].registry, History(states, events, i, j), cfg.policy)
    decreases j
  {
    hide Init, Next, IsRun, RegistryEvents, Registry.Step;
    Theorems.RunShape(cfg, states, events);
    if i < j {
      hide Registry.After;
      RegistryFollowsHistory(cfg, states, events, i, j - 1);
      Theorems.StepOfRun(cfg, states, events, j - 1);
      HistoryStep(cfg, states[i].registry, History(states, events, i, j - 1), states[j - 1], events[j - 1], states[j]);
    } else {
      assert Registry.After(states[i].registry, [], cfg.policy) == states[i].registry;
    }
  }

  /** In every state of every run, each entry holds a version the server can speak and
      capabilities it has. */
  lemma RegistryStaysAgreeable(cfg: Config, states: seq<System>, events: seq<Event>, i: nat)
    requires IsRun(cfg, states, events) && i < |states|
    ensures RegistryLaws.AllAgreeable(states[i].registry, cfg.policy)
  {
    assert Init(states[0]);
    assert RegistryLaws.AllAgreeable(states[0].registry, cfg.policy);
    hide IsRun, RegistryLaws.AllAgreeable;
    RegistryFollowsHistory(cfg, states, events, 0, i);
    RegistryLaws.EntriesStayAgreeable(states[0].registry, History(states, events, 0, i), cfg.policy);
  }

  /** In every run: an entry's clock pair is that of the last status report the server handled from
      its client since it was entered, or (0, 0) if there was none. */
  lemma RegistryPairIsLastReport(cfg: Config, states: seq<System>, events: seq<Event>, i: nat, p: Peer)
    requires IsRun(cfg, states, events) && i <= |events| < |states| && |states| == |events| + 1 && p in states[i].registry
    ensures var info := states[i].registry[p];
      match RegistryLaws.LastPairEvent(map[], History(states, events, 0, i), cfg.policy, p)
      case Some(e) =>
        if e.Handled? && e.body.ClientStatus? then info.offsetMs == e.body.offsetMs && info.rttMs == e.body.rttMs
        else info.offsetMs == 0.0 && info.rttMs == 0.0
      case None => false
  {
    assert Init(states[0]);
    hide IsRun, Init, History, Registry.After, RegistryLaws.LastPairEvent;
    RegistryFollowsHistory(cfg, states, events, 0, i);
    RegistryLaws.PairIsLastReport(map[], History(states, events, 0, i), cfg.policy, p);
  }

  ghost predicate IsDisconnected(s: System, p: Peer) {
    p in s.registry && s.registry[p].status == DISCONNECTED
  }

  /** In every run an id is never removed, and its role changes only across a state in which it
      was DISCONNECTED. */
  lemma {:induction false} RolesChangeWhenDisconnected(cfg: Config, states: seq<System>, events: seq<Event>, i: nat, j: nat, p: Peer)
    requires IsRun(cfg, states, events) && i <= j < |states| && p in states[i].registry
    ensures p in states[j].registry
    ensures states[j].registry[p].role != states[i].registry[p].role ==> exists k :: i <= k < j && IsDisconnected(states[k], p)
    decreases j
  {
    Theorems.RunShape(cfg, states, events);
    if i < j {
      var s, e := states[j - 1], events[j - 1];
      assert Next(cfg, s, e, states[j - 1 + 1]);
      hide IsRun, Enabled, Do, Registry.Step;
      RolesChangeWhenDisconnected(cfg, states, events, i, j - 1, p);
      StepMovesRegistry(cfg, s, e);
      RegistryLaws.RoleNeedsDisconnect(s.registry, RegistryEvents(s, e), cfg.policy, p);
      hide Next;
      OneEvent(s.registry, RegistryEvents(s, e), cfg.policy, p);
      if states[j].registry[p].role != s.registry[p].role {
        assert IsDisconnected(s, p);
      }
    }
  }

  /** With at most one event the DISCONNECTED state is the one before it. */
  lemma OneEvent(t: Registry.Table, events: seq<Registry.Event>, policy: Registry.Policy, p: Peer)
    requires |events| <= 1 && p in t
    ensures (exists k :: 0 <= k < |events| && RegistryLaws.WasDisconnected(t, events[..k], policy, p)) ==>
              t[p].status == DISCONNECTED
  {
    hide Registry.Step;
    if events != [] {
      assert events[..0] == [];
    }
  }

  // ---------- the failure detector in runs ----------

  /** No message from p is handled between states i and j. */
  predicate Quiet(events: seq<Event>, i: nat, j: nat, p: Peer)
    requires i <= j <= |events|
  {
    forall k :: i <= k < j && events[k].ServerReceive? ==> events[k].peer != p
  }

  /** The scan at step k writes a `disconnect` record for p. */
  predicate ReportsDisconnect(cfg: Config, states: seq<System>, events: seq<Event>, k: nat, p: Peer)
    requires k < |events| < |states|
  {
    && events[k].ScanHealth? && p in states[k].registry
    && Registry.Judge(states[k].registry[p], states[k].now, cfg.policy.timeout).MarkDisconnected?
  }

  lemma {:induction false} QuietIsSilent(states: seq<System>, events: seq<Event>, i: nat, j: nat, p: Peer)
    requires i <= j <= |events| && |states| == |events| + 1 && Quiet(events, i, j, p)
    ensures RegistryLaws.Silent(History(states, events, i, j), p)
    decreases j
  {
    if i < j {
      QuietIsSilent(states, events, i, j - 1, p);
    }
  }

  lemma {:induction false} HistoryGrows(states: seq<System>, events: seq<Event>, i: nat, k: nat, j: nat)
    requires i <= k <= j <= |events| && |states| == |events| + 1
    ensures History(states, events, i, k) <= History(states, events, i, j)
    decreases j
  {
    hide RegistryEvents;
    if k < j {
      HistoryGrows(states, events, i, k, j - 1);
    }
  }

  /** A report by step k of the run is a report in its registry history, at that step's place. */
  lemma ReportIsInHistory(cfg: Config, states: seq<System>, events: seq<Event>, i: nat, k: nat, j: nat, p: Peer)
    requires IsRun(cfg, states, events) && i <= k < j < |states| && |states| == |events| + 1
    requires ReportsDisconnect(cfg, states, events, k, p)
    ensures var n := |History(states, events, i, k)|;
      && events[k].ScanHealth?
      && n < |History(states, events, i, j)| && History(states, events, i, j)[n] == Registry.Scanned(states[k].now)
      && RegistryLaws.DisconnectRecorded(states[i].registry, History(states, events, i, j), cfg.policy, p, n)
  {
    hide IsRun, Registry.After, Registry.Judge;
    var h, n := History(states, events, i, j), |History(states, events, i, k)|;
    HistoryGrows(states, events, i, k + 1, j);
    assert History(states, events, i, k + 1) == History(states, events, i, k) + [Registry.Scanned(states[k].now)];
    hide History;
    assert h[..n] == History(states, events, i, k);
    RegistryFollowsHistory(cfg, states, events, i, k);
  }

  /** The step at which the n-th event of the history happened. */
  lemma {:induction false} StepOf(states: seq<System>, events: seq<Event>, i: nat, j: nat, n: nat) returns (k: nat)
    requires i <= j <= |events| && |states| == |events| + 1 && n < |History(states, events, i, j)|
    ensures i <= k < j && |History(states, events, i, k)| == n
    ensures History(states, events, i, j)[..n] == History(states, events, i, k)
    ensures RegistryEvents(states[k], events[k]) == [History(states, events, i, j)[n]]
    decreases j
  {
    hide RegistryEvents;
    var h, before := History(states, events, i, j), History(states, events, i, j - 1);
    assert before <= h;
    if n < |before| {
      k := StepOf(states, events, i, j - 1, n);
      assert before[..n] == h[..n] && before[n] == h[n];
    } else {
      k := j - 1;
    }
  }

  /** And conversely. */
  lemma ReportIsInRun(cfg: Config, states: seq<System>, events: seq<Event>, i: nat, j: nat, p: Peer, n: nat)
    requires IsRun(cfg, states, events) && i <= j < |states| && |states| == |events| + 1
    requires n < |History(states, events, i, j)|
    requires RegistryLaws.DisconnectRecorded(states[i].registry, History(states, events, i, j), cfg.policy, p, n)
    ensures exists k :: i <= k < j && ReportsDisconnect(cfg, states, events, k, p)
  {
    hide IsRun, History, Registry.After, Registry.Judge;
    var k := StepOf(states, events, i, j, n);
    RegistryFollowsHistory(cfg, states, events, i, k);
    assert ReportsDisconnect(cfg, states, events, k, p);
  }

  /** Step k handles a message of p and leaves p in an active status. */
  predicate LeavesActive(states: seq<System>, events: seq<Event>, k: nat, p: Peer)
    requires k < |events| && |states| == |events| + 1
  {
    && events[k].ServerReceive? && events[k].peer == p
    && p in states[k + 1].registry && Registry.Active(states[k + 1].registry[p].status)
  }

  lemma ReceiveIsHandled(cfg: Config, states: seq<System>, events: seq<Event>, k: nat, p: Peer)
    requires IsRun(cfg, states, events) && k < |events| && |states| == |events| + 1
    requires LeavesActive(states, events, k, p)
    ensures states[k + 1].registry ==
              Registry.Step(states[k].registry, Registry.Handled(p, events[k].msg.body, states[k].now), cfg.policy)
  {
    hide IsRun, Registry.Step, Enabled, Do, Registry.Active;
    Theorems.StepOfRun(cfg, states, events, k);
    StepMovesRegistry(cfg, states[k], events[k]);
    assert RegistryEvents(states[k], events[k])[..0] == [];
  }

  /** In every run: let the last message that the server handles from a client, of whatever kind,
      be handled at time r and leave the client in an active status. When scans are at most g
      apart the client is reported disconnected no earlier than r + T and no later than
      r + 1.5T + 2g, and it has been reported once a scan has come at r + 1.5T + g or later. */
  lemma SilenceIsReported(cfg: Config, states: seq<System>, events: seq<Event>, i: nat, j: nat, p: Peer, gap: real)
    requires IsRun(cfg, states, events) && i < j < |states| && |states| == |events| + 1
    requires gap >= 0.0
    requires LeavesActive(states, events, i, p) && Quiet(events, i + 1, j, p)
    requires RegistryLaws.Paced(History(states, events, i + 1, j), states[i].now, gap)
    ensures var r, T := states[i].now, cfg.policy.timeout;
      && (forall k :: i < k < j && ReportsDisconnect(cfg, states, events, k, p) ==>
            RegistryLaws.InBounds(states[k].now, r, T, gap))
      && (RegistryLaws.ScannedLate(RegistryLaws.LastScan(History(states, events, i + 1, j), r), r, T, gap) ==>
            exists k :: i < k < j && ReportsDisconnect(cfg, states, events, k, p))
  {
    ReceiveIsHandled(cfg, states, events, i, p);
    hide IsRun, History, RegistryLaws.DisconnectRecorded, RegistryLaws.Silent, RegistryLaws.Paced, Registry.Active,
         Registry.Step, ReportsDisconnect, RegistryLaws.InBounds, RegistryLaws.ScannedLate, RegistryLaws.LastScan;
    var h := History(states, events, i + 1, j);
    QuietIsSilent(states, events, i + 1, j, p);
    RegistryLaws.FailureDetector(states[i].registry, p, events[i].msg.body, states[i].now, h, cfg.policy, gap);
    ReportsMatch(cfg, states, events, i + 1, j, p, h);
  }

  /** The reports in a stretch of a run are those in its registry history, at the same times. */
  lemma ReportsMatch(cfg: Config, states: seq<System>, events: seq<Event>, i: nat, j: nat, p: Peer, h: seq<Registry.Event>)
    requires IsRun(cfg, states, events) && i <= j < |states| && |states| == |events| + 1 && h == History(states, events, i, j)
    ensures forall k :: i <= k < j && ReportsDisconnect(cfg, states, events, k, p) ==>
              exists n :: 0 <= n < |h| && h[n].at == states[k].now
                          && RegistryLaws.DisconnectRecorded(states[i].registry, h, cfg.policy, p, n)
    ensures forall n :: 0 <= n < |h| && RegistryLaws.DisconnectRecorded(states[i].registry, h, cfg.policy, p, n) ==>
              exists k :: i <= k < j && ReportsDisconnect(cfg, states, events, k, p)
  {
    hide IsRun, History, RegistryLaws.DisconnectRecorded, ReportsDisconnect;
    forall k | i <= k < j && ReportsDisconnect(cfg, states, events, k, p)
      ensures exists n :: 0 <= n < |h| && h[n].at == states[k].now
                          && RegistryLaws.DisconnectRecorded(states[i].registry, h, cfg.policy, p, n)
    {
      ReportIsInHistory(cfg, states, events, i, k, j, p);
    }
    forall n: nat | n < |h| && RegistryLaws.DisconnectRecorded(states[i].registry, h, cfg.policy, p, n)
      ensures exists k :: i <= k < j && ReportsDisconnect(cfg, states, events, k, p)
    {
      ReportIsInRun(cfg, states, events, i, j, p, n);
    }
  }

  /** The server handles a registration or a status report of p. */
  predicate HandlesReport(e: Event, p: Peer) {
    e.ServerReceive? && e.peer == p && (e.msg.body.Register? || e.msg.body.ClientStatus?)
  }

  /** In every run: between two `disconnect` records for one client, the server handled a
      registration or a status report from it. */
  lemma ReportedAgainAfterContact(cfg: Config, states: seq<System>, events: seq<Event>, i: nat, j: nat, p: Peer)
    requires IsRun(cfg, states, events) && i < j < |events| && |states| == |events| + 1
    requires ReportsDisconnect(cfg, states, events, i, p) && ReportsDisconnect(cfg, states, events, j, p)
    ensures exists k :: i < k < j && HandlesReport(events[k], p)
  {
    hide IsRun, History, ReportsDisconnect, RegistryLaws.DisconnectRecorded;
    ReportIsInHistory(cfg, states, events, 0, i, j + 1, p);
    ReportIsInHistory(cfg, states, events, 0, j, j + 1, p);
    var h := History(states, events, 0, j + 1);
    var m, n := |History(states, events, 0, i)|, |History(states, events, 0, j)|;
    HistoryLengths(states, events, i, j);
    RegistryLaws.BetweenDisconnects(states[0].registry, h, cfg.policy, p, m, n);
    var x :| m < x < n && h[x].Handled? && h[x].peer == p && (h[x].body.Register? || h[x].body.ClientStatus?);
    var k := StepOf(states, events, 0, j + 1, x);
    HistoryOrder(states, events, i, k);
    HistoryOrder(states, events, k, j);
    assert HandlesReport(events[k], p);
  }

  /** A step that reports comes strictly before any later one in the history. */
  lemma HistoryLengths(states: seq<System>, events: seq<Event>, i: nat, j: nat)
    requires i < j <= |events| && |states| == |events| + 1 && events[i].ScanHealth?
    ensures |History(states, events, 0, i)| < |History(states, events, 0, j)|
  {
    HistoryGrows(states, events, 0, i + 1, j);
  }

  lemma HistoryOrder(states: seq<System>, events: seq<Event>, k: nat, l: nat)
    requires k <= |events| && l <= |events| && |states| == |events| + 1
    ensures |History(states, events, 0, k)| < |History(states, events, 0, l)| ==> k < l
  {
    hide History;
    if l <= k {
      HistoryGrows(states, events, 0, l, k);
    }
  }
}

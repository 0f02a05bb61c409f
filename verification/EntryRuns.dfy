/** The client table in runs: every part of an entry comes from the last step that set it, and a silent
    client's status is decided by the times of the scans. */
module EntryRuns {
  import opened Types
  import opened Messages
  import opened Protocol
  import AckTable
  import EntryLaws
  import Registry
  import RegistryLaws
  import RegistryRuns
  import Theorems

  /** What the step means for the table. */
  function EventOf(s: System, e: Event): Option<Registry.Event> {
    if e.ServerReceive? then Some(Registry.Handled(e.peer, e.msg.body, s.now))
    else if e.ScanHealth? then Some(Registry.Scanned(s.now))
    else None
  }

  /** The parts of an entry. */
  datatype Part = STATUS | PAIR | SEEN | ROLE

  /** The step sets this part of p's entry. */
  predicate Sets(cfg: Config, s: System, e: Event, p: Peer, part: Part) {
    match EventOf(s, e)
    case None => false
    case Some(r) =>
      match part
      case STATUS => EntryLaws.StatusSet(s.registry, r, cfg.policy, p).Some?
      case PAIR => EntryLaws.PairSet(s.registry, r, cfg.policy, p).Some?
      case SEEN => EntryLaws.Marks(s.registry, r, cfg.policy, p)
      case ROLE => EntryLaws.Admits(s.registry, r, cfg.policy, p)
  }

  /** The last of the first i steps that sets this part. */
  function LastSetting(cfg: Config, states: seq<System>, events: seq<Event>, i: nat, p: Peer, part: Part): (r: Option<nat>)
    requires i <= |events| < |states|
    ensures r.Some? ==> r.value < i && Sets(cfg, states[r.value], events[r.value], p, part)
    ensures forall k :: (if r.Some? then r.value < k < i else 0 <= k < i) ==> !Sets(cfg, states[k], events[k], p, part)
  {
    if i == 0 then None
    else if Sets(cfg, states[i - 1], events[i - 1], p, part) then Some(i - 1)
    else LastSetting(cfg, states, events, i - 1, p, part)
  }

  /** p's entry after step k has the part that step sets. */
  ghost predicate HasPart(cfg: Config, s: System, e: Event, p: Peer, part: Part, info: Registry.ClientInfo)
    requires Sets(cfg, s, e, p, part)
  {
    var r := EventOf(s, e).value;
    match part
    case STATUS => EntryLaws.StatusSet(s.registry, r, cfg.policy, p) == Some(info.status)
    case PAIR => EntryLaws.PairSet(s.registry, r, cfg.policy, p) == Some((info.offsetMs, info.rttMs))
    case SEEN => info.lastSeen == s.now
    case ROLE =>
      && info.role == r.body.role
      && RegistryLaws.HoldsAgreement(info, cfg.policy.version, r.body.version,
                                     Registry.ServerCapabilities(cfg.policy.requireSecret), r.body.capabilities)
  }

  /** The part is the same in both entries. */
  predicate SamePart(part: Part, info: Registry.ClientInfo, info': Registry.ClientInfo) {
    match part
    case STATUS => info'.status == info.status
    case PAIR => info'.offsetMs == info.offsetMs && info'.rttMs == info.rttMs
    case SEEN => info'.lastSeen == info.lastSeen
    case ROLE => info'.role == info.role && info'.version == info.version && info'.capabilities == info.capabilities
  }

  lemma RunEntry(cfg: Config, states: seq<System>, events: seq<Event>, i: nat)
    requires IsRun(cfg, states, events) && i < |events|
    ensures |states| == |events| + 1
    ensures states[i + 1].registry ==
              match EventOf(states[i], events[i])
              case None => states[i].registry
              case Some(r) => Registry.Step(states[i].registry, r, cfg.policy)
  {
    hide IsRun, Registry.Step, Enabled, Do;
    Theorems.StepOfRun(cfg, states, events, i);
    RegistryRuns.StepMovesRegistry(cfg, states[i], events[i]);
    var h := RegistryRuns.RegistryEvents(states[i], events[i]);
    assert h != [] ==> h[..0] == [];
  }

  lemma StepPart(cfg: Config, states: seq<System>, events: seq<Event>, i: nat, p: Peer, part: Part)
    requires IsRun(cfg, states, events) && i < |events| < |states| && p in states[i + 1].registry
    ensures if Sets(cfg, states[i], events[i], p, part) then HasPart(cfg, states[i], events[i], p, part, states[i + 1].registry[p])
            else p in states[i].registry && SamePart(part, states[i].registry[p], states[i + 1].registry[p])
  {
    RunEntry(cfg, states, events, i);
    hide IsRun, Registry.Step, RegistryLaws.HoldsAgreement;
    match EventOf(states[i], events[i])
    case None =>
    case Some(r) =>
      EntryLaws.EntryStep(states[i].registry, r, cfg.policy, p);
      EventPart(cfg, states[i], events[i], r, p, part, states[i + 1].registry[p]);
  }

  lemma EventPart(cfg: Config, s: System, e: Event, r: Registry.Event, p: Peer, part: Part, info: Registry.ClientInfo)
    requires EventOf(s, e) == Some(r)
    requires EntryLaws.EntryAfter(EntryLaws.EntryOf(s.registry, p), s.registry, r, cfg.policy, p, info)
    ensures if Sets(cfg, s, e, p, part) then HasPart(cfg, s, e, p, part, info)
            else p in s.registry && SamePart(part, s.registry[p], info)
  {
    hide RegistryLaws.HoldsAgreement, RegistryLaws.Compatible, RegistryLaws.Authentic, RegistryLaws.MayHold;
  }

  /** In every run each part of an entry is the one given by the last step that set it: the role and
      the agreement by the last admitted registration; the status by that, by the last status
      report, or by a scan; the clock pair by the last status report or fresh registration; and the
      time last seen by the last message handled from the client or scan that judged it. */
  lemma {:induction false} EntryIsLastSet(cfg: Config, states: seq<System>, events: seq<Event>, i: nat, p: Peer, part: Part)
    requires IsRun(cfg, states, events) && i <= |events| < |states| && p in states[i].registry
    ensures var k := LastSetting(cfg, states, events, i, p, part);
      k.Some? && HasPart(cfg, states[k.value], events[k.value], p, part, states[i].registry[p])
  {
    hide IsRun, Sets, HasPart, SamePart;
    if i == 0 {
      NoEntries(cfg, states, events);
    } else {
      StepPart(cfg, states, events, i - 1, p, part);
      if !Sets(cfg, states[i - 1], events[i - 1], p, part) {
        EntryIsLastSet(cfg, states, events, i - 1, p, part);
        var k := LastSetting(cfg, states, events, i - 1, p, part).value;
        PartCarriesOver(cfg, states[k], events[k], p, part, states[i - 1].registry[p], states[i].registry[p]);
      }
    }
  }

  lemma PartCarriesOver(cfg: Config, s: System, e: Event, p: Peer, part: Part, info: Registry.ClientInfo, info': Registry.ClientInfo)
    requires Sets(cfg, s, e, p, part) && HasPart(cfg, s, e, p, part, info) && SamePart(part, info, info')
    ensures HasPart(cfg, s, e, p, part, info')
  {
  }

  lemma NoEntries(cfg: Config, states: seq<System>, events: seq<Event>)
    requires IsRun(cfg, states, events)
    ensures |states| > 0 && states[0].registry == map[]
  {
    assert Init(states[0]);
  }

  /** There is an entry exactly if a registration has been admitted. */
  lemma {:induction false} EntryMeansAdmitted(cfg: Config, states: seq<System>, events: seq<Event>, i: nat, p: Peer)
    requires IsRun(cfg, states, events) && i <= |events| < |states|
    ensures p in states[i].registry <==> LastSetting(cfg, states, events, i, p, ROLE).Some?
  {
    hide IsRun, Registry.Step, EntryLaws.Admits, EntryLaws.EntryAfter;
    if i == 0 {
      NoEntries(cfg, states, events);
    } else {
      RunEntry(cfg, states, events, i - 1);
      EntryMeansAdmitted(cfg, states, events, i - 1, p);
      if EventOf(states[i - 1], events[i - 1]).Some? {
        EntryLaws.EntryStep(states[i - 1].registry, EventOf(states[i - 1], events[i - 1]).value, cfg.policy, p);
      }
    }
  }

  // ---------- the pair the server uses ----------

  /** The clock pair p has last reported since it was admitted afresh. */
  function PairReported(cfg: Config, states: seq<System>, events: seq<Event>, i: nat, p: Peer): AckTable.ClockPair
    requires i <= |events| < |states|
  {
    match LastSetting(cfg, states, events, i, p, PAIR)
    case None => AckTable.ClockPair(0.0, 0.0)
    case Some(k) =>
      var pair := EntryLaws.PairSet(states[k].registry, EventOf(states[k], events[k]).value, cfg.policy, p).value;
      AckTable.ClockPair(pair.0, pair.1)
  }

  /** The pair with which the server maps p's times is the one p has last reported, and (0, 0) without
      a report. */
  lemma ClockIsLastReported(cfg: Config, states: seq<System>, events: seq<Event>, i: nat, p: Peer)
    requires IsRun(cfg, states, events) && i <= |events| < |states|
    ensures ClockOf(states[i].registry, p) == PairReported(cfg, states, events, i, p)
  {
    hide IsRun, EntryLaws.PairSet;
    if p in states[i].registry {
      EntryIsLastSet(cfg, states, events, i, p, PAIR);
    } else {
      NoPairWithoutEntry(cfg, states, events, i, p);
    }
  }

  lemma {:induction false} NoPairWithoutEntry(cfg: Config, states: seq<System>, events: seq<Event>, i: nat, p: Peer)
    requires IsRun(cfg, states, events) && i <= |events| < |states| && p !in states[i].registry
    ensures LastSetting(cfg, states, events, i, p, PAIR).None?
  {
    hide IsRun, Registry.Step, EntryLaws.EntryAfter;
    if i > 0 {
      RunEntry(cfg, states, events, i - 1);
      if EventOf(states[i - 1], events[i - 1]).Some? {
        EntryLaws.EntryStep(states[i - 1].registry, EventOf(states[i - 1], events[i - 1]).value, cfg.policy, p);
      }
      NoPairWithoutEntry(cfg, states, events, i - 1, p);
    }
  }

  // ---------- a silent client ----------

  /** The times of the health scans between states i and j. */
  function ScanTimes(states: seq<System>, events: seq<Event>, i: nat, j: nat): seq<real>
    requires i <= j <= |events| < |states|
    decreases j
  {
    if i == j then []
    else ScanTimes(states, events, i, j - 1) + if events[j - 1].ScanHealth? then [states[j - 1].now] else []
  }

  lemma {:induction false} ScansOfHistory(states: seq<System>, events: seq<Event>, i: nat, j: nat)
    requires i <= j <= |events| && |states| == |events| + 1
    ensures EntryLaws.Scans(RegistryRuns.History(states, events, i, j)) == ScanTimes(states, events, i, j)
    decreases j
  {
    if i < j {
      ScansOfHistory(states, events, i, j - 1);
      MoreScans(RegistryRuns.History(states, events, i, j - 1), RegistryRuns.RegistryEvents(states[j - 1], events[j - 1]));
      hide EntryLaws.Scans;
    }
  }

  lemma MoreScans(h: seq<Registry.Event>, more: seq<Registry.Event>)
    requires |more| <= 1
    ensures EntryLaws.Scans(h + more) == EntryLaws.Scans(h) + if more != [] && more[0].Scanned? then [more[0].at] else []
  {
    if more != [] {
      assert (h + more)[..|h + more| - 1] == h;
    } else {
      assert h + more == h;
    }
  }

  lemma {:induction false} ScansAreOrdered(cfg: Config, states: seq<System>, events: seq<Event>, i: nat, j: nat, r: real)
    requires IsRun(cfg, states, events) && i <= j <= |events| < |states| && r <= states[i].now
    ensures EntryLaws.Ordered(ScanTimes(states, events, i, j), r)
    ensures forall x :: x in ScanTimes(states, events, i, j) ==> x <= states[j].now
    decreases j
  {
    hide IsRun;
    if i < j {
      ScansAreOrdered(cfg, states, events, i, j - 1, r);
      Theorems.RunGrows(cfg, states, events, i, j - 1);
      Theorems.RunGrows(cfg, states, events, j - 1, j);
      OneMoreOrdered(ScanTimes(states, events, i, j - 1), states[j - 1].now, r);
    }
  }

  lemma OneMoreOrdered(times: seq<real>, at: real, r: real)
    requires EntryLaws.Ordered(times, r) && r <= at && forall x :: x in times ==> x <= at
    ensures EntryLaws.Ordered(times + [at], r)
  {
    forall i | 0 <= i < |times|
      ensures times[i] <= at
    {
      assert times[i] in times;
    }
  }

  /** In every run: let the last message handled from p come in step i, at time r, and leave p in an
      active status. The times of the scans since then decide, exactly, p's status. */
  lemma SilenceDecidesStatus(cfg: Config, states: seq<System>, events: seq<Event>, i: nat, j: nat, p: Peer)
    requires IsRun(cfg, states, events) && i < j < |states| && |states| == |events| + 1
    requires RegistryRuns.LeavesActive(states, events, i, p) && RegistryRuns.Quiet(events, i + 1, j, p)
    ensures p in states[j].registry
    ensures states[j].registry[p].status ==
              EntryLaws.SilentStatus(states[i + 1].registry[p].status, states[i].now, ScanTimes(states, events, i + 1, j),
                                     cfg.policy.timeout)
  {
    hide IsRun, RegistryRuns.History, Registry.Step, Registry.After, RegistryLaws.Silent, EntryLaws.Ordered, EntryLaws.SilentStatus,
         EntryLaws.Scans, Registry.Active, ScanTimes;
    var h := RegistryRuns.History(states, events, i + 1, j);
    RegistryRuns.ReceiveIsHandled(cfg, states, events, i, p);
    Refreshed(states[i].registry, p, events[i].msg.body, states[i].now, cfg.policy);
    RegistryRuns.RegistryFollowsHistory(cfg, states, events, i + 1, j);
    RegistryRuns.QuietIsSilent(states, events, i + 1, j, p);
    ScansOfHistory(states, events, i + 1, j);
    Theorems.RunGrows(cfg, states, events, i, i + 1);
    ScansAreOrdered(cfg, states, events, i + 1, j, states[i].now);
    EntryLaws.SilenceDecides(states[i + 1].registry, p, states[i].now, h, cfg.policy);
  }

  lemma Refreshed(t: Registry.Table, p: Peer, body: Body, at: real, policy: Registry.Policy)
    requires p in Registry.Step(t, Registry.Handled(p, body, at), policy)
    ensures Registry.Step(t, Registry.Handled(p, body, at), policy)[p].lastSeen == at
  {
    hide Registry.Handle;
    RegistryLaws.HandledRefreshes(t, p, body, at, policy);
  }
}

/** The main results about clocks: statements about every run of the control protocol. */
module ClockTheorems {
  import opened Types
  import opened ClientLoop
  import opened Protocol
  import opened Theorems
  import AckTable
  import ClientRuns
  import Clock
  import ClockLaws
  import ExchangeLaws
  import GroundLaws
  import Histories
  import SafetyLaws
  import TrialRuns

  // ---------- clock pairs ----------

  /** p has resumed a PONG before state i. */
  predicate Synced(states: seq<System>, events: seq<Event>, i: nat, p: Peer)
    requires i <= |events| < |states|
  {
    ClientRuns.LastSync(states, events, i, p).Some?
  }

  /** A client's clock pair is the sample of the last PONG it resumed with, which is within half
      its round trip of the truth, and (0, 0) before the first. */
  lemma ClockPairIsLastSample(cfg: Config, states: seq<System>, events: seq<Event>, i: nat, p: Peer)
    requires IsRun(cfg, states, events) && i <= |events| < |states| && p in states[i].clients
    ensures var c := states[i].clients[p];
      match ClientRuns.LastSync(states, events, i, p)
      case None => c.offsetMs == 0.0 && c.rttMs == 0.0
      case Some(k) =>
        && Clock.Sample(c.rttMs, c.offsetMs) == ClientRuns.SampleAt(cfg, states[k], events[k], p)
        && Clock.Accurate(cfg.trueOffset(p), c.offsetMs, c.rttMs)
  {
    hide IsRun, ClientRuns.Syncs, ClientRuns.SampleAt, Clock.Accurate;
    ClientRuns.PairIsLastSample(cfg, states, events, i, p);
    if ClientRuns.LastSync(states, events, i, p).Some? {
      ClientRuns.SyncedPairIsAccurate(cfg, states, events, i, p);
    }
  }

  /** p had this pair in state k, in a run up to state i. */
  ghost predicate HadPair(states: seq<System>, events: seq<Event>, i: nat, x: GroundLaws.Held, synced: bool)
    requires i <= |events| < |states|
  {
    exists k :: 0 <= k <= i && HasPair(states[k], x) && Synced(states, events, k, x.peer) == synced
  }

  lemma HeldWasHad(states: seq<System>, events: seq<Event>, i: nat, x: GroundLaws.Held)
    requires i <= |events| < |states| && x in Pairs(states, i)
    ensures HadPair(states, events, i, x, true) || HadPair(states, events, i, x, false)
  {
    hide Synced;
    PairWasHeld(states, i, x);
    var k :| 0 <= k <= i && HasPair(states[k], x);
    assert Synced(states, events, k, x.peer) || !Synced(states, events, k, x.peer);
  }

  /** A pair had after a synchronisation is accurate; one had before is (0, 0). */
  lemma HadPairMeans(cfg: Config, states: seq<System>, events: seq<Event>, i: nat, x: GroundLaws.Held, synced: bool)
    requires IsRun(cfg, states, events) && i <= |events| < |states| && HadPair(states, events, i, x, synced)
    ensures synced ==> Clock.Accurate(cfg.trueOffset(x.peer), x.offsetMs, x.rttMs)
    ensures !synced ==> x.offsetMs == 0.0 && x.rttMs == 0.0
  {
    hide IsRun, Clock.Accurate;
    var k :| 0 <= k <= i && HasPair(states[k], x) && Synced(states, events, k, x.peer) == synced;
    ClockPairIsLastSample(cfg, states, events, k, x.peer);
  }

  /** The registry's copy of a client's pair is one that client had at this or an earlier state. */
  lemma RegistryPairWasHad(cfg: Config, states: seq<System>, events: seq<Event>, i: nat, p: Peer)
    requires IsRun(cfg, states, events) && i <= |events| < |states| && p in states[i].registry
    ensures var x := GroundLaws.Held(p, states[i].registry[p].offsetMs, states[i].registry[p].rttMs);
            HadPair(states, events, i, x, true) || HadPair(states, events, i, x, false)
  {
    hide IsRun, SafetyLaws.Safe, ExchangeLaws.Exchanges, GroundLaws.Grounded, HadPair, Pairs;
    RunKeepsAll(cfg, states, events, i);
    GroundLaws.GroundedParts(cfg, states[i], Pairs(states, i));
    HeldWasHad(states, events, i, GroundLaws.Held(p, states[i].registry[p].offsetMs, states[i].registry[p].rttMs));
  }

  // ---------- trial starts ----------

  /** The start of a TRIAL_START_AT, on the server's clock. */
  function ServerStart(cfg: Config, p: Peer, x: TrialStart): real {
    x.at + cfg.trueOffset(p)
  }

  /** p received the message of the start in a state in which it had, or had not, synchronised. */
  ghost predicate ReceivedWhen(cfg: Config, states: seq<System>, events: seq<Event>, i: nat, p: Peer, x: TrialStart, synced: bool)
    requires i <= |events| < |states|
  {
    exists k :: 0 <= k < i && TrialRuns.ReceiptOf(cfg, states[k], events[k], p, x) && Synced(states, events, k, p) == synced
  }

  lemma StartWasReceivedWhen(cfg: Config, states: seq<System>, events: seq<Event>, i: nat, p: Peer, x: TrialStart)
    requires IsRun(cfg, states, events) && i <= |events| < |states| && p in states[i].clients && x in Histories.TrialStarts(cfg, states, i, p)
    ensures ReceivedWhen(cfg, states, events, i, p, x, true) || ReceivedWhen(cfg, states, events, i, p, x, false)
  {
    hide IsRun, Synced, TrialRuns.ReceiptOf;
    Histories.RecordsAreReal(cfg, states, events, i, p);
    TrialRuns.StartWasReceived(cfg, states, events, i, p, x);
    var k :| 0 <= k < i && TrialRuns.ReceiptOf(cfg, states[k], events[k], p, x);
    assert Synced(states, events, k, p) || !Synced(states, events, k, p);
  }

  lemma StartIsScheduled(cfg: Config, states: seq<System>, events: seq<Event>, i: nat, p: Peer, x: TrialStart)
    requires IsRun(cfg, states, events) && i <= |events| < |states| && p in states[i].clients && x in Histories.TrialStarts(cfg, states, i, p)
    ensures GroundLaws.StartGrounded(cfg.trueOffset(p), x, states[i].created, states[i].now)
  {
    hide Init, Next, Enabled, Do, IsRun, SafetyLaws.Safe, ExchangeLaws.Exchanges, GroundLaws.PacketsGrounded,
         GroundLaws.TableGrounded, GroundLaws.RegistryGrounded, GroundLaws.PairsHeld, GroundLaws.StartGrounded;
    Histories.RecordsAreReal(cfg, states, events, i, p);
    RunKeepsAll(cfg, states, events, i);
    assert GroundLaws.ClientGrounded(cfg.trueOffset(p), states[i].clients[p], states[i].created, states[i].now);
  }

  /** The start is that of a message scheduled for executeAt, and its target that time on the
      client's clock, as far as its pair tells. */
  predicate ScheduledFor(s: System, x: TrialStart) {
    && x.id in s.created && s.created[x.id].body.Command? && s.created[x.id].body.executeAt == x.executeAt
    && x.target == Clock.LocalForServer(x.executeAt, x.offsetMs)
  }

  /** A client that had synchronised when the message reached it never starts the trial earlier
      than executeAt - rtt/2 on the server's clock, and if its handlers start within late of its
      local target, no later than executeAt + rtt/2 + late. */
  lemma TrialStartsOnTime(cfg: Config, states: seq<System>, events: seq<Event>, i: nat, p: Peer, x: TrialStart, late: real)
    requires IsRun(cfg, states, events) && i <= |events| < |states| && p in states[i].clients && x in Histories.TrialStarts(cfg, states, i, p)
    requires ReceivedWhen(cfg, states, events, i, p, x, true)
    ensures ScheduledFor(states[i], x)
    ensures x.executeAt - x.rttMs / 2000.0 <= ServerStart(cfg, p, x)
    ensures x.at <= x.target + late ==> ServerStart(cfg, p, x) <= x.executeAt + x.rttMs / 2000.0 + late
  {
    hide IsRun, Synced;
    StartIsScheduled(cfg, states, events, i, p, x);
    var k :| 0 <= k < i && TrialRuns.ReceiptOf(cfg, states[k], events[k], p, x) && Synced(states, events, k, p);
    SyncedIsAccurate(cfg, states, events, k, p);
    ClockLaws.StartWindow(cfg.trueOffset(p), x.offsetMs, x.rttMs, x.executeAt, x.at, late);
  }

  lemma SyncedIsAccurate(cfg: Config, states: seq<System>, events: seq<Event>, k: nat, p: Peer)
    requires IsRun(cfg, states, events) && k <= |events| < |states| && p in states[k].clients && Synced(states, events, k, p)
    ensures Clock.Accurate(cfg.trueOffset(p), states[k].clients[p].offsetMs, states[k].clients[p].rttMs)
  {
    hide IsRun, Clock.Accurate;
    ClockPairIsLastSample(cfg, states, events, k, p);
  }

  /** A client that had not synchronised starts exactly its clock's offset off: at or after
      executeAt + trueOffset, and within late of its target, at most that much later. */
  lemma UnsyncedStartIsOff(cfg: Config, states: seq<System>, events: seq<Event>, i: nat, p: Peer, x: TrialStart, late: real)
    requires IsRun(cfg, states, events) && i <= |events| < |states| && p in states[i].clients && x in Histories.TrialStarts(cfg, states, i, p)
    requires ReceivedWhen(cfg, states, events, i, p, x, false)
    ensures ScheduledFor(states[i], x) && x.offsetMs == 0.0 && x.rttMs == 0.0
    ensures x.executeAt + cfg.trueOffset(p) <= ServerStart(cfg, p, x)
    ensures x.at <= x.target + late ==> ServerStart(cfg, p, x) <= x.executeAt + cfg.trueOffset(p) + late
  {
    hide IsRun, Synced;
    StartIsScheduled(cfg, states, events, i, p, x);
    var k :| 0 <= k < i && TrialRuns.ReceiptOf(cfg, states[k], events[k], p, x) && !Synced(states, events, k, p);
    UnsyncedIsZero(cfg, states, events, k, p);
  }

  lemma UnsyncedIsZero(cfg: Config, states: seq<System>, events: seq<Event>, k: nat, p: Peer)
    requires IsRun(cfg, states, events) && k <= |events| < |states| && p in states[k].clients && !Synced(states, events, k, p)
    ensures states[k].clients[p].offsetMs == 0.0 && states[k].clients[p].rttMs == 0.0
  {
    hide IsRun;
    ClockPairIsLastSample(cfg, states, events, k, p);
  }

  /** Two synchronised clients whose handlers start within late of their targets start the same
      trial within (rtt_p + rtt_q)/2 + late of each other. */
  lemma TrialStartsTogether(cfg: Config, states: seq<System>, events: seq<Event>, i: nat,
                            p: Peer, x: TrialStart, q: Peer, y: TrialStart, late: real)
    requires IsRun(cfg, states, events) && i <= |events| < |states|
    requires p in states[i].clients && x in Histories.TrialStarts(cfg, states, i, p) && ReceivedWhen(cfg, states, events, i, p, x, true)
    requires q in states[i].clients && y in Histories.TrialStarts(cfg, states, i, q) && ReceivedWhen(cfg, states, events, i, q, y, true)
    requires x.executeAt == y.executeAt && x.at <= x.target + late && y.at <= y.target + late
    ensures Abs(ServerStart(cfg, p, x) - ServerStart(cfg, q, y)) <= (x.rttMs + y.rttMs) / 2000.0 + late
  {
    hide IsRun, ReceivedWhen;
    TrialStartsOnTime(cfg, states, events, i, p, x, late);
    TrialStartsOnTime(cfg, states, events, i, q, y, late);
  }

  // ---------- every run of the handlers has a start ----------

  /** The runs of TRIAL_START_AT handlers that p has completed, read off the run. */
  function CompletedTrials(cfg: Config, states: seq<System>, events: seq<Event>, i: nat, p: Peer): seq<Completion>
    requires i <= |events| < |states|
  {
    TrialRuns.Trials(TrialRuns.TrialIds(states[i].created), Histories.Completions(cfg, states, events, i, p))
  }

  /** The n-th completed run of TRIAL_START_AT handlers is that of the n-th start, which
      came no later; so it too ends no earlier than executeAt - rtt/2 on the server's clock if the
      client had synchronised when the message reached it. */
  lemma TrialCompletesOnTime(cfg: Config, states: seq<System>, events: seq<Event>, i: nat, p: Peer, n: nat)
    requires IsRun(cfg, states, events) && i <= |events| < |states| && p in states[i].clients
    requires n < |CompletedTrials(cfg, states, events, i, p)|
    ensures var starts, done := Histories.TrialStarts(cfg, states, i, p), CompletedTrials(cfg, states, events, i, p)[n];
      && n < |starts| && starts[n].id == done.id && starts[n].at <= done.at
      && (ReceivedWhen(cfg, states, events, i, p, starts[n], true) ==>
            starts[n].executeAt - starts[n].rttMs / 2000.0 <= done.at + cfg.trueOffset(p))
  {
    hide IsRun, ReceivedWhen, TrialRuns.Known, TrialRuns.Trials, TrialRuns.TrialIds;
    TrialRuns.RunsHaveStarts(cfg, states, events, i, p);
    Histories.RecordsAreReal(cfg, states, events, i, p);
    var x := states[i].clients[p].starts[n];
    if ReceivedWhen(cfg, states, events, i, p, x, true) {
      TrialStartsOnTime(cfg, states, events, i, p, x, 0.0);
    }
  }

  /** While TRIAL_START_AT handlers are running, their start is the last one, and the number of
      starts is that of completed runs and this one. */
  lemma RunningTrialHasStarted(cfg: Config, states: seq<System>, events: seq<Event>, i: nat, p: Peer)
    requires IsRun(cfg, states, events) && i <= |events| < |states| && p in states[i].clients
    ensures var c, starts, done := states[i].clients[p], Histories.TrialStarts(cfg, states, i, p), |CompletedTrials(cfg, states, events, i, p)|;
      && |starts| == done + (if TrialRuns.InTrial(c) then 1 else 0)
      && (TrialRuns.InTrial(c) ==>
            TrialRuns.StartOf(starts[done], c.job.value) && starts[done].at <= LocalTime(cfg, states[i], p))
  {
    hide IsRun, SafetyLaws.Safe, ExchangeLaws.Exchanges, GroundLaws.Grounded, TrialRuns.Known, TrialRuns.Trials, TrialRuns.TrialIds;
    TrialRuns.RunsHaveStarts(cfg, states, events, i, p);
    Histories.RecordsAreReal(cfg, states, events, i, p);
    RunKeepsAll(cfg, states, events, i);
    TrialRuns.StartsArePast(cfg, states[i], p, Pairs(states, i));
  }

  // ---------- skews ----------

  /** All the clock pairs a skew was computed with were had after a synchronisation. */
  ghost predicate AllSynced(states: seq<System>, events: seq<Event>, i: nat, times: seq<AckTable.ApplyTime>)
    requires i <= |events| < |states|
  {
    forall x :: x in times ==> HadPair(states, events, i, GroundLaws.Held(x.peer, x.offsetMs, x.rttMs), true)
  }

  /** In one of the first i steps x.peer's handlers for a message of the command returned, at local
      time x.applyTs. */
  ghost predicate ReallyApplied(cfg: Config, states: seq<System>, events: seq<Event>, i: nat, c: CommandId, x: AckTable.ApplyTime)
    requires i <= |events| < |states|
  {
    exists m, k :: && m in states[i].created && SafetyLaws.IsCommand(states[i].created[m], c)
                   && 0 <= k < i && Histories.Completes(cfg, states[k], events[k], x.peer, Completion(m, x.applyTs))
  }

  ghost predicate RecordsApplied(s: System, c: CommandId, x: AckTable.ApplyTime, m: MsgId) {
    && m in s.created && SafetyLaws.IsCommand(s.created[m], c)
    && x.peer in s.clients && Completion(m, x.applyTs) in s.clients[x.peer].completed
  }

  lemma RecordIsReal(cfg: Config, states: seq<System>, events: seq<Event>, i: nat, c: CommandId, x: AckTable.ApplyTime, m: MsgId)
    requires IsRun(cfg, states, events) && i <= |events| < |states| && RecordsApplied(states[i], c, x, m)
    ensures ReallyApplied(cfg, states, events, i, c, x)
  {
    hide IsRun, Histories.Completes;
    Histories.RecordHasStep(cfg, states, events, i, x.peer, Completion(m, x.applyTs));
  }

  /** The apply time was mapped with a pair its peer had at some state up to i. */
  ghost predicate MappedByOwnPair(states: seq<System>, events: seq<Event>, i: nat, x: AckTable.ApplyTime)
    requires i <= |events| < |states|
  {
    var pair := GroundLaws.Held(x.peer, x.offsetMs, x.rttMs);
    && x.at == x.applyTs + x.offsetMs / 1000.0
    && (HadPair(states, events, i, pair, true) || HadPair(states, events, i, pair, false))
  }

  ghost predicate SkewBounded(trueOffset: Peer -> real, skew: AckTable.Skew)
    requires skew.times != []
  {
    Abs(skew.ms - AckTable.Spread(ClockLaws.TrueTimes(skew.times, trueOffset)) * 1000.0) <= ClockLaws.WorstRtt(skew.times)
  }

  /** Every skew is made of moments at which its peers really completed the command, each mapped
      with a pair its peer had; and if all of these were had after a synchronisation, it differs
      from the true spread of those moments by at most the largest round trip among them. */
  lemma ReportedSkewIsSound(cfg: Config, states: seq<System>, events: seq<Event>, i: nat, k: nat)
    requires IsRun(cfg, states, events) && i <= |events| < |states| && k < |states[i].acks.skews|
    ensures var skew := states[i].acks.skews[k];
      && (forall x :: x in skew.times ==> ReallyApplied(cfg, states, events, i, skew.command, x) && MappedByOwnPair(states, events, i, x))
      && skew.times != []
      && (AllSynced(states, events, i, skew.times) ==> SkewBounded(cfg.trueOffset, skew))
  {
    hide IsRun, SafetyLaws.Safe, ExchangeLaws.Exchanges, GroundLaws.Grounded, GroundLaws.TimesGrounded, GroundLaws.EntryGrounded,
         AckTable.Spread, ReallyApplied, MappedByOwnPair, AllSynced, SkewBounded, Pairs, RecordsApplied;
    RunKeepsAll(cfg, states, events, i);
    var s, skew, held := states[i], states[i].acks.skews[k], Pairs(states, i);
    SkewIsSpread(cfg, s, k);
    SkewTimesGrounded(cfg, s, held, k);
    forall x | x in skew.times
      ensures ReallyApplied(cfg, states, events, i, skew.command, x) && MappedByOwnPair(states, events, i, x)
    {
      TimeGrounded(held, skew.times, skew.command, s.acks.sends, s.acks.accepted, x);
      var m := EntryIsReal(cfg, s, held, skew.command, x);
      RecordIsReal(cfg, states, events, i, skew.command, x, m);
      EntryIsMapped(states, events, i, skew.command, s.acks.sends, s.acks.accepted, x);
    }
    if AllSynced(states, events, i, skew.times) {
      SkewBound(cfg, states, events, i, skew);
    }
  }

  lemma EntryIsMapped(states: seq<System>, events: seq<Event>, i: nat, c: CommandId, sends: map<MsgId, AckTable.Send>,
                      accepted: map<MsgId, Option<real>>, x: AckTable.ApplyTime)
    requires i <= |events| < |states| && GroundLaws.EntryGrounded(Pairs(states, i), x, c, sends, accepted)
    ensures MappedByOwnPair(states, events, i, x)
  {
    hide Pairs, HadPair;
    HeldWasHad(states, events, i, GroundLaws.Held(x.peer, x.offsetMs, x.rttMs));
  }

  lemma SkewTimesGrounded(cfg: Config, s: System, held: set<GroundLaws.Held>, k: nat)
    requires GroundLaws.Grounded(cfg, s, held) && k < |s.acks.skews|
    ensures GroundLaws.TimesGrounded(held, s.acks.skews[k].times, s.acks.skews[k].command, s.acks.sends, s.acks.accepted)
  {
    hide GroundLaws.TimesGrounded, GroundLaws.PacketsGrounded, GroundLaws.ClientsGrounded, GroundLaws.PairsHeld,
         GroundLaws.RegistryGrounded;
  }

  lemma TimeGrounded(held: set<GroundLaws.Held>, times: seq<AckTable.ApplyTime>, c: CommandId,
                     sends: map<MsgId, AckTable.Send>, accepted: map<MsgId, Option<real>>, x: AckTable.ApplyTime)
    requires GroundLaws.TimesGrounded(held, times, c, sends, accepted) && x in times
    ensures GroundLaws.EntryGrounded(held, x, c, sends, accepted)
  {
    hide GroundLaws.EntryGrounded;
  }

  lemma SkewBound(cfg: Config, states: seq<System>, events: seq<Event>, i: nat, skew: AckTable.Skew)
    requires IsRun(cfg, states, events) && i <= |events| < |states|
    requires skew.times != [] && skew.ms == AckTable.Spread(skew.times) * 1000.0
    requires forall x :: x in skew.times ==> MappedByOwnPair(states, events, i, x)
    requires AllSynced(states, events, i, skew.times)
    ensures SkewBounded(cfg.trueOffset, skew)
  {
    hide IsRun, AckTable.Spread, HadPair;
    forall x | x in skew.times
      ensures x.at == x.applyTs + x.offsetMs / 1000.0 && Clock.Accurate(cfg.trueOffset(x.peer), x.offsetMs, x.rttMs)
    {
      HadPairMeans(cfg, states, events, i, GroundLaws.Held(x.peer, x.offsetMs, x.rttMs), true);
    }
    ClockLaws.SkewIsSound(skew.times, cfg.trueOffset);
  }

  lemma SkewIsSpread(cfg: Config, s: System, k: nat)
    requires SafetyLaws.Safe(cfg, s) && k < |s.acks.skews|
    ensures s.acks.skews[k].times != [] && s.acks.skews[k].ms == AckTable.Spread(s.acks.skews[k].times) * 1000.0
  {
    hide SafetyLaws.Wire, SafetyLaws.Tasks, SafetyLaws.Loops, SafetyLaws.AcksBacked, SafetyLaws.AcceptedBacked,
         AckTable.Fates, AckTable.Tracked, AckTable.Conserved, AckTable.FuturesFollow, AckTable.OnePerPeer,
         AckTable.GroupsExact, AckTable.SkewsCounted, AckTable.LastSkews, AckTable.Spread;
  }

  lemma EntryIsReal(cfg: Config, s: System, held: set<GroundLaws.Held>, c: CommandId, x: AckTable.ApplyTime)
    returns (m: MsgId)
    requires SafetyLaws.Safe(cfg, s) && GroundLaws.EntryGrounded(held, x, c, s.acks.sends, s.acks.accepted)
    ensures RecordsApplied(s, c, x, m)
  {
    hide SafetyLaws.Wire, SafetyLaws.Loops, SafetyLaws.AcksBacked, AckTable.TableInv, SafetyLaws.TaskOk;
    m :| m in s.acks.accepted && m in s.acks.sends && s.acks.accepted[m] == Some(x.applyTs) &&
             s.acks.sends[m] == AckTable.Send(x.peer, c);
    assert SafetyLaws.IsCommand(s.created[m], c);
    assert SafetyLaws.Backed(s.clients[x.peer], m, Some(x.applyTs));
  }
}

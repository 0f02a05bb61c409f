/** Properties of the client table over whole runs: what registration can change, and when the
    health scan reports a client. */
module RegistryLaws {
  import opened Types
  import opened Messages
  import opened Versioning
  import opened Registry

  // ---------- safety of registration ----------

  ghost predicate AllAgreeable(t: Table, policy: Policy) {
    forall p :: p in t ==>
      Agreeable(t[p].version, t[p].capabilities, policy.version, ServerCapabilities(policy.requireSecret))
  }

  /** Roles, versions and capabilities of every entry are as they were. */
  ghost predicate SameRecords(t: Table, t': Table) {
    && t'.Keys == t.Keys
    && forall p :: p in t ==>
         t'[p].role == t[p].role && t'[p].version == t[p].version && t'[p].capabilities == t[p].capabilities
  }

  /** Both versions parse, with the same major. */
  predicate Compatible(server: string, client: string) {
    Parse(server).Ok? && Parse(client).Ok? && Parse(server).value.major == Parse(client).value.major
  }

  /** The client knows its secret, or needs none. */
  predicate Authentic(p: Peer, secret: Option<string>, policy: Policy) {
    policy.requireSecret ==> p in policy.secrets && secret == Some(policy.secrets[p])
  }

  /** The id is new, given up, or held in the same role. */
  predicate MayHold(t: Table, p: Peer, role: string) {
    p !in t || t[p].status == DISCONNECTED || t[p].role == role
  }

  /** The entry holds the lower of the two versions, in their common major, and exactly the common
      capabilities, in increasing order. */
  ghost predicate HoldsAgreement(info: ClientInfo, server: string, client: string, serverCaps: seq<string>, clientCaps: seq<string>)
    requires Compatible(server, client)
  {
    && Parse(info.version) == Ok(Version(Parse(server).value.major, Lower(Parse(server).value.minor, Parse(client).value.minor)))
    && Increasing(info.capabilities)
    && forall x :: x in info.capabilities <==> x in serverCaps && x in clientCaps
  }

  function Lower(m: nat, n: nat): nat {
    if m <= n then m else n
  }

  lemma AgreementIsHeld(server: string, client: string, serverCaps: seq<string>, clientCaps: seq<string>)
    ensures var r := Negotiate(server, client, serverCaps, clientCaps);
      && (r.Ok? <==> Compatible(server, client))
      && (r.Ok? ==>
            && Agreeable(r.value.version, r.value.capabilities, server, serverCaps)
            && forall info: ClientInfo :: info.version == r.value.version && info.capabilities == r.value.capabilities ==>
                 HoldsAgreement(info, server, client, serverCaps, clientCaps))
  {
    NegotiatedIsAgreeable(server, client, serverCaps, clientCaps);
    hide Negotiate, Parse;
  }

  /** A registration is accepted exactly if the offered version is compatible with the server's, the
      secret is right where one is asked for, and the id may be held in that role; the code of a
      refusal names the first of these that fails, and the table is then as it was. An accepted
      client's entry holds the agreement with what it offered; no other entry changes. */
  lemma RegisterIsSafe(t: Table, p: Peer, role: string, version: string, capabilities: seq<string>,
                       secret: Option<string>, now: real, policy: Policy)
    ensures var (t', r) := Enroll(t, p, role, version, capabilities, secret, now, policy);
      && (r.Registered? <==> Compatible(policy.version, version) && Authentic(p, secret, policy) && MayHold(t, p, role))
      && (r == Refused(VERSION_MISMATCH) <==> !Compatible(policy.version, version))
      && (r == Refused(AUTH_FAILED) <==> Compatible(policy.version, version) && !Authentic(p, secret, policy))
      && (r.Refused? ==> t' == t)
      && (r.Registered? ==>
            && t'.Keys == t.Keys + {p} && t'[p].role == role && t'[p].status == REGISTERED && t'[p].lastSeen == now
            && HoldsAgreement(t'[p], policy.version, version, ServerCapabilities(policy.requireSecret), capabilities)
            && (r.refreshed <==> p in t && t[p].status != DISCONNECTED)
            && SamePairUnlessFresh(if r.refreshed then Some(t[p]) else None, t'[p], now)
            && (forall q :: q in t && q != p ==> t'[q] == t[q]))
    ensures AllAgreeable(t, policy) ==> AllAgreeable(Enroll(t, p, role, version, capabilities, secret, now, policy).0, policy)
  {
    AgreementIsHeld(policy.version, version, ServerCapabilities(policy.requireSecret), capabilities);
    hide Negotiate, Agreeable, ServerCapabilities, HoldsAgreement, Compatible;
  }

  /** A refreshed entry keeps its clock pair and the time of its connection; a new one starts with
      the pair (0, 0) and connects now. */
  predicate SamePairUnlessFresh(was: Option<ClientInfo>, info: ClientInfo, now: real) {
    match was
    case Some(prior) => info.offsetMs == prior.offsetMs && info.rttMs == prior.rttMs && info.connectedSince == prior.connectedSince
    case None => info.offsetMs == 0.0 && info.rttMs == 0.0 && info.connectedSince == now
  }

  /** The event is a registration that the server rejects. */
  ghost predicate Rejects(t: Table, e: Event, policy: Policy) {
    && e.Handled? && e.body.Register?
    && Enroll(Touch(t, e.peer, e.at), e.peer, e.body.role, e.body.version, e.body.capabilities, e.body.secret,
              e.at, policy).1.Refused?
  }

  lemma StepKeepsAgreeable(t: Table, e: Event, policy: Policy)
    requires AllAgreeable(t, policy)
    ensures AllAgreeable(Step(t, e, policy), policy)
  {
    hide Agreeable, ServerCapabilities, Negotiate, Enroll;
    if e.Handled? && e.body.Register? {
      var b := e.body;
      assert AllAgreeable(Touch(t, e.peer, e.at), policy);
      RegisterIsSafe(Touch(t, e.peer, e.at), e.peer, b.role, b.version, b.capabilities, b.secret, e.at, policy);
    }
  }

  /** Nothing but an accepted registration changes a role, version or capability list. */
  lemma OnlyAcceptedRegistrationsChangeRecords(t: Table, e: Event, policy: Policy)
    requires !(e.Handled? && e.body.Register?) || Rejects(t, e, policy)
    ensures SameRecords(t, Step(t, e, policy))
  {
    hide Negotiate, ServerCapabilities;
  }

  /** One event removes no id and changes a role only for a client that was DISCONNECTED. */
  lemma StepKeepsRole(t: Table, e: Event, policy: Policy, p: Peer)
    requires p in t
    ensures p in Step(t, e, policy)
    ensures Step(t, e, policy)[p].role != t[p].role ==> t[p].status == DISCONNECTED
  {
    hide Negotiate, ServerCapabilities;
  }

  /** Every entry holds an agreement with the server in every state of every run. */
  lemma {:induction false} EntriesStayAgreeable(t: Table, events: seq<Event>, policy: Policy)
    requires AllAgreeable(t, policy)
    ensures AllAgreeable(After(t, events, policy), policy)
  {
    if events != [] {
      EntriesStayAgreeable(t, events[..|events| - 1], policy);
      StepKeepsAgreeable(After(t, events[..|events| - 1], policy), events[|events| - 1], policy);
    }
  }

  /** Over a whole run an id is never removed, and a role that differs later was given up
      through a DISCONNECTED state in between. */
  lemma {:induction false} RoleNeedsDisconnect(t: Table, events: seq<Event>, policy: Policy, p: Peer)
    requires p in t
    ensures p in After(t, events, policy)
    ensures After(t, events, policy)[p].role != t[p].role ==>
              exists k :: 0 <= k < |events| && WasDisconnected(t, events[..k], policy, p)
  {
    if events != [] {
      var init := events[..|events| - 1];
      RoleNeedsDisconnect(t, init, policy, p);
      StepKeepsRole(After(t, init, policy), events[|events| - 1], policy, p);
      hide Step;
      if After(t, init, policy)[p].role != t[p].role {
        var k :| 0 <= k < |init| && WasDisconnected(t, init[..k], policy, p);
        assert init[..k] == events[..k];
      } else if After(t, events, policy)[p].role != t[p].role {
        assert WasDisconnected(t, events[..|init|], policy, p);
      }
    }
  }

  ghost predicate WasDisconnected(t: Table, events: seq<Event>, policy: Policy, p: Peer) {
    p in After(t, events, policy) && After(t, events, policy)[p].status == DISCONNECTED
  }

  // ---------- the failure detector ----------

  /** No message from p is handled. */
  ghost predicate Silent(events: seq<Event>, p: Peer) {
    forall k :: 0 <= k < |events| && events[k].Handled? ==> events[k].peer != p
  }

  /** The time of the last scan; start if there is none. */
  function LastScan(events: seq<Event>, start: real): real {
    if events == [] then start
    else if events[|events| - 1].Scanned? then events[|events| - 1].at
    else LastScan(events[..|events| - 1], start)
  }

  /** Scans never go back in time and are at most gap apart, counting from start. */
  ghost predicate Paced(events: seq<Event>, start: real, gap: real) {
    forall k :: 0 <= k < |events| && events[k].Scanned? ==>
      LastScan(events[..k], start) <= events[k].at <= LastScan(events[..k], start) + gap
  }

  /** The scan at step k of the run writes a `disconnect` record for p. */
  ghost predicate DisconnectRecorded(t: Table, events: seq<Event>, policy: Policy, p: Peer, k: nat)
    requires k < |events|
  {
    && events[k].Scanned?
    && p in After(t, events[..k], policy)
    && Judge(After(t, events[..k], policy)[p], events[k].at, policy.timeout).MarkDisconnected?
  }

  /** Where a silent client is after its last message at time r, the last scan being at `scan`:
      still as it was; degraded on time; or disconnected. */
  ghost predicate Fading(info: ClientInfo, r: real, scan: real, timeout: real, gap: real) {
    || (Active(info.status) && info.lastSeen == r && (scan < r + timeout / 2.0 || scan == r))
    || (info.status == DEGRADED && r + timeout / 2.0 <= info.lastSeen <= r + timeout / 2.0 + gap
        && info.lastSeen < r + timeout && info.lastSeen <= scan < info.lastSeen + timeout)
    || info.status == DISCONNECTED
  }

  lemma SilentStep(t: Table, e: Event, policy: Policy, p: Peer)
    requires p in t && (e.Handled? ==> e.peer != p)
    ensures p in Step(t, e, policy)
    ensures Step(t, e, policy)[p] == if e.Scanned? then ScanClient(t[p], e.at, policy.timeout) else t[p]
  {
    hide Negotiate, ServerCapabilities;
  }

  lemma ScanFades(info: ClientInfo, r: real, scan: real, now: real, timeout: real, gap: real)
    requires Fading(info, r, scan, timeout, gap) && r <= scan <= now <= scan + gap
    ensures Fading(ScanClient(info, now, timeout), r, now, timeout, gap)
    ensures Judge(info, now, timeout).MarkDisconnected? ==>
              r + Max(0.0, timeout) <= now <= r + 1.5 * Max(0.0, timeout) + 2.0 * gap
  {
  }

  lemma {:induction false} FadesAfterSilence(t: Table, events: seq<Event>, policy: Policy, p: Peer, gap: real)
    requires gap >= 0.0
    requires p in t && Active(t[p].status)
    requires Silent(events, p) && Paced(events, t[p].lastSeen, gap)
    ensures p in After(t, events, policy)
    ensures var r := t[p].lastSeen;
      && r <= LastScan(events, r)
      && Fading(After(t, events, policy)[p], r, LastScan(events, r), policy.timeout, gap)
  {
    var r := t[p].lastSeen;
    if events != [] {
      var n := |events| - 1;
      var init, e := events[..n], events[n];
      Shorter(events, r, gap, p);
      FadesAfterSilence(t, init, policy, p, gap);
      SilentStep(After(t, init, policy), e, policy, p);
      if e.Scanned? {
        assert Paced(events, r, gap) && events[n] == e;
        ScanFades(After(t, init, policy)[p], r, LastScan(init, r), e.at, policy.timeout, gap);
      }
    }
  }

  lemma PrefixIsPaced(events: seq<Event>, p: Peer, r: real, gap: real, k: nat)
    requires k <= |events| && Silent(events, p) && Paced(events, r, gap)
    ensures Silent(events[..k], p) && Paced(events[..k], r, gap)
  {
    assert forall i :: 0 <= i < k ==> events[..k][..i] == events[..i] && events[..k][i] == events[i];
  }

  lemma {:induction false} DisconnectedWasRecorded(t: Table, events: seq<Event>, policy: Policy, p: Peer)
    requires p in t && t[p].status != DISCONNECTED && Silent(events, p)
    requires p in After(t, events, policy) && After(t, events, policy)[p].status == DISCONNECTED
    ensures exists k :: 0 <= k < |events| && DisconnectRecorded(t, events, policy, p, k)
  {
    var n := |events| - 1;
    var init := events[..n];
    assert Silent(init, p);
    RoleNeedsDisconnect(t, init, policy, p);
    SilentStep(After(t, init, policy), events[n], policy, p);
    if After(t, init, policy)[p].status == DISCONNECTED {
      DisconnectedWasRecorded(t, init, policy, p);
      var k :| 0 <= k < |init| && DisconnectRecorded(t, init, policy, p, k);
      assert init[..k] == events[..k] && init[k] == events[k];
      assert DisconnectRecorded(t, events, policy, p, k);
    } else {
      assert DisconnectRecorded(t, events, policy, p, n);
    }
  }

  /** A report at this time comes no earlier than r + T and no later than r + 1.5T + 2g. A timeout
      below 0 acts like 0. */
  predicate InBounds(at: real, r: real, timeout: real, gap: real) {
    r + Max(0.0, timeout) <= at <= r + 1.5 * Max(0.0, timeout) + 2.0 * gap
  }

  /** A scan has come after r, at r + 1.5T + g or later. */
  predicate ScannedLate(last: real, r: real, timeout: real, gap: real) {
    last > r && last >= r + 1.5 * Max(0.0, timeout) + gap
  }

  /** The bounds, measured from the time in the entry. */
  lemma SilenceFromLastSeen(t: Table, events: seq<Event>, policy: Policy, p: Peer, gap: real)
    requires gap >= 0.0
    requires p in t && Active(t[p].status)
    requires Silent(events, p) && Paced(events, t[p].lastSeen, gap)
    ensures var r := t[p].lastSeen;
      && (forall k :: 0 <= k < |events| && DisconnectRecorded(t, events, policy, p, k) ==>
            InBounds(events[k].at, r, policy.timeout, gap))
      && (ScannedLate(LastScan(events, r), r, policy.timeout, gap) ==>
            exists k :: 0 <= k < |events| && DisconnectRecorded(t, events, policy, p, k))
  {
    var r := t[p].lastSeen;
    forall k | 0 <= k < |events| && DisconnectRecorded(t, events, policy, p, k)
      ensures InBounds(events[k].at, r, policy.timeout, gap)
    {
      PrefixIsPaced(events, p, r, gap, k);
      FadesAfterSilence(t, events[..k], policy, p, gap);
      ScanFades(After(t, events[..k], policy)[p], r, LastScan(events[..k], r), events[k].at, policy.timeout, gap);
    }
    FadesAfterSilence(t, events, policy, p, gap);
    if ScannedLate(LastScan(events, r), r, policy.timeout, gap) {
      DisconnectedWasRecorded(t, events, policy, p);
    }
  }

  /** Whatever message of a known client is handled, its entry then says it was last seen at the
      moment of handling. */
  lemma HandledRefreshes(t: Table, p: Peer, body: Body, at: real, policy: Policy)
    requires p in Handle(t, p, body, at, policy)
    ensures Handle(t, p, body, at, policy)[p].lastSeen == at
  {
    hide Negotiate, ServerCapabilities;
  }

  /** Let the last message handled from p, of whatever kind, come at time r and leave p in an
      active status. When scans are at most g apart p is reported disconnected no earlier than
      r + T and no later than r + 1.5T + 2g, and once a scan has come at r + 1.5T + g or later it
      has been. */
  lemma FailureDetector(t0: Table, p: Peer, body: Body, r: real, events: seq<Event>, policy: Policy, gap: real)
    requires gap >= 0.0
    requires p in Step(t0, Handled(p, body, r), policy) && Active(Step(t0, Handled(p, body, r), policy)[p].status)
    requires Silent(events, p) && Paced(events, r, gap)
    ensures var t := Step(t0, Handled(p, body, r), policy);
      && (forall k :: 0 <= k < |events| && DisconnectRecorded(t, events, policy, p, k) ==>
            InBounds(events[k].at, r, policy.timeout, gap))
      && (ScannedLate(LastScan(events, r), r, policy.timeout, gap) ==>
            exists k :: 0 <= k < |events| && DisconnectRecorded(t, events, policy, p, k))
  {
    hide Handle, Paced, LastScan, DisconnectRecorded, Silent, InBounds, ScannedLate;
    HandledRefreshes(t0, p, body, r, policy);
    SilenceFromLastSeen(Step(t0, Handled(p, body, r), policy), events, policy, p, gap);
  }

  lemma Shorter(events: seq<Event>, r: real, gap: real, p: Peer)
    requires events != [] && Silent(events, p) && Paced(events, r, gap)
    ensures Silent(events[..|events| - 1], p) && Paced(events[..|events| - 1], r, gap)
  {
    var init := events[..|events| - 1];
    assert forall k :: 0 <= k < |init| ==> init[..k] == events[..k] && init[k] == events[k];
  }

  /** DEGRADED and DISCONNECTED are lifted only by a registration or a status report: heartbeats
      and every other message leave a DEGRADED client degraded or worse, and a DISCONNECTED one
      as it is. */
  lemma {:induction false} OnlyReportsLift(t: Table, events: seq<Event>, policy: Policy, p: Peer)
    requires p in t && t[p].status in {DEGRADED, DISCONNECTED}
    requires forall k :: 0 <= k < |events| && events[k].Handled? && events[k].peer == p ==>
               !events[k].body.Register? && !events[k].body.ClientStatus?
    ensures p in After(t, events, policy) && After(t, events, policy)[p].status in {DEGRADED, DISCONNECTED}
    ensures t[p].status == DISCONNECTED ==> After(t, events, policy)[p].status == DISCONNECTED
  {
    if events != [] {
      var init, e := events[..|events| - 1], events[|events| - 1];
      OnlyReportsLift(t, init, policy, p);
      var s := After(t, init, policy);
      if e.Handled? && e.peer == p {
        hide Enroll;
      } else {
        SilentStep(s, e, policy, p);
      }
    }
  }

  lemma {:induction false} AfterAppend(t: Table, a: seq<Event>, b: seq<Event>, policy: Policy)
    ensures After(t, a + b, policy) == After(After(t, a, policy), b, policy)
  {
    if b == [] {
      assert a + b == a;
    } else {
      var n := |b| - 1;
      assert (a + b)[..|a + b| - 1] == a + b[..n];
      AfterAppend(t, a, b[..n], policy);
    }
  }

  /** Between two `disconnect` records for one client, that client registered or reported a
      status. */
  lemma BetweenDisconnects(t: Table, events: seq<Event>, policy: Policy, p: Peer, i: nat, j: nat)
    requires i < j < |events|
    requires DisconnectRecorded(t, events, policy, p, i) && DisconnectRecorded(t, events, policy, p, j)
    ensures exists k :: i < k < j && events[k].Handled? && events[k].peer == p &&
              (events[k].body.Register? || events[k].body.ClientStatus?)
  {
    var s := After(t, events[..i + 1], policy);
    assert events[..i + 1][..i] == events[..i];
    assert s[p].status == DISCONNECTED;
    if forall k :: i < k < j && events[k].Handled? && events[k].peer == p ==>
         !events[k].body.Register? && !events[k].body.ClientStatus?
    {
      var mid := events[i + 1..j];
      forall k | 0 <= k < |mid| && mid[k].Handled? && mid[k].peer == p
        ensures !mid[k].body.Register? && !mid[k].body.ClientStatus?
      {
        assert mid[k] == events[i + 1 + k];
      }
      OnlyReportsLift(s, mid, policy, p);
      assert events[..i + 1] + mid == events[..j];
      AfterAppend(t, events[..i + 1], mid, policy);
      assert false;
    }
  }

  // ---------- clock pairs ----------

  /** The event enters p afresh, with the pair (0, 0). */
  predicate EntersAfresh(t: Table, e: Event, policy: Policy, p: Peer) {
    && e.Handled? && e.peer == p && e.body.Register?
    && Enroll(Touch(t, p, e.at), p, e.body.role, e.body.version, e.body.capabilities, e.body.secret, e.at, policy).1
         == Registered(false)
  }

  predicate ReportsPair(e: Event, p: Peer) {
    e.Handled? && e.peer == p && e.body.ClientStatus?
  }

  /** The last event that gave p's entry a clock pair. */
  function LastPairEvent(t: Table, events: seq<Event>, policy: Policy, p: Peer): Option<Event> {
    if events == [] then None
    else
      var init, last := events[..|events| - 1], events[|events| - 1];
      if ReportsPair(last, p) || EntersAfresh(After(t, init, policy), last, policy, p) then Some(last)
      else LastPairEvent(t, init, policy, p)
  }

  lemma StepPair(t: Table, e: Event, policy: Policy, p: Peer)
    requires p in Step(t, e, policy)
    ensures var info := Step(t, e, policy)[p];
      if EntersAfresh(t, e, policy, p) then info.offsetMs == 0.0 && info.rttMs == 0.0
      else p in t && if ReportsPair(e, p) then info.offsetMs == e.body.offsetMs && info.rttMs == e.body.rttMs
                     else info.offsetMs == t[p].offsetMs && info.rttMs == t[p].rttMs
  {
    hide Negotiate, ServerCapabilities;
  }

  /** An entry's pair is that of the last status report handled from its client since it was
      entered, or (0, 0) if there was none. */
  lemma {:induction false} PairIsLastReport(t: Table, events: seq<Event>, policy: Policy, p: Peer)
    requires p in After(t, events, policy)
    ensures var info := After(t, events, policy)[p];
      match LastPairEvent(t, events, policy, p)
      case Some(e) =>
        if e.Handled? && e.body.ClientStatus? then info.offsetMs == e.body.offsetMs && info.rttMs == e.body.rttMs
        else info.offsetMs == 0.0 && info.rttMs == 0.0
      case None => p in t && info.offsetMs == t[p].offsetMs && info.rttMs == t[p].rttMs
  {
    if events != [] {
      var init, last := events[..|events| - 1], events[|events| - 1];
      StepPair(After(t, init, policy), last, policy, p);
      hide Step;
      if !ReportsPair(last, p) && !EntersAfresh(After(t, init, policy), last, policy, p) {
        PairIsLastReport(t, init, policy, p);
      }
    }
  }
}

/** What one event does to one entry of the client table, and where a silent client ends up. */
module EntryLaws {
  import opened Types
  import opened Messages
  import Versioning
  import opened Registry
  import opened RegistryLaws

  // ---------- one event ----------

  /** The event is a registration of p that meets all conditions. */
  predicate Admits(t: Table, e: Event, policy: Policy, p: Peer) {
    && e.Handled? && e.peer == p && e.body.Register?
    && Compatible(policy.version, e.body.version) && Authentic(p, e.body.secret, policy) && MayHold(t, p, e.body.role)
  }

  /** And p had no entry, or had given it up. */
  predicate AdmitsAfresh(t: Table, e: Event, policy: Policy, p: Peer) {
    Admits(t, e, policy, p) && (p !in t || t[p].status == DISCONNECTED)
  }

  /** The event is a status report of a known client. */
  predicate Reports(t: Table, e: Event, p: Peer) {
    e.Handled? && e.peer == p && e.body.ClientStatus? && p in t
  }

  /** The status the event gives p: REGISTERED by an admitted registration, the reported one by a
      report, and by a scan DISCONNECTED after the timeout without a sign of life, or DEGRADED
      after half of it if p was active. */
  function StatusSet(t: Table, e: Event, policy: Policy, p: Peer): Option<Status> {
    if Admits(t, e, policy, p) then Some(REGISTERED)
    else if Reports(t, e, p) then Some(e.body.status)
    else if e.Scanned? && p in t && t[p].status != DISCONNECTED && t[p].lastSeen + policy.timeout <= e.at then Some(DISCONNECTED)
    else if e.Scanned? && p in t && Active(t[p].status) && t[p].lastSeen + policy.timeout / 2.0 <= e.at then Some(DEGRADED)
    else None
  }

  /** The clock pair the event gives p. */
  function PairSet(t: Table, e: Event, policy: Policy, p: Peer): Option<(real, real)> {
    if AdmitsAfresh(t, e, policy, p) then Some((0.0, 0.0))
    else if Reports(t, e, p) then Some((e.body.offsetMs, e.body.rttMs))
    else None
  }

  /** The event counts as a sign of life of p, or is a scan that has just judged it. */
  predicate Marks(t: Table, e: Event, policy: Policy, p: Peer) {
    || (e.Handled? && e.peer == p && (p in t || Admits(t, e, policy, p)))
    || (e.Scanned? && StatusSet(t, e, policy, p).Some?)
  }

  function EntryOf(t: Table, p: Peer): Option<ClientInfo> {
    if p in t then Some(t[p]) else None
  }

  lemma RegisterEntry(t: Table, e: Event, policy: Policy, p: Peer)
    requires e.Handled? && e.body.Register? && e.peer == p
    ensures p in Step(t, e, policy) <==> p in t || Admits(t, e, policy, p)
    ensures p in Step(t, e, policy) ==> EntryAfter(EntryOf(t, p), t, e, policy, p, Step(t, e, policy)[p])
  {
    var b := e.body;
    RegisterIsSafe(Touch(t, p, e.at), p, b.role, b.version, b.capabilities, b.secret, e.at, policy);
    hide Enroll, Compatible, Authentic, HoldsAgreement, AllAgreeable, ServerCapabilities;
  }

  lemma OtherRegisters(t: Table, e: Event, policy: Policy, p: Peer)
    requires e.Handled? && e.body.Register? && e.peer != p
    ensures p in Step(t, e, policy) <==> p in t
    ensures p in t ==> Step(t, e, policy)[p] == t[p]
  {
    hide Versioning.Negotiate, ServerCapabilities;
  }

  lemma MessageEntry(t: Table, e: Event, policy: Policy, p: Peer)
    requires e.Handled? && !e.body.Register?
    ensures p in Step(t, e, policy) <==> p in t
    ensures p in Step(t, e, policy) ==> EntryAfter(EntryOf(t, p), t, e, policy, p, Step(t, e, policy)[p])
  {
    hide HoldsAgreement;
  }

  lemma HandledEntry(t: Table, e: Event, policy: Policy, p: Peer)
    requires e.Handled?
    ensures p in Step(t, e, policy) <==> p in t || Admits(t, e, policy, p)
    ensures p in Step(t, e, policy) ==> EntryAfter(EntryOf(t, p), t, e, policy, p, Step(t, e, policy)[p])
  {
    if !e.body.Register? {
      hide EntryAfter, Step;
      MessageEntry(t, e, policy, p);
    } else if e.peer == p {
      hide EntryAfter, Step, Admits;
      RegisterEntry(t, e, policy, p);
    } else {
      hide Step;
      OtherRegisters(t, e, policy, p);
    }
  }

  /** The entry after the event, from the one before. */
  ghost predicate EntryAfter(was: Option<ClientInfo>, t: Table, e: Event, policy: Policy, p: Peer, info: ClientInfo) {
    && (was.None? ==> Admits(t, e, policy, p))
    && info.status == (match StatusSet(t, e, policy, p) case Some(x) => x case None => if was.Some? then was.value.status else REGISTERED)
    && (info.offsetMs, info.rttMs) ==
         (match PairSet(t, e, policy, p)
          case Some(x) => x
          case None => if was.Some? then (was.value.offsetMs, was.value.rttMs) else (0.0, 0.0))
    && (Marks(t, e, policy, p) ==> info.lastSeen == e.at)
    && (!Marks(t, e, policy, p) ==> was.Some? && info.lastSeen == was.value.lastSeen)
    && (Admits(t, e, policy, p) ==>
          && info.role == e.body.role
          && HoldsAgreement(info, policy.version, e.body.version, ServerCapabilities(policy.requireSecret), e.body.capabilities))
    && (!Admits(t, e, policy, p) ==>
          && was.Some? && info.role == was.value.role
          && info.version == was.value.version && info.capabilities == was.value.capabilities)
  }

  /** What one event makes of an entry. */
  lemma EntryStep(t: Table, e: Event, policy: Policy, p: Peer)
    ensures p in Step(t, e, policy) <==> p in t || Admits(t, e, policy, p)
    ensures p in Step(t, e, policy) ==>
              EntryAfter(EntryOf(t, p), t, e, policy, p, Step(t, e, policy)[p])
  {
    if e.Handled? {
      hide Step, EntryAfter, Admits;
      HandledEntry(t, e, policy, p);
    }
  }

  // ---------- a silent client ----------

  /** The times of the scans, in order. */
  function Scans(events: seq<Event>): seq<real> {
    if events == [] then []
    else Scans(events[..|events| - 1]) + if events[|events| - 1].Scanned? then [events[|events| - 1].at] else []
  }

  /** The first of these times that is at least x. */
  function FirstFrom(times: seq<real>, x: real): Option<real> {
    if times == [] then None
    else match FirstFrom(times[..|times| - 1], x)
      case Some(y) => Some(y)
      case None => if x <= times[|times| - 1] then Some(times[|times| - 1]) else None
  }

  /** The times never go back, from r on. */
  ghost predicate Ordered(times: seq<real>, r: real) {
    && (forall i :: 0 <= i < |times| ==> r <= times[i])
    && (forall i, j :: 0 <= i < j < |times| ==> times[i] <= times[j])
  }

  /** The earliest time at which a scan changes the status of a client last heard at r. */
  function Bound(r: real, timeout: real): real {
    if timeout >= 0.0 then r + timeout / 2.0 else r + timeout
  }

  /** What scans make of a client in an active status whose last message was handled at r: nothing
      before half the timeout; then the first scan disconnects it if it comes a whole timeout
      after r, and otherwise degrades it, and a scan a whole timeout after that disconnects it. */
  function SilentStatus(status: Status, r: real, times: seq<real>, timeout: real): Status {
    match FirstFrom(times, Bound(r, timeout))
    case None => status
    case Some(x) =>
      if r + timeout <= x || FirstFrom(times, x + timeout).Some? then DISCONNECTED else DEGRADED
  }

  /** The same with the entry's time of its last mark. */
  ghost predicate Silenced(info: ClientInfo, status: Status, r: real, times: seq<real>, timeout: real) {
    && info.status == SilentStatus(status, r, times, timeout)
    && (info.status == status ==> info.lastSeen == r)
    && (info.status == DEGRADED ==>
          FirstFrom(times, Bound(r, timeout)) == Some(info.lastSeen))
  }

  lemma FirstSnoc(times: seq<real>, x: real, at: real)
    ensures FirstFrom(times + [at], x) ==
              match FirstFrom(times, x) case Some(y) => Some(y) case None => if x <= at then Some(at) else None
  {
    assert (times + [at])[..|times|] == times;
  }

  lemma {:induction false} FirstIsOne(times: seq<real>, x: real)
    ensures FirstFrom(times, x).Some? ==> FirstFrom(times, x).value in times && x <= FirstFrom(times, x).value
    ensures FirstFrom(times, x).None? ==> forall y :: y in times ==> y < x
  {
    if times != [] {
      FirstIsOne(times[..|times| - 1], x);
      assert forall y :: y in times <==> y in times[..|times| - 1] || y == times[|times| - 1];
    }
  }

  lemma OrderedSnoc(times: seq<real>, at: real, r: real)
    requires Ordered(times + [at], r)
    ensures Ordered(times, r) && r <= at && forall y :: y in times ==> y <= at
  {
    var all := times + [at];
    assert all[|times|] == at;
    assert forall i :: 0 <= i < |times| ==> all[i] == times[i];
  }

  /** A scan of a client that none has judged yet. */
  lemma FirstJudged(info: ClientInfo, r: real, at: real, timeout: real)
    requires Active(info.status) && info.lastSeen == r && r <= at
    ensures ScanClient(info, at, timeout) ==
              if at < Bound(r, timeout) then info
              else info.(status := if r + timeout <= at then DISCONNECTED else DEGRADED, lastSeen := at)
  {
  }

  /** A scan of a client that one has judged. */
  lemma JudgedAgain(info: ClientInfo, at: real, timeout: real)
    requires info.status in {DEGRADED, DISCONNECTED}
    ensures ScanClient(info, at, timeout) ==
              if info.status == DEGRADED && info.lastSeen + timeout <= at then info.(status := DISCONNECTED, lastSeen := at) else info
  {
  }

  lemma NotJudgedYet(info: ClientInfo, status: Status, r: real, times: seq<real>, at: real, timeout: real)
    requires Active(status) && Ordered(times + [at], r) && Silenced(info, status, r, times, timeout)
    requires FirstFrom(times, Bound(r, timeout)).None?
    ensures Silenced(ScanClient(info, at, timeout), status, r, times + [at], timeout)
  {
    hide ScanClient, FirstFrom, Bound, Active, Ordered;
    assert info.status == status && info.lastSeen == r;
    OrderedSnoc(times, at, r);
    FirstJudged(info, r, at, timeout);
    FirstSnoc(times, Bound(r, timeout), at);
    if Bound(r, timeout) <= at && at < r + timeout {
      NothingLater(times, at, r, timeout);
    }
    hide Silenced;
    NowJudged(info, status, r, times, at, timeout);
  }

  lemma NothingLater(times: seq<real>, at: real, r: real, timeout: real)
    requires Ordered(times + [at], r) && at < r + timeout
    ensures FirstFrom(times + [at], at + timeout).None?
  {
    OrderedSnoc(times, at, r);
    FirstSnoc(times, at + timeout, at);
    FirstIsOne(times, at + timeout);
  }

  lemma NowJudged(info: ClientInfo, status: Status, r: real, times: seq<real>, at: real, timeout: real)
    requires info.status == status && info.lastSeen == r && Active(status)
    requires FirstFrom(times + [at], Bound(r, timeout)) == if at < Bound(r, timeout) then None else Some(at)
    requires Bound(r, timeout) <= at && at < r + timeout ==> FirstFrom(times + [at], at + timeout).None?
    requires ScanClient(info, at, timeout) ==
               if at < Bound(r, timeout) then info
               else info.(status := if r + timeout <= at then DISCONNECTED else DEGRADED, lastSeen := at)
    ensures Silenced(ScanClient(info, at, timeout), status, r, times + [at], timeout)
  {
    hide ScanClient, FirstFrom, Bound;
  }

  lemma OneMoreScan(info: ClientInfo, status: Status, r: real, times: seq<real>, at: real, timeout: real)
    requires Active(status) && Ordered(times + [at], r) && Silenced(info, status, r, times, timeout)
    ensures Silenced(ScanClient(info, at, timeout), status, r, times + [at], timeout)
  {
    hide FirstFrom, Ordered, ScanClient;
    var first := FirstFrom(times, Bound(r, timeout));
    if first.None? {
      NotJudgedYet(info, status, r, times, at, timeout);
    } else {
      FirstSnoc(times, Bound(r, timeout), at);
      FirstSnoc(times, first.value + timeout, at);
      JudgedAgain(info, at, timeout);
    }
  }

  /** Exactly what becomes of a silent client: let the last message handled from p come at r and
      leave it in an active status. */
  lemma {:induction false} SilenceDecides(t: Table, p: Peer, r: real, events: seq<Event>, policy: Policy)
    requires p in t && Active(t[p].status) && t[p].lastSeen == r
    requires Silent(events, p) && Ordered(Scans(events), r)
    ensures p in After(t, events, policy)
    ensures Silenced(After(t, events, policy)[p], t[p].status, r, Scans(events), policy.timeout)
  {
    if events != [] {
      var init, last := events[..|events| - 1], events[|events| - 1];
      if last.Scanned? {
        OrderedSnoc(Scans(init), last.at, r);
      } else {
        assert Scans(events) == Scans(init);
      }
      assert Silent(init, p);
      SilenceDecides(t, p, r, init, policy);
      SilentStep(After(t, init, policy), last, policy, p);
      hide Step, ScanClient, Silenced, Ordered;
      if last.Scanned? {
        OneMoreScan(After(t, init, policy)[p], t[p].status, r, Scans(init), last.at, policy.timeout);
      }
    }
  }
}

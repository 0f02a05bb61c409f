/** The server's table of clients: registration, status and clock updates, and the health scan. */
module Registry {
  import opened Types
  import opened Messages
  import opened Versioning

  datatype ClientInfo = ClientInfo(role: string, version: string, capabilities: seq<string>,
                                   connectedSince: real, lastSeen: real, status: Status,
                                   offsetMs: real, rttMs: real)

  type Table = map<Peer, ClientInfo>

  /** What the server checks registrations against, and its heartbeat timeout (seconds). */
  datatype Policy = Policy(version: string, requireSecret: bool, secrets: map<Peer, string>, timeout: real)

  function ServerCapabilities(requireSecret: bool): seq<string> {
    (if requireSecret then ["auth.shared-secret"] else []) + ["snapshot.sync", "structured-logs", "timing.sync"]
  }

  // ---------- table operations ----------

  function Touch(t: Table, p: Peer, now: real): Table {
    if p in t then t[p := t[p].(lastSeen := now)] else t
  }

  function UpdateStatus(t: Table, p: Peer, status: Status, now: real): Table {
    if p in t then t[p := t[p].(status := status, lastSeen := now)] else t
  }

  function UpdateSync(t: Table, p: Peer, offsetMs: real, rttMs: real, now: real): Table {
    if p in t then t[p := t[p].(offsetMs := offsetMs, rttMs := rttMs, lastSeen := now)] else t
  }

  datatype Refusal = VERSION_MISMATCH | AUTH_FAILED | DUPLICATE_CLIENT_ID

  datatype Registration = Registered(refreshed: bool) | Refused(code: Refusal)

  /** A new or disconnected id is entered afresh; a live id keeps its role, or is refused. */
  function RegisterOrRefresh(t: Table, p: Peer, info: ClientInfo, now: real): (Table, Registration) {
    if p !in t || t[p].status == DISCONNECTED then (t[p := info], Registered(false))
    else if t[p].role != info.role then (t, Refused(DUPLICATE_CLIENT_ID))
    else (t[p := t[p].(version := info.version, capabilities := info.capabilities, status := REGISTERED, lastSeen := now)],
          Registered(true))
  }

  function Enroll(t: Table, p: Peer, role: string, version: string, capabilities: seq<string>,
                    secret: Option<string>, now: real, policy: Policy): (Table, Registration)
  {
    match Negotiate(policy.version, version, ServerCapabilities(policy.requireSecret), capabilities)
    case Err(_) => (t, Refused(VERSION_MISMATCH))
    case Ok(agreed) =>
      if policy.requireSecret && !(p in policy.secrets && Some(policy.secrets[p]) == secret) then (t, Refused(AUTH_FAILED))
      else RegisterOrRefresh(t, p, ClientInfo(role, agreed.version, agreed.capabilities, now, now, REGISTERED, 0.0, 0.0), now)
  }

  /** What handling one message does to the table. */
  function Handle(t: Table, p: Peer, body: Body, now: real, policy: Policy): Table {
    var t0 := Touch(t, p, now);
    match body
    case Register(role, version, capabilities, secret) =>
      Enroll(t0, p, role, version, capabilities, secret, now, policy).0
    case ClientStatus(status, offsetMs, rttMs) =>
      UpdateSync(UpdateStatus(t0, p, status, now), p, offsetMs, rttMs, now)
    case Heartbeat =>
      UpdateStatus(t0, p, if p in t0 then t0[p].status else CONNECTED, now)
    case _ => t0
  }

  predicate Active(status: Status) {
    status in {CONNECTED, REGISTERED, SYNCED, READY, RUNNING}
  }

  datatype Verdict = Keep | MarkDisconnected | MarkDegraded

  /** The health scan's decision about one client. */
  function Judge(info: ClientInfo, now: real, timeout: real): Verdict {
    var age := now - info.lastSeen;
    if age >= timeout && info.status != DISCONNECTED then MarkDisconnected
    else if age >= timeout / 2.0 && Active(info.status) then MarkDegraded
    else Keep
  }

  function ScanClient(info: ClientInfo, now: real, timeout: real): ClientInfo {
    match Judge(info, now, timeout)
    case MarkDisconnected => info.(status := DISCONNECTED, lastSeen := now)
    case MarkDegraded => info.(status := DEGRADED, lastSeen := now)
    case Keep => info
  }

  function Scan(t: Table, now: real, timeout: real): (r: Table)
    ensures r.Keys == t.Keys
  {
    map p | p in t :: ScanClient(t[p], now, timeout)
  }

  // ---------- barrier query ----------

  predicate RoleReady(t: Table, role: string) {
    exists p :: p in t && t[p].role == role && t[p].status in {READY, RUNNING}
  }

  function MissingRoles(t: Table, required: seq<string>): seq<string> {
    if required == [] then []
    else MissingRoles(t, required[..|required| - 1]) +
         if RoleReady(t, required[|required| - 1]) then [] else [required[|required| - 1]]
  }

  // ---------- runs ----------

  datatype Event = Handled(peer: Peer, body: Body, at: real) | Scanned(at: real)

  function Step(t: Table, e: Event, policy: Policy): Table {
    match e
    case Handled(p, body, at) => Handle(t, p, body, at, policy)
    case Scanned(at) => Scan(t, at, policy.timeout)
  }

  function After(t: Table, events: seq<Event>, policy: Policy): Table {
    if events == [] then t else Step(After(t, events[..|events| - 1], policy), events[|events| - 1], policy)
  }

  class ClientRegistry {
    var clients: Table

    constructor ()
      ensures clients == map[]
    {
      clients := map[];
    }

    method DoTouch(p: Peer, now: real)
      modifies this
      ensures clients == Touch(old(clients), p, now)
    {
      if p in clients {
        clients := clients[p := clients[p].(lastSeen := now)];
      }
    }

    method DoUpdateStatus(p: Peer, status: Status, now: real)
      modifies this
      ensures clients == UpdateStatus(old(clients), p, status, now)
    {
      if p !in clients {
        return;
      }
      clients := clients[p := clients[p].(status := status)];
      DoTouch(p, now);
    }

    method DoUpdateSync(p: Peer, offsetMs: real, rttMs: real, now: real)
      modifies this
      ensures clients == UpdateSync(old(clients), p, offsetMs, rttMs, now)
    {
      if p !in clients {
        return;
      }
      clients := clients[p := clients[p].(offsetMs := offsetMs, rttMs := rttMs)];
      DoTouch(p, now);
    }

    method DoRegisterOrRefresh(p: Peer, info: ClientInfo, now: real) returns (outcome: Registration)
      modifies this
      ensures (clients, outcome) == RegisterOrRefresh(old(clients), p, info, now)
    {
      if p !in clients || clients[p].status == DISCONNECTED {
        clients := clients[p := info];
        return Registered(false);
      }
      if clients[p].role != info.role {
        return Refused(DUPLICATE_CLIENT_ID);
      }
      var existing := clients[p];
      clients := clients[p := existing.(version := info.version, capabilities := info.capabilities, status := REGISTERED)];
      DoTouch(p, now);
      assert clients == old(clients)[p := clients[p]];
      outcome := Registered(true);
    }

    /** The roles that still lack a READY or RUNNING client, in the order asked for. */
    method FindMissingRoles(required: seq<string>) returns (missing: seq<string>)
      ensures missing == MissingRoles(clients, required)
    {
      missing := [];
      var i := 0;
      while i < |required|
        invariant 0 <= i <= |required|
        invariant missing == MissingRoles(clients, required[..i])
      {
        assert required[..i + 1][..i] == required[..i];
        var matching := set p | p in clients && clients[p].role == required[i] && clients[p].status in {READY, RUNNING};
        assert RoleReady(clients, required[i]) <==> matching != {} by {
          if matching != {} {
            var p :| p in matching;
            assert RoleReady(clients, required[i]);
          }
          if RoleReady(clients, required[i]) {
            var p :| p in clients && clients[p].role == required[i] && clients[p].status in {READY, RUNNING};
            assert p in matching;
          }
        }
        if matching == {} {
          missing := missing + [required[i]];
        }
        i := i + 1;
      }
      assert required[..i] == required;
    }
  }
}

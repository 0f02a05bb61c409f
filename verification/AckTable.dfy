/** The server's bookkeeping for acknowledged commands: the pending table, the tracking table,
    the per-command groups and the metrics fed by them. */
module AckTable {
  import opened Types

  datatype Key = Key(msgId: MsgId, peer: Peer)

  datatype Entry = Entry(createdAt: real, timeoutAt: real)

  datatype Tracking = Tracking(command: CommandId, serverTs: real, peer: Peer)

  /** One accepted apply time. at is on the server clock as estimated with the clock pair
      (offsetMs, rttMs) the registry held then; applyTs is the client's own clock. */
  datatype ApplyTime = ApplyTime(peer: Peer, at: real, applyTs: real, offsetMs: real, rttMs: real)

  datatype Group = Group(expected: set<Peer>, applyTimes: seq<ApplyTime>)

  datatype Future = Waiting | HasValue | Cancelled

  /** One `apply_skew_ms` observation, with the command and the apply times it was made from. */
  datatype Skew = Skew(command: CommandId, ms: real, times: seq<ApplyTime>)

  datatype Send = Send(peer: Peer, command: CommandId)

  /** The payload of an acknowledgement. */
  datatype Reply = Reply(receiveTs: real, applyTs: Option<real>)

  /** What the registry knows about the acknowledging client's clock: (0, 0) if it is absent. */
  datatype ClockPair = ClockPair(offsetMs: real, rttMs: real)

  datatype Table = Table(
    pending: map<Key, Entry>,
    tracking: map<MsgId, Tracking>,
    groups: map<CommandId, Group>,
    futures: map<MsgId, Future>,
    latencies: seq<real>,
    timeouts: nat,
    receiveDelays: seq<real>,
    applyDelays: seq<real>,
    skews: seq<Skew>,
    // what has happened so far
    commands: map<CommandId, set<Peer>>,  // peers registered when the command was sent
    sends: map<MsgId, Send>,
    accepted: map<MsgId, Option<real>>,   // apply_ts of the acknowledgement that closed the entry
    expired: set<MsgId>)

  const EMPTY := Table(map[], map[], map[], map[], [], 0, [], [], [], map[], map[], map[], {})

  // ---------- the operations ----------

  /** `_send_to_all` opens a group for a fresh command. */
  function Open(t: Table, command: CommandId, peers: set<Peer>): Table {
    t.(groups := t.groups[command := Group(peers, [])], commands := t.commands[command := peers])
  }

  /** `_send_control` enters a fresh message in both tables and creates its future. */
  function Add(t: Table, m: MsgId, peer: Peer, command: CommandId, now: real, timeoutMs: real): Table {
    t.(pending := t.pending[Key(m, peer) := Entry(now, now + timeoutMs / 1000.0)],
       tracking := t.tracking[m := Tracking(command, now, peer)],
       futures := t.futures[m := Waiting],
       sends := t.sends[m := Send(peer, command)])
  }

  /** `wait_for` gives up on a future that has no value. */
  function GiveUp(t: Table, m: MsgId): Table {
    if m in t.futures && t.futures[m].Waiting? then t.(futures := t.futures[m := Cancelled]) else t
  }

  /** An acknowledgement arrives. */
  function Accept(t: Table, replyTo: MsgId, receiver: Peer, reply: Reply, clock: ClockPair, now: real): Table {
    var key := Key(replyTo, receiver);
    if key !in t.pending then t
    else Observe(Resolve(t, key, reply, now), replyTo, receiver, reply, clock)
  }

  function Resolve(t: Table, key: Key, reply: Reply, now: real): Table
    requires key in t.pending
  {
    t.(pending := t.pending - {key},
       futures := if key.msgId in t.futures && t.futures[key.msgId].Waiting? then t.futures[key.msgId := HasValue]
                  else t.futures,
       latencies := t.latencies + [(now - t.pending[key].createdAt) * 1000.0],
       accepted := t.accepted[key.msgId := reply.applyTs])
  }

  function DelayMs(at: real, serverTs: real): real {
    Max(0.0, (at - serverTs) * 1000.0)
  }

  /** `_observe_ack_timing`. */
  function Observe(t: Table, m: MsgId, receiver: Peer, reply: Reply, clock: ClockPair): Table {
    if m !in t.tracking then t
    else
      var tr := t.tracking[m];
      var offsetS := clock.offsetMs / 1000.0;
      var t1 := t.(tracking := t.tracking - {m},
                   receiveDelays := t.receiveDelays + [DelayMs(reply.receiveTs + offsetS, tr.serverTs)]);
      if reply.applyTs.None? then t1
      else
        var entry := EntryFor(receiver, reply.applyTs.value, clock);
        t1.(applyDelays := t.applyDelays + [DelayMs(entry.at, tr.serverTs)],
            groups := FeedGroup(t.groups, tr.command, entry),
            skews := FeedSkews(t.skews, t.groups, tr.command, entry))
  }

  function EntryFor(p: Peer, applyTs: real, clock: ClockPair): ApplyTime {
    ApplyTime(p, applyTs + clock.offsetMs / 1000.0, applyTs, clock.offsetMs, clock.rttMs)
  }

  /** The group takes the apply time and disappears once it has as many as it expects. */
  function FeedGroup(groups: map<CommandId, Group>, command: CommandId, entry: ApplyTime): map<CommandId, Group> {
    if command !in groups then groups
    else
      var g := groups[command];
      var times := Put(g.applyTimes, entry);
      if |times| >= |g.expected| then groups - {command} else groups[command := g.(applyTimes := times)]
  }

  /** A skew is observed as soon as the group has two apply times. */
  function FeedSkews(skews: seq<Skew>, groups: map<CommandId, Group>, command: CommandId, entry: ApplyTime): seq<Skew> {
    if command !in groups then skews
    else
      var times := Put(groups[command].applyTimes, entry);
      if |times| >= 2 then skews + [Skew(command, Spread(times) * 1000.0, times)] else skews
  }

  /** Dictionary assignment on an insertion-ordered table of apply times. */
  function Put(times: seq<ApplyTime>, entry: ApplyTime): seq<ApplyTime> {
    if times == [] then [entry]
    else if times[0].peer == entry.peer then [entry] + times[1..]
    else [times[0]] + Put(times[1..], entry)
  }

  /** The pending entries whose deadline has passed. */
  function Overdue(pending: map<Key, Entry>, now: real): set<Key> {
    set k | k in pending && pending[k].timeoutAt <= now
  }

  function IdsOf(keys: set<Key>): set<MsgId> {
    set k | k in keys :: k.msgId
  }

  /** The expiry scan: overdue entries leave the pending table, and only that table. */
  function Expire(t: Table, now: real): Table {
    var gone := Overdue(t.pending, now);
    t.(pending := t.pending - gone,
       timeouts := t.timeouts + |gone|,
       expired := t.expired + IdsOf(gone))
  }

  // ---------- max, min and spread ----------

  function MaxAt(times: seq<ApplyTime>): real
    requires times != []
  {
    if |times| == 1 then times[0].at
    else if times[|times| - 1].at >= MaxAt(times[..|times| - 1]) then times[|times| - 1].at
    else MaxAt(times[..|times| - 1])
  }

  function MinAt(times: seq<ApplyTime>): real
    requires times != []
  {
    if |times| == 1 then times[0].at
    else if times[|times| - 1].at <= MinAt(times[..|times| - 1]) then times[|times| - 1].at
    else MinAt(times[..|times| - 1])
  }

  function Spread(times: seq<ApplyTime>): real
    requires times != []
  {
    MaxAt(times) - MinAt(times)
  }

  function PeersOf(times: seq<ApplyTime>): set<Peer> {
    set x | x in times :: x.peer
  }

  // ---------- the invariant ----------

  /** Every tracked send has exactly one fate: pending, accepted or expired. */
  ghost predicate Fates(pending: map<Key, Entry>, sends: map<MsgId, Send>,
                        accepted: map<MsgId, Option<real>>, expired: set<MsgId>) {
    && (forall k :: k in pending ==> k.msgId in sends && sends[k.msgId].peer == k.peer)
    && (forall m :: m in accepted ==> m in sends)
    && (forall m :: m in expired ==> m in sends)
    && (forall m :: m in sends ==> OneFate(Key(m, sends[m].peer) in pending, m in accepted, m in expired))
  }

  predicate OneFate(pending: bool, accepted: bool, expired: bool) {
    && (pending || accepted || expired)
    && !(pending && accepted) && !(pending && expired) && !(accepted && expired)
  }

  /** The tracking table holds exactly the sends that are pending or expired. */
  ghost predicate Tracked(tracking: map<MsgId, Tracking>, sends: map<MsgId, Send>,
                          accepted: map<MsgId, Option<real>>) {
    && (forall m :: m in tracking <==> m in sends && m !in accepted)
    && (forall m :: m in tracking ==> Send(tracking[m].peer, tracking[m].command) == sends[m])
  }

  /** Entries added = latency samples + counted timeouts + entries still pending. */
  ghost predicate Conserved(t: Table) {
    && |t.sends| == |t.latencies| + t.timeouts + |t.pending|
    && |t.accepted| == |t.latencies|
  }

  /** A future gets a value only from the acknowledgement that closes its entry. */
  ghost predicate FuturesFollow(futures: map<MsgId, Future>, sends: map<MsgId, Send>,
                                accepted: map<MsgId, Option<real>>) {
    && (forall m :: m in futures <==> m in sends)
    && (forall m :: m in futures ==>
          && (futures[m].HasValue? ==> m in accepted)
          && (m in accepted ==> !futures[m].Waiting?))
  }

  /** Each command is sent at most once to each of its peers, and to no one else. */
  ghost predicate OnePerPeer(sends: map<MsgId, Send>, commands: map<CommandId, set<Peer>>) {
    && (forall m :: m in sends ==> sends[m].command in commands && sends[m].peer in commands[sends[m].command])
    && (forall m, n :: m in sends && n in sends && sends[m] == sends[n] ==> m == n)
  }

  /** The peers whose accepted acknowledgement of the command carried an apply time. */
  ghost function Applied(sends: map<MsgId, Send>, accepted: map<MsgId, Option<real>>, command: CommandId): set<Peer> {
    set m | m in accepted && m in sends && accepted[m].Some? && sends[m].command == command :: sends[m].peer
  }

  ghost predicate DistinctPeers(times: seq<ApplyTime>) {
    forall i, j :: 0 <= i < j < |times| ==> times[i].peer != times[j].peer
  }

  /** applied(c) names the peers that have reported an apply time for c. A live group's apply
      times belong to exactly those peers, and a group with a nonempty peer set is gone
      precisely when they cover it. */
  ghost predicate GroupsExact(groups: map<CommandId, Group>, commands: map<CommandId, set<Peer>>,
                              applied: map<CommandId, set<Peer>>) {
    && applied.Keys == commands.Keys
    && (forall c :: c in groups ==> c in commands && GroupExact(groups[c], commands[c], applied[c]))
    && (forall c :: c in commands ==> (c !in groups <==> commands[c] != {} && applied[c] == commands[c]))
  }

  ghost predicate GroupExact(g: Group, targets: set<Peer>, applied: set<Peer>) {
    g.expected == targets && DistinctPeers(g.applyTimes) && PeersOf(g.applyTimes) == applied
  }

  ghost function AppliedMap(t: Table): (r: map<CommandId, set<Peer>>)
    ensures r.Keys == t.commands.Keys
  {
    map c | c in t.commands :: Applied(t.sends, t.accepted, c)
  }

  /** The skews observed for one command, in order. */
  function SkewsOf(skews: seq<Skew>, command: CommandId): seq<Skew> {
    if skews == [] then []
    else SkewsOf(skews[..|skews| - 1], command) +
         if skews[|skews| - 1].command == command then [skews[|skews| - 1]] else []
  }

  ghost predicate NeverDecreases(s: seq<Skew>) {
    forall i, j :: 0 <= i < j < |s| ==> s[i].ms <= s[j].ms
  }

  /** A command with k >= 1 reported apply times has produced k - 1 skews, never decreasing: the
      first from its first two apply times, each next one from one more, and the last from all. */
  ghost predicate SkewsCounted(skews: seq<Skew>, applied: map<CommandId, set<Peer>>) {
    && (forall c :: c in applied ==> SkewCount(SkewsOf(skews, c), |applied[c]|) && MadeOf(SkewsOf(skews, c), applied[c]))
    && (forall c :: c !in applied ==> SkewsOf(skews, c) == [])
  }

  ghost predicate SkewCount(s: seq<Skew>, applied: nat) {
    |s| == (if applied == 0 then 0 else applied - 1) && NeverDecreases(s)
  }

  /** The i-th skew is made of i + 2 apply times of different peers, of which the skew before it
      had all but the last; the last skew is made of those of all the peers. */
  ghost predicate MadeOf(s: seq<Skew>, peers: set<Peer>) {
    && (forall i :: 0 <= i < |s| ==> |s[i].times| == i + 2 && DistinctPeers(s[i].times))
    && (forall i :: 0 < i < |s| ==> s[i].times[..i + 1] == s[i - 1].times)
    && (s != [] ==> PeersOf(s[|s| - 1].times) == peers)
  }

  /** The last skew of a live group is made of its apply times. */
  ghost predicate LastSkews(skews: seq<Skew>, groups: map<CommandId, Group>) {
    forall c :: c in groups ==> EndsWith(SkewsOf(skews, c), groups[c].applyTimes)
  }

  ghost predicate EndsWith(s: seq<Skew>, times: seq<ApplyTime>) {
    |times| >= 2 ==> s != [] && s[|s| - 1].times == times && s[|s| - 1].ms == Spread(times) * 1000.0
  }

  ghost predicate SkewsAreSpreads(skews: seq<Skew>) {
    forall i :: 0 <= i < |skews| ==> skews[i].times != [] && skews[i].ms == Spread(skews[i].times) * 1000.0
  }

  ghost predicate TableInv(t: Table) {
    && Fates(t.pending, t.sends, t.accepted, t.expired)
    && Tracked(t.tracking, t.sends, t.accepted)
    && Conserved(t)
    && FuturesFollow(t.futures, t.sends, t.accepted)
    && OnePerPeer(t.sends, t.commands)
    && GroupsExact(t.groups, t.commands, AppliedMap(t))
    && SkewsCounted(t.skews, AppliedMap(t))
    && LastSkews(t.skews, t.groups)
    && SkewsAreSpreads(t.skews)
  }
}

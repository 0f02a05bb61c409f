/** Every operation on the acknowledgement table keeps its invariant, whatever arrives. */
module AckLaws {
  import opened Types
  import opened AckTable

  // ---------- apply times and skews ----------

  lemma {:induction false} PutNew(times: seq<ApplyTime>, e: ApplyTime)
    requires e.peer !in PeersOf(times)
    ensures Put(times, e) == times + [e]
  {
    if times != [] {
      assert times[0] in times;
      assert PeersOf(times[1..]) <= PeersOf(times) by {
        forall x | x in times[1..] ensures x in times {}
      }
      PutNew(times[1..], e);
    }
  }

  lemma PeersOfSnoc(times: seq<ApplyTime>, e: ApplyTime)
    ensures PeersOf(times + [e]) == PeersOf(times) + {e.peer}
  {
    forall x | x in times ensures x in times + [e] {}
    assert e in times + [e];
  }

  lemma {:induction false} DistinctCount(times: seq<ApplyTime>)
    requires DistinctPeers(times)
    ensures |PeersOf(times)| == |times|
  {
    if times != [] {
      var init, last := times[..|times| - 1], times[|times| - 1];
      assert times == init + [last];
      DistinctCount(init);
      PeersOfSnoc(init, last);
    }
  }

  /** The spread is the widest distance between two of the times, and reached. */
  lemma SpreadIsWidest(times: seq<ApplyTime>)
    requires times != []
    ensures forall x, y :: x in times && y in times ==> x.at - y.at <= Spread(times)
    ensures exists x, y :: x in times && y in times && x.at - y.at == Spread(times)
  {
    ExtremesAreReached(times);
    var x :| x in times && x.at == MaxAt(times);
    var y :| y in times && y.at == MinAt(times);
    assert x.at - y.at == Spread(times);
  }

  lemma {:induction false} ExtremesAreReached(times: seq<ApplyTime>)
    requires times != []
    ensures exists x :: x in times && x.at == MaxAt(times)
    ensures exists y :: y in times && y.at == MinAt(times)
    ensures forall x :: x in times ==> MinAt(times) <= x.at <= MaxAt(times)
  {
    var init, last := times[..|times| - 1], times[|times| - 1];
    assert forall x :: x in times <==> x in init || x == last;
    if init != [] {
      ExtremesAreReached(init);
    }
  }

  lemma SpreadGrows(times: seq<ApplyTime>, e: ApplyTime)
    requires times != []
    ensures Spread(times + [e]) >= Spread(times)
    ensures Spread([e]) == 0.0
  {
    assert (times + [e])[..|times|] == times;
  }

  lemma SkewsOfSnoc(skews: seq<Skew>, x: Skew, c: CommandId)
    ensures SkewsOf(skews + [x], c) == if x.command == c then SkewsOf(skews, c) + [x] else SkewsOf(skews, c)
  {
    assert (skews + [x])[..|skews|] == skews;
    assert SkewsOf(skews, c) + [] == SkewsOf(skews, c);
  }

  lemma SubsetOfSize(a: set<Peer>, b: set<Peer>)
    requires a <= b
    ensures |a| <= |b|
    ensures |a| >= |b| ==> a == b
  {
    assert |b| == |a| + |b - a| by { assert b == a + (b - a); }
    if b - a == {} {
      assert a == b;
    }
  }

  // ---------- opening a command, sending, giving up, expiring ----------

  lemma OpenKeeps(t: Table, c: CommandId, peers: set<Peer>)
    requires TableInv(t) && c !in t.commands
    ensures TableInv(Open(t, c, peers))
  {
    hide Fates, Tracked, Conserved, FuturesFollow, OnePerPeer, GroupsExact, SkewsCounted, LastSkews, SkewsAreSpreads, AppliedMap;
    OpenKeepsApplied(t, c, peers);
    OpenKeepsOnePerPeer(t.sends, t.commands, c, peers);
    OpenKeepsGroups(t.groups, t.commands, AppliedMap(t), c, peers);
    OpenKeepsSkews(t.skews, t.groups, AppliedMap(t), c, peers);
    OpenKeepsConserved(t, c, peers);
  }

  lemma OpenKeepsConserved(t: Table, c: CommandId, peers: set<Peer>)
    requires Conserved(t)
    ensures Conserved(Open(t, c, peers))
  {
  }

  lemma OpenKeepsApplied(t: Table, c: CommandId, peers: set<Peer>)
    requires OnePerPeer(t.sends, t.commands) && c !in t.commands
    ensures AppliedMap(Open(t, c, peers)) == AppliedMap(t)[c := {}]
  {
    NothingApplied(t, c);
    hide Applied, OnePerPeer;
  }

  lemma OpenKeepsSkews(skews: seq<Skew>, groups: map<CommandId, Group>, applied: map<CommandId, set<Peer>>,
                       c: CommandId, peers: set<Peer>)
    requires SkewsCounted(skews, applied) && LastSkews(skews, groups) && c !in applied
    ensures SkewsCounted(skews, applied[c := {}]) && LastSkews(skews, groups[c := Group(peers, [])])
  {
    hide SkewsOf, Spread;
  }

  lemma NothingApplied(t: Table, c: CommandId)
    requires OnePerPeer(t.sends, t.commands) && c !in t.commands
    ensures Applied(t.sends, t.accepted, c) == {}
  {
  }

  lemma OpenKeepsOnePerPeer(sends: map<MsgId, Send>, commands: map<CommandId, set<Peer>>, c: CommandId, peers: set<Peer>)
    requires OnePerPeer(sends, commands) && c !in commands
    ensures OnePerPeer(sends, commands[c := peers])
  {
  }

  lemma OpenKeepsGroups(groups: map<CommandId, Group>, commands: map<CommandId, set<Peer>>,
                        applied: map<CommandId, set<Peer>>, c: CommandId, peers: set<Peer>)
    requires GroupsExact(groups, commands, applied) && c !in commands
    ensures GroupsExact(groups[c := Group(peers, [])], commands[c := peers], applied[c := {}])
  {
    assert PeersOf([]) == {};
  }

  lemma AddKeeps(t: Table, m: MsgId, peer: Peer, c: CommandId, now: real, timeoutMs: real)
    requires TableInv(t) && m !in t.sends
    requires c in t.commands && peer in t.commands[c]
    requires forall n :: n in t.sends ==> t.sends[n] != Send(peer, c)
    ensures TableInv(Add(t, m, peer, c, now, timeoutMs))
  {
    hide Fates, Tracked, Conserved, FuturesFollow, OnePerPeer, GroupsExact, SkewsCounted, LastSkews, SkewsAreSpreads, AppliedMap;
    AddKeepsFates(t.pending, t.sends, t.accepted, t.expired, m, Send(peer, c), Entry(now, now + timeoutMs / 1000.0));
    AddKeepsTracked(t.pending, t.tracking, t.sends, t.accepted, t.expired, m, Send(peer, c), now);
    AddKeepsFutures(t.pending, t.futures, t.sends, t.accepted, t.expired, m, Send(peer, c));
    AddKeepsOnePerPeer(t.sends, t.commands, m, peer, c);
    AddKeepsConserved(t, m, peer, c, now, timeoutMs);
    AddKeepsApplied(t, m, peer, c, now, timeoutMs);
  }

  lemma AddKeepsFates(pending: map<Key, Entry>, sends: map<MsgId, Send>, accepted: map<MsgId, Option<real>>,
                      expired: set<MsgId>, m: MsgId, s: Send, e: Entry)
    requires Fates(pending, sends, accepted, expired) && m !in sends
    ensures Fates(pending[Key(m, s.peer) := e], sends[m := s], accepted, expired)
  {
  }

  lemma AddKeepsTracked(pending: map<Key, Entry>, tracking: map<MsgId, Tracking>, sends: map<MsgId, Send>,
                        accepted: map<MsgId, Option<real>>, expired: set<MsgId>, m: MsgId, s: Send, now: real)
    requires Fates(pending, sends, accepted, expired) && Tracked(tracking, sends, accepted) && m !in sends
    ensures Tracked(tracking[m := Tracking(s.command, now, s.peer)], sends[m := s], accepted)
  {
  }

  lemma AddKeepsFutures(pending: map<Key, Entry>, futures: map<MsgId, Future>, sends: map<MsgId, Send>,
                        accepted: map<MsgId, Option<real>>, expired: set<MsgId>, m: MsgId, s: Send)
    requires Fates(pending, sends, accepted, expired) && FuturesFollow(futures, sends, accepted) && m !in sends
    ensures FuturesFollow(futures[m := Waiting], sends[m := s], accepted)
  {
  }

  lemma AddKeepsConserved(t: Table, m: MsgId, peer: Peer, c: CommandId, now: real, timeoutMs: real)
    requires Fates(t.pending, t.sends, t.accepted, t.expired) && Conserved(t) && m !in t.sends
    ensures Conserved(Add(t, m, peer, c, now, timeoutMs))
  {
    assert Key(m, peer) !in t.pending;
    hide Fates;
  }

  lemma AddKeepsApplied(t: Table, m: MsgId, peer: Peer, c: CommandId, now: real, timeoutMs: real)
    requires Fates(t.pending, t.sends, t.accepted, t.expired) && m !in t.sends
    ensures AppliedMap(Add(t, m, peer, c, now, timeoutMs)) == AppliedMap(t)
  {
    assert m !in t.accepted;
    hide Fates;
    forall d | d in t.commands
      ensures Applied(t.sends[m := Send(peer, c)], t.accepted, d) == Applied(t.sends, t.accepted, d)
    {
    }
  }

  lemma AddKeepsOnePerPeer(sends: map<MsgId, Send>, commands: map<CommandId, set<Peer>>, m: MsgId, peer: Peer, c: CommandId)
    requires OnePerPeer(sends, commands) && c in commands && peer in commands[c]
    requires forall n :: n in sends ==> sends[n] != Send(peer, c)
    ensures OnePerPeer(sends[m := Send(peer, c)], commands)
  {
  }

  lemma GiveUpKeeps(t: Table, m: MsgId)
    requires TableInv(t)
    ensures TableInv(GiveUp(t, m))
  {
    hide Fates, Tracked, OnePerPeer, GroupsExact, SkewsCounted, LastSkews, SkewsAreSpreads;
    assert AppliedMap(GiveUp(t, m)) == AppliedMap(t);
  }

  lemma ExpireKeeps(t: Table, now: real)
    requires TableInv(t)
    ensures TableInv(Expire(t, now))
  {
    hide Fates, Tracked, Conserved, FuturesFollow, OnePerPeer, GroupsExact, SkewsCounted, LastSkews, SkewsAreSpreads;
    ExpireFates(t.pending, t.sends, t.accepted, t.expired, Overdue(t.pending, now));
    ExpireKeepsConserved(t, now);
    assert AppliedMap(Expire(t, now)) == AppliedMap(t) by { hide Overdue, Applied; }
    hide Overdue;
  }

  lemma ExpireKeepsConserved(t: Table, now: real)
    requires Conserved(t)
    ensures Conserved(Expire(t, now))
  {
    var gone := Overdue(t.pending, now);
    assert gone <= t.pending.Keys;
    hide Overdue;
    assert t.pending.Keys == (t.pending - gone).Keys + gone;
  }

  lemma ExpireFates(pending: map<Key, Entry>, sends: map<MsgId, Send>,
                    accepted: map<MsgId, Option<real>>, expired: set<MsgId>, gone: set<Key>)
    requires Fates(pending, sends, accepted, expired) && gone <= pending.Keys
    ensures Fates(pending - gone, sends, accepted, expired + set k | k in gone :: k.msgId)
  {
    var expired' := expired + set k | k in gone :: k.msgId;
    forall m | m in sends
      ensures m in expired' <==> m in expired || Key(m, sends[m].peer) in gone
    {
      if k :| k in gone && k.msgId == m {
        assert k == Key(m, sends[m].peer);
      }
      if Key(m, sends[m].peer) in gone {
        assert Key(m, sends[m].peer).msgId == m;
      }
    }
  }

  // ---------- accepting an acknowledgement ----------

  /** The message a pending key names is tracked, and to the same peer and command. */
  lemma PendingIsTracked(t: Table, m: MsgId, p: Peer)
    requires Fates(t.pending, t.sends, t.accepted, t.expired) && Tracked(t.tracking, t.sends, t.accepted)
    requires Key(m, p) in t.pending
    ensures m in t.tracking && m in t.sends && m !in t.accepted && t.sends[m] == Send(p, t.tracking[m].command)
  {
    assert Key(m, p).msgId == m;
  }

  /** What an accepted acknowledgement does to the tables, when it closes an entry. */
  lemma AcceptShape(t: Table, m: MsgId, p: Peer, reply: Reply, clock: ClockPair, now: real)
    requires Key(m, p) in t.pending && m in t.tracking
    ensures var t' := Accept(t, m, p, reply, clock, now);
      && t'.pending == t.pending - {Key(m, p)}
      && t'.tracking == t.tracking - {m}
      && t'.sends == t.sends && t'.expired == t.expired && t'.commands == t.commands
      && t'.accepted == t.accepted[m := reply.applyTs]
      && |t'.latencies| == |t.latencies| + 1 && t'.timeouts == t.timeouts
      && t'.futures == (if m in t.futures && t.futures[m].Waiting? then t.futures[m := HasValue] else t.futures)
      && (reply.applyTs.None? ==> t'.groups == t.groups && t'.skews == t.skews)
      && (reply.applyTs.Some? ==>
            var c, e := t.tracking[m].command, EntryFor(p, reply.applyTs.value, clock);
            t'.groups == FeedGroup(t.groups, c, e) && t'.skews == FeedSkews(t.skews, t.groups, c, e))
  {
    hide FeedGroup, FeedSkews, EntryFor, Resolve, Observe;
    var key := Key(m, p);
    var r := Resolve(t, key, reply, now);
    ResolveShape(t, key, reply, now);
    ObserveShape(r, m, p, reply, clock);
  }

  lemma ResolveShape(t: Table, key: Key, reply: Reply, now: real)
    requires key in t.pending
    ensures var t' := Resolve(t, key, reply, now);
      && t'.pending == t.pending - {key} && t'.tracking == t.tracking
      && t'.sends == t.sends && t'.expired == t.expired && t'.commands == t.commands
      && t'.accepted == t.accepted[key.msgId := reply.applyTs]
      && |t'.latencies| == |t.latencies| + 1 && t'.timeouts == t.timeouts
      && t'.futures == (if key.msgId in t.futures && t.futures[key.msgId].Waiting? then t.futures[key.msgId := HasValue]
                        else t.futures)
      && t'.groups == t.groups && t'.skews == t.skews
  {
  }

  lemma ObserveShape(t: Table, m: MsgId, p: Peer, reply: Reply, clock: ClockPair)
    requires m in t.tracking
    ensures var t' := Observe(t, m, p, reply, clock);
      && t'.pending == t.pending && t'.tracking == t.tracking - {m}
      && t'.sends == t.sends && t'.expired == t.expired && t'.commands == t.commands
      && t'.accepted == t.accepted && t'.latencies == t.latencies && t'.timeouts == t.timeouts
      && t'.futures == t.futures
      && (reply.applyTs.None? ==> t'.groups == t.groups && t'.skews == t.skews)
      && (reply.applyTs.Some? ==>
            var c, e := t.tracking[m].command, EntryFor(p, reply.applyTs.value, clock);
            t'.groups == FeedGroup(t.groups, c, e) && t'.skews == FeedSkews(t.skews, t.groups, c, e))
  {
    hide DelayMs, FeedGroup, FeedSkews, EntryFor;
    if reply.applyTs.None? {
    } else {
    }
  }

  /** t' differs from t as it does when the acknowledgement of m by p closes an entry. */
  ghost predicate Closes(t: Table, t': Table, m: MsgId, p: Peer, reply: Reply, clock: ClockPair) {
    && m in t.tracking && m in t.sends && m !in t.accepted && t.sends[m] == Send(p, t.tracking[m].command)
    && t'.accepted == t.accepted[m := reply.applyTs]
    && (reply.applyTs.None? ==> t'.groups == t.groups && t'.skews == t.skews)
    && (reply.applyTs.Some? ==>
          var c, e := t.tracking[m].command, EntryFor(p, reply.applyTs.value, clock);
          t'.groups == FeedGroup(t.groups, c, e) && t'.skews == FeedSkews(t.skews, t.groups, c, e))
  }

  /** An acknowledgement, whether or not it closes an entry, changes no send or command and takes
      no value from a future; if it closes none it changes no acceptance, group or skew. */
  lemma AcceptFlow(t: Table, m: MsgId, p: Peer, reply: Reply, clock: ClockPair, now: real)
    requires Fates(t.pending, t.sends, t.accepted, t.expired) && Tracked(t.tracking, t.sends, t.accepted)
    ensures var t' := Accept(t, m, p, reply, clock, now);
      && t'.sends == t.sends && t'.commands == t.commands
      && ((t'.accepted == t.accepted && t'.groups == t.groups && t'.skews == t.skews) || Closes(t, t', m, p, reply, clock))
      && (forall n :: n in t.futures && t.futures[n].HasValue? ==> n in t'.futures && t'.futures[n].HasValue?)
  {
    hide Resolve, Observe, Fates, Tracked, FeedGroup, FeedSkews;
    if Key(m, p) in t.pending {
      hide Accept;
      PendingIsTracked(t, m, p);
      AcceptShape(t, m, p, reply, clock, now);
    }
  }

  lemma AcceptKeepsFates(t: Table, m: MsgId, p: Peer, reply: Reply, clock: ClockPair, now: real)
    requires Fates(t.pending, t.sends, t.accepted, t.expired) && Tracked(t.tracking, t.sends, t.accepted)
    requires FuturesFollow(t.futures, t.sends, t.accepted) && Key(m, p) in t.pending
    ensures var t' := Accept(t, m, p, reply, clock, now);
      && Fates(t'.pending, t'.sends, t'.accepted, t'.expired) && Tracked(t'.tracking, t'.sends, t'.accepted)
      && FuturesFollow(t'.futures, t'.sends, t'.accepted)
  {
    hide Accept, Fates, Tracked, FuturesFollow;
    PendingIsTracked(t, m, p);
    AcceptShape(t, m, p, reply, clock, now);
    PendingToAccepted(t.pending, t.sends, t.accepted, t.expired, Key(m, p), reply.applyTs);
    TrackedToAccepted(t.tracking, t.sends, t.accepted, m, reply.applyTs);
    FutureResolved(t.futures, t.sends, t.accepted, m, reply.applyTs);
  }

  lemma AcceptKeepsConserved(t: Table, m: MsgId, p: Peer, reply: Reply, clock: ClockPair, now: real)
    requires Fates(t.pending, t.sends, t.accepted, t.expired) && Tracked(t.tracking, t.sends, t.accepted)
    requires Conserved(t) && Key(m, p) in t.pending
    ensures Conserved(Accept(t, m, p, reply, clock, now))
  {
    hide Accept, Fates, Tracked;
    PendingIsTracked(t, m, p);
    AcceptShape(t, m, p, reply, clock, now);
    OneFewer(t.pending, Key(m, p));
  }

  lemma OneFewer(pending: map<Key, Entry>, k: Key)
    requires k in pending
    ensures |pending - {k}| + 1 == |pending|
  {
    assert pending.Keys == (pending - {k}).Keys + {k};
  }

  lemma PendingToAccepted(pending: map<Key, Entry>, sends: map<MsgId, Send>, accepted: map<MsgId, Option<real>>,
                          expired: set<MsgId>, k: Key, ts: Option<real>)
    requires Fates(pending, sends, accepted, expired) && k in pending
    ensures Fates(pending - {k}, sends, accepted[k.msgId := ts], expired)
  {
  }

  lemma TrackedToAccepted(tracking: map<MsgId, Tracking>, sends: map<MsgId, Send>,
                          accepted: map<MsgId, Option<real>>, m: MsgId, ts: Option<real>)
    requires Tracked(tracking, sends, accepted)
    ensures Tracked(tracking - {m}, sends, accepted[m := ts])
  {
  }

  lemma FutureResolved(futures: map<MsgId, Future>, sends: map<MsgId, Send>,
                       accepted: map<MsgId, Option<real>>, m: MsgId, ts: Option<real>)
    requires FuturesFollow(futures, sends, accepted)
    ensures FuturesFollow(if m in futures && futures[m].Waiting? then futures[m := HasValue] else futures,
                          sends, accepted[m := ts])
  {
  }

  /** The peer of a pending send has reported no apply time yet, so its group is live. */
  lemma PendingIsNew(t: Table, m: MsgId, c: CommandId, p: Peer)
    requires OnePerPeer(t.sends, t.commands) && GroupsExact(t.groups, t.commands, AppliedMap(t))
    requires m in t.sends && m !in t.accepted && t.sends[m] == Send(p, c)
    ensures c in t.commands && p in t.commands[c]
    ensures p !in AppliedMap(t)[c] && AppliedMap(t)[c] <= t.commands[c]
    ensures c in t.groups
  {
    hide GroupsExact;
    var applied := Applied(t.sends, t.accepted, c);
    assert AppliedMap(t)[c] == applied;
    assert p !in applied;
    assert applied <= t.commands[c];
    assert applied != t.commands[c];
    GroupIsLive(t.groups, t.commands, AppliedMap(t), c);
  }

  lemma GroupIsLive(groups: map<CommandId, Group>, commands: map<CommandId, set<Peer>>,
                    applied: map<CommandId, set<Peer>>, c: CommandId)
    requires GroupsExact(groups, commands, applied) && c in commands && applied[c] != commands[c]
    ensures c in groups
  {
  }

  lemma AppliedAfter(t: Table, t': Table, m: MsgId, ts: Option<real>)
    requires m in t.sends && m !in t.accepted && t.sends[m].command in t.commands
    requires t'.sends == t.sends && t'.accepted == t.accepted[m := ts] && t'.commands == t.commands
    ensures var c := t.sends[m].command;
      AppliedMap(t') == if ts.Some? then AppliedMap(t)[c := AppliedMap(t)[c] + {t.sends[m].peer}] else AppliedMap(t)
  {
    hide Applied;
    forall d | d in t.commands
      ensures AppliedMap(t')[d] ==
        AppliedMap(t)[d] + if ts.Some? && t.sends[m].command == d then {t.sends[m].peer} else {}
    {
      AppliedOf(t.sends, t.accepted, m, ts, d);
    }
    hide AppliedMap;
    assert forall s: set<Peer> :: s + {} == s;
    assert ts.None? ==> AppliedMap(t') == AppliedMap(t);
  }

  lemma AppliedOf(sends: map<MsgId, Send>, accepted: map<MsgId, Option<real>>, m: MsgId, ts: Option<real>, d: CommandId)
    requires m in sends && m !in accepted
    ensures Applied(sends, accepted[m := ts], d) ==
            Applied(sends, accepted, d) + if ts.Some? && sends[m].command == d then {sends[m].peer} else {}
  {
    var accepted' := accepted[m := ts];
    forall x | x in Applied(sends, accepted, d)
      ensures x in Applied(sends, accepted', d)
    {
      var n :| n in accepted && n in sends && accepted[n].Some? && sends[n].command == d && sends[n].peer == x;
      assert n != m && n in accepted';
    }
    if ts.Some? && sends[m].command == d {
      assert m in accepted' && accepted'[m].Some?;
    }
  }

  lemma OneMoreTime(times: seq<ApplyTime>, e: ApplyTime)
    requires DistinctPeers(times) && e.peer !in PeersOf(times)
    ensures Put(times, e) == times + [e]
    ensures DistinctPeers(times + [e]) && PeersOf(times + [e]) == PeersOf(times) + {e.peer}
    ensures |times| == |PeersOf(times)| && |times| + 1 == |PeersOf(times + [e])|
  {
    PutNew(times, e);
    PeersOfSnoc(times, e);
    assert DistinctPeers(times + [e]) by {
      assert forall x :: x in times ==> x.peer in PeersOf(times);
    }
    hide DistinctPeers, PeersOf, Put;
    DistinctCount(times);
    DistinctCount(times + [e]);
  }

  /** GroupsExact when one apply time is fed to the live group of c. */
  lemma FedGroupsExact(groups: map<CommandId, Group>, commands: map<CommandId, set<Peer>>,
                       applied: map<CommandId, set<Peer>>, c: CommandId, e: ApplyTime)
    requires GroupsExact(groups, commands, applied) && c in groups
    requires e.peer !in applied[c] && e.peer in commands[c] && applied[c] <= commands[c]
    ensures GroupsExact(FeedGroup(groups, c, e), commands, applied[c := applied[c] + {e.peer}])
  {
    var g := groups[c];
    var times := g.applyTimes + [e];
    OneMoreTime(g.applyTimes, e);
    SubsetOfSize(applied[c] + {e.peer}, commands[c]);
    assert GroupExact(g.(applyTimes := times), commands[c], applied[c] + {e.peer});
    assert |times| >= |commands[c]| <==> applied[c] + {e.peer} == commands[c];
    hide GroupExact, DistinctPeers, PeersOf, Put;
    OneGroupChanges(groups, FeedGroup(groups, c, e), commands, applied, applied[c] + {e.peer}, c);
  }

  lemma OneGroupChanges(groups: map<CommandId, Group>, groups': map<CommandId, Group>, commands: map<CommandId, set<Peer>>,
                        applied: map<CommandId, set<Peer>>, mine: set<Peer>, c: CommandId)
    requires GroupsExact(groups, commands, applied) && c in commands
    requires forall d :: d != c ==> (d in groups' <==> d in groups) && (d in groups ==> groups'[d] == groups[d])
    requires c in groups' ==> GroupExact(groups'[c], commands[c], mine)
    requires c !in groups' <==> commands[c] != {} && mine == commands[c]
    ensures GroupsExact(groups', commands, applied[c := mine])
  {
    hide GroupExact;
  }

  /** The skew counts when one apply time is fed to the live group of c. */
  lemma FedSkewsCounted(groups: map<CommandId, Group>, applied: map<CommandId, set<Peer>>, skews: seq<Skew>,
                        c: CommandId, e: ApplyTime)
    requires SkewsCounted(skews, applied) && LastSkews(skews, groups)
    requires c in groups && c in applied && e.peer !in applied[c]
    requires DistinctPeers(groups[c].applyTimes) && PeersOf(groups[c].applyTimes) == applied[c]
    ensures SkewsCounted(FeedSkews(skews, groups, c, e), applied[c := applied[c] + {e.peer}])
  {
    hide Spread, SkewsOf, FeedSkews, SkewCount, MadeOf, EndsWith, DistinctPeers, PeersOf, Put;
    DistinctCount(groups[c].applyTimes);
    FedOwnSkews(groups, skews, c, e);
    hide LastSkews, SkewsCounted;
    forall d {
      FedSkewsOf(skews, groups, c, e, d);
    }
    assert |applied[c] + {e.peer}| == |applied[c]| + 1;
    OneSkewLogChanges(skews, FeedSkews(skews, groups, c, e), applied, applied[c] + {e.peer}, c);
  }

  lemma FedLastSkews(groups: map<CommandId, Group>, applied: map<CommandId, set<Peer>>, skews: seq<Skew>,
                     c: CommandId, e: ApplyTime)
    requires SkewsCounted(skews, applied) && LastSkews(skews, groups)
    requires c in groups && c in applied && e.peer !in applied[c]
    requires DistinctPeers(groups[c].applyTimes) && PeersOf(groups[c].applyTimes) == applied[c]
    ensures LastSkews(FeedSkews(skews, groups, c, e), FeedGroup(groups, c, e))
  {
    hide Spread, SkewsOf, FeedSkews, SkewCount, MadeOf, EndsWith, DistinctPeers, PeersOf, Put;
    DistinctCount(groups[c].applyTimes);
    FedOwnSkews(groups, skews, c, e);
    hide LastSkews, SkewsCounted;
    forall d {
      FedSkewsOf(skews, groups, c, e, d);
    }
    OneLastSkewChanges(skews, FeedSkews(skews, groups, c, e), groups, FeedGroup(groups, c, e), c);
  }

  lemma FedOwnSkews(groups: map<CommandId, Group>, skews: seq<Skew>, c: CommandId, e: ApplyTime)
    requires c in groups && e.peer !in PeersOf(groups[c].applyTimes) && DistinctPeers(groups[c].applyTimes)
    requires SkewCount(SkewsOf(skews, c), |groups[c].applyTimes|)
    requires MadeOf(SkewsOf(skews, c), PeersOf(groups[c].applyTimes))
    requires EndsWith(SkewsOf(skews, c), groups[c].applyTimes)
    ensures var mine := SkewsOf(FeedSkews(skews, groups, c, e), c);
      && SkewCount(mine, |groups[c].applyTimes| + 1)
      && MadeOf(mine, PeersOf(groups[c].applyTimes) + {e.peer})
      && EndsWith(mine, Put(groups[c].applyTimes, e))
  {
    hide Spread, SkewsOf, SkewCount, MadeOf, EndsWith, FeedSkews, DistinctPeers, PeersOf, Put;
    OneMoreTime(groups[c].applyTimes, e);
    FedSkewsOf(skews, groups, c, e, c);
    NextSkew(SkewsOf(skews, c), groups[c].applyTimes, e, c);
    NextSkewIsWhole(SkewsOf(skews, c), groups[c].applyTimes, e, c);
  }

  lemma FedSkewsOf(skews: seq<Skew>, groups: map<CommandId, Group>, c: CommandId, e: ApplyTime, d: CommandId)
    requires c in groups
    ensures var times := Put(groups[c].applyTimes, e);
            SkewsOf(FeedSkews(skews, groups, c, e), d) ==
            if d == c && |times| >= 2 then SkewsOf(skews, d) + [Skew(c, Spread(times) * 1000.0, times)] else SkewsOf(skews, d)
  {
    hide Put, Spread, SkewsOf;
    var times := Put(groups[c].applyTimes, e);
    if |times| >= 2 {
      SkewsOfSnoc(skews, Skew(c, Spread(times) * 1000.0, times), d);
    }
  }

  lemma OneSkewLogChanges(skews: seq<Skew>, skews': seq<Skew>, applied: map<CommandId, set<Peer>>, mine: set<Peer>, c: CommandId)
    requires SkewsCounted(skews, applied) && c in applied
    requires forall d :: d != c ==> SkewsOf(skews', d) == SkewsOf(skews, d)
    requires SkewCount(SkewsOf(skews', c), |mine|) && MadeOf(SkewsOf(skews', c), mine)
    ensures SkewsCounted(skews', applied[c := mine])
  {
    hide SkewCount, MadeOf, SkewsOf;
    var applied' := applied[c := mine];
    assert applied'[c] == mine;
    forall d | d in applied' && d != c
      ensures SkewCount(SkewsOf(skews', d), |applied'[d]|) && MadeOf(SkewsOf(skews', d), applied'[d])
    {
      assert d in applied && applied'[d] == applied[d];
    }
  }

  lemma OneLastSkewChanges(skews: seq<Skew>, skews': seq<Skew>, groups: map<CommandId, Group>, groups': map<CommandId, Group>, c: CommandId)
    requires LastSkews(skews, groups)
    requires forall d :: d != c ==> SkewsOf(skews', d) == SkewsOf(skews, d)
    requires forall d :: d != c && d in groups' ==> d in groups && groups'[d] == groups[d]
    requires c in groups' ==> EndsWith(SkewsOf(skews', c), groups'[c].applyTimes)
    ensures LastSkews(skews', groups')
  {
    hide EndsWith, SkewsOf;
  }

  lemma NextSkew(mine: seq<Skew>, before: seq<ApplyTime>, e: ApplyTime, c: CommandId)
    requires SkewCount(mine, |before|) && EndsWith(mine, before)
    ensures var times := before + [e];
      var mine' := if |times| >= 2 then mine + [Skew(c, Spread(times) * 1000.0, times)] else mine;
      SkewCount(mine', |times|) && EndsWith(mine', times)
  {
    if before != [] {
      SpreadGrows(before, e);
      hide Spread;
      LaterSkewIsLarger(mine, Skew(c, Spread(before + [e]) * 1000.0, before + [e]));
    }
  }

  /** The next skew is made of the apply times of the one before it and the new one. */
  lemma NextSkewIsWhole(mine: seq<Skew>, before: seq<ApplyTime>, e: ApplyTime, c: CommandId)
    requires SkewCount(mine, |before|) && EndsWith(mine, before) && MadeOf(mine, PeersOf(before))
    requires DistinctPeers(before + [e]) && PeersOf(before + [e]) == PeersOf(before) + {e.peer}
    ensures var times := before + [e];
      MadeOf(if |times| >= 2 then mine + [Skew(c, Spread(times) * 1000.0, times)] else mine, PeersOf(before) + {e.peer})
  {
    hide Spread, PeersOf, DistinctPeers, NeverDecreases;
    var times := before + [e];
    assert times[..|before|] == before;
  }

  lemma LaterSkewIsLarger(s: seq<Skew>, x: Skew)
    requires NeverDecreases(s) && (s != [] ==> s[|s| - 1].ms <= x.ms)
    ensures NeverDecreases(s + [x])
  {
  }

  lemma FedSkewsAreSpreads(skews: seq<Skew>, groups: map<CommandId, Group>, c: CommandId, e: ApplyTime)
    requires SkewsAreSpreads(skews)
    ensures SkewsAreSpreads(FeedSkews(skews, groups, c, e))
  {
    hide Spread, Put;
  }

  lemma AcceptKeepsGroups(t: Table, m: MsgId, p: Peer, reply: Reply, clock: ClockPair, now: real)
    requires TableInv(t) && Key(m, p) in t.pending
    ensures var t' := Accept(t, m, p, reply, clock, now);
      && OnePerPeer(t'.sends, t'.commands)
      && GroupsExact(t'.groups, t'.commands, AppliedMap(t')) && SkewsCounted(t'.skews, AppliedMap(t'))
      && LastSkews(t'.skews, t'.groups) && SkewsAreSpreads(t'.skews)
  {
    hide Accept, Fates, Tracked, Conserved, FuturesFollow, OnePerPeer, GroupsExact, SkewsCounted, LastSkews, SkewsAreSpreads,
         AppliedMap, Applied, FeedGroup, FeedSkews;
    var t' := Accept(t, m, p, reply, clock, now);
    PendingIsTracked(t, m, p);
    AcceptShape(t, m, p, reply, clock, now);
    var c := t.tracking[m].command;
    PendingIsNew(t, m, c, p);
    AppliedAfter(t, t', m, reply.applyTs);
    if reply.applyTs.Some? {
      var e := EntryFor(p, reply.applyTs.value, clock);
      LiveGroup(t.groups, t.commands, AppliedMap(t), c);
      FedGroupsExact(t.groups, t.commands, AppliedMap(t), c, e);
      FedSkewsCounted(t.groups, AppliedMap(t), t.skews, c, e);
      FedLastSkews(t.groups, AppliedMap(t), t.skews, c, e);
      FedSkewsAreSpreads(t.skews, t.groups, c, e);
    }
  }

  lemma LiveGroup(groups: map<CommandId, Group>, commands: map<CommandId, set<Peer>>,
                  applied: map<CommandId, set<Peer>>, c: CommandId)
    requires GroupsExact(groups, commands, applied) && c in groups
    ensures c in applied && PeersOf(groups[c].applyTimes) == applied[c] && DistinctPeers(groups[c].applyTimes)
  {
  }

  lemma AcceptKeeps(t: Table, m: MsgId, p: Peer, reply: Reply, clock: ClockPair, now: real)
    requires TableInv(t)
    ensures TableInv(Accept(t, m, p, reply, clock, now))
  {
    hide Fates, Tracked, Conserved, FuturesFollow, OnePerPeer, GroupsExact, SkewsCounted, LastSkews, SkewsAreSpreads, AppliedMap;
    if Key(m, p) in t.pending {
      hide Accept;
      AcceptKeepsFates(t, m, p, reply, clock, now);
      AcceptKeepsConserved(t, m, p, reply, clock, now);
      AcceptKeepsGroups(t, m, p, reply, clock, now);
    }
  }
}

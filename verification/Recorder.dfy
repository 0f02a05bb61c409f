/** The event log: the recorder's running index, and what replay derives from the rows. */
module Recorder {
  import opened Types

  /** The parts of a logged message that the recorder and replay read. */
  datatype Logged = Logged(msgType: string, msgId: Option<string>, replyTo: Option<string>, trialId: Option<string>,
                           serverTs: real, payloadReplyTo: Option<string>, applyTs: Option<real>)

  /** session is present if the row carries a session, and then holds its trial id. */
  datatype Row = Row(ts: real, kind: string, peerId: Option<string>, message: Option<Logged>,
                     session: Option<Option<string>>)

  // ---------- what the rows say ----------

  function KindCount(rows: seq<Row>, kind: string): nat {
    if rows == [] then 0
    else KindCount(rows[..|rows| - 1], kind) + if rows[|rows| - 1].kind == kind then 1 else 0
  }

  predicate Truthy(s: Option<string>) {
    s.Some? && s.value != ""
  }

  function Nonempty(s: Option<string>): set<string> {
    if Truthy(s) then {s.value} else {}
  }

  function HeaderTrial(row: Row): Option<string> {
    if row.message.Some? then row.message.value.trialId else None
  }

  function SessionTrial(row: Row): Option<string> {
    if row.session.Some? then row.session.value else None
  }

  /** `_trial_id_for_event`. */
  function TrialOf(row: Row): Option<string> {
    if Truthy(HeaderTrial(row)) then HeaderTrial(row) else SessionTrial(row)
  }

  /** The trial ids replay derives. */
  function ReplayedTrials(rows: seq<Row>): set<string> {
    set row | row in rows && TrialOf(row).Some? :: TrialOf(row).value
  }

  /** Trial ids of sessions whose row has another id in its message header. */
  function HiddenTrials(rows: seq<Row>): set<string> {
    set row | row in rows && Truthy(HeaderTrial(row)) && Truthy(SessionTrial(row)) :: SessionTrial(row).value
  }

  // ---------- the recorder ----------

  class EventRecorder {
    var eventCount: nat
    var kinds: map<string, nat>
    var trialIds: set<string>
    var peerIds: set<string>
    var lastSession: Option<Option<string>>
    ghost var rows: seq<Row>

    constructor ()
      ensures Valid() && rows == []
    {
      eventCount, kinds, trialIds, peerIds, lastSession, rows := 0, map[], {}, {}, None, [];
    }

    /** The index is a recount of the rows. */
    ghost predicate Valid()
      reads this
    {
      && eventCount == |rows|
      && KindsCounted(kinds, rows)
      && trialIds == IndexedTrials(rows)
      && PeersKept(peerIds, rows)
      && lastSession == LastSession(rows)
    }

    method Record(row: Row)
      requires Valid()
      modifies this
      ensures Valid() && rows == old(rows) + [row]
    {
      hide IndexedTrials, KindsCounted, PeersKept;
      OneMoreRow(rows, row, kinds, peerIds);
      rows := rows + [row];
      assert rows[..|rows| - 1] == old(rows);
      eventCount := eventCount + 1;
      kinds := kinds[row.kind := (if row.kind in kinds then kinds[row.kind] else 0) + 1];
      if Truthy(row.peerId) {
        peerIds := peerIds + {row.peerId.value};
      }
      assert peerIds == old(peerIds) + Nonempty(row.peerId);
      if row.message.Some? && Truthy(row.message.value.trialId) {
        trialIds := trialIds + {row.message.value.trialId.value};
      }
      if row.session.Some? {
        lastSession := row.session;
        if Truthy(row.session.value) {
          trialIds := trialIds + {row.session.value.value};
        }
      }
    }
  }

  ghost predicate KindsCounted(kinds: map<string, nat>, rows: seq<Row>) {
    && (forall k :: k in kinds <==> KindCount(rows, k) > 0)
    && (forall k :: k in kinds ==> kinds[k] == KindCount(rows, k))
  }

  ghost predicate PeersKept(peers: set<string>, rows: seq<Row>) {
    forall p :: p in peers <==> p != "" && exists row :: row in rows && row.peerId == Some(p)
  }

  lemma OneMoreRow(rows: seq<Row>, row: Row, kinds: map<string, nat>, peers: set<string>)
    requires KindsCounted(kinds, rows) && PeersKept(peers, rows)
    ensures IndexedTrials(rows + [row]) == IndexedTrials(rows) + Nonempty(HeaderTrial(row)) + Nonempty(SessionTrial(row))
    ensures KindsCounted(kinds[row.kind := (if row.kind in kinds then kinds[row.kind] else 0) + 1], rows + [row])
    ensures PeersKept(peers + Nonempty(row.peerId), rows + [row])
  {
    KindsOneMore(rows, row, kinds);
    PeersOneMore(rows, row, peers);
    hide KindsCounted, PeersKept;
    OneMoreIndexed(rows, row);
  }

  lemma KindsOneMore(rows: seq<Row>, row: Row, kinds: map<string, nat>)
    requires KindsCounted(kinds, rows)
    ensures KindsCounted(kinds[row.kind := (if row.kind in kinds then kinds[row.kind] else 0) + 1], rows + [row])
  {
    assert (rows + [row])[..|rows|] == rows;
    assert forall k :: KindCount(rows + [row], k) == KindCount(rows, k) + if row.kind == k then 1 else 0;
  }

  lemma PeersOneMore(rows: seq<Row>, row: Row, peers: set<string>)
    requires PeersKept(peers, rows)
    ensures PeersKept(peers + Nonempty(row.peerId), rows + [row])
  {
    assert forall r :: r in rows + [row] <==> r in rows || r == row;
  }

  function LastSession(rows: seq<Row>): Option<Option<string>> {
    if rows == [] then None
    else if rows[|rows| - 1].session.Some? then rows[|rows| - 1].session
    else LastSession(rows[..|rows| - 1])
  }

  /** The trial ids the recorder keeps, row by row. */
  function IndexedTrials(rows: seq<Row>): set<string> {
    if rows == [] then {}
    else
      var last := rows[|rows| - 1];
      IndexedTrials(rows[..|rows| - 1]) + Nonempty(HeaderTrial(last)) + Nonempty(SessionTrial(last))
  }

  /** The recorder's trial ids are the nonempty ones replay derives, and besides only those of
      sessions hidden behind a message's own trial id. */
  lemma {:induction false} TrialsAgree(rows: seq<Row>)
    ensures IndexedTrials(rows) == (ReplayedTrials(rows) - {""}) + HiddenTrials(rows)
  {
    if rows == [] {
    } else {
      hide ReplayedTrials, HiddenTrials;
      var init, last := rows[..|rows| - 1], rows[|rows| - 1];
      assert rows == init + [last];
      TrialsAgree(init);
      OneMoreTrial(init, last);
      hide IndexedTrials;
      TrialsOfRow(last);
      calc {
        IndexedTrials(rows);
        { OneMoreIndexed(init, last); }
        IndexedTrials(init) + Nonempty(HeaderTrial(last)) + Nonempty(SessionTrial(last));
        (ReplayedTrials(init) - {""}) + HiddenTrials(init) + (Nonempty(HeaderTrial(last)) + Nonempty(SessionTrial(last)));
        (ReplayedTrials(init) - {""}) + HiddenTrials(init) + ((ReplayedOf(last) - {""}) + HiddenOf(last));
        (ReplayedTrials(rows) - {""}) + HiddenTrials(rows);
      }
    }
  }

  function ReplayedOf(row: Row): set<string> {
    if TrialOf(row).Some? then {TrialOf(row).value} else {}
  }

  function HiddenOf(row: Row): set<string> {
    if Truthy(HeaderTrial(row)) && Truthy(SessionTrial(row)) then {SessionTrial(row).value} else {}
  }

  lemma TrialsOfRow(row: Row)
    ensures Nonempty(HeaderTrial(row)) + Nonempty(SessionTrial(row)) == (ReplayedOf(row) - {""}) + HiddenOf(row)
  {
  }

  lemma OneMoreIndexed(rows: seq<Row>, row: Row)
    ensures IndexedTrials(rows + [row]) == IndexedTrials(rows) + Nonempty(HeaderTrial(row)) + Nonempty(SessionTrial(row))
  {
    assert (rows + [row])[..|rows|] == rows;
  }

  lemma OneMoreTrial(rows: seq<Row>, row: Row)
    ensures ReplayedTrials(rows + [row]) == ReplayedTrials(rows) + ReplayedOf(row)
    ensures HiddenTrials(rows + [row]) == HiddenTrials(rows) + HiddenOf(row)
  {
    assert forall r :: r in rows + [row] <==> r in rows || r == row;
  }

  function IdOf(row: Row): Option<string> {
    if row.message.Some? then row.message.value.msgId else None
  }

  /** `_reply_to`: the header's, or else the payload's. */
  function ReplyOf(row: Row): Option<string> {
    if row.message.None? then None
    else if Truthy(row.message.value.replyTo) then row.message.value.replyTo
    else row.message.value.payloadReplyTo
  }

  predicate IsAck(row: Row) {
    row.message.Some? && row.message.value.msgType == "ACK"
  }

  // ---------- a message's timeline ----------

  predicate RelatesTo(row: Row, id: string) {
    IdOf(row) == Some(id) || ReplyOf(row) == Some(id)
  }

  predicate IsSendOf(row: Row, id: string) {
    row.kind == "send" && IdOf(row) == Some(id)
  }

  function Related(rows: seq<Row>, id: string): seq<Row> {
    if rows == [] then []
    else Related(rows[..|rows| - 1], id) + if RelatesTo(rows[|rows| - 1], id) then [rows[|rows| - 1]] else []
  }

  function AckRows(rows: seq<Row>): seq<Row> {
    if rows == [] then []
    else AckRows(rows[..|rows| - 1]) + if IsAck(rows[|rows| - 1]) then [rows[|rows| - 1]] else []
  }

  /** The rows logged at one time. */
  function LoggedAt(rows: seq<Row>, ts: real): seq<Row> {
    if rows == [] then []
    else LoggedAt(rows[..|rows| - 1], ts) + if rows[|rows| - 1].ts == ts then [rows[|rows| - 1]] else []
  }

  function FirstSend(rows: seq<Row>, id: string): Option<Row> {
    if rows == [] then None
    else if IsSendOf(rows[0], id) then Some(rows[0])
    else FirstSend(rows[1..], id)
  }

  function InsertByTs(sorted: seq<Row>, row: Row): seq<Row> {
    if sorted == [] || sorted[|sorted| - 1].ts <= row.ts then sorted + [row]
    else InsertByTs(sorted[..|sorted| - 1], row) + [sorted[|sorted| - 1]]
  }

  /** The rows by time, rows of one time in the order they had. */
  function SortByTs(rows: seq<Row>): seq<Row> {
    if rows == [] then [] else InsertByTs(SortByTs(rows[..|rows| - 1]), rows[|rows| - 1])
  }

  ghost predicate OrderedByTs(rows: seq<Row>) {
    forall i, j :: 0 <= i < j < |rows| ==> rows[i].ts <= rows[j].ts
  }

  lemma LoggedAtSnoc(rows: seq<Row>, row: Row, ts: real)
    ensures LoggedAt(rows + [row], ts) == LoggedAt(rows, ts) + if row.ts == ts then [row] else []
  {
    assert (rows + [row])[..|rows|] == rows;
  }

  lemma {:induction false} InsertPermutes(sorted: seq<Row>, row: Row)
    ensures multiset(InsertByTs(sorted, row)) == multiset(sorted) + multiset{row}
  {
    if sorted != [] && sorted[|sorted| - 1].ts > row.ts {
      InsertPermutes(sorted[..|sorted| - 1], row);
      assert sorted == sorted[..|sorted| - 1] + [sorted[|sorted| - 1]];
    }
  }

  lemma {:induction false} InsertOrders(sorted: seq<Row>, row: Row)
    requires OrderedByTs(sorted)
    ensures OrderedByTs(InsertByTs(sorted, row))
  {
    if sorted != [] && sorted[|sorted| - 1].ts > row.ts {
      var init, last := sorted[..|sorted| - 1], sorted[|sorted| - 1];
      assert sorted == init + [last];
      InsertOrders(init, row);
      InsertPermutes(init, row);
      hide OrderedByTs;
      LastStaysLast(init, last, row, InsertByTs(init, row));
    }
  }

  lemma {:induction false} InsertIsStable(sorted: seq<Row>, row: Row, ts: real)
    ensures LoggedAt(InsertByTs(sorted, row), ts) == LoggedAt(sorted, ts) + if row.ts == ts then [row] else []
  {
    if sorted == [] || sorted[|sorted| - 1].ts <= row.ts {
      LoggedAtSnoc(sorted, row, ts);
    } else {
      var init, last := sorted[..|sorted| - 1], sorted[|sorted| - 1];
      assert sorted == init + [last];
      InsertIsStable(init, row, ts);
      hide LoggedAt;
      LoggedAtSnoc(init, last, ts);
      LoggedAtSnoc(InsertByTs(init, row), last, ts);
    }
  }

  lemma LastStaysLast(init: seq<Row>, last: Row, row: Row, r: seq<Row>)
    requires OrderedByTs(init + [last]) && row.ts < last.ts && OrderedByTs(r) && multiset(r) == multiset(init) + multiset{row}
    ensures OrderedByTs(r + [last])
  {
    forall i | 0 <= i < |r|
      ensures r[i].ts <= last.ts
    {
      assert r[i] in multiset(r);
      if r[i] in init {
        var k :| 0 <= k < |init| && init[k] == r[i];
        assert (init + [last])[k] == r[i] && (init + [last])[|init|] == last;
      }
    }
  }

  /** Sorting by time yields an ordered permutation that keeps rows of one time in their order. */
  lemma {:induction false} SortIsStable(rows: seq<Row>, ts: real)
    ensures OrderedByTs(SortByTs(rows)) && multiset(SortByTs(rows)) == multiset(rows)
    ensures LoggedAt(SortByTs(rows), ts) == LoggedAt(rows, ts)
  {
    if rows != [] {
      var init, last := rows[..|rows| - 1], rows[|rows| - 1];
      assert rows == init + [last];
      SortIsStable(init, ts);
      InsertPermutes(SortByTs(init), last);
      InsertOrders(SortByTs(init), last);
      InsertIsStable(SortByTs(init), last, ts);
      hide OrderedByTs, LoggedAt, InsertByTs;
      LoggedAtSnoc(init, last, ts);
    }
  }

  /** One acknowledgement in a timeline, with its latencies where there is a send row. */
  datatype TimelineAck = TimelineAck(row: Row, latencyMs: Option<real>, applyLatencyMs: Option<real>)

  function Annotated(row: Row, send: Option<Row>): TimelineAck
    requires IsAck(row)
  {
    match send
    case None => TimelineAck(row, None, None)
    case Some(x) =>
      TimelineAck(row, Some((row.ts - x.ts) * 1000.0),
                  match row.message.value.applyTs
                  case Some(ts) => if x.message.Some? then Some((ts - x.message.value.serverTs) * 1000.0) else None
                  case None => None)
  }

  function AnnotateAll(rows: seq<Row>, send: Option<Row>): seq<TimelineAck> {
    if rows == [] then []
    else AnnotateAll(rows[..|rows| - 1], send) +
         if IsAck(rows[|rows| - 1]) then [Annotated(rows[|rows| - 1], send)] else []
  }

  /** The acknowledgements in a message's timeline: the ACK rows that reply to it or carry its id,
      by time, each with its latencies counted from the first row that sends the message. */
  method TimelineAcks(rows: seq<Row>, id: Option<string>) returns (acks: seq<TimelineAck>)
    ensures acks == if Truthy(id) then AnnotateAll(SortByTs(Related(rows, id.value)), FirstSend(rows, id.value)) else []
  {
    acks := [];
    if !Truthy(id) {
      return;
    }
    var send := FindSend(rows, id.value);
    var related: seq<Row> := [];
    var i := 0;
    while i < |rows|
      invariant 0 <= i <= |rows| && related == Related(rows[..i], id.value)
    {
      assert rows[..i + 1][..i] == rows[..i];
      if RelatesTo(rows[i], id.value) {
        related := related + [rows[i]];
      }
      i := i + 1;
    }
    assert rows[..i] == rows;
    related := SortByTs(related);
    i := 0;
    while i < |related|
      invariant 0 <= i <= |related| && acks == AnnotateAll(related[..i], send)
    {
      assert related[..i + 1][..i] == related[..i];
      if IsAck(related[i]) {
        acks := acks + [Annotated(related[i], send)];
      }
      i := i + 1;
    }
    assert related[..i] == related;
  }

  method FindSend(rows: seq<Row>, id: string) returns (send: Option<Row>)
    ensures send == FirstSend(rows, id)
  {
    var i := 0;
    while i < |rows|
      invariant 0 <= i <= |rows| && FirstSend(rows, id) == FirstSend(rows[i..], id)
    {
      assert rows[i..][1..] == rows[i + 1..];
      if IsSendOf(rows[i], id) {
        return Some(rows[i]);
      }
      i := i + 1;
    }
    send := None;
  }

  lemma {:induction false} RelatedMembers(rows: seq<Row>, id: string)
    ensures forall r :: r in Related(rows, id) <==> r in rows && RelatesTo(r, id)
  {
    if rows != [] {
      RelatedMembers(rows[..|rows| - 1], id);
      assert forall r :: r in rows <==> r in rows[..|rows| - 1] || r == rows[|rows| - 1];
    }
  }

  lemma {:induction false} AnnotatedMembers(rows: seq<Row>, send: Option<Row>)
    ensures |AnnotateAll(rows, send)| == |AckRows(rows)|
    ensures forall k :: 0 <= k < |AckRows(rows)| ==> AnnotateAll(rows, send)[k].row == AckRows(rows)[k]
    ensures forall r :: r in AckRows(rows) <==> r in rows && IsAck(r)
  {
    if rows != [] {
      AnnotatedMembers(rows[..|rows| - 1], send);
      assert forall r :: r in rows <==> r in rows[..|rows| - 1] || r == rows[|rows| - 1];
    }
  }

  /** An ACK row whose message replies to the id: in its header, or, if that names nothing, in its
      payload. */
  predicate Replies(row: Row, id: string) {
    && row.message.Some? && row.message.value.msgType == "ACK"
    && var m := row.message.value;
       if Truthy(m.replyTo) then m.replyTo == Some(id) else m.payloadReplyTo == Some(id)
  }

  /** An ACK row that has the id itself. */
  predicate Carries(row: Row, id: string) {
    row.message.Some? && row.message.value.msgType == "ACK" && row.message.value.msgId == Some(id)
  }

  /** A timeline has an acknowledgement iff some ACK row replies to the message or carries its id. */
  lemma TimelineHasAcks(rows: seq<Row>, id: string)
    ensures AnnotateAll(SortByTs(Related(rows, id)), FirstSend(rows, id)) != [] <==>
            exists r :: r in rows && (Replies(r, id) || Carries(r, id))
  {
    assert forall r :: IsAck(r) && RelatesTo(r, id) <==> Replies(r, id) || Carries(r, id);
    hide Replies, Carries;
    var related := Related(rows, id);
    var sorted := SortByTs(related);
    SortIsStable(related, 0.0);
    RelatedMembers(rows, id);
    AnnotatedMembers(sorted, FirstSend(rows, id));
    hide Related, SortByTs, FirstSend, AnnotateAll, AckRows;
    assert forall r :: r in sorted <==> r in multiset(sorted);
    assert forall r :: r in related <==> r in multiset(related);
    if AckRows(sorted) != [] {
      assert AckRows(sorted)[0] in AckRows(sorted);
    }
  }

  /** The row at f logs the sending of the message with this id. */
  predicate LogsSend(rows: seq<Row>, id: string, f: int)
    requires 0 <= f < |rows|
  {
    rows[f].kind == "send" && rows[f].message.Some? && rows[f].message.value.msgId == Some(id)
  }

  /** And no row before it does. */
  ghost predicate FirstSends(rows: seq<Row>, id: string, f: int) {
    0 <= f < |rows| && LogsSend(rows, id, f) && forall g :: 0 <= g < f ==> !LogsSend(rows, id, g)
  }

  lemma {:induction false} FirstSendIsFirst(rows: seq<Row>, id: string)
    ensures match FirstSend(rows, id)
            case None => forall f :: 0 <= f < |rows| ==> !LogsSend(rows, id, f)
            case Some(x) => exists f :: FirstSends(rows, id, f) && rows[f] == x
  {
    if rows != [] && !IsSendOf(rows[0], id) {
      FirstSendIsFirst(rows[1..], id);
      if FirstSend(rows, id).Some? {
        var f :| FirstSends(rows[1..], id, f) && rows[1..][f] == FirstSend(rows, id).value;
        assert rows[f + 1] == rows[1..][f];
        assert forall g :: 0 < g <= f ==> rows[g] == rows[1..][g - 1] && !LogsSend(rows[1..], id, g - 1);
        assert FirstSends(rows, id, f + 1);
      } else {
        assert forall f :: 0 < f < |rows| ==> rows[f] == rows[1..][f - 1] && !LogsSend(rows[1..], id, f - 1);
      }
    } else if rows != [] {
      assert FirstSends(rows, id, 0);
    }
  }

  /** The latencies of an acknowledgement lead from the sending row x to it: to the time it was
      logged, and from the message's own time to its apply time, if it has one. */
  predicate LeadsTo(x: Row, ack: TimelineAck)
    requires x.message.Some? && ack.row.message.Some?
  {
    && ack.latencyMs.Some? && x.ts + ack.latencyMs.value / 1000.0 == ack.row.ts
    && match ack.row.message.value.applyTs
       case Some(ts) => ack.applyLatencyMs.Some? && x.message.value.serverTs + ack.applyLatencyMs.value / 1000.0 == ts
       case None => ack.applyLatencyMs == None
  }

  lemma {:induction false} AnnotatedLead(rows: seq<Row>, x: Row)
    requires x.message.Some?
    ensures forall k :: 0 <= k < |AnnotateAll(rows, Some(x))| ==>
              AnnotateAll(rows, Some(x))[k].row.message.Some? && LeadsTo(x, AnnotateAll(rows, Some(x))[k])
  {
    if rows != [] {
      AnnotatedLead(rows[..|rows| - 1], x);
    }
  }

  lemma {:induction false} AnnotatedNone(rows: seq<Row>)
    ensures forall k :: 0 <= k < |AnnotateAll(rows, None)| ==>
              AnnotateAll(rows, None)[k].latencyMs == None && AnnotateAll(rows, None)[k].applyLatencyMs == None
  {
    if rows != [] {
      AnnotatedNone(rows[..|rows| - 1]);
    }
  }

  lemma {:induction false} AckRowsOrdered(rows: seq<Row>)
    requires OrderedByTs(rows)
    ensures OrderedByTs(AckRows(rows))
    ensures forall r :: r in AckRows(rows) ==> r in rows
  {
    if rows != [] {
      var init, last := rows[..|rows| - 1], rows[|rows| - 1];
      AckRowsOrdered(init);
      forall i | 0 <= i < |AckRows(init)|
        ensures AckRows(init)[i].ts <= last.ts
      {
        assert AckRows(init)[i] in init;
      }
    }
  }

  /** In a message's timeline the acknowledgements come by time. If some row sends the message, the
      latencies of each lead to it from the first such row, so they never decrease; otherwise
      there are none. */
  lemma LatenciesAreElapsed(rows: seq<Row>, id: string)
    ensures var acks := AnnotateAll(SortByTs(Related(rows, id)), FirstSend(rows, id));
      && (forall j, k :: 0 <= j < k < |acks| ==> acks[j].row.ts <= acks[k].row.ts)
      && (forall f :: FirstSends(rows, id, f) ==>
            && (forall k :: 0 <= k < |acks| ==> acks[k].row.message.Some? && LeadsTo(rows[f], acks[k]))
            && (forall j, k :: 0 <= j < k < |acks| ==> acks[j].latencyMs.value <= acks[k].latencyMs.value))
      && ((forall f :: 0 <= f < |rows| ==> !LogsSend(rows, id, f)) ==>
            forall k :: 0 <= k < |acks| ==> acks[k].latencyMs == None && acks[k].applyLatencyMs == None)
  {
    hide Related, SortByTs, FirstSend, AnnotateAll, AckRows, LoggedAt;
    var sorted, send := SortByTs(Related(rows, id)), FirstSend(rows, id);
    var acks := AnnotateAll(sorted, send);
    SortIsStable(Related(rows, id), 0.0);
    AckRowsOrdered(sorted);
    AnnotatedMembers(sorted, send);
    FirstSendIsFirst(rows, id);
    assert forall j, k :: 0 <= j < k < |acks| ==> acks[j].row.ts <= acks[k].row.ts;
    match send
    case None => AnnotatedNone(sorted);
    case Some(x) =>
      AnnotatedLead(sorted, x);
      forall f | FirstSends(rows, id, f)
        ensures rows[f] == x
      {
        var g :| FirstSends(rows, id, g) && rows[g] == x;
        assert f == g;
      }
  }

  // ---------- acknowledged sends ----------

  /** A send row with an id to which some ACK row replies. */
  predicate Answered(row: Row, rows: seq<Row>) {
    row.kind == "send" && Truthy(IdOf(row)) && exists r :: r in rows && Replies(r, IdOf(row).value)
  }

  /** A send row that has the id of an ACK row. */
  predicate SelfAcked(row: Row, rows: seq<Row>) {
    row.kind == "send" && Truthy(IdOf(row)) && exists r :: r in rows && Carries(r, IdOf(row).value)
  }

  function CountAnswered(some: seq<Row>, rows: seq<Row>): nat {
    if some == [] then 0
    else CountAnswered(some[..|some| - 1], rows) + if Answered(some[|some| - 1], rows) then 1 else 0
  }

  function CountAcked(some: seq<Row>, rows: seq<Row>): nat {
    if some == [] then 0
    else CountAcked(some[..|some| - 1], rows) +
         if Answered(some[|some| - 1], rows) || SelfAcked(some[|some| - 1], rows) then 1 else 0
  }

  /** The summary's acked_messages. */
  method AckedMessages(rows: seq<Row>) returns (count: nat)
    ensures count == CountAcked(rows, rows)
  {
    count := 0;
    var i := 0;
    while i < |rows|
      invariant 0 <= i <= |rows| && count == CountAcked(rows[..i], rows)
    {
      assert rows[..i + 1][..i] == rows[..i];
      if rows[i].kind == "send" {
        var acks := TimelineAcks(rows, IdOf(rows[i]));
        if Truthy(IdOf(rows[i])) {
          TimelineHasAcks(rows, IdOf(rows[i]).value);
        }
        if acks != [] {
          count := count + 1;
        }
      }
      i := i + 1;
    }
    assert rows[..i] == rows;
  }

  /** acked_messages is the number of send rows that an ACK row replies to, if and only if no
      other send row has the id of an ACK row. */
  lemma {:induction false} AckedCountsReplies(some: seq<Row>, rows: seq<Row>)
    ensures CountAcked(some, rows) >= CountAnswered(some, rows)
    ensures CountAcked(some, rows) == CountAnswered(some, rows) <==>
            forall i :: 0 <= i < |some| && SelfAcked(some[i], rows) ==> Answered(some[i], rows)
  {
    if some != [] {
      AckedCountsReplies(some[..|some| - 1], rows);
      hide SelfAcked, Answered;
      var init := some[..|some| - 1];
      assert forall i :: 0 <= i < |init| ==> init[i] == some[i];
    }
  }
}

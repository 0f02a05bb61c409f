/** One client's receive loop: filter duplicates, match replies to outstanding requests, run
    handlers, acknowledge. Each function is the code between two awaits. */
module ClientLoop {
  import opened Types
  import opened Messages
  import Dedupe
  import Clock
  import Sessions

  datatype Request = RegisterRequest | PingRequest(t0: real)

  datatype Answer = Answer(request: Request, reply: Message)

  datatype Phase = Sleeping(target: real) | Handling

  /** The message the loop is working on. arrivedAt and the clock pair are those of its receipt. */
  datatype Job = Job(msg: Message, phase: Phase, arrivedAt: real, offsetMs: real, rttMs: real)

  datatype Delivery = Delivery(id: MsgId, requiresAck: bool)

  /** Handlers of a command completed; at is the client's clock. */
  datatype Completion = Completion(id: MsgId, at: real)

  /** Handlers of a TRIAL_START_AT started; all times are the client's clock. */
  datatype TrialStart = TrialStart(id: MsgId, executeAt: real, target: real, arrivedAt: real, at: real,
                                   offsetMs: real, rttMs: real)

  datatype Client = Client(
    items: seq<MsgId>,
    responses: map<MsgId, Request>,
    answers: map<MsgId, Answer>,  // replies handed to a waiting coroutine that has not resumed yet
    job: Option<Job>,
    offsetMs: real,
    rttMs: real,
    session: Sessions.Snapshot,
    // what has happened so far
    delivered: seq<Delivery>,
    completed: seq<Completion>,
    acked: seq<MsgId>,
    starts: seq<TrialStart>,
    replies: map<MsgId, Message>)

  const NEW_CLIENT := Client([], map[], map[], None, 0.0, 0.0, Sessions.INITIAL, [], [], [], [], map[])

  /** The loop's state and the acknowledgement it sends, if any. */
  datatype Output = Output(client: Client, ack: Option<Body>)

  function MakeAck(original: Message, receiver: Peer, now: real, applyTs: Option<real>): Body {
    Ack(original.id, receiver, now, applyTs)
  }

  function StartJob(c: Client, msg: Message, now: real): Job {
    if msg.body.Command? && msg.body.kind == TRIAL_START_AT then
      var target := Clock.LocalForServer(msg.body.executeAt, c.offsetMs);
      Job(msg, if Max(0.0, target - now) > 0.0 then Sleeping(target) else Handling, now, c.offsetMs, c.rttMs)
    else
      Job(msg, Handling, now, c.offsetMs, c.rttMs)
  }

  /** Handlers of the job begin now. */
  function NoteStart(c: Client, job: Job, now: real): Client {
    if job.msg.body.Command? && job.msg.body.kind == TRIAL_START_AT then
      var executeAt := job.msg.body.executeAt;
      c.(starts := c.starts + [TrialStart(job.msg.id, executeAt, Clock.LocalForServer(executeAt, job.offsetMs),
                                          job.arrivedAt, now, job.offsetMs, job.rttMs)])
    else c
  }

  /** One iteration of `_recv_loop` up to its next await. */
  function Receive(c: Client, self: Peer, msg: Message, maxSize: int, now: real): Output
    requires c.job == None
  {
    var hit := msg.id in c.items;
    var c1 := c.(items := Dedupe.Touch(c.items, maxSize, msg.id),
                 delivered := c.delivered + [Delivery(msg.id, msg.requiresAck)]);
    if hit && msg.requiresAck then
      Output(c1.(acked := c.acked + [msg.id]), Some(MakeAck(msg, self, now, None)))
    else if msg.replyTo.Some? && msg.replyTo.value in c.responses then
      var r := msg.replyTo.value;
      Output(c1.(responses := c.responses - {r},
                 answers := c.answers[r := Answer(c.responses[r], msg)],
                 replies := c.replies[r := msg]), None)
    else
      var job := StartJob(c, msg, now);
      var c2 := c1.(job := Some(job));
      Output(if job.phase.Handling? then NoteStart(c2, job, now) else c2, None)
  }

  /** The sleep before a trial start is over. */
  function Wake(c: Client, now: real): Client
    requires c.job.Some? && c.job.value.phase.Sleeping? && now >= c.job.value.phase.target
  {
    NoteStart(c.(job := Some(c.job.value.(phase := Handling))), c.job.value, now)
  }

  /** Handlers have returned; the four commands are acknowledged. */
  function Finish(c: Client, self: Peer, now: real): Output
    requires c.job.Some? && c.job.value.phase.Handling?
  {
    var msg := c.job.value.msg;
    if msg.body.Command? then
      Output(c.(job := None, completed := c.completed + [Completion(msg.id, now)], acked := c.acked + [msg.id]),
             Some(MakeAck(msg, self, now, Some(now))))
    else
      Output(c.(job := None), None)
  }

  /** `_exchange` registers its request and sends it. */
  function Ask(c: Client, id: MsgId, request: Request): Client {
    c.(responses := c.responses[id := request])
  }

  /** The coroutine waiting in `_exchange` resumes with its reply: `register` copies the
      snapshot, `sync_clock` takes a sample. */
  function Resume(c: Client, id: MsgId, now: real): Client
    requires id in c.answers
  {
    var a := c.answers[id];
    var c1 := c.(answers := c.answers - {id});
    match a.request
    case RegisterRequest =>
      if a.reply.body.RegisterOk? then c1.(session := a.reply.body.snapshot) else c1
    case PingRequest(t0) =>
      if a.reply.body.Pong? then
        var sample := Clock.SampleOf(t0, a.reply.body.t1, a.reply.body.t2, now);
        c1.(offsetMs := sample.offsetMs, rttMs := sample.rttMs)
      else c1
  }

  // ---------- what a delivery history determines ----------

  function Ids(d: seq<Delivery>): (r: seq<MsgId>)
    ensures |r| == |d| && forall i :: 0 <= i < |d| ==> r[i] == d[i].id
  {
    seq(|d|, i requires 0 <= i < |d| => d[i].id)
  }

  function CompletedIds(s: seq<Completion>): (r: seq<MsgId>)
    ensures |r| == |s| && forall i :: 0 <= i < |s| ==> r[i] == s[i].id
  {
    seq(|s|, i requires 0 <= i < |s| => s[i].id)
  }

  /** The commands a history runs: the deliveries of ack-required messages that miss. */
  function Runs(d: seq<Delivery>, maxSize: int): seq<MsgId> {
    if d == [] then []
    else
      var before, last := d[..|d| - 1], d[|d| - 1];
      Runs(before, maxSize) +
      if last.requiresAck && last.id !in Dedupe.Items(Ids(before), maxSize) then [last.id] else []
  }

  /** The ack-required deliveries, in order. */
  function AckDeliveries(d: seq<Delivery>): seq<MsgId> {
    if d == [] then []
    else AckDeliveries(d[..|d| - 1]) + if d[|d| - 1].requiresAck then [d[|d| - 1].id] else []
  }

  function Count(s: seq<MsgId>, m: MsgId): nat {
    if s == [] then 0 else Count(s[..|s| - 1], m) + if s[|s| - 1] == m then 1 else 0
  }

  function InProgress(c: Client): seq<MsgId> {
    if c.job.Some? && c.job.value.msg.requiresAck then [c.job.value.msg.id] else []
  }

  /** What every step of the loop keeps: the filter holds exactly the window of the history,
      the commands run are exactly the misses, and every processed delivery of a command has
      been acknowledged once. */
  ghost predicate LoopInv(c: Client, maxSize: int) {
    && c.items == Dedupe.Items(Ids(c.delivered), maxSize)
    && CompletedIds(c.completed) + InProgress(c) == Runs(c.delivered, maxSize)
    && c.acked + InProgress(c) == AckDeliveries(c.delivered)
    && (c.job.Some? ==> WellFormed(c.job.value.msg))
  }

  lemma Snoc(d: seq<Delivery>, x: Delivery, maxSize: int)
    ensures Ids(d + [x]) == Ids(d) + [x.id]
    ensures Dedupe.Items(Ids(d + [x]), maxSize) == Dedupe.Touch(Dedupe.Items(Ids(d), maxSize), maxSize, x.id)
    ensures Runs(d + [x], maxSize) ==
            Runs(d, maxSize) + if x.requiresAck && x.id !in Dedupe.Items(Ids(d), maxSize) then [x.id] else []
    ensures AckDeliveries(d + [x]) == AckDeliveries(d) + if x.requiresAck then [x.id] else []
  {
    assert (d + [x])[..|d|] == d;
    assert Ids(d + [x]) == Ids(d) + [x.id];
    assert (Ids(d) + [x.id])[..|d|] == Ids(d);
  }

  /** What Receive does to the parts the invariant speaks of. */
  lemma ReceiveEffect(c: Client, self: Peer, msg: Message, maxSize: int, now: real)
    requires c.job == None && WellFormed(msg)
    ensures var c' := Receive(c, self, msg, maxSize, now).client;
      && c'.items == Dedupe.Touch(c.items, maxSize, msg.id)
      && c'.delivered == c.delivered + [Delivery(msg.id, msg.requiresAck)]
      && c'.completed == c.completed
      && InProgress(c') == (if msg.requiresAck && msg.id !in c.items then [msg.id] else [])
      && c'.acked == c.acked + (if msg.requiresAck && msg.id in c.items then [msg.id] else [])
      && (c'.job.Some? ==> c'.job.value.msg == msg)
  {
    assert c.acked + [] == c.acked;
  }

  lemma ReceiveKeepsLoopInv(c: Client, self: Peer, msg: Message, maxSize: int, now: real)
    requires LoopInv(c, maxSize) && c.job == None && WellFormed(msg)
    ensures LoopInv(Receive(c, self, msg, maxSize, now).client, maxSize)
  {
    ReceiveEffect(c, self, msg, maxSize, now);
    LoopInvSplit(c, Receive(c, self, msg, maxSize, now).client, msg, maxSize);
  }

  lemma LoopInvSplit(c: Client, c': Client, msg: Message, maxSize: int)
    requires LoopInv(c, maxSize) && c.job == None && WellFormed(msg)
    requires c'.items == Dedupe.Touch(c.items, maxSize, msg.id)
    requires c'.delivered == c.delivered + [Delivery(msg.id, msg.requiresAck)]
    requires c'.completed == c.completed
    requires InProgress(c') == if msg.requiresAck && msg.id !in c.items then [msg.id] else []
    requires c'.acked == c.acked + if msg.requiresAck && msg.id in c.items then [msg.id] else []
    requires c'.job.Some? ==> c'.job.value.msg == msg
    ensures LoopInv(c', maxSize)
  {
    Snoc(c.delivered, Delivery(msg.id, msg.requiresAck), maxSize);
    var done := CompletedIds(c.completed);
    assert done + InProgress(c) == done;
    assert c.acked + InProgress(c) == c.acked;
    if msg.requiresAck && msg.id in c.items {
      assert c'.acked + [] == c'.acked;
    } else {
      assert c.acked + [] == c.acked;
    }
  }

  lemma FinishKeepsLoopInv(c: Client, self: Peer, now: real, maxSize: int)
    requires LoopInv(c, maxSize) && c.job.Some? && c.job.value.phase.Handling?
    ensures LoopInv(Finish(c, self, now).client, maxSize)
  {
    var c' := Finish(c, self, now).client;
    assert InProgress(c') == [];
    assert CompletedIds(c'.completed) == CompletedIds(c.completed) + InProgress(c);
    assert c'.acked == c.acked + InProgress(c);
  }

  /** The loop's record of acknowledged ids grows exactly when it sends an acknowledgement, by
      the id that acknowledgement replies to. */
  lemma AckedIsSent(c: Client, self: Peer, msg: Message, maxSize: int, now: real)
    ensures c.job == None ==> Recorded(c, Receive(c, self, msg, maxSize, now), self)
    ensures c.job.Some? && c.job.value.phase.Handling? ==> Recorded(c, Finish(c, self, now), self)
  {
    hide Dedupe.Touch, Max, Clock.LocalForServer;
  }

  predicate Recorded(c: Client, out: Output, self: Peer) {
    match out.ack
    case Some(body) => body.Ack? && body.receiver == self && out.client.acked == c.acked + [body.replyTo]
    case None => out.client.acked == c.acked
  }

  // ---------- execution counts ----------

  /** Deliveries of one id agree on whether it asks for an acknowledgement. */
  ghost predicate Consistent(d: seq<Delivery>) {
    forall i, j :: 0 <= i < |d| && 0 <= j < |d| && d[i].id == d[j].id ==> d[i].requiresAck == d[j].requiresAck
  }

  lemma {:induction false} ItemsWereDelivered(history: seq<MsgId>, maxSize: int, m: MsgId)
    requires m in Dedupe.Items(history, maxSize)
    ensures m in history
  {
    Dedupe.HitExactlyInWindow(history, maxSize, m);
  }

  lemma FirstDelivery(before: seq<Delivery>, m: MsgId)
    requires Consistent(before + [Delivery(m, true)]) && Delivery(m, true) !in before
    ensures m !in Ids(before)
  {
    var d := before + [Delivery(m, true)];
    forall i | 0 <= i < |before|
      ensures before[i].id != m
    {
      assert d[i] == before[i] && d[|before|] == Delivery(m, true);
    }
  }

  /** A command that was ever delivered has been run: its first delivery misses. */
  lemma {:induction false} DeliveredMeansRun(d: seq<Delivery>, maxSize: int, m: MsgId)
    requires Consistent(d) && Delivery(m, true) in d
    ensures m in Runs(d, maxSize)
  {
    var before, last := d[..|d| - 1], d[|d| - 1];
    assert d == before + [last];
    if Delivery(m, true) in before {
      DeliveredMeansRun(before, maxSize, m);
    } else {
      FirstDelivery(before, m);
      Dedupe.HitExactlyInWindow(Ids(before), maxSize, m);
    }
  }

  /** If ids[j] repeats m, fewer than maxSize distinct ids arrived since the previous m. */
  ghost predicate GapFits(ids: seq<MsgId>, maxSize: int, m: MsgId, j: nat)
    requires j < |ids|
  {
    ids[j] == m && m in ids[..j] ==>
      |Dedupe.IdSet(ids[Dedupe.LastIndex(ids[..j], m) + 1..j])| < maxSize
  }

  /** Between any two consecutive deliveries of m fewer than maxSize distinct ids arrive. */
  ghost predicate StaysInWindow(ids: seq<MsgId>, maxSize: int, m: MsgId) {
    forall j :: 0 <= j < |ids| ==> GapFits(ids, maxSize, m, j)
  }

  lemma GapOfPrefix(ids: seq<MsgId>, maxSize: int, m: MsgId, n: nat, j: nat)
    requires j < n <= |ids|
    ensures GapFits(ids[..n], maxSize, m, j) == GapFits(ids, maxSize, m, j)
  {
    assert ids[..n][..j] == ids[..j];
    if m in ids[..j] {
      var i := Dedupe.LastIndex(ids[..j], m);
      assert ids[..n][i + 1..j] == ids[i + 1..j];
    }
  }

  lemma LastGap(p: seq<MsgId>, x: MsgId, maxSize: int, m: MsgId)
    ensures GapFits(p + [x], maxSize, m, |p|) <==> (x == m && m in p ==> m in Dedupe.Items(p, maxSize))
  {
    var ids := p + [x];
    assert ids[..|p|] == p;
    Dedupe.HitExactlyInWindow(p, maxSize, m);
    if m in p {
      var i := Dedupe.LastIndex(p, m);
      assert p[i + 1..] == ids[i + 1..|p|];
    }
  }

  lemma StaysInWindowSnoc(p: seq<MsgId>, x: MsgId, maxSize: int, m: MsgId)
    ensures StaysInWindow(p + [x], maxSize, m) <==>
            StaysInWindow(p, maxSize, m) && (x == m && m in p ==> m in Dedupe.Items(p, maxSize))
  {
    var ids := p + [x];
    assert ids[..|p|] == p;
    LastGap(p, x, maxSize, m);
    forall j: nat | j < |p|
      ensures GapFits(p, maxSize, m, j) == GapFits(ids, maxSize, m, j)
    {
      GapOfPrefix(ids, maxSize, m, |p|, j);
    }
  }

  lemma {:induction false} NeverDeliveredNeverRun(d: seq<Delivery>, maxSize: int, m: MsgId)
    requires m !in Ids(d)
    ensures Count(Runs(d, maxSize), m) == 0
  {
    if d != [] {
      var before, last := d[..|d| - 1], d[|d| - 1];
      assert d == before + [last];
      assert Ids(d) == Ids(before) + [last.id];
      NeverDeliveredNeverRun(before, maxSize, m);
      CountAppend(Runs(before, maxSize), last.id, m);
    }
  }

  lemma CountAppend(s: seq<MsgId>, x: MsgId, m: MsgId)
    ensures Count(s + [x], m) == Count(s, m) + if x == m then 1 else 0
    ensures Count(s + [], m) == Count(s, m)
  {
    assert (s + [x])[..|s|] == s;
    assert s + [] == s;
  }

  /** One more delivery runs m again exactly when it misses the filter, which is exactly when it
      leaves the window. */
  lemma OneMoreDelivery(before: seq<Delivery>, last: Delivery, maxSize: int, m: MsgId)
    ensures Count(Runs(before + [last], maxSize), m) == Count(Runs(before, maxSize), m) +
              if last == Delivery(m, true) && m !in Dedupe.Items(Ids(before), maxSize) then 1 else 0
    ensures StaysInWindow(Ids(before + [last]), maxSize, m) <==>
            StaysInWindow(Ids(before), maxSize, m) && (last.id == m && m in Ids(before) ==> m in Dedupe.Items(Ids(before), maxSize))
  {
    hide Runs, Count, StaysInWindow, Dedupe.Items;
    Snoc(before, last, maxSize);
    StaysInWindowSnoc(Ids(before), last.id, maxSize, m);
    CountAppend(Runs(before, maxSize), last.id, m);
  }

  /** A delivered command runs exactly once if and only if every redelivery of it falls
      inside the filter's window. */
  lemma {:induction false} ExactlyOnceIffWindow(d: seq<Delivery>, maxSize: int, m: MsgId)
    requires Consistent(d) && Delivery(m, true) in d
    ensures Count(Runs(d, maxSize), m) >= 1
    ensures Count(Runs(d, maxSize), m) == 1 <==> StaysInWindow(Ids(d), maxSize, m)
  {
    hide Runs, Count, StaysInWindow, Dedupe.Items;
    var before, last := d[..|d| - 1], d[|d| - 1];
    assert d == before + [last];
    OneMoreDelivery(before, last, maxSize, m);
    if Delivery(m, true) in before {
      ExactlyOnceIffWindow(before, maxSize, m);
      var i :| 0 <= i < |before| && before[i] == Delivery(m, true);
      assert Ids(before)[i] == m;
      assert d[i] == before[i] && d[|before|] == last;
    } else {
      FirstDelivery(before, m);
      NeverDeliveredNeverRun(before, maxSize, m);
      NeverRedelivered(Ids(before), maxSize, m);
      FirstMisses(before, maxSize, m);
    }
  }

  lemma FirstMisses(before: seq<Delivery>, maxSize: int, m: MsgId)
    requires m !in Ids(before)
    ensures m !in Dedupe.Items(Ids(before), maxSize)
  {
    Dedupe.HitExactlyInWindow(Ids(before), maxSize, m);
  }

  lemma NeverRedelivered(ids: seq<MsgId>, maxSize: int, m: MsgId)
    requires m !in ids
    ensures StaysInWindow(ids, maxSize, m)
  {
  }
}

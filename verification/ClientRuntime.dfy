/** The client as an object. Each method is one step of its loops between two awaits, and leaves
    the object in the state the protocol's step functions name. */
module ClientRuntime {
  import opened Types
  import opened Messages
  import opened ClientLoop
  import Clock
  import Dedupe
  import Sessions

  class ExperimentClient {
    const self: Peer
    const dedupe: Dedupe.MessageDeduplicator
    const session: Sessions.SessionManager
    var responses: map<MsgId, Request>
    var answers: map<MsgId, Answer>  // completed futures whose coroutine has not resumed yet
    var job: Option<Job>
    var offsetMs: real
    var rttMs: real
    // what has happened so far
    ghost var delivered: seq<Delivery>
    ghost var completed: seq<Completion>
    ghost var acked: seq<MsgId>
    ghost var starts: seq<TrialStart>
    ghost var replies: map<MsgId, Message>

    constructor (self: Peer, dedupCacheSize: int)
      ensures this.self == self && dedupe.maxSize == dedupCacheSize && Valid() && View() == NEW_CLIENT
      ensures fresh(dedupe) && fresh(session)
    {
      this.self := self;
      dedupe := new Dedupe.MessageDeduplicator(dedupCacheSize);
      session := new Sessions.SessionManager();
      responses, answers, job, offsetMs, rttMs := map[], map[], None, 0.0, 0.0;
      delivered, completed, acked, starts, replies := [], [], [], [], map[];
    }

    ghost predicate Valid()
      reads dedupe
    {
      Dedupe.NoDuplicates(dedupe.items)
    }

    ghost function View(): Client
      reads this, dedupe, session
    {
      Client(dedupe.items, responses, answers, job, offsetMs, rttMs, session.View(),
             delivered, completed, acked, starts, replies)
    }

    /** `_recv_loop` with one message: a repeated command is only re-acknowledged; a reply goes to
        the coroutine waiting for it; anything else is dispatched. */
    method ReceiveMessage(msg: Message, now: real) returns (ack: Option<Body>)
      requires Valid() && job == None
      modifies this, dedupe
      ensures Valid()
      ensures Output(View(), ack) == Receive(old(View()), self, msg, dedupe.maxSize, now)
    {
      hide Dedupe.Touch, Dedupe.NoDuplicates, NoteStart, MakeAck, Clock.LocalForServer, Max;
      ack := None;
      var repeated := dedupe.Seen(msg.id);
      delivered := delivered + [Delivery(msg.id, msg.requiresAck)];
      if repeated && msg.requiresAck {
        acked := acked + [msg.id];
        ack := Some(MakeAck(msg, self, now, None));
      } else if msg.replyTo.Some? && msg.replyTo.value in responses {
        CompleteExchange(msg.replyTo.value, msg);
      } else {
        Dispatch(msg, now);
      }
    }

    /** The future of the request is popped and completed. */
    method CompleteExchange(request: MsgId, msg: Message)
      requires request in responses
      modifies this`responses, this`answers, this`replies
      ensures responses == old(responses) - {request}
      ensures answers == old(answers)[request := Answer(old(responses)[request], msg)]
      ensures replies == old(replies)[request := msg]
    {
      var pending := responses[request];
      responses := responses - {request};
      answers := answers[request := Answer(pending, msg)];
      replies := replies[request := msg];
    }

    /** `_dispatch` up to its first await: a trial start sleeps until its local target. */
    method Dispatch(msg: Message, now: real)
      requires job == None
      modifies this`job, this`starts
      ensures View() == var c := old(View());
        var j := StartJob(c, msg, now);
        if j.phase.Handling? then NoteStart(c.(job := Some(j)), j, now) else c.(job := Some(j))
    {
      if msg.body.Command? && msg.body.kind == TRIAL_START_AT {
        var targetLocal := Clock.LocalForServer(msg.body.executeAt, offsetMs);
        var delay := Max(0.0, targetLocal - now);
        if delay > 0.0 {
          job := Some(Job(msg, Sleeping(targetLocal), now, offsetMs, rttMs));
        } else {
          job := Some(Job(msg, Handling, now, offsetMs, rttMs));
          starts := starts + [TrialStart(msg.id, msg.body.executeAt, targetLocal, now, now, offsetMs, rttMs)];
        }
      } else {
        job := Some(Job(msg, Handling, now, offsetMs, rttMs));
      }
    }

    /** The sleep is over. */
    method WakeUp(now: real)
      requires job.Some? && job.value.phase.Sleeping? && now >= job.value.phase.target
      modifies this`job, this`starts
      ensures View() == Wake(old(View()), now)
    {
      var j := job.value;
      job := Some(j.(phase := Handling));
      if j.msg.body.Command? && j.msg.body.kind == TRIAL_START_AT {
        var targetLocal := Clock.LocalForServer(j.msg.body.executeAt, j.offsetMs);
        starts := starts + [TrialStart(j.msg.id, j.msg.body.executeAt, targetLocal, j.arrivedAt, now, j.offsetMs, j.rttMs)];
      }
    }

    /** The handlers have returned. */
    method FinishDispatch(now: real) returns (ack: Option<Body>)
      requires job.Some? && job.value.phase.Handling?
      modifies this`job, this`completed, this`acked
      ensures Output(View(), ack) == Finish(old(View()), self, now)
    {
      var msg := job.value.msg;
      job := None;
      ack := None;
      if msg.body.Command? {
        completed := completed + [Completion(msg.id, now)];
        acked := acked + [msg.id];
        ack := Some(MakeAck(msg, self, now, Some(now)));
      }
    }

    /** `_exchange` up to its await. */
    method BeginExchange(id: MsgId, request: Request)
      modifies this`responses
      ensures View() == Ask(old(View()), id, request)
    {
      responses := responses[id := request];
    }

    /** The coroutine in `_exchange` resumes: `register` copies the snapshot, `sync_clock` takes
        a fresh estimator's first sample. */
    method ResumeExchange(id: MsgId, now: real)
      requires id in answers
      modifies this, session
      ensures Valid() == old(Valid())
      ensures View() == Resume(old(View()), id, now)
    {
      var answer := answers[id];
      answers := answers - {id};
      match answer.request
      case RegisterRequest =>
        if answer.reply.body.RegisterOk? {
          session.ApplySnapshot(answer.reply.body.snapshot);
        }
      case PingRequest(t0) =>
        if answer.reply.body.Pong? {
          var estimator := new Clock.SyncEstimator();
          var sample := estimator.AddSample(t0, answer.reply.body.t1, answer.reply.body.t2, now);
          offsetMs, rttMs := sample.offsetMs, sample.rttMs;
        }
    }
  }
}

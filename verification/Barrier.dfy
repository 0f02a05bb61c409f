/** Waiting until every required role has a ready client, while other tasks run. */
module Barrier {
  import opened Types
  import opened Registry
  import Messages
  import Sessions

  const INTERVAL := 0.02

  /** What the barrier shares with other tasks. */
  datatype View = View(clients: Table, session: Sessions.Snapshot)

  /** What one poll of the barrier saw. */
  datatype Poll = Poll(view: View, now: real)

  // ---------- the roles reported missing ----------

  lemma {:induction false} MissingAppend(t: Table, a: seq<string>, b: seq<string>)
    ensures MissingRoles(t, a + b) == MissingRoles(t, a) + MissingRoles(t, b)
  {
    if b == [] {
      assert a + b == a;
    } else {
      var n := |b| - 1;
      assert (a + b)[..|a + b| - 1] == a + b[..n];
      MissingAppend(t, a, b[..n]);
    }
  }

  /** The barrier reports exactly the required roles without a READY or RUNNING client, in the
      order and as often as they were asked for; nothing is missing iff every role is ready. */
  lemma MissingAreTheUnready(t: Table, required: seq<string>)
    ensures forall r :: r in MissingRoles(t, required) <==>
              r in required && forall p :: p in t && t[p].role == r ==> t[p].status != Messages.READY && t[p].status != Messages.RUNNING
    ensures MissingRoles(t, required) == [] <==>
              forall r :: r in required ==> exists p :: p in t && t[p].role == r && (t[p].status == Messages.READY || t[p].status == Messages.RUNNING)
  {
    MissingAreNotReady(t, required);
  }

  lemma {:induction false} MissingAreNotReady(t: Table, required: seq<string>)
    ensures forall r :: r in MissingRoles(t, required) <==> r in required && !RoleReady(t, r)
    ensures MissingRoles(t, required) == [] <==> forall r :: r in required ==> RoleReady(t, r)
  {
    hide RoleReady;
    if required != [] {
      var init, last := required[..|required| - 1], required[|required| - 1];
      assert required == init + [last];
      MissingAreNotReady(t, init);
      var missing := MissingRoles(t, required);
      if !RoleReady(t, last) {
        assert missing[|missing| - 1] == last;
      }
    }
  }

  lemma {:induction false} MissingKeepRepeats(t: Table, required: seq<string>, r: string)
    requires !RoleReady(t, r)
    ensures multiset(MissingRoles(t, required))[r] == multiset(required)[r]
  {
    hide RoleReady;
    if required != [] {
      var init, last := required[..|required| - 1], required[|required| - 1];
      assert required == init + [last];
      MissingKeepRepeats(t, init, r);
    }
  }

  // ---------- the barrier ----------

  /** How many polls are possible before the deadline. */
  function PollsLeft(now: real, deadline: real): nat {
    if now >= deadline then 0 else ((deadline - now) / INTERVAL).Floor + 1
  }

  lemma OneFewerLeft(before: real, now: real, deadline: real)
    requires before < deadline && now >= before + INTERVAL
    ensures PollsLeft(now, deadline) < PollsLeft(before, deadline)
  {
    if now < deadline {
      assert (deadline - now) / INTERVAL <= (deadline - before) / INTERVAL - 1.0;
    }
  }

  /** Every one of these polls came before the deadline and saw a missing role. */
  ghost predicate Fruitless(polls: seq<Poll>, required: seq<string>, deadline: real) {
    forall k :: 0 <= k < |polls| ==> MissingRoles(polls[k].view.clients, required) != [] && polls[k].now < deadline
  }

  /** Polls are at least one interval apart, and other tasks led from each to the next. */
  ghost predicate Paced(polls: seq<Poll>, rely: (View, View) -> bool) {
    forall k :: 0 <= k < |polls| - 1 ==>
      polls[k].now + INTERVAL <= polls[k + 1].now && rely(polls[k].view, polls[k + 1].view)
  }

  lemma OneMorePoll(polls: seq<Poll>, next: Poll, required: seq<string>, deadline: real, rely: (View, View) -> bool)
    requires Fruitless(polls, required, deadline) && Paced(polls, rely)
    requires MissingRoles(next.view.clients, required) != [] && next.now < deadline
    requires polls != [] ==> polls[|polls| - 1].now + INTERVAL <= next.now && rely(polls[|polls| - 1].view, next.view)
    ensures Fruitless(polls + [next], required, deadline) && Paced(polls + [next], rely)
  {
    hide MissingRoles;
  }

  lemma {:induction false} PollsTakeTime(polls: seq<Poll>, k: nat, rely: (View, View) -> bool)
    requires Paced(polls, rely) && k < |polls|
    ensures polls[0].now + k as real * INTERVAL <= polls[k].now
  {
    if k > 0 {
      PollsTakeTime(polls, k - 1, rely);
      assert polls[k - 1].now + INTERVAL <= polls[k - 1 + 1].now;
    }
  }

  /** What other tasks may do in some time is what they may do in its parts, or nothing. */
  ghost predicate Closed(rely: (View, View) -> bool) {
    && (forall v :: rely(v, v))
    && (forall a, b, c :: rely(a, b) && rely(b, c) ==> rely(a, c))
  }

  /** Other tasks do not touch the session. */
  ghost predicate SessionLeftAlone(rely: (View, View) -> bool) {
    forall a, b :: rely(a, b) ==> b.session == a.session
  }

  /** The barrier, with the registry and session it shares with other tasks and the clock it reads.
      rely(a, b) says that other tasks may change what they share from a to b. */
  class BarrierManager {
    const registry: ClientRegistry
    const session: Sessions.SessionManager
    const rely: (View, View) -> bool
    var now: real
    ghost var slept: seq<Poll>  // the moments at which the task went to sleep

    constructor (registry: ClientRegistry, session: Sessions.SessionManager, rely: (View, View) -> bool, now: real)
      requires Closed(rely)
      ensures this.registry == registry && this.session == session && this.rely == rely && this.now == now && Valid()
    {
      this.registry, this.session, this.rely, this.now, slept := registry, session, rely, now, [];
    }

    ghost predicate Valid() {
      Closed(rely)
    }

    function Seen(): View
      reads registry, session
    {
      View(registry.clients, session.View())
    }

    /** `asyncio.sleep`: meanwhile other tasks do something they may do. */
    method Sleep(seconds: real)
      requires Valid()
      modifies this, registry, session
      ensures rely(old(Seen()), Seen()) && now >= old(now) + seconds
      ensures slept == old(slept) + [Poll(old(Seen()), old(now))]
    {
      slept := slept + [Poll(Seen(), now)];
      var after: View := *;
      if rely(Seen(), after) {
        registry.clients := after.clients;
        session.ApplySnapshot(after.session);
      }
      var overshoot: real := *;
      now := now + seconds + Max(0.0, overshoot);
    }

    /** Polls until no role is missing or the deadline has passed. The answer is what is missing
        now. The task slept only after polls that came before the deadline and saw a missing role,
        so the number of polls is bounded by the timeout; and nothing has changed since the call
        but by what other tasks may do. */
    method WaitUntilReady(required: seq<string>, timeout: real) returns (missing: seq<string>)
      requires Valid()
      modifies this, registry, session
      ensures rely(old(Seen()), Seen())
      ensures missing == MissingRoles(registry.clients, required)
      ensures missing == [] || now >= old(now) + timeout
      ensures old(slept) <= slept
      ensures var polls := slept[|old(slept)|..];
        && Fruitless(polls, required, old(now) + timeout) && Paced(polls, rely)
        && (polls == [] ==> Seen() == old(Seen()) && now == old(now))
        && (polls != [] ==> polls[0] == Poll(old(Seen()), old(now)) && (|polls| - 1) as real * INTERVAL < timeout)
    {
      hide MissingRoles, PollsLeft, Fruitless, Paced;
      var deadline := now + timeout;
      ghost var first := |slept|;
      ghost var polls: seq<Poll> := [];
      assert Fruitless(polls, required, deadline) && Paced(polls, rely) by { NoPolls(required, deadline, rely); }
      missing := registry.FindMissingRoles(required);
      while missing != [] && now < deadline
        invariant slept == old(slept) + polls && rely(old(Seen()), Seen())
        invariant missing == MissingRoles(registry.clients, required)
        invariant Fruitless(polls, required, deadline) && Paced(polls, rely)
        invariant polls == [] ==> Seen() == old(Seen()) && now == old(now)
        invariant polls != [] ==> polls[0] == Poll(old(Seen()), old(now))
        invariant polls != [] ==> polls[|polls| - 1].now < deadline
        invariant polls != [] ==> polls[|polls| - 1].now + INTERVAL <= now && rely(polls[|polls| - 1].view, Seen())
        decreases PollsLeft(now, deadline)
      {
        ghost var poll := Poll(Seen(), now);
        OneMorePoll(polls, poll, required, deadline, rely);
        Sleep(INTERVAL);
        OneFewerLeft(poll.now, now, deadline);
        polls := polls + [poll];
        missing := registry.FindMissingRoles(required);
      }
      assert slept[first..] == polls;
      if polls != [] {
        PollsTakeTime(polls, |polls| - 1, rely);
      }
    }

    /** `wait_until_clients_ready`: the session becomes READY only with every required role ready,
        and nothing else changes but by what other tasks may do; on a timeout, which names exactly
        the missing roles, nothing at all. */
    method WaitUntilClientsReady(requested: seq<string>, configured: seq<string>, timeout: real)
      returns (result: Result<(), seq<string>>)
      requires Valid()
      modifies this, registry, session
      ensures var required := if requested != [] then requested else configured;
        match result
        case Ok(_) =>
          && (exists v :: rely(old(Seen()), v) && Seen() == v.(session := Sessions.Apply(v.session, Sessions.MarkReady)))
          && session.state == Sessions.READY
          && forall r :: r in required ==> RoleReady(registry.clients, r)
        case Err(missing) =>
          && rely(old(Seen()), Seen())
          && now >= old(now) + timeout
          && missing != [] && missing == MissingRoles(registry.clients, required)
      ensures result.Err? && SessionLeftAlone(rely) ==> session.View() == old(session.View())
    {
      var required := if requested != [] then requested else configured;
      var missing := WaitUntilReady(required, timeout);
      MissingAreTheUnready(registry.clients, required);
      hide MissingRoles, RoleReady, Fruitless, Paced;
      if missing != [] {
        return Err(missing);
      }
      ghost var v := Seen();
      session.Perform(Sessions.MarkReady);
      assert rely(old(Seen()), v);
      result := Ok(());
    }
  }

  lemma NoPolls(required: seq<string>, deadline: real, rely: (View, View) -> bool)
    ensures Fruitless([], required, deadline) && Paced([], rely)
  {
  }
}

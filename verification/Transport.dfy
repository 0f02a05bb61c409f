/** The in-process transport: one queue into the server and one queue to each connected client. */
module Transport {
  import opened Types
  import opened Messages

  datatype Channel = Control | BroadcastChannel

  datatype Received = Received(sender: Peer, message: Message, channel: Channel)

  const SERVER := Peer("server")

  type Queues = map<Peer, seq<Received>>

  // ---------- the hub's operations on the client queues ----------

  function Ensure(queues: Queues, p: Peer): (r: Queues)
    ensures p in r
  {
    if p in queues then queues else queues[p := []]
  }

  function PutTo(queues: Queues, p: Peer, item: Received): Queues {
    Ensure(queues, p)[p := Ensure(queues, p)[p] + [item]]
  }

  function PutAll(queues: Queues, item: Received): Queues {
    map p | p in queues :: queues[p] + [item]
  }

  // ---------- all endpoints together ----------

  /** clientSent, clientReceived: the sums of the client transports' counters. */
  datatype Network = Network(
    serverQueue: seq<Received>,
    queues: Queues,
    clientSent: nat,
    serverReceived: nat,
    serverSent: nat,
    broadcastSent: nat,
    clientReceived: nat)

  const NEW_NETWORK := Network([], map[], 0, 0, 0, 0, 0)

  datatype Op =
    | Start(peer: Peer)
    | Stop(peer: Peer)
    | ServerSend(peer: Peer, message: Message)
    | Broadcast(message: Message)
    | ServerRecv
    | ClientSend(peer: Peer, message: Message)
    | ClientRecv(peer: Peer)

  function Connect(n: Network, p: Peer): Network {
    n.(queues := Ensure(n.queues, p))
  }

  function Step(n: Network, op: Op): Network {
    match op
    case Start(p) => Connect(n, p)
    case Stop(p) => n.(queues := n.queues - {p})
    case ServerSend(p, m) =>
      n.(queues := PutTo(n.queues, p, Received(SERVER, m, Control)), serverSent := n.serverSent + 1)
    case Broadcast(m) =>
      n.(queues := PutAll(n.queues, Received(SERVER, m, BroadcastChannel)), broadcastSent := n.broadcastSent + |n.queues|)
    case ServerRecv =>
      if n.serverQueue == [] then n
      else n.(serverQueue := n.serverQueue[1..], serverReceived := n.serverReceived + 1)
    case ClientSend(p, m) =>
      n.(serverQueue := n.serverQueue + [Received(p, m, Control)], clientSent := n.clientSent + 1)
    case ClientRecv(p) =>
      var n1 := Connect(n, p);
      if n1.queues[p] == [] then n1
      else n1.(queues := n1.queues[p := n1.queues[p][1..]], clientReceived := n.clientReceived + 1)
  }

  function After(ops: seq<Op>): Network {
    if ops == [] then NEW_NETWORK else Step(After(ops[..|ops| - 1]), ops[|ops| - 1])
  }

  // ---------- what the operations ask for ----------

  /** The clients connected after these operations: sending to a client and receiving connect it. */
  function Connected(ops: seq<Op>): set<Peer> {
    if ops == [] then {}
    else
      var before := Connected(ops[..|ops| - 1]);
      match ops[|ops| - 1]
      case Start(p) => before + {p}
      case Stop(p) => before - {p}
      case ServerSend(p, _) => before + {p}
      case ClientRecv(p) => before + {p}
      case _ => before
  }

  /** What the server has sent p, alone or with everyone connected, since p last disconnected. */
  function SentTo(ops: seq<Op>, p: Peer): seq<Received> {
    if ops == [] then []
    else
      var init := ops[..|ops| - 1];
      match ops[|ops| - 1]
      case Stop(q) => if q == p then [] else SentTo(init, p)
      case ServerSend(q, m) => SentTo(init, p) + if q == p then [Received(SERVER, m, Control)] else []
      case Broadcast(m) => SentTo(init, p) + if p in Connected(init) then [Received(SERVER, m, BroadcastChannel)] else []
      case _ => SentTo(init, p)
  }

  /** How many of these p has received. */
  function TakenBy(ops: seq<Op>, p: Peer): (r: nat)
    ensures r <= |SentTo(ops, p)|
  {
    if ops == [] then 0
    else
      var init := ops[..|ops| - 1];
      match ops[|ops| - 1]
      case Stop(q) => if q == p then 0 else TakenBy(init, p)
      case ClientRecv(q) => TakenBy(init, p) + if q == p && TakenBy(init, p) < |SentTo(init, p)| then 1 else 0
      case _ => TakenBy(init, p)
  }

  /** What the clients have sent the server. */
  function SentByClients(ops: seq<Op>): seq<Received> {
    if ops == [] then []
    else
      SentByClients(ops[..|ops| - 1]) +
      match ops[|ops| - 1]
      case ClientSend(p, m) => [Received(p, m, Control)]
      case _ => []
  }

  /** How many of these the server has received. */
  function TakenByServer(ops: seq<Op>): (r: nat)
    ensures r <= |SentByClients(ops)|
  {
    if ops == [] then 0
    else
      var init := ops[..|ops| - 1];
      TakenByServer(init) + if ops[|ops| - 1].ServerRecv? && TakenByServer(init) < |SentByClients(init)| then 1 else 0
  }

  datatype Tally = Tally(sent: nat, copies: nat, taken: nat, discarded: nat)

  /** The messages the server has sent to one client, the copies its broadcasts made, the messages
      clients have received, and those left unread by a disconnection. */
  function Totals(ops: seq<Op>): Tally {
    if ops == [] then Tally(0, 0, 0, 0)
    else
      var init := ops[..|ops| - 1];
      var t := Totals(init);
      match ops[|ops| - 1]
      case ServerSend(_, _) => t.(sent := t.sent + 1)
      case Broadcast(_) => t.(copies := t.copies + |Connected(init)|)
      case ClientRecv(p) => if TakenBy(init, p) < |SentTo(init, p)| then t.(taken := t.taken + 1) else t
      case Stop(p) => t.(discarded := t.discarded + |SentTo(init, p)| - TakenBy(init, p))
      case _ => t
  }

  // ---------- conservation and order ----------

  /** The number of messages waiting for clients. */
  ghost function Waiting(queues: Queues): nat
    decreases |queues|
  {
    if queues == map[] then 0
    else
      var p :| p in queues;
      FewerWithout(queues, p);
      |queues[p]| + Waiting(queues - {p})
  }

  lemma FewerWithout(queues: Queues, p: Peer)
    requires p in queues
    ensures |queues - {p}| == |queues| - 1
  {
    assert (queues - {p}).Keys == queues.Keys - {p};
  }

  lemma {:induction false} WaitingSplit(queues: Queues, p: Peer)
    requires p in queues
    ensures Waiting(queues) == |queues[p]| + Waiting(queues - {p})
    decreases |queues|
  {
    var q :| q in queues && Waiting(queues) == |queues[q]| + Waiting(queues - {q});
    if q != p {
      FewerWithout(queues, q);
      FewerWithout(queues, p);
      WaitingSplit(queues - {q}, p);
      WaitingSplit(queues - {p}, q);
      assert queues - {q} - {p} == queues - {p} - {q};
    }
  }

  lemma WaitingUpdate(queues: Queues, p: Peer, items: seq<Received>)
    ensures Waiting(queues[p := items]) == Waiting(queues - {p}) + |items|
  {
    WaitingSplit(queues[p := items], p);
    assert queues[p := items] - {p} == queues - {p};
  }

  lemma {:induction false} WaitingPutAll(queues: Queues, item: Received)
    ensures Waiting(PutAll(queues, item)) == Waiting(queues) + |queues|
    decreases |queues|
  {
    if queues == map[] {
      assert PutAll(queues, item) == map[];
    } else {
      var p :| p in queues;
      FewerWithout(queues, p);
      WaitingSplit(queues, p);
      WaitingSplit(PutAll(queues, item), p);
      WaitingPutAll(queues - {p}, item);
      assert PutAll(queues, item) - {p} == PutAll(queues - {p}, item);
    }
  }

  /** Each connected client's queue holds what was sent to it and it has not received, in order. */
  ghost predicate QueuesHold(ops: seq<Op>, queues: Queues) {
    && queues.Keys == Connected(ops)
    && forall p :: p in queues ==> queues[p] == SentTo(ops, p)[TakenBy(ops, p)..]
  }

  /** The server's queue holds what clients sent and it has not received, in order. */
  ghost predicate ServerHolds(ops: seq<Op>, n: Network) {
    && n.serverQueue == SentByClients(ops)[TakenByServer(ops)..]
    && n.clientSent == |SentByClients(ops)| && n.serverReceived == TakenByServer(ops)
  }

  /** The counters count what they say, and everything sent was received, is waiting or was
      discarded. */
  ghost predicate Counted(t: Tally, n: Network) {
    && n.serverSent == t.sent && n.broadcastSent == t.copies && n.clientReceived == t.taken
    && t.sent + t.copies == t.taken + Waiting(n.queues) + t.discarded
  }

  /** A client that is not connected has nothing coming. */
  lemma {:induction false} NothingWhenGone(ops: seq<Op>, p: Peer)
    requires p !in Connected(ops)
    ensures SentTo(ops, p) == []
  {
    if ops != [] {
      var init := ops[..|ops| - 1];
      if ops[|ops| - 1] != Stop(p) {
        NothingWhenGone(init, p);
      }
    }
  }

  lemma TakeOne(sent: seq<Received>, taken: nat, item: Received)
    requires taken <= |sent|
    ensures (sent + [item])[taken..] == sent[taken..] + [item]
    ensures taken < |sent| ==> sent[taken..][1..] == sent[taken + 1..]
  {
  }

  /** What the server puts on its way to p in one operation. */
  function Item(op: Op, p: Peer, connected: bool): seq<Received> {
    if op.ServerSend? && op.peer == p then [Received(SERVER, op.message, Control)]
    else if op.Broadcast? && connected then [Received(SERVER, op.message, BroadcastChannel)]
    else []
  }

  lemma OneMoreOp(init: seq<Op>, op: Op, p: Peer)
    ensures op != Stop(p) ==>
              && SentTo(init + [op], p) == SentTo(init, p) + Item(op, p, p in Connected(init))
              && TakenBy(init + [op], p) ==
                   TakenBy(init, p) + if op == ClientRecv(p) && TakenBy(init, p) < |SentTo(init, p)| then 1 else 0
  {
    assert (init + [op])[..|init|] == init;
    assert SentTo(init, p) + [] == SentTo(init, p);
  }

  /** What one operation does to one client's queue. */
  lemma StepQueue(n: Network, op: Op, p: Peer)
    requires p in Step(n, op).queues
    ensures op != Stop(p)
    ensures var was := Ensure(n.queues, p)[p];
            Step(n, op).queues[p] == if op == ClientRecv(p) && was != [] then was[1..] else was + Item(op, p, p in n.queues)
  {
    var was := Ensure(n.queues, p)[p];
    assert was + [] == was;
  }

  lemma QueueOf(init: seq<Op>, op: Op, n: Network, p: Peer)
    requires QueuesHold(init, n.queues) && p in Step(n, op).queues
    ensures Step(n, op).queues[p] == SentTo(init + [op], p)[TakenBy(init + [op], p)..]
  {
    hide SentTo, TakenBy, Connected, Step, Item;
    StepQueue(n, op, p);
    OneMoreOp(init, op, p);
    if p !in n.queues {
      NothingWhenGone(init, p);
    }
    var sent, taken, item := SentTo(init, p), TakenBy(init, p), Item(op, p, p in n.queues);
    assert Ensure(n.queues, p)[p] == sent[taken..];
    hide QueuesHold, Ensure;
    if op == ClientRecv(p) {
      NothingPut(op, p);
      assert sent + item == sent;
    } else {
      assert (sent + item)[taken..] == sent[taken..] + item;
    }
  }

  lemma NothingPut(op: Op, p: Peer)
    requires op.ClientRecv?
    ensures forall connected :: Item(op, p, connected) == []
  {
  }

  lemma StepKeepsQueues(init: seq<Op>, op: Op, n: Network)
    requires QueuesHold(init, n.queues)
    ensures QueuesHold(init + [op], Step(n, op).queues)
  {
    ConnectedFollows(init, op, n);
    hide Step, SentTo, TakenBy, Connected;
    forall p | p in Step(n, op).queues
      ensures Step(n, op).queues[p] == SentTo(init + [op], p)[TakenBy(init + [op], p)..]
    {
      QueueOf(init, op, n, p);
    }
  }

  lemma ConnectedFollows(init: seq<Op>, op: Op, n: Network)
    requires n.queues.Keys == Connected(init)
    ensures Step(n, op).queues.Keys == Connected(init + [op])
  {
    assert (init + [op])[..|init|] == init;
  }

  lemma StepKeepsServer(init: seq<Op>, op: Op, n: Network)
    requires ServerHolds(init, n)
    ensures ServerHolds(init + [op], Step(n, op))
  {
    assert (init + [op])[..|init|] == init;
    var sent, taken := SentByClients(init), TakenByServer(init);
    assert sent + [] == sent;
    if op.ClientSend? {
      TakeOne(sent, taken, Received(op.peer, op.message, Control));
    } else if taken < |sent| {
      TakeOne(sent, taken, sent[taken]);
    }
  }

  lemma WaitingEnsure(queues: Queues, p: Peer)
    ensures Waiting(Ensure(queues, p)) == Waiting(queues)
  {
    if p !in queues {
      WaitingUpdate(queues, p, []);
      assert queues - {p} == queues;
    }
  }

  /** Replacing one queue changes the number waiting by the difference in length. */
  lemma WaitingChange(queues: Queues, p: Peer, items: seq<Received>)
    ensures var was := Ensure(queues, p)[p];
            Waiting(Ensure(queues, p)[p := items]) + |was| == Waiting(queues) + |items|
  {
    WaitingEnsure(queues, p);
    WaitingSplit(Ensure(queues, p), p);
    WaitingUpdate(Ensure(queues, p), p, items);
  }

  lemma StopDiscards(queues: Queues, p: Peer)
    ensures Waiting(queues) == Waiting(queues - {p}) + if p in queues then |queues[p]| else 0
  {
    if p in queues {
      WaitingSplit(queues, p);
    } else {
      assert queues - {p} == queues;
    }
  }

  lemma StepKeepsCounted(init: seq<Op>, op: Op, n: Network)
    requires QueuesHold(init, n.queues) && Counted(Totals(init), n)
    ensures Counted(Totals(init + [op]), Step(n, op))
  {
    assert (init + [op])[..|init|] == init;
    hide Waiting, SentTo, TakenBy, Connected;
    match op
    case Start(p) => WaitingEnsure(n.queues, p);
    case Stop(p) =>
      StopDiscards(n.queues, p);
      if p !in n.queues {
        NothingWhenGone(init, p);
      }
    case ServerSend(p, m) =>
      WaitingChange(n.queues, p, Ensure(n.queues, p)[p] + [Received(SERVER, m, Control)]);
    case Broadcast(m) =>
      WaitingPutAll(n.queues, Received(SERVER, m, BroadcastChannel));
    case ServerRecv =>
    case ClientSend(p, m) =>
    case ClientRecv(p) =>
      if p !in n.queues {
        NothingWhenGone(init, p);
      }
      WaitingEnsure(n.queues, p);
      var queue := Ensure(n.queues, p)[p];
      if queue != [] {
        WaitingChange(n.queues, p, queue[1..]);
      }
  }

  /** Over every interleaving: the server's queue holds exactly what clients sent it and it has not
      received; each connected client's queue holds exactly what the server sent it, alone or with
      everyone, since it connected, without what it has received; both in the order sent. Every
      counter is the number of such operations, and of the copies the server has made each was
      received, is waiting, or was discarded by a disconnection. */
  lemma {:induction false} NothingIsLost(ops: seq<Op>)
    ensures ServerHolds(ops, After(ops)) && QueuesHold(ops, After(ops).queues) && Counted(Totals(ops), After(ops))
  {
    if ops == [] {
      assert NEW_NETWORK.queues == map[];
    } else {
      var init, op := ops[..|ops| - 1], ops[|ops| - 1];
      assert init + [op] == ops;
      NothingIsLost(init);
      hide ServerHolds, QueuesHold, Counted, Step;
      StepKeepsServer(init, op, After(init));
      StepKeepsQueues(init, op, After(init));
      StepKeepsCounted(init, op, After(init));
    }
  }

  /** The server puts the item on its way to p, with a message to it alone or to everyone. */
  predicate Sends(op: Op, p: Peer, item: Received) {
    || (op == ServerSend(p, item.message) && item == Received(SERVER, item.message, Control))
    || (op == Broadcast(item.message) && item == Received(SERVER, item.message, BroadcastChannel))
  }

  /** What waits for a client was sent to it earlier, and the client has not disconnected since:
      the hub only delivers packets that the protocol's network, which may deliver any packet sent
      so far, can deliver. */
  lemma ReceivedWasSent(ops: seq<Op>, p: Peer, item: Received)
    requires p in After(ops).queues && item in After(ops).queues[p]
    ensures exists k :: 0 <= k < |ops| && Sends(ops[k], p, item) && forall l :: k < l < |ops| ==> ops[l] != Stop(p)
  {
    hide After, SentTo, Sends;
    NothingIsLost(ops);
    assert item in SentTo(ops, p);
    WasSent(ops, p, item);
  }

  lemma {:induction false} WasSent(ops: seq<Op>, p: Peer, item: Received)
    requires item in SentTo(ops, p)
    ensures exists k :: 0 <= k < |ops| && Sends(ops[k], p, item) && forall l :: k < l < |ops| ==> ops[l] != Stop(p)
  {
    var n := |ops| - 1;
    if !Sends(ops[n], p, item) {
      WasSent(ops[..n], p, item);
      var k :| 0 <= k < n && Sends(ops[..n][k], p, item) && forall l :: k < l < n ==> ops[..n][l] != Stop(p);
      assert Sends(ops[k], p, item);
      assert forall l :: k < l < n ==> ops[l] == ops[..n][l];
    }
  }

  // ---------- the endpoints ----------

  class InMemoryHub {
    var serverQueue: seq<Received>
    var clientQueues: Queues
    // this hub's queues with the endpoints' counters
    ghost var network: Network

    constructor ()
      ensures Agrees() && network == NEW_NETWORK
    {
      serverQueue, clientQueues, network := [], map[], NEW_NETWORK;
    }

    ghost predicate Agrees()
      reads this
    {
      network.serverQueue == serverQueue && network.queues == clientQueues
    }

    method EnsureClient(p: Peer)
      requires Agrees()
      modifies this
      ensures Agrees() && network == Step(old(network), Start(p)) && p in clientQueues && serverQueue == old(serverQueue)
    {
      if p !in clientQueues {
        clientQueues := clientQueues[p := []];
      }
      network := Connect(network, p);
    }

    method RemoveClient(p: Peer)
      requires Agrees()
      modifies this
      ensures Agrees() && network == Step(old(network), Stop(p))
    {
      clientQueues := clientQueues - {p};
      network := Step(network, Stop(p));
    }
  }

  /** The item has been put into every queue but those of todo. */
  ghost predicate HalfPut(was: Queues, item: Received, todo: set<Peer>, queues: Queues) {
    && queues.Keys == was.Keys
    && forall p :: p in was ==> queues[p] == if p in todo then was[p] else was[p] + [item]
  }

  lemma NonePut(was: Queues, item: Received)
    ensures HalfPut(was, item, was.Keys, was)
  {
  }

  lemma OnePut(was: Queues, item: Received, todo: set<Peer>, queues: Queues, p: Peer)
    requires HalfPut(was, item, todo, queues) && p in todo && todo <= was.Keys
    ensures p in queues && HalfPut(was, item, todo - {p}, queues[p := queues[p] + [item]])
  {
  }

  lemma AllPut(was: Queues, item: Received, queues: Queues)
    requires HalfPut(was, item, {}, queues)
    ensures queues == PutAll(was, item)
  {
  }

  class InMemoryServerTransport {
    const hub: InMemoryHub
    var sent: nat
    var received: nat
    var broadcastSent: nat

    constructor (hub: InMemoryHub)
      requires hub.network.serverSent == 0 && hub.network.serverReceived == 0 && hub.network.broadcastSent == 0
      ensures this.hub == hub && Valid() == hub.Agrees()
    {
      this.hub := hub;
      sent, received, broadcastSent := 0, 0, 0;
    }

    ghost predicate Valid()
      reads this, hub
    {
      && hub.Agrees()
      && hub.network.serverSent == sent && hub.network.serverReceived == received
      && hub.network.broadcastSent == broadcastSent
    }

    method SendTo(p: Peer, m: Message)
      requires Valid()
      modifies this, hub
      ensures Valid() && hub.network == Step(old(hub.network), ServerSend(p, m))
    {
      ghost var n := hub.network;
      hub.EnsureClient(p);
      hub.clientQueues := hub.clientQueues[p := hub.clientQueues[p] + [Received(SERVER, m, Control)]];
      sent := sent + 1;
      hub.network := Step(n, ServerSend(p, m));
    }

    method BroadcastAll(m: Message)
      requires Valid()
      modifies this, hub
      ensures Valid() && hub.network == Step(old(hub.network), Broadcast(m))
    {
      hide HalfPut;
      var item := Received(SERVER, m, BroadcastChannel);
      ghost var was := hub.clientQueues;
      var todo := hub.clientQueues.Keys;
      NonePut(was, item);
      while todo != {}
        invariant todo <= was.Keys && HalfPut(was, item, todo, hub.clientQueues)
        invariant broadcastSent == old(broadcastSent) + |was| - |todo|
        invariant hub.network == old(hub.network) && hub.serverQueue == old(hub.serverQueue)
        invariant sent == old(sent) && received == old(received)
        decreases |todo|
      {
        var p :| p in todo;
        OnePut(was, item, todo, hub.clientQueues, p);
        hub.clientQueues := hub.clientQueues[p := hub.clientQueues[p] + [item]];
        broadcastSent := broadcastSent + 1;
        todo := todo - {p};
      }
      AllPut(was, item, hub.clientQueues);
      hub.network := Step(hub.network, Broadcast(m));
    }

    /** None when nothing arrived in time. */
    method Recv() returns (item: Option<Received>)
      requires Valid()
      modifies this, hub
      ensures Valid() && hub.network == Step(old(hub.network), ServerRecv)
      ensures item == if old(hub.serverQueue) == [] then None else Some(old(hub.serverQueue)[0])
    {
      if hub.serverQueue == [] {
        return None;
      }
      item := Some(hub.serverQueue[0]);
      hub.serverQueue := hub.serverQueue[1..];
      received := received + 1;
      hub.network := Step(hub.network, ServerRecv);
    }
  }

  class InMemoryClientTransport {
    const hub: InMemoryHub
    const clientId: Peer
    var sent: nat
    var received: nat

    constructor (hub: InMemoryHub, clientId: Peer)
      ensures this.hub == hub && this.clientId == clientId && sent == 0 && received == 0
    {
      this.hub, this.clientId := hub, clientId;
      sent, received := 0, 0;
    }

    method Send(m: Message)
      requires hub.Agrees()
      modifies this, hub
      ensures hub.Agrees() && hub.network == Step(old(hub.network), ClientSend(clientId, m))
      ensures sent == old(sent) + 1 && received == old(received)
    {
      hub.serverQueue := hub.serverQueue + [Received(clientId, m, Control)];
      sent := sent + 1;
      hub.network := Step(hub.network, ClientSend(clientId, m));
    }

    /** None when nothing arrived in time. */
    method Recv() returns (item: Option<Received>)
      requires hub.Agrees()
      modifies this, hub
      ensures hub.Agrees() && hub.network == Step(old(hub.network), ClientRecv(clientId))
      ensures var queue := Ensure(old(hub.clientQueues), clientId)[clientId];
              item == if queue == [] then None else Some(queue[0])
      ensures sent == old(sent) && received == old(received) + if item.Some? then 1 else 0
    {
      ghost var n := hub.network;
      hub.EnsureClient(clientId);
      var queue := hub.clientQueues[clientId];
      if queue == [] {
        return None;
      }
      item := Some(queue[0]);
      hub.clientQueues := hub.clientQueues[clientId := queue[1..]];
      received := received + 1;
      hub.network := Step(n, ClientRecv(clientId));
    }
  }
}

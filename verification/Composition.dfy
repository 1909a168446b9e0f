/** The broker together with any number of client handlers, in every interleaving,
    including several handlers under the same client id. */
module Composition {
  import opened Wrappers
  import opened Mqtt
  import Qos
  import H = Handler
  import B = Broker

  /** A handler is ready for its next event, or between announcing its client to the broker
      and recording that it is connected, or finished with its channel closed. */
  datatype Phase = Ready | Connecting(connect: ConnectData) | Gone

  datatype Node = Node(h: H.State, inbox: seq<BrokerMsg>, phase: Phase)

  /** `queue` is the broker's channel; once the broker has stopped, it accepts nothing. */
  datatype World = World(routing: B.Routing, alive: bool, queue: seq<BrokerMsg>, nodes: map<Channel, Node>)

  const START := World(B.EMPTY, true, [], map[])

  /** `room` is the number of messages of the step that the broker accepts: any number,
      since it may stop at any moment during the step, but none once it has stopped. */
  datatype Step =
    | Accept(ch: Channel)
    | Receive(ch: Channel, input: H.Input, room: nat)   // the handler's event loop wakes up to its socket
    | Connected(ch: Channel, netOk: bool, room: nat)    // the announcement has been accepted
    | Notify(ch: Channel, msg: BrokerMsg)               // a timer of the handler sends to its own channel
    | Serve(ch: Channel, netOk: bool, room: nat)        // the handler takes the next message of its channel
    | Route(batch: seq<B.Sent>)                         // the broker takes the next message of its channel

  /** The handler as it acts now, with nothing said yet in this step. */
  function Facing(node: Node, room: nat): H.State {
    node.h.(room := room, toBroker := [])
  }

  predicate Open(w: World, ch: Channel) {
    ch in w.nodes && !w.nodes[ch].phase.Gone?
  }

  predicate Idle(w: World, ch: Channel) {
    ch in w.nodes && w.nodes[ch].phase.Ready?
  }

  predicate Announces(w: World, ch: Channel, input: H.Input)
    requires ch in w.nodes
  {
    input.Incoming? && input.packet.Connect? && w.nodes[ch].h.conn.Initialized?
  }

  predicate Accepts(w: World, room: nat) {
    !w.alive ==> room == 0
  }

  ghost predicate Enabled(w: World, step: Step) {
    match step
    case Accept(ch) => ch !in w.nodes
    case Receive(ch, input, room) => Idle(w, ch) && !input.Message? && Accepts(w, room)
    case Connected(ch, _, room) => ch in w.nodes && w.nodes[ch].phase.Connecting? && Accepts(w, room)
    case Notify(ch, msg) => Open(w, ch) && (msg.ClientConnectionTimeout? || msg.QosRetry?)
    case Serve(ch, _, room) => Idle(w, ch) && w.nodes[ch].inbox != [] && Accepts(w, room)
    case Route(batch) => w.alive && w.queue != [] && CanRoute(w, batch)
  }

  /** A publish is sent to all its targets, or up to one whose channel is closed; no other
      message is sent on. */
  ghost predicate CanRoute(w: World, batch: seq<B.Sent>)
    requires w.queue != []
  {
    var msg := w.queue[0];
    if msg.PublishMsg? then
      var targets := B.Targets(w.routing, msg.client, msg.publish.topicName);
      && B.Addressed(batch, w.routing, msg) && B.Recipients(batch) <= targets
      && (forall i :: 0 <= i < |batch| ==> Open(w, batch[i].tx))
      && (B.Recipients(batch) == targets || exists c :: c in targets && !Open(w, w.routing.clients[c].clientTx))
    else batch == []
  }

  /** Puts the messages of a batch into the channels of their handlers. */
  function Put(nodes: map<Channel, Node>, batch: seq<B.Sent>): map<Channel, Node> {
    if batch == [] then nodes
    else
      var before := Put(nodes, batch[..|batch| - 1]);
      var s := batch[|batch| - 1];
      if s.tx in before then before[s.tx := before[s.tx].(inbox := before[s.tx].inbox + [s.msg])] else before
  }

  /** The broker stops when it meets a closed channel or a message that is not for it. */
  ghost function Routed(w: World, batch: seq<B.Sent>): World
    requires w.queue != []
  {
    var msg := w.queue[0];
    var misdirected := msg.ClientConnectionTimeout? || msg.QosRetry?;
    var cutShort := msg.PublishMsg?
                    && B.Recipients(batch) != B.Targets(w.routing, msg.client, msg.publish.topicName);
    World(B.Apply(w.routing, msg), !misdirected && !cutShort, w.queue[1..], Put(w.nodes, batch))
  }

  /** A handler has acted: its messages join the broker's channel, and when it has ended
      its own channel closes. */
  function Absorb(w: World, ch: Channel, inbox: seq<BrokerMsg>, r: H.Run): World {
    var node := if r.Running? then Node(r.h, inbox, Ready) else Node(r.h, [], Gone);
    w.(queue := w.queue + r.h.toBroker, nodes := w.nodes[ch := node])
  }

  ghost function Apply(w: World, step: Step): World
    requires Enabled(w, step)
  {
    match step
    case Accept(ch) => w.(nodes := w.nodes[ch := Node(H.Start(ch, 0), [], Ready)])
    case Receive(ch, input, room) =>
      var node := w.nodes[ch];
      if Announces(w, ch, input) && room > 0 then
        w.(queue := w.queue + [ClientConnected(input.packet.connect.clientId, node.h.self)],
           nodes := w.nodes[ch := node.(phase := Connecting(input.packet.connect))])
      else Absorb(w, ch, node.inbox, H.Next(H.Running(Facing(node, room)), input))
    case Connected(ch, netOk, room) =>
      var node := w.nodes[ch];
      Absorb(w, ch, node.inbox, H.Continue(Acknowledge(node, netOk, room)))
    case Notify(ch, msg) => w.(nodes := w.nodes[ch := w.nodes[ch].(inbox := w.nodes[ch].inbox + [msg])])
    case Serve(ch, netOk, room) =>
      var node := w.nodes[ch];
      Absorb(w, ch, node.inbox[1..], H.Continue(H.OnMessage(Facing(node, room), node.inbox[0], netOk)))
    case Route(batch) => Routed(w, batch)
  }

  /** The rest of connecting: the session is created and the Connect packet is handled. */
  function Acknowledge(node: Node, netOk: bool, room: nat): H.Outcome
    requires node.phase.Connecting?
  {
    var c := node.phase.connect;
    H.HandlePacket(Facing(node, room).(conn := H.Connected(c.clientId, c.lastWill, Qos.NEW_SESSION)), Connect(c), netOk)
  }

  /** The split of connecting into two steps loses nothing: together they are what the
      handler does with a Connect packet. */
  lemma ConnectInTwoSteps(node: Node, c: ConnectData, netOk: bool, room: nat)
    requires room > 0 && node.phase.Ready? && node.h.conn.Initialized?
    ensures var whole := H.OnPacket(Facing(node, room), Connect(c), netOk);
            var end := Acknowledge(node.(phase := Connecting(c)), netOk, room - 1);
            && whole.h.toBroker == [ClientConnected(c.clientId, node.h.self)] + end.h.toBroker
            && whole == (if end.Done? then H.Done(whole.h) else H.Fail(whole.h, end.error))
            && whole.h == end.h.(toBroker := whole.h.toBroker)
  {
  }

  // ---------- runs ----------

  ghost function After(steps: seq<Step>): Option<World> {
    if steps == [] then Some(START)
    else
      match After(steps[..|steps| - 1])
      case None => None
      case Some(w) => if Enabled(w, steps[|steps| - 1]) then Some(Apply(w, steps[|steps| - 1])) else None
  }

  // ---------- the invariant ----------

  /** The handler has told the broker about its client. */
  predicate Announced(w: World, ch: Channel) {
    ch in w.nodes && (!w.nodes[ch].phase.Ready? || w.nodes[ch].h.conn.Connected?)
  }

  ghost predicate Inv(w: World) {
    && (forall ch :: ch in w.nodes ==> w.nodes[ch].h.self == ch)
    && (forall ch, m :: ch in w.nodes && m in w.nodes[ch].inbox && m.PublishMsg? ==> Announced(w, ch))
    && (forall m :: m in w.queue && m.ClientConnected? ==> Announced(w, m.clientTx))
    && (forall c :: c in w.routing.clients ==> Announced(w, w.routing.clients[c].clientTx))
  }

  // ---------- every step keeps the invariant ----------

  /** A handler that does not announce itself sends no announcement, keeps its identity
      and stays connected as long as it runs. */
  lemma HandlerStep(h: H.State, input: H.Input)
    requires h.toBroker == []
    requires input.Incoming? && input.packet.Connect? && h.conn.Initialized? ==> h.room == 0
    ensures var r := H.Next(H.Running(h), input);
            && r.h.self == h.self
            && (forall m :: m in r.h.toBroker ==> !m.ClientConnected?)
            && (h.conn.Connected? ==> r.h.conn.Connected?)
  {
    match input {
      case Incoming(packet, netOk) =>
        PacketStep(h, packet, netOk);
        Farewells(H.OnPacket(h, packet, netOk).h);
      case Message(msg, netOk) =>
        H.MessageKeepsBody(h, msg, netOk);
        Farewells(H.OnMessage(h, msg, netOk).h);
      case Closed =>
        Farewells(h);
        Farewells(H.OnClientDisconnect(h).h);
      case _ =>
        Farewells(h);
    }
  }

  lemma PacketStep(h: H.State, packet: Packet, netOk: bool)
    requires h.toBroker == [] && (packet.Connect? && h.conn.Initialized? ==> h.room == 0)
    ensures var o := H.OnPacket(h, packet, netOk);
            && o.h.self == h.self && (h.conn.Connected? ==> o.h.conn.Connected?)
            && forall m :: m in o.h.toBroker ==> !m.ClientConnected?
  {
    H.PacketSpeaks(h, packet, netOk);
    var o := H.OnPacket(h, packet, netOk);
    if packet.Connect? {
      assert o.h.toBroker == [];
    } else if o.h.conn.Connected? {
      var spoken := H.Spoken(h.self, o.h.conn.id, H.Incoming(packet, netOk));
      assert [] + spoken == spoken;
    }
  }

  lemma Farewells(h: H.State)
    ensures var h' := H.OnClientDisconnect(h).h;
            && h'.self == h.self && h'.conn == h.conn
            && forall m :: m in h'.toBroker ==> m in h.toBroker || m.PublishMsg? || m.ClientDisconnected?
  {
  }

  lemma AbsorbKeepsInv(w: World, ch: Channel, inbox: seq<BrokerMsg>, r: H.Run)
    requires Inv(w) && ch in w.nodes && r.h.self == ch
    requires Announced(w, ch) ==> r.Ended? || r.h.conn.Connected?
    requires forall m :: m in inbox ==> m in w.nodes[ch].inbox
    requires forall m :: m in r.h.toBroker ==> !m.ClientConnected?
    ensures Inv(Absorb(w, ch, inbox, r))
  {
    var w' := Absorb(w, ch, inbox, r);
    assert forall c :: Announced(w, c) ==> Announced(w', c);
  }

  lemma {:induction false} PutOnlyAdds(nodes: map<Channel, Node>, batch: seq<B.Sent>, ch: Channel)
    ensures var after := Put(nodes, batch);
            && (ch in after <==> ch in nodes)
            && (ch in nodes ==> after[ch].h == nodes[ch].h && after[ch].phase == nodes[ch].phase)
            && (ch in nodes ==> forall m :: m in after[ch].inbox ==>
                  m in nodes[ch].inbox || exists s :: s in batch && s.tx == ch && s.msg == m)
  {
    if batch != [] {
      var front, last := batch[..|batch| - 1], batch[|batch| - 1];
      PutOnlyAdds(nodes, front, ch);
      assert last in batch && forall s :: s in front ==> s in batch;
    }
  }

  lemma RouteKeepsInv(w: World, batch: seq<B.Sent>)
    requires Inv(w) && Enabled(w, Route(batch))
    ensures Inv(Apply(w, Route(batch)))
  {
    var w' := Routed(w, batch);
    var msg := w.queue[0];
    assert forall m :: m in w'.queue ==> m in w.queue;
    forall ch ensures (ch in w'.nodes <==> ch in w.nodes)
                      && (ch in w.nodes ==> w'.nodes[ch].h == w.nodes[ch].h && w'.nodes[ch].phase == w.nodes[ch].phase)
    {
      PutOnlyAdds(w.nodes, batch, ch);
    }
    assert forall c :: Announced(w, c) <==> Announced(w', c);
    forall ch, m | ch in w'.nodes && m in w'.nodes[ch].inbox && m.PublishMsg? ensures Announced(w', ch) {
      PutOnlyAdds(w.nodes, batch, ch);
      if m !in w.nodes[ch].inbox {
        var s :| s in batch && s.tx == ch && s.msg == m;
        var i :| 0 <= i < |batch| && batch[i] == s;
        assert s.client in w.routing.clients;
      }
    }
    RoutingKeepsChannels(w.routing, msg);
    assert msg in w.queue;
  }

  /** The broker only knows the channels that connection messages gave it. */
  lemma RoutingKeepsChannels(r: B.Routing, msg: BrokerMsg)
    ensures forall c :: c in B.Apply(r, msg).clients ==>
              || (c in r.clients && B.Apply(r, msg).clients[c].clientTx == r.clients[c].clientTx)
              || (msg == ClientConnected(c, B.Apply(r, msg).clients[c].clientTx))
  {
  }

  lemma ActKeepsInv(w: World, ch: Channel, inbox: seq<BrokerMsg>, input: H.Input, room: nat)
    requires Inv(w) && Idle(w, ch) && !(Announces(w, ch, input) && room > 0)
    requires forall m :: m in inbox ==> m in w.nodes[ch].inbox
    ensures Inv(Absorb(w, ch, inbox, H.Next(H.Running(Facing(w.nodes[ch], room)), input)))
  {
    HandlerStep(Facing(w.nodes[ch], room), input);
    AbsorbKeepsInv(w, ch, inbox, H.Next(H.Running(Facing(w.nodes[ch], room)), input));
  }

  lemma AcceptKeepsInv(w: World, ch: Channel)
    requires Inv(w) && Enabled(w, Accept(ch))
    ensures Inv(Apply(w, Accept(ch)))
  {
    assert forall c :: Announced(w, c) ==> Announced(Apply(w, Accept(ch)), c);
  }

  lemma ReceiveKeepsInv(w: World, ch: Channel, input: H.Input, room: nat)
    requires Inv(w) && Enabled(w, Receive(ch, input, room))
    ensures Inv(Apply(w, Receive(ch, input, room)))
  {
    if Announces(w, ch, input) && room > 0 {
      assert forall c :: Announced(w, c) ==> Announced(Apply(w, Receive(ch, input, room)), c);
    } else {
      ActKeepsInv(w, ch, w.nodes[ch].inbox, input, room);
    }
  }

  lemma ConnectedKeepsInv(w: World, ch: Channel, netOk: bool, room: nat)
    requires Inv(w) && Enabled(w, Connected(ch, netOk, room))
    ensures Inv(Apply(w, Connected(ch, netOk, room)))
  {
    var node := w.nodes[ch];
    var o := Acknowledge(node, netOk, room);
    Farewells(o.h);
    AbsorbKeepsInv(w, ch, node.inbox, H.Continue(o));
  }

  lemma NotifyKeepsInv(w: World, ch: Channel, msg: BrokerMsg)
    requires Inv(w) && Enabled(w, Notify(ch, msg))
    ensures Inv(Apply(w, Notify(ch, msg)))
  {
    assert forall c :: Announced(w, c) <==> Announced(Apply(w, Notify(ch, msg)), c);
  }

  lemma StepKeepsInv(w: World, step: Step)
    requires Inv(w) && Enabled(w, step)
    ensures Inv(Apply(w, step))
  {
    match step {
      case Accept(ch) => AcceptKeepsInv(w, ch);
      case Receive(ch, input, room) => ReceiveKeepsInv(w, ch, input, room);
      case Connected(ch, netOk, room) => ConnectedKeepsInv(w, ch, netOk, room);
      case Notify(ch, msg) => NotifyKeepsInv(w, ch, msg);
      case Serve(ch, netOk, room) =>
        ActKeepsInv(w, ch, w.nodes[ch].inbox[1..], H.Message(w.nodes[ch].inbox[0], netOk), room);
      case Route(batch) => RouteKeepsInv(w, batch);
    }
  }

  lemma {:induction false} RunsKeepInv(steps: seq<Step>)
    requires After(steps).Some?
    ensures Inv(After(steps).value)
  {
    if steps != [] {
      RunsKeepInv(steps[..|steps| - 1]);
      StepKeepsInv(After(steps[..|steps| - 1]).value, steps[|steps| - 1]);
    }
  }

  // ---------- main result ----------

  /** In every interleaving, whatever a handler does next with a packet, a message or the
      rest of connecting, it never finds its session missing: a publish of the broker only
      reaches handlers that are connected by the time they look at it. */
  lemma SessionIsNeverMissing(steps: seq<Step>, ch: Channel, packet: Packet, netOk: bool, room: nat)
    requires After(steps).Some? && Open(After(steps).value, ch)
    ensures var node := After(steps).value.nodes[ch];
            if node.phase.Connecting? then Sound(Acknowledge(node, netOk, room))
            else
              && Sound(H.OnPacket(Facing(node, room), packet, netOk))
              && (node.inbox != [] ==> Sound(H.OnMessage(Facing(node, room), node.inbox[0], netOk)))
  {
    RunsKeepInv(steps);
    var w := After(steps).value;
    H.PacketFindsSession(Facing(w.nodes[ch], room), packet, netOk);
    if w.nodes[ch].phase.Ready? && w.nodes[ch].inbox != [] {
      MessageFindsSession(w, ch, netOk, room);
    }
  }

  lemma MessageFindsSession(w: World, ch: Channel, netOk: bool, room: nat)
    requires Inv(w) && Idle(w, ch) && w.nodes[ch].inbox != []
    ensures Sound(H.OnMessage(Facing(w.nodes[ch], room), w.nodes[ch].inbox[0], netOk))
  {
    assert w.nodes[ch].inbox[0] in w.nodes[ch].inbox;
  }

  predicate Sound(o: H.Outcome) {
    o.Fail? ==> o.error != ClientHandlerInvalidState
  }

  // ---------- no message is cut off ----------

  /** A living broker is sent all that a handler has to say: with room for three messages,
      the most a step can need, nothing in the step fails for want of room. */
  lemma ThreeAreEnough(h: H.State, input: H.Input, room: nat)
    requires h.toBroker == [] && room >= 3
    ensures var r := H.Next(H.Running(h.(room := room)), input);
            && |r.h.toBroker| <= 3 && r.h.room == room - |r.h.toBroker|
            && (r.Ended? ==> r.error != Some(BrokerMsgSendFailure))
  {
    match input {
      case Incoming(packet, netOk) => OneIsEnough(h.(room := room), packet, netOk);
      case Message(msg, netOk) => H.MessageKeepsBody(h.(room := room), msg, netOk);
      case _ =>
    }
  }

  lemma OneIsEnough(h: H.State, packet: Packet, netOk: bool)
    requires h.toBroker == [] && h.room >= 3
    ensures var o := H.OnPacket(h, packet, netOk);
            && |o.h.toBroker| <= 1 && o.h.room == h.room - |o.h.toBroker|
            && (o.Fail? ==> o.error != BrokerMsgSendFailure)
  {
  }
}

/** One client handler as a value: how it reacts to packets from its client and to
    messages from the broker, and what it tells the broker over a whole connection. */
module Handler {
  import opened Wrappers
  import opened Mqtt
  import opened Qos

  datatype Conn =
    | Initialized
    | Connected(id: string, lastWill: Option<LastWill>, session: SessionView)

  /** `self` names the handler's own channel. `room` is the number of messages the
      broker will still accept: once its channel is closed it stays closed.
      `toBroker` and `toClient` are what has been delivered and sent so far. */
  datatype State = State(
    self: Channel, conn: Conn, disconnectSeen: bool, room: nat,
    toBroker: seq<BrokerMsg>, toClient: seq<Packet>)

  datatype Outcome = Done(h: State) | Fail(h: State, error: Error)

  function Start(self: Channel, room: nat): State {
    State(self, Initialized, false, room, [], [])
  }

  // ---------- sending ----------

  function SendBroker(h: State, msg: BrokerMsg): Outcome {
    if h.room == 0 then Fail(h, BrokerMsgSendFailure)
    else Done(h.(room := h.room - 1, toBroker := h.toBroker + [msg]))
  }

  /** `netOk` says whether writing to the socket succeeds. */
  function SendClient(h: State, packet: Packet, netOk: bool): Outcome {
    if netOk then Done(h.(toClient := h.toClient + [packet])) else Fail(h, PacketSendFailed)
  }

  function UpdateSession(h: State, pid: Pid, packet: Packet): State
    requires h.conn.Connected?
  {
    h.(conn := h.conn.(session := UpdateQos(h.conn.session, pid, packet)))
  }

  // ---------- packets from the client ----------

  function UpdateState(h: State, packet: Packet): Outcome {
    if h.conn.Connected? then
      if packet.Connect? then Fail(h, MqttProtocolViolation) else Done(h)
    else if packet.Connect? then
      match SendBroker(h, ClientConnected(packet.connect.clientId, h.self))
      case Fail(h', e) => Fail(h', e)
      case Done(h') =>
        Done(h'.(conn := Connected(packet.connect.clientId, packet.connect.lastWill, NEW_SESSION)))
    else Fail(h, MqttProtocolViolation)
  }

  function HandlePublish(h: State, d: PublishData, netOk: bool): Outcome {
    if !h.conn.Connected? then Fail(h, ClientHandlerInvalidState)
    else
      var msg := PublishMsg(h.conn.id, d);
      match d.qospid
      case Qos0 => SendBroker(h, msg)
      case Qos1(pid) => (
        match SendClient(h, Puback(pid), netOk)
        case Fail(h', e) => Fail(h', e)
        case Done(h') => SendBroker(h', msg))
      case Qos2(pid) => (
        match SendClient(UpdateSession(h, pid, Pubrec(pid)), Pubrec(pid), netOk)
        case Fail(h', e) => Fail(h', e)
        case Done(h') => SendBroker(h', msg))
  }

  /** Puback and Pubcomp only move the transaction. */
  function HandleAck(h: State, pid: Pid, packet: Packet): Outcome {
    if h.conn.Connected? then Done(UpdateSession(h, pid, packet)) else Fail(h, ClientHandlerInvalidState)
  }

  /** Pubrec and Pubrel move the transaction, are answered, and the answer moves it again. */
  function HandleAndAnswer(h: State, pid: Pid, packet: Packet, answer: Packet, netOk: bool): Outcome {
    if !h.conn.Connected? then Fail(h, ClientHandlerInvalidState)
    else
      match SendClient(UpdateSession(h, pid, packet), answer, netOk)
      case Fail(h', e) => Fail(h', e)
      case Done(h') => Done(UpdateSession(h', pid, answer))
  }

  function HandleSubscribe(h: State, d: SubscribeData, netOk: bool): Outcome {
    if d.topics == [] then Fail(h, MqttProtocolViolation)
    else
      match SendClient(h, Suback(d.pid, seq(|d.topics|, _ => Success(AtMostOnce))), netOk)
      case Fail(h', e) => Fail(h', e)
      case Done(h') =>
        if h'.conn.Connected? then SendBroker(h', SubscribeMsg(h'.conn.id, d))
        else Fail(h', ClientHandlerInvalidState)
  }

  function HandleUnsubscribe(h: State, d: UnsubscribeData, netOk: bool): Outcome {
    if d.topics == [] then Fail(h, MqttProtocolViolation)
    else if !h.conn.Connected? then Fail(h, ClientHandlerInvalidState)
    else
      match SendBroker(h, UnsubscribeMsg(h.conn.id, d))
      case Fail(h', e) => Fail(h', e)
      case Done(h') => SendClient(h', Unsuback(d.pid), netOk)
  }

  function HandlePacket(h: State, packet: Packet, netOk: bool): Outcome {
    match packet
    case Connect(c) => SendClient(h, Connack(c.mqtt311), netOk)
    case Publish(d) => HandlePublish(h, d, netOk)
    case Puback(pid) => HandleAck(h, pid, packet)
    case Pubrec(pid) => HandleAndAnswer(h, pid, packet, Pubrel(pid), netOk)
    case Pubrel(pid) => HandleAndAnswer(h, pid, packet, Pubcomp(pid), netOk)
    case Pubcomp(pid) => HandleAck(h, pid, packet)
    case Subscribe(d) => HandleSubscribe(h, d, netOk)
    case Unsubscribe(d) => HandleUnsubscribe(h, d, netOk)
    case Pingreq => SendClient(h, Pingresp, netOk)
    case Disconnect => Done(h.(disconnectSeen := true))
    case Connack(_) => Fail(h, MqttProtocolViolation)
    case Suback(_, _) => Fail(h, MqttProtocolViolation)
    case Unsuback(_) => Fail(h, MqttProtocolViolation)
    case Pingresp => Fail(h, MqttProtocolViolation)
  }

  function OnPacket(h: State, packet: Packet, netOk: bool): Outcome {
    match UpdateState(h, packet)
    case Fail(h', e) => Fail(h', e)
    case Done(h') => HandlePacket(h', packet, netOk)
  }

  // ---------- messages from the broker and from itself ----------

  function OnMessage(h: State, msg: BrokerMsg, netOk: bool): Outcome {
    match msg
    case PublishMsg(_, d) => (
      match SendClient(h, Publish(d), netOk)
      case Fail(h', e) => Fail(h', e)
      case Done(h') =>
        if d.qospid.Qos0? then Done(h')
        else if h'.conn.Connected? then Done(UpdateSession(h', d.qospid.pid, Publish(d)))
        else Fail(h', ClientHandlerInvalidState))
    case ClientConnectionTimeout => if h.conn.Connected? then Done(h) else Fail(h, MqttProtocolViolation)
    case QosRetry(_, packet) => SendClient(h, packet, netOk)
    case _ => Done(h)
  }

  // ---------- the end of a connection ----------

  function WillMsg(id: string, will: LastWill): BrokerMsg {
    var qospid := match will.qos
      case AtMostOnce => Qos0
      case AtLeastOnce => Qos1(1)
      case ExactlyOnce => Qos2(1);
    PublishMsg(id, PublishData(false, qospid, will.retain, will.topic, will.message))
  }

  function OnClientDisconnect(h: State): Outcome {
    match h.conn
    case Initialized => Done(h)
    case Connected(id, will, _) =>
      var o := if !h.disconnectSeen && will.Some? then SendBroker(h, WillMsg(id, will.value)) else Done(h);
      match o
      case Fail(h', e) => Fail(h', e)
      case Done(h') => SendBroker(h', ClientDisconnected(id))
  }

  // ---------- whole connections ----------

  /** What the event loop can wake up to. The channel of broker messages never closes
      under a running handler, because the handler holds a sender of it. */
  datatype Input =
    | Incoming(packet: Packet, netOk: bool)
    | PartialData
    | BadData
    | ReceiveError
    | Closed
    | Message(msg: BrokerMsg, netOk: bool)

  datatype Run = Running(h: State) | Ended(h: State, error: Option<Error>)

  /** An error leaves the loop, and the farewell is attempted before it is reported. */
  function Finish(h: State, e: Error): Run {
    match OnClientDisconnect(h)
    case Done(h') => Ended(h', Some(e))
    case Fail(h', e') => Ended(h', Some(e'))
  }

  function Continue(o: Outcome): Run {
    match o
    case Done(h) => Running(h)
    case Fail(h, e) => Finish(h, e)
  }

  function Next(r: Run, input: Input): Run {
    if r.Ended? then r
    else
      match input
      case Incoming(packet, netOk) => Continue(OnPacket(r.h, packet, netOk))
      case PartialData => r
      case BadData => Finish(r.h, InvalidPacket)
      case ReceiveError => Finish(r.h, PacketReceiveFailed)
      case Message(msg, netOk) => Continue(OnMessage(r.h, msg, netOk))
      case Closed =>
        match OnClientDisconnect(r.h)
        case Done(h) => Ended(h, None)
        case Fail(h, e) => Finish(h, e)
  }

  function RunAll(self: Channel, room: nat, inputs: seq<Input>): Run {
    if inputs == [] then Running(Start(self, room))
    else Next(RunAll(self, room, inputs[..|inputs| - 1]), inputs[|inputs| - 1])
  }

  /** The connection ended while handling `inputs[k]`. */
  predicate EndsAt(self: Channel, room: nat, inputs: seq<Input>, k: nat)
    requires k < |inputs|
  {
    RunAll(self, room, inputs[..k]).Running? && RunAll(self, room, inputs[..k + 1]).Ended?
  }

  lemma {:induction false} EndedStays(self: Channel, room: nat, inputs: seq<Input>, k: nat)
    requires k <= |inputs| && RunAll(self, room, inputs[..k]).Ended?
    ensures RunAll(self, room, inputs) == RunAll(self, room, inputs[..k])
  {
    if k == |inputs| {
      assert inputs[..k] == inputs;
    } else {
      var front := inputs[..|inputs| - 1];
      assert front[..k] == inputs[..k];
      EndedStays(self, room, front, k);
    }
  }

  /** A connection ends once. */
  lemma EndsOnce(self: Channel, room: nat, inputs: seq<Input>, j: nat, k: nat)
    requires j < |inputs| && k < |inputs| && EndsAt(self, room, inputs, j) && EndsAt(self, room, inputs, k)
    ensures j == k
  {
    if j != k {
      var a, b := if j < k then j else k, if j < k then k else j;
      var front := inputs[..b];
      assert front[..a + 1] == inputs[..a + 1];
      EndedStays(self, room, front, a + 1);
      assert false;
    }
  }

  // ---------- what the broker hears ----------

  /** A message that passes on a request of client `id`. */
  predicate RequestBy(msg: BrokerMsg, id: string) {
    (msg.PublishMsg? || msg.SubscribeMsg? || msg.UnsubscribeMsg?) && msg.client == id
  }

  /** Nothing before the connection; then the announcement followed by requests only. */
  ghost predicate Body(self: Channel, conn: Conn, log: seq<BrokerMsg>) {
    match conn
    case Initialized => log == []
    case Connected(id, _, _) =>
      && |log| > 0 && log[0] == ClientConnected(id, self)
      && forall i :: 1 <= i < |log| ==> RequestBy(log[i], id)
  }

  /** The publish of a last will, field by field. */
  predicate IsWill(msg: BrokerMsg, id: string, will: LastWill) {
    && msg.PublishMsg? && msg.client == id
    && msg.publish.topicName == will.topic && msg.publish.payload == will.message
    && msg.publish.retain == will.retain && !msg.publish.dup
    && match msg.publish.qospid
       case Qos0 => will.qos == AtMostOnce
       case Qos1(pid) => will.qos == AtLeastOnce && pid == 1
       case Qos2(pid) => will.qos == ExactlyOnce && pid == 1
  }

  /** `msgs` are the farewell that a connection owes the broker, the `whole` of it or a part
      that was cut short: the last will, if there is one and no Disconnect was seen, and then
      the disconnection. A handler that never connected owes nothing. */
  predicate Parting(msgs: seq<BrokerMsg>, conn: Conn, disconnectSeen: bool, whole: bool) {
    match conn
    case Initialized => msgs == []
    case Connected(id, will, _) =>
      var n := if will.Some? && !disconnectSeen then 2 else 1;
      && |msgs| <= n && (whole ==> |msgs| == n)
      && (n == 2 && |msgs| > 0 ==> IsWill(msgs[0], id, will.value))
      && (|msgs| == n ==> msgs[n - 1] == ClientDisconnected(id))
  }

  /** A body followed by as much of the farewell as the broker still accepted. */
  ghost predicate Farewelled(h: State, body: seq<BrokerMsg>) {
    && Body(h.self, h.conn, body)
    && body <= h.toBroker
    && Parting(h.toBroker[|body|..], h.conn, h.disconnectSeen, h.room > 0)
  }

  ghost predicate DisconnectHandled(inputs: seq<Input>) {
    exists i :: 0 <= i < |inputs| && inputs[i].Incoming? && inputs[i].packet == Disconnect
  }

  /** What passing on one input means, said without looking at the handler. */
  function Spoken(self: Channel, id: string, input: Input): seq<BrokerMsg> {
    if !input.Incoming? then []
    else
      match input.packet
      case Connect(_) => [ClientConnected(id, self)]
      case Publish(d) => [PublishMsg(id, d)]
      case Subscribe(d) => [SubscribeMsg(id, d)]
      case Unsubscribe(d) => [UnsubscribeMsg(id, d)]
      case _ => []
  }

  function SpokenAll(self: Channel, id: string, inputs: seq<Input>): seq<BrokerMsg> {
    if inputs == [] then []
    else SpokenAll(self, id, inputs[..|inputs| - 1]) + Spoken(self, id, inputs[|inputs| - 1])
  }

  /** The Connect packet that opened the connection: the first packet, if it is one. */
  function Introduction(inputs: seq<Input>): Option<ConnectData> {
    if inputs == [] then None
    else
      var last := inputs[|inputs| - 1];
      match Introduction(inputs[..|inputs| - 1])
      case Some(c) => Some(c)
      case None => if last.Incoming? && last.packet.Connect? then Some(last.packet.connect) else None
  }

  /** Client id and last will are those of the Connect packet. */
  ghost predicate Introduced(conn: Conn, inputs: seq<Input>) {
    conn.Connected? ==>
      var c := Introduction(inputs);
      c.Some? && conn.id == c.value.clientId && conn.lastWill == c.value.lastWill
  }

  /** A running handler has passed on every request, in order and nothing else. */
  ghost predicate UpToDate(h: State, inputs: seq<Input>) {
    && Body(h.self, h.conn, h.toBroker)
    && (h.disconnectSeen <==> DisconnectHandled(inputs))
    && match h.conn
       case Initialized => forall i :: 0 <= i < |inputs| ==> !inputs[i].Incoming?
       case Connected(id, _, _) => h.toBroker == SpokenAll(h.self, id, inputs)
  }

  lemma PacketKeepsBody(h: State, packet: Packet, netOk: bool)
    requires Body(h.self, h.conn, h.toBroker)
    ensures var o := OnPacket(h, packet, netOk);
            && Body(o.h.self, o.h.conn, o.h.toBroker) && o.h.self == h.self
            && (o.Done? ==> (o.h.disconnectSeen <==> h.disconnectSeen || packet == Disconnect))
            && (o.Fail? ==> o.h.disconnectSeen == h.disconnectSeen)
  {
    PacketSpeaks(h, packet, netOk);
  }

  /** A handled packet is passed on once; one that fails is passed on at most once. */
  lemma PacketSpeaks(h: State, packet: Packet, netOk: bool)
    ensures var o := OnPacket(h, packet, netOk);
            && o.h.self == h.self
            && (o.h.conn.Connected? <==> h.conn.Connected? || o.h.toBroker != h.toBroker)
            && (h.conn.Connected? ==> o.h.conn == h.conn.(session := o.h.conn.session))
            && (o.Done? ==> o.h.conn.Connected?)
            && (o.h.conn.Connected? && (o.Done? || o.h.toBroker != h.toBroker) ==>
                  o.h.toBroker == h.toBroker + Spoken(h.self, o.h.conn.id, Incoming(packet, netOk)))
  {
  }

  /** Whatever packet arrives and whatever state it finds, its handler finds a session. */
  lemma PacketFindsSession(h: State, packet: Packet, netOk: bool)
    ensures OnPacket(h, packet, netOk).Fail? ==> OnPacket(h, packet, netOk).error != ClientHandlerInvalidState
  {
    var o := UpdateState(h, packet);
    if o.Done? && !packet.Connect? {
      assert o.h.conn.Connected?;
    }
  }

  lemma MessageKeepsBody(h: State, msg: BrokerMsg, netOk: bool)
    ensures var o := OnMessage(h, msg, netOk);
            && o.h.toBroker == h.toBroker && o.h.self == h.self && o.h.disconnectSeen == h.disconnectSeen
            && o.h.room == h.room && o.h.conn.Connected? == h.conn.Connected?
            && (h.conn.Connected? ==> o.h.conn == h.conn.(session := o.h.conn.session))
  {
  }

  /** A farewell, or a second attempt at one that was cut short, ends the log properly. */
  lemma GoodbyeExtendsBody(h: State, body: seq<BrokerMsg>)
    requires Body(h.self, h.conn, body) && body <= h.toBroker
    requires h.toBroker == body || (h.room == 0 && Parting(h.toBroker[|body|..], h.conn, h.disconnectSeen, false))
    ensures Farewelled(OnClientDisconnect(h).h, body)
    ensures OnClientDisconnect(h).Fail? ==> OnClientDisconnect(h).h.room == 0
    ensures var h' := OnClientDisconnect(h).h;
            h'.conn == h.conn && h'.self == h.self && h'.disconnectSeen == h.disconnectSeen
  {
  }

  lemma FinishFarewells(h: State, e: Error, body: seq<BrokerMsg>)
    requires Body(h.self, h.conn, body) && body <= h.toBroker
    requires h.toBroker == body || (h.room == 0 && Parting(h.toBroker[|body|..], h.conn, h.disconnectSeen, false))
    ensures Finish(h, e).Ended? && Farewelled(Finish(h, e).h, body)
    ensures var h' := Finish(h, e).h;
            h'.conn == h.conn && h'.self == h.self && h'.disconnectSeen == h.disconnectSeen
  {
    GoodbyeExtendsBody(h, body);
  }

  // ---------- main result ----------

  /** How a connection that ended while handling `inputs[k]` was reported: everything
      before `inputs[k]` in order, perhaps that input too, then the farewell. */
  ghost predicate ReportedUpTo(h: State, inputs: seq<Input>, k: nat, body: seq<BrokerMsg>)
    requires k < |inputs|
  {
    && Farewelled(h, body)
    && (h.disconnectSeen <==> DisconnectHandled(inputs[..k]))
    && match h.conn
       case Initialized => true
       case Connected(id, _, _) =>
         body == SpokenAll(h.self, id, inputs[..k]) || body == SpokenAll(h.self, id, inputs[..k + 1])
  }

  /** What the broker has heard of a connection that is now at `r`. */
  ghost predicate Heard(self: Channel, room: nat, inputs: seq<Input>, r: Run) {
    if r.Running? then UpToDate(r.h, inputs)
    else
      exists k: nat, body | k < |inputs| ::
        EndsAt(self, room, inputs, k) && ReportedUpTo(r.h, inputs, k, body)
  }

  lemma PrefixOfPrefix(inputs: seq<Input>, n: nat, k: nat)
    requires k <= n <= |inputs|
    ensures inputs[..n][..k] == inputs[..k]
  {
  }

  lemma ReportedBefore(self: Channel, room: nat, h: State, inputs: seq<Input>, n: nat, k: nat, body: seq<BrokerMsg>)
    requires k < n <= |inputs| && EndsAt(self, room, inputs[..n], k) && ReportedUpTo(h, inputs[..n], k, body)
    ensures EndsAt(self, room, inputs, k) && ReportedUpTo(h, inputs, k, body)
  {
    PrefixOfPrefix(inputs, n, k);
    PrefixOfPrefix(inputs, n, k + 1);
  }

  lemma HeardBefore(self: Channel, room: nat, inputs: seq<Input>, n: nat, r: Run)
    requires n <= |inputs| && r.Ended? && Heard(self, room, inputs[..n], r)
    ensures Heard(self, room, inputs, r)
  {
    var k: nat, body :| k < n && EndsAt(self, room, inputs[..n], k) && ReportedUpTo(r.h, inputs[..n], k, body);
    ReportedBefore(self, room, r.h, inputs, n, k, body);
  }

  lemma HeardNow(self: Channel, room: nat, inputs: seq<Input>)
    requires inputs != [] && RunAll(self, room, inputs[..|inputs| - 1]).Running?
    requires UpToDate(RunAll(self, room, inputs[..|inputs| - 1]).h, inputs[..|inputs| - 1])
    ensures var r := RunAll(self, room, inputs);
            r.h.self == RunAll(self, room, inputs[..|inputs| - 1]).h.self && Heard(self, room, inputs, r)
  {
    var n := |inputs| - 1;
    StepReports(RunAll(self, room, inputs[..n]).h, inputs[..n], inputs[n]);
    assert inputs[..n] + [inputs[n]] == inputs && inputs[..n + 1] == inputs;
    var r := RunAll(self, room, inputs);
    if r.Ended? {
      var body :| ReportedUpTo(r.h, inputs, n, body);
      assert EndsAt(self, room, inputs, n);
    }
  }

  lemma {:induction false} RunsAreHeard(self: Channel, room: nat, inputs: seq<Input>)
    ensures RunAll(self, room, inputs).h.self == self && Heard(self, room, inputs, RunAll(self, room, inputs))
  {
    if inputs != [] {
      var prefix := inputs[..|inputs| - 1];
      RunsAreHeard(self, room, prefix);
      if RunAll(self, room, prefix).Running? {
        HeardNow(self, room, inputs);
      } else {
        HeardBefore(self, room, inputs, |inputs| - 1, RunAll(self, room, prefix));
      }
    }
  }

  /** On every connection: while it runs, the broker has been told of the connection and
      of each request, in order; when it ends, that is followed by the last will, if there
      is one and no Disconnect was handled, and then by the disconnection, both present
      whenever the broker still accepts messages. Client id and last will are those of the
      Connect packet. */
  lemma BrokerHearsEverything(self: Channel, room: nat, inputs: seq<Input>)
    ensures var r := RunAll(self, room, inputs);
            r.h.self == self && Introduced(r.h.conn, inputs) && Heard(self, room, inputs, r)
  {
    RunsAreHeard(self, room, inputs);
    ConnectIntroduces(self, room, inputs);
  }

  /** What a step does to client id and last will: nothing, unless it is the Connect packet
      of a handler that is not connected. */
  lemma StepIntroduces(r: Run, input: Input)
    ensures var conn, conn' := r.h.conn, Next(r, input).h.conn;
            if conn.Connected? then conn'.Connected? && conn'.id == conn.id && conn'.lastWill == conn.lastWill
            else conn'.Connected? ==>
                   && r.Running? && input.Incoming? && input.packet.Connect?
                   && conn'.id == input.packet.connect.clientId && conn'.lastWill == input.packet.connect.lastWill
  {
    if r.Running? {
      match input {
        case Incoming(packet, netOk) =>
          PacketSpeaks(r.h, packet, netOk);
          FarewellKeepsConn(OnPacket(r.h, packet, netOk).h);
        case Message(msg, netOk) =>
          MessageKeepsBody(r.h, msg, netOk);
          FarewellKeepsConn(OnMessage(r.h, msg, netOk).h);
        case _ =>
          FarewellKeepsConn(r.h);
          FarewellKeepsConn(OnClientDisconnect(r.h).h);
      }
    }
  }

  lemma FarewellKeepsConn(h: State)
    ensures OnClientDisconnect(h).h.conn == h.conn
    ensures forall e :: Finish(h, e).h.conn == h.conn
  {
  }

  /** No packet comes before the Connect of a running connection, so it is the first. */
  lemma {:induction false} ConnectIntroduces(self: Channel, room: nat, inputs: seq<Input>)
    ensures var r := RunAll(self, room, inputs);
            && Introduced(r.h.conn, inputs)
            && (r.Running? && r.h.conn.Initialized? ==> Introduction(inputs) == None)
  {
    if inputs != [] {
      var n := |inputs| - 1;
      ConnectIntroduces(self, room, inputs[..n]);
      var before := RunAll(self, room, inputs[..n]);
      StepIntroduces(before, inputs[n]);
      if before.Running? && before.h.conn.Initialized? && inputs[n].Incoming? {
        PacketSpeaks(before.h, inputs[n].packet, inputs[n].netOk);
      }
    }
  }

  lemma StepReports(h: State, prefix: seq<Input>, input: Input)
    requires UpToDate(h, prefix)
    ensures var r := Next(Running(h), input);
            var inputs := prefix + [input];
            && r.h.self == h.self
            && (r.Running? ==> UpToDate(r.h, inputs))
            && (r.Ended? ==> exists body :: ReportedUpTo(r.h, inputs, |prefix|, body))
  {
    var inputs := prefix + [input];
    assert inputs[..|prefix|] == prefix && inputs[..|prefix| + 1] == inputs;
    match input {
      case Incoming(packet, netOk) => PacketReports(h, prefix, packet, netOk);
      case PartialData => SilentInput(h, prefix, input);
      case BadData =>
        FinishFarewells(h, InvalidPacket, h.toBroker);
        assert ReportedUpTo(Finish(h, InvalidPacket).h, inputs, |prefix|, h.toBroker);
      case ReceiveError =>
        FinishFarewells(h, PacketReceiveFailed, h.toBroker);
        assert ReportedUpTo(Finish(h, PacketReceiveFailed).h, inputs, |prefix|, h.toBroker);
      case Message(msg, netOk) =>
        var o := OnMessage(h, msg, netOk);
        MessageKeepsBody(h, msg, netOk);
        if o.Done? {
          SilentInput(o.h, prefix, input);
        } else {
          FinishFarewells(o.h, o.error, h.toBroker);
          assert ReportedUpTo(Finish(o.h, o.error).h, inputs, |prefix|, h.toBroker);
        }
      case Closed =>
        var o := OnClientDisconnect(h);
        GoodbyeExtendsBody(h, h.toBroker);
        if o.Fail? {
          FinishFarewells(o.h, o.error, h.toBroker);
          assert ReportedUpTo(Finish(o.h, o.error).h, inputs, |prefix|, h.toBroker);
        } else {
          assert ReportedUpTo(o.h, inputs, |prefix|, h.toBroker);
        }
    }
  }

  lemma SilentInput(h: State, prefix: seq<Input>, input: Input)
    requires UpToDate(h, prefix) && !input.Incoming?
    ensures UpToDate(h, prefix + [input])
  {
    assert (prefix + [input])[..|prefix|] == prefix;
    DisconnectSoFar(prefix, input);
  }

  lemma DisconnectSoFar(prefix: seq<Input>, input: Input)
    ensures DisconnectHandled(prefix + [input])
            <==> DisconnectHandled(prefix) || (input.Incoming? && input.packet == Disconnect)
  {
    var inputs := prefix + [input];
    if i :| 0 <= i < |prefix| && prefix[i].Incoming? && prefix[i].packet == Disconnect {
      assert inputs[i] == prefix[i];
    }
    assert inputs[|prefix|] == input;
  }

  lemma PacketReports(h: State, prefix: seq<Input>, packet: Packet, netOk: bool)
    requires UpToDate(h, prefix)
    ensures var r := Continue(OnPacket(h, packet, netOk));
            var inputs := prefix + [Incoming(packet, netOk)];
            && r.h.self == h.self
            && (r.Running? ==> UpToDate(r.h, inputs))
            && (r.Ended? ==> exists body :: ReportedUpTo(r.h, inputs, |prefix|, body))
  {
    var input := Incoming(packet, netOk);
    var inputs := prefix + [input];
    assert inputs[..|prefix|] == prefix && inputs[..|prefix| + 1] == inputs;
    var o := OnPacket(h, packet, netOk);
    PacketKeepsBody(h, packet, netOk);
    PacketSpeaks(h, packet, netOk);
    DisconnectSoFar(prefix, input);
    if h.conn.Initialized? && o.h.conn.Connected? {
      NothingSpoken(h.self, o.h.conn.id, prefix);
    }
    if o.Fail? {
      FinishFarewells(o.h, o.error, o.h.toBroker);
      assert ReportedUpTo(Finish(o.h, o.error).h, inputs, |prefix|, o.h.toBroker);
    }
  }

  lemma {:induction false} NothingSpoken(self: Channel, id: string, inputs: seq<Input>)
    requires forall i :: 0 <= i < |inputs| ==> !inputs[i].Incoming?
    ensures SpokenAll(self, id, inputs) == []
  {
    if inputs != [] {
      NothingSpoken(self, id, inputs[..|inputs| - 1]);
    }
  }
}

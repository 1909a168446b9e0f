/** Which inputs a connection survives, and with what error it ends at one it does not. */
module Survival {
  import opened Wrappers
  import opened Mqtt
  import opened Handler
  import A = Answers

  // ---------- one input ----------

  /** The protocol violations: anything before the Connect packet and a second one after it, the
      packets that only a server sends, and a subscription or its end without any topic. */
  predicate Violates(connected: bool, packet: Packet) {
    || packet.Connect? == connected
    || packet.Connack? || packet.Suback? || packet.Unsuback? || packet.Pingresp?
    || (packet.Subscribe? && packet.subscribe.topics == [])
    || (packet.Unsubscribe? && packet.unsubscribe.topics == [])
  }

  /** The packets of which the broker is told. */
  predicate ForBroker(packet: Packet) {
    packet.Connect? || packet.Publish? || packet.Subscribe? || packet.Unsubscribe?
  }

  /** What a handler survives, given whether it is connected and how many messages the broker
      still accepts: every packet that is no violation, if the broker can be told and the
      answer can be sent; and every message that can be passed on. A connection timeout ends
      exactly a handler that is not connected. */
  predicate Survives(connected: bool, room: nat, input: Input) {
    match input
    case Incoming(packet, netOk) =>
      !Violates(connected, packet) && (ForBroker(packet) ==> room > 0) && (A.NeedsReply(packet) ==> netOk)
    case PartialData => true
    case BadData => false
    case ReceiveError => false
    case Closed => false
    case Message(PublishMsg(_, d), netOk) => netOk && (connected || d.qospid.Qos0?)
    case Message(QosRetry(_, _), netOk) => netOk
    case Message(ClientConnectionTimeout, _) => connected
    case Message(_, _) => true
  }

  lemma PacketSurvives(h: State, packet: Packet, netOk: bool)
    ensures var o := OnPacket(h, packet, netOk);
            && (o.Done? <==> Survives(h.conn.Connected?, h.room, Incoming(packet, netOk)))
            && (o.Done? ==> o.h.conn.Connected? && o.h.room == h.room - if ForBroker(packet) then 1 else 0)
  {
  }

  lemma MessageSurvives(h: State, msg: BrokerMsg, netOk: bool)
    ensures var o := OnMessage(h, msg, netOk);
            && (o.Done? <==> Survives(h.conn.Connected?, h.room, Message(msg, netOk)))
            && o.h.room == h.room && o.h.conn.Connected? == h.conn.Connected?
  {
  }

  lemma InputSurvives(h: State, input: Input)
    ensures var r := Next(Running(h), input);
            && (r.Running? <==> Survives(h.conn.Connected?, h.room, input))
            && (r.Running? ==>
                  && r.h.room == h.room - (if input.Incoming? && ForBroker(input.packet) then 1 else 0)
                  && (r.h.conn.Connected? <==> h.conn.Connected? || input.Incoming?))
  {
    match input {
      case Incoming(packet, netOk) => PacketSurvives(h, packet, netOk);
      case Message(msg, netOk) => MessageSurvives(h, msg, netOk);
      case _ =>
    }
  }

  // ---------- whole connections ----------

  /** The number of messages that the inputs have for the broker. */
  function Said(inputs: seq<Input>): nat {
    if inputs == [] then 0
    else
      var last := inputs[|inputs| - 1];
      Said(inputs[..|inputs| - 1]) + if last.Incoming? && ForBroker(last.packet) then 1 else 0
  }

  /** Every input so far could be survived, judged by the inputs before it alone. */
  predicate AllSurvive(room: nat, inputs: seq<Input>) {
    inputs == [] ||
    var front, last := inputs[..|inputs| - 1], inputs[|inputs| - 1];
    && AllSurvive(room, front) && Said(front) <= room
    && Survives(Introduction(front).Some?, room - Said(front), last)
  }

  /** A connection is running exactly when every input so far was one to survive. */
  lemma {:induction false} RunningExactly(self: Channel, room: nat, inputs: seq<Input>)
    ensures var r := RunAll(self, room, inputs);
            && (r.Running? <==> AllSurvive(room, inputs))
            && (r.Running? ==> Said(inputs) <= room && r.h.room == room - Said(inputs))
            && (r.Running? ==> (r.h.conn.Connected? <==> Introduction(inputs).Some?))
  {
    if inputs != [] {
      var n := |inputs| - 1;
      RunningExactly(self, room, inputs[..n]);
      var before := RunAll(self, room, inputs[..n]);
      if before.Running? {
        InputSurvives(before.h, inputs[n]);
      }
    }
  }

  // ---------- how it ends ----------

  /** Connect and Unsubscribe are passed on before they are answered. */
  predicate BrokerFirst(packet: Packet) {
    packet.Connect? || packet.Unsubscribe?
  }

  /** Why an input ends the connection; a closed socket is no error. */
  function Cause(connected: bool, room: nat, input: Input): Option<Error> {
    match input
    case Incoming(packet, netOk) => Some(
      if Violates(connected, packet) then MqttProtocolViolation
      else if BrokerFirst(packet) then if room == 0 then BrokerMsgSendFailure else PacketSendFailed
      else if A.NeedsReply(packet) && !netOk then PacketSendFailed
      else BrokerMsgSendFailure)
    case BadData => Some(InvalidPacket)
    case ReceiveError => Some(PacketReceiveFailed)
    case Message(ClientConnectionTimeout, _) => Some(MqttProtocolViolation)
    case Message(_, netOk) => Some(if netOk then ClientHandlerInvalidState else PacketSendFailed)
    case _ => None
  }

  /** An input that ends the connection may still have been passed on. */
  function SaidAnyway(connected: bool, room: nat, input: Input): nat {
    if input.Incoming? && !Violates(connected, input.packet) && BrokerFirst(input.packet) && room > 0 then 1 else 0
  }

  /** The number of messages in the farewell. */
  function Owed(conn: Conn, disconnectSeen: bool): nat {
    match conn
    case Initialized => 0
    case Connected(_, will, _) => if will.Some? && !disconnectSeen then 2 else 1
  }

  /** The error of the cause, unless the broker does not take the whole farewell. */
  ghost predicate EndsWith(r: Run, connected: bool, room: nat, input: Input) {
    && r.Ended?
    && r.error == if SaidAnyway(connected, room, input) + Owed(r.h.conn, r.h.disconnectSeen) <= room
                  then Cause(connected, room, input) else Some(BrokerMsgSendFailure)
  }

  lemma PacketFails(h: State, packet: Packet, netOk: bool)
    requires OnPacket(h, packet, netOk).Fail?
    ensures var o, input := OnPacket(h, packet, netOk), Incoming(packet, netOk);
            && Some(o.error) == Cause(h.conn.Connected?, h.room, input)
            && o.h.room == h.room - SaidAnyway(h.conn.Connected?, h.room, input)
  {
  }

  lemma MessageFails(h: State, msg: BrokerMsg, netOk: bool)
    requires OnMessage(h, msg, netOk).Fail?
    ensures Some(OnMessage(h, msg, netOk).error) == Cause(h.conn.Connected?, h.room, Message(msg, netOk))
    ensures OnMessage(h, msg, netOk).h.room == h.room
  {
  }

  lemma FarewellError(h: State, e: Error)
    ensures var o, enough := OnClientDisconnect(h), Owed(h.conn, h.disconnectSeen) <= h.room;
            && o.h.conn == h.conn && o.h.disconnectSeen == h.disconnectSeen
            && (o.Done? <==> enough) && (o.Fail? ==> o.error == BrokerMsgSendFailure && o.h.room == 0)
    ensures var r, enough := Finish(h, e), Owed(h.conn, h.disconnectSeen) <= h.room;
            && r.h.conn == h.conn && r.h.disconnectSeen == h.disconnectSeen
            && r.error == Some(if enough then e else BrokerMsgSendFailure)
  {
  }

  lemma StepEndsWithCause(h: State, input: Input)
    requires Next(Running(h), input).Ended?
    ensures EndsWith(Next(Running(h), input), h.conn.Connected?, h.room, input)
  {
    match input {
      case Incoming(packet, netOk) =>
        PacketFails(h, packet, netOk);
        FarewellError(OnPacket(h, packet, netOk).h, OnPacket(h, packet, netOk).error);
      case Message(msg, netOk) =>
        MessageFails(h, msg, netOk);
        FarewellError(OnMessage(h, msg, netOk).h, OnMessage(h, msg, netOk).error);
      case BadData => FarewellError(h, InvalidPacket);
      case ReceiveError => FarewellError(h, PacketReceiveFailed);
      case _ =>
        FarewellError(h, BrokerMsgSendFailure);
        FarewellError(OnClientDisconnect(h).h, BrokerMsgSendFailure);
    }
  }

  /** All inputs before `k` were to be survived, `k` was not, and the error says why. */
  ghost predicate EndedAtCause(room: nat, inputs: seq<Input>, k: nat, r: Run)
    requires k < |inputs|
  {
    var front := inputs[..k];
    && AllSurvive(room, front) && Said(front) <= room
    && !Survives(Introduction(front).Some?, room - Said(front), inputs[k])
    && EndsWith(r, Introduction(front).Some?, room - Said(front), inputs[k])
  }

  /** A connection ends at the first input it does not survive, with the error of that cause
      or, if the broker does not take the farewell, with the failure to send it. */
  lemma EndsForCause(self: Channel, room: nat, inputs: seq<Input>, k: nat)
    requires k < |inputs| && EndsAt(self, room, inputs, k)
    ensures EndedAtCause(room, inputs, k, RunAll(self, room, inputs))
  {
    var front, upTo := inputs[..k], inputs[..k + 1];
    assert upTo[..k] == front;
    RunningExactly(self, room, front);
    var h := RunAll(self, room, front).h;
    InputSurvives(h, inputs[k]);
    StepEndsWithCause(h, inputs[k]);
    EndedStays(self, room, inputs, k + 1);
  }
}

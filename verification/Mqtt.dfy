/** MQTT control packets and the messages exchanged inside the broker.
    Packets are values: encoding and decoding are not part of this model. */
module Mqtt {
  import opened Wrappers

  datatype Error =
    | BrokerMsgSendFailure
    | ClientHandlerInvalidState
    | InvalidPacket
    | MqttProtocolViolation
    | PacketSendFailed
    | PacketReceiveFailed

  datatype Result<+T> = Ok(value: T) | Err(error: Error)

  /** A non-zero 16-bit packet identifier. */
  type Pid = p: int | 1 <= p <= 0xFFFF witness 1

  newtype Byte = b: int | 0 <= b < 256

  datatype QoS = AtMostOnce | AtLeastOnce | ExactlyOnce

  /** A quality of service level together with the packet id it needs. */
  datatype QosPid = Qos0 | Qos1(pid: Pid) | Qos2(pid: Pid)

  datatype PublishData = PublishData(
    dup: bool, qospid: QosPid, retain: bool, topicName: string, payload: seq<Byte>)

  datatype LastWill = LastWill(topic: string, message: seq<Byte>, qos: QoS, retain: bool)

  /** `mqtt311` says whether the protocol field is MQTT 3.1.1. The keep-alive,
      clean-session and credential fields are never read by the broker. */
  datatype ConnectData = ConnectData(mqtt311: bool, clientId: string, lastWill: Option<LastWill>)

  datatype SubscribeTopic = SubscribeTopic(topicPath: string, qos: QoS)

  datatype SubscribeData = SubscribeData(pid: Pid, topics: seq<SubscribeTopic>)

  datatype UnsubscribeData = UnsubscribeData(pid: Pid, topics: seq<string>)

  datatype ReturnCode = Success(qos: QoS) | Failure

  datatype Packet =
    | Connect(connect: ConnectData)
    | Connack(accepted: bool)
    | Publish(publish: PublishData)
    | Puback(pid: Pid)
    | Pubrec(pid: Pid)
    | Pubrel(pid: Pid)
    | Pubcomp(pid: Pid)
    | Subscribe(subscribe: SubscribeData)
    | Suback(pid: Pid, codes: seq<ReturnCode>)
    | Unsubscribe(unsubscribe: UnsubscribeData)
    | Unsuback(pid: Pid)
    | Pingreq
    | Pingresp
    | Disconnect

  /** The packet id of the QoS transaction a packet belongs to, if any. */
  function TxnPid(packet: Packet): Option<Pid> {
    match packet
    case Publish(d) => if d.qospid.Qos0? then None else Some(d.qospid.pid)
    case Puback(p) => Some(p)
    case Pubrec(p) => Some(p)
    case Pubrel(p) => Some(p)
    case Pubcomp(p) => Some(p)
    case _ => None
  }

  /** Names the receiving end of one client handler's message channel. */
  type Channel = nat

  /** Messages between the shared broker state and the client handlers. */
  datatype BrokerMsg =
    | ClientConnected(client: string, clientTx: Channel)
    | ClientConnectionTimeout
    | ClientDisconnected(client: string)
    | PublishMsg(client: string, publish: PublishData)
    | SubscribeMsg(client: string, subscribe: SubscribeData)
    | UnsubscribeMsg(client: string, unsubscribe: UnsubscribeData)
    | QosRetry(client: string, packet: Packet)
}

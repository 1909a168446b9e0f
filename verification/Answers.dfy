/** What the client hears over a whole connection: each request's answer, in order, and in
    between whatever the broker and the retry tasks had for it. */
module Answers {
  import opened Mqtt
  import opened Handler

  /** The packet that the protocol answers a client's packet with. Section 4.3 of MQTT 3.1.1
      gives the acknowledgements; Disconnect, Puback and Pubcomp have none. */
  predicate Replies(packet: Packet, reply: Packet) {
    match reply
    case Connack(accepted) => packet.Connect? && packet.connect.mqtt311 == accepted
    case Puback(pid) => packet.Publish? && packet.publish.qospid == Qos1(pid)
    case Pubrec(pid) => packet.Publish? && packet.publish.qospid == Qos2(pid)
    case Pubrel(pid) => packet == Pubrec(pid)
    case Pubcomp(pid) => packet == Pubrel(pid)
    case Suback(pid, codes) =>
      && packet.Subscribe? && packet.subscribe.pid == pid && |codes| == |packet.subscribe.topics|
      && forall i :: 0 <= i < |codes| ==> codes[i] == Success(AtMostOnce)
    case Unsuback(pid) => packet.Unsubscribe? && packet.unsubscribe.pid == pid
    case Pingresp => packet == Pingreq
    case _ => false
  }

  predicate NeedsReply(packet: Packet) {
    match packet
    case Publish(d) => !d.qospid.Qos0?
    case Puback(_) => false
    case Pubcomp(_) => false
    case Disconnect => false
    case _ => true
  }

  /** `sent` is what one input makes the handler send to its client when nothing fails. */
  predicate Answered(input: Input, sent: seq<Packet>) {
    match input
    case Incoming(packet, _) => if NeedsReply(packet) then |sent| == 1 && Replies(packet, sent[0]) else sent == []
    case Message(PublishMsg(_, d), _) => sent == [Publish(d)]
    case Message(QosRetry(_, packet), _) => sent == [packet]
    case _ => sent == []
  }

  /** `sent` answers the inputs one by one, in their order. */
  ghost predicate AnsweredAll(inputs: seq<Input>, sent: seq<Packet>) {
    if inputs == [] then sent == []
    else
      var n := |inputs| - 1;
      || (AnsweredAll(inputs[..n], sent) && Answered(inputs[n], []))
      || (sent != [] && AnsweredAll(inputs[..n], sent[..|sent| - 1]) && Answered(inputs[n], [sent[|sent| - 1]]))
  }

  /** One more input, and what it adds. */
  lemma AnsweredOneMore(inputs: seq<Input>, sent: seq<Packet>, input: Input, more: seq<Packet>)
    requires AnsweredAll(inputs, sent) && Answered(input, more) && |more| <= 1
    ensures AnsweredAll(inputs + [input], sent + more)
  {
    assert (inputs + [input])[..|inputs|] == inputs;
    if more == [] {
      assert sent + more == sent;
    } else {
      assert (sent + more)[..|sent|] == sent;
    }
  }

  lemma PacketAnswered(h: State, packet: Packet, netOk: bool) returns (more: seq<Packet>)
    ensures var o := OnPacket(h, packet, netOk);
            && |more| <= 1 && o.h.toClient == h.toClient + more
            && (o.Done? || more != [] ==> Answered(Incoming(packet, netOk), more))
  {
    more := if OnPacket(h, packet, netOk).h.toClient == h.toClient then [] else [AnswerTo(packet)];
    if packet.Publish? || packet.Subscribe? || packet.Unsubscribe? {
      RequestAnswered(h, packet, netOk);
    } else {
      OtherAnswered(h, packet, netOk);
    }
    assert h.toClient + [] == h.toClient;
  }

  /** The answer in full; for a packet that has none, any. */
  function AnswerTo(packet: Packet): Packet {
    match packet
    case Connect(c) => Connack(c.mqtt311)
    case Publish(d) => if d.qospid.Qos1? then Puback(d.qospid.pid) else if d.qospid.Qos2? then Pubrec(d.qospid.pid) else packet
    case Pubrec(pid) => Pubrel(pid)
    case Pubrel(pid) => Pubcomp(pid)
    case Subscribe(d) => Suback(d.pid, seq(|d.topics|, _ => Success(AtMostOnce)))
    case Unsubscribe(d) => Unsuback(d.pid)
    case _ => Pingresp
  }

  /** Nothing was sent, or the one packet that answers. */
  predicate SentAnswer(h: State, o: Outcome, packet: Packet, netOk: bool) {
    || (o.h.toClient == h.toClient && (o.Done? ==> !NeedsReply(packet)))
    || (o.h.toClient == h.toClient + [AnswerTo(packet)] && Answered(Incoming(packet, netOk), [AnswerTo(packet)]))
  }

  lemma RequestAnswered(h: State, packet: Packet, netOk: bool)
    requires packet.Publish? || packet.Subscribe? || packet.Unsubscribe?
    ensures SentAnswer(h, OnPacket(h, packet, netOk), packet, netOk)
  {
  }

  lemma OtherAnswered(h: State, packet: Packet, netOk: bool)
    requires !packet.Publish? && !packet.Subscribe? && !packet.Unsubscribe?
    ensures SentAnswer(h, OnPacket(h, packet, netOk), packet, netOk)
  {
  }

  lemma MessageAnswered(h: State, msg: BrokerMsg, netOk: bool) returns (more: seq<Packet>)
    ensures var o := OnMessage(h, msg, netOk);
            && |more| <= 1 && o.h.toClient == h.toClient + more
            && (o.Done? || more != [] ==> Answered(Message(msg, netOk), more))
  {
    var o := OnMessage(h, msg, netOk);
    assert o.h.toClient == h.toClient || (|o.h.toClient| == |h.toClient| + 1 && h.toClient <= o.h.toClient);
    more := o.h.toClient[|h.toClient|..];
    assert o.h.toClient == h.toClient + more;
  }

  /** The farewell is for the broker only. */
  lemma FarewellIsSilent(h: State)
    ensures OnClientDisconnect(h).h.toClient == h.toClient
    ensures forall e :: Finish(h, e).h.toClient == h.toClient
  {
  }

  lemma InputAnswered(h: State, input: Input) returns (more: seq<Packet>)
    ensures var r := Next(Running(h), input);
            && |more| <= 1 && r.h.toClient == h.toClient + more
            && (r.Running? || more != [] ==> Answered(input, more))
  {
    more := [];
    assert h.toClient + [] == h.toClient;
    match input {
      case Incoming(packet, netOk) =>
        more := PacketAnswered(h, packet, netOk);
        FarewellIsSilent(OnPacket(h, packet, netOk).h);
      case Message(msg, netOk) =>
        more := MessageAnswered(h, msg, netOk);
        FarewellIsSilent(OnMessage(h, msg, netOk).h);
      case _ =>
        FarewellIsSilent(h);
        FarewellIsSilent(OnClientDisconnect(h).h);
    }
  }

  /** The connection ended at input `k`: all before it were answered, and perhaps it too. */
  ghost predicate AnsweredUpTo(inputs: seq<Input>, k: nat, sent: seq<Packet>)
    requires k < |inputs|
  {
    AnsweredAll(inputs[..k], sent) || AnsweredAll(inputs[..k + 1], sent)
  }

  /** On every connection: while it runs, each input has been answered as the protocol says,
      once and in order, and nothing else was sent; when it ends, so have all inputs before
      the one that ended it and perhaps that one. */
  lemma {:induction false} ClientHearsEverything(self: Channel, room: nat, inputs: seq<Input>)
    ensures var r := RunAll(self, room, inputs);
            && (r.Running? ==> AnsweredAll(inputs, r.h.toClient))
            && (r.Ended? ==> exists k: nat | k < |inputs| ::
                  EndsAt(self, room, inputs, k) && AnsweredUpTo(inputs, k, r.h.toClient))
  {
    if inputs != [] {
      var n := |inputs| - 1;
      var prefix := inputs[..n];
      ClientHearsEverything(self, room, prefix);
      var before := RunAll(self, room, prefix);
      if before.Running? {
        var more := InputAnswered(before.h, inputs[n]);
        assert inputs == prefix + [inputs[n]] && inputs[..n + 1] == inputs;
        if Answered(inputs[n], more) {
          AnsweredOneMore(prefix, before.h.toClient, inputs[n], more);
        } else {
          assert before.h.toClient + [] == before.h.toClient;
        }
        var r := RunAll(self, room, inputs);
        assert r.Ended? ==> EndsAt(self, room, inputs, n) && AnsweredUpTo(inputs, n, r.h.toClient);
      } else {
        var k: nat :| k < |prefix| && EndsAt(self, room, prefix, k) && AnsweredUpTo(prefix, k, before.h.toClient);
        assert prefix[..k] == inputs[..k] && prefix[..k + 1] == inputs[..k + 1];
        assert EndsAt(self, room, inputs, k) && AnsweredUpTo(inputs, k, before.h.toClient);
      }
    }
  }
}

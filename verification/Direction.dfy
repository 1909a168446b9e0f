/** Which way a transaction runs can be read off its tracker. */
module Direction {
  import opened Mqtt
  import opened Qos
  import opened Handler

  lemma UpdateKeepsSession(v: SessionView, pid: Pid, packet: Packet)
    requires WellKeyed(v) && Coupled(v) && HandlerCall(pid, packet)
    ensures WellKeyed(UpdateQos(v, pid, packet)) && Coupled(UpdateQos(v, pid, packet))
  {
    UpdateKeepsKeys(v, pid, packet);
    UpdateKeepsCoupling(v, pid, packet);
  }

  /** After a Pubrec has been handled its pid is tracked as a Pubrel, or as the QoS 1
      publish it did not answer, whatever it was before. */
  lemma AfterPubrec(v: SessionView, pid: Pid)
    requires WellKeyed(v) && Coupled(v)
    ensures var v' := UpdateQos(UpdateQos(v, pid, Pubrec(pid)), pid, Pubrel(pid));
            && WellKeyed(v') && Coupled(v') && pid in v'.txns
            && (v'.txns[pid].state == Pubrel(pid)
                || (v'.txns[pid].state.Publish? && v'.txns[pid].state.publish.qospid == Qos1(pid)
                    && pid in v.txns && v.txns[pid].state == v'.txns[pid].state))
  {
    UpdateKeepsSession(v, pid, Pubrec(pid));
    UpdateKeepsSession(UpdateQos(v, pid, Pubrec(pid)), pid, Pubrel(pid));
  }

  /** After a Pubrel has been handled its pid is untracked, or still the publish it was. */
  lemma AfterPubrel(v: SessionView, pid: Pid)
    requires WellKeyed(v) && Coupled(v)
    ensures var v' := UpdateQos(UpdateQos(v, pid, Pubrel(pid)), pid, Pubcomp(pid));
            && WellKeyed(v') && Coupled(v')
            && (pid in v'.txns <==> pid in v.txns && v.txns[pid].state.Publish?)
            && (pid in v'.txns ==> v'.txns[pid].state == v.txns[pid].state)
  {
    UpdateKeepsSession(v, pid, Pubrel(pid));
    UpdateKeepsSession(UpdateQos(v, pid, Pubrel(pid)), pid, Pubcomp(pid));
  }

  // ---------- separate pids for the two directions ----------

  /** What the client publishes or releases uses `inbound`; what is forwarded to it, and
      its acknowledgements of that, use `outbound`. */
  predicate Separated(input: Input, inbound: set<Pid>, outbound: set<Pid>) {
    match input
    case Incoming(Publish(d), _) => d.qospid.Qos0? || d.qospid.pid in inbound
    case Incoming(Pubrel(p), _) => p in inbound
    case Incoming(Puback(p), _) => p in outbound
    case Incoming(Pubrec(p), _) => p in outbound
    case Incoming(Pubcomp(p), _) => p in outbound
    case Message(PublishMsg(_, d), _) => d.qospid.Qos0? || d.qospid.pid in outbound
    case _ => true
  }

  /** Inbound transactions are exactly the Pubrec trackers, outbound ones exactly the
      Publish and Pubrel trackers. */
  ghost predicate Directed(v: SessionView, inbound: set<Pid>, outbound: set<Pid>) {
    && WellKeyed(v) && Coupled(v)
    && forall pid :: pid in v.txns ==>
         && (pid in inbound <==> v.txns[pid].state.Pubrec?)
         && (pid in outbound <==> v.txns[pid].state.Publish? || v.txns[pid].state.Pubrel?)
  }

  ghost predicate DirectedState(h: State, inbound: set<Pid>, outbound: set<Pid>) {
    h.conn.Connected? ==> Directed(h.conn.session, inbound, outbound)
  }

  /** Only `pid` changed, and it ended up in a state of the right direction. */
  lemma DirectedAt(v: SessionView, v': SessionView, pid: Pid, inbound: set<Pid>, outbound: set<Pid>)
    requires Directed(v, inbound, outbound) && WellKeyed(v') && Coupled(v') && inbound !! outbound
    requires forall q :: q != pid ==>
               && (q in v'.txns <==> q in v.txns)
               && (q in v.txns ==> v'.txns[q] == v.txns[q])
    requires pid in v'.txns ==>
               || (pid in inbound && v'.txns[pid].state.Pubrec?)
               || (pid in outbound && (v'.txns[pid].state.Publish? || v'.txns[pid].state.Pubrel?))
    ensures Directed(v', inbound, outbound)
  {
  }

  lemma PacketKeepsDirection(h: State, packet: Packet, netOk: bool, inbound: set<Pid>, outbound: set<Pid>)
    requires inbound !! outbound && DirectedState(h, inbound, outbound)
    requires Separated(Incoming(packet, netOk), inbound, outbound) && OnPacket(h, packet, netOk).Done?
    ensures DirectedState(OnPacket(h, packet, netOk).h, inbound, outbound)
  {
    if h.conn.Connected? {
      var v := h.conn.session;
      match packet {
        case Publish(d) =>
          if d.qospid.Qos2? {
            UpdateOne(v, d.qospid.pid, Pubrec(d.qospid.pid), inbound, outbound);
          }
        case Puback(p) => UpdateOne(v, p, packet, inbound, outbound);
        case Pubcomp(p) => UpdateOne(v, p, packet, inbound, outbound);
        case Pubrec(p) =>
          AfterPubrec(v, p);
          TwoUpdates(v, p, packet, Pubrel(p));
          DirectedAt(v, UpdateQos(UpdateQos(v, p, packet), p, Pubrel(p)), p, inbound, outbound);
        case Pubrel(p) =>
          AfterPubrel(v, p);
          TwoUpdates(v, p, packet, Pubcomp(p));
          DirectedAt(v, UpdateQos(UpdateQos(v, p, packet), p, Pubcomp(p)), p, inbound, outbound);
        case _ =>
      }
    }
  }

  /** A single update that can only open in, or keep, the right direction. */
  lemma UpdateOne(v: SessionView, pid: Pid, packet: Packet, inbound: set<Pid>, outbound: set<Pid>)
    requires inbound !! outbound && Directed(v, inbound, outbound) && HandlerCall(pid, packet)
    requires || (pid in inbound && packet == Pubrec(pid))
             || (pid in outbound && (packet.Publish? || packet.Puback? || packet.Pubcomp?))
    ensures Directed(UpdateQos(v, pid, packet), inbound, outbound)
  {
    UpdateKeepsSession(v, pid, packet);
    UpdateKeepsKeys(v, pid, packet);
    DirectedAt(v, UpdateQos(v, pid, packet), pid, inbound, outbound);
  }

  lemma TwoUpdates(v: SessionView, pid: Pid, packet: Packet, answer: Packet)
    requires WellKeyed(v) && Coupled(v) && HandlerCall(pid, packet) && HandlerCall(pid, answer)
    ensures var v' := UpdateQos(UpdateQos(v, pid, packet), pid, answer);
            forall q :: q != pid ==>
              && (q in v'.txns <==> q in v.txns)
              && (q in v.txns ==> v'.txns[q] == v.txns[q])
  {
    UpdateKeepsSession(v, pid, packet);
    UpdateKeepsKeys(v, pid, packet);
    UpdateKeepsKeys(UpdateQos(v, pid, packet), pid, answer);
  }

  /** On every connection whose two directions use different packet ids, between any two
      steps of the handler the tracker's state tells the direction, and conversely. */
  lemma {:induction false} DirectionIsVisible(self: Channel, room: nat, inputs: seq<Input>,
                                              inbound: set<Pid>, outbound: set<Pid>)
    requires inbound !! outbound
    requires forall i :: 0 <= i < |inputs| ==> Separated(inputs[i], inbound, outbound)
    ensures var r := RunAll(self, room, inputs);
            r.Running? ==> DirectedState(r.h, inbound, outbound)
  {
    if inputs != [] {
      var n := |inputs| - 1;
      DirectionIsVisible(self, room, inputs[..n], inbound, outbound);
      var before := RunAll(self, room, inputs[..n]);
      if before.Running? {
        match inputs[n] {
          case Incoming(packet, netOk) =>
            if OnPacket(before.h, packet, netOk).Done? {
              PacketKeepsDirection(before.h, packet, netOk, inbound, outbound);
            }
          case Message(PublishMsg(_, d), _) =>
            if before.h.conn.Connected? && !d.qospid.Qos0? {
              UpdateOne(before.h.conn.session, d.qospid.pid, Publish(d), inbound, outbound);
            }
          case _ =>
        }
      }
    }
  }
}

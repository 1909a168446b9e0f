/** The client handler object: its methods change its state, its session and the two
    outgoing streams exactly as the handler of module Handler does. */
module ClientHandlers {
  import opened Wrappers
  import opened Mqtt
  import Qos
  import H = Handler
  import S = HandlerSessions
  import C = Connections
  import opened Sessions

  datatype ClientState = Initialized | Connected(session: Session)

  function Outcome(h: H.State, error: Option<Error>): H.Outcome {
    match error
    case None => H.Done(h)
    case Some(e) => H.Fail(h, e)
  }

  class ClientHandler {
    const self: Channel
    const rt: Runtime
    var state: ClientState
    var disconnectPktSeen: bool
    var room: nat
    var toBroker: seq<BrokerMsg>
    var toClient: seq<Packet>

    ghost function Repr(): set<object>
      reads this, if state.Connected? then {state.session} else {}
    {
      {this, rt} + if state.Connected? then {state.session, state.session.rt} + state.session.qosTxns.Values else {}
    }

    ghost predicate Valid()
      reads this, Repr()
    {
      match state
      case Initialized => rt.tasks == Qos.Tasks(map[], 0)
      case Connected(session) => session.Valid() && session.rt == rt
    }

    ghost function View(): H.State
      reads this, Repr()
    {
      var conn := match state
        case Initialized => H.Initialized
        case Connected(s) =>
          H.Connected(s.id, s.lastWill, s.View());
      H.State(self, conn, disconnectPktSeen, room, toBroker, toClient)
    }

    constructor (self: Channel, room: nat)
      ensures Valid() && fresh(Repr())
      ensures View() == H.Start(self, room)
    {
      this.self := self;
      rt := new Runtime();
      state, disconnectPktSeen := Initialized, false;
      this.room, toBroker, toClient := room, [], [];
    }

    // ---------- sending ----------

    method SendBroker(msg: BrokerMsg) returns (r: Option<Error>)
      requires Valid()
      modifies this`room, this`toBroker
      ensures Valid() && Outcome(View(), r) == H.SendBroker(old(View()), msg)
    {
      if room == 0 {
        return Some(BrokerMsgSendFailure);
      }
      room, toBroker := room - 1, toBroker + [msg];
      return None;
    }

    method SendClient(packet: Packet, netOk: bool) returns (r: Option<Error>)
      requires Valid()
      modifies this`toClient
      ensures Valid() && Outcome(View(), r) == H.SendClient(old(View()), packet, netOk)
    {
      if !netOk {
        return Some(PacketSendFailed);
      }
      toClient := toClient + [packet];
      return None;
    }

    method UpdateSession(pid: Pid, packet: Packet)
      requires Valid() && state.Connected?
      modifies state.session, rt, state.session.qosTxns.Values
      ensures Valid() && fresh(Repr() - old(Repr()))
      ensures View() == H.UpdateSession(old(View()), pid, packet)
    {
      state.session.UpdateQos(pid, packet);
    }

    // ---------- packets from the client ----------

    method UpdateState(packet: Packet) returns (r: Option<Error>)
      requires Valid()
      modifies this
      ensures Valid() && fresh(Repr() - old(Repr()))
      ensures Outcome(View(), r) == H.UpdateState(old(View()), packet)
    {
      match state {
        case Initialized =>
          if !packet.Connect? {
            return Some(MqttProtocolViolation);
          }
          var session := new Session(packet.connect.clientId, packet.connect.lastWill, rt);
          r := SendBroker(ClientConnected(session.id, self));
          if r.Some? {
            return;
          }
          state := Connected(session);
        case Connected(_) =>
          return if packet.Connect? then Some(MqttProtocolViolation) else None;
      }
    }

    method HandlePublish(d: PublishData, netOk: bool) returns (r: Option<Error>)
      requires Valid()
      modifies Repr()
      ensures Valid() && fresh(Repr() - old(Repr()))
      ensures Outcome(View(), r) == H.HandlePublish(old(View()), d, netOk)
    {
      if !state.Connected? {
        return Some(ClientHandlerInvalidState);
      }
      var id := state.session.id;
      match d.qospid {
        case Qos0 =>
        case Qos1(pid) =>
          r := SendClient(Puback(pid), netOk);
          if r.Some? {
            return;
          }
        case Qos2(pid) =>
          UpdateSession(pid, Pubrec(pid));
          r := SendClient(Pubrec(pid), netOk);
          if r.Some? {
            return;
          }
      }
      r := SendBroker(PublishMsg(id, d));
    }

    method HandleAck(pid: Pid, packet: Packet) returns (r: Option<Error>)
      requires Valid()
      modifies Repr()
      ensures Valid() && fresh(Repr() - old(Repr()))
      ensures Outcome(View(), r) == H.HandleAck(old(View()), pid, packet)
    {
      if !state.Connected? {
        return Some(ClientHandlerInvalidState);
      }
      UpdateSession(pid, packet);
      return None;
    }

    method HandleAndAnswer(pid: Pid, packet: Packet, answer: Packet, netOk: bool) returns (r: Option<Error>)
      requires Valid()
      modifies Repr()
      ensures Valid() && fresh(Repr() - old(Repr()))
      ensures Outcome(View(), r) == H.HandleAndAnswer(old(View()), pid, packet, answer, netOk)
    {
      if !state.Connected? {
        return Some(ClientHandlerInvalidState);
      }
      UpdateSession(pid, packet);
      r := Answer(pid, answer, netOk);
    }

    method Answer(pid: Pid, answer: Packet, netOk: bool) returns (r: Option<Error>)
      requires Valid() && state.Connected?
      modifies Repr()
      ensures Valid() && fresh(Repr() - old(Repr()))
      ensures Outcome(View(), r) == (match H.SendClient(old(View()), answer, netOk)
                                     case Fail(h, e) => H.Fail(h, e)
                                     case Done(h) => H.Done(H.UpdateSession(h, pid, answer)))
    {
      r := SendClient(answer, netOk);
      if r.None? {
        UpdateSession(pid, answer);
      }
    }

    method HandleSubscribe(d: SubscribeData, netOk: bool) returns (r: Option<Error>)
      requires Valid()
      modifies this`toClient, this`toBroker, this`room
      ensures Valid() && Outcome(View(), r) == H.HandleSubscribe(old(View()), d, netOk)
    {
      if |d.topics| == 0 {
        return Some(MqttProtocolViolation);
      }
      r := SendClient(Suback(d.pid, seq(|d.topics|, _ => Success(AtMostOnce))), netOk);
      if r.Some? {
        return;
      }
      if !state.Connected? {
        return Some(ClientHandlerInvalidState);
      }
      r := SendBroker(SubscribeMsg(state.session.id, d));
    }

    method HandleUnsubscribe(d: UnsubscribeData, netOk: bool) returns (r: Option<Error>)
      requires Valid()
      modifies this`toClient, this`toBroker, this`room
      ensures Valid() && Outcome(View(), r) == H.HandleUnsubscribe(old(View()), d, netOk)
    {
      if |d.topics| == 0 {
        return Some(MqttProtocolViolation);
      }
      if !state.Connected? {
        return Some(ClientHandlerInvalidState);
      }
      r := SendBroker(UnsubscribeMsg(state.session.id, d));
      if r.Some? {
        return;
      }
      r := SendClient(Unsuback(d.pid), netOk);
    }

    /** The four packets that only move a transaction, or move and answer it. */
    method HandleTransaction(packet: Packet, netOk: bool) returns (r: Option<Error>)
      requires Valid() && (packet.Puback? || packet.Pubrec? || packet.Pubrel? || packet.Pubcomp?)
      modifies Repr()
      ensures Valid() && fresh(Repr() - old(Repr()))
      ensures Outcome(View(), r) == H.HandlePacket(old(View()), packet, netOk)
    {
      if packet.Pubrec? {
        r := HandleAndAnswer(packet.pid, packet, Pubrel(packet.pid), netOk);
      } else if packet.Pubrel? {
        r := HandleAndAnswer(packet.pid, packet, Pubcomp(packet.pid), netOk);
      } else {
        r := HandleAck(packet.pid, packet);
      }
    }

    method HandlePacket(packet: Packet, netOk: bool) returns (r: Option<Error>)
      requires Valid()
      modifies Repr()
      ensures Valid() && fresh(Repr() - old(Repr()))
      ensures Outcome(View(), r) == H.HandlePacket(old(View()), packet, netOk)
    {
      if packet.Puback? || packet.Pubrec? || packet.Pubrel? || packet.Pubcomp? {
        r := HandleTransaction(packet, netOk);
        return;
      }
      match packet {
        case Connect(c) => r := SendClient(Connack(c.mqtt311), netOk);
        case Publish(d) => r := HandlePublish(d, netOk);
        case Subscribe(d) => r := HandleSubscribe(d, netOk);
        case Unsubscribe(d) => r := HandleUnsubscribe(d, netOk);
        case Pingreq => r := SendClient(Pingresp, netOk);
        case Disconnect =>
          disconnectPktSeen := true;
          r := None;
        case _ => r := Some(MqttProtocolViolation);
      }
    }

    method OnPacket(packet: Packet, netOk: bool) returns (r: Option<Error>)
      requires Valid()
      modifies Repr()
      ensures Valid() && fresh(Repr() - old(Repr()))
      ensures Outcome(View(), r) == H.OnPacket(old(View()), packet, netOk)
    {
      r := UpdateState(packet);
      if r.None? {
        r := HandlePacket(packet, netOk);
      }
    }

    // ---------- messages ----------

    method OnMessage(msg: BrokerMsg, netOk: bool) returns (r: Option<Error>)
      requires Valid()
      modifies Repr()
      ensures Valid() && fresh(Repr() - old(Repr()))
      ensures Outcome(View(), r) == H.OnMessage(old(View()), msg, netOk)
    {
      match msg {
        case PublishMsg(_, d) =>
          r := SendClient(Publish(d), netOk);
          if r.Some? || d.qospid.Qos0? {
            return;
          }
          if !state.Connected? {
            return Some(ClientHandlerInvalidState);
          }
          UpdateSession(d.qospid.pid, Publish(d));
        case ClientConnectionTimeout =>
          r := if state.Connected? then None else Some(MqttProtocolViolation);
        case QosRetry(_, packet) => r := SendClient(packet, netOk);
        case _ => r := None;
      }
    }

    // ---------- the end ----------

    method OnClientDisconnect() returns (r: Option<Error>)
      requires Valid()
      modifies this`toBroker, this`room
      ensures Valid() && Outcome(View(), r) == H.OnClientDisconnect(old(View()))
    {
      if !state.Connected? {
        return None;
      }
      var session := state.session;
      if !disconnectPktSeen && session.lastWill.Some? {
        r := SendBroker(H.WillMsg(session.id, session.lastWill.value));
        if r.Some? {
          return;
        }
      }
      r := SendBroker(ClientDisconnected(session.id));
    }

    /** Leaves the loop with an error: the farewell comes first. */
    method Finish(e: Error) returns (error: Option<Error>)
      requires Valid()
      modifies this`toBroker, this`room
      ensures Valid() && H.Ended(View(), error) == H.Finish(old(View()), e)
    {
      var again := OnClientDisconnect();
      return if again.Some? then again else Some(e);
    }

    method WakeToPacket(packet: Packet, netOk: bool) returns (ended: bool, error: Option<Error>)
      requires Valid()
      modifies Repr()
      ensures Valid() && fresh(Repr() - old(Repr())) && (ended || error == None)
      ensures AsRun(View(), ended, error) == H.Continue(H.OnPacket(old(View()), packet, netOk))
    {
      ended := false;
      error := OnPacket(packet, netOk);
      if error.Some? {
        error := Finish(error.value);
        ended := true;
      }
    }

    method WakeToMessage(msg: BrokerMsg, netOk: bool) returns (ended: bool, error: Option<Error>)
      requires Valid()
      modifies Repr()
      ensures Valid() && fresh(Repr() - old(Repr())) && (ended || error == None)
      ensures AsRun(View(), ended, error) == H.Continue(H.OnMessage(old(View()), msg, netOk))
    {
      ended := false;
      error := OnMessage(msg, netOk);
      if error.Some? {
        error := Finish(error.value);
        ended := true;
      }
    }

    /** One round of the event loop. */
    method Wake(input: H.Input) returns (ended: bool, error: Option<Error>)
      requires Valid()
      modifies Repr()
      ensures Valid() && fresh(Repr() - old(Repr())) && (ended || error == None)
      ensures AsRun(View(), ended, error) == H.Next(H.Running(old(View())), input)
    {
      ended := true;
      match input {
        case Incoming(packet, netOk) => ended, error := WakeToPacket(packet, netOk);
        case Message(msg, netOk) => ended, error := WakeToMessage(msg, netOk);
        case PartialData => ended, error := false, None;
        case BadData => error := Finish(InvalidPacket);
        case ReceiveError => error := Finish(PacketReceiveFailed);
        case Closed =>
          error := OnClientDisconnect();
          if error.Some? {
            error := Finish(error.value);
          }
      }
    }

    /** The sleep of one of the session's retry tasks ends. */
    method WakeRetry(id: Qos.TaskId, maxRetries: nat) returns (sent: Option<Packet>)
      requires Valid()
      modifies rt
      ensures Valid() && Repr() == old(Repr())
      ensures H.Running(View()) == S.Next(H.Running(old(View())), S.Wake(id), maxRetries)
      ensures sent.Some? <==> S.WakesLive(H.Running(old(View())), S.Wake(id), None)
      ensures sent.Some? ==> sent.value == old(rt.tasks).live[id].packet
    {
      sent := None;
      if state.Connected? {
        sent := rt.Wake(id, maxRetries);
        assert state.session.View().txns == old(state.session.View()).txns;
      }
    }

    method Happen(e: S.Happening, maxRetries: nat) returns (ended: bool, error: Option<Error>)
      requires Valid()
      modifies Repr()
      ensures Valid() && fresh(Repr() - old(Repr())) && (ended || error == None)
      ensures AsRun(View(), ended, error) == S.Next(H.Running(old(View())), e, maxRetries)
    {
      match e {
        case Input(input) => ended, error := Wake(input);
        case Wake(id) =>
          var _ := WakeRetry(id, maxRetries);
          ended, error := false, None;
      }
    }
  }

  function AsRun(h: H.State, ended: bool, error: Option<Error>): H.Run {
    if ended then H.Ended(h, error) else H.Running(h)
  }

  /** Serves one connection: handles what wakes the event loop, while retry tasks fire, until
      the client leaves or something fails. */
  method Serve(self: Channel, room: nat, happenings: seq<S.Happening>, maxRetries: nat)
    returns (handler: ClientHandler, ended: bool, error: Option<Error>)
    ensures fresh(handler) && handler.Valid()
    ensures AsRun(handler.View(), ended, error) == S.RunAll(self, room, happenings, maxRetries)
  {
    handler := new ClientHandler(self, room);
    ended, error := false, None;
    for i := 0 to |happenings|
      invariant handler.Valid() && fresh(handler.Repr()) && !ended && error == None
      invariant S.RunAll(self, room, happenings[..i], maxRetries) == H.Running(handler.View())
    {
      NextHappening(self, room, happenings, maxRetries, i);
      ended, error := handler.Happen(happenings[i], maxRetries);
      if ended {
        EndedStays(self, room, happenings, maxRetries, i + 1);
        return;
      }
    }
    assert happenings[..|happenings|] == happenings;
  }

  lemma NextHappening(self: Channel, room: nat, happenings: seq<S.Happening>, maxRetries: nat, i: nat)
    requires i < |happenings|
    ensures S.RunAll(self, room, happenings[..i + 1], maxRetries) ==
            S.Next(S.RunAll(self, room, happenings[..i], maxRetries), happenings[i], maxRetries)
  {
    assert happenings[..i + 1][..i] == happenings[..i];
  }

  /** A whole connection. The object ends where the run on values does, so it runs exactly
      while every input is one to survive, the broker and the client have heard everything in
      order, and each tracker is in step with its retry task. */
  method RunConnection(self: Channel, room: nat, happenings: seq<S.Happening>, maxRetries: nat)
    returns (handler: ClientHandler, ended: bool, error: Option<Error>)
    ensures fresh(handler) && handler.Valid()
    ensures AsRun(handler.View(), ended, error) == S.RunAll(self, room, happenings, maxRetries)
    ensures C.Reported(room, C.InputsOf(happenings), AsRun(handler.View(), ended, error))
    ensures handler.state.Connected? ==>
              Qos.WellKeyed(handler.state.session.View()) && Qos.Coupled(handler.state.session.View())
  {
    handler, ended, error := Serve(self, room, happenings, maxRetries);
    C.EveryConnection(self, room, happenings, maxRetries);
  }

  lemma {:induction false} EndedStays(self: Channel, room: nat, happenings: seq<S.Happening>, maxRetries: nat, k: nat)
    requires k <= |happenings| && S.RunAll(self, room, happenings[..k], maxRetries).Ended?
    ensures S.RunAll(self, room, happenings, maxRetries) == S.RunAll(self, room, happenings[..k], maxRetries)
  {
    if k == |happenings| {
      assert happenings[..k] == happenings;
    } else {
      var front := happenings[..|happenings| - 1];
      assert front[..k] == happenings[..k];
      EndedStays(self, room, front, maxRetries, k);
    }
  }
}

/** Whole connections with their retry tasks: what the broker and the client hear does not
    depend on when retries fire, so all that is proved of it holds of these runs too. */
module Connections {
  import opened Mqtt
  import opened Qos
  import H = Handler
  import A = Answers
  import S = HandlerSessions
  import V = Survival

  /** What woke the event loop, without the retry tasks' own wake-ups. */
  function InputsOf(happenings: seq<S.Happening>): seq<H.Input> {
    if happenings == [] then []
    else
      var last := happenings[|happenings| - 1];
      InputsOf(happenings[..|happenings| - 1]) + if last.Input? then [last.input] else []
  }

  // ---------- the session does not show ----------

  /** All of a handler's state but the transactions and tasks of its session. */
  function Outside(h: H.State): H.State {
    if h.conn.Connected? then h.(conn := h.conn.(session := NEW_SESSION)) else h
  }

  function OutsideRun(r: H.Run): H.Run {
    if r.Running? then H.Running(Outside(r.h)) else H.Ended(Outside(r.h), r.error)
  }

  function OutsideOutcome(o: H.Outcome): H.Outcome {
    if o.Done? then H.Done(Outside(o.h)) else H.Fail(Outside(o.h), o.error)
  }

  lemma PublishIsBlind(h: H.State, d: PublishData, netOk: bool)
    ensures OutsideOutcome(H.HandlePublish(h, d, netOk)) == OutsideOutcome(H.HandlePublish(Outside(h), d, netOk))
  {
  }

  lemma RequestIsBlind(h: H.State, packet: Packet, netOk: bool)
    requires packet.Subscribe? || packet.Unsubscribe?
    ensures OutsideOutcome(H.HandlePacket(h, packet, netOk)) == OutsideOutcome(H.HandlePacket(Outside(h), packet, netOk))
  {
  }

  lemma HandlerIsBlind(h: H.State, packet: Packet, netOk: bool)
    ensures OutsideOutcome(H.HandlePacket(h, packet, netOk)) == OutsideOutcome(H.HandlePacket(Outside(h), packet, netOk))
  {
    if packet.Publish? {
      PublishIsBlind(h, packet.publish, netOk);
    } else if packet.Subscribe? || packet.Unsubscribe? {
      RequestIsBlind(h, packet, netOk);
    }
  }

  lemma PacketIsBlind(h: H.State, packet: Packet, netOk: bool)
    ensures OutsideOutcome(H.OnPacket(h, packet, netOk)) == OutsideOutcome(H.OnPacket(Outside(h), packet, netOk))
  {
    if h.conn.Connected? && !packet.Connect? {
      HandlerIsBlind(h, packet, netOk);
    }
  }

  lemma MessageIsBlind(h: H.State, msg: BrokerMsg, netOk: bool)
    ensures OutsideOutcome(H.OnMessage(h, msg, netOk)) == OutsideOutcome(H.OnMessage(Outside(h), msg, netOk))
  {
  }

  lemma FarewellIsBlind(h: H.State)
    ensures OutsideOutcome(H.OnClientDisconnect(h)) == H.OnClientDisconnect(Outside(h))
    ensures forall e :: OutsideRun(H.Finish(h, e)) == H.Finish(Outside(h), e)
  {
  }

  lemma ContinueIsBlind(o: H.Outcome)
    ensures OutsideRun(H.Continue(o)) == OutsideRun(H.Continue(OutsideOutcome(o)))
  {
    FarewellIsBlind(o.h);
    FarewellIsBlind(Outside(o.h));
  }

  /** What the event loop does is the same, outside the session, whatever the session is. */
  lemma NextIsBlind(r: H.Run, input: H.Input)
    ensures OutsideRun(H.Next(r, input)) == OutsideRun(H.Next(OutsideRun(r), input))
  {
    if r.Running? {
      match input {
        case Incoming(packet, netOk) =>
          PacketIsBlind(r.h, packet, netOk);
          ContinueIsBlind(H.OnPacket(r.h, packet, netOk));
          ContinueIsBlind(H.OnPacket(Outside(r.h), packet, netOk));
        case Message(msg, netOk) =>
          MessageIsBlind(r.h, msg, netOk);
          ContinueIsBlind(H.OnMessage(r.h, msg, netOk));
          ContinueIsBlind(H.OnMessage(Outside(r.h), msg, netOk));
        case _ =>
          FarewellIsBlind(r.h);
          FarewellIsBlind(H.OnClientDisconnect(r.h).h);
          FarewellIsBlind(Outside(r.h));
          FarewellIsBlind(H.OnClientDisconnect(Outside(r.h)).h);
      }
    }
  }

  /** Outside the session, a connection is the same with and without its retry tasks. */
  lemma {:induction false} WakesAreSilent(self: Channel, room: nat, happenings: seq<S.Happening>, maxRetries: nat)
    ensures OutsideRun(S.RunAll(self, room, happenings, maxRetries)) ==
            OutsideRun(H.RunAll(self, room, InputsOf(happenings)))
  {
    if happenings != [] {
      var n := |happenings| - 1;
      var before, inputs := happenings[..n], InputsOf(happenings[..n]);
      WakesAreSilent(self, room, before, maxRetries);
      match happenings[n] {
        case Input(input) =>
          NextIsBlind(S.RunAll(self, room, before, maxRetries), input);
          NextIsBlind(H.RunAll(self, room, inputs), input);
          assert (inputs + [input])[..|inputs|] == inputs;
        case Wake(_) => assert inputs + [] == inputs;
      }
    }
  }

  // ---------- whole connections ----------

  /** A connection runs while every input is one to survive, and broker and client have heard
      of each, in order and of nothing else; it ends at the first that is not, with the error
      of its cause, when they have heard of all before it and perhaps of it, and the broker
      has had its farewell. */
  ghost predicate Reported(room: nat, inputs: seq<H.Input>, r: H.Run) {
    && H.Introduced(r.h.conn, inputs)
    && (r.Running? <==> V.AllSurvive(room, inputs))
    && (r.Running? ==> H.UpToDate(r.h, inputs) && A.AnsweredAll(inputs, r.h.toClient))
    && (r.Ended? ==> exists k: nat, body | k < |inputs| :: EndedProperly(inputs, k, body, room, r))
  }

  ghost predicate EndedProperly(inputs: seq<H.Input>, k: nat, body: seq<BrokerMsg>, room: nat, r: H.Run)
    requires k < |inputs|
  {
    && V.EndedAtCause(room, inputs, k, r)
    && H.ReportedUpTo(r.h, inputs, k, body) && A.AnsweredUpTo(inputs, k, r.h.toClient)
  }

  lemma ReportedOutside(room: nat, inputs: seq<H.Input>, r: H.Run, r': H.Run)
    requires Reported(room, inputs, r) && OutsideRun(r) == OutsideRun(r')
    ensures Reported(room, inputs, r')
  {
    if r.Ended? {
      var k: nat, body :| k < |inputs| && EndedProperly(inputs, k, body, room, r);
      ReportedUpToOutside(r.h, r'.h, inputs, k, body);
      assert EndedProperly(inputs, k, body, room, r');
    }
  }

  lemma ReportedUpToOutside(h: H.State, h': H.State, inputs: seq<H.Input>, k: nat, body: seq<BrokerMsg>)
    requires k < |inputs| && H.ReportedUpTo(h, inputs, k, body) && Outside(h) == Outside(h')
    ensures H.ReportedUpTo(h', inputs, k, body)
    ensures V.Owed(h.conn, h.disconnectSeen) == V.Owed(h'.conn, h'.disconnectSeen)
  {
    assert h'.toBroker == h.toBroker && h'.self == h.self && h'.disconnectSeen == h.disconnectSeen && h'.room == h.room;
    assert H.Body(h.self, h.conn, body) == H.Body(h'.self, h'.conn, body);
  }

  lemma InputsAreReported(self: Channel, room: nat, inputs: seq<H.Input>)
    ensures Reported(room, inputs, H.RunAll(self, room, inputs))
  {
    H.BrokerHearsEverything(self, room, inputs);
    A.ClientHearsEverything(self, room, inputs);
    V.RunningExactly(self, room, inputs);
    var r := H.RunAll(self, room, inputs);
    if r.Ended? {
      var k: nat, body :| k < |inputs| && H.EndsAt(self, room, inputs, k) && H.ReportedUpTo(r.h, inputs, k, body);
      var j: nat :| j < |inputs| && H.EndsAt(self, room, inputs, j) && A.AnsweredUpTo(inputs, j, r.h.toClient);
      H.EndsOnce(self, room, inputs, j, k);
      V.EndsForCause(self, room, inputs, k);
      assert EndedProperly(inputs, k, body, room, r);
    }
  }

  /** On every connection, whatever wakes the handler and whenever its retries fire: broker
      and client hear everything in order, each tracker rests under its own packet id, and
      the live retries are in step with the trackers. */
  lemma EveryConnection(self: Channel, room: nat, happenings: seq<S.Happening>, maxRetries: nat)
    ensures var r := S.RunAll(self, room, happenings, maxRetries);
            && Reported(room, InputsOf(happenings), r)
            && (r.h.conn.Connected? ==> WellKeyed(r.h.conn.session) && Coupled(r.h.conn.session))
  {
    InputsAreReported(self, room, InputsOf(happenings));
    WakesAreSilent(self, room, happenings, maxRetries);
    ReportedOutside(room, InputsOf(happenings), H.RunAll(self, room, InputsOf(happenings)),
                    S.RunAll(self, room, happenings, maxRetries));
    S.SessionsStayInStep(self, room, happenings, maxRetries);
  }
}

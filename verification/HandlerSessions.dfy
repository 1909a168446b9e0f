/** What is proved of a session under any calls and wake-ups holds of the session inside a
    running client handler: the handler only makes calls of that kind. */
module HandlerSessions {
  import opened Wrappers
  import opened Mqtt
  import opened Qos
  import QosRuns
  import H = Handler

  /** The event loop wakes up, or the sleep of one of the session's retry tasks ends. */
  datatype Happening = Input(input: H.Input) | Wake(task: TaskId)

  function Next(r: H.Run, e: Happening, maxRetries: nat): H.Run {
    match e
    case Input(input) => H.Next(r, input)
    case Wake(id) =>
      if r.Running? && r.h.conn.Connected? then
        H.Running(r.h.(conn := r.h.conn.(session := QosRuns.Step(r.h.conn.session, QosRuns.Wake(id), maxRetries))))
      else r
  }

  function RunAll(self: Channel, room: nat, happenings: seq<Happening>, maxRetries: nat): H.Run {
    if happenings == [] then H.Running(H.Start(self, room))
    else
      var n := |happenings| - 1;
      Next(RunAll(self, room, happenings[..n], maxRetries), happenings[n], maxRetries)
  }

  // ---------- the calls and wake-ups of a connection ----------

  /** Pubrec and Pubrel make a second call, unless the answer cannot be sent. */
  function AnsweredCalls(pid: Pid, packet: Packet, answer: Packet, netOk: bool): seq<QosRuns.Event> {
    [QosRuns.Call(pid, packet)] + if netOk then [QosRuns.Call(pid, answer)] else []
  }

  /** The calls that a packet makes when it finds a session. */
  function PacketEvents(packet: Packet, netOk: bool): seq<QosRuns.Event> {
    match packet
    case Publish(d) => if d.qospid.Qos2? then [QosRuns.Call(d.qospid.pid, Pubrec(d.qospid.pid))] else []
    case Puback(pid) => [QosRuns.Call(pid, packet)]
    case Pubcomp(pid) => [QosRuns.Call(pid, packet)]
    case Pubrec(pid) => AnsweredCalls(pid, packet, Pubrel(pid), netOk)
    case Pubrel(pid) => AnsweredCalls(pid, packet, Pubcomp(pid), netOk)
    case _ => []
  }

  /** A forwarded publish opens its transaction once it has been sent. */
  function MessageEvents(msg: BrokerMsg, netOk: bool): seq<QosRuns.Event> {
    if msg.PublishMsg? && netOk && !msg.publish.qospid.Qos0? then
      [QosRuns.Call(msg.publish.qospid.pid, Publish(msg.publish))]
    else []
  }

  /** Exactly the calls, or the wake-up, that a happening brings to the session. */
  function Events(r: H.Run, e: Happening): seq<QosRuns.Event> {
    if r.Ended? || !r.h.conn.Connected? then []
    else
      match e
      case Input(Incoming(packet, netOk)) => PacketEvents(packet, netOk)
      case Input(Message(msg, netOk)) => MessageEvents(msg, netOk)
      case Input(_) => []
      case Wake(id) => [QosRuns.Wake(id)]
  }

  /** The session's events over a connection, happening by happening. */
  function EventsOf(self: Channel, room: nat, happenings: seq<Happening>, maxRetries: nat): seq<QosRuns.Event> {
    if happenings == [] then []
    else
      var n := |happenings| - 1;
      EventsOf(self, room, happenings[..n], maxRetries)
      + Events(RunAll(self, room, happenings[..n], maxRetries), happenings[n])
  }

  /** The session of the handler, if any, is the one that these calls and wake-ups lead to. */
  ghost predicate Follows(conn: H.Conn, events: seq<QosRuns.Event>, maxRetries: nat) {
    && QosRuns.FromHandler(events)
    && if conn.Connected? then conn.session == QosRuns.Run(events, maxRetries).view else events == []
  }

  lemma RunAppend(events: seq<QosRuns.Event>, e: QosRuns.Event, maxRetries: nat)
    ensures var t := QosRuns.Run(events, maxRetries);
            QosRuns.Run(events + [e], maxRetries)
            == QosRuns.Trace(QosRuns.Step(t.view, e, maxRetries), t.log + QosRuns.Logged(t.view, e))
  {
    assert (events + [e])[..|events|] == events;
  }

  lemma ExtendRun(events: seq<QosRuns.Event>, e: QosRuns.Event, maxRetries: nat)
    requires QosRuns.FromHandler(events) && (e.Call? ==> HandlerCall(e.pid, e.packet))
    ensures QosRuns.FromHandler(events + [e])
    ensures QosRuns.Run(events + [e], maxRetries).view == QosRuns.Step(QosRuns.Run(events, maxRetries).view, e, maxRetries)
  {
    RunAppend(events, e, maxRetries);
  }

  /** A call that the handler makes for `pid`. */
  lemma Call(h: H.State, pid: Pid, packet: Packet, events: seq<QosRuns.Event>, maxRetries: nat)
    requires h.conn.Connected? && Follows(h.conn, events, maxRetries) && HandlerCall(pid, packet)
    ensures Follows(H.UpdateSession(h, pid, packet).conn, events + [QosRuns.Call(pid, packet)], maxRetries)
  {
    ExtendRun(events, QosRuns.Call(pid, packet), maxRetries);
  }

  lemma CallAndAnswer(h: H.State, pid: Pid, packet: Packet, answer: Packet, netOk: bool,
                      events: seq<QosRuns.Event>, maxRetries: nat)
    requires h.conn.Connected? && Follows(h.conn, events, maxRetries)
    requires HandlerCall(pid, packet) && HandlerCall(pid, answer)
    ensures Follows(H.HandleAndAnswer(h, pid, packet, answer, netOk).h.conn,
                    events + AnsweredCalls(pid, packet, answer, netOk), maxRetries)
  {
    var first := [QosRuns.Call(pid, packet)];
    Call(h, pid, packet, events, maxRetries);
    if netOk {
      var second := [QosRuns.Call(pid, answer)];
      Call(H.UpdateSession(h, pid, packet), pid, answer, events + first, maxRetries);
      assert events + first + second == events + (first + second);
    } else {
      assert first + [] == first;
    }
  }

  predicate IsTransaction(packet: Packet) {
    packet.Puback? || packet.Pubrec? || packet.Pubrel? || packet.Pubcomp?
  }

  lemma TransactionCalls(h: H.State, packet: Packet, netOk: bool, events: seq<QosRuns.Event>, maxRetries: nat)
    requires h.conn.Connected? && Follows(h.conn, events, maxRetries) && IsTransaction(packet)
    ensures Follows(H.OnPacket(h, packet, netOk).h.conn, events + PacketEvents(packet, netOk), maxRetries)
  {
    var pid := packet.pid;
    if packet.Pubrec? {
      CallAndAnswer(h, pid, packet, Pubrel(pid), netOk, events, maxRetries);
    } else if packet.Pubrel? {
      CallAndAnswer(h, pid, packet, Pubcomp(pid), netOk, events, maxRetries);
    } else {
      Call(h, pid, packet, events, maxRetries);
    }
  }

  /** A QoS 2 publish makes one call, whether or not it can be answered and passed on. */
  lemma PublishMoves(h: H.State, d: PublishData, netOk: bool)
    requires h.conn.Connected?
    ensures H.OnPacket(h, Publish(d), netOk).h.conn ==
            if d.qospid.Qos2? then H.UpdateSession(h, d.qospid.pid, Pubrec(d.qospid.pid)).conn else h.conn
  {
  }

  lemma PublishCalls(h: H.State, d: PublishData, netOk: bool, events: seq<QosRuns.Event>, maxRetries: nat)
    requires h.conn.Connected? && Follows(h.conn, events, maxRetries)
    ensures Follows(H.OnPacket(h, Publish(d), netOk).h.conn, events + PacketEvents(Publish(d), netOk), maxRetries)
  {
    PublishMoves(h, d, netOk);
    if d.qospid.Qos2? {
      Call(h, d.qospid.pid, Pubrec(d.qospid.pid), events, maxRetries);
    } else {
      assert PacketEvents(Publish(d), netOk) == [] && events + [] == events;
    }
  }

  /** Other packets leave the session alone. */
  lemma OthersCallNothing(h: H.State, packet: Packet, netOk: bool)
    requires h.conn.Connected? && !packet.Publish? && !IsTransaction(packet)
    ensures H.OnPacket(h, packet, netOk).h.conn == h.conn && PacketEvents(packet, netOk) == []
  {
  }

  lemma PacketCalls(h: H.State, packet: Packet, netOk: bool, events: seq<QosRuns.Event>, maxRetries: nat)
    requires h.conn.Connected? && Follows(h.conn, events, maxRetries)
    ensures Follows(H.OnPacket(h, packet, netOk).h.conn, events + PacketEvents(packet, netOk), maxRetries)
  {
    if IsTransaction(packet) {
      TransactionCalls(h, packet, netOk, events, maxRetries);
    } else if packet.Publish? {
      PublishCalls(h, packet.publish, netOk, events, maxRetries);
    } else {
      OthersCallNothing(h, packet, netOk);
      assert events + [] == events;
    }
  }

  lemma MessageCalls(h: H.State, msg: BrokerMsg, netOk: bool, events: seq<QosRuns.Event>, maxRetries: nat)
    requires h.conn.Connected? && Follows(h.conn, events, maxRetries)
    ensures Follows(H.OnMessage(h, msg, netOk).h.conn, events + MessageEvents(msg, netOk), maxRetries)
  {
    if msg.PublishMsg? && netOk && !msg.publish.qospid.Qos0? {
      Call(h, msg.publish.qospid.pid, Publish(msg.publish), events, maxRetries);
    } else {
      assert events + [] == events;
    }
  }

  /** Without a session there is nothing to call; a Connect starts a new one. */
  lemma BeforeConnecting(h: H.State, input: H.Input, maxRetries: nat)
    requires h.conn.Initialized?
    ensures Follows(H.Next(H.Running(h), input).h.conn, [], maxRetries)
  {
  }

  lemma InputCalls(h: H.State, input: H.Input, events: seq<QosRuns.Event>, maxRetries: nat)
    requires h.conn.Connected? && Follows(h.conn, events, maxRetries)
    ensures Follows(H.Next(H.Running(h), input).h.conn, events + Events(H.Running(h), Input(input)), maxRetries)
  {
    match input {
      case Incoming(packet, netOk) =>
        PacketCalls(h, packet, netOk, events, maxRetries);
        H.FarewellKeepsConn(H.OnPacket(h, packet, netOk).h);
      case Message(msg, netOk) =>
        MessageCalls(h, msg, netOk, events, maxRetries);
        H.FarewellKeepsConn(H.OnMessage(h, msg, netOk).h);
      case _ =>
        assert events + [] == events;
        H.FarewellKeepsConn(h);
        H.FarewellKeepsConn(H.OnClientDisconnect(h).h);
    }
  }

  lemma HappeningCalls(r: H.Run, e: Happening, events: seq<QosRuns.Event>, maxRetries: nat)
    requires Follows(r.h.conn, events, maxRetries)
    ensures Follows(Next(r, e, maxRetries).h.conn, events + Events(r, e), maxRetries)
  {
    assert events + [] == events;
    if r.Running? && r.h.conn.Connected? {
      match e {
        case Input(input) => InputCalls(r.h, input, events, maxRetries);
        case Wake(id) => ExtendRun(events, QosRuns.Wake(id), maxRetries);
      }
    } else if r.Running? && e.Input? {
      BeforeConnecting(r.h, e.input, maxRetries);
    }
  }

  /** After every happening of every connection the handler's session is the one that the
      calls and wake-ups so far lead to, and each call carries its own packet id. */
  lemma {:induction false} HandlerCallsOnly(self: Channel, room: nat, happenings: seq<Happening>, maxRetries: nat)
    ensures Follows(RunAll(self, room, happenings, maxRetries).h.conn,
                    EventsOf(self, room, happenings, maxRetries), maxRetries)
  {
    if happenings != [] {
      var n := |happenings| - 1;
      HandlerCallsOnly(self, room, happenings[..n], maxRetries);
      HappeningCalls(RunAll(self, room, happenings[..n], maxRetries), happenings[n],
                     EventsOf(self, room, happenings[..n], maxRetries), maxRetries);
    }
  }

  /** So at every moment of every connection each tracker rests under its own packet id, the
      live retries are in step with the trackers, and none outlives the session. */
  lemma SessionsStayInStep(self: Channel, room: nat, happenings: seq<Happening>, maxRetries: nat)
    ensures var conn := RunAll(self, room, happenings, maxRetries).h.conn;
            conn.Connected? ==>
              && WellKeyed(conn.session) && Coupled(conn.session)
              && DropSession(conn.session).tasks.live == map[]
  {
    HandlerCallsOnly(self, room, happenings, maxRetries);
    QosRuns.RunInvariant(EventsOf(self, room, happenings, maxRetries), maxRetries);
    var conn := RunAll(self, room, happenings, maxRetries).h.conn;
    if conn.Connected? {
      DropSessionStopsRetries(conn.session);
    }
  }

  // ---------- resends ----------

  /** Resends in a log: of all packet ids, or `only` of one. */
  function Resent(log: seq<QosRuns.LogItem>, only: Option<Pid>): nat {
    if log == [] then 0
    else
      var last := log[|log| - 1];
      Resent(log[..|log| - 1], only) + if last.Resent? && (only == None || only == Some(last.pid)) then 1 else 0
  }

  /** Whether a happening wakes a live retry task, and one of the packet id asked for. */
  predicate WakesLive(r: H.Run, e: Happening, only: Option<Pid>) {
    && r.Running? && r.h.conn.Connected? && e.Wake? && e.task in r.h.conn.session.tasks.live
    && (only == None || only == TxnPid(r.h.conn.session.tasks.live[e.task].packet))
  }

  function LiveWakes(self: Channel, room: nat, happenings: seq<Happening>, maxRetries: nat, only: Option<Pid>): nat {
    if happenings == [] then 0
    else
      var n := |happenings| - 1;
      LiveWakes(self, room, happenings[..n], maxRetries, only)
      + if WakesLive(RunAll(self, room, happenings[..n], maxRetries), happenings[n], only) then 1 else 0
  }

  lemma ResentAppend(log: seq<QosRuns.LogItem>, more: seq<QosRuns.LogItem>, only: Option<Pid>)
    requires |more| <= 1
    ensures Resent(log + more, only) ==
            Resent(log, only)
            + if more != [] && more[0].Resent? && (only == None || only == Some(more[0].pid)) then 1 else 0
  {
    if more == [] {
      assert log + more == log;
    } else {
      assert (log + more)[..|log|] == log;
    }
  }

  /** Calls resend nothing. */
  lemma CallResendsNothing(events: seq<QosRuns.Event>, e: QosRuns.Event, maxRetries: nat, only: Option<Pid>)
    requires e.Call?
    ensures Resent(QosRuns.Run(events + [e], maxRetries).log, only) == Resent(QosRuns.Run(events, maxRetries).log, only)
  {
    var t := QosRuns.Run(events, maxRetries);
    RunAppend(events, e, maxRetries);
    ResentAppend(t.log, QosRuns.Logged(t.view, e), only);
  }

  lemma CallsResendNothing(events: seq<QosRuns.Event>, calls: seq<QosRuns.Event>, maxRetries: nat, only: Option<Pid>)
    requires |calls| <= 2 && forall i :: 0 <= i < |calls| ==> calls[i].Call?
    ensures Resent(QosRuns.Run(events + calls, maxRetries).log, only) == Resent(QosRuns.Run(events, maxRetries).log, only)
  {
    if calls == [] {
      assert events + calls == events;
    } else if |calls| == 1 {
      assert calls == [calls[0]];
      CallResendsNothing(events, calls[0], maxRetries, only);
    } else {
      OneByOne(events, calls);
      CallResendsNothing(events, calls[0], maxRetries, only);
      CallResendsNothing(events + [calls[0]], calls[1], maxRetries, only);
    }
  }

  lemma OneByOne(events: seq<QosRuns.Event>, more: seq<QosRuns.Event>)
    requires |more| == 2
    ensures events + more == events + [more[0]] + [more[1]]
  {
  }

  /** A live task resends the packet of a tracker, so its wake-up is one resend. */
  lemma WakeResendsOnce(events: seq<QosRuns.Event>, id: TaskId, maxRetries: nat, only: Option<Pid>)
    requires QosRuns.FromHandler(events)
    ensures var t := QosRuns.Run(events, maxRetries);
            Resent(QosRuns.Run(events + [QosRuns.Wake(id)], maxRetries).log, only) ==
            Resent(t.log, only)
            + if id in t.view.tasks.live && (only == None || only == TxnPid(t.view.tasks.live[id].packet)) then 1 else 0
  {
    var t := QosRuns.Run(events, maxRetries);
    QosRuns.LiveRetriesMatchTrackers(events, maxRetries);
    RunAppend(events, QosRuns.Wake(id), maxRetries);
    ResentAppend(t.log, QosRuns.Logged(t.view, QosRuns.Wake(id)), only);
  }

  lemma InputEventsAreCalls(r: H.Run, e: Happening)
    requires e.Input?
    ensures |Events(r, e)| <= 2 && forall i :: 0 <= i < |Events(r, e)| ==> Events(r, e)[i].Call?
  {
  }

  lemma HappeningResends(r: H.Run, e: Happening, events: seq<QosRuns.Event>, maxRetries: nat, only: Option<Pid>)
    requires Follows(r.h.conn, events, maxRetries)
    ensures Resent(QosRuns.Run(events + Events(r, e), maxRetries).log, only) ==
            Resent(QosRuns.Run(events, maxRetries).log, only) + if WakesLive(r, e, only) then 1 else 0
  {
    if e.Wake? && r.Running? && r.h.conn.Connected? {
      WakeResendsOnce(events, e.task, maxRetries, only);
    } else {
      if e.Input? {
        InputEventsAreCalls(r, e);
      }
      CallsResendNothing(events, Events(r, e), maxRetries, only);
    }
  }

  /** The log of a connection has one resend for each wake-up of a live task, and no other. */
  lemma {:induction false} ResendsAreWakes(self: Channel, room: nat, happenings: seq<Happening>, maxRetries: nat,
                                           only: Option<Pid>)
    ensures Resent(QosRuns.Run(EventsOf(self, room, happenings, maxRetries), maxRetries).log, only) ==
            LiveWakes(self, room, happenings, maxRetries, only)
  {
    if happenings != [] {
      var n := |happenings| - 1;
      var before := happenings[..n];
      ResendsAreWakes(self, room, before, maxRetries, only);
      HandlerCallsOnly(self, room, before, maxRetries);
      HappeningResends(RunAll(self, room, before, maxRetries), happenings[n], EventsOf(self, room, before, maxRetries),
                       maxRetries, only);
    }
  }

  /** On every connection the log of the session's own calls and wake-ups, taken happening by
      happening, leads to its session; in it every transaction follows its flow within its
      retransmission bound; and its resends are exactly the wake-ups of live retry tasks. */
  lemma ConnectionsFollowFlows(self: Channel, room: nat, happenings: seq<Happening>, maxRetries: nat)
    ensures var events := EventsOf(self, room, happenings, maxRetries);
            var log := QosRuns.Run(events, maxRetries).log;
            && Follows(RunAll(self, room, happenings, maxRetries).h.conn, events, maxRetries)
            && QosRuns.FollowsFlows(log, maxRetries)
            && forall only: Option<Pid> :: Resent(log, only) == LiveWakes(self, room, happenings, maxRetries, only)
  {
    var events := EventsOf(self, room, happenings, maxRetries);
    HandlerCallsOnly(self, room, happenings, maxRetries);
    QosRuns.TransactionsFollowFlows(events, maxRetries);
    forall only: Option<Pid>
      ensures Resent(QosRuns.Run(events, maxRetries).log, only) == LiveWakes(self, room, happenings, maxRetries, only)
    {
      ResendsAreWakes(self, room, happenings, maxRetries, only);
    }
  }
}

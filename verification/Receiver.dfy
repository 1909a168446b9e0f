/** The receive loop of the subscribe command of mqtt-cli: a machine that reacts to
    one network event at a time, and the nested loops that behave like it. */
module Receiver {
  import opened Wrappers
  import opened Mqtt
  import opened ClientIO

  const MAX_RETRIES: nat := 5

  datatype StopReason = ChannelGone | TimedOut | BadPacket | WrongSuback | TooManyCodes | SendFailed

  datatype State = Polling | Awaiting(pid: Pid, resends: nat) | Stopped(reason: StopReason)

  /** The subscribe request this loop serves: its packet id and number of topics. */
  datatype Request = Request(pid: Pid, topics: nat)

  // ---------- the machine ----------

  /** The reaction to one event: the next state and what is printed and sent.
      No reaction sends more than one packet. */
  function React(req: Request, s: State, e: Event, canSend: bool): (State, seq<Item>) {
    match s
    case Stopped(_) => (s, [])
    case Polling => (
      match e
      case Timeout => (s, [])
      case Undecodable => (s, [])
      case Disconnected => (Stopped(ChannelGone), [])
      case Received(Publish(d)) => (
        match d.qospid
        case Qos0 => (s, [Printed(d)])
        case Qos1(pid) => Reply(Printed(d), Puback(pid), Polling, canSend)
        case Qos2(pid) => Reply(Printed(d), Pubrec(pid), Awaiting(pid, 0), canSend))
      case Received(Suback(pid, codes)) =>
        if pid != req.pid then (Stopped(WrongSuback), [])
        else if |codes| > req.topics then (Stopped(TooManyCodes), [])
        else (s, [])
      case Received(_) => (s, []))
    case Awaiting(pid, n) => (
      match e
      case Timeout =>
        var next := if n + 1 >= MAX_RETRIES then Stopped(TimedOut) else Awaiting(pid, n + 1);
        if canSend then (next, [Sent(Pubrec(pid))]) else (Stopped(SendFailed), [])
      case Undecodable => (Stopped(BadPacket), [])
      case Disconnected => (Stopped(ChannelGone), [])
      case Received(packet) =>
        if packet != Pubrel(pid) then (s, [])
        else if canSend then (Polling, [Sent(Pubcomp(pid))]) else (Stopped(SendFailed), []))
  }

  function Reply(shown: Item, packet: Packet, next: State, canSend: bool): (State, seq<Item>) {
    if canSend then (next, [shown, Sent(packet)]) else (Stopped(SendFailed), [shown])
  }

  /** The machine with its memory: how many more packets the connection accepts and
      everything received, printed and sent so far, in order. */
  datatype Machine = Machine(state: State, room: nat, trace: seq<Item>)

  function Step(req: Request, m: Machine, e: Event): Machine {
    if m.state.Stopped? then m
    else
      var (s, items) := React(req, m.state, e, m.room > 0);
      Machine(s, Spend(m.room, items), m.trace + [Got(e)] + items)
  }

  function Spend(room: nat, items: seq<Item>): nat {
    if items != [] && items[|items| - 1].Sent? && room > 0 then room - 1 else room
  }

  /** The machine after the events from position `from` up to `to`. */
  function Run(req: Request, m: Machine, events: seq<Event>, from: nat, to: nat): Machine
    requires from <= to <= |events|
  {
    if from == to then m else Step(req, Run(req, m, events, from, to - 1), events[to - 1])
  }

  // ---------- what every run keeps ----------

  /** The QoS 2 message that was printed but not yet completed, judged by the trace alone. */
  function Pending(trace: seq<Item>): Option<Pid> {
    if trace == [] then None
    else
      var before := Pending(trace[..|trace| - 1]);
      match trace[|trace| - 1]
      case Printed(d) => if d.qospid.Qos2? then Some(d.qospid.pid) else before
      case Sent(Pubcomp(pid)) => if before == Some(pid) then None else before
      case _ => before
  }

  /** The number of times the pending message's Pubrec was sent. */
  function Pubrecs(trace: seq<Item>): nat {
    if trace == [] then 0
    else
      var n := Pubrecs(trace[..|trace| - 1]);
      match trace[|trace| - 1]
      case Printed(_) => 0
      case Sent(Pubrec(_)) => n + 1
      case _ => n
  }

  /** What the end of a trace calls for, judged by the trace alone: a publish is shown if
      nothing is pending, a shown QoS 1 or QoS 2 message is acknowledged, and for a pending
      message a timeout repeats the Pubrec and its Pubrel brings the Pubcomp. */
  function Due(trace: seq<Item>): Option<Item> {
    if trace == [] then None
    else
      match trace[|trace| - 1]
      case Got(Received(Publish(d))) => if Pending(trace) == None then Some(Printed(d)) else None
      case Got(Received(Pubrel(pid))) => if Pending(trace) == Some(pid) then Some(Sent(Pubcomp(pid))) else None
      case Got(Timeout) => if Pending(trace).Some? then Some(Sent(Pubrec(Pending(trace).value))) else None
      case Printed(d) => (
        match d.qospid
        case Qos0 => None
        case Qos1(pid) => Some(Sent(Puback(pid)))
        case Qos2(pid) => Some(Sent(Pubrec(pid))))
      case _ => None
  }

  /** Whatever is called for is done next, and nothing is printed or sent that is not called
      for. So payloads are printed only when nothing is pending, a Puback or the first Pubrec
      follows its message, a Pubcomp its Pubrel; and a message's Pubrec is sent at most once
      plus `MAX_RETRIES` times. */
  ghost predicate GoodItem(trace: seq<Item>, i: nat)
    requires i < |trace|
  {
    && (match Due(trace[..i])
        case Some(item) => trace[i] == item
        case None => trace[i].Got?)
    && (trace[i].Sent? && trace[i].packet.Pubrec? ==> Pubrecs(trace[..i]) <= MAX_RETRIES)
  }

  ghost predicate Kept(m: Machine) {
    && (forall i: nat | i < |m.trace| :: GoodItem(m.trace, i))
    && (m.state.Polling? ==> Pending(m.trace) == None)
    && (m.state.Awaiting? ==>
          && Pending(m.trace) == Some(m.state.pid)
          && m.state.resends < MAX_RETRIES
          && Pubrecs(m.trace) == m.state.resends + 1)
  }

  /** How the loop ends, and that it has not ended, can be read off the trace alone. */
  ghost predicate Decided(req: Request, m: Machine) {
    var pending := Pending(m.trace);
    && (m.state == Stopped(ChannelGone) <==> Ends(m.trace, Disconnected))
    && (m.state == Stopped(BadPacket) <==> pending.Some? && Ends(m.trace, Undecodable))
    && (m.state == Stopped(TimedOut) <==> pending.Some? && Pubrecs(m.trace) == MAX_RETRIES + 1)
    && (m.state == Stopped(SendFailed) <==> Due(m.trace).Some?)
    && (m.state == Stopped(SendFailed) ==> m.room == 0)
    && (m.state == Stopped(WrongSuback) <==> pending == None && EndsWithSuback(m.trace) && LastSuback(m.trace).pid != req.pid)
    && (m.state == Stopped(TooManyCodes) <==>
          && pending == None && EndsWithSuback(m.trace)
          && LastSuback(m.trace).pid == req.pid && |LastSuback(m.trace).codes| > req.topics)
    && (!m.state.Stopped? ==> (m.state.Awaiting? <==> pending.Some?))
  }

  predicate Ends(trace: seq<Item>, e: Event) {
    trace != [] && trace[|trace| - 1] == Got(e)
  }

  predicate EndsWithSuback(trace: seq<Item>) {
    trace != [] &&
    match trace[|trace| - 1]
    case Got(Received(packet)) => packet.Suback?
    case _ => false
  }

  function LastSuback(trace: seq<Item>): Packet
    requires EndsWithSuback(trace)
  {
    trace[|trace| - 1].event.packet
  }

  ghost predicate Good(req: Request, m: Machine) {
    Kept(m) && Decided(req, m)
  }

  /** How the readings of a trace change with one more item. */
  lemma ReadAppend(trace: seq<Item>, item: Item)
    ensures var t := trace + [item];
            && t[..|trace|] == trace
            && Pending(t) == (match item
                              case Printed(d) => if d.qospid.Qos2? then Some(d.qospid.pid) else Pending(trace)
                              case Sent(Pubcomp(pid)) => if Pending(trace) == Some(pid) then None else Pending(trace)
                              case _ => Pending(trace))
            && Pubrecs(t) == (match item
                              case Printed(_) => 0
                              case Sent(Pubrec(_)) => Pubrecs(trace) + 1
                              case _ => Pubrecs(trace))
  {
    assert (trace + [item])[..|trace|] == trace;
  }

  lemma GoodAppend(trace: seq<Item>, item: Item)
    requires forall i: nat | i < |trace| :: GoodItem(trace, i)
    requires GoodItem(trace + [item], |trace|)
    ensures forall i: nat | i < |trace + [item]| :: GoodItem(trace + [item], i)
  {
    var t := trace + [item];
    forall i: nat | i < |t| ensures GoodItem(t, i) {
      if i < |trace| {
        assert t[..i] == trace[..i] && GoodItem(trace, i);
      }
    }
  }

  /** Nothing is called for while the loop goes on. */
  lemma NothingDue(req: Request, m: Machine, e: Event)
    requires Good(req, m) && !m.state.Stopped?
    ensures forall i: nat | i < |m.trace| + 1 :: GoodItem(m.trace + [Got(e)], i)
  {
    ReadAppend(m.trace, Got(e));
    GoodAppend(m.trace, Got(e));
  }

  /** An event that is only taken note of. */
  lemma NotedKeepsGood(req: Request, m: Machine, e: Event)
    requires Good(req, m) && !m.state.Stopped? && React(req, m.state, e, m.room > 0).1 == []
    ensures Good(req, Machine(React(req, m.state, e, m.room > 0).0, m.room, m.trace + [Got(e)]))
  {
    NothingDue(req, m, e);
    ReadAppend(m.trace, Got(e));
  }

  /** A timeout or a release that is answered while waiting. */
  lemma AnsweredKeepsGood(req: Request, m: Machine, e: Event, room: nat)
    requires Good(req, m) && m.state.Awaiting? && (e == Timeout || e == Received(Pubrel(m.state.pid)))
    ensures var (s, items) := React(req, m.state, e, true);
            |items| == 1 && Good(req, Machine(s, room, m.trace + [Got(e)] + [items[0]]))
  {
    var (s, items) := React(req, m.state, e, true);
    var t := m.trace + [Got(e)];
    NothingDue(req, m, e);
    ReadAppend(m.trace, Got(e));
    ReadAppend(t, items[0]);
    GoodAppend(t, items[0]);
  }

  /** A message that is shown while polling; `room` is what is left after it. */
  lemma ShownKeepsGood(req: Request, m: Machine, d: PublishData, room: nat)
    requires Good(req, m) && m.state.Polling?
    ensures var u := m.trace + [Got(Received(Publish(d)))] + [Printed(d)];
            && (forall i: nat | i < |u| :: GoodItem(u, i))
            && (d.qospid.Qos0? ==> Good(req, Machine(Polling, room, u)))
            && (!d.qospid.Qos0? ==> Good(req, Machine(Stopped(SendFailed), 0, u)))
  {
    var e := Received(Publish(d));
    var t := m.trace + [Got(e)];
    NothingDue(req, m, e);
    ReadAppend(m.trace, Got(e));
    ReadAppend(t, Printed(d));
    GoodAppend(t, Printed(d));
  }

  lemma AcknowledgedKeepsGood(req: Request, m: Machine, d: PublishData, room: nat)
    requires Good(req, m) && m.state.Polling? && !d.qospid.Qos0?
    ensures var u, pid := m.trace + [Got(Received(Publish(d)))] + [Printed(d)], d.qospid.pid;
            && (d.qospid.Qos1? ==> Good(req, Machine(Polling, room, u + [Sent(Puback(pid))])))
            && (d.qospid.Qos2? ==> Good(req, Machine(Awaiting(pid, 0), room, u + [Sent(Pubrec(pid))])))
  {
    var e := Received(Publish(d));
    var t := m.trace + [Got(e)];
    var u := t + [Printed(d)];
    var answer := Sent(if d.qospid.Qos1? then Puback(d.qospid.pid) else Pubrec(d.qospid.pid));
    ShownKeepsGood(req, m, d, 0);
    ReadAppend(m.trace, Got(e));
    ReadAppend(t, Printed(d));
    ReadAppend(u, answer);
    GoodAppend(u, answer);
  }

  lemma StepKeepsGood(req: Request, m: Machine, e: Event)
    requires Good(req, m)
    ensures Good(req, Step(req, m, e))
  {
    if !m.state.Stopped? {
      var (s, items) := React(req, m.state, e, m.room > 0);
      var t := m.trace + [Got(e)];
      if items == [] {
        assert t + items == t;
        NotedKeepsGood(req, m, e);
      } else if m.state.Awaiting? {
        assert t + items == t + [items[0]];
        AnsweredKeepsGood(req, m, e, m.room - 1);
      } else if |items| == 1 {
        assert t + items == t + [items[0]];
        ShownKeepsGood(req, m, e.packet.publish, m.room);
      } else {
        assert t + items == t + [items[0]] + [items[1]];
        AcknowledgedKeepsGood(req, m, e.packet.publish, m.room - 1);
      }
    }
  }

  /** Every run of the receive loop, whatever arrives: the retry count stays below the
      limit, so the guard of the inner loop is never what ends it; Pubcomp follows a
      matching Pubrel; and nothing is printed between a message and its Pubcomp. */
  lemma {:induction false} RunsAreGood(req: Request, room: nat, events: seq<Event>, to: nat)
    requires to <= |events|
    ensures Good(req, Run(req, Machine(Polling, room, []), events, 0, to))
  {
    if to > 0 {
      RunsAreGood(req, room, events, to - 1);
      StepKeepsGood(req, Run(req, Machine(Polling, room, []), events, 0, to - 1), events[to - 1]);
    }
  }

  /** What that says of a trace: a payload is shown only right after it arrived and while
      nothing is pending; a Puback follows its QoS 1 message; a Pubrec follows its QoS 2
      message, or a timeout while that is pending; a Pubcomp follows the Pubrel of the pending
      message; nothing else is sent. */
  lemma GoodTraceReads(trace: seq<Item>, i: nat)
    requires i < |trace| && GoodItem(trace, i)
    ensures match trace[i]
            case Printed(d) => 0 < i && trace[i - 1] == Got(Received(Publish(d))) && Pending(trace[..i]) == None
            case Sent(Puback(pid)) => 0 < i && trace[i - 1].Printed? && trace[i - 1].publish.qospid == Qos1(pid)
            case Sent(Pubrec(pid)) =>
              && Pending(trace[..i]) == Some(pid) && 0 < i
              && (trace[i - 1] == Got(Timeout) || (trace[i - 1].Printed? && trace[i - 1].publish.qospid == Qos2(pid)))
            case Sent(Pubcomp(pid)) => Pending(trace[..i]) == Some(pid) && 0 < i && trace[i - 1] == Got(Received(Pubrel(pid)))
            case Sent(_) => false
            case Got(_) => Due(trace[..i]) == None
  {
    if i > 0 {
      assert trace[..i][i - 1] == trace[i - 1];
    }
  }

  // ---------- the loops ----------

  /** The context has done exactly what the machine does on the events since `p0`,
      and the machine is now in state `s`. */
  ghost predicate InStep(ctx: Context, req: Request, start: Machine, p0: nat, s: State)
    reads ctx
  {
    p0 <= ctx.pos <= |ctx.script| && Machine(s, ctx.room, ctx.trace) == Run(req, start, ctx.script, p0, ctx.pos)
  }

  /** Waits for any response, resending after each timeout, at most `maxRetries` times. */
  method WaitOnResponseWithRetry(ctx: Context, packet: Packet, maxRetries: nat) returns (r: Wait)
    requires ctx.Valid()
    modifies ctx
    ensures ctx.Valid() && ctx.pos >= old(ctx.pos) && ctx.room == old(ctx.room) - r.resends
    ensures Waited(ctx.script, old(ctx.pos), old(ctx.trace), packet, maxRetries, r, ctx.pos, ctx.room, ctx.trace)
  {
    for attempt := 0 to maxRetries
      invariant ctx.Valid() && ctx.pos == old(ctx.pos) + attempt && ctx.room == old(ctx.room) - attempt
      invariant Timeouts(ctx.script, old(ctx.pos), attempt)
      invariant ctx.trace == old(ctx.trace) + Resent(packet, attempt)
    {
      var e := ctx.Receive();
      match e {
        case None => return Starved(attempt);
        case Some(Timeout) =>
          var ok := ctx.Send(packet);
          if !ok {
            return Failed(attempt, false);
          }
        case Some(Disconnected) => return Failed(attempt, true);
        case Some(rx) => return Response(attempt, rx);
      }
    }
    return NoResponse(maxRetries);
  }

  lemma OneTimeout(req: Request, start: Machine, events: seq<Event>, p0: nat, pos: nat,
                   pid: Pid, n: nat, room: nat, t: seq<Item>)
    requires p0 <= pos < |events| && events[pos] == Timeout && n < MAX_RETRIES && 0 < room
    requires Run(req, start, events, p0, pos) == Machine(Awaiting(pid, n), room, t)
    ensures Run(req, start, events, p0, pos + 1)
            == Machine(if n + 1 == MAX_RETRIES then Stopped(TimedOut) else Awaiting(pid, n + 1),
                       room - 1, t + [Got(Timeout)] + [Sent(Pubrec(pid))])
  {
  }

  /** The machine resends its Pubrec at each timeout and gives up at the limit. */
  lemma {:induction false} RunTimeouts(req: Request, start: Machine, events: seq<Event>, p0: nat, pos: nat, k: nat,
                                       pid: Pid, n: nat, room: nat, t: seq<Item>)
    requires p0 <= pos && Timeouts(events, pos, k) && n < MAX_RETRIES && n + k <= MAX_RETRIES && k <= room
    requires Run(req, start, events, p0, pos) == Machine(Awaiting(pid, n), room, t)
    ensures Run(req, start, events, p0, pos + k)
            == Machine(if n + k == MAX_RETRIES then Stopped(TimedOut) else Awaiting(pid, n + k),
                       room - k, t + Resent(Pubrec(pid), k))
  {
    if k > 0 {
      RunTimeouts(req, start, events, p0, pos, k - 1, pid, n, room, t);
      OneTimeout(req, start, events, p0, pos + k - 1, pid, n + k - 1, room - (k - 1), t + Resent(Pubrec(pid), k - 1));
      ResentOneMore(t, Pubrec(pid), k);
    }
  }

  /** The machine's reaction to a failure while waiting. */
  lemma ReactToFailure(req: Request, start: Machine, events: seq<Event>, p0: nat, pos: nat,
                       pid: Pid, n: nat, room: nat, t: seq<Item>)
    requires p0 <= pos < |events|
    requires events[pos] == Disconnected || (events[pos] == Timeout && room == 0)
    requires Run(req, start, events, p0, pos) == Machine(Awaiting(pid, n), room, t)
    ensures Run(req, start, events, p0, pos + 1)
            == Machine(Stopped(if events[pos] == Disconnected then ChannelGone else SendFailed), room, t + [Got(events[pos])])
  {
  }

  /** The machine's reaction to a response that is not a timeout. */
  lemma ReactToResponse(req: Request, start: Machine, events: seq<Event>, p0: nat, pos: nat,
                        pid: Pid, n: nat, room: nat, t: seq<Item>, e: Event)
    requires p0 < pos <= |events| && events[pos - 1] == e && e != Timeout && e != Disconnected
    requires Run(req, start, events, p0, pos - 1) == Machine(Awaiting(pid, n), room, t)
    ensures var m := Run(req, start, events, p0, pos);
            && (e == Undecodable ==> m == Machine(Stopped(BadPacket), room, t + [Got(e)]))
            && (e.Received? && e.packet != Pubrel(pid) ==> m == Machine(Awaiting(pid, n), room, t + [Got(e)]))
            && (e == Received(Pubrel(pid)) && room == 0 ==> m == Machine(Stopped(SendFailed), room, t + [Got(e)]))
            && (e == Received(Pubrel(pid)) && room > 0 ==>
                  m == Machine(Polling, room - 1, t + [Got(e)] + [Sent(Pubcomp(pid))]))
  {
  }

  /** Where a wait takes a machine that awaits a release. */
  function AfterWait(pid: Pid, n: nat, r: Wait, room: nat): State {
    match r
    case Starved(k) => Awaiting(pid, n + k)
    case NoResponse(_) => Stopped(TimedOut)
    case Failed(_, gone) => Stopped(if gone then ChannelGone else SendFailed)
    case Response(k, e) =>
      if e == Undecodable then Stopped(BadPacket)
      else if e != Received(Pubrel(pid)) then Awaiting(pid, n + k)
      else if room > 0 then Polling else Stopped(SendFailed)
  }

  lemma RunFailure(req: Request, start: Machine, events: seq<Event>, p0: nat, p: nat, room: nat, t: seq<Item>,
                   pid: Pid, n: nat, r: Wait, p': nat, room': nat, t': seq<Item>)
    requires p0 <= p <= p' <= |events| && n < MAX_RETRIES && r.resends <= room && room' == room - r.resends
    requires Run(req, start, events, p0, p) == Machine(Awaiting(pid, n), room, t)
    requires Waited(events, p, t, Pubrec(pid), MAX_RETRIES - n, r, p', room', t') && !r.Response?
    ensures Run(req, start, events, p0, p') == Machine(AfterWait(pid, n, r, room'), room', t')
  {
    RunTimeouts(req, start, events, p0, p, r.resends, pid, n, room, t);
    if r.Failed? {
      var q, u := p + r.resends, t + Resent(Pubrec(pid), r.resends);
      assert Run(req, start, events, p0, q) == Machine(Awaiting(pid, n + r.resends), room', u);
      ReactToFailure(req, start, events, p0, q, pid, n + r.resends, room', u);
    }
  }

  lemma RunResponse(req: Request, start: Machine, events: seq<Event>, p0: nat, p: nat, room: nat, t: seq<Item>,
                    pid: Pid, n: nat, r: Wait, p': nat, room': nat, t': seq<Item>)
    requires p0 <= p <= p' <= |events| && n < MAX_RETRIES && r.resends <= room && room' == room - r.resends
    requires Run(req, start, events, p0, p) == Machine(Awaiting(pid, n), room, t)
    requires Waited(events, p, t, Pubrec(pid), MAX_RETRIES - n, r, p', room', t') && r.Response?
    ensures var s := AfterWait(pid, n, r, room');
            Run(req, start, events, p0, p') ==
            if s.Polling? then Machine(s, room' - 1, t' + [Sent(Pubcomp(pid))]) else Machine(s, room', t')
  {
    RunTimeouts(req, start, events, p0, p, r.resends, pid, n, room, t);
    var u := t + Resent(Pubrec(pid), r.resends);
    ReactToResponse(req, start, events, p0, p', pid, n + r.resends, room', u, r.event);
  }

  /** Waits once, with the machine alongside; only the answer to the release is left open. */
  method AwaitResponse(ctx: Context, pid: Pid, numRetries: nat, ghost req: Request, ghost start: Machine, ghost p0: nat)
    returns (r: Wait)
    requires numRetries < MAX_RETRIES && InStep(ctx, req, start, p0, Awaiting(pid, numRetries))
    modifies ctx
    ensures r.resends <= MAX_RETRIES - numRetries && (!r.NoResponse? ==> r.resends < MAX_RETRIES - numRetries)
    ensures ctx.Valid() && p0 <= ctx.pos && ctx.pos >= old(ctx.pos)
    ensures r.Response? ==> ctx.pos > old(ctx.pos) && (r.event == Undecodable || r.event.Received?)
    ensures r.Starved? ==> ctx.pos == |ctx.script|
    ensures var s := AfterWait(pid, numRetries, r, ctx.room);
            if s.Polling? then
              Run(req, start, ctx.script, p0, ctx.pos) == Machine(s, ctx.room - 1, ctx.trace + [Sent(Pubcomp(pid))])
            else InStep(ctx, req, start, p0, s)
  {
    ghost var p, room, t := ctx.pos, ctx.room, ctx.trace;
    r := WaitOnResponseWithRetry(ctx, Pubrec(pid), MAX_RETRIES - numRetries);
    if r.Response? {
      RunResponse(req, start, ctx.script, p0, p, room, t, pid, numRetries, r, ctx.pos, ctx.room, ctx.trace);
    } else {
      RunFailure(req, start, ctx.script, p0, p, room, t, pid, numRetries, r, ctx.pos, ctx.room, ctx.trace);
    }
  }

  /** Answers a QoS 2 message: Pubrec, then wait for its Pubrel, then Pubcomp. */
  method ReceiveExactlyOnce(ctx: Context, pid: Pid, ghost req: Request, ghost start: Machine, ghost p0: nat)
    returns (end: State)
    requires InStep(ctx, req, start, p0, Awaiting(pid, 0))
    modifies ctx
    ensures InStep(ctx, req, start, p0, end)
    ensures end.Awaiting? ==> ctx.pos == |ctx.script|
    ensures ctx.pos >= old(ctx.pos)
  {
    var numRetries: nat := 0;
    while MAX_RETRIES - numRetries > 0
      invariant numRetries < MAX_RETRIES && ctx.pos >= old(ctx.pos)
      invariant InStep(ctx, req, start, p0, Awaiting(pid, numRetries))
      decreases |ctx.script| - ctx.pos
    {
      var r := AwaitResponse(ctx, pid, numRetries, req, start, p0);
      match r {
        case Starved(k) => return Awaiting(pid, numRetries + k);
        case NoResponse(_) => return Stopped(TimedOut);
        case Failed(_, gone) => return Stopped(if gone then ChannelGone else SendFailed);
        case Response(attempts, e) =>
          numRetries := numRetries + attempts;
          match e {
            case Undecodable => return Stopped(BadPacket);
            case Received(packet) =>
              if packet == Pubrel(pid) {
                break;
              }
          }
      }
    }
    var ok := ctx.Send(Pubcomp(pid));
    return if ok then Polling else Stopped(SendFailed);
  }

  /** The machine's reaction while polling, to anything but a publish. */
  lemma ReactWhilePolling(req: Request, start: Machine, events: seq<Event>, p0: nat, pos: nat, room: nat, t: seq<Item>)
    requires p0 <= pos < |events|
    requires Run(req, start, events, p0, pos) == Machine(Polling, room, t)
    ensures var m, e := Run(req, start, events, p0, pos + 1), events[pos];
            if e.Received? && e.packet.Publish? then
              var (s, items) := React(req, Polling, e, room > 0);
              m == Machine(s, Spend(room, items), t + [Got(e)] + items)
            else
              m == Machine(PollState(req, e), room, t + [Got(e)])
  {
    assert forall u: seq<Item> :: u + [] == u;
  }

  /** Where an event other than a publish takes a polling machine. */
  function PollState(req: Request, e: Event): State {
    match e
    case Disconnected => Stopped(ChannelGone)
    case Received(Suback(pid, codes)) =>
      if pid != req.pid then Stopped(WrongSuback) else if |codes| > req.topics then Stopped(TooManyCodes) else Polling
    case _ => Polling
  }

  /** Shows a message and answers it as its quality of service demands. */
  method HandlePublish(ctx: Context, d: PublishData, ghost req: Request, ghost start: Machine, ghost p0: nat)
    returns (end: State)
    requires p0 <= ctx.pos <= |ctx.script|
    requires var (s, items) := React(req, Polling, Received(Publish(d)), ctx.room > 0);
             Machine(s, Spend(ctx.room, items), ctx.trace + items) == Run(req, start, ctx.script, p0, ctx.pos)
    modifies ctx
    ensures InStep(ctx, req, start, p0, end)
    ensures end.Awaiting? ==> ctx.pos == |ctx.script|
    ensures ctx.pos >= old(ctx.pos)
  {
    ghost var t := ctx.trace;
    ctx.Print(d);
    match d.qospid {
      case Qos0 => return Polling;
      case Qos1(pid) =>
        assert t + [Printed(d), Sent(Puback(pid))] == t + [Printed(d)] + [Sent(Puback(pid))];
        var ok := ctx.Send(Puback(pid));
        return if ok then Polling else Stopped(SendFailed);
      case Qos2(pid) =>
        assert t + [Printed(d), Sent(Pubrec(pid))] == t + [Printed(d)] + [Sent(Pubrec(pid))];
        var ok := ctx.Send(Pubrec(pid));
        if !ok {
          return Stopped(SendFailed);
        }
        end := ReceiveExactlyOnce(ctx, pid, req, start, p0);
    }
  }

  /** The subscribe command's loop: it does what the machine does, event by event, and
      ends only when the machine has stopped or nothing more arrives. */
  method SubscribeLoop(ctx: Context, req: Request) returns (end: State)
    requires ctx.Valid()
    modifies ctx
    ensures ctx.pos >= old(ctx.pos) && ctx.Valid()
    ensures Machine(end, ctx.room, ctx.trace)
            == Run(req, Machine(Polling, old(ctx.room), old(ctx.trace)), ctx.script, old(ctx.pos), ctx.pos)
    ensures end.Stopped? || ctx.pos == |ctx.script|
    ensures old(ctx.pos) == 0 && old(ctx.trace) == [] ==> Good(req, Machine(end, ctx.room, ctx.trace))
  {
    forall to: nat | old(ctx.pos) == 0 && old(ctx.trace) == [] && to <= |ctx.script|
      ensures Good(req, Run(req, Machine(Polling, old(ctx.room), []), ctx.script, 0, to))
    {
      RunsAreGood(req, ctx.room, ctx.script, to);
    }
    ghost var p0, start := ctx.pos, Machine(Polling, ctx.room, ctx.trace);
    while true
      invariant p0 <= ctx.pos && InStep(ctx, req, start, p0, Polling)
      decreases |ctx.script| - ctx.pos
    {
      if ctx.pos < |ctx.script| {
        ReactWhilePolling(req, start, ctx.script, p0, ctx.pos, ctx.room, ctx.trace);
      }
      var e := ctx.Receive();
      match e {
        case None => return Polling;
        case Some(Timeout) => continue;
        case Some(Undecodable) => continue;
        case Some(Disconnected) => return Stopped(ChannelGone);
        case Some(Received(packet)) =>
          match packet {
            case Publish(d) =>
              end := HandlePublish(ctx, d, req, start, p0);
              if !end.Polling? {
                return end;
              }
            case Suback(pid, codes) =>
              if pid != req.pid {
                return Stopped(WrongSuback);
              }
              if |codes| > req.topics {
                return Stopped(TooManyCodes);
              }
            case _ => continue;
          }
      }
    }
  }
}

/** The publish command of mqtt-cli at QoS 2: a machine with one retry budget per phase,
    and the nested loops that behave like it. */
module Sender {
  import opened Wrappers
  import opened Mqtt
  import opened ClientIO

  datatype StopReason = Delivered | NoPubrec | NoPubcomp | ChannelGone | BadPacket | SendFailed

  datatype State = PublishSent(retries: nat) | PubrelSent(retries: nat) | Stopped(reason: StopReason)

  /** What is being sent, under which packet id, and how often each phase may resend. */
  datatype Job = Job(publish: PublishData, pid: Pid, maxRetries: nat)

  predicate ValidJob(job: Job) {
    job.publish.qospid == Qos2(job.pid) && !job.publish.dup
  }

  // ---------- the machine ----------

  /** With no retries at all the command gives up without waiting. */
  function Start(job: Job): State {
    if job.maxRetries == 0 then Stopped(NoPubrec) else PublishSent(0)
  }

  function Duplicate(job: Job): Packet {
    Publish(job.publish.(dup := true))
  }

  /** What a phase resends, and the response that ends it. */
  function Resend(job: Job, s: State): Packet
    requires !s.Stopped?
  {
    if s.PublishSent? then Duplicate(job) else Pubrel(job.pid)
  }

  function Expected(job: Job, s: State): Packet
    requires !s.Stopped?
  {
    if s.PublishSent? then Pubrec(job.pid) else Pubcomp(job.pid)
  }

  /** The same phase, `k` timeouts later. */
  function Later(job: Job, s: State, k: nat): State
    requires !s.Stopped?
  {
    if s.retries + k >= job.maxRetries then Stopped(if s.PublishSent? then NoPubrec else NoPubcomp)
    else s.(retries := s.retries + k)
  }

  function React(job: Job, s: State, e: Event, canSend: bool): (State, seq<Item>) {
    if s.Stopped? then (s, [])
    else
      match e
      case Timeout => if canSend then (Later(job, s, 1), [Sent(Resend(job, s))]) else (Stopped(SendFailed), [])
      case Disconnected => (Stopped(ChannelGone), [])
      case Undecodable => (Stopped(BadPacket), [])
      case Received(packet) =>
        if packet != Expected(job, s) then (s, [])
        else if s.PubrelSent? then (Stopped(Delivered), [])
        else if canSend then (PubrelSent(0), [Sent(Pubrel(job.pid))]) else (Stopped(SendFailed), [])
  }

  datatype Machine = Machine(state: State, room: nat, trace: seq<Item>)

  function Step(job: Job, m: Machine, e: Event): Machine {
    if m.state.Stopped? then m
    else
      var (s, items) := React(job, m.state, e, m.room > 0);
      Machine(s, if items != [] && m.room > 0 then m.room - 1 else m.room, m.trace + [Got(e)] + items)
  }

  function Run(job: Job, m: Machine, events: seq<Event>, from: nat, to: nat): Machine
    requires from <= to <= |events|
  {
    if from == to then m else Step(job, Run(job, m, events, from, to - 1), events[to - 1])
  }

  // ---------- what every run keeps ----------

  /** Whether a Pubrel has been sent. */
  predicate Released(trace: seq<Item>) {
    trace != [] && (Released(trace[..|trace| - 1]) || (trace[|trace| - 1].Sent? && trace[|trace| - 1].packet.Pubrel?))
  }

  /** Timeouts since the phase began: since the start, or since the first Pubrel. */
  function PhaseTimeouts(trace: seq<Item>): nat {
    if trace == [] then 0
    else
      var n := PhaseTimeouts(trace[..|trace| - 1]);
      match trace[|trace| - 1]
      case Got(Timeout) => n + 1
      case Sent(Pubrel(_)) => if Released(trace[..|trace| - 1]) then n else 0
      case _ => n
  }

  function Count(trace: seq<Item>, packet: Packet): nat {
    if trace == [] then 0
    else Count(trace[..|trace| - 1], packet) + if trace[|trace| - 1] == Sent(packet) then 1 else 0
  }

  /** The packet that the end of a trace calls for: a resend after a timeout, the first Pubrel
      after the matching Pubrec. */
  function Due(job: Job, trace: seq<Item>): Option<Packet> {
    if trace == [] then None
    else
      match trace[|trace| - 1]
      case Got(Timeout) => Some(if Released(trace) then Pubrel(job.pid) else Duplicate(job))
      case Got(Received(packet)) => if packet == Pubrec(job.pid) && !Released(trace) then Some(Pubrel(job.pid)) else None
      case _ => None
  }

  /** Section 4.3.3 of MQTT 3.1.1 for a sender: the publish goes out once as it is, then only
      as a duplicate after a timeout and never after a Pubrel; the first Pubrel follows the
      matching Pubrec, later ones follow timeouts; nothing else is sent. And whatever is called
      for is sent at once: only an event that calls for nothing is followed by another. */
  ghost predicate GoodItem(job: Job, trace: seq<Item>, i: nat)
    requires i < |trace|
  {
    && (0 < i && Due(job, trace[..i]).Some? ==> trace[i] == Sent(Due(job, trace[..i]).value))
    && match trace[i]
       case Sent(Publish(d)) =>
         && !Released(trace[..i])
         && if i == 0 then d == job.publish else Publish(d) == Duplicate(job) && trace[i - 1] == Got(Timeout)
       case Sent(packet) =>
         && packet == Pubrel(job.pid) && 0 < i
         && trace[i - 1] == if Released(trace[..i]) then Got(Timeout) else Got(Received(Pubrec(job.pid)))
       case Got(_) => 0 < i
       case Printed(_) => false
  }

  ghost predicate Kept(job: Job, m: Machine) {
    && m.trace != [] && m.trace[0] == Sent(Publish(job.publish))
    && (forall i: nat | i < |m.trace| :: GoodItem(job, m.trace, i))
    && (m.state.PublishSent? || m.state == Stopped(NoPubrec) ==>
          && !Released(m.trace) && Count(m.trace, Pubrel(job.pid)) == 0
          && PhaseTimeouts(m.trace) == Count(m.trace, Duplicate(job)) == RetriesOf(job, m.state))
    && (m.state.PubrelSent? || m.state == Stopped(NoPubcomp) ==>
          && Released(m.trace)
          && PhaseTimeouts(m.trace) + 1 == Count(m.trace, Pubrel(job.pid)) == RetriesOf(job, m.state) + 1)
    && (!m.state.Stopped? ==> m.state.retries < job.maxRetries)
  }

  /** How the command ends, and that it has not ended, can be read off the trace alone: it is
      delivered exactly when the matching Pubcomp came after a Pubrel, fails exactly at data
      that is no packet, at a lost channel, at a packet that is due and finds no room, and
      when a phase has used up its resends; in all other cases it goes on. */
  ghost predicate Decided(job: Job, m: Machine)
    requires m.trace != []
  {
    var last, released := m.trace[|m.trace| - 1], Released(m.trace);
    && (m.state == Stopped(Delivered) <==> released && last == Got(Received(Pubcomp(job.pid))))
    && (m.state == Stopped(BadPacket) <==> last == Got(Undecodable))
    && (m.state == Stopped(ChannelGone) <==> last == Got(Disconnected))
    && (m.state == Stopped(SendFailed) <==> Due(job, m.trace).Some?)
    && (m.state == Stopped(SendFailed) ==> m.room == 0)
    && (m.state == Stopped(NoPubrec) <==> !released && Count(m.trace, Duplicate(job)) == job.maxRetries)
    && (m.state == Stopped(NoPubcomp) <==> released && Count(m.trace, Pubrel(job.pid)) == job.maxRetries + 1)
    && (!m.state.Stopped? ==> (m.state.PubrelSent? <==> released))
  }

  ghost predicate Good(job: Job, m: Machine) {
    Kept(job, m) && Decided(job, m)
  }

  /** The resends made in the current phase; all of the budget when the phase timed out. */
  function RetriesOf(job: Job, s: State): nat {
    if s.Stopped? then job.maxRetries else s.retries
  }

  lemma GoodAppend(job: Job, trace: seq<Item>, item: Item)
    requires forall i: nat | i < |trace| :: GoodItem(job, trace, i)
    requires GoodItem(job, trace + [item], |trace|)
    ensures forall i: nat | i < |trace + [item]| :: GoodItem(job, trace + [item], i)
  {
    var t := trace + [item];
    forall i: nat | i < |t| ensures GoodItem(job, t, i) {
      if i < |trace| {
        assert t[..i] == trace[..i] && GoodItem(job, trace, i);
      }
    }
  }

  /** How the readings of a trace change with one more item. */
  lemma ReadAppend(trace: seq<Item>, item: Item, packet: Packet)
    ensures var t := trace + [item];
            && (Released(t) <==> Released(trace) || (item.Sent? && item.packet.Pubrel?))
            && Count(t, packet) == Count(trace, packet) + (if item == Sent(packet) then 1 else 0)
            && PhaseTimeouts(t) == (match item
                                    case Got(Timeout) => PhaseTimeouts(trace) + 1
                                    case Sent(Pubrel(_)) => if Released(trace) then PhaseTimeouts(trace) else 0
                                    case _ => PhaseTimeouts(trace))
  {
    assert (trace + [item])[..|trace|] == trace;
  }

  /** An event that is only taken note of. */
  lemma NotedKeepsKept(job: Job, m: Machine, e: Event)
    requires ValidJob(job) && Good(job, m) && !m.state.Stopped? && React(job, m.state, e, m.room > 0).1 == []
    ensures Kept(job, Machine(React(job, m.state, e, m.room > 0).0, m.room, m.trace + [Got(e)]))
  {
    assert (m.trace + [Got(e)])[..|m.trace|] == m.trace;
    GoodAppend(job, m.trace, Got(e));
    ReadAppend(m.trace, Got(e), Duplicate(job));
    ReadAppend(m.trace, Got(e), Pubrel(job.pid));
  }

  lemma NotedDecides(job: Job, m: Machine, e: Event)
    requires ValidJob(job) && Good(job, m) && !m.state.Stopped? && React(job, m.state, e, m.room > 0).1 == []
    ensures Decided(job, Machine(React(job, m.state, e, m.room > 0).0, m.room, m.trace + [Got(e)]))
  {
    ReadAppend(m.trace, Got(e), Duplicate(job));
    ReadAppend(m.trace, Got(e), Pubrel(job.pid));
  }

  /** An event that is answered with a packet. */
  lemma AnsweredKeepsKept(job: Job, m: Machine, e: Event, room: nat)
    requires ValidJob(job) && Good(job, m) && !m.state.Stopped?
    requires e == Timeout || (m.state.PublishSent? && e == Received(Pubrec(job.pid)))
    ensures var (s, items) := React(job, m.state, e, true);
            |items| == 1 && Kept(job, Machine(s, room, m.trace + [Got(e)] + [items[0]]))
  {
    var (s, items) := React(job, m.state, e, true);
    var t := m.trace + [Got(e)];
    assert t[..|m.trace|] == m.trace;
    GoodAppend(job, m.trace, Got(e));
    ReadAppend(m.trace, Got(e), Duplicate(job));
    ReadAppend(m.trace, Got(e), Pubrel(job.pid));
    assert (t + [items[0]])[..|t|] == t;
    GoodAppend(job, t, items[0]);
    ReadAppend(t, items[0], Duplicate(job));
    ReadAppend(t, items[0], Pubrel(job.pid));
  }

  lemma AnsweredDecides(job: Job, m: Machine, e: Event, room: nat)
    requires ValidJob(job) && Good(job, m) && !m.state.Stopped?
    requires e == Timeout || (m.state.PublishSent? && e == Received(Pubrec(job.pid)))
    ensures var (s, items) := React(job, m.state, e, true);
            |items| == 1 && Decided(job, Machine(s, room, m.trace + [Got(e)] + [items[0]]))
  {
    var (s, items) := React(job, m.state, e, true);
    var t := m.trace + [Got(e)];
    ReadAppend(m.trace, Got(e), Duplicate(job));
    ReadAppend(m.trace, Got(e), Pubrel(job.pid));
    ReadAppend(t, items[0], Duplicate(job));
    ReadAppend(t, items[0], Pubrel(job.pid));
  }

  lemma StepKeepsGood(job: Job, m: Machine, e: Event)
    requires ValidJob(job) && Good(job, m)
    ensures Good(job, Step(job, m, e))
  {
    if !m.state.Stopped? {
      var (s, items) := React(job, m.state, e, m.room > 0);
      var t := m.trace + [Got(e)];
      if items != [] {
        AnsweredKeepsKept(job, m, e, m.room - 1);
        AnsweredDecides(job, m, e, m.room - 1);
        assert t + items == t + [items[0]];
      } else {
        assert t + items == t;
        NotedKeepsKept(job, m, e);
        NotedDecides(job, m, e);
      }
    }
  }

  /** Every run of the sender, for every retry limit and whatever arrives. In particular the
      retries of a phase stay below the limit, so the remaining budget never underflows, and
      a timeout failure comes only after exactly `maxRetries` timeouts of that phase, each
      answered by a resend, however many other packets arrived in between. */
  lemma {:induction false} RunsAreGood(job: Job, room: nat, events: seq<Event>, to: nat)
    requires ValidJob(job) && to <= |events|
    ensures Good(job, Run(job, Machine(Start(job), room, [Sent(Publish(job.publish))]), events, 0, to))
  {
    var start := Machine(Start(job), room, [Sent(Publish(job.publish))]);
    if to == 0 {
      assert start.trace[..0] == [];
    } else {
      RunsAreGood(job, room, events, to - 1);
      StepKeepsGood(job, Run(job, start, events, 0, to - 1), events[to - 1]);
    }
  }

  // ---------- the loops ----------

  function SetDup(packet: Packet): Packet {
    if packet.Publish? then Publish(packet.publish.(dup := true)) else packet
  }

  /** Waits for any response. After a timeout a publish is marked as a duplicate, in place,
      before the packet is sent again. */
  method WaitOnResponseWithRetry(ctx: Context, packet: Packet, maxRetries: nat) returns (r: Wait, packet': Packet)
    requires ctx.Valid()
    modifies ctx
    ensures ctx.Valid() && ctx.pos >= old(ctx.pos) && ctx.room == old(ctx.room) - r.resends
    ensures Waited(ctx.script, old(ctx.pos), old(ctx.trace), SetDup(packet), maxRetries, r, ctx.pos, ctx.room, ctx.trace)
    ensures SetDup(packet') == SetDup(packet)
  {
    packet' := packet;
    for attempt := 0 to maxRetries
      invariant ctx.Valid() && ctx.pos == old(ctx.pos) + attempt && ctx.room == old(ctx.room) - attempt
      invariant Timeouts(ctx.script, old(ctx.pos), attempt)
      invariant ctx.trace == old(ctx.trace) + Resent(SetDup(packet), attempt)
      invariant SetDup(packet') == SetDup(packet)
    {
      var e := ctx.Receive();
      match e {
        case None => return Starved(attempt), packet';
        case Some(Timeout) =>
          if packet'.Publish? {
            packet' := Publish(packet'.publish.(dup := true));
          }
          var ok := ctx.Send(packet');
          if !ok {
            return Failed(attempt, false), packet';
          }
        case Some(Disconnected) => return Failed(attempt, true), packet';
        case Some(rx) => return Response(attempt, rx), packet';
      }
    }
    return NoResponse(maxRetries), packet';
  }

  /** The context has done exactly what the machine does on the events since `p0`. */
  ghost predicate InStep(ctx: Context, job: Job, start: Machine, p0: nat, s: State)
    reads ctx
  {
    p0 <= ctx.pos <= |ctx.script| && Machine(s, ctx.room, ctx.trace) == Run(job, start, ctx.script, p0, ctx.pos)
  }

  lemma {:induction false} RunTimeouts(job: Job, start: Machine, events: seq<Event>, p0: nat, pos: nat, k: nat,
                                       s: State, room: nat, t: seq<Item>)
    requires p0 <= pos && Timeouts(events, pos, k) && k <= room
    requires !s.Stopped? && s.retries + k <= job.maxRetries && (s.retries < job.maxRetries || job.maxRetries == 0)
    requires Run(job, start, events, p0, pos) == Machine(Later(job, s, 0), room, t)
    ensures Run(job, start, events, p0, pos + k) == Machine(Later(job, s, k), room - k, t + Resent(Resend(job, s), k))
  {
    if k > 0 {
      RunTimeouts(job, start, events, p0, pos, k - 1, s, room, t);
      ResentOneMore(t, Resend(job, s), k);
    }
  }

  /** Where a wait takes a machine in one of its two phases. */
  function AfterWait(job: Job, s: State, r: Wait, room: nat): State
    requires !s.Stopped?
  {
    match r
    case Starved(k) => Later(job, s, k)
    case NoResponse(k) => Later(job, s, k)
    case Failed(_, gone) => Stopped(if gone then ChannelGone else SendFailed)
    case Response(k, e) => React(job, Later(job, s, k), e, room > 0).0
  }

  lemma RunWait(job: Job, start: Machine, events: seq<Event>, p0: nat, p: nat, room: nat, t: seq<Item>,
                s: State, r: Wait, p': nat, room': nat, t': seq<Item>)
    requires p0 <= p <= p' <= |events| && r.resends <= room && room' == room - r.resends
    requires !s.Stopped? && (s.retries < job.maxRetries || (job.maxRetries == 0 && s.retries == 0))
    requires Run(job, start, events, p0, p) == Machine(Later(job, s, 0), room, t)
    requires Waited(events, p, t, Resend(job, s), job.maxRetries - s.retries, r, p', room', t')
    ensures var m := Run(job, start, events, p0, p');
            && m.state == AfterWait(job, s, r, room')
            && if m.state.PubrelSent? && s.PublishSent? then m.room == room' - 1 && m.trace == t' + [Sent(Pubrel(job.pid))]
               else m.room == room' && m.trace == t'
  {
    RunTimeouts(job, start, events, p0, p, r.resends, s, room, t);
    var u := t + Resent(Resend(job, s), r.resends);
    if r.Response? || r.Failed? {
      assert !Later(job, s, r.resends).Stopped?;
      LastEvent(job, start, events, p0, p + r.resends, Later(job, s, r.resends), room', u);
    }
  }

  /** The reaction to an event that is not an answered timeout. */
  lemma LastEvent(job: Job, start: Machine, events: seq<Event>, p0: nat, p: nat, s: State, room: nat, t: seq<Item>)
    requires p0 <= p < |events| && !s.Stopped? && (events[p] != Timeout || room == 0)
    requires Run(job, start, events, p0, p) == Machine(s, room, t)
    ensures var m := Run(job, start, events, p0, p + 1);
            && m.state == React(job, s, events[p], room > 0).0
            && if m.state.PubrelSent? && s.PublishSent? then
                 m.room == room - 1 && m.trace == t + [Got(events[p])] + [Sent(Pubrel(job.pid))]
               else m.room == room && m.trace == t + [Got(events[p])]
  {
    assert t + [Got(events[p])] + [] == t + [Got(events[p])];
  }

  /** One wait of a phase, with the machine alongside; only the Pubrel that answers the
      Pubrec is left to the caller. */
  method AwaitResponse(ctx: Context, job: Job, s: State, packet: Packet, ghost start: Machine, ghost p0: nat)
    returns (r: Wait, packet': Packet)
    requires !s.Stopped? && (s.retries < job.maxRetries || (job.maxRetries == 0 && s.retries == 0))
    requires SetDup(packet) == Resend(job, s) && InStep(ctx, job, start, p0, Later(job, s, 0))
    modifies ctx
    ensures ctx.Valid() && p0 <= ctx.pos && ctx.pos >= old(ctx.pos) && SetDup(packet') == SetDup(packet)
    ensures r.resends <= job.maxRetries - s.retries && (r.Response? ==> r.resends < job.maxRetries - s.retries)
    ensures r.NoResponse? ==> r.resends == job.maxRetries - s.retries
    ensures r.Response? ==> ctx.pos > old(ctx.pos) && (r.event == Undecodable || r.event.Received?)
    ensures r.Starved? ==> ctx.pos == |ctx.script|
    ensures var s' := AfterWait(job, s, r, ctx.room);
            if s'.PubrelSent? && s.PublishSent? then
              Run(job, start, ctx.script, p0, ctx.pos) == Machine(s', ctx.room - 1, ctx.trace + [Sent(Pubrel(job.pid))])
            else InStep(ctx, job, start, p0, s')
  {
    ghost var p, room, t := ctx.pos, ctx.room, ctx.trace;
    r, packet' := WaitOnResponseWithRetry(ctx, packet, job.maxRetries - s.retries);
    RunWait(job, start, ctx.script, p0, p, room, t, s, r, ctx.pos, ctx.room, ctx.trace);
  }

  /** What a decoded response does to the phase: anything but the expected packet is
      ignored, a Pubrec is answered with the Pubrel, a Pubcomp completes the transaction. */
  method TakeResponse(ctx: Context, job: Job, s: State, rx: Packet, ghost start: Machine, ghost p0: nat) returns (s': State)
    requires !s.Stopped? && s.retries < job.maxRetries && p0 <= ctx.pos <= |ctx.script|
    requires var next := React(job, s, Received(rx), ctx.room > 0).0;
             if next.PubrelSent? && s.PublishSent? then
               Run(job, start, ctx.script, p0, ctx.pos) == Machine(next, ctx.room - 1, ctx.trace + [Sent(Pubrel(job.pid))])
             else InStep(ctx, job, start, p0, next)
    modifies ctx`room, ctx`trace
    ensures s' == React(job, s, Received(rx), old(ctx.room) > 0).0 && InStep(ctx, job, start, p0, s')
  {
    if s.PublishSent? {
      if rx != Pubrec(job.pid) {
        return s;
      }
      var ok := ctx.Send(Pubrel(job.pid));
      return if ok then PubrelSent(0) else Stopped(SendFailed);
    } else {
      return if rx != Pubcomp(job.pid) then s else Stopped(Delivered);
    }
  }

  /** The exactly-once sender: first wait for the Pubrec, then send the Pubrel and wait for
      the Pubcomp. The remaining budget handed to each wait is never negative. */
  method HandleQosExactlyOnce(ctx: Context, job: Job, ghost start: Machine, ghost p0: nat) returns (end: State)
    requires ValidJob(job) && InStep(ctx, job, start, p0, Start(job))
    modifies ctx
    ensures InStep(ctx, job, start, p0, end) && ctx.pos >= old(ctx.pos)
    ensures end.Stopped? || ctx.pos == |ctx.script|
  {
    var state, packet := PublishSent(0), Publish(job.publish);
    while true
      invariant !state.Stopped? && (state.retries < job.maxRetries || (job.maxRetries == 0 && state.retries == 0))
      invariant SetDup(packet) == Resend(job, state) && ctx.pos >= old(ctx.pos)
      invariant InStep(ctx, job, start, p0, Later(job, state, 0))
      decreases |ctx.script| - ctx.pos
    {
      var r;
      r, packet := AwaitResponse(ctx, job, state, packet, start, p0);
      match r {
        case Starved(k) => return Later(job, state, k);
        case NoResponse(_) => return Stopped(if state.PublishSent? then NoPubrec else NoPubcomp);
        case Failed(_, gone) => return Stopped(if gone then ChannelGone else SendFailed);
        case Response(attempts, e) =>
          if e == Undecodable {
            return Stopped(BadPacket);
          }
          var next := TakeResponse(ctx, job, state.(retries := state.retries + attempts), e.packet, start, p0);
          if next.Stopped? {
            return next;
          }
          if next.PubrelSent? && state.PublishSent? {
            packet := Pubrel(job.pid);
          }
          state := next;
      }
    }
  }

  /** The publish command at QoS 2, from the first send: what it sends, receives and returns
      is what the machine does, so all of `Good` holds of it. */
  method PublishExactlyOnce(ctx: Context, job: Job) returns (sent: bool, end: State)
    requires ValidJob(job) && ctx.Valid() && ctx.pos == 0 && ctx.trace == []
    modifies ctx
    ensures sent <==> old(ctx.room) > 0
    ensures !sent ==> ctx.trace == [] && end == Stopped(SendFailed)
    ensures sent ==> Good(job, Machine(end, ctx.room, ctx.trace)) && (end.Stopped? || ctx.pos == |ctx.script|)
  {
    end := Stopped(SendFailed);
    sent := ctx.Send(Publish(job.publish));
    if sent {
      ghost var start := Machine(Start(job), ctx.room, ctx.trace);
      assert ctx.trace == [Sent(Publish(job.publish))];
      end := HandleQosExactlyOnce(ctx, job, start, 0);
      RunsAreGood(job, start.room, ctx.script, ctx.pos);
    }
  }

  // ---------- QoS 1 ----------

  const MAX_RETRIES: nat := 5

  datatype AckEnd = Acked | GaveUp | Undecoded | NotSent | Waiting

  /** Receive calls that brought nothing: here a lost channel counts as a timeout. */
  function Silences(trace: seq<Item>): nat {
    if trace == [] then 0
    else
      var last := trace[|trace| - 1];
      Silences(trace[..|trace| - 1]) + if last == Got(Timeout) || last == Got(Disconnected) then 1 else 0
  }

  lemma SilencesAppend(trace: seq<Item>, item: Item)
    ensures Silences(trace + [item]) ==
            Silences(trace) + if item == Got(Timeout) || item == Got(Disconnected) then 1 else 0
  {
    assert (trace + [item])[..|trace|] == trace;
  }

  /** The publish was sent once as it is, then `n` times as a duplicate, and nothing else;
      `silent` receive calls brought nothing. */
  ghost predicate Repeated(d: PublishData, trace: seq<Item>, n: nat, silent: nat) {
    && trace != [] && trace[0] == Sent(Publish(d))
    && Count(trace, Publish(d.(dup := true))) == n && Silences(trace) == silent
    && forall i: nat | 0 < i < |trace| && trace[i].Sent? :: trace[i] == Sent(Publish(d.(dup := true)))
  }

  lemma RepeatedStarts(d: PublishData)
    requires !d.dup
    ensures Repeated(d, [Sent(Publish(d))], 0, 0)
  {
    ReadAppend([], Sent(Publish(d)), Publish(d.(dup := true)));
    SilencesAppend([], Sent(Publish(d)));
    assert [] + [Sent(Publish(d))] == [Sent(Publish(d))];
  }

  lemma RepeatedGot(d: PublishData, trace: seq<Item>, n: nat, silent: nat, e: Event)
    requires Repeated(d, trace, n, silent)
    ensures Repeated(d, trace + [Got(e)], n, silent + if e == Timeout || e == Disconnected then 1 else 0)
  {
    ReadAppend(trace, Got(e), Publish(d.(dup := true)));
    SilencesAppend(trace, Got(e));
  }

  lemma RepeatedSent(d: PublishData, trace: seq<Item>, n: nat, silent: nat)
    requires Repeated(d, trace, n, silent)
    ensures Repeated(d, trace + [Sent(Publish(d.(dup := true)))], n + 1, silent)
  {
    ReadAppend(trace, Sent(Publish(d.(dup := true))), Publish(d.(dup := true)));
    SilencesAppend(trace, Sent(Publish(d.(dup := true))));
  }

  predicate Ends(trace: seq<Item>, e: Event) {
    trace != [] && trace[|trace| - 1] == Got(e)
  }

  /** One more copy, marked as a duplicate in place before it is sent. */
  method SendAgain(ctx: Context, packet: Packet, ghost d: PublishData, ghost n: nat, ghost silent: nat)
    returns (ok: bool, packet': Packet)
    requires packet == Publish(d) || packet == Publish(d.(dup := true))
    requires Repeated(d, ctx.trace, n, silent)
    modifies ctx`room, ctx`trace
    ensures packet' == Publish(d.(dup := true))
    ensures ok ==> Repeated(d, ctx.trace, n + 1, silent) && ctx.trace[|ctx.trace| - 1].Sent?
    ensures !ok ==> ctx.trace == old(ctx.trace) && ctx.room == 0
  {
    packet' := Publish(packet.publish.(dup := true));
    RepeatedSent(d, ctx.trace, n, silent);
    ok := ctx.Send(packet');
  }

  /** The publish command at QoS 1: the publish goes out once as it is and at most
      `MAX_RETRIES` times as a duplicate, once after each silence. It succeeds exactly when the
      matching Puback came, gives up exactly at the silence after the last duplicate, fails
      exactly at data that is no packet or at a silence after which nothing can be sent, and
      goes on in all other cases. */
  method PublishAtLeastOnce(ctx: Context, d: PublishData, pid: Pid) returns (end: AckEnd, ghost n: nat, ghost silent: nat)
    requires d.qospid == Qos1(pid) && !d.dup && ctx.Valid() && ctx.pos == 0 && ctx.trace == []
    modifies ctx
    ensures old(ctx.room) == 0 ==> end == NotSent && ctx.trace == []
    ensures old(ctx.room) > 0 ==> Repeated(d, ctx.trace, n, silent) && n <= MAX_RETRIES
    ensures n <= silent <= n + 1
    ensures end == Acked <==> Ends(ctx.trace, Received(Puback(pid)))
    ensures end == Undecoded <==> Ends(ctx.trace, Undecodable)
    ensures end == GaveUp <==> silent == MAX_RETRIES + 1
    ensures end == NotSent <==> ctx.trace == [] || (silent == n + 1 && n < MAX_RETRIES)
    ensures end == NotSent ==> ctx.room == 0
    ensures end == Waiting ==> ctx.pos == |ctx.script|
  {
    n, silent := 0, 0;
    var packet := Publish(d);
    var ok := ctx.Send(packet);
    if !ok {
      return NotSent, 0, 0;
    }
    RepeatedStarts(d);
    assert ctx.trace == [Sent(packet)];
    var numRetries: nat := 0;
    while true
      invariant numRetries <= MAX_RETRIES && ctx.Valid()
      invariant packet == Publish(d) || packet == Publish(d.(dup := true))
      invariant n == silent == numRetries && Repeated(d, ctx.trace, n, silent)
      invariant !Ends(ctx.trace, Received(Puback(pid))) && !Ends(ctx.trace, Undecodable)
      decreases |ctx.script| - ctx.pos
    {
      ghost var t := ctx.trace;
      var e := ctx.Receive();
      if e == None {
        return Waiting, n, silent;
      }
      RepeatedGot(d, t, n, silent, e.value);
      match e {
        case Some(Received(rx)) =>
          if rx == Puback(pid) {
            return Acked, n, silent;
          }
        case Some(Undecodable) => return Undecoded, n, silent;
        case Some(_) =>
          silent := silent + 1;
          if numRetries >= MAX_RETRIES {
            return GaveUp, n, silent;
          }
          ok, packet := SendAgain(ctx, packet, d, n, silent);
          if !ok {
            return NotSent, n, silent;
          }
          numRetries, n := numRetries + 1, n + 1;
      }
    }
  }
}

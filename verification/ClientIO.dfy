/** The network as the mqtt-cli commands see it. What will be received is a finite
    script; when the script runs out, the model of a command stops where it is. */
module ClientIO {
  import opened Wrappers
  import opened Mqtt

  /** What a receive call yields: nothing in time, a decoded packet, data that is not
      a packet, or the news that the channel is gone. */
  datatype Event = Timeout | Received(packet: Packet) | Undecodable | Disconnected

  datatype Item = Got(event: Event) | Printed(publish: PublishData) | Sent(packet: Packet)

  /** The connection of a command. Sends succeed until `room` is used up and fail from
      then on; `trace` records everything received, printed and sent, in order. */
  class Context {
    const script: seq<Event>
    var pos: nat
    var room: nat
    var trace: seq<Item>

    ghost predicate Valid()
      reads this
    {
      pos <= |script|
    }

    constructor (script: seq<Event>, room: nat)
      ensures Valid() && this.script == script && this.room == room && pos == 0 && trace == []
    {
      this.script, this.room := script, room;
      pos, trace := 0, [];
    }

    method Receive() returns (e: Option<Event>)
      requires Valid()
      modifies this`pos, this`trace
      ensures Valid()
      ensures old(pos) == |script| ==> e == None && pos == old(pos) && trace == old(trace)
      ensures old(pos) < |script| ==>
                e == Some(script[old(pos)]) && pos == old(pos) + 1 && trace == old(trace) + [Got(script[old(pos)])]
    {
      if pos == |script| {
        return None;
      }
      e := Some(script[pos]);
      pos, trace := pos + 1, trace + [Got(script[pos])];
    }

    method Send(packet: Packet) returns (ok: bool)
      modifies this`room, this`trace
      ensures ok <==> old(room) > 0
      ensures ok ==> room == old(room) - 1 && trace == old(trace) + [Sent(packet)]
      ensures !ok ==> room == old(room) && trace == old(trace)
    {
      if room == 0 {
        return false;
      }
      room, trace := room - 1, trace + [Sent(packet)];
      return true;
    }

    method Print(publish: PublishData)
      modifies this`trace
      ensures trace == old(trace) + [Printed(publish)]
    {
      trace := trace + [Printed(publish)];
    }
  }

  // ---------- waiting for a response ----------

  /** How a wait ends: a response, too many timeouts, a lost channel or a failed resend, or
      the end of the script; always with the number of resends made. */
  datatype Wait =
    | Response(resends: nat, event: Event)
    | NoResponse(resends: nat)
    | Failed(resends: nat, gone: bool)
    | Starved(resends: nat)

  /** What `k` timeouts in a row leave in the trace. */
  function Resent(packet: Packet, k: nat): seq<Item> {
    if k == 0 then [] else Resent(packet, k - 1) + [Got(Timeout), Sent(packet)]
  }

  lemma ResentOneMore(t: seq<Item>, packet: Packet, k: nat)
    requires k > 0
    ensures t + Resent(packet, k) == t + Resent(packet, k - 1) + [Got(Timeout)] + [Sent(packet)]
  {
  }

  ghost predicate Timeouts(events: seq<Event>, pos: nat, k: nat) {
    pos + k <= |events| && forall i :: pos <= i < pos + k ==> events[i] == Timeout
  }

  /** What waiting from position `p` does: some timeouts, each followed by a resend, and
      then the event that ended the wait. */
  ghost predicate Waited(events: seq<Event>, p: nat, t: seq<Item>, packet: Packet, maxRetries: nat,
                         r: Wait, p': nat, room': nat, t': seq<Item>)
  {
    && Timeouts(events, p, r.resends)
    && var q, u := p + r.resends, t + Resent(packet, r.resends);
       match r
       case NoResponse(k) => k == maxRetries && p' == q && t' == u
       case Starved(k) => k < maxRetries && p' == q == |events| && t' == u
       case Response(k, e) =>
         && k < maxRetries && e != Timeout && e != Disconnected
         && q < |events| && events[q] == e && p' == q + 1 && t' == u + [Got(e)]
       case Failed(k, gone) =>
         && k < maxRetries && q < |events| && p' == q + 1 && t' == u + [Got(events[q])]
         && if gone then events[q] == Disconnected else events[q] == Timeout && room' == 0
  }
}

/** Whole runs of a session: any sequence of handler calls and timer wake-ups,
    with a log of what was accepted and what was resent. */
module QosRuns {
  import opened Wrappers
  import opened Mqtt
  import opened Qos

  datatype Event = Call(pid: Pid, packet: Packet) | Wake(task: TaskId)

  datatype LogItem =
    | Begun(pid: Pid, packet: Packet)
    | Advanced(pid: Pid, packet: Packet)
    | Resent(pid: Pid, packet: Packet)

  datatype Trace = Trace(view: SessionView, log: seq<LogItem>)

  function Step(v: SessionView, e: Event, maxRetries: nat): SessionView {
    match e
    case Call(pid, packet) => UpdateQos(v, pid, packet)
    case Wake(id) => if id in v.tasks.live then v.(tasks := WakeTask(v.tasks, id, maxRetries)) else v
  }

  /** What an event adds to the log: an opened or advanced transaction, or a resend. */
  function Logged(v: SessionView, e: Event): seq<LogItem> {
    match e
    case Call(pid, packet) =>
      if pid !in v.txns then
        if StartsTransaction(packet) then [Begun(pid, packet)] else []
      else if Expected(v.txns[pid].state) == Ok(packet) then [Advanced(pid, packet)] else []
    case Wake(id) =>
      if id !in v.tasks.live then [] else
      match TxnPid(v.tasks.live[id].packet)
      case Some(pid) => [Resent(pid, v.tasks.live[id].packet)]
      case None => []
  }

  function Run(events: seq<Event>, maxRetries: nat): Trace {
    if events == [] then Trace(NEW_SESSION, [])
    else
      var t := Run(events[..|events| - 1], maxRetries);
      var e := events[|events| - 1];
      Trace(Step(t.view, e, maxRetries), t.log + Logged(t.view, e))
  }

  predicate FromHandler(events: seq<Event>) {
    forall i :: 0 <= i < |events| && events[i].Call? ==> HandlerCall(events[i].pid, events[i].packet)
  }

  // ---------- reading the log ----------

  /** The packets accepted so far by the open transaction of `pid`; empty when none is open. */
  function Word(log: seq<LogItem>, pid: Pid): seq<Packet> {
    if log == [] then []
    else
      var w := Word(log[..|log| - 1], pid);
      match log[|log| - 1]
      case Begun(p, k) => if p == pid then [k] else w
      case Advanced(p, k) => if p != pid then w else if Closes(k) then [] else w + [k]
      case Resent(_, _) => w
  }

  /** Resends since the open transaction of `pid` last moved. */
  function PhaseResends(log: seq<LogItem>, pid: Pid): nat {
    if log == [] then 0
    else
      var n := PhaseResends(log[..|log| - 1], pid);
      match log[|log| - 1]
      case Begun(p, _) => if p == pid then 0 else n
      case Advanced(p, _) => if p == pid then 0 else n
      case Resent(p, _) => if p == pid then n + 1 else n
  }

  /** Resends of the whole open transaction of `pid`. */
  function Resends(log: seq<LogItem>, pid: Pid): nat {
    if log == [] then 0
    else
      var n := Resends(log[..|log| - 1], pid);
      match log[|log| - 1]
      case Begun(p, _) => if p == pid then 0 else n
      case Advanced(p, k) => if p == pid && Closes(k) then 0 else n
      case Resent(p, _) => if p == pid then n + 1 else n
  }

  /** The full course of a transaction that opens with `first`. */
  function Flow(first: Packet, pid: Pid): seq<Packet> {
    match first
    case Publish(d) =>
      if d.qospid.Qos1? then [first, Puback(pid)]
      else [first, Pubrec(pid), Pubrel(pid), Pubcomp(pid)]
    case _ => [first, Pubrel(pid), Pubcomp(pid)]
  }

  /** The resends allowed before the current phase of a transaction with `n` accepted packets. */
  function Earlier(n: nat, maxRetries: nat): nat {
    if n <= 1 then 0 else if n == 2 then maxRetries + 1 else 2 * (maxRetries + 1)
  }

  /** The open transaction follows its flow, its last packet is the tracker's state,
      and a live task has counted exactly the resends of the current phase. */
  ghost predicate Consistent(t: Trace, pid: Pid, maxRetries: nat) {
    var w := Word(t.log, pid);
    && (w == [] <==> pid !in t.view.txns)
    && (w == [] ==> Resends(t.log, pid) == 0)
    && (w != [] ==>
          && TxnPid(w[0]) == Some(pid) && StartsTransaction(w[0])
          && |w| < |Flow(w[0], pid)| && w == Flow(w[0], pid)[..|w|]
          && w[|w| - 1] == t.view.txns[pid].state)
    && (maxRetries != 0 && w != [] ==>
          && PhaseResends(t.log, pid) <= maxRetries + 1
          && Resends(t.log, pid) <= Earlier(|w|, maxRetries) + PhaseResends(t.log, pid))
    && (maxRetries != 0 ==> forall id :: Owns(t.view, pid, id) && id in t.view.tasks.live ==>
          PhaseResends(t.log, pid) == t.view.tasks.live[id].attempts <= maxRetries)
  }

  /** What a handler call does to the tracker it names. */
  lemma OwnTracker(v: SessionView, pid: Pid, packet: Packet)
    requires WellKeyed(v) && Coupled(v) && HandlerCall(pid, packet)
    ensures var v' := UpdateQos(v, pid, packet);
            if Logged(v, Call(pid, packet)) == [] then
              && (pid in v'.txns <==> pid in v.txns)
              && (pid in v.txns ==> v'.txns[pid] == Txn(v.txns[pid].state, None))
            else if Closes(packet) then
              pid !in v'.txns
            else
              && pid in v'.txns && v'.txns[pid] == Txn(packet, Some(v.tasks.next))
              && v.tasks.next in v'.tasks.live && v'.tasks.live[v.tasks.next] == RetryTask(packet, 0)
  {
  }

  /** A task that is neither the updated tracker's nor new is left alone. */
  lemma OtherTask(v: SessionView, pid: Pid, packet: Packet, id: TaskId)
    requires WellKeyed(v) && HandlerCall(pid, packet) && id < v.tasks.next && !Owns(v, pid, id)
    ensures var v' := UpdateQos(v, pid, packet);
            && (id in v'.tasks.live <==> id in v.tasks.live)
            && (id in v.tasks.live ==> v'.tasks.live[id] == v.tasks.live[id])
  {
    if pid in v.txns {
      FinishedNamesKey(v, pid, packet);
    }
  }

  /** An update of one pid leaves the handle and the live task of another alone. */
  lemma OtherTracker(v: SessionView, pid: Pid, packet: Packet, q: Pid)
    requires WellKeyed(v) && Coupled(v) && HandlerCall(pid, packet) && q != pid
    ensures var v' := UpdateQos(v, pid, packet);
            && (q in v'.txns <==> q in v.txns)
            && (q in v.txns ==> v'.txns[q] == v.txns[q])
            && (q in v.txns && v.txns[q].task.Some? ==>
                  var id := v.txns[q].task.value;
                  && (id in v'.tasks.live <==> id in v.tasks.live)
                  && (id in v.tasks.live ==> v'.tasks.live[id] == v.tasks.live[id]))
  {
    UpdateKeepsKeys(v, pid, packet);
    if q in v.txns && v.txns[q].task.Some? {
      var id := v.txns[q].task.value;
      assert Owns(v, q, id);
      assert !Owns(v, pid, id);
      OtherTask(v, pid, packet, id);
    }
  }

  lemma CallKeepsConsistent(t: Trace, e: Event, pid: Pid, maxRetries: nat)
    requires e.Call? && HandlerCall(e.pid, e.packet)
    requires WellKeyed(t.view) && Coupled(t.view) && Consistent(t, pid, maxRetries)
    ensures Consistent(Trace(Step(t.view, e, maxRetries), t.log + Logged(t.view, e)), pid, maxRetries)
  {
    if pid == e.pid {
      OwnTracker(t.view, pid, e.packet);
      if Logged(t.view, e) == [] {
        assert t.log + Logged(t.view, e) == t.log;
      } else {
        if e.pid in t.view.txns {
          OwnAdvance(t, e, maxRetries);
        } else {
          OwnOpening(t, e, maxRetries);
        }
      }
    } else {
      OthersMove(t, e, pid, maxRetries);
    }
  }

  /** An event about one pid does not change what the log says about another. */
  lemma OthersMove(t: Trace, e: Event, pid: Pid, maxRetries: nat)
    requires e.Call? && HandlerCall(e.pid, e.packet) && e.pid != pid
    requires WellKeyed(t.view) && Coupled(t.view) && Consistent(t, pid, maxRetries)
    ensures Consistent(Trace(Step(t.view, e, maxRetries), t.log + Logged(t.view, e)), pid, maxRetries)
  {
    OtherTracker(t.view, e.pid, e.packet, pid);
    var log' := t.log + Logged(t.view, e);
    assert if Logged(t.view, e) == [] then log' == t.log else log'[..|log'| - 1] == t.log;
    assert Word(log', pid) == Word(t.log, pid);
  }

  /** A transaction opens. */
  lemma OwnOpening(t: Trace, e: Event, maxRetries: nat)
    requires e.Call? && HandlerCall(e.pid, e.packet) && Logged(t.view, e) == [Begun(e.pid, e.packet)]
    requires WellKeyed(t.view) && Coupled(t.view) && Consistent(t, e.pid, maxRetries)
    ensures Consistent(Trace(Step(t.view, e, maxRetries), t.log + [Begun(e.pid, e.packet)]), e.pid, maxRetries)
  {
    OwnTracker(t.view, e.pid, e.packet);
    assert Word(t.log + [Begun(e.pid, e.packet)], e.pid) == [e.packet];
  }

  /** A transaction moves on, or closes. */
  lemma OwnAdvance(t: Trace, e: Event, maxRetries: nat)
    requires e.Call? && HandlerCall(e.pid, e.packet) && Logged(t.view, e) == [Advanced(e.pid, e.packet)]
    requires WellKeyed(t.view) && Coupled(t.view) && Consistent(t, e.pid, maxRetries)
    ensures Consistent(Trace(Step(t.view, e, maxRetries), t.log + [Advanced(e.pid, e.packet)]), e.pid, maxRetries)
  {
    OwnTracker(t.view, e.pid, e.packet);
    var log' := t.log + [Advanced(e.pid, e.packet)];
    assert log'[..|t.log|] == t.log;
    var w, w' := Word(t.log, e.pid), Word(log', e.pid);
    if !Closes(e.packet) {
      NextInFlow(w, e.pid, e.packet);
      assert w' == w + [e.packet] && w'[0] == w[0];
    }
  }

  /** The packet a tracker expects is the next one of its flow. */
  lemma NextInFlow(w: seq<Packet>, pid: Pid, packet: Packet)
    requires w != [] && TxnPid(w[0]) == Some(pid) && StartsTransaction(w[0])
    requires |w| < |Flow(w[0], pid)| && w == Flow(w[0], pid)[..|w|]
    requires Expected(w[|w| - 1]) == Ok(packet) && !Closes(packet)
    ensures |w| + 1 < |Flow(w[0], pid)| && w + [packet] == Flow(w[0], pid)[..|w| + 1]
  {
  }

  lemma WakeKeepsConsistent(t: Trace, e: Event, pid: Pid, maxRetries: nat)
    requires e.Wake?
    requires WellKeyed(t.view) && Coupled(t.view) && Consistent(t, pid, maxRetries)
    ensures Consistent(Trace(Step(t.view, e, maxRetries), t.log + Logged(t.view, e)), pid, maxRetries)
  {
    var log' := t.log + Logged(t.view, e);
    var v' := Step(t.view, e, maxRetries);
    if e.task in t.view.tasks.live {
      assert log'[..|log'| - 1] == t.log;
      var owner: Pid :| Owns(t.view, owner, e.task);
      assert forall id: TaskId :: Owns(v', pid, id) <==> Owns(t.view, pid, id);
    } else {
      assert log' == t.log;
    }
  }

  /** Every reachable state of a session: keys match states, tasks match trackers,
      and the log of every pid is consistent with its tracker. */
  lemma {:induction false} RunInvariant(events: seq<Event>, maxRetries: nat)
    requires FromHandler(events)
    ensures WellKeyed(Run(events, maxRetries).view) && Coupled(Run(events, maxRetries).view)
    ensures forall pid: Pid :: Consistent(Run(events, maxRetries), pid, maxRetries)
  {
    if events != [] {
      var prefix := events[..|events| - 1];
      var e := events[|events| - 1];
      RunInvariant(prefix, maxRetries);
      var t := Run(prefix, maxRetries);
      if e.Call? {
        UpdateKeepsKeys(t.view, e.pid, e.packet);
        UpdateKeepsCoupling(t.view, e.pid, e.packet);
      } else if e.task in t.view.tasks.live {
        WakeKeepsCoupling(t.view, e.task, maxRetries);
      }
      forall pid: Pid ensures Consistent(Run(events, maxRetries), pid, maxRetries) {
        if e.Call? {
          CallKeepsConsistent(t, e, pid, maxRetries);
        } else {
          WakeKeepsConsistent(t, e, pid, maxRetries);
        }
      }
    }
  }

  // ---------- main results ----------

  /** At every moment of every run a pid has at most one live retry task, which
      resends the tracker's current state, and no task is live without a tracker. */
  lemma LiveRetriesMatchTrackers(events: seq<Event>, maxRetries: nat)
    requires FromHandler(events)
    ensures var v := Run(events, maxRetries).view;
            && (forall id :: id in v.tasks.live ==>
                  exists pid: Pid :: pid in v.txns && v.txns[pid] == Txn(v.tasks.live[id].packet, Some(id))
                                     && TxnPid(v.tasks.live[id].packet) == Some(pid))
            && (forall a, b | a in v.tasks.live && b in v.tasks.live ::
                  TxnPid(v.tasks.live[a].packet) == TxnPid(v.tasks.live[b].packet) ==> a == b)
  {
    RunInvariant(events, maxRetries);
    var v := Run(events, maxRetries).view;
    forall id | id in v.tasks.live
      ensures exists pid: Pid :: pid in v.txns && v.txns[pid] == Txn(v.tasks.live[id].packet, Some(id))
                                 && TxnPid(v.tasks.live[id].packet) == Some(pid)
    {
      var pid: Pid :| Owns(v, pid, id);
      assert v.txns[pid] == Txn(v.tasks.live[id].packet, Some(id));
    }
  }

  /** The log read up to any point: an open transaction is a proper prefix of its
      flow and has resent at most `maxRetries + 1` times in each of at most three phases. */
  ghost predicate GoodLog(log: seq<LogItem>, pid: Pid, maxRetries: nat) {
    var w := Word(log, pid);
    && (w != [] ==> TxnPid(w[0]) == Some(pid) && w < Flow(w[0], pid))
    && (maxRetries != 0 ==> Resends(log, pid) <= 3 * (maxRetries + 1))
  }

  /** A packet that closes a transaction completes its flow. */
  ghost predicate ClosesFlow(log: seq<LogItem>, i: nat)
    requires i < |log|
  {
    log[i].Advanced? && Closes(log[i].packet) ==>
      var w := Word(log[..i], log[i].pid);
      w != [] && w + [log[i].packet] == Flow(w[0], log[i].pid)
  }

  ghost predicate FollowsFlows(log: seq<LogItem>, maxRetries: nat) {
    && (forall i: nat, pid: Pid | i <= |log| :: GoodLog(log[..i], pid, maxRetries))
    && (forall i: nat | i < |log| :: ClosesFlow(log, i))
  }

  lemma GoodEnd(events: seq<Event>, pid: Pid, maxRetries: nat)
    requires FromHandler(events)
    ensures GoodLog(Run(events, maxRetries).log, pid, maxRetries)
  {
    RunInvariant(events, maxRetries);
    var t := Run(events, maxRetries);
    assert Consistent(t, pid, maxRetries);
    var w := Word(t.log, pid);
  }

  lemma {:induction false} LogsAreGood(events: seq<Event>, maxRetries: nat, i: nat, pid: Pid)
    requires FromHandler(events) && i <= |Run(events, maxRetries).log|
    ensures GoodLog(Run(events, maxRetries).log[..i], pid, maxRetries)
    decreases |events|
  {
    var log := Run(events, maxRetries).log;
    if i == |log| {
      assert log[..i] == log;
      GoodEnd(events, pid, maxRetries);
    } else {
      var prefix := events[..|events| - 1];
      LogsAreGood(prefix, maxRetries, i, pid);
      assert log[..i] == Run(prefix, maxRetries).log[..i];
    }
  }

  lemma ClosingPacket(t: Trace, e: Event, maxRetries: nat)
    requires e.Call? && HandlerCall(e.pid, e.packet) && WellKeyed(t.view) && Consistent(t, e.pid, maxRetries)
    requires Logged(t.view, e) == [Advanced(e.pid, e.packet)] && Closes(e.packet)
    ensures var w := Word(t.log, e.pid);
            w != [] && w + [e.packet] == Flow(w[0], e.pid)
  {
  }

  lemma {:induction false} ClosingsCompleteFlows(events: seq<Event>, maxRetries: nat, i: nat)
    requires FromHandler(events) && i < |Run(events, maxRetries).log|
    ensures ClosesFlow(Run(events, maxRetries).log, i)
    decreases |events|
  {
    var log := Run(events, maxRetries).log;
    var prefix, e := events[..|events| - 1], events[|events| - 1];
    var t := Run(prefix, maxRetries);
    assert log == t.log + Logged(t.view, e);
    if i < |t.log| {
      ClosingsCompleteFlows(prefix, maxRetries, i);
      assert log[..i] == t.log[..i] && log[i] == t.log[i];
    } else if log[i].Advanced? && Closes(log[i].packet) {
      RunInvariant(prefix, maxRetries);
      assert Logged(t.view, e) == [log[i]] && log[..i] == t.log;
      ClosingPacket(t, e, maxRetries);
    }
  }

  /** In every run and for every pid, the packets accepted between insertion and
      removal follow publish-puback, publish-pubrec-pubrel-pubcomp or
      pubrec-pubrel-pubcomp, removal happens exactly at the end of the flow, and a
      transaction is retransmitted at most `3 * (maxRetries + 1)` times. */
  lemma TransactionsFollowFlows(events: seq<Event>, maxRetries: nat)
    requires FromHandler(events)
    ensures FollowsFlows(Run(events, maxRetries).log, maxRetries)
  {
    var log := Run(events, maxRetries).log;
    forall i: nat, pid: Pid | i <= |log| ensures GoodLog(log[..i], pid, maxRetries) {
      LogsAreGood(events, maxRetries, i, pid);
    }
    forall i: nat | i < |log| ensures ClosesFlow(log, i) {
      ClosingsCompleteFlows(events, maxRetries, i);
    }
  }

  // ---------- what is accepted ----------

  /** The next packet of the flow, and no other, is what the tracker's state waits for. */
  lemma WaitsForNext(w: seq<Packet>, pid: Pid, packet: Packet)
    requires w != [] && TxnPid(w[0]) == Some(pid) && StartsTransaction(w[0])
    requires |w| < |Flow(w[0], pid)| && w == Flow(w[0], pid)[..|w|]
    ensures Expected(w[|w| - 1]) == Ok(packet) <==> packet == Flow(w[0], pid)[|w|]
    ensures Closes(Flow(w[0], pid)[|w|]) <==> |w| + 1 == |Flow(w[0], pid)|
  {
  }

  /** The transaction of `pid` has taken `packet`: it is tracked with a fresh retry of it. */
  ghost predicate Took(v: SessionView, pid: Pid, packet: Packet) {
    && pid in v.txns && v.txns[pid].state == packet && v.txns[pid].task.Some?
    && v.txns[pid].task.value in v.tasks.live && v.tasks.live[v.txns[pid].task.value] == RetryTask(packet, 0)
  }

  /** What a call for `pid` must do when `w` are the packets its open transaction has
      accepted: start one with a Publish or a Pubrec, take the next packet of the flow and
      leave at its end, and turn everything else away at the cost of the retry. */
  ghost predicate CallOutcome(t: Trace, t': Trace, pid: Pid, packet: Packet) {
    var w := Word(t.log, pid);
    if w == [] then
      if packet.Publish? || packet.Pubrec? then
        t'.log == t.log + [Begun(pid, packet)] && Took(t'.view, pid, packet)
      else t' == t
    else
      && |w| < |Flow(w[0], pid)| && pid in t.view.txns
      && if packet != Flow(w[0], pid)[|w|] then
           && t'.log == t.log
           && pid in t'.view.txns && t'.view.txns[pid] == Txn(t.view.txns[pid].state, None)
         else
           && t'.log == t.log + [Advanced(pid, packet)]
           && if |w| + 1 == |Flow(w[0], pid)| then pid !in t'.view.txns else Took(t'.view, pid, packet)
  }

  lemma CallDecides(t: Trace, pid: Pid, packet: Packet, maxRetries: nat)
    requires WellKeyed(t.view) && Coupled(t.view) && Consistent(t, pid, maxRetries) && HandlerCall(pid, packet)
    ensures var e := Call(pid, packet);
            CallOutcome(t, Trace(Step(t.view, e, maxRetries), t.log + Logged(t.view, e)), pid, packet)
  {
    var w := Word(t.log, pid);
    assert t.log + [] == t.log;
    OwnTracker(t.view, pid, packet);
    if w != [] {
      WaitsForNext(w, pid, packet);
    }
  }

  /** In every run a transaction accepts the next packet of its flow, whatever came in between,
      and nothing else; it closes exactly with the last one. */
  lemma NextPacketIsAccepted(events: seq<Event>, pid: Pid, packet: Packet, maxRetries: nat)
    requires FromHandler(events) && HandlerCall(pid, packet)
    ensures CallOutcome(Run(events, maxRetries), Run(events + [Call(pid, packet)], maxRetries), pid, packet)
  {
    RunInvariant(events, maxRetries);
    CallDecides(Run(events, maxRetries), pid, packet, maxRetries);
    assert (events + [Call(pid, packet)])[..|events|] == events;
  }
}

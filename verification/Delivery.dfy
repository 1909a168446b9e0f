/** A QoS 2 message on its way from the broker to a subscriber: the client handler with
    its retry tasks, the subscribe command's receive loop, and two links that keep order
    but may lose any packet. */
module Delivery {
  import opened Wrappers
  import opened Mqtt
  import opened Qos
  import H = Handler
  import R = Receiver
  import IO = ClientIO

  /** The broker's retry limit and the client's subscribe request. */
  datatype Params = Params(maxRetries: nat, req: R.Request)

  /** `h.toClient` is the link to the client, `up` the link back, `inbox` the handler's
      own message channel and `printed` what the client has shown so far. */
  datatype Sys = Sys(
    h: H.State, inbox: seq<BrokerMsg>, up: seq<Packet>, client: R.State, printed: seq<PublishData>)

  datatype Step =
    | Forward(msg: BrokerMsg)    // the broker puts a message into the handler's channel
    | Wake(id: TaskId)           // a retry task's sleep ends
    | Serve                      // the handler takes the next message of its channel
    | Handle                     // the handler takes the next packet from the client
    | LoseDown(i: nat)           // the link to the client loses a packet
    | LoseUp(i: nat)             // the link to the broker loses a packet
    | Deliver(canSend: bool)     // the client receives the next packet
    | Expire(canSend: bool)      // the client's receive call times out
    | StopClient                 // the command ends for any other reason
    | Other(packet: Packet)      // the same client sends something else

  function Without<T>(xs: seq<T>, i: nat): seq<T>
    requires i < |xs|
  {
    xs[..i] + xs[i + 1..]
  }

  /** A handler step that fails ends the connection, so a run contains none. */
  predicate Enabled(s: Sys, step: Step) {
    && s.h.conn.Connected?
    && match step
       case Forward(msg) => !msg.QosRetry?
       case Wake(id) => id in s.h.conn.session.tasks.live
       case Serve => s.inbox != [] && H.OnMessage(s.h, s.inbox[0], true).Done?
       case Handle => s.up != [] && H.OnPacket(s.h, s.up[0], true).Done?
       case LoseDown(i) => i < |s.h.toClient|
       case LoseUp(i) => i < |s.up|
       case Deliver(_) => s.h.toClient != []
       case _ => true
  }

  function ClientReacts(p: Params, s: Sys, e: IO.Event, canSend: bool): Sys {
    var (client, items) := R.React(p.req, s.client, e, canSend);
    s.(client := client, up := s.up + SentBy(items), printed := s.printed + PrintedBy(items))
  }

  /** A reaction prints before it sends, and does each at most once (`ReactionShape`). */
  function SentBy(items: seq<IO.Item>): seq<Packet> {
    if items != [] && items[|items| - 1].Sent? then [items[|items| - 1].packet] else []
  }

  function PrintedBy(items: seq<IO.Item>): seq<PublishData> {
    if items != [] && items[0].Printed? then [items[0].publish] else []
  }

  lemma ReactionShape(req: R.Request, client: R.State, e: IO.Event, canSend: bool)
    ensures var (_, items) := R.React(req, client, e, canSend);
            && |items| <= 2 && (|items| == 2 ==> items[0].Printed? && items[1].Sent?)
            && forall i :: 0 <= i < |items| ==> !items[i].Got?
  {
  }

  function Apply(p: Params, s: Sys, step: Step): Sys
    requires Enabled(s, step)
  {
    match step
    case Forward(msg) => s.(inbox := s.inbox + [msg])
    case Wake(id) =>
      var session := s.h.conn.session;
      s.(inbox := s.inbox + [QosRetry(s.h.conn.id, session.tasks.live[id].packet)],
         h := s.h.(conn := s.h.conn.(session := session.(tasks := WakeTask(session.tasks, id, p.maxRetries)))))
    case Serve => s.(inbox := s.inbox[1..], h := H.OnMessage(s.h, s.inbox[0], true).h)
    case Handle => s.(up := s.up[1..], h := H.OnPacket(s.h, s.up[0], true).h)
    case LoseDown(i) => s.(h := s.h.(toClient := Without(s.h.toClient, i)))
    case LoseUp(i) => s.(up := Without(s.up, i))
    case Deliver(canSend) =>
      ClientReacts(p, s.(h := s.h.(toClient := s.h.toClient[1..])), IO.Received(s.h.toClient[0]), canSend)
    case Expire(canSend) => ClientReacts(p, s, IO.Timeout, canSend)
    case StopClient => s.(client := R.Stopped(R.ChannelGone))
    case Other(packet) => s.(up := s.up + [packet])
  }

  // ---------- runs ----------

  /** The system after a run; `None` when some step was not possible. */
  function After(p: Params, s: Sys, steps: seq<Step>): Option<Sys> {
    if steps == [] then Some(s)
    else
      match After(p, s, Front(steps))
      case None => None
      case Some(t) => if Enabled(t, Last(steps)) then Some(Apply(p, t, Last(steps))) else None
  }

  function Front(steps: seq<Step>): seq<Step>
    requires steps != []
  {
    steps[..|steps| - 1]
  }

  function Last(steps: seq<Step>): Step
    requires steps != []
  {
    steps[|steps| - 1]
  }

  // ---------- one packet id ----------

  predicate About(packet: Packet, pid: Pid) {
    TxnPid(packet) == Some(pid)
  }

  predicate MsgAbout(msg: BrokerMsg, pid: Pid) {
    match msg
    case PublishMsg(_, d) => About(Publish(d), pid)
    case QosRetry(_, packet) => About(packet, pid)
    case _ => false
  }

  /** The QoS 2 message `data` with packet id `pid`: topic, payload and flags included. */
  predicate IsMessage(packet: Packet, data: PublishData, pid: Pid) {
    packet == Publish(data) && data.qospid == Qos2(pid)
  }

  function Shown(printed: seq<PublishData>, pid: Pid): nat {
    if printed == [] then 0
    else Shown(printed[..|printed| - 1], pid) + if About(Publish(printed[|printed| - 1]), pid) then 1 else 0
  }

  /** Whatever was shown under `pid` is `data`. */
  ghost predicate ShowsOnly(printed: seq<PublishData>, data: PublishData, pid: Pid) {
    forall i :: 0 <= i < |printed| && About(Publish(printed[i]), pid) ==> printed[i] == data
  }

  /** Nothing anywhere concerns `pid`. */
  ghost predicate Unused(s: Sys, pid: Pid) {
    && s.h.conn.Connected?
    && WellKeyed(s.h.conn.session) && Coupled(s.h.conn.session)
    && pid !in s.h.conn.session.txns
    && (forall m :: m in s.inbox ==> !MsgAbout(m, pid))
    && (forall k :: k in s.h.toClient ==> !About(k, pid))
    && (forall k :: k in s.up ==> !About(k, pid))
    && Shown(s.printed, pid) == 0
    && !(s.client.Awaiting? && s.client.pid == pid)
  }

  predicate ForwardsAbout(step: Step, pid: Pid) {
    step.Forward? && MsgAbout(step.msg, pid)
  }

  ghost predicate Forwarded(steps: seq<Step>, pid: Pid) {
    steps != [] && (ForwardsAbout(Last(steps), pid) || Forwarded(Front(steps), pid))
  }

  /** Only the message `data` uses `pid`, once, and the client sends nothing else about it. */
  ghost predicate Exclusive(steps: seq<Step>, data: PublishData, pid: Pid) {
    steps != [] ==>
      && Exclusive(Front(steps), data, pid)
      && (Last(steps).Other? ==> !About(Last(steps).packet, pid))
      && (ForwardsAbout(Last(steps), pid) ==>
            && Last(steps).msg.PublishMsg? && IsMessage(Publish(Last(steps).msg.publish), data, pid)
            && !Forwarded(Front(steps), pid))
  }

  /** A retry of the publish waits in the handler's channel. */
  predicate StaleRetry(inbox: seq<BrokerMsg>, data: PublishData, pid: Pid) {
    exists m :: m in inbox && m.QosRetry? && IsMessage(m.packet, data, pid)
  }

  /** The handler is about to handle the client's Pubrec while a retry of the publish waits. */
  predicate Overtakes(s: Sys, step: Step, data: PublishData, pid: Pid) {
    step == Handle && s.up != [] && s.up[0] == Pubrec(pid) && StaleRetry(s.inbox, data, pid)
  }

  /** In no step of the run does the Pubrec overtake a queued retry of the publish. */
  ghost predicate Clean(p: Params, s: Sys, steps: seq<Step>, data: PublishData, pid: Pid) {
    steps != [] ==>
      && Clean(p, s, Front(steps), data, pid)
      && (After(p, s, Front(steps)).Some? ==> !Overtakes(After(p, s, Front(steps)).value, Last(steps), data, pid))
  }

  predicate Tracked(s: Sys, pid: Pid) {
    s.h.conn.Connected? && pid in s.h.conn.session.txns
  }

  /** In some step of the run the broker's tracker of `pid` went away. */
  ghost predicate TrackerFinished(p: Params, s: Sys, steps: seq<Step>, pid: Pid)
    requires After(p, s, steps).Some?
  {
    steps != [] &&
    (|| TrackerFinished(p, s, Front(steps), pid)
     || (Tracked(After(p, s, Front(steps)).value, pid) && !Tracked(After(p, s, steps).value, pid)))
  }

  // ---------- the stages of a delivery ----------

  datatype Stage = Unsent | Queued | Published | Released | Completed

  /** `pid`-packets on the link to the client are publishes (if `msgs`) and Pubrels (if `rels`). */
  ghost predicate DownOnly(xs: seq<Packet>, data: PublishData, pid: Pid, msgs: bool, rels: bool) {
    forall i :: 0 <= i < |xs| && About(xs[i], pid) ==> (msgs && IsMessage(xs[i], data, pid)) || (rels && xs[i] == Pubrel(pid))
  }

  ghost predicate UpOnly(xs: seq<Packet>, pid: Pid, recs: bool, comps: bool) {
    forall i :: 0 <= i < |xs| && About(xs[i], pid) ==> (recs && xs[i] == Pubrec(pid)) || (comps && xs[i] == Pubcomp(pid))
  }

  ghost predicate InboxOnly(xs: seq<BrokerMsg>, data: PublishData, pid: Pid, msgs: bool, rels: bool) {
    forall i :: 0 <= i < |xs| && MsgAbout(xs[i], pid) ==>
      xs[i].QosRetry? && ((msgs && IsMessage(xs[i].packet, data, pid)) || (rels && xs[i].packet == Pubrel(pid)))
  }

  /** The publish itself is the only thing about `pid` in the channel, at position `j`. */
  ghost predicate QueuedAt(inbox: seq<BrokerMsg>, j: nat, data: PublishData, pid: Pid)
    requires j < |inbox|
  {
    && inbox[j].PublishMsg? && IsMessage(Publish(inbox[j].publish), data, pid)
    && InboxOnly(inbox[..j], data, pid, false, false) && InboxOnly(inbox[j + 1..], data, pid, false, false)
  }

  ghost predicate InboxQueued(inbox: seq<BrokerMsg>, data: PublishData, pid: Pid) {
    exists j :: 0 <= j < |inbox| && QueuedAt(inbox, j, data, pid)
  }

  ghost predicate NoMessageAfterRelease(xs: seq<Packet>, data: PublishData, pid: Pid) {
    forall i, j :: 0 <= i < j < |xs| && xs[i] == Pubrel(pid) ==> !IsMessage(xs[j], data, pid)
  }

  ghost predicate NoReceiptAfterCompletion(xs: seq<Packet>, pid: Pid) {
    forall i, j :: 0 <= i < j < |xs| && xs[i] == Pubcomp(pid) ==> xs[j] != Pubrec(pid)
  }

  predicate AwaitingRelease(client: R.State, pid: Pid) {
    client.Awaiting? && client.pid == pid
  }

  ghost predicate InStage(s: Sys, data: PublishData, pid: Pid, stage: Stage) {
    && s.h.conn.Connected?
    && WellKeyed(s.h.conn.session) && Coupled(s.h.conn.session)
    && ShowsOnly(s.printed, data, pid)
    && StageOf(s.h.conn.session.txns, s.h.toClient, s.inbox, s.up, s.client, Shown(s.printed, pid), data, pid, stage)
  }

  ghost predicate StageOf(txns: map<Pid, Txn>, down: seq<Packet>, inbox: seq<BrokerMsg>, up: seq<Packet>,
                          client: R.State, shown: nat, data: PublishData, pid: Pid, stage: Stage)
  {
    match stage
    case Unsent =>
      && pid !in txns && InboxOnly(inbox, data, pid, false, false) && DownOnly(down, data, pid, false, false)
      && UpOnly(up, pid, false, false) && shown == 0 && !AwaitingRelease(client, pid)
    case Queued =>
      && pid !in txns && DownOnly(down, data, pid, false, false)
      && UpOnly(up, pid, false, false) && shown == 0 && !AwaitingRelease(client, pid)
      && InboxQueued(inbox, data, pid)
    case Published =>
      && pid in txns && IsMessage(txns[pid].state, data, pid)
      && InboxOnly(inbox, data, pid, true, false) && DownOnly(down, data, pid, true, false)
      && UpOnly(up, pid, shown == 1, false)
      && shown <= 1 && (shown == 1 ==> AwaitingRelease(client, pid) || client.Stopped?)
      && (AwaitingRelease(client, pid) ==> shown == 1)
    case Released =>
      && pid in txns && txns[pid].state == Pubrel(pid)
      && InboxOnly(inbox, data, pid, false, true)
      && DownOnly(down, data, pid, AwaitingRelease(client, pid) || client.Stopped?, true)
      && NoMessageAfterRelease(down, data, pid)
      && UpOnly(up, pid, true, !AwaitingRelease(client, pid)) && NoReceiptAfterCompletion(up, pid)
      && shown == 1
    case Completed =>
      && pid !in txns
      && InboxOnly(inbox, data, pid, false, true) && DownOnly(down, data, pid, client.Stopped?, true)
      && UpOnly(up, pid, false, true)
      && shown == 1 && !AwaitingRelease(client, pid)
  }

  // ---------- every step keeps the delivery in a stage ----------

  /** Nothing about `pid` changed in the session or was sent. */
  ghost predicate LeftAlone(h: H.State, h': H.State, data: PublishData, pid: Pid)
    requires h.conn.Connected?
  {
    && h'.conn.Connected? && WellKeyed(h'.conn.session) && Coupled(h'.conn.session)
    && SameTracker(h.conn.session, h'.conn.session, pid)
    && h.toClient <= h'.toClient && DownOnly(h'.toClient[|h.toClient|..], data, pid, false, false)
  }

  lemma OtherTransaction(h: H.State, packet: Packet, data: PublishData, pid: Pid)
    requires h.conn.Connected? && WellKeyed(h.conn.session) && Coupled(h.conn.session)
    requires packet.Puback? || packet.Pubrec? || packet.Pubrel? || packet.Pubcomp?
    requires !About(packet, pid)
    ensures LeftAlone(h, H.OnPacket(h, packet, true).h, data, pid)
  {
    var q := packet.pid;
    if packet.Pubrec? {
      OtherAnswer(h.conn.session, q, packet, Pubrel(q), pid);
    } else if packet.Pubrel? {
      OtherAnswer(h.conn.session, q, packet, Pubcomp(q), pid);
    } else {
      OtherUpdate(h.conn.session, q, packet, pid);
    }
  }

  /** Handling a packet that is not about `pid` leaves its tracker alone and sends
      nothing about it. */
  lemma OtherPacket(h: H.State, packet: Packet, data: PublishData, pid: Pid)
    requires h.conn.Connected? && WellKeyed(h.conn.session) && Coupled(h.conn.session)
    requires !About(packet, pid) && H.OnPacket(h, packet, true).Done?
    ensures LeftAlone(h, H.OnPacket(h, packet, true).h, data, pid)
  {
    if packet.Puback? || packet.Pubrec? || packet.Pubrel? || packet.Pubcomp? {
      OtherTransaction(h, packet, data, pid);
    } else if packet.Publish? && packet.publish.qospid.Qos2? {
      OtherUpdate(h.conn.session, packet.publish.qospid.pid, Pubrec(packet.publish.qospid.pid), pid);
    }
  }

  ghost predicate SameTracker(v: SessionView, v': SessionView, pid: Pid) {
    && (pid in v'.txns <==> pid in v.txns)
    && (pid in v.txns ==> v'.txns[pid].state == v.txns[pid].state)
  }

  lemma OtherUpdate(v: SessionView, q: Pid, packet: Packet, pid: Pid)
    requires WellKeyed(v) && Coupled(v) && TxnPid(packet) == Some(q) && q != pid
    ensures var v' := UpdateQos(v, q, packet);
            WellKeyed(v') && Coupled(v') && SameTracker(v, v', pid)
  {
    UpdateKeepsKeys(v, q, packet);
    UpdateKeepsCoupling(v, q, packet);
  }

  lemma OtherAnswer(v: SessionView, q: Pid, packet: Packet, answer: Packet, pid: Pid)
    requires WellKeyed(v) && Coupled(v) && q != pid
    requires TxnPid(packet) == Some(q) && TxnPid(answer) == Some(q)
    ensures var v' := UpdateQos(UpdateQos(v, q, packet), q, answer);
            WellKeyed(v') && Coupled(v') && SameTracker(v, v', pid)
  {
    OtherUpdate(v, q, packet, pid);
    OtherUpdate(UpdateQos(v, q, packet), q, answer, pid);
  }

  lemma OwnUpdate(v: SessionView, packet: Packet, pid: Pid)
    requires WellKeyed(v) && Coupled(v) && TxnPid(packet) == Some(pid)
    ensures var v' := UpdateQos(v, pid, packet);
            WellKeyed(v') && Coupled(v')
  {
    UpdateKeepsKeys(v, pid, packet);
    UpdateKeepsCoupling(v, pid, packet);
  }

  /** A stage survives traffic that is not about `pid`. */
  lemma FrameStage(txns: map<Pid, Txn>, txns': map<Pid, Txn>, down: seq<Packet>, extra: seq<Packet>,
                   inbox: seq<BrokerMsg>, up: seq<Packet>, k: nat, client: R.State, shown: nat,
                   data: PublishData, pid: Pid, stage: Stage)
    requires StageOf(txns, down, inbox, up, client, shown, data, pid, stage) && k <= |up|
    requires pid in txns' <==> pid in txns
    requires pid in txns ==> txns'[pid].state == txns[pid].state
    requires DownOnly(extra, data, pid, false, false)
    ensures StageOf(txns', down + extra, inbox, up[k..], client, shown, data, pid, stage)
  {
  }

  /** The Pubrec of a published message releases it; a later one only repeats the Pubrel. */
  lemma PubrecHandled(v: SessionView, data: PublishData, pid: Pid)
    requires WellKeyed(v) && Coupled(v) && pid in v.txns
    requires IsMessage(v.txns[pid].state, data, pid) || v.txns[pid].state == Pubrel(pid)
    ensures var v' := UpdateQos(UpdateQos(v, pid, Pubrec(pid)), pid, Pubrel(pid));
            WellKeyed(v') && Coupled(v') && pid in v'.txns && v'.txns[pid].state == Pubrel(pid)
  {
    OwnUpdate(v, Pubrec(pid), pid);
    OwnUpdate(UpdateQos(v, pid, Pubrec(pid)), Pubrel(pid), pid);
  }

  lemma PubcompHandled(v: SessionView, pid: Pid)
    requires WellKeyed(v) && Coupled(v) && (pid in v.txns ==> v.txns[pid].state == Pubrel(pid))
    ensures var v' := UpdateQos(v, pid, Pubcomp(pid));
            WellKeyed(v') && Coupled(v') && pid !in v'.txns
  {
    OwnUpdate(v, Pubcomp(pid), pid);
  }

  lemma ReleaseStage(txns: map<Pid, Txn>, txns': map<Pid, Txn>, down: seq<Packet>, inbox: seq<BrokerMsg>,
                     up: seq<Packet>, client: R.State, shown: nat, data: PublishData, pid: Pid, stage: Stage)
    requires StageOf(txns, down, inbox, up, client, shown, data, pid, stage)
    requires up != [] && up[0] == Pubrec(pid) && !StaleRetry(inbox, data, pid)
    requires pid in txns' && txns'[pid].state == Pubrel(pid)
    ensures StageOf(txns', down + [Pubrel(pid)], inbox, up[1..], client, shown, data, pid, Released)
    ensures stage == Published || stage == Released
  {
    assert forall i :: 0 <= i < |inbox| ==> inbox[i] in inbox;
    assert About(up[0], pid);
  }

  lemma CompleteStage(txns: map<Pid, Txn>, txns': map<Pid, Txn>, down: seq<Packet>, inbox: seq<BrokerMsg>,
                      up: seq<Packet>, client: R.State, shown: nat, data: PublishData, pid: Pid, stage: Stage)
    requires StageOf(txns, down, inbox, up, client, shown, data, pid, stage)
    requires up != [] && up[0] == Pubcomp(pid) && pid !in txns'
    ensures StageOf(txns', down, inbox, up[1..], client, shown, data, pid, Completed)
    ensures stage == Released || stage == Completed
  {
    assert About(up[0], pid);
  }

  lemma HandleOwnPacket(p: Params, s: Sys, data: PublishData, pid: Pid, stage: Stage) returns (next: Stage)
    requires InStage(s, data, pid, stage) && Enabled(s, Handle) && !Overtakes(s, Handle, data, pid) && About(s.up[0], pid)
    ensures InStage(Apply(p, s, Handle), data, pid, next)
    ensures next == stage || (stage == Published && next == Released) || (stage == Released && next == Completed)
    ensures s.up[0] == Pubrec(pid) ==> next == Released
  {
    var v := s.h.conn.session;
    var shown := Shown(s.printed, pid);
    if s.up[0] == Pubrec(pid) {
      next := Released;
      var v' := UpdateQos(UpdateQos(v, pid, Pubrec(pid)), pid, Pubrel(pid));
      PubrecHandled(v, data, pid);
      ReleaseStage(v.txns, v'.txns, s.h.toClient, s.inbox, s.up, s.client, shown, data, pid, stage);
    } else {
      next := Completed;
      assert s.up[0] == Pubcomp(pid);
      var v' := UpdateQos(v, pid, Pubcomp(pid));
      PubcompHandled(v, pid);
      CompleteStage(v.txns, v'.txns, s.h.toClient, s.inbox, s.up, s.client, shown, data, pid, stage);
    }
  }

  lemma HandleStep(p: Params, s: Sys, data: PublishData, pid: Pid, stage: Stage) returns (next: Stage)
    requires InStage(s, data, pid, stage) && Enabled(s, Handle) && !Overtakes(s, Handle, data, pid)
    ensures InStage(Apply(p, s, Handle), data, pid, next)
    ensures next == stage || (stage == Published && next == Released) || (stage == Released && next == Completed)
  {
    if About(s.up[0], pid) {
      next := HandleOwnPacket(p, s, data, pid, stage);
    } else {
      next := stage;
      OtherPacket(s.h, s.up[0], data, pid);
      var h' := H.OnPacket(s.h, s.up[0], true).h;
      var extra := h'.toClient[|s.h.toClient|..];
      assert h'.toClient == s.h.toClient + extra;
      FrameStage(s.h.conn.session.txns, h'.conn.session.txns, s.h.toClient, extra, s.inbox, s.up, 1,
                 s.client, Shown(s.printed, pid), data, pid, stage);
    }
  }

  // The handler serves its channel.

  lemma ServeOther(h: H.State, msg: BrokerMsg, data: PublishData, pid: Pid)
    requires h.conn.Connected? && WellKeyed(h.conn.session) && Coupled(h.conn.session)
    requires !MsgAbout(msg, pid) && H.OnMessage(h, msg, true).Done?
    ensures var h' := H.OnMessage(h, msg, true).h;
            && h'.conn.Connected? && WellKeyed(h'.conn.session) && Coupled(h'.conn.session)
            && SameTracker(h.conn.session, h'.conn.session, pid)
            && h.toClient <= h'.toClient && DownOnly(h'.toClient[|h.toClient|..], data, pid, false, false)
  {
    if msg.PublishMsg? && !msg.publish.qospid.Qos0? {
      OtherUpdate(h.conn.session, msg.publish.qospid.pid, Publish(msg.publish), pid);
    }
  }

  /** The stage after the head of the channel, not about `pid`, is gone. */
  lemma SkipMessage(txns: map<Pid, Txn>, down: seq<Packet>, inbox: seq<BrokerMsg>, up: seq<Packet>,
                    client: R.State, shown: nat, data: PublishData, pid: Pid, stage: Stage)
    requires StageOf(txns, down, inbox, up, client, shown, data, pid, stage)
    requires inbox != [] && !MsgAbout(inbox[0], pid)
    ensures StageOf(txns, down, inbox[1..], up, client, shown, data, pid, stage)
  {
    if stage == Queued {
      var j :| 0 <= j < |inbox| && QueuedAt(inbox, j, data, pid);
      var rest := inbox[1..];
      assert rest[j - 1] == inbox[j] && rest[..j - 1] == inbox[1..j] && rest[j..] == inbox[j + 1..];
      assert rest[..j - 1] == inbox[..j][1..];
      assert QueuedAt(rest, j - 1, data, pid);
    }
  }

  lemma PublishStage(txns: map<Pid, Txn>, txns': map<Pid, Txn>, down: seq<Packet>, inbox: seq<BrokerMsg>,
                     up: seq<Packet>, client: R.State, shown: nat, data: PublishData, pid: Pid, stage: Stage)
    requires StageOf(txns, down, inbox, up, client, shown, data, pid, stage)
    requires inbox != [] && inbox[0].PublishMsg? && MsgAbout(inbox[0], pid)
    requires pid in txns' && txns'[pid].state == Publish(inbox[0].publish)
    ensures stage == Queued && pid !in txns
    ensures StageOf(txns', down + [Publish(inbox[0].publish)], inbox[1..], up, client, shown, data, pid, Published)
  {
    if stage == Queued {
      HeadIsPublish(inbox, data, pid);
    }
  }

  lemma RetryStage(txns: map<Pid, Txn>, down: seq<Packet>, inbox: seq<BrokerMsg>, up: seq<Packet>,
                   client: R.State, shown: nat, data: PublishData, pid: Pid, stage: Stage)
    requires StageOf(txns, down, inbox, up, client, shown, data, pid, stage)
    requires inbox != [] && inbox[0].QosRetry? && MsgAbout(inbox[0], pid)
    ensures StageOf(txns, down + [inbox[0].packet], inbox[1..], up, client, shown, data, pid, stage)
  {
    if stage == Queued {
      HeadIsPublish(inbox, data, pid);
    }
  }

  lemma HeadIsPublish(inbox: seq<BrokerMsg>, data: PublishData, pid: Pid)
    requires InboxQueued(inbox, data, pid) && MsgAbout(inbox[0], pid)
    ensures QueuedAt(inbox, 0, data, pid)
  {
    var j :| 0 <= j < |inbox| && QueuedAt(inbox, j, data, pid);
    if j > 0 {
      assert false;
    }
  }

  lemma ServeStep(p: Params, s: Sys, data: PublishData, pid: Pid, stage: Stage) returns (next: Stage)
    requires InStage(s, data, pid, stage) && Enabled(s, Serve)
    ensures InStage(Apply(p, s, Serve), data, pid, next)
    ensures next == stage || (stage == Queued && next == Published)
  {
    var msg := s.inbox[0];
    var v := s.h.conn.session;
    var h' := H.OnMessage(s.h, msg, true).h;
    var shown := Shown(s.printed, pid);
    next := stage;
    if !MsgAbout(msg, pid) {
      ServeOther(s.h, msg, data, pid);
      var extra := h'.toClient[|s.h.toClient|..];
      assert h'.toClient == s.h.toClient + extra;
      SkipMessage(v.txns, s.h.toClient, s.inbox, s.up, s.client, shown, data, pid, stage);
      FrameStage(v.txns, h'.conn.session.txns, s.h.toClient, extra, s.inbox[1..], s.up, 0,
                 s.client, shown, data, pid, stage);
      assert s.up[0..] == s.up;
    } else if msg.PublishMsg? {
      next := Published;
      var v' := UpdateQos(v, pid, Publish(msg.publish));
      OwnUpdate(v, Publish(msg.publish), pid);
      NotYetTracked(v.txns, s.h.toClient, s.inbox, s.up, s.client, shown, data, pid, stage);
      PublishStage(v.txns, v'.txns, s.h.toClient, s.inbox, s.up, s.client, shown, data, pid, stage);
    } else {
      RetryStage(v.txns, s.h.toClient, s.inbox, s.up, s.client, shown, data, pid, stage);
    }
  }

  lemma NotYetTracked(txns: map<Pid, Txn>, down: seq<Packet>, inbox: seq<BrokerMsg>, up: seq<Packet>,
                      client: R.State, shown: nat, data: PublishData, pid: Pid, stage: Stage)
    requires StageOf(txns, down, inbox, up, client, shown, data, pid, stage)
    requires inbox != [] && inbox[0].PublishMsg? && MsgAbout(inbox[0], pid)
    ensures pid !in txns
  {
  }

  // Retry tasks and the broker fill the channel.

  lemma WakeStep(p: Params, s: Sys, id: TaskId, data: PublishData, pid: Pid, stage: Stage)
    requires InStage(s, data, pid, stage) && Enabled(s, Wake(id))
    ensures InStage(Apply(p, s, Wake(id)), data, pid, stage)
  {
    var v := s.h.conn.session;
    WakeKeepsCoupling(v, id, p.maxRetries);
    var owner: Pid :| Owns(v, owner, id);
    var msg := QosRetry(s.h.conn.id, v.tasks.live[id].packet);
    assert TxnPid(msg.packet) == Some(owner);
    QueueRetry(v.txns, s.h.toClient, s.inbox, msg, s.up, s.client, Shown(s.printed, pid), data, pid, stage);
  }

  lemma QueueRetry(txns: map<Pid, Txn>, down: seq<Packet>, inbox: seq<BrokerMsg>, msg: BrokerMsg,
                   up: seq<Packet>, client: R.State, shown: nat, data: PublishData, pid: Pid, stage: Stage)
    requires StageOf(txns, down, inbox, up, client, shown, data, pid, stage)
    requires MsgAbout(msg, pid) ==> msg.QosRetry? && pid in txns && msg.packet == txns[pid].state
    ensures StageOf(txns, down, inbox + [msg], up, client, shown, data, pid, stage)
  {
    if stage == Queued {
      assert InboxQueued(inbox, data, pid);
      QueueBehind(inbox, msg, data, pid);
    }
  }

  lemma QueueBehind(inbox: seq<BrokerMsg>, msg: BrokerMsg, data: PublishData, pid: Pid)
    requires InboxQueued(inbox, data, pid) && !MsgAbout(msg, pid)
    ensures InboxQueued(inbox + [msg], data, pid)
  {
    var j :| 0 <= j < |inbox| && QueuedAt(inbox, j, data, pid);
    var more := inbox + [msg];
    assert more[..j] == inbox[..j] && more[j + 1..] == inbox[j + 1..] + [msg];
    assert QueuedAt(more, j, data, pid);
  }

  lemma QueueMessage(txns: map<Pid, Txn>, down: seq<Packet>, inbox: seq<BrokerMsg>, msg: BrokerMsg,
                     up: seq<Packet>, client: R.State, shown: nat, data: PublishData, pid: Pid)
    requires StageOf(txns, down, inbox, up, client, shown, data, pid, Unsent)
    requires msg.PublishMsg? && IsMessage(Publish(msg.publish), data, pid)
    ensures StageOf(txns, down, inbox + [msg], up, client, shown, data, pid, Queued)
  {
    var more := inbox + [msg];
    var j := |inbox|;
    assert more[j] == msg && more[..j] == inbox && more[j + 1..] == [];
    assert QueuedAt(more, j, data, pid);
  }

  // Links lose packets, and other traffic uses them.

  lemma LoseStep(txns: map<Pid, Txn>, down: seq<Packet>, inbox: seq<BrokerMsg>, up: seq<Packet>,
                 client: R.State, shown: nat, data: PublishData, pid: Pid, stage: Stage, i: nat)
    requires StageOf(txns, down, inbox, up, client, shown, data, pid, stage)
    ensures i < |down| ==> StageOf(txns, Without(down, i), inbox, up, client, shown, data, pid, stage)
    ensures i < |up| ==> StageOf(txns, down, inbox, Without(up, i), client, shown, data, pid, stage)
  {
  }

  lemma OtherStep(txns: map<Pid, Txn>, down: seq<Packet>, inbox: seq<BrokerMsg>, up: seq<Packet>, extra: seq<Packet>,
                  client: R.State, shown: nat, data: PublishData, pid: Pid, stage: Stage)
    requires StageOf(txns, down, inbox, up, client, shown, data, pid, stage)
    requires UpOnly(extra, pid, false, false)
    ensures StageOf(txns, down, inbox, up + extra, client, shown, data, pid, stage)
  {
  }

  // The client reacts.

  lemma ShownAppend(printed: seq<PublishData>, d: PublishData, pid: Pid)
    ensures Shown(printed + [d], pid) == Shown(printed, pid) + if About(Publish(d), pid) then 1 else 0
  {
    assert (printed + [d])[..|printed|] == printed;
  }

  lemma OtherShown(printed: seq<PublishData>, d: PublishData, data: PublishData, pid: Pid)
    requires ShowsOnly(printed, data, pid) && !About(Publish(d), pid)
    ensures ShowsOnly(printed + [d], data, pid) && Shown(printed + [d], pid) == Shown(printed, pid)
  {
    ShownAppend(printed, d, pid);
    forall i | 0 <= i < |printed + [d]| && About(Publish((printed + [d])[i]), pid) ensures (printed + [d])[i] == data {
      assert i < |printed|;
    }
  }

  lemma OthersShown(printed: seq<PublishData>, more: seq<PublishData>, data: PublishData, pid: Pid)
    requires ShowsOnly(printed, data, pid) && |more| <= 1
    requires forall d :: d in more ==> !About(Publish(d), pid)
    ensures ShowsOnly(printed + more, data, pid) && Shown(printed + more, pid) == Shown(printed, pid)
  {
    if more == [] {
      assert printed + more == printed;
    } else {
      assert more[0] in more;
      assert more == [more[0]];
      OtherShown(printed, more[0], data, pid);
    }
  }

  /** The reaction to a packet or timeout that is not about `pid`. */
  lemma QuietReaction(req: R.Request, client: R.State, e: IO.Event, canSend: bool, pid: Pid)
    requires !AwaitingRelease(client, pid)
    requires e.Timeout? || (e.Received? && !About(e.packet, pid))
    ensures var (client', items) := R.React(req, client, e, canSend);
            && (client'.Stopped? || (!client.Stopped? && !AwaitingRelease(client', pid)))
            && UpOnly(SentBy(items), pid, false, false)
            && (forall d :: d in PrintedBy(items) ==> !About(Publish(d), pid))
  {
  }

  lemma ReactToOther(p: Params, s: Sys, e: IO.Event, canSend: bool, data: PublishData, pid: Pid, stage: Stage)
    requires InStage(s, data, pid, stage) && !AwaitingRelease(s.client, pid)
    requires e.Timeout? || (e.Received? && !About(e.packet, pid))
    ensures InStage(ClientReacts(p, s, e, canSend), data, pid, stage)
  {
    QuietReaction(p.req, s.client, e, canSend, pid);
    var (client, items) := R.React(p.req, s.client, e, canSend);
    var txns := s.h.conn.session.txns;
    var shown := Shown(s.printed, pid);
    OthersShown(s.printed, PrintedBy(items), data, pid);
    OtherStep(txns, s.h.toClient, s.inbox, s.up, SentBy(items), s.client, shown, data, pid, stage);
    ClientMoves(txns, s.h.toClient, s.inbox, s.up + SentBy(items), s.client, client, shown, data, pid, stage);
  }

  /** A client that does not wait for the release may move on or stop. */
  lemma ClientMoves(txns: map<Pid, Txn>, down: seq<Packet>, inbox: seq<BrokerMsg>, up: seq<Packet>,
                    client: R.State, client': R.State, shown: nat, data: PublishData, pid: Pid, stage: Stage)
    requires StageOf(txns, down, inbox, up, client, shown, data, pid, stage)
    requires client'.Stopped? || (!AwaitingRelease(client, pid) && !AwaitingRelease(client', pid) && !client.Stopped?)
             || client' == client
    ensures StageOf(txns, down, inbox, up, client', shown, data, pid, stage)
  {
  }

  /** A client waiting for the release times out: it repeats its Pubrec or gives up. */
  lemma RepeatReceipt(p: Params, s: Sys, canSend: bool, data: PublishData, pid: Pid, stage: Stage)
    requires InStage(s, data, pid, stage) && AwaitingRelease(s.client, pid)
    ensures InStage(ClientReacts(p, s, IO.Timeout, canSend), data, pid, stage)
  {
    var s' := ClientReacts(p, s, IO.Timeout, canSend);
    assert s'.printed == s.printed;
    assert s'.up == s.up || s'.up == s.up + [Pubrec(pid)];
  }

  /** The client takes the next packet off the link. */
  lemma DeliverStep(p: Params, s: Sys, canSend: bool, data: PublishData, pid: Pid, stage: Stage)
    requires InStage(s, data, pid, stage) && Enabled(s, Deliver(canSend))
    ensures InStage(Apply(p, s, Deliver(canSend)), data, pid, stage)
  {
    var packet := s.h.toClient[0];
    var e := IO.Received(packet);
    var popped := s.(h := s.h.(toClient := s.h.toClient[1..]));
    LoseStep(s.h.conn.session.txns, s.h.toClient, s.inbox, s.up, s.client, Shown(s.printed, pid), data, pid, stage, 0);
    assert Without(s.h.toClient, 0) == s.h.toClient[1..];
    assert InStage(popped, data, pid, stage);
    if AwaitingRelease(s.client, pid) {
      DeliverToWaiting(p, s, canSend, data, pid, stage);
    } else if About(packet, pid) {
      DeliverAbout(p, s, canSend, data, pid, stage);
    } else {
      ReactToOther(p, popped, e, canSend, data, pid, stage);
    }
  }

  /** While waiting, everything but the release is ignored, however often the message
      arrives again. After the release no copy of the message is left on the link. */
  lemma DeliverToWaiting(p: Params, s: Sys, canSend: bool, data: PublishData, pid: Pid, stage: Stage)
    requires InStage(s, data, pid, stage) && Enabled(s, Deliver(canSend)) && AwaitingRelease(s.client, pid)
    ensures InStage(Apply(p, s, Deliver(canSend)), data, pid, stage)
  {
    var e := IO.Received(s.h.toClient[0]);
    var s' := Apply(p, s, Deliver(canSend));
    assert s'.printed == s.printed;
    if s.h.toClient[0] == Pubrel(pid) {
      assert About(s.h.toClient[0], pid);
      assert stage == Released;
      assert s'.up == s.up || s'.up == s.up + [Pubcomp(pid)];
    } else {
      assert s'.up == s.up;
    }
  }

  /** A polling client can only find the message on its link if it never showed it. */
  lemma FirstShow(txns: map<Pid, Txn>, down: seq<Packet>, inbox: seq<BrokerMsg>, up: seq<Packet>,
                  client: R.State, client': R.State, extra: seq<Packet>, shown: nat, data: PublishData, pid: Pid, stage: Stage)
    requires StageOf(txns, down, inbox, up, client, shown, data, pid, stage) && client.Polling?
    requires down != [] && IsMessage(down[0], data, pid)
    requires (client' == R.Awaiting(pid, 0) && extra == [Pubrec(pid)]) || (client'.Stopped? && extra == [])
    ensures stage == Published && shown == 0
    ensures StageOf(txns, down[1..], inbox, up + extra, client', 1, data, pid, stage)
  {
    assert About(down[0], pid);
  }

  /** How a polling client reacts to the message. */
  lemma ShowReaction(req: R.Request, client: R.State, packet: Packet, canSend: bool, data: PublishData, pid: Pid)
    requires client.Polling? && IsMessage(packet, data, pid)
    ensures var (client', items) := R.React(req, client, IO.Received(packet), canSend);
            && PrintedBy(items) == [packet.publish]
            && ((client' == R.Awaiting(pid, 0) && SentBy(items) == [Pubrec(pid)])
                || (client'.Stopped? && SentBy(items) == []))
  {
  }

  /** A client that is not waiting ignores a stray release, and a stopped one everything. */
  lemma StrayReaction(req: R.Request, client: R.State, packet: Packet, canSend: bool, data: PublishData, pid: Pid)
    requires !AwaitingRelease(client, pid) && (IsMessage(packet, data, pid) || packet == Pubrel(pid))
    requires client.Polling? ==> packet == Pubrel(pid)
    ensures R.React(req, client, IO.Received(packet), canSend) == (client, [])
  {
  }

  lemma DeliverMessage(p: Params, s: Sys, canSend: bool, data: PublishData, pid: Pid, stage: Stage)
    requires InStage(s, data, pid, stage) && Enabled(s, Deliver(canSend))
    requires s.client.Polling? && IsMessage(s.h.toClient[0], data, pid)
    ensures InStage(Apply(p, s, Deliver(canSend)), data, pid, stage)
  {
    var packet := s.h.toClient[0];
    var (client, items) := R.React(p.req, s.client, IO.Received(packet), canSend);
    ShowReaction(p.req, s.client, packet, canSend, data, pid);
    FirstShow(s.h.conn.session.txns, s.h.toClient, s.inbox, s.up, s.client, client, SentBy(items),
              Shown(s.printed, pid), data, pid, stage);
    ShownAppend(s.printed, packet.publish, pid);
  }

  /** A client that is not waiting shows the message only if it never has; a stray
      release is ignored. */
  lemma DeliverAbout(p: Params, s: Sys, canSend: bool, data: PublishData, pid: Pid, stage: Stage)
    requires InStage(s, data, pid, stage) && Enabled(s, Deliver(canSend)) && !AwaitingRelease(s.client, pid)
    requires About(s.h.toClient[0], pid)
    requires StageOf(s.h.conn.session.txns, s.h.toClient[1..], s.inbox, s.up, s.client, Shown(s.printed, pid), data, pid, stage)
    ensures InStage(Apply(p, s, Deliver(canSend)), data, pid, stage)
  {
    if IsMessage(s.h.toClient[0], data, pid) && s.client.Polling? {
      DeliverMessage(p, s, canSend, data, pid, stage);
    } else {
      OnlyMessagesAndReleases(s.h.conn.session.txns, s.h.toClient, s.inbox, s.up, s.client, Shown(s.printed, pid), data, pid, stage);
      StrayReaction(p.req, s.client, s.h.toClient[0], canSend, data, pid);
      assert s.printed + [] == s.printed && s.up + [] == s.up;
    }
  }

  lemma OnlyMessagesAndReleases(txns: map<Pid, Txn>, down: seq<Packet>, inbox: seq<BrokerMsg>, up: seq<Packet>,
                                client: R.State, shown: nat, data: PublishData, pid: Pid, stage: Stage)
    requires StageOf(txns, down, inbox, up, client, shown, data, pid, stage)
    ensures DownOnly(down, data, pid, true, true)
  {
  }

  // ---------- whole runs ----------

  lemma AnyStep(p: Params, s: Sys, step: Step, data: PublishData, pid: Pid, stage: Stage) returns (next: Stage)
    requires InStage(s, data, pid, stage) && Enabled(s, step) && !Overtakes(s, step, data, pid)
    requires step.Other? ==> !About(step.packet, pid)
    requires ForwardsAbout(step, pid) ==>
               stage == Unsent && step.msg.PublishMsg? && IsMessage(Publish(step.msg.publish), data, pid)
    ensures InStage(Apply(p, s, step), data, pid, next)
    ensures stage == Unsent ==> next == if ForwardsAbout(step, pid) then Queued else Unsent
    ensures stage != Unsent ==> next != Unsent
    ensures stage == Published ==> next == Published || next == Released
    ensures stage == Released ==> next == Released || next == Completed
    ensures stage == Completed ==> next == Completed
  {
    var v := s.h.conn.session.txns;
    var shown := Shown(s.printed, pid);
    next := stage;
    match step {
      case Forward(msg) =>
        if MsgAbout(msg, pid) {
          next := Queued;
          QueueMessage(v, s.h.toClient, s.inbox, msg, s.up, s.client, shown, data, pid);
        } else {
          QueueRetry(v, s.h.toClient, s.inbox, msg, s.up, s.client, shown, data, pid, stage);
        }
      case Wake(id) => WakeStep(p, s, id, data, pid, stage);
      case Serve => next := ServeStep(p, s, data, pid, stage);
      case Handle => next := HandleStep(p, s, data, pid, stage);
      case _ => ClientStep(p, s, step, data, pid, stage);
    }
  }

  /** The links lose packets, and the client reacts, stops or sends something else. */
  lemma ClientStep(p: Params, s: Sys, step: Step, data: PublishData, pid: Pid, stage: Stage)
    requires InStage(s, data, pid, stage) && Enabled(s, step)
    requires !step.Forward? && !step.Wake? && !step.Serve? && !step.Handle?
    requires step.Other? ==> !About(step.packet, pid)
    ensures InStage(Apply(p, s, step), data, pid, stage)
  {
    var v := s.h.conn.session.txns;
    var shown := Shown(s.printed, pid);
    if step.LoseDown? || step.LoseUp? {
      LoseStep(v, s.h.toClient, s.inbox, s.up, s.client, shown, data, pid, stage, step.i);
    } else if step.Deliver? {
      DeliverStep(p, s, step.canSend, data, pid, stage);
    } else if step.Expire? {
      if AwaitingRelease(s.client, pid) {
        RepeatReceipt(p, s, step.canSend, data, pid, stage);
      } else {
        ReactToOther(p, s, IO.Timeout, step.canSend, data, pid, stage);
      }
    } else if step.StopClient? {
      ClientMoves(v, s.h.toClient, s.inbox, s.up, s.client, R.Stopped(R.ChannelGone), shown, data, pid, stage);
    } else {
      OtherStep(v, s.h.toClient, s.inbox, s.up, [step.packet], s.client, shown, data, pid, stage);
    }
  }

  lemma UnusedIsUnsent(s: Sys, data: PublishData, pid: Pid)
    requires Unused(s, pid)
    ensures InStage(s, data, pid, Unsent)
  {
    forall i | 0 <= i < |s.printed| ensures !About(Publish(s.printed[i]), pid) {
      if About(Publish(s.printed[i]), pid) {
        CountsAt(s.printed, i, pid);
      }
    }
  }

  lemma {:induction false} CountsAt(printed: seq<PublishData>, i: nat, pid: Pid)
    requires i < |printed| && About(Publish(printed[i]), pid)
    ensures Shown(printed, pid) > 0
  {
    if i < |printed| - 1 {
      CountsAt(printed[..|printed| - 1], i, pid);
    }
  }

  lemma {:induction false} SomethingShown(printed: seq<PublishData>, data: PublishData, pid: Pid)
    requires ShowsOnly(printed, data, pid) && Shown(printed, pid) > 0
    ensures data in printed
  {
    var n := |printed| - 1;
    if !About(Publish(printed[n]), pid) {
      SomethingShown(printed[..n], data, pid);
      assert data in printed[..n];
    }
  }

  lemma GoneIsCompleted(s: Sys, s': Sys, data: PublishData, pid: Pid, stage: Stage, stage': Stage)
    requires InStage(s, data, pid, stage) && InStage(s', data, pid, stage')
    requires stage == Published ==> stage' == Published || stage' == Released
    requires stage == Released ==> stage' == Released || stage' == Completed
    requires Tracked(s, pid) && !Tracked(s', pid)
    ensures stage' == Completed
  {
  }

  lemma {:induction false} StageAfter(p: Params, s: Sys, steps: seq<Step>, data: PublishData, pid: Pid) returns (stage: Stage)
    requires Unused(s, pid) && After(p, s, steps).Some?
    requires Exclusive(steps, data, pid) && Clean(p, s, steps, data, pid)
    ensures InStage(After(p, s, steps).value, data, pid, stage)
    ensures stage == Unsent <==> !Forwarded(steps, pid)
    ensures TrackerFinished(p, s, steps, pid) ==> stage == Completed
  {
    if steps == [] {
      stage := Unsent;
      UnusedIsUnsent(s, data, pid);
    } else {
      var before := StageAfter(p, s, Front(steps), data, pid);
      var t := After(p, s, Front(steps)).value;
      stage := AnyStep(p, t, Last(steps), data, pid, before);
      var t' := Apply(p, t, Last(steps));
      if Tracked(t, pid) && !Tracked(t', pid) {
        GoneIsCompleted(t, t', data, pid, before, stage);
      }
    }
  }

  /** Exactly once, end to end. In every run over the lossy links in which no Pubrec
      overtakes a queued retry of its publish, whatever the client shows under the packet id
      is the message that was forwarded, it is shown at most once, and once the broker's
      tracker for it has gone away, exactly once. */
  lemma ExactlyOnce(p: Params, s: Sys, steps: seq<Step>, data: PublishData, pid: Pid)
    requires Unused(s, pid) && After(p, s, steps).Some?
    requires Exclusive(steps, data, pid) && Clean(p, s, steps, data, pid)
    ensures var printed := After(p, s, steps).value.printed;
            && ShowsOnly(printed, data, pid) && Shown(printed, pid) <= 1
            && (TrackerFinished(p, s, steps, pid) ==> Shown(printed, pid) == 1 && data in printed)
  {
    var last := StageAfter(p, s, steps, data, pid);
    var printed := After(p, s, steps).value.printed;
    if Shown(printed, pid) == 1 {
      SomethingShown(printed, data, pid);
    }
  }
}

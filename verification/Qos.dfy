/** The QoS 1 and QoS 2 transaction engine of one client session, as a value:
    what a tracker does with a packet, which background retry tasks are alive,
    and what every run of calls and timer wake-ups keeps. */
module Qos {
  import opened Wrappers
  import opened Mqtt

  type TaskId = nat

  /** A background retry task: the packet it resends and how often it already has. */
  datatype RetryTask = RetryTask(packet: Packet, attempts: nat)

  /** The tasks that are alive, and the next unused handle. */
  datatype Tasks = Tasks(live: map<TaskId, RetryTask>, next: TaskId)

  /** A transaction: the last packet seen and the handle of its retry task, which
      may belong to a task that has already given up. */
  datatype Txn = Txn(state: Packet, task: Option<TaskId>)

  datatype SessionView = SessionView(txns: map<Pid, Txn>, tasks: Tasks)

  datatype Update = Active | Finished(pid: Pid)

  const NEW_SESSION := SessionView(map[], Tasks(map[], 0))

  // ---------- tasks ----------

  function SpawnTask(tasks: Tasks, packet: Packet): Tasks {
    Tasks(tasks.live[tasks.next := RetryTask(packet, 0)], tasks.next + 1)
  }

  function AbortTask(tasks: Tasks, task: Option<TaskId>): Tasks {
    match task
    case None => tasks
    case Some(id) => tasks.(live := tasks.live - {id})
  }

  /** A task's sleep ends: it resends, counts the attempt and gives up once the
      count exceeds a non-zero maximum. */
  function WakeTask(tasks: Tasks, id: TaskId, maxRetries: nat): Tasks
    requires id in tasks.live
  {
    var t := tasks.live[id];
    if maxRetries != 0 && t.attempts + 1 > maxRetries then
      tasks.(live := tasks.live - {id})
    else
      tasks.(live := tasks.live[id := RetryTask(t.packet, t.attempts + 1)])
  }

  // ---------- trackers ----------

  predicate StartsTransaction(packet: Packet) {
    packet.Publish? || packet.Pubrec?
  }

  /** The only packet that may follow the given tracker state. */
  function Expected(state: Packet): Result<Packet> {
    match state
    case Publish(d) => (
      match d.qospid
      case Qos0 => Err(ClientHandlerInvalidState)
      case Qos1(p) => Ok(Puback(p))
      case Qos2(p) => Ok(Pubrec(p)))
    case Pubrec(p) => Ok(Pubrel(p))
    case Pubrel(p) => Ok(Pubcomp(p))
    case _ => Err(ClientHandlerInvalidState)
  }

  predicate Closes(packet: Packet) {
    packet.Puback? || packet.Pubcomp?
  }

  /** The retry task is cancelled before the packet is looked at, so a rejected
      packet leaves the transaction in place without a retry. */
  function UpdateTxn(t: Txn, tasks: Tasks, packet: Packet): (Txn, Tasks, Result<Update>) {
    var idle := AbortTask(tasks, t.task);
    match Expected(t.state)
    case Err(e) => (Txn(t.state, None), idle, Err(e))
    case Ok(expected) =>
      if expected != packet then
        (Txn(t.state, None), idle, Err(MqttProtocolViolation))
      else if Closes(packet) then
        (Txn(packet, None), idle, Ok(Finished(packet.pid)))
      else
        (Txn(packet, Some(idle.next)), SpawnTask(idle, packet), Ok(Active))
  }

  /** Removes a transaction; dropping its tracker aborts the retry task. */
  function DropTxn(v: SessionView, pid: Pid): SessionView {
    if pid in v.txns then
      SessionView(v.txns - {pid}, AbortTask(v.tasks, v.txns[pid].task))
    else v
  }

  /** A session update. Tracker errors are logged and swallowed. */
  function UpdateQos(v: SessionView, pid: Pid, packet: Packet): SessionView {
    if pid !in v.txns then
      if StartsTransaction(packet) then
        SessionView(v.txns[pid := Txn(packet, Some(v.tasks.next))], SpawnTask(v.tasks, packet))
      else v
    else
      var (t, tasks, r) := UpdateTxn(v.txns[pid], v.tasks, packet);
      var v' := SessionView(v.txns[pid := t], tasks);
      if r.Ok? && r.value.Finished? then DropTxn(v', r.value.pid) else v'
  }

  /** Dropping the session drops every tracker, and with it its retry task. */
  function DropSession(v: SessionView): SessionView {
    SessionView(map[], v.tasks.(live := v.tasks.live - Handles(v)))
  }

  /** The task handles kept by the trackers. */
  function Handles(v: SessionView): set<TaskId> {
    set pid | pid in v.txns && v.txns[pid].task.Some? :: v.txns[pid].task.value
  }

  // ---------- invariants ----------

  /** The states a tracker may rest in. */
  predicate RestingState(packet: Packet) {
    (packet.Publish? && !packet.publish.qospid.Qos0?) || packet.Pubrec? || packet.Pubrel?
  }

  /** Every tracker rests in an unfinished state that carries its own key. */
  ghost predicate WellKeyed(v: SessionView) {
    forall pid :: pid in v.txns ==>
      RestingState(v.txns[pid].state) && TxnPid(v.txns[pid].state) == Some(pid)
  }

  ghost predicate Owns(v: SessionView, pid: Pid, id: TaskId) {
    pid in v.txns && v.txns[pid].task == Some(id)
  }

  /** Each live task belongs to exactly one tracker of the map and resends exactly
      that tracker's current state. */
  ghost predicate Coupled(v: SessionView) {
    && (forall pid: Pid, id: TaskId :: Owns(v, pid, id) ==> id < v.tasks.next)
    && (forall p: Pid, q: Pid, id: TaskId :: Owns(v, p, id) && Owns(v, q, id) ==> p == q)
    && (forall id :: id in v.tasks.live ==> exists pid: Pid :: Owns(v, pid, id))
    && (forall pid: Pid, id: TaskId :: Owns(v, pid, id) && id in v.tasks.live ==>
          v.tasks.live[id].packet == v.txns[pid].state)
  }

  /** The calls a client handler makes: the packet carries the key and, when it
      is a publish, asks for an acknowledgement. */
  predicate HandlerCall(pid: Pid, packet: Packet) {
    TxnPid(packet) == Some(pid)
  }

  /** The view in which the tracker at `pid` has moved to `state` without a retry task. */
  ghost function Detached(v: SessionView, pid: Pid, state: Packet): SessionView
    requires pid in v.txns
  {
    SessionView(v.txns[pid := Txn(state, None)], AbortTask(v.tasks, v.txns[pid].task))
  }

  lemma DetachKeepsCoupling(v: SessionView, pid: Pid, state: Packet)
    requires Coupled(v) && pid in v.txns
    ensures Coupled(Detached(v, pid, state))
  {
    var v' := Detached(v, pid, state);
    forall id | id in v'.tasks.live ensures exists p: Pid :: Owns(v', p, id) {
      var p: Pid :| Owns(v, p, id);
      assert Owns(v', p, id);
    }
    assert forall q: Pid, id: TaskId :: Owns(v', q, id) ==> Owns(v, q, id);
  }

  lemma SpawnKeepsCoupling(v: SessionView, pid: Pid, packet: Packet)
    requires Coupled(v)
    requires pid in v.txns ==> v.txns[pid].task == None
    ensures Coupled(SessionView(v.txns[pid := Txn(packet, Some(v.tasks.next))], SpawnTask(v.tasks, packet)))
  {
    var v' := SessionView(v.txns[pid := Txn(packet, Some(v.tasks.next))], SpawnTask(v.tasks, packet));
    forall id | id in v'.tasks.live ensures exists p: Pid :: Owns(v', p, id) {
      if id == v.tasks.next {
        assert Owns(v', pid, id);
      } else {
        var p: Pid :| Owns(v, p, id);
        assert Owns(v', p, id);
      }
    }
    assert forall q: Pid, id: TaskId :: Owns(v', q, id) ==>
        Owns(v, q, id) || (q == pid && id == v.tasks.next);
  }

  lemma DropKeepsCoupling(v: SessionView, pid: Pid)
    requires Coupled(v)
    ensures Coupled(DropTxn(v, pid))
  {
    var v' := DropTxn(v, pid);
    forall id | id in v'.tasks.live ensures exists p: Pid :: Owns(v', p, id) {
      var p: Pid :| Owns(v, p, id);
      assert Owns(v', p, id);
    }
    assert forall q: Pid, id: TaskId :: Owns(v', q, id) ==> Owns(v, q, id);
  }

  /** Whatever pid and packet an update is given, including rejected ones and the
      one that finishes a transaction, tasks and trackers stay in step. */
  lemma UpdateKeepsCoupling(v: SessionView, pid: Pid, packet: Packet)
    requires Coupled(v)
    ensures Coupled(UpdateQos(v, pid, packet))
  {
    if pid !in v.txns {
      if StartsTransaction(packet) {
        SpawnKeepsCoupling(v, pid, packet);
      }
    } else {
      var (t, tasks, r) := UpdateTxn(v.txns[pid], v.tasks, packet);
      var d := Detached(v, pid, t.state);
      DetachKeepsCoupling(v, pid, t.state);
      if r == Ok(Active) {
        SpawnKeepsCoupling(d, pid, packet);
        assert d.txns[pid := t] == v.txns[pid := t];
      } else if r.Ok? {
        DropKeepsCoupling(d, r.value.pid);
      }
    }
  }

  /** An accepted packet carries the tracker's key, so `Finished` names that key. */
  lemma FinishedNamesKey(v: SessionView, pid: Pid, packet: Packet)
    requires WellKeyed(v) && HandlerCall(pid, packet) && pid in v.txns
    ensures var (t, _, r) := UpdateTxn(v.txns[pid], v.tasks, packet);
            && (r.Ok? && r.value.Finished? ==> r.value.pid == pid)
            && (!(r.Ok? && r.value.Finished?) ==> RestingState(t.state) && TxnPid(t.state) == Some(pid))
            && (r.Ok? && r.value.Finished? <==> Closes(packet) && Expected(v.txns[pid].state) == Ok(packet))
  {
  }

  /** The pid removed when a transaction finishes is the key that was updated,
      so finished trackers never stay in the map and no other key is touched. */
  lemma UpdateKeepsKeys(v: SessionView, pid: Pid, packet: Packet)
    requires WellKeyed(v) && HandlerCall(pid, packet)
    ensures WellKeyed(UpdateQos(v, pid, packet))
    ensures pid in v.txns && Closes(packet) && Expected(v.txns[pid].state) == Ok(packet) ==>
              UpdateQos(v, pid, packet).txns == v.txns - {pid}
    ensures forall q :: q != pid ==>
              && (q in UpdateQos(v, pid, packet).txns <==> q in v.txns)
              && (q in v.txns ==> UpdateQos(v, pid, packet).txns[q] == v.txns[q])
  {
    if pid in v.txns {
      FinishedNamesKey(v, pid, packet);
      var (t, _, r) := UpdateTxn(v.txns[pid], v.tasks, packet);
      if r.Ok? && r.value.Finished? {
        assert v.txns[pid := t] - {pid} == v.txns - {pid};
      }
    }
  }

  /** Removing one tracker first makes no difference to what dropping the session does. */
  lemma DropOneFirst(v: SessionView, pid: Pid)
    ensures DropSession(DropTxn(v, pid)) == DropSession(v)
  {
    var v' := DropTxn(v, pid);
    forall h ensures h in Handles(v) <==> h in Handles(v') || (pid in v.txns && v.txns[pid].task == Some(h)) {
      if q :| q in v.txns && q != pid && v.txns[q].task == Some(h) {
        assert q in v'.txns && v'.txns[q].task == Some(h);
      }
    }
    assert DropSession(v').tasks.live == DropSession(v).tasks.live;
  }

  lemma EmptySessionDrops(v: SessionView)
    requires v.txns == map[]
    ensures DropSession(v) == v
  {
    assert v.tasks.live - Handles(v) == v.tasks.live;
  }

  /** No retry outlives its session. */
  lemma DropSessionStopsRetries(v: SessionView)
    requires Coupled(v)
    ensures DropSession(v).tasks.live == map[]
  {
    forall id | id in v.tasks.live ensures id !in DropSession(v).tasks.live {
      var pid: Pid :| Owns(v, pid, id);
    }
  }

  lemma WakeKeepsCoupling(v: SessionView, id: TaskId, maxRetries: nat)
    requires Coupled(v) && id in v.tasks.live
    ensures Coupled(v.(tasks := WakeTask(v.tasks, id, maxRetries)))
  {
    var v' := v.(tasks := WakeTask(v.tasks, id, maxRetries));
    assert forall p: Pid, i: TaskId :: Owns(v', p, i) <==> Owns(v, p, i);
    forall i | i in v'.tasks.live ensures exists p: Pid :: Owns(v', p, i) {
      var p: Pid :| Owns(v, p, i);
      assert Owns(v', p, i);
    }
  }
}

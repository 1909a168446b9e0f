/** The objects behind the transaction engine: trackers that overwrite their state,
    a session that owns a map of them, and the runtime that owns the retry tasks. */
module Sessions {
  import opened Wrappers
  import opened Mqtt
  import opened Qos

  /** The asynchronous runtime, as far as trackers use it. Aborting takes effect at once. */
  class Runtime {
    var tasks: Tasks

    constructor ()
      ensures tasks == Tasks(map[], 0)
    {
      tasks := Tasks(map[], 0);
    }

    method Spawn(packet: Packet) returns (id: TaskId)
      modifies this
      ensures id == old(tasks).next && tasks == SpawnTask(old(tasks), packet)
    {
      id := tasks.next;
      tasks := Tasks(tasks.live[id := RetryTask(packet, 0)], id + 1);
    }

    method Abort(id: TaskId)
      modifies this
      ensures tasks == AbortTask(old(tasks), Some(id))
    {
      tasks := Tasks(tasks.live - {id}, tasks.next);
    }

    /** The sleep of a task ends: it sends its packet once more, counts the attempt and ends
        when the count exceeds a limit. A task that is gone does nothing. */
    method Wake(id: TaskId, maxRetries: nat) returns (sent: Option<Packet>)
      modifies this
      ensures id !in old(tasks).live ==> sent == None && tasks == old(tasks)
      ensures id in old(tasks).live ==>
                sent == Some(old(tasks).live[id].packet) && tasks == WakeTask(old(tasks), id, maxRetries)
    {
      if id !in tasks.live {
        return None;
      }
      var packet, attempts := tasks.live[id].packet, tasks.live[id].attempts + 1;
      if maxRetries != 0 && attempts > maxRetries {
        tasks := Tasks(tasks.live - {id}, tasks.next);
      } else {
        tasks := Tasks(tasks.live[id := RetryTask(packet, attempts)], tasks.next);
      }
      return Some(packet);
    }
  }

  /** The state machine of one transaction. */
  class Tracker {
    var state: Packet
    var retryTask: Option<TaskId>

    function View(): Txn
      reads this
    {
      Txn(state, retryTask)
    }

    constructor (packet: Packet, task: TaskId)
      ensures View() == Txn(packet, Some(task))
    {
      state := packet;
      retryTask := Some(task);
    }

    /** Only a Publish or a Pubrec opens a transaction. */
    static method Create(rt: Runtime, packet: Packet) returns (r: Result<Tracker>)
      modifies rt
      ensures r.Ok? <==> StartsTransaction(packet)
      ensures r.Ok? ==> fresh(r.value) && r.value.View() == Txn(packet, Some(old(rt.tasks).next))
      ensures rt.tasks == if r.Ok? then SpawnTask(old(rt.tasks), packet) else old(rt.tasks)
    {
      match packet {
        case Publish(_) =>
        case Pubrec(_) =>
        case _ => return Err(MqttProtocolViolation);
      }
      var task := rt.Spawn(packet);
      var t := new Tracker(packet, task);
      return Ok(t);
    }

    method Update(rt: Runtime, packet: Packet) returns (r: Result<Qos.Update>)
      modifies this, rt
      ensures (View(), rt.tasks, r) == UpdateTxn(old(View()), old(rt.tasks), packet)
    {
      Drop(rt);
      retryTask := None;

      var expected;
      match state {
        case Publish(d) =>
          match d.qospid {
            case Qos0 => return Err(ClientHandlerInvalidState);
            case Qos1(pid) => expected := Puback(pid);
            case Qos2(pid) => expected := Pubrec(pid);
          }
        case Pubrec(pid) => expected := Pubrel(pid);
        case Pubrel(pid) => expected := Pubcomp(pid);
        case _ => return Err(ClientHandlerInvalidState);
      }
      if expected != packet {
        return Err(MqttProtocolViolation);
      }

      state := expected;
      match state {
        case Puback(pid) => return Ok(Finished(pid));
        case Pubcomp(pid) => return Ok(Finished(pid));
        case _ =>
      }
      var task := rt.Spawn(packet);
      retryTask := Some(task);
      return Ok(Active);
    }

    method Drop(rt: Runtime)
      modifies rt
      ensures rt.tasks == AbortTask(old(rt.tasks), retryTask)
    {
      match retryTask {
        case Some(id) => rt.Abort(id);
        case None =>
      }
    }
  }

  /** A client session and its active transactions. */
  class Session {
    const id: string
    const lastWill: Option<LastWill>
    const rt: Runtime
    var qosTxns: map<Pid, Tracker>

    /** Trackers are owned: no two pids share one. */
    ghost predicate Valid()
      reads this
    {
      forall p, q | p in qosTxns && q in qosTxns :: p != q ==> qosTxns[p] != qosTxns[q]
    }

    ghost function View(): SessionView
      reads this, rt, qosTxns.Values
    {
      SessionView(map pid | pid in qosTxns :: qosTxns[pid].View(), rt.tasks)
    }

    constructor (id: string, lastWill: Option<LastWill>, rt: Runtime)
      ensures Valid() && this.id == id && this.lastWill == lastWill && this.rt == rt
      ensures qosTxns == map[] && View() == SessionView(map[], rt.tasks)
    {
      this.id, this.lastWill, this.rt := id, lastWill, rt;
      qosTxns := map[];
    }

    /** Starts or updates the transaction of `pid`, and removes it when it finishes.
        Tracker errors are swallowed. */
    method UpdateQos(pid: Pid, packet: Packet)
      requires Valid()
      modifies this, rt, qosTxns.Values
      ensures Valid() && fresh(qosTxns.Values - old(qosTxns.Values))
      ensures View() == Qos.UpdateQos(old(View()), pid, packet)
    {
      if pid !in qosTxns {
        Begin(pid, packet);
      } else {
        var r := UpdateTracker(pid, packet);
        if r.Ok? && r.value.Finished? {
          Remove(r.value.pid);
        }
      }
    }

    /** Opens a transaction if the packet may open one. */
    method Begin(pid: Pid, packet: Packet)
      requires Valid() && pid !in qosTxns
      modifies this, rt
      ensures Valid() && fresh(qosTxns.Values - old(qosTxns.Values))
      ensures View() == Qos.UpdateQos(old(View()), pid, packet)
    {
      var created := Tracker.Create(rt, packet);
      if created.Ok? {
        qosTxns := qosTxns[pid := created.value];
        assert View().txns == old(View()).txns[pid := created.value.View()];
      } else {
        assert View().txns == old(View()).txns;
      }
    }

    /** Updates the tracker of `pid` in place; the others stay as they are. */
    method UpdateTracker(pid: Pid, packet: Packet) returns (r: Result<Qos.Update>)
      requires Valid() && pid in qosTxns
      modifies rt, qosTxns[pid]
      ensures var (t, tasks, result) := UpdateTxn(old(View()).txns[pid], old(View()).tasks, packet);
              r == result && View() == SessionView(old(View()).txns[pid := t], tasks)
    {
      var tracker := qosTxns[pid];
      r := tracker.Update(rt, packet);
      assert View().txns == old(View()).txns[pid := tracker.View()];
    }

    /** Removes a tracker if there is one; dropping it aborts its retry. */
    method Remove(pid: Pid)
      requires Valid()
      modifies this, rt
      ensures Valid() && qosTxns == old(qosTxns) - {pid} && qosTxns.Values <= old(qosTxns.Values)
      ensures View() == DropTxn(old(View()), pid)
    {
      if pid in qosTxns {
        qosTxns[pid].Drop(rt);
      }
      qosTxns := qosTxns - {pid};
      assert View().txns == old(View()).txns - {pid};
    }

    /** Dropping the session drops every tracker, in any order. */
    method Drop()
      requires Valid()
      modifies this, rt
      ensures Valid() && qosTxns == map[]
      ensures View() == DropSession(old(View()))
    {
      while qosTxns != map[]
        invariant Valid() && qosTxns.Values <= old(qosTxns.Values)
        invariant DropSession(View()) == DropSession(old(View()))
        decreases qosTxns.Keys
      {
        var pid :| pid in qosTxns.Keys;
        DropOneFirst(View(), pid);
        Remove(pid);
      }
      EmptySessionDrops(View());
    }
  }

  const MAX_U32: nat := 0xFFFF_FFFF

  datatype TaskEnd = Aborted | GaveUp | Overflowed

  /** The body of a retry task whose sleep ends `wakeups` times before it is aborted.
      The 32-bit attempt counter overflows exactly when the retry limit is absent or
      the largest 32-bit number, and only after 2^32 messages. With any other limit
      the task sends at most `maxRetries + 1` copies and gives up. */
  method RunRetryTask(packet: Packet, maxRetries: nat, wakeups: nat) returns (sent: seq<Packet>, end: TaskEnd)
    requires maxRetries <= MAX_U32
    ensures forall i :: 0 <= i < |sent| ==> sent[i] == packet
    ensures end == (if maxRetries == 0 || maxRetries == MAX_U32 then
                      if wakeups > MAX_U32 then Overflowed else Aborted
                    else if wakeups > maxRetries then GaveUp else Aborted)
    ensures |sent| == (match end
                       case Aborted => wakeups
                       case GaveUp => maxRetries + 1
                       case Overflowed => MAX_U32 + 1)
    ensures !end.Overflowed? ==>
              TaskAfter(packet, maxRetries, |sent|) == (if end.GaveUp? then None else Some(RetryTask(packet, |sent|)))
  {
    sent := [];
    var attempts: nat := 0;
    while true
      invariant forall i :: 0 <= i < |sent| ==> sent[i] == packet
      invariant |sent| == attempts <= wakeups && attempts <= MAX_U32
      invariant 0 < maxRetries < MAX_U32 ==> attempts <= maxRetries + 1
      decreases wakeups - attempts
    {
      TaskLives(packet, maxRetries, attempts);
      if maxRetries != 0 && attempts > maxRetries {
        return sent, GaveUp;
      }
      if attempts == wakeups {
        return sent, Aborted;
      }
      sent := sent + [packet];
      if attempts == MAX_U32 {
        return sent, Overflowed;
      }
      attempts := attempts + 1;
    }
  }

  /** The runtime's view of a fresh retry task after `n` wake-ups; `None` once it has given up. */
  function TaskAfter(packet: Packet, maxRetries: nat, n: nat): Option<RetryTask> {
    if n == 0 then Some(RetryTask(packet, 0))
    else
      match TaskAfter(packet, maxRetries, n - 1)
      case None => None
      case Some(t) =>
        var woken := WakeTask(Tasks(map[0 := t], 1), 0, maxRetries);
        if 0 in woken.live then Some(woken.live[0]) else None
  }

  /** A limit of zero is no limit: the task stays for ever. With any other it sends its packet
      exactly once more often than the limit says. */
  lemma {:induction false} TaskLives(packet: Packet, maxRetries: nat, n: nat)
    ensures TaskAfter(packet, maxRetries, n) ==
            if maxRetries == 0 || n <= maxRetries then Some(RetryTask(packet, n)) else None
  {
    if n > 0 {
      TaskLives(packet, maxRetries, n - 1);
    }
  }
}

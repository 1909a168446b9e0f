/** Why exactly-once delivery needs its condition: a Pubrec that overtakes a queued
    retry of its own publish can always be continued to a second showing, and without
    such a retry it never can. */
module Overtaking {
  import opened Wrappers
  import opened Mqtt
  import opened Qos
  import opened Delivery
  import H = Handler
  import R = Receiver
  import IO = ClientIO

  /** The steps bring up no new traffic about `pid`. */
  ghost predicate NothingNew(steps: seq<Step>, pid: Pid) {
    steps != [] ==>
      && NothingNew(Front(steps), pid)
      && !ForwardsAbout(Last(steps), pid)
      && (Last(steps).Other? ==> !About(Last(steps).packet, pid))
  }

  lemma {:induction false} AfterConcat(p: Params, s: Sys, a: seq<Step>, b: seq<Step>)
    requires After(p, s, a).Some?
    ensures After(p, s, a + b) == After(p, After(p, s, a).value, b)
  {
    if b == [] {
      assert a + b == a;
    } else {
      AfterConcat(p, s, a, Front(b));
      assert Front(a + b) == a + Front(b) && Last(a + b) == Last(b);
    }
  }

  lemma {:induction false} NothingNewConcat(a: seq<Step>, b: seq<Step>, pid: Pid)
    requires NothingNew(a, pid) && NothingNew(b, pid)
    ensures NothingNew(a + b, pid)
  {
    if b == [] {
      assert a + b == a;
    } else {
      NothingNewConcat(a, Front(b), pid);
      assert Front(a + b) == a + Front(b) && Last(a + b) == Last(b);
    }
  }

  lemma QuietStep(step: Step, pid: Pid)
    requires !step.Forward? && !step.Other?
    ensures NothingNew([step], pid)
  {
    assert Front([step]) == [] && Last([step]) == step;
  }

  lemma OneStep(p: Params, s: Sys, step: Step)
    requires Enabled(s, step)
    ensures After(p, s, [step]) == Some(Apply(p, s, step))
  {
    assert Front([step]) == [];
  }

  /** The link to the client may lose its first `k` packets. */
  lemma {:induction false} LoseFirst(p: Params, s: Sys, k: nat, pid: Pid) returns (steps: seq<Step>)
    requires s.h.conn.Connected? && k <= |s.h.toClient|
    ensures NothingNew(steps, pid)
    ensures After(p, s, steps) == Some(s.(h := s.h.(toClient := s.h.toClient[k..])))
    decreases k
  {
    if k == 0 {
      steps := [];
      assert s.h.toClient[0..] == s.h.toClient;
    } else {
      var before := LoseFirst(p, s, k - 1, pid);
      var t := After(p, s, before).value;
      steps := before + [LoseDown(0)];
      assert Front(steps) == before;
      assert Without(t.h.toClient, 0) == s.h.toClient[k..];
    }
  }

  /** The handler may serve its channel up to and including message `j`. */
  lemma {:induction false} ServeThrough(p: Params, s: Sys, j: nat, pid: Pid) returns (steps: seq<Step>)
    requires s.h.conn.Connected? && j < |s.inbox| && s.inbox[j].QosRetry?
    ensures NothingNew(steps, pid) && After(p, s, steps).Some?
    ensures var t := After(p, s, steps).value;
            && t.h.conn.Connected? && t.client == s.client && t.printed == s.printed
            && t.h.toClient != [] && t.h.toClient[|t.h.toClient| - 1] == s.inbox[j].packet
    decreases j
  {
    assert H.OnMessage(s.h, s.inbox[0], true).Done?;
    var t := Apply(p, s, Serve);
    OneStep(p, s, Serve);
    QuietStep(Serve, pid);
    if j == 0 {
      steps := [Serve];
    } else {
      var rest := ServeThrough(p, t, j - 1, pid);
      steps := [Serve] + rest;
      AfterConcat(p, s, [Serve], rest);
      NothingNewConcat([Serve], rest, pid);
    }
  }

  /** A client takes the only interesting packet on its link, wherever it is. */
  lemma TakeLast(p: Params, s: Sys, pid: Pid) returns (steps: seq<Step>)
    requires s.h.conn.Connected? && s.h.toClient != []
    ensures NothingNew(steps, pid)
    ensures var last := s.h.toClient[|s.h.toClient| - 1];
            After(p, s, steps) == Some(ClientReacts(p, s.(h := s.h.(toClient := [])), IO.Received(last), true))
  {
    var n := |s.h.toClient| - 1;
    var lose := LoseFirst(p, s, n, pid);
    var t := After(p, s, lose).value;
    assert t.h.toClient == [s.h.toClient[n]];
    assert t.(h := t.h.(toClient := t.h.toClient[1..])) == s.(h := s.h.(toClient := []));
    steps := lose + [Deliver(true)];
    AfterConcat(p, s, lose, [Deliver(true)]);
    OneStep(p, t, Deliver(true));
    assert NothingNew(steps, pid) by { assert Front(steps) == lose; }
  }

  /** The Pubrel answers the Pubrec, and the client is polling again. */
  lemma Release(p: Params, t: Sys, data: PublishData, pid: Pid) returns (steps: seq<Step>)
    requires InStage(t, data, pid, Published) && AwaitingRelease(t.client, pid)
    requires t.up != [] && t.up[0] == Pubrec(pid)
    ensures NothingNew(steps, pid) && Enabled(t, Handle) && After(p, Apply(p, t, Handle), steps).Some?
    ensures var polling := After(p, Apply(p, t, Handle), steps).value;
            && polling.h.conn.Connected? && polling.client == R.Polling
            && polling.inbox == t.inbox && polling.printed == t.printed
  {
    var released := Apply(p, t, Handle);
    assert released.h.toClient == t.h.toClient + [Pubrel(pid)];
    steps := TakeLast(p, released, pid);
    assert t.printed + [] == t.printed;
  }

  /** A polling client shows a message that is last on its link. */
  lemma ShowLast(p: Params, s: Sys, data: PublishData, pid: Pid) returns (steps: seq<Step>)
    requires s.h.conn.Connected? && s.client == R.Polling && s.h.toClient != []
    requires IsMessage(s.h.toClient[|s.h.toClient| - 1], data, pid)
    ensures NothingNew(steps, pid) && After(p, s, steps).Some?
    ensures After(p, s, steps).value.printed == s.printed + [data]
  {
    steps := TakeLast(p, s, pid);
  }

  /** A polling client can be made to show a retry that waits in the channel. */
  lemma ShowRetry(p: Params, s: Sys, data: PublishData, pid: Pid) returns (steps: seq<Step>)
    requires s.h.conn.Connected? && s.client == R.Polling && StaleRetry(s.inbox, data, pid)
    ensures NothingNew(steps, pid) && After(p, s, steps).Some?
    ensures After(p, s, steps).value.printed == s.printed + [data]
  {
    var m :| m in s.inbox && m.QosRetry? && IsMessage(m.packet, data, pid);
    var j: nat :| j < |s.inbox| && s.inbox[j] == m;
    var serve := ServeThrough(p, s, j, pid);
    var show := ShowLast(p, After(p, s, serve).value, data, pid);
    steps := serve + show;
    NothingNewConcat(serve, show, pid);
    AfterConcat(p, s, serve, show);
  }

  /** The message has been shown twice, and nothing else under its packet id. */
  ghost predicate Twice(printed: seq<PublishData>, data: PublishData, pid: Pid) {
    ShowsOnly(printed, data, pid) && Shown(printed, pid) == 2
  }

  /** From the moment a Pubrec overtakes a queued retry, a run that shows the message twice. */
  lemma ShowTwice(p: Params, t: Sys, data: PublishData, pid: Pid) returns (steps: seq<Step>)
    requires InStage(t, data, pid, Published) && AwaitingRelease(t.client, pid)
    requires Overtakes(t, Handle, data, pid)
    ensures NothingNew(steps, pid) && After(p, t, [Handle] + steps).Some?
    ensures Twice(After(p, t, [Handle] + steps).value.printed, data, pid)
  {
    var release := Release(p, t, data, pid);
    var released := Apply(p, t, Handle);
    var show := ShowRetry(p, After(p, released, release).value, data, pid);
    steps := release + show;
    NothingNewConcat(release, show, pid);
    OneStep(p, t, Handle);
    AfterConcat(p, released, release, show);
    AfterConcat(p, t, [Handle], steps);
    OverdueIsMessage(t, data, pid);
    ShownAppend(t.printed, data, pid);
  }

  lemma OverdueIsMessage(t: Sys, data: PublishData, pid: Pid)
    requires Overtakes(t, Handle, data, pid)
    ensures data.qospid == Qos2(pid)
  {
  }

  /** Once released, a message is never shown again. */
  lemma {:induction false} ReleasedForGood(p: Params, s: Sys, steps: seq<Step>, data: PublishData, pid: Pid, stage: Stage) returns (last: Stage)
    requires InStage(s, data, pid, stage) && (stage == Released || stage == Completed)
    requires NothingNew(steps, pid) && After(p, s, steps).Some?
    ensures InStage(After(p, s, steps).value, data, pid, last) && (last == Released || last == Completed)
  {
    if steps == [] {
      last := stage;
    } else {
      var before := ReleasedForGood(p, s, Front(steps), data, pid, stage);
      var t := After(p, s, Front(steps)).value;
      NothingStale(t, data, pid, before);
      last := AnyStep(p, t, Last(steps), data, pid, before);
    }
  }

  lemma NothingStale(s: Sys, data: PublishData, pid: Pid, stage: Stage)
    requires InStage(s, data, pid, stage) && (stage == Released || stage == Completed)
    ensures !StaleRetry(s.inbox, data, pid)
  {
    if m :| m in s.inbox && m.QosRetry? && IsMessage(m.packet, data, pid) {
      assert MsgAbout(m, pid);
    }
  }

  lemma NotShownAgain(p: Params, t: Sys, steps: seq<Step>, data: PublishData, pid: Pid)
    requires InStage(t, data, pid, Published) && t.up != [] && t.up[0] == Pubrec(pid) && !StaleRetry(t.inbox, data, pid)
    requires NothingNew(steps, pid) && After(p, t, [Handle] + steps).Some?
    ensures Shown(After(p, t, [Handle] + steps).value.printed, pid) <= 1
  {
    AfterHandle(p, t, steps);
    var stage := HandleOwnPacket(p, t, data, pid, Published);
    var last := ReleasedForGood(p, Apply(p, t, Handle), steps, data, pid, stage);
  }

  lemma AfterHandle(p: Params, t: Sys, steps: seq<Step>)
    requires t.h.conn.Connected? && t.up != [] && t.up[0].Pubrec?
    ensures Enabled(t, Handle) && After(p, t, [Handle] + steps) == After(p, Apply(p, t, Handle), steps)
  {
    assert H.OnPacket(t.h, t.up[0], true).Done?;
    OneStep(p, t, Handle);
    AfterConcat(p, t, [Handle], steps);
  }

  /** The exact condition. When the handler takes the first Pubrec of a message, some
      continuation shows the message again if and only if a retry of the publish is
      still waiting in the handler's channel. */
  lemma OvertakingDecides(p: Params, t: Sys, data: PublishData, pid: Pid)
    requires InStage(t, data, pid, Published) && AwaitingRelease(t.client, pid)
    requires t.up != [] && t.up[0] == Pubrec(pid)
    ensures StaleRetry(t.inbox, data, pid) <==>
            exists steps :: NothingNew(steps, pid) && After(p, t, [Handle] + steps).Some?
                            && Twice(After(p, t, [Handle] + steps).value.printed, data, pid)
  {
    if StaleRetry(t.inbox, data, pid) {
      var steps := ShowTwice(p, t, data, pid);
    } else {
      forall steps | NothingNew(steps, pid) && After(p, t, [Handle] + steps).Some?
        ensures Shown(After(p, t, [Handle] + steps).value.printed, pid) <= 1
      {
        NotShownAgain(p, t, steps, data, pid);
      }
    }
  }

  lemma {:induction false} ExclusiveConcat(a: seq<Step>, b: seq<Step>, data: PublishData, pid: Pid)
    requires Exclusive(a, data, pid) && NothingNew(b, pid)
    ensures Exclusive(a + b, data, pid)
  {
    if b == [] {
      assert a + b == a;
    } else {
      ExclusiveConcat(a, Front(b), data, pid);
      assert Front(a + b) == a + Front(b) && Last(a + b) == Last(b);
    }
  }

  /** A client that has just connected and subscribed. */
  ghost predicate FreshConnection(s: Sys) {
    && s.h.conn.Connected? && s.h.conn.session == NEW_SESSION && s.h.toClient == []
    && s.inbox == [] && s.up == [] && s.client == R.Polling && s.printed == []
  }

  /** A quiet step that is not the handler's keeps a run exclusive and clean. */
  lemma Extend(p: Params, s: Sys, steps: seq<Step>, step: Step, data: PublishData, pid: Pid)
    requires Exclusive(steps, data, pid) && Clean(p, s, steps, data, pid) && After(p, s, steps).Some?
    requires Enabled(After(p, s, steps).value, step) && step != Handle && !step.Other?
    requires ForwardsAbout(step, pid) ==>
               steps == [] && step.msg.PublishMsg? && IsMessage(Publish(step.msg.publish), data, pid)
    ensures Exclusive(steps + [step], data, pid) && Clean(p, s, steps + [step], data, pid)
    ensures After(p, s, steps + [step]) == Some(Apply(p, After(p, s, steps).value, step))
  {
    assert Front(steps + [step]) == steps && Last(steps + [step]) == step;
  }

  lemma ExtendTwice(p: Params, s: Sys, steps: seq<Step>, a: Step, b: Step, data: PublishData, pid: Pid)
    requires Exclusive(steps, data, pid) && Clean(p, s, steps, data, pid) && After(p, s, steps).Some?
    requires var t := After(p, s, steps).value;
             Enabled(t, a) && Enabled(Apply(p, t, a), b)
    requires a != Handle && b != Handle && !a.Other? && !b.Other? && !b.Forward?
    requires ForwardsAbout(a, pid) ==> steps == [] && a.msg.PublishMsg? && IsMessage(Publish(a.msg.publish), data, pid)
    ensures Exclusive(steps + [a, b], data, pid) && Clean(p, s, steps + [a, b], data, pid)
    ensures After(p, s, steps + [a, b]) == Some(Apply(p, Apply(p, After(p, s, steps).value, a), b))
  {
    Extend(p, s, steps, a, data, pid);
    Extend(p, s, steps + [a], b, data, pid);
    assert steps + [a] + [b] == steps + [a, b];
  }

  /** The message is forwarded and sent: it is on the link and its tracker has a retry task. */
  lemma Sending(p: Params, s: Sys, data: PublishData, pid: Pid) returns (steps: seq<Step>, t: Sys)
    requires FreshConnection(s) && data.qospid == Qos2(pid)
    ensures Exclusive(steps, data, pid) && Clean(p, s, steps, data, pid) && After(p, s, steps) == Some(t)
    ensures t.h.conn.Connected? && t.h.conn.session == UpdateQos(NEW_SESSION, pid, Publish(data))
    ensures t.h.toClient == [Publish(data)] && t.inbox == [] && t.up == [] && t.client == R.Polling && steps != []
  {
    var f := Forward(PublishMsg("publisher", data));
    ExtendTwice(p, s, [], f, Serve, data, pid);
    steps := [] + [f, Serve];
    t := Apply(p, Apply(p, s, f), Serve);
  }

  /** The retry fires and the client receives the first copy. */
  lemma Receiving(p: Params, s: Sys, t: Sys, before: seq<Step>, data: PublishData, pid: Pid) returns (steps: seq<Step>, u: Sys)
    requires Exclusive(before, data, pid) && Clean(p, s, before, data, pid) && After(p, s, before) == Some(t) && before != []
    requires data.qospid == Qos2(pid)
    requires t.h.conn.Connected? && t.h.conn.session == UpdateQos(NEW_SESSION, pid, Publish(data))
    requires t.h.toClient == [Publish(data)] && t.inbox == [] && t.up == [] && t.client == R.Polling
    ensures Exclusive(steps, data, pid) && Clean(p, s, steps, data, pid) && After(p, s, steps) == Some(u)
    ensures Tracked(u, pid) && u.h.conn.session.txns[pid].state == Publish(data)
    ensures AwaitingRelease(u.client, pid) && Overtakes(u, Handle, data, pid)
  {
    var woken := Apply(p, t, Wake(0));
    assert woken.inbox == [QosRetry(t.h.conn.id, Publish(data))];
    ExtendTwice(p, s, before, Wake(0), Deliver(true), data, pid);
    steps := before + [Wake(0), Deliver(true)];
    u := Apply(p, woken, Deliver(true));
    assert u.up == [Pubrec(pid)] && u.inbox[0] in u.inbox;
  }

  lemma FreshIsUnused(s: Sys, pid: Pid)
    requires FreshConnection(s)
    ensures Unused(s, pid)
  {
  }

  lemma TrackedPublish(t: Sys, data: PublishData, pid: Pid, stage: Stage)
    requires InStage(t, data, pid, stage) && Tracked(t, pid) && t.h.conn.session.txns[pid].state.Publish?
    ensures stage == Published
  {
  }

  /** A retry that fires just before the first Pubrec is handled: the moment of overtaking
      is four steps away from a fresh connection. */
  lemma RetryBeforePubrec(p: Params, s: Sys, data: PublishData, pid: Pid) returns (steps: seq<Step>)
    requires FreshConnection(s) && data.qospid == Qos2(pid)
    ensures Unused(s, pid) && Exclusive(steps, data, pid) && After(p, s, steps).Some?
    ensures var t := After(p, s, steps).value;
            InStage(t, data, pid, Published) && AwaitingRelease(t.client, pid) && Overtakes(t, Handle, data, pid)
  {
    FreshIsUnused(s, pid);
    var sending, t := Sending(p, s, data, pid);
    var u;
    steps, u := Receiving(p, s, t, sending, data, pid);
    Settle(p, s, steps, data, pid);
  }

  /** In a clean run, a client that waits while the publish is tracked and its retry is
      queued stands right before the overtaking. */
  lemma Settle(p: Params, s: Sys, steps: seq<Step>, data: PublishData, pid: Pid)
    requires Unused(s, pid) && Exclusive(steps, data, pid) && Clean(p, s, steps, data, pid) && After(p, s, steps).Some?
    requires var t := After(p, s, steps).value;
             Tracked(t, pid) && t.h.conn.session.txns[pid].state.Publish?
    ensures InStage(After(p, s, steps).value, data, pid, Published)
  {
    var stage := StageAfter(p, s, steps, data, pid);
    TrackedPublish(After(p, s, steps).value, data, pid, stage);
  }

  /** Without the condition at-most-once fails: on every fresh connection, every QoS 2
      message can be shown twice, although nothing else uses its packet id. */
  lemma AtMostOnceFails(p: Params, s: Sys, data: PublishData, pid: Pid) returns (steps: seq<Step>)
    requires FreshConnection(s) && data.qospid == Qos2(pid)
    ensures Unused(s, pid) && Exclusive(steps, data, pid) && After(p, s, steps).Some?
    ensures Twice(After(p, s, steps).value.printed, data, pid)
  {
    var before := RetryBeforePubrec(p, s, data, pid);
    var rest := ShowTwice(p, After(p, s, before).value, data, pid);
    Join(p, s, before, rest, data, pid);
    steps := before + ([Handle] + rest);
  }

  lemma Join(p: Params, s: Sys, before: seq<Step>, rest: seq<Step>, data: PublishData, pid: Pid)
    requires Exclusive(before, data, pid) && After(p, s, before).Some? && NothingNew(rest, pid)
    ensures Exclusive(before + ([Handle] + rest), data, pid)
    ensures After(p, s, before + ([Handle] + rest)) == After(p, After(p, s, before).value, [Handle] + rest)
  {
    QuietStep(Handle, pid);
    NothingNewConcat([Handle], rest, pid);
    ExclusiveConcat(before, [Handle] + rest, data, pid);
    AfterConcat(p, s, before, [Handle] + rest);
  }
}

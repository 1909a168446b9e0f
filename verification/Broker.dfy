/** The broker's shared state: who is connected, who subscribes to what, and where a
    publish goes. */
module Broker {
  import opened Wrappers
  import opened Mqtt

  datatype ClientInfo = ClientInfo(clientTx: Channel, topics: set<SubscribeTopic>)

  datatype Routing = Routing(clients: map<string, ClientInfo>, subscriptions: map<string, set<string>>)

  const EMPTY := Routing(map[], map[])

  // ---------- what each message does to the state ----------

  function AddTopics(subs: map<string, set<string>>, client: string, topics: seq<SubscribeTopic>): map<string, set<string>> {
    if topics == [] then subs
    else
      var m := AddTopics(subs, client, topics[..|topics| - 1]);
      var t := topics[|topics| - 1].topicPath;
      m[t := (if t in m then m[t] else {}) + {client}]
  }

  function RemoveTopic(subs: map<string, set<string>>, client: string, topic: string): map<string, set<string>> {
    if topic !in subs then subs
    else if subs[topic] - {client} == {} then subs - {topic}
    else subs[topic := subs[topic] - {client}]
  }

  function RemoveTopics(subs: map<string, set<string>>, client: string, topics: seq<string>): map<string, set<string>> {
    if topics == [] then subs
    else RemoveTopic(RemoveTopics(subs, client, topics[..|topics| - 1]), client, topics[|topics| - 1])
  }

  /** The clean-up that disconnecting performs for the topics recorded with the client. */
  function Forget(subs: map<string, set<string>>, client: string, topics: set<SubscribeTopic>): map<string, set<string>> {
    map t | t in subs :: if exists s :: s in topics && s.topicPath == t then subs[t] - {client} else subs[t]
  }

  function Unlisted(info: ClientInfo, topics: seq<string>): ClientInfo {
    info.(topics := set s | s in info.topics && !(s.qos == AtMostOnce && s.topicPath in topics))
  }

  /** The state after a message that the broker accepts. */
  function Apply(r: Routing, msg: BrokerMsg): Routing {
    match msg
    case ClientConnected(c, tx) => r.(clients := r.clients[c := ClientInfo(tx, {})])
    case ClientDisconnected(c) =>
      Routing(r.clients - {c}, if c in r.clients then Forget(r.subscriptions, c, r.clients[c].topics) else r.subscriptions)
    case PublishMsg(_, d) =>
      if d.topicName in r.subscriptions then r else r.(subscriptions := r.subscriptions[d.topicName := {}])
    case SubscribeMsg(c, d) => r.(subscriptions := AddTopics(r.subscriptions, c, d.topics))
    case UnsubscribeMsg(c, d) =>
      Routing(if c in r.clients then r.clients[c := Unlisted(r.clients[c], d.topics)] else r.clients,
              RemoveTopics(r.subscriptions, c, d.topics))
    case _ => r
  }

  function ApplyAll(msgs: seq<BrokerMsg>): Routing {
    if msgs == [] then EMPTY else Apply(ApplyAll(msgs[..|msgs| - 1]), msgs[|msgs| - 1])
  }

  predicate Subscribed(r: Routing, topic: string, client: string) {
    topic in r.subscriptions && client in r.subscriptions[topic]
  }

  /** The clients a publish is sent to. */
  function Targets(r: Routing, sender: string, topic: string): set<string> {
    if topic !in r.subscriptions then {}
    else set c | c in r.subscriptions[topic] && c in r.clients && c != sender
  }

  // ---------- the plain reading of the history ----------

  /** The channel of a client whose last connection message was a connection. */
  function ConnectedAs(hist: seq<BrokerMsg>, client: string): Option<Channel> {
    if hist == [] then None
    else
      match hist[|hist| - 1]
      case ClientConnected(c, tx) => if c == client then Some(tx) else ConnectedAs(hist[..|hist| - 1], client)
      case ClientDisconnected(c) => if c == client then None else ConnectedAs(hist[..|hist| - 1], client)
      case _ => ConnectedAs(hist[..|hist| - 1], client)
  }

  /** Whether the last message of a client that mentions the topic was a subscribe. */
  predicate SubscribedIn(hist: seq<BrokerMsg>, topic: string, client: string) {
    hist != [] &&
    var before := SubscribedIn(hist[..|hist| - 1], topic, client);
    match hist[|hist| - 1]
    case SubscribeMsg(c, d) => (c == client && exists s :: s in d.topics && s.topicPath == topic) || before
    case UnsubscribeMsg(c, d) => !(c == client && topic in d.topics) && before
    case _ => before
  }

  // ---------- the state refines the history ----------

  lemma {:induction false} AddTopicsSubscribes(subs: map<string, set<string>>, client: string, topics: seq<SubscribeTopic>,
                                              topic: string, c: string)
    ensures var m := AddTopics(subs, client, topics);
            (topic in m && c in m[topic]) <==>
            (topic in subs && c in subs[topic]) || (c == client && exists s :: s in topics && s.topicPath == topic)
  {
    if topics != [] {
      var front := topics[..|topics| - 1];
      AddTopicsSubscribes(subs, client, front, topic, c);
      assert topics == front + [topics[|topics| - 1]];
    }
  }

  lemma {:induction false} RemoveTopicsUnsubscribes(subs: map<string, set<string>>, client: string, topics: seq<string>,
                                                   topic: string, c: string)
    ensures var m := RemoveTopics(subs, client, topics);
            (topic in m && c in m[topic]) <==>
            (topic in subs && c in subs[topic]) && !(c == client && topic in topics)
  {
    if topics != [] {
      var front := topics[..|topics| - 1];
      RemoveTopicsUnsubscribes(subs, client, front, topic, c);
      assert topics == front + [topics[|topics| - 1]];
      var m := RemoveTopics(subs, client, front);
      assert topic in m && c in m[topic] && c != client ==> c in m[topic] - {client};
    }
  }

  /** No client ever has a topic on record. */
  ghost predicate NothingListed(r: Routing) {
    forall c :: c in r.clients ==> r.clients[c].topics == {}
  }

  /** So disconnecting changes no subscription: they outlive the connection. */
  lemma DisconnectKeepsSubscriptions(r: Routing, client: string)
    requires NothingListed(r)
    ensures Apply(r, ClientDisconnected(client)).subscriptions == r.subscriptions
  {
  }

  ghost predicate Agrees(r: Routing, hist: seq<BrokerMsg>) {
    && NothingListed(r)
    && (forall c :: c in r.clients <==> ConnectedAs(hist, c).Some?)
    && (forall c :: c in r.clients ==> ConnectedAs(hist, c) == Some(r.clients[c].clientTx))
    && (forall t, c :: Subscribed(r, t, c) <==> SubscribedIn(hist, t, c))
  }

  lemma ApplyAgrees(r: Routing, hist: seq<BrokerMsg>, msg: BrokerMsg)
    requires Agrees(r, hist)
    ensures Agrees(Apply(r, msg), hist + [msg])
  {
    var more := hist + [msg];
    assert more[..|more| - 1] == hist;
    var r' := Apply(r, msg);
    forall t, c ensures Subscribed(r', t, c) <==> SubscribedIn(more, t, c) {
      assert Subscribed(r, t, c) <==> SubscribedIn(hist, t, c);
      match msg {
        case SubscribeMsg(client, d) => AddTopicsSubscribes(r.subscriptions, client, d.topics, t, c);
        case UnsubscribeMsg(client, d) => RemoveTopicsUnsubscribes(r.subscriptions, client, d.topics, t, c);
        case ClientDisconnected(client) => DisconnectKeepsSubscriptions(r, client);
        case _ =>
      }
    }
  }

  /** After any history, the index holds exactly what a plain reading of it says; the empty
      entries that publishing adds and unsubscribing prunes make no difference. */
  lemma {:induction false} RoutingRefinesHistory(hist: seq<BrokerMsg>)
    ensures Agrees(ApplyAll(hist), hist)
  {
    if hist != [] {
      var before, msg := hist[..|hist| - 1], hist[|hist| - 1];
      RoutingRefinesHistory(before);
      ApplyAgrees(ApplyAll(before), before, msg);
      assert before + [msg] == hist;
    }
  }

  /** Messages among which the client itself neither subscribes nor unsubscribes. */
  predicate SaysNothing(msgs: seq<BrokerMsg>, client: string) {
    forall i :: 0 <= i < |msgs| && (msgs[i].SubscribeMsg? || msgs[i].UnsubscribeMsg?) ==> msgs[i].client != client
  }

  lemma {:induction false} SilenceKeepsSubscriptions(hist: seq<BrokerMsg>, later: seq<BrokerMsg>, client: string, topic: string)
    requires SaysNothing(later, client)
    ensures SubscribedIn(hist + later, topic, client) <==> SubscribedIn(hist, topic, client)
  {
    if later == [] {
      assert hist + later == hist;
    } else {
      var n := |later| - 1;
      assert (hist + later)[..|hist + later| - 1] == hist + later[..n];
      SilenceKeepsSubscriptions(hist, later[..n], client, topic);
    }
  }

  /** Whatever happens in between, disconnections and new connections under the same id and
      the doings of all other clients included, a client that has not subscribed or
      unsubscribed since has exactly the subscriptions it had. */
  lemma ReconnectRestores(hist: seq<BrokerMsg>, later: seq<BrokerMsg>, client: string, topic: string)
    requires SaysNothing(later, client)
    ensures Subscribed(ApplyAll(hist + later), topic, client) <==> Subscribed(ApplyAll(hist), topic, client)
  {
    RoutingRefinesHistory(hist);
    RoutingRefinesHistory(hist + later);
    SilenceKeepsSubscriptions(hist, later, client, topic);
  }

  // ---------- the broker object ----------

  /** A message put into the channel of a client's handler. */
  datatype Sent = Sent(client: string, tx: Channel, msg: BrokerMsg)

  function Recipients(batch: seq<Sent>): set<string> {
    set i | 0 <= i < |batch| :: batch[i].client
  }

  /** The batch addresses only the given clients, each at most once, over its own channel. */
  ghost predicate Addressed(batch: seq<Sent>, r: Routing, msg: BrokerMsg) {
    && (forall i :: 0 <= i < |batch| ==>
          batch[i].client in r.clients && batch[i] == Sent(batch[i].client, r.clients[batch[i].client].clientTx, msg))
    && (forall i, j :: 0 <= i < j < |batch| ==> batch[i].client != batch[j].client)
  }

  class Broker {
    var clients: map<string, ClientInfo>
    var subscriptions: map<string, set<string>>

    function View(): Routing
      reads this
    {
      Routing(clients, subscriptions)
    }

    constructor ()
      ensures View() == EMPTY
    {
      clients, subscriptions := map[], map[];
    }

    method HandleClientConnected(client: string, tx: Channel)
      modifies this
      ensures View() == Apply(old(View()), ClientConnected(client, tx))
    {
      clients := clients[client := ClientInfo(tx, {})];
    }

    method HandleClientDisconnected(client: string)
      modifies this
      ensures View() == Apply(old(View()), ClientDisconnected(client))
    {
      if client in clients {
        var topics := clients[client].topics;
        ghost var done: set<SubscribeTopic> := {};
        while topics != {}
          invariant clients == old(clients) && done + topics == clients[client].topics
          invariant subscriptions == Forget(old(subscriptions), client, done)
          decreases topics
        {
          var topic :| topic in topics;
          ForgetOne(old(subscriptions), client, done, topic);
          if topic.topicPath in subscriptions {
            subscriptions := subscriptions[topic.topicPath := subscriptions[topic.topicPath] - {client}];
          }
          topics, done := topics - {topic}, done + {topic};
        }
      }
      clients := clients - {client};
    }

    /** Sends a publish to every subscriber that is connected, except its sender. `closed`
        are the channels whose handler is gone: meeting one ends the call with an error. */
    method HandlePublish(client: string, d: PublishData, closed: set<Channel>) returns (ok: bool, batch: seq<Sent>)
      modifies this
      ensures View() == Apply(old(View()), PublishMsg(client, d))
      ensures Addressed(batch, View(), PublishMsg(client, d))
      ensures ok <==> forall c :: c in Targets(old(View()), client, d.topicName) ==> clients[c].clientTx !in closed
      ensures ok ==> Recipients(batch) == Targets(old(View()), client, d.topicName)
      ensures Recipients(batch) <= Targets(old(View()), client, d.topicName)
      ensures forall i :: 0 <= i < |batch| ==> batch[i].tx !in closed
    {
      if d.topicName !in subscriptions {
        subscriptions := subscriptions[d.topicName := {}];
      }
      batch := [];
      ghost var targets := Targets(old(View()), client, d.topicName);
      var rest := subscriptions[d.topicName];
      while rest != {}
        invariant View() == Apply(old(View()), PublishMsg(client, d)) && d.topicName in subscriptions
        invariant rest <= subscriptions[d.topicName]
        invariant Addressed(batch, View(), PublishMsg(client, d))
        invariant Recipients(batch) == targets - rest
        invariant forall i :: 0 <= i < |batch| ==> batch[i].tx !in closed
        invariant forall c :: c in targets - rest ==> clients[c].clientTx !in closed
        decreases rest
      {
        var c :| c in rest;
        rest := rest - {c};
        if c in clients && c != client {
          if clients[c].clientTx in closed {
            return false, batch;
          }
          ghost var before := batch;
          batch := batch + [Sent(c, clients[c].clientTx, PublishMsg(client, d))];
          RecipientsAppend(before, batch[|before|]);
        }
      }
      return true, batch;
    }

    method HandleSubscribe(client: string, d: SubscribeData)
      modifies this
      ensures View() == Apply(old(View()), SubscribeMsg(client, d))
    {
      for i := 0 to |d.topics|
        invariant clients == old(clients)
        invariant subscriptions == AddTopics(old(subscriptions), client, d.topics[..i])
      {
        assert d.topics[..i + 1][..i] == d.topics[..i];
        var path := d.topics[i].topicPath;
        if path !in subscriptions {
          subscriptions := subscriptions[path := {}];
        }
        subscriptions := subscriptions[path := subscriptions[path] + {client}];
      }
      assert d.topics[..|d.topics|] == d.topics;
    }

    method HandleUnsubscribe(client: string, d: UnsubscribeData)
      modifies this
      ensures View() == Apply(old(View()), UnsubscribeMsg(client, d))
    {
      for i := 0 to |d.topics|
        invariant clients == old(clients)
        invariant subscriptions == RemoveTopics(old(subscriptions), client, d.topics[..i])
      {
        assert d.topics[..i + 1][..i] == d.topics[..i];
        var topic := d.topics[i];
        if topic in subscriptions {
          subscriptions := subscriptions[topic := subscriptions[topic] - {client}];
        }
        if topic in subscriptions && subscriptions[topic] == {} {
          subscriptions := subscriptions - {topic};
        }
      }
      assert d.topics[..|d.topics|] == d.topics;

      if client in clients {
        var info := clients[client];
        for i := 0 to |d.topics|
          invariant info == Unlisted(clients[client], d.topics[..i])
        {
          assert d.topics[..i + 1] == d.topics[..i] + [d.topics[i]];
          info := info.(topics := info.topics - {SubscribeTopic(d.topics[i], AtMostOnce)});
          assert info.topics == Unlisted(clients[client], d.topics[..i + 1]).topics;
        }
        clients := clients[client := info];
      }
    }
  }

  lemma ForgetOne(subs: map<string, set<string>>, client: string, topics: set<SubscribeTopic>, topic: SubscribeTopic)
    ensures var m, t := Forget(subs, client, topics), topic.topicPath;
            Forget(subs, client, topics + {topic}) == if t in m then m[t := m[t] - {client}] else m
  {
    var m, m' := Forget(subs, client, topics), Forget(subs, client, topics + {topic});
    forall t | t in subs && t != topic.topicPath ensures m'[t] == m[t] {
      if s :| s in topics && s.topicPath == t {
        assert s in topics + {topic};
      }
    }
    if topic.topicPath in subs {
      assert topic in topics + {topic};
      assert m'[topic.topicPath] == m[topic.topicPath] - {client};
    }
    assert m'.Keys == m.Keys;
  }

  /** A disconnect would remove the client from the topics on its record, and from no others;
      it removes nobody else. An unsubscribe strikes its topics off that record. */
  lemma RecordDecides(r: Routing, client: string, d: UnsubscribeData, topic: string, c: string)
    ensures Subscribed(Apply(r, ClientDisconnected(client)), topic, c) <==>
            && Subscribed(r, topic, c)
            && !(c == client && client in r.clients && exists s :: s in r.clients[client].topics && s.topicPath == topic)
    ensures client in r.clients ==>
              var topics := Apply(r, UnsubscribeMsg(client, d)).clients[client].topics;
              forall s :: s in topics <==> s in r.clients[client].topics && !(s.qos == AtMostOnce && s.topicPath in d.topics)
  {
  }

  lemma RecipientsAppend(batch: seq<Sent>, s: Sent)
    ensures Recipients(batch + [s]) == Recipients(batch) + {s.client}
  {
    var more := batch + [s];
    assert more[|batch|] == s;
    forall c | c in Recipients(batch) ensures c in Recipients(more) {
      var i :| 0 <= i < |batch| && batch[i].client == c;
      assert more[i].client == c;
    }
  }

  // ---------- the broker's run ----------

  /** A publish reached exactly the clients that the history names, each exactly once. */
  ghost predicate DeliveredByHistory(batch: seq<Sent>, hist: seq<BrokerMsg>, msg: BrokerMsg)
    requires msg.PublishMsg?
  {
    && (forall i, j :: 0 <= i < j < |batch| ==> batch[i].client != batch[j].client)
    && (forall i :: 0 <= i < |batch| ==> batch[i].msg == msg)
    && (forall c: string, tx: Channel :: Sent(c, tx, msg) in batch <==>
          && c != msg.client && ConnectedAs(hist, c) == Some(tx)
          && SubscribedIn(hist, msg.publish.topicName, c))
  }

  lemma BatchFollowsHistory(batch: seq<Sent>, r: Routing, hist: seq<BrokerMsg>, msg: BrokerMsg)
    requires msg.PublishMsg? && Agrees(r, hist)
    requires Addressed(batch, r, msg) && Recipients(batch) == Targets(r, msg.client, msg.publish.topicName)
    ensures DeliveredByHistory(batch, hist, msg)
  {
    var topic := msg.publish.topicName;
    forall c: string, tx: Channel
      ensures Sent(c, tx, msg) in batch <==>
              c != msg.client && ConnectedAs(hist, c) == Some(tx) && SubscribedIn(hist, topic, c)
    {
      assert Subscribed(r, topic, c) <==> SubscribedIn(hist, topic, c);
      if Sent(c, tx, msg) in batch {
        var i :| 0 <= i < |batch| && batch[i] == Sent(c, tx, msg);
        assert c in Recipients(batch);
      }
      if c != msg.client && ConnectedAs(hist, c) == Some(tx) && SubscribedIn(hist, topic, c) {
        assert c in Recipients(batch);
        var i :| 0 <= i < |batch| && batch[i].client == c;
        assert batch[i] == Sent(c, tx, msg);
      }
    }
  }

  /** What a publish that meets a closed channel had sent by then: to some of the clients
      that the history names, each at most once, over open channels only. */
  ghost predicate PartlyDelivered(batch: seq<Sent>, hist: seq<BrokerMsg>, msg: BrokerMsg, closed: set<Channel>)
    requires msg.PublishMsg?
  {
    && (forall i, j :: 0 <= i < j < |batch| ==> batch[i].client != batch[j].client)
    && (forall i :: 0 <= i < |batch| ==>
          && batch[i].msg == msg && batch[i].tx !in closed && batch[i].client != msg.client
          && ConnectedAs(hist, batch[i].client) == Some(batch[i].tx)
          && SubscribedIn(hist, msg.publish.topicName, batch[i].client))
  }

  lemma PartialBatchFollowsHistory(batch: seq<Sent>, r: Routing, hist: seq<BrokerMsg>, msg: BrokerMsg, closed: set<Channel>)
    requires msg.PublishMsg? && Agrees(r, hist)
    requires Addressed(batch, r, msg) && Recipients(batch) <= Targets(r, msg.client, msg.publish.topicName)
    requires forall i :: 0 <= i < |batch| ==> batch[i].tx !in closed
    ensures PartlyDelivered(batch, hist, msg, closed)
  {
    forall i | 0 <= i < |batch|
      ensures batch[i].client != msg.client && SubscribedIn(hist, msg.publish.topicName, batch[i].client)
    {
      assert batch[i].client in Recipients(batch);
      assert Subscribed(r, msg.publish.topicName, batch[i].client);
    }
  }

  /** The messages that stop the broker: those not meant for it, and a publish of which some
      recipient named by the history has a closed channel. */
  ghost predicate Stops(hist: seq<BrokerMsg>, msg: BrokerMsg, closed: set<Channel>) {
    || msg.ClientConnectionTimeout? || msg.QosRetry?
    || (msg.PublishMsg? && exists c ::
          && c != msg.client && SubscribedIn(hist, msg.publish.topicName, c)
          && ConnectedAs(hist, c).Some? && ConnectedAs(hist, c).value in closed)
  }

  lemma ClosedTarget(r: Routing, hist: seq<BrokerMsg>, msg: BrokerMsg, closed: set<Channel>)
    requires Agrees(r, hist) && msg.PublishMsg?
    ensures Stops(hist, msg, closed) <==>
            exists c :: c in Targets(r, msg.client, msg.publish.topicName) && r.clients[c].clientTx in closed
  {
    var topic := msg.publish.topicName;
    forall c ensures c in Targets(r, msg.client, topic) <==>
                     c != msg.client && SubscribedIn(hist, topic, c) && ConnectedAs(hist, c).Some?
    {
      assert Subscribed(r, topic, c) <==> SubscribedIn(hist, topic, c);
    }
  }

  /** How one message was handled: a publish went to exactly the clients the history names,
      anything else to nobody. */
  ghost predicate HandledByHistory(batch: seq<Sent>, hist: seq<BrokerMsg>, msg: BrokerMsg) {
    if msg.PublishMsg? then DeliveredByHistory(batch, hist, msg) else batch == []
  }

  /** How the message that stopped the broker was handled. */
  ghost predicate StoppedByHistory(batch: seq<Sent>, hist: seq<BrokerMsg>, msg: BrokerMsg, closed: set<Channel>) {
    if msg.PublishMsg? then PartlyDelivered(batch, hist, msg, closed) else batch == []
  }

  /** One publish, said in terms of the history alone. */
  method RoutePublish(broker: Broker, client: string, d: PublishData, closed: set<Channel>, ghost hist: seq<BrokerMsg>)
    returns (ok: bool, batch: seq<Sent>)
    requires broker.View() == ApplyAll(hist)
    modifies broker
    ensures broker.View() == ApplyAll(hist + [PublishMsg(client, d)])
    ensures ok <==> !Stops(hist, PublishMsg(client, d), closed)
    ensures if ok then DeliveredByHistory(batch, hist, PublishMsg(client, d))
            else PartlyDelivered(batch, hist, PublishMsg(client, d), closed)
  {
    ghost var before, msg := broker.View(), PublishMsg(client, d);
    RoutingRefinesHistory(hist);
    ClosedTarget(before, hist, msg, closed);
    assert (hist + [msg])[..|hist|] == hist;
    ok, batch := broker.HandlePublish(client, d, closed);
    assert Addressed(batch, before, msg);
    if ok {
      BatchFollowsHistory(batch, before, hist, msg);
    } else {
      PartialBatchFollowsHistory(batch, before, hist, msg, closed);
    }
  }

  /** Hands one message to its handler. */
  method Dispatch(broker: Broker, msg: BrokerMsg, closed: set<Channel>, ghost hist: seq<BrokerMsg>)
    returns (ok: bool, batch: seq<Sent>)
    requires broker.View() == ApplyAll(hist)
    modifies broker
    ensures broker.View() == ApplyAll(hist + [msg])
    ensures ok <==> !Stops(hist, msg, closed)
    ensures if ok then HandledByHistory(batch, hist, msg) else StoppedByHistory(batch, hist, msg, closed)
  {
    assert (hist + [msg])[..|hist|] == hist;
    ok, batch := true, [];
    match msg {
      case ClientConnected(client, tx) => broker.HandleClientConnected(client, tx);
      case ClientDisconnected(client) => broker.HandleClientDisconnected(client);
      case PublishMsg(client, d) => ok, batch := RoutePublish(broker, client, d, closed, hist);
      case SubscribeMsg(client, d) => broker.HandleSubscribe(client, d);
      case UnsubscribeMsg(client, d) => broker.HandleUnsubscribe(client, d);
      case _ => ok := false;
    }
  }

  /** The first `n` messages did not stop the broker and were handled by history. */
  ghost predicate HandledSoFar(msgs: seq<BrokerMsg>, closed: seq<set<Channel>>, batches: seq<seq<Sent>>, n: nat)
    requires n <= |msgs| == |closed|
  {
    && |batches| == n
    && forall i :: 0 <= i < n ==> !Stops(msgs[..i], msgs[i], closed[i]) && HandledByHistory(batches[i], msgs[..i], msgs[i])
  }

  lemma HandledOneMore(msgs: seq<BrokerMsg>, closed: seq<set<Channel>>, batches: seq<seq<Sent>>, n: nat, batch: seq<Sent>)
    requires n < |msgs| == |closed| && HandledSoFar(msgs, closed, batches, n)
    requires !Stops(msgs[..n], msgs[n], closed[n]) && HandledByHistory(batch, msgs[..n], msgs[n])
    ensures HandledSoFar(msgs, closed, batches + [batch], n + 1)
  {
  }

  /** Handles messages in order. `closed[i]` are the channels closed while message `i` is
      handled. The run ends at the first message that stops the broker, and only there;
      `last` is what that message had sent. */
  method ListenForBrokerMsgs(msgs: seq<BrokerMsg>, closed: seq<set<Channel>>)
    returns (handled: nat, batches: seq<seq<Sent>>, last: seq<Sent>, final: Routing)
    requires |closed| == |msgs|
    ensures handled <= |msgs| && HandledSoFar(msgs, closed, batches, handled)
    ensures if handled < |msgs| then
              && Stops(msgs[..handled], msgs[handled], closed[handled])
              && StoppedByHistory(last, msgs[..handled], msgs[handled], closed[handled])
            else last == []
    ensures final == ApplyAll(if handled < |msgs| then msgs[..handled + 1] else msgs)
  {
    var broker := new Broker();
    batches := [];
    for i := 0 to |msgs|
      invariant fresh(broker) && broker.View() == ApplyAll(msgs[..i])
      invariant HandledSoFar(msgs, closed, batches, i)
    {
      assert msgs[..i] + [msgs[i]] == msgs[..i + 1];
      var ok, batch := Dispatch(broker, msgs[i], closed[i], msgs[..i]);
      if !ok {
        return i, batches, batch, broker.View();
      }
      HandledOneMore(msgs, closed, batches, i, batch);
      batches := batches + [batch];
    }
    assert msgs[..|msgs|] == msgs;
    return |msgs|, batches, [], broker.View();
  }
}

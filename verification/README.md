# An MQTT broker and its shell client, in Dafny

`mqttrs-1` is an MQTT 3.1.1 broker: every connection has a client handler with a session,
the session keeps one tracker per QoS 1 or QoS 2 transaction, and each tracker owns a
background task that resends its last packet. `mqtt-cli` is an interactive client with a
publish and a subscribe command and its own shell. This project models both and proves what
their protocol code keeps over whole runs.

The model follows the form of the code. Objects that change their fields are classes
(`Session.dfy`, `ClientHandlers.dfy`, `Broker.dfy`, `ClientIO.dfy`, `Ports.dfy`), loops are
methods with invariants, and each is proved equal to a function on values. The theorems
about whole runs are lemmas about those functions.

| file | content |
|---|---|
| `Wrappers.dfy`, `Mqtt.dfy`, `Text.dfy` | optional values; packets, broker messages, errors; byte lengths of strings |
| `Qos.dfy`, `QosRuns.dfy`, `Session.dfy` | trackers, retry tasks and sessions; all runs of a session |
| `Handler.dfy`, `ClientHandlers.dfy` | the client handler as a value and as an object; what the broker hears |
| `Answers.dfy`, `Survival.dfy` | what the client hears; which inputs a connection survives and how it ends |
| `Connections.dfy` | whole connections with their retry tasks |
| `HandlerSessions.dfy`, `Direction.dfy` | the session inside a running handler; inbound and outbound transactions |
| `Broker.dfy`, `Composition.dfy` | routing and its history; broker and handlers in every interleaving |
| `ClientIO.dfy`, `Receiver.dfy`, `Sender.dfy` | the subscribe and publish loops of the client |
| `Delivery.dfy`, `Overtaking.dfy` | handler and receiver over lossy links: exactly-once, and exactly when it fails |
| `Lexer.dfy`, `Prompt.dfy`, `Flags.dfy`, `Shell.dfy` | lexer, quote counter and prompt, command parser |
| `Ports.dfy` | the port allocator of the broker's test fixture |

## Main results

- **Exactly once, end to end** (`Delivery.ExactlyOnce`). Over links that keep order and may
  lose any packet, whatever is shown under the packet id of a QoS 2 message that nothing else
  uses is that message, it is shown at most once, and exactly once when the broker's tracker
  goes away, in every run in which no Pubrec is handled while a retry of its publish still
  waits in the handler's channel. That condition
  is the exact one: `Overtaking.OvertakingDecides` shows that from a Pubrec handled with a
  retry queued some continuation shows the message again, and without one none does.
  `Overtaking.AtMostOnceFails` gives such a run on every fresh connection.
- **Retries stay in step** (`QosRuns.LiveRetriesMatchTrackers`,
  `QosRuns.TransactionsFollowFlows`, `HandlerSessions.ConnectionsFollowFlows`). In every run a
  packet id has at most one live retry task, which resends the tracker's state; accepted
  packets follow one of three flows; a transaction is resent at most
  `3 * (max_retries + 1)` times; and the next packet of a flow is always accepted
  (`QosRuns.NextPacketIsAccepted`). On a connection the log is that of its own calls and wake-ups,
  and its resends are the wake-ups of live tasks.
- **What the broker hears** (`Handler.BrokerHearsEverything`): connected, requests in order,
  last will unless a Disconnect was handled, disconnected last.
- **What the client hears** (`Answers.ClientHearsEverything`): each request's answer, once and
  in order, and nothing but what the broker and the retries send in between.
- **When a connection lives and how it ends** (`Survival.RunningExactly`,
  `Survival.EndsForCause`), as equivalences on the inputs alone.
- **Routing refines history** (`Broker.RoutingRefinesHistory`, `Broker.ListenForBrokerMsgs`).
- **No missing session** (`Composition.SessionIsNeverMissing`) in every interleaving of the
  broker with any number of handlers.
- **Sender and receiver** (`Sender.RunsAreGood`, `Receiver.RunsAreGood`) for every event
  sequence and retry budget: what is sent and how the command ends is read off the trace.
- **Whole connections** (`Connections.EveryConnection`, `ClientHandlers.RunConnection`): all
  this of the handler object, with its retry tasks firing at any moment.
- **The shell** (`Lexer.RoundTrip`, `Prompt.LinesAgreeExactly`, `Flags.SplitIsGrammar`,
  `Shells.TypedLineParses`): what is typed, in any quoting, is what
  is parsed, and the quote counter agrees with the lexer exactly when no quote is misjudged.
- **Ports** (`Ports.ModestRunsSucceed`, and `Ports.ThousandIsTheLimit` for the sharp bound).

## Where the code and its documentation differ

The model follows the code.

- A disconnect does not remove subscriptions (`mqttrs-1/src/broker.rs:235-236` says it does):
  no topic is ever recorded with a client, so the clean-up has nothing to walk.
- The port range is written as 1883 to 2883; the normal cycle covers 1883 to 2882.
- A flag with an optional argument that is given none leaves no trace in the command.

## Model

| member | source | states |
|---|---|---|
| `Sessions.Tracker.Create` | mqttrs-1/src/broker/session/qos.rs:53-80 | only a Publish or a Pubrec opens a transaction; it then has a fresh retry task for that packet |
| `Sessions.Tracker.Update` | mqttrs-1/src/broker/session/qos.rs:90-160 | state, live tasks and result after a packet, including rejected packets, which leave the tracker without a retry |
| `Sessions.Tracker.Drop` | mqttrs-1/src/broker/session/qos.rs:163-169 | dropping a tracker aborts its task and no other |
| `Sessions.Runtime.Wake` | mqttrs-1/src/broker/session/qos.rs:197-224 | a live task sends its packet, counts, and ends when the count exceeds a limit; one that is gone does nothing |
| `Sessions.RunRetryTask` | mqttrs-1/src/broker/session/qos.rs:180-225 | exactly how many copies are sent for any number of wake-ups; the 32-bit counter overflows exactly when the limit is 0 or 2^32-1 and 2^32 sleeps end |
| `Sessions.TaskLives` | mqttrs-1/src/broker/session/qos.rs:197-224 | a limit of 0 is no limit: the task stays for ever; any other limit is exceeded by exactly one copy |
| `Sessions.Session.constructor` | mqttrs-1/src/broker/session.rs:35-48 | a new session has no transaction and spawns no task |
| `Sessions.Session.UpdateQos` | mqttrs-1/src/broker/session.rs:57-94 | the map of trackers and the live tasks after a call, errors swallowed, finished trackers removed |
| `Sessions.Session.Drop` | mqttrs-1/src/broker/session/qos.rs:163-169 | dropping the trackers in any order ends exactly the tasks they hold |
| `Qos.UpdateKeepsCoupling` | mqttrs-1/src/broker/session.rs:57-94 | whatever packet is passed, every live task belongs to exactly one tracker and resends its current state |
| `Qos.WakeKeepsCoupling` | mqttrs-1/src/broker/session/qos.rs:197-224 | so it does when a task resends or gives up |
| `Qos.UpdateKeepsKeys` | mqttrs-1/src/broker/session.rs:57-94 | every tracker rests in an unfinished state that carries its key; a finished one leaves the map and no other key changes |
| `Qos.FinishedNamesKey` | mqttrs-1/src/broker/session/qos.rs:104-149 | the packet id reported as finished is the key that was updated, and it is reported exactly for the expected closing packet |
| `Qos.DropOneFirst` | mqttrs-1/src/broker/session/qos.rs:163-169 | the order in which trackers are dropped makes no difference |
| `Qos.DropSessionStopsRetries` | mqttrs-1/src/broker/session/qos.rs:163-169 | no retry outlives its session |
| `QosRuns.RunInvariant` | mqttrs-1/src/broker/session.rs:57-94 | after every sequence of calls and wake-ups keys, tasks and the log of each packet id agree |
| `QosRuns.LiveRetriesMatchTrackers` | mqttrs-1/src/broker/session/qos.rs:69-160 | at every moment at most one live task per packet id, resending the tracker's state; none without a tracker |
| `QosRuns.ClosingsCompleteFlows` | mqttrs-1/src/broker/session/qos.rs:104-149 | a transaction is removed exactly at the end of its flow |
| `QosRuns.TransactionsFollowFlows` | mqttrs-1/src/broker/session/qos.rs:59-160 | accepted packets are prefixes of the three flows; at most `3 * (max_retries + 1)` resends per transaction |
| `QosRuns.NextPacketIsAccepted` | mqttrs-1/src/broker/session/qos.rs:53-160 | in every run: a Publish or Pubrec opens, and nothing else; an open transaction takes the next packet of its flow with a fresh retry, leaves the map exactly at its end, and turns every other packet away at the cost of its retry |
| `HandlerSessions.HandlerCallsOnly` | mqttrs-1/src/broker/client_handler.rs:426-514 | after every happening of every connection the session is the one that exactly the calls and wake-ups so far lead to, and each call carries its own packet id |
| `HandlerSessions.ResendsAreWakes` | mqttrs-1/src/broker/session/qos.rs:197-224 | the connection's log has one resend for each wake-up of a live retry task, in all and for each packet id, and no other |
| `HandlerSessions.SessionsStayInStep` | mqttrs-1/src/broker/client_handler.rs:140-175 | on every connection keys and live retries agree, and dropping the session leaves no retry |
| `HandlerSessions.ConnectionsFollowFlows` | mqttrs-1/src/broker/client_handler.rs:140-175 | in the log of the connection's own calls and wake-ups every transaction follows its flow within the retransmission bound, and its resends are exactly the wake-ups of live tasks |
| `ClientHandlers.ClientHandler.UpdateState` | mqttrs-1/src/broker/client_handler.rs:192-248 | first packet must be Connect and is announced before the session exists; a second Connect is a violation |
| `ClientHandlers.ClientHandler.HandlePublish` | mqttrs-1/src/broker/client_handler.rs:426-464 | acknowledgement by QoS, then forwarding, also of a repeated QoS 2 publish; what a failed send leaves behind |
| `ClientHandlers.ClientHandler.HandleAck` | mqttrs-1/src/broker/client_handler.rs:466-514 | Puback and Pubcomp only move the transaction |
| `ClientHandlers.ClientHandler.HandleAndAnswer` | mqttrs-1/src/broker/client_handler.rs:473-507 | Pubrec and Pubrel move the transaction, are answered, and the sent answer moves it again |
| `ClientHandlers.ClientHandler.HandleSubscribe` | mqttrs-1/src/broker/client_handler.rs:516-556 | Suback with one code per topic, then the broker is told; no topics is a violation |
| `ClientHandlers.ClientHandler.HandleUnsubscribe` | mqttrs-1/src/broker/client_handler.rs:565-598 | the broker is told, then Unsuback; no topics is a violation |
| `ClientHandlers.ClientHandler.HandlePacket` | mqttrs-1/src/broker/client_handler.rs:367-386 | the reaction to each of the fourteen packet kinds |
| `ClientHandlers.ClientHandler.OnMessage` | mqttrs-1/src/broker/client_handler.rs:634-688 | forwarding starts a transaction after the packet is sent; a queued retry is sent without looking at the tracker |
| `ClientHandlers.ClientHandler.OnClientDisconnect` | mqttrs-1/src/broker/client_handler.rs:260-291 | last will, if no Disconnect was seen, with the fields that `Handler.IsWill` names, then the disconnection; stops at the first failed send |
| `ClientHandlers.ClientHandler.Wake` | mqttrs-1/src/broker/client_handler.rs:140-175 | one round of the event loop, including bad data, receive errors and a closed socket |
| `ClientHandlers.ClientHandler.WakeRetry` | mqttrs-1/src/broker/session/qos.rs:197-224 | a retry task of the session fires: its packet goes out if and only if it is live, and only the tasks change |
| `ClientHandlers.RunConnection` | mqttrs-1/src/broker/client_handler.rs:83-122 | a whole connection with its retry tasks ends in the state, streams and error of the run on values, and all of `Connections.EveryConnection` holds of the object |
| `Handler.PacketSpeaks` | mqttrs-1/src/broker/client_handler.rs:367-598 | a handled packet is passed on to the broker exactly as a plain reading of it says, a failed one at most once |
| `Handler.PacketFindsSession` | mqttrs-1/src/broker/client_handler.rs:192-315 | no packet, in any state, finds the session missing |
| `Handler.GoodbyeExtendsBody` | mqttrs-1/src/broker/client_handler.rs:260-291 | a farewell, or a second attempt at one cut short, ends the broker's log properly |
| `Handler.BrokerHearsEverything` | mqttrs-1/src/broker/client_handler.rs:115-175 | on every connection: announcement, all requests in order, last will only without a handled Disconnect, disconnection last and present whenever the broker still accepts; client id and last will are those of the Connect packet, and the will's publish has its topic, payload, retain flag and QoS |
| `Handler.ConnectIntroduces` | mqttrs-1/src/broker/client_handler.rs:192-248 | client id and last will come from the first packet, the Connect, and never change |
| `Survival.PacketSurvives` | mqttrs-1/src/broker/client_handler.rs:192-632 | for every state and packet, handled if and only if it is no violation, the broker can be told and the answer can be sent |
| `Survival.RunningExactly` | mqttrs-1/src/broker/client_handler.rs:140-175 | a connection is running if and only if every input so far was one to survive, judged by the inputs alone; a timeout ends exactly an unconnected one |
| `Survival.EndsForCause` | mqttrs-1/src/broker/client_handler.rs:83-122 | it ends at the first input that is not, with the error of that cause, none for a closed socket, or with the failure to send the farewell |
| `Answers.PacketAnswered` | mqttrs-1/src/broker/client_handler.rs:367-632 | at most one packet goes to the client, and it is the protocol's answer, with the packet id of the request |
| `Answers.ClientHearsEverything` | mqttrs-1/src/broker/client_handler.rs:140-175 | on every connection each input has been answered once and in order, and nothing else was sent |
| `Connections.WakesAreSilent` | mqttrs-1/src/broker/client_handler.rs:140-175 | what broker and client hear does not depend on when retries fire |
| `Connections.EveryConnection` | mqttrs-1/src/broker/client_handler.rs:83-122 | on every connection with retry tasks: running exactly while every input is one to survive, ended with the error of its cause; broker and client hear every input in order and nothing else; trackers and live retries are in step |
| `Direction.AfterPubrec` | mqttrs-1/src/broker/client_handler.rs:473-489 | a handled Pubrec leaves its id as Pubrel, or as the unanswered QoS 1 publish |
| `Direction.AfterPubrel` | mqttrs-1/src/broker/client_handler.rs:491-507 | a handled Pubrel leaves its id untracked, or still the publish it was |
| `Direction.DirectionIsVisible` | mqttrs-1/src/broker/client_handler.rs:445-514 | with separate packet ids inbound transactions are exactly the Pubrec trackers, outbound ones exactly the Publish and Pubrel trackers, between any two steps |
| `Broker.Broker.HandleClientConnected` | mqttrs-1/src/broker.rs:213-228 | the client is entered with its channel and no topics, replacing an earlier entry |
| `Broker.Broker.HandleClientDisconnected` | mqttrs-1/src/broker.rs:245-263 | the client goes; only the topics recorded with it are cleaned up |
| `Broker.Broker.HandlePublish` | mqttrs-1/src/broker.rs:285-316 | sent once to each connected subscriber but the sender; fails exactly when such a channel is closed, and then only reached targets |
| `Broker.Broker.HandleSubscribe` | mqttrs-1/src/broker.rs:335-352 | the index after a subscribe of any topic list |
| `Broker.Broker.HandleUnsubscribe` | mqttrs-1/src/broker.rs:369-402 | the index, with empty entries pruned, and the client's record after an unsubscribe |
| `Broker.RoutingRefinesHistory` | mqttrs-1/src/broker.rs:213-402 | after any messages: connected clients and subscriptions are what the last mention in the history says; no topic is ever recorded with a client |
| `Broker.DisconnectKeepsSubscriptions` | mqttrs-1/src/broker.rs:245-263 | subscriptions outlive a disconnect |
| `Broker.RecordDecides` | mqttrs-1/src/broker.rs:245-402 | whatever is on a client's record, a disconnect removes it from those topics only, and an unsubscribe strikes off its own |
| `Broker.ReconnectRestores` | mqttrs-1/src/broker.rs:213-263 | whatever happens in between, a client that has not subscribed or unsubscribed since has exactly the subscriptions it had |
| `Broker.BatchFollowsHistory` | mqttrs-1/src/broker.rs:285-316 | a publish reaches exactly the clients the history names, each once, on its current channel |
| `Broker.RoutePublish` | mqttrs-1/src/broker.rs:285-316 | said by history alone: succeeds if and only if no recipient's channel is closed; then exactly the recipients, else only recipients, each once |
| `Broker.ListenForBrokerMsgs` | mqttrs-1/src/broker.rs:173-203 | every publish of a run is delivered by history; the run ends at the first message that is misdirected or has a recipient with a closed channel, and only there; what such a publish had sent went to recipients only |
| `Composition.ConnectInTwoSteps` | mqttrs-1/src/broker/client_handler.rs:192-222 | announcing and recording the connection as two steps is what handling a Connect does |
| `Composition.RouteKeepsInv` | mqttrs-1/src/broker.rs:285-316 | the broker only forwards to handlers that announced themselves |
| `Composition.RunsKeepInv` | mqttrs-1/src/broker/client_handler.rs:192-222 | in every interleaving a channel known to the broker, or holding a publish, belongs to a handler that announced itself |
| `Composition.ThreeAreEnough` | mqttrs-1/src/broker/client_handler.rs:260-291 | a handler step sends at most three messages, and a broker that accepts as many never makes it fail |
| `Composition.SessionIsNeverMissing` | mqttrs-1/src/broker/client_handler.rs:294-315 | in every interleaving, also with equal client ids and a broker that stops at any message, no packet or message handler finds its session missing |
| `Receiver.WaitOnResponseWithRetry` | mqtt-cli/src/commands/subscribe.rs:331-355 | timeouts each followed by a resend, then the event that ends the wait; never more than the given number |
| `Receiver.ReceiveExactlyOnce` | mqtt-cli/src/commands/subscribe.rs:158-199 | the nested loops behave as the machine that awaits a release; the guard of the outer loop never ends it |
| `Receiver.HandlePublish` | mqtt-cli/src/commands/subscribe.rs:132-199 | shown first, then answered by QoS, as the machine does; a QoS 1 message gets its Puback |
| `Receiver.SubscribeLoop` | mqtt-cli/src/commands/subscribe.rs:99-239 | for every event script and failing sends: trace and end state are the machine's, so all of `Good` holds |
| `Receiver.RunsAreGood` | mqtt-cli/src/commands/subscribe.rs:99-239 | read off the trace alone: whatever is called for is shown or sent next, the Puback of a QoS 1 message included, and nothing else is; retries stay below the limit, at most one plus five Pubrecs; each way of stopping if and only if its cause is the last event, else the loop goes on |
| `Receiver.GoodTraceReads` | mqtt-cli/src/commands/subscribe.rs:132-199 | so nothing is shown while a message is pending, a Puback and a Pubrec answer their message, a Pubcomp its Pubrel |
| `Sender.WaitOnResponseWithRetry` | mqtt-cli/src/commands/publish.rs:303-330 | as for the receiver, with a publish marked as duplicate before it is resent |
| `Sender.HandleQosExactlyOnce` | mqtt-cli/src/commands/publish.rs:209-301 | the loop with its shared budget is the two-phase machine, success at the matching Pubcomp included; the remaining budget is never negative |
| `Sender.RunsAreGood` | mqtt-cli/src/commands/publish.rs:203-301 | one publish, then duplicates after timeouts, then only Pubrels; whatever is called for is sent at once; delivered, bad packet, lost channel, failed send and used-up budget each if and only if the trace says so, else the machine goes on |
| `Sender.PublishExactlyOnce` | mqtt-cli/src/commands/publish.rs:150-158 | the whole command at QoS 2 keeps all of that, for every budget, script and failing sends |
| `Sender.PublishAtLeastOnce` | mqtt-cli/src/commands/publish.rs:101-149 | one publish and at most five duplicates, one for each silence; success, bad data, giving up and a failed send each if and only if the trace says so |
| `Delivery.PubrecHandled` | mqttrs-1/src/broker/client_handler.rs:473-489 | the Pubrec of a published message releases it, and a repeated one leaves it released |
| `Delivery.DeliverToWaiting` | mqtt-cli/src/commands/subscribe.rs:165-199 | a waiting client ignores every copy of the message |
| `Delivery.FirstShow` | mqtt-cli/src/commands/subscribe.rs:132-163 | a polling client finds the message on its link only if it never showed it |
| `Delivery.AnyStep` | mqttrs-1/src/broker/client_handler.rs:473-688 | every step of handler, retry task, link and client keeps a delivery in a stage, with only copies of the message on the way and on show, and stages only move forward |
| `Delivery.ExactlyOnce` | mqttrs-1/src/broker/client_handler.rs:473-688 | what is shown under the packet id is the forwarded message, payload included; at most once, exactly once when the tracker goes away, in every run without overtaking |
| `Overtaking.OvertakingDecides` | mqttrs-1/src/broker/client_handler.rs:686-688 | a second showing of the same message is possible if and only if a retry of the publish is queued when its Pubrec is handled |
| `Overtaking.AtMostOnceFails` | mqttrs-1/src/broker/client_handler.rs:686-688 | on every fresh connection every QoS 2 message can be shown twice, and nothing else under its packet id |
| `Lexer.TryIntoArgs` | mqtt-cli/src/cli/shell/lexer.rs:41-138 | the loop computes the seven-state machine's words, or fails with an open quote |
| `Lexer.RoundTrip` | mqtt-cli/src/cli/shell/lexer.rs:41-138 | every list of words over all characters, single-quoted, double-quoted, or where possible bare or with backslashes, with any spaces, tabs and newlines between, lexes back to itself |
| `Lexer.EscapeOutside` | mqtt-cli/src/cli/shell/lexer.rs:63-103 | outside quotes a backslash makes any character part of the word and joins lines at a newline |
| `Lexer.EscapeInside` | mqtt-cli/src/cli/shell/lexer.rs:112-133 | inside double quotes it goes away before dollar, backtick, quote and backslash, joins lines, and stays before anything else |
| `Lexer.Separators` | mqtt-cli/src/cli/shell/lexer.rs:49-134 | a word ends exactly at a space, tab or newline outside quotes |
| `Lexer.TrailingBackslash` | mqtt-cli/src/cli/shell/lexer.rs:63-103 | at the end of the text a backslash is kept outside quotes, and inside them the quote is missing |
| `Prompt.CountQuotes` | mqtt-cli/src/cli/shell/lexer.rs:141-170 | collecting matches by byte offset and then toggling is one scan over the characters |
| `Prompt.ScanFollowsLexer` | mqtt-cli/src/cli/shell/lexer.rs:41-170 | as long as no quote is misjudged, the stack holds exactly the quote the lexer is inside of |
| `Prompt.ScannersAgreeExactly` | mqtt-cli/src/cli/shell/lexer.rs:41-170 | for every text, with backslashes: counter and lexer agree after every character if and only if no quote that matters is escaped for one and not for the other |
| `Prompt.LinesAgreeExactly` | mqtt-cli/src/cli/shell/lexer.rs:41-170 | the same for every text cut into lines in any way and counted line by line |
| `Prompt.NothingMisjudged` | mqtt-cli/src/cli/shell/lexer.rs:147-151 | text without backslashes always meets that condition |
| `Prompt.ScannersAgree` | mqtt-cli/src/cli/shell/lexer.rs:41-170 | under that condition: depth at most one, empty if and only if the lexer accepts the whole |
| `Prompt.CounterMissesClosing` | mqtt-cli/src/cli/shell/lexer.rs:147-151 | a misjudged closing quote: a text that the lexer accepts and the counter does not |
| `Prompt.CounterMissesOpening` | mqtt-cli/src/cli/shell/lexer.rs:147-151 | a misjudged opening quote: a text that the counter accepts and the lexer does not |
| `Prompt.CounterMissesEscape` | mqtt-cli/src/cli/shell/lexer.rs:142-151 | a byte offset used as a character number: after a letter of two bytes an escaped quote counts as opening |
| `Prompt.TrimKeepsBalance` | mqtt-cli/src/cli/shell.rs:242-243 | trimming never makes or mends a missing quote, for any text |
| `Prompt.TrimmedParts` | mqtt-cli/src/cli/shell.rs:242-243 | what is trimmed off is white space and none is left at either end |
| `Prompt.ReadCommand` | mqtt-cli/src/cli/shell.rs:221-246 | reads the fewest lines that close every quote and sends them trimmed; never ends exactly when no number of reads does; input with no misjudged quote, so all backslash-free input, always lexes |
| `Flags.FlagsExtract` | mqtt-cli/src/cli/spec/flag.rs:64-94 | a flag is a dash with something after it, and extracting from one never fails |
| `Flags.Find` | mqtt-cli/src/cli/spec/flag.rs:97-107 | a match if there is one, `None` only if there is none |
| `Flags.FindIsUnique` | mqtt-cli/src/cli/spec/flag.rs:97-107 | with unique flags the order of the set does not matter |
| `Flags.IdIsInjective` | mqtt-cli/src/cli/spec/flag/id.rs:24-34 | joining name and short name loses nothing |
| `Flags.ParseFlag` | mqtt-cli/src/cli/shell.rs:299-329 | one flag with its argument, or the error it causes, is the grammar's next item |
| `Flags.ParseArguments` | mqtt-cli/src/cli/shell.rs:292-335 | the loop computes the command of the grammar's items |
| `Flags.SplitIsGrammar` | mqtt-cli/src/cli/shell.rs:292-335 | accepted if and only if in the grammar, and the items are the only well-formed list that spells the tokens |
| `Flags.ParseIsGrammar` | mqtt-cli/src/cli/shell.rs:292-335 | a command is built from exactly such items; rejected tokens have none |
| `Flags.RejectionNamesFlag` | mqtt-cli/src/cli/shell.rs:299-321 | an error names the first flag that cannot be read, and why; all before it is in the grammar |
| `Flags.BuildHoldsLast` | mqtt-cli/src/cli/shell.rs:325-332 | operands in order; a flag is held if and only if recorded, with its last argument |
| `Flags.HeldExactly` | mqtt-cli/src/cli/shell.rs:307-329 | a flag is held if and only if it was given with its argument or takes none |
| `Flags.LookupGivesLast` | mqtt-cli/src/cli/command/flag.rs:46-56 | with unique flags a lookup by name or short name gives the last recorded argument and nothing else |
| `Flags.LongAndShort` | mqtt-cli/src/cli/spec/flag.rs:79-107 | exactly when the short and the long spelling of a flag find it, names of one byte included |
| `Shells.Parse` | mqtt-cli/src/cli/shell.rs:267-336 | missing quote if and only if the lexer says so; otherwise the words' interpretation |
| `Shells.TypedLineParses` | mqtt-cli/src/cli/shell.rs:267-336 | an enabled command with any well-formed items, laid out and quoted in any way, parses to exactly them |
| `Shells.AcceptedLineIsTyped` | mqtt-cli/src/cli/shell.rs:278-335 | conversely, an accepted line starts with an enabled name and continues in its grammar |
| `Shells.CommandsByName` | mqtt-cli/src/cli/shell.rs:278-290 | a name is unknown if and only if no command has it, not available if and only if it is not switched on, and otherwise accepted exactly with words of its grammar |
| `Shells.Round` | mqtt-cli/src/cli/shell.rs:221-246 | input with no misjudged quote that the prompt lets through never fails for a missing quote; the outcome is that of the trimmed text |
| `Ports.Allocator.constructor` | mqttrs-1/src/test/setup/portref.rs:43-47 | the cursor starts before the range, no port in use |
| `Ports.Allocator.GetPort` | mqttrs-1/src/test/setup/portref.rs:15-34 | the first unused candidate is taken and becomes the cursor; no 16-bit sum overflows, however many ports are out |
| `Ports.Allocator.DropPort` | mqttrs-1/src/test/setup/portref.rs:38-41 | only that port is released |
| `Ports.CandidatesPermuteCycle` | mqttrs-1/src/test/setup/portref.rs:18-24 | the first thousand candidates are a permutation of 1883 to 2882; the last two go past it |
| `Ports.GetSucceedsInCycle` | mqttrs-1/src/test/setup/portref.rs:15-34 | a port of the cycle is returned if and only if one is unused |
| `Ports.LivePortsAreDistinct` | mqttrs-1/src/test/setup/portref.rs:15-64 | in every run live references never share a port and the set is exactly what they hold |
| `Ports.ModestRunsSucceed` | mqttrs-1/src/test/setup/portref.rs:15-47 | with at most 999 ports out at each call every call returns an unheld port of the cycle, and the cursor stays in 1882 to 2882 |
| `Ports.ThousandIsTheLimit` | mqttrs-1/src/test/setup/portref.rs:15-34 | with a thousand out the next port is 2883, outside the cycle |

## Left out

- TCP, framing, tokio tasks and channels: I/O. Links are FIFO queues that may lose packets, a channel accepts messages until it is closed for good, and whether a write to the socket succeeds is an input.
- The packet codec and the conversions between packet types: a packet is a datatype; data that does not decode is its own event.
- Clocks: a timeout is an event, and a retry task's sleep may end at any moment. `JoinHandle::abort` takes effect at once.
- The network of a command is a finite script; when it runs out, the model of the command stops where it is.
- The connection timeout timer of a handler: only the message it sends is modelled. The case of a handler's own channel closing is not, because the handler holds a sender of it.
- Await points inside a handler callback: `HandlerSessions`, `Connections` and `Delivery` treat a callback as one step, so a retry that fires while the Pubrel of a Pubrec is being written (`mqttrs-1/src/broker/client_handler.rs:481-488`) is not among their runs. The runs of `QosRuns` do contain it, as a wake-up between two calls.
- `Delivery.ExactlyOnce`: a handler step that fails ends the connection, so the runs contain no such step.
- The list of granted topics that the subscribe command collects, which the receive loop only writes, and the unsubscribe and ping exchange after the loop.
- The keep-alive thread and the connect, disconnect, ping and unsubscribe commands: short linear code that would add only easy members.
- Help texts, prompts, logging, signals and configuration: user interface.
- Publisher-to-broker exactly-once, DUP on the broker's retransmissions and removing subscriptions on disconnect: the code does not do these.

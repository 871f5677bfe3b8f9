# Broadcast chat server: the connection loop, in Dafny

This project models the core of a small websocket chat server. Every client connection
subscribes to one shared broadcast channel and sends the client a fixed welcome frame.
Then it handles one event at a time until the connection ends. An event is an inbound
frame from the client or the next item of the channel:

- a `register` envelope stores the client's display name in the shared registry. The
  display name is the envelope's `data`, or the client's own id when `data` is absent.
  The connection then publishes a `users` envelope listing every registered name.
- a `message` envelope publishes a `message` envelope. Its `data` is the hand-built
  payload `{"from": "<sender>", "message": "<text>"}`. The sender is the client's
  registered name, or its id. Neither the sender nor the text is escaped.
- a `users` envelope, a frame that does not decode and a frame that is not text are
  all ignored.
- each channel item is written to the client verbatim.
- an inbound error, a lagging or closed channel and a failed write end the connection
  with an error. The client closing its stream ends it successfully.

Files and modules:

- `wrappers.dfy`, module `Wrappers`: Rust's `Option`.
- `protocol.dfy`, module `Protocol`: the envelope (`MsgTypes`, `WebSocketMessage`),
  the chat payload and the welcome frame. It also holds `ParseChatPayload`, a reader
  that inverts the payload for senders without quotes.
- `users_map.dfy`, module `UsersMap`: the shared registry as a class `Registry` whose
  map is updated in place, its values snapshot, and the name lookup.
- `broadcast.dfy`, module `Broadcast`: the channel as a class `Hub` holding the log of
  everything published, in global publish order.
- `connection.dfy`, module `Connection`: the per-connection class `Session` and its
  invariant. The invariant says the client has been sent the welcome followed by the
  channel items the session has taken so far (`log[subscribedAt..cursor]`), verbatim
  and in publish order, and a prefix of that once the session has ended. The module also holds `Step`, one turn
  of the loop, specified by the relation `Stepped`, and `Run`, the loop itself, which
  returns the trace of worlds it went through. `StepLeavesOthers` says one session's
  turn leaves every other session's own state as it was, and two scenarios with two clients
  follow concrete runs.

Modelling choices:

- serde_json encoding and decoding are parameters of each session,
  `encode: WebSocketMessage -> string` and `decode: string -> Option<WebSocketMessage>`.
  Nothing is assumed about how they render fields.
- The two-way `tokio::select!` becomes the `Event` datatype. The model handles any
  sequence of events, one at a time.
- The outcome of each write to the client is an input. It is `welcomeOk` for the
  welcome frame and the `writeOk` of `HubReady` for a channel item.
- The subscription is a position (`cursor`) in the channel log. It starts at the log's
  length when the session is created, so a session never sees earlier items.
- A `HubReady` event with no pending item changes nothing. In the source the select
  would not pick that branch.
- `HashMap::values()` has no defined order. `Registry.Values` is therefore a method
  that takes the keys in an order of its own choosing (`:|`). It is specified by
  `ListsValues`: every key appears once, and each position holds that key's name.
- Fields that are `None` are rendered by serde's defaults. The model leaves the
  encoding abstract and says nothing about how an absent field appears.
- A session keeps its own sender of the channel (src/bin/server.rs:31), so the channel
  never closes while the session runs. `HubClosed` is still an event the model
  accepts, which only adds behaviour.

## Model

| member | source | states |
|---|---|---|
| Protocol.MsgTypes | src/bin/server.rs:11-17 | defines the three envelope kinds; the kind selects the branch in Connection.Session.Received |
| Protocol.WebSocketMessage | src/bin/server.rs:19-25 | defines the envelope: a kind, an optional name list and an optional text |
| Protocol.RegisteredName | src/bin/server.rs:53 | defines the name a `register` asks for; its cases are proved in Protocol.EnvelopeDefaults |
| Protocol.MessageText | src/bin/server.rs:67 | defines the text of a `message`; its cases are proved in Protocol.EnvelopeDefaults |
| Protocol.UsersAnnouncement | src/bin/server.rs:57-61 | defines the `users` envelope carrying the name list and no text; Connection.Session.Received publishes it |
| Protocol.ChatPayload | src/bin/server.rs:68 | defines the payload as prefix, sender, infix, text and suffix concatenated without escaping; its properties are in the ParseChatPayload, ChatPayloadInjective and ChatPayloadAmbiguous rows |
| Protocol.ChatEnvelope | src/bin/server.rs:69-73 | defines the `message` envelope carrying a payload as its text and no name list |
| Protocol.WelcomePayload | src/bin/server.rs:40 | the welcome literal; Protocol.WelcomeIsChatPayload and Protocol.WelcomeParses are its properties |
| Protocol.Welcome | src/bin/server.rs:37-41 | the welcome envelope; Connection.Session.WelcomeFirst says it is sent first |
| Protocol.EnvelopeDefaults | src/bin/server.rs:53-67 | a `register` without `data` registers the client's id, one with `data` registers that name; a `message` sends its `data`, or the empty text without one |
| Protocol.WelcomeIsChatPayload | src/bin/server.rs:37-41 | the welcome literal equals the chat payload of sender "System" with text "Welcome to chat!" |
| Protocol.WelcomeParses | src/bin/server.rs:40 | the welcome payload reads back as ("System", "Welcome to chat!") |
| Protocol.ParseChatPayloadInverts | src/bin/server.rs:68 | for any text and any sender without a quote, the hand-built payload splits back into exactly that sender and text |
| Protocol.ParseChatPayloadSound | src/bin/server.rs:68 | every string the reader accepts is the payload of the sender and text it returns, and that sender has no quote (the converse of the row above) |
| Protocol.ChatPayloadInjective | src/bin/server.rs:68 | for senders without quotes, equal payloads have equal senders and equal texts |
| Protocol.ChatPayloadAmbiguous | src/bin/server.rs:68 | with no escaping, sender `a", "message": "b` with text `c` gives the same payload as sender `a` with text `b", "message": "c` |
| UsersMap.SenderName | src/bin/server.rs:66 | defines the sender of a chat line: the registered name, or the id; its properties are in the three SenderName rows |
| UsersMap.Registry.constructor | src/bin/server.rs:96 | the registry starts empty |
| UsersMap.Registry.Insert | src/bin/server.rs:54 | insert-or-overwrite: the client's entry becomes the new name and every other entry is unchanged |
| UsersMap.Registry.Values | src/bin/server.rs:56 | the snapshot lists, in some key order, each registered client exactly once with its name. So it has one name per registered client (duplicates kept), every registered name occurs in it, and nothing else does |
| UsersMap.ListsValuesSize | src/bin/server.rs:56 | a snapshot has exactly as many names as there are registered clients |
| UsersMap.SnapshotsAgree | src/bin/server.rs:56 | two snapshots of the same registry hold the same multiset of names, whatever key order each used |
| UsersMap.SnapshotHasName | src/bin/server.rs:54-56 | every registered name occurs in the snapshot |
| UsersMap.SenderNameAfterInsert | src/bin/server.rs:54-66 | after a client registers a name, its messages are from that name |
| UsersMap.SenderNameUnregistered | src/bin/server.rs:66 | a client with no entry sends under its own id |
| UsersMap.SenderNameOtherInsert | src/bin/server.rs:54-66 | another client's registration does not change the name a client sends under |
| Broadcast.Hub.constructor | src/bin/server.rs:95 | the channel starts with nothing published |
| Broadcast.Hub.Publish | src/bin/server.rs:63 | publishing appends exactly one item to the channel log |
| Broadcast.PendingAfterGrowth | src/bin/server.rs:63-87 | when the log grows, a subscriber keeps its old pending items, followed by everything published since |
| Connection.Event | src/bin/server.rs:45-88 | one arm of the `select!`: `TextFrame` is `Some(Ok(msg))` with a text frame (lines 48-49), `OtherFrame` is `Some(Ok(msg))` that is not text, `ReadError` is `Some(Err(e))` (line 82), `StreamEnd` is `None` (line 83), `HubReady(writeOk)` is `recv()` returning an item together with the outcome of writing it (lines 86-87), and `HubLagged` and `HubClosed` are `recv()` failing as `Lagged` or `Closed` (line 87) |
| Connection.Outcome | src/bin/server.rs:34-87 | the `Result` that `handle_connection` returns: `Ok` when the client stream ends (line 83), and `Err` with the kind of failure for the welcome write (line 42), a read error (line 82), or a failed receive or write (line 87) |
| Connection.Session.Valid | src/bin/server.rs:37-87 | the session invariant: the subscription lies within the log and the client has been sent the welcome followed by the channel items the session has taken so far (`log[subscribedAt..cursor]`), verbatim and in publish order, while active, and a prefix of that once ended (`[]` after a failed welcome). Items published but not yet taken are not promised. Every method keeps it; WelcomeFirst and ForwardsInOrder read it out |
| Connection.Session.Stepped | src/bin/server.rs:44-90 | one loop iteration as a relation between worlds: an ended session changes nothing, text frames are Received, channel items Forwarded, other frames change nothing, and the end of a stream ends the session with its outcome |
| Connection.Session.Received | src/bin/server.rs:49-79 | the text-frame branch as a relation, with the effects listed for Step |
| Connection.Session.Forwarded | src/bin/server.rs:86-87 | the channel branch as a relation: the next pending item is written verbatim, or the session ends with a send error |
| Connection.Session.SteppedFrame | src/bin/server.rs:44-90 | every iteration only grows the log and changes only the client's own registry entry; an ended session stays ended; only a stream end or a failed write ends an active one |
| Connection.Session.TraceExtends | src/bin/server.rs:44-90 | a trace of steps from active worlds, followed by one more step, is again such a trace; Run's loop rests on it |
| Connection.Session.constructor | src/bin/server.rs:35-42 | the session subscribes at the current end of the log; on a successful write the client has been sent exactly the welcome frame and the session is active; otherwise nothing was sent and it ended with a send error |
| Connection.Session.WelcomeFirst | src/bin/server.rs:37-44 | whatever happens later, the first frame the client receives is the welcome |
| Connection.Session.ForwardsInOrder | src/bin/server.rs:86-87 | while active, the client has been sent the welcome followed by the channel items the session has taken so far (`log[subscribedAt..cursor]`), verbatim and in publish order |
| Connection.Session.Step | src/bin/server.rs:44-90 | one loop turn; the world before and after it are related by Stepped. On an ended session it changes nothing. Register: sets the entry to `data` or the id, and publishes exactly one `users` envelope listing the updated registry, including the new name. Message: leaves the registry alone and publishes exactly one chat envelope from the registered name or the id, with text `data` or "". Undecodable, `users` and non-text frames: nothing changes. Close ends with Ok. Read error, lag and channel closed end with the matching error. A channel item is written verbatim or ends with a send error. Inbound frames never end the session, and the invariant is kept |
| Connection.Session.Receive | src/bin/server.rs:48-80 | the text-frame branch: register, chat or ignore, with the registry and publish effects listed for Step, and no frame written to the client |
| Connection.Session.Forward | src/bin/server.rs:86-88 | the channel branch: the next pending item is taken and appended to what the client was sent, or the session ends with a send error; with nothing pending nothing changes |
| Connection.Session.Run | src/bin/server.rs:44-90 | the loop: the trace `worlds` runs from the world before to the world after, each handled event relates its two neighbouring worlds by Stepped, and each is handled from an active world. Handling stops only when the events run out or the session ends, and then the last handled event is one that can end it. Only the client's own registry entry changes, the log only grows, and the invariant is kept |
| Connection.StepLeavesOthers | src/bin/server.rs:44-90 | one session's iteration is related by Stepped and leaves every other session valid, with the same status, cursor and sent frames; the other's pending items become its old ones followed by whatever was published, so each publish is pending for every other subscriber of that channel. Nothing here says it is ever taken: that needs a later Forward |
| Connection.RegisterAndChat | src/bin/server.rs:52-75 | in an empty registry, registering as "bob" and then saying "hi" publishes exactly the announcement ["bob"] and then the chat payload from "bob" |
| Connection.FanOutScenario | src/bin/server.rs:52-87 | a second client, subscribed before, receives the welcome, then the `users` announcement ["bob"], then the payload `{"from": "bob", "message": "hi"}`, and stays active |
| Connection.RegisterThenFail | src/bin/server.rs:52-82 | in an empty registry, registering as "bob" and then a stream error leaves the entry "bob" and ends that session with a read error, while another session stays valid with its status |
| Connection.IsolationScenario | src/bin/server.rs:53-83 | after one client registers and its stream fails, only that client's session has ended; an unregistered client still publishes, under its own id |

## Left out

- The concurrent `tokio::select!` race, task spawning and scheduling (src/bin/server.rs:45, 106). They become a sequence of events handled one at a time, so fairness between the two sources is not modelled.
- The TCP listener, the websocket handshake, the accept loop and the listening address (src/bin/server.rs:94-110). These are I/O plumbing.
- UUID generation (src/bin/server.rs:104): the client id is an input string.
- serde_json's rendering and parsing (src/bin/server.rs:42, 50, 62, 74). These are parameters, and encoding is total. Serializing this struct of strings cannot fail, so the `?` after `to_string` is not modelled.
- The broadcast channel's capacity of 100 and its lag bookkeeping (src/bin/server.rs:95). A `HubLagged` event may arrive at any time. The model does not decide when the library reports a lag.
- A failed publish (src/bin/server.rs:63, 75). It would need zero receivers, and the session's own receiver (line 35) is live.
- The `Mutex` and the two separate lock acquisitions for insert and snapshot (src/bin/server.rs:54, 56). Here they happen together, so another connection cannot insert in between.
- The error values (`Box<dyn Error>`) are reduced to the `Error` kinds.
- Logging.
- What the client receives after a failed write: the model records only frames written successfully.

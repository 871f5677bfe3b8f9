/**
  One client connection: the welcome frame, then the loop that handles one
  event at a time (an inbound frame, or an item of the broadcast channel)
  until the connection ends.
*/
module Connection {
  import opened Wrappers
  import opened Protocol
  import opened UsersMap
  import opened Broadcast

  /** Why a session ended with an error. */
  datatype Error =
    | ReadFailed            // the client stream yielded an error
    | SendFailed            // writing a frame to the client failed
    | RecvLagged(skipped: nat)  // the subscription fell behind the channel
    | RecvClosed            // the channel reported that it is closed

  /** The value the session returns. */
  datatype Outcome = Ok | Err(error: Error)

  datatype Status = Active | Ended(outcome: Outcome)

  /** Everything an event can change: the session's own state, the registry and the channel log. */
  datatype State = State(status: Status, cursor: nat, sent: seq<string>,
                         users: map<string, string>, log: seq<string>)

  /** What the select of one loop iteration produced. */
  datatype Event =
    | TextFrame(text: string)     // a text frame from the client
    | OtherFrame                  // any other frame from the client (binary, ping, pong, close)
    | ReadError                   // the client stream yielded an error
    | StreamEnd                   // the client stream ended
    | HubReady(writeOk: bool)     // the next channel item, and whether writing it to the client succeeded
    | HubLagged(skipped: nat)     // the channel reported that `skipped` items were lost
    | HubClosed                   // the channel reported that it is closed
  // `HubClosed` over-approximates: the session keeps its own `Sender` of the channel
  // (src/bin/server.rs:31) for its whole life, so `recv()` cannot report `Closed` while it runs.

  /** The decoded frame is an envelope of kind `kind`. */
  predicate IsKind(decoded: Option<WebSocketMessage>, kind: MsgTypes) {
    decoded.Some? && decoded.value.messageType == kind
  }

  /** Events that can end a session: inbound frames never do. */
  predicate CanEnd(e: Event) {
    !e.TextFrame? && !e.OtherFrame?
  }

  class Session {
    const clientId: string
    const registry: Registry
    const hub: Hub
    const encode: WebSocketMessage -> string
    const decode: string -> Option<WebSocketMessage>
    /** Length of the channel log when this session subscribed. */
    const subscribedAt: nat
    /** Position of the next channel item this session will receive. */
    var cursor: nat
    var status: Status
    /** Every frame written to the client so far. */
    var sent: seq<string>

    /** What the client should have been sent: the welcome, then each item received, verbatim and in order. */
    ghost function Expected(): seq<string>
      reads this, hub
      requires subscribedAt <= cursor <= |hub.log|
    {
      [encode(Welcome())] + hub.log[subscribedAt..cursor]
    }

    /** The current world, as a `State`. */
    ghost function World(): State
      reads this, registry, hub
    {
      State(status, cursor, sent, registry.users, hub.log)
    }

    /**
      One loop iteration as a relation between the world before (`w`) and after
      (`w'`) handling `e`. An ended session changes nothing. Text frames are
      `Received`, channel items `Forwarded`, other frames change nothing, and the
      end of either stream ends the session with its outcome.
    */
    ghost predicate Stepped(w: State, e: Event, w': State) {
      if w.status.Ended? then w' == w
      else match e
        case TextFrame(text) => Received(w, text, w')
        case OtherFrame => w' == w
        case ReadError => w' == w.(status := Ended(Err(ReadFailed)))
        case StreamEnd => w' == w.(status := Ended(Ok))
        case HubReady(writeOk) => Forwarded(w, writeOk, w')
        case HubLagged(skipped) => w' == w.(status := Ended(Err(RecvLagged(skipped))))
        case HubClosed => w' == w.(status := Ended(Err(RecvClosed)))
    }

    /**
      Handling text frame `text`: a register frame sets the entry and publishes one
      `users` listing of the new registry, including the new name; a message frame
      publishes one chat envelope from the sender's name; anything else changes
      nothing. No frame is written to the client.
    */
    ghost predicate Received(w: State, text: string, w': State) {
      var d := decode(text);
      if IsKind(d, Register) then
        var name := RegisteredName(d.value.data, clientId);
        && w'.status == w.status && w'.cursor == w.cursor && w'.sent == w.sent
        && w'.users == w.users[clientId := name]
        && exists ids, names :: ListsValues(w'.users, ids, names) && name in names
             && w'.log == w.log + [encode(UsersAnnouncement(names))]
      else if IsKind(d, Message) then
        w' == w.(log := w.log + [encode(ChatEnvelope(ChatPayload(SenderName(w.users, clientId),
                                                                 MessageText(d.value.data))))])
      else w' == w
    }

    /**
      What every loop iteration keeps: the log only grows, only the client's own
      registry entry can change, an ended session stays ended with its outcome,
      and only the end of a stream or a failed write ends an active session.
    */
    lemma SteppedFrame(w: State, e: Event, w': State)
      requires Stepped(w, e, w')
      ensures w.log <= w'.log
      ensures OthersUnchanged(w.users, w'.users, clientId)
      ensures w.status.Ended? ==> w'.status == w.status
      ensures w.status.Active? && w'.status.Ended? ==> CanEnd(e)
    {
    }

    /** Taking the next channel item, if one is pending: it is written verbatim, or the write ends the session. */
    ghost predicate Forwarded(w: State, writeOk: bool, w': State) {
      if w.cursor >= |w.log| then w' == w
      else if writeOk then w' == w.(cursor := w.cursor + 1, sent := w.sent + [w.log[w.cursor]])
      else w' == w.(cursor := w.cursor + 1, status := Ended(Err(SendFailed)))
    }

    /**
      The session invariant: the subscription lies within the log, what was sent
      is a prefix of `Expected()`, and all of it while the session is active.
    */
    ghost predicate Valid()
      reads this, hub
    {
      && subscribedAt <= cursor <= |hub.log|
      && sent <= Expected()
      && (status.Active? ==> sent == Expected())
    }

    /**
      Subscribe to the channel, then send the welcome frame; the session is
      active only when that send succeeds.
    */
    constructor (clientId: string, registry: Registry, hub: Hub,
                 encode: WebSocketMessage -> string, decode: string -> Option<WebSocketMessage>,
                 welcomeOk: bool)
      ensures Valid()
      ensures this.clientId == clientId && this.registry == registry && this.hub == hub
      ensures this.encode == encode && this.decode == decode
      ensures subscribedAt == cursor == |hub.log|
      ensures welcomeOk ==> status == Active && sent == [encode(Welcome())]
      ensures !welcomeOk ==> status == Ended(Err(SendFailed)) && sent == []
    {
      this.clientId := clientId;
      this.registry := registry;
      this.hub := hub;
      this.encode := encode;
      this.decode := decode;
      subscribedAt := |hub.log|;
      cursor := |hub.log|;
      if welcomeOk {
        status := Active;
        sent := [encode(Welcome())];
      } else {
        status := Ended(Err(SendFailed));
        sent := [];
      }
    }

    /** The first frame a client receives is always the welcome. */
    lemma WelcomeFirst()
      requires Valid()
      ensures |sent| > 0 ==> sent[0] == encode(Welcome())
    {
    }

    /** While active, the client has been sent every item published since it subscribed, verbatim and in order. */
    lemma ForwardsInOrder()
      requires Valid()
      requires status.Active?
      ensures |sent| == 1 + cursor - subscribedAt
      ensures forall i | subscribedAt <= i < cursor :: sent[1 + i - subscribedAt] == hub.log[i]
    {
    }

    /** One iteration of the connection loop. */
    method Step(e: Event)
      requires Valid()
      modifies this, registry, hub
      ensures Valid()
      ensures old(hub.log) <= hub.log
      ensures OthersUnchanged(old(registry.users), registry.users, clientId)
      ensures Stepped(old(World()), e, World())
      ensures old(status).Active? && status.Ended? ==> CanEnd(e)
    {
      if status.Ended? {
        return;
      }
      match e {
        case TextFrame(text) =>
          Receive(text);
        case OtherFrame =>
        case ReadError =>
          status := Ended(Err(ReadFailed));
        case StreamEnd =>
          status := Ended(Ok);
        case HubReady(writeOk) =>
          Forward(writeOk);
        case HubLagged(skipped) =>
          status := Ended(Err(RecvLagged(skipped)));
        case HubClosed =>
          status := Ended(Err(RecvClosed));
      }
    }

    /** The text-frame branch of the loop: decode, then register, chat or ignore. */
    method Receive(text: string)
      requires Valid() && status.Active?
      modifies registry, hub
      ensures Valid()
      ensures old(hub.log) <= hub.log
      ensures OthersUnchanged(old(registry.users), registry.users, clientId)
      ensures IsKind(decode(text), Register) ==>
        && registry.users == old(registry.users)[clientId := RegisteredName(decode(text).value.data, clientId)]
        && exists ids, names :: ListsValues(registry.users, ids, names)
             && RegisteredName(decode(text).value.data, clientId) in names
             && hub.log == old(hub.log) + [encode(UsersAnnouncement(names))]
      ensures IsKind(decode(text), Message) ==>
        && registry.users == old(registry.users)
        && hub.log == old(hub.log) + [encode(ChatEnvelope(ChatPayload(SenderName(old(registry.users), clientId),
                                                                       MessageText(decode(text).value.data))))]
      ensures decode(text).None? || IsKind(decode(text), Users) ==>
        registry.users == old(registry.users) && hub.log == old(hub.log)
    {
      var decoded := decode(text);
      if decoded.Some? {
        var msg := decoded.value;
        match msg.messageType {
          case Register =>
            var username := RegisteredName(msg.data, clientId);
            registry.Insert(clientId, username);
            var userList;
            ghost var ids;
            userList, ids := registry.Values();
            SnapshotHasName(registry.users, ids, userList, clientId);
            hub.Publish(encode(UsersAnnouncement(userList)));
            assert hub.log[subscribedAt..cursor] == old(hub.log)[subscribedAt..cursor];
          case Message =>
            var from := SenderName(registry.users, clientId);
            var messageText := MessageText(msg.data);
            hub.Publish(encode(ChatEnvelope(ChatPayload(from, messageText))));
            assert hub.log[subscribedAt..cursor] == old(hub.log)[subscribedAt..cursor];
          case Users =>
        }
      }
    }

    /** The channel branch of the loop: take the next item, if one is pending, and write it to the client. */
    method Forward(writeOk: bool)
      requires Valid() && status.Active?
      modifies this
      ensures Valid()
      ensures old(cursor) == |hub.log| ==> status == old(status) && cursor == old(cursor) && sent == old(sent)
      ensures old(cursor) < |hub.log| ==>
        && cursor == old(cursor) + 1
        && (writeOk ==> status == Active && sent == old(sent) + [hub.log[old(cursor)]])
        && (!writeOk ==> status == Ended(Err(SendFailed)) && sent == old(sent))
    {
      if cursor < |hub.log| {
        var item := hub.log[cursor];
        assert hub.log[subscribedAt..cursor + 1] == hub.log[subscribedAt..cursor] + [item];
        cursor := cursor + 1;
        if writeOk {
          sent := sent + [item];
        } else {
          status := Ended(Err(SendFailed));
        }
      }
    }

    /** A trace of `n` steps followed by one more step from an active world is a trace of `n + 1` steps. */
    lemma TraceExtends(worlds: seq<State>, events: seq<Event>, n: nat, w: State)
      requires n < |events| && |worlds| == n + 1
      requires forall i | 0 <= i < n :: Stepped(worlds[i], events[i], worlds[i + 1])
      requires forall i | 0 <= i <= n :: worlds[i].status.Active?
      requires Stepped(worlds[n], events[n], w)
      ensures forall i | 0 <= i < n + 1 :: Stepped((worlds + [w])[i], events[i], (worlds + [w])[i + 1])
      ensures forall i | 0 <= i < n + 1 :: (worlds + [w])[i].status.Active?
    {
    }

    /**
      The connection loop: handle `events` in order until they run out or the
      session ends; `processed` is how many were handled. `worlds` is the trace:
      `worlds[i]` is the world before `events[i]` and `worlds[i + 1]` the world
      after it.
    */
    method Run(events: seq<Event>) returns (processed: nat, ghost worlds: seq<State>)
      requires Valid()
      modifies this, registry, hub
      ensures Valid()
      ensures processed <= |events| && |worlds| == processed + 1
      ensures worlds[0] == old(World()) && worlds[processed] == World()
      ensures forall i | 0 <= i < processed :: Stepped(worlds[i], events[i], worlds[i + 1])
      ensures forall i | 0 <= i < processed :: worlds[i].status.Active?
      ensures processed < |events| ==> status.Ended?
      ensures old(status).Ended? ==> processed == 0 && World() == old(World())
      ensures old(status).Active? && status.Ended? ==> 0 < processed && CanEnd(events[processed - 1])
      ensures old(hub.log) <= hub.log
      ensures OthersUnchanged(old(registry.users), registry.users, clientId)
    {
      processed := 0;
      worlds := [World()];
      if status.Ended? {
        return;
      }
      while processed < |events| && status.Active?
        invariant Valid()
        invariant processed <= |events| && |worlds| == processed + 1
        invariant worlds[0] == old(World()) && worlds[processed] == World()
        invariant forall i | 0 <= i < processed :: Stepped(worlds[i], events[i], worlds[i + 1])
        invariant forall i | 0 <= i < processed :: worlds[i].status.Active?
        invariant status.Ended? ==> 0 < processed && CanEnd(events[processed - 1])
        invariant old(hub.log) <= hub.log
        invariant OthersUnchanged(old(registry.users), registry.users, clientId)
        decreases |events| - processed
      {
        Step(events[processed]);
        TraceExtends(worlds, events, processed, World());
        worlds := worlds + [World()];
        processed := processed + 1;
      }
    }
  }

  /**
    Handling an event on one session leaves every other session as it was, whether
    or not the two share a channel and a registry: the other stays valid, keeps
    its status and what it was sent, and its pending items are the old ones
    followed by whatever this step published.
  */
  method StepLeavesOthers(a: Session, b: Session, e: Event)
    requires a != b && a.Valid() && b.Valid()
    modifies a, a.registry, a.hub
    ensures a.Valid() && a.Stepped(old(a.World()), e, a.World())
    ensures b.Valid()
    ensures b.status == old(b.status) && b.sent == old(b.sent) && b.cursor == old(b.cursor)
    ensures old(b.hub.log) <= b.hub.log
    ensures b.hub.log[b.cursor..] == old(b.hub.log[b.cursor..]) + b.hub.log[|old(b.hub.log)|..]
  {
    a.Step(e);
    assert b.hub.log[b.subscribedAt..b.cursor] == old(b.hub.log)[b.subscribedAt..b.cursor];
    PendingAfterGrowth(old(b.hub.log), b.hub.log, b.cursor);
  }

  /**
    Two clients on one server: Alice registers as "bob" and says "hi"; Carol
    receives, after her welcome, the users announcement and the chat line.
  */
  method FanOutScenario(encode: WebSocketMessage -> string, decode: string -> Option<WebSocketMessage>,
                        aliceId: string, carolId: string, registerFrame: string, chatFrame: string)
    returns (carolSees: seq<string>, carolEnd: Status)
    requires decode(registerFrame) == Some(WebSocketMessage(Register, None, Some("bob")))
    requires decode(chatFrame) == Some(WebSocketMessage(Message, None, Some("hi")))
    ensures carolSees == [encode(Welcome()),
                          encode(UsersAnnouncement(["bob"])),
                          encode(ChatEnvelope(ChatPayload("bob", "hi")))]
    ensures carolEnd == Active
  {
    var registry := new Registry();
    var hub := new Hub();
    var alice := new Session(aliceId, registry, hub, encode, decode, true);
    var carol := new Session(carolId, registry, hub, encode, decode, true);
    RegisterAndChat(alice, registerFrame, chatFrame);
    ghost var welcome := encode(Welcome());
    assert carol.sent == [welcome] && carol.cursor == 0 && carol.status == Active;
    assert carol.Expected() == [welcome] by {
      assert hub.log[0..0] == [];
    }
    carol.Forward(true);
    assert carol.sent == [welcome, encode(UsersAnnouncement(["bob"]))] && carol.cursor == 1;
    carol.Forward(true);
    carolSees, carolEnd := carol.sent, carol.status;
  }

  /** The first half of `FanOutScenario`: Alice, alone in a fresh registry, registers as "bob" and says "hi". */
  method RegisterAndChat(alice: Session, registerFrame: string, chatFrame: string)
    requires alice.Valid() && alice.status == Active
    requires alice.registry.users == map[] && alice.hub.log == []
    requires alice.decode(registerFrame) == Some(WebSocketMessage(Register, None, Some("bob")))
    requires alice.decode(chatFrame) == Some(WebSocketMessage(Message, None, Some("hi")))
    modifies alice, alice.registry, alice.hub
    ensures alice.hub.log == [alice.encode(UsersAnnouncement(["bob"])),
                              alice.encode(ChatEnvelope(ChatPayload("bob", "hi")))]
    ensures alice.registry.users == map[alice.clientId := "bob"]
    ensures alice.Valid() && alice.status == Active
  {
    var registry, hub := alice.registry, alice.hub;
    alice.Receive(registerFrame);
    assert registry.users == map[alice.clientId := "bob"];
    ghost var ids, names :| ListsValues(registry.users, ids, names)
      && hub.log == [alice.encode(UsersAnnouncement(names))];
    ListsValuesSize(registry.users, ids, names);
    assert names == ["bob"] by {
      assert ids[0] in registry.users;
    }
    alice.Receive(chatFrame);
  }

  /**
    Alice registers as "bob", then her stream fails. Only her session ends;
    Carol, who never registered, still speaks, under her own id.
  */
  method IsolationScenario(encode: WebSocketMessage -> string, decode: string -> Option<WebSocketMessage>,
                           aliceId: string, carolId: string, registerFrame: string, chatFrame: string)
    returns (carolPublished: string, aliceEnd: Status, carolEnd: Status)
    requires aliceId != carolId
    requires decode(registerFrame) == Some(WebSocketMessage(Register, None, Some("bob")))
    requires decode(chatFrame) == Some(WebSocketMessage(Message, None, Some("hi")))
    ensures carolPublished == encode(ChatEnvelope(ChatPayload(carolId, "hi")))
    ensures aliceEnd == Ended(Err(ReadFailed)) && carolEnd == Active
  {
    var registry := new Registry();
    var hub := new Hub();
    var alice := new Session(aliceId, registry, hub, encode, decode, true);
    var carol := new Session(carolId, registry, hub, encode, decode, true);
    RegisterThenFail(alice, carol, registerFrame);
    carol.Receive(chatFrame);
    carolPublished, aliceEnd, carolEnd := hub.log[|hub.log| - 1], alice.status, carol.status;
  }

  /** The first half of `IsolationScenario`: Alice, in a fresh registry, registers as "bob" and then her stream fails. */
  method RegisterThenFail(alice: Session, carol: Session, registerFrame: string)
    requires alice != carol && alice.Valid() && carol.Valid()
    requires alice.status == Active && alice.registry.users == map[]
    requires alice.decode(registerFrame) == Some(WebSocketMessage(Register, None, Some("bob")))
    modifies alice, alice.registry, alice.hub
    ensures alice.status == Ended(Err(ReadFailed))
    ensures alice.registry.users == map[alice.clientId := "bob"]
    ensures carol.Valid() && carol.status == old(carol.status)
  {
    StepLeavesOthers(alice, carol, TextFrame(registerFrame));
    StepLeavesOthers(alice, carol, ReadError);
  }
}

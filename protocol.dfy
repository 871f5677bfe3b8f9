/**
  The wire envelope exchanged with chat clients and the chat payload that the
  server builds by hand inside a `message` envelope.
*/
module Protocol {
  import opened Wrappers

  /** The three envelope kinds (`messageType` is "users", "register" or "message"). */
  datatype MsgTypes = Users | Register | Message

  /** The envelope: a kind and two optional payload fields. */
  datatype WebSocketMessage = WebSocketMessage(
    messageType: MsgTypes,
    dataArray: Option<seq<string>>,
    data: Option<string>)

  /** The `users` announcement published after a registration. */
  function UsersAnnouncement(names: seq<string>): WebSocketMessage {
    WebSocketMessage(Users, Some(names), None)
  }

  /** A `message` envelope carrying a chat payload. */
  function ChatEnvelope(payload: string): WebSocketMessage {
    WebSocketMessage(Message, None, Some(payload))
  }

  // The three fixed pieces of the hand-written chat payload.
  const FromPrefix: string := "{\"from\": \""
  const MessageInfix: string := "\", \"message\": \""
  const PayloadSuffix: string := "\"}"

  /** The chat payload, built by string formatting with no escaping of either part. */
  function ChatPayload(from: string, text: string): string {
    FromPrefix + from + MessageInfix + text + PayloadSuffix
  }

  /** The payload of the welcome frame, written out literally in the server. */
  const WelcomePayload: string := "{\"from\": \"System\", \"message\": \"Welcome to chat!\"}"

  /** The welcome frame sent to every client before anything else. */
  function Welcome(): WebSocketMessage {
    ChatEnvelope(WelcomePayload)
  }

  /** The display name a `register` envelope asks for: its `data`, or the client's own id. */
  function RegisteredName(data: Option<string>, clientId: string): string {
    data.GetOr(clientId)
  }

  /** The chat text of a `message` envelope: its `data`, or the empty string. */
  function MessageText(data: Option<string>): string {
    data.GetOr("")
  }

  /** A `register` registers its `data`, or the client's own id without one; a `message` sends its `data`, or "" without one. */
  lemma EnvelopeDefaults(clientId: string, name: string, text: string)
    ensures RegisteredName(Some(name), clientId) == name
    ensures RegisteredName(None, clientId) == clientId
    ensures MessageText(Some(text)) == text
    ensures MessageText(None) == ""
  {
  }

  /** The welcome literal up to the start of its text is the prefix, "System" and the infix. */
  lemma WelcomeHead()
    ensures FromPrefix + "System" + MessageInfix == "{\"from\": \"System\", \"message\": \""
  {
    assert FromPrefix + "System" == "{\"from\": \"System";
  }

  /** The welcome literal is exactly the chat payload of "System" saying "Welcome to chat!". */
  lemma WelcomeIsChatPayload()
    ensures WelcomePayload == ChatPayload("System", "Welcome to chat!")
  {
    WelcomeHead();
    assert "{\"from\": \"System\", \"message\": \"" + "Welcome to chat!"
        == "{\"from\": \"System\", \"message\": \"Welcome to chat!";
  }

  /** The first position of `c` in `s`, if any. */
  function IndexOf(s: string, c: char): (r: Option<nat>)
    ensures r.None? ==> c !in s
    ensures r.Some? ==> r.value < |s| && s[r.value] == c && c !in s[..r.value]
  {
    if s == [] then None
    else if s[0] == c then Some(0)
    else match IndexOf(s[1..], c)
      case None => None
      case Some(i) => Some(i + 1)
  }

  /** The text between the fixed prefix and suffix of a chat payload, if `s` has both. */
  function Unwrap(s: string): Option<string> {
    if |s| >= |FromPrefix| + |PayloadSuffix|
       && s[..|FromPrefix|] == FromPrefix
       && s[|s| - |PayloadSuffix|..] == PayloadSuffix
    then Some(s[|FromPrefix|..|s| - |PayloadSuffix|])
    else None
  }

  /** Splits `body` at its first quote, which must start the infix between sender and text. */
  function SplitFields(body: string): Option<(string, string)> {
    match IndexOf(body, '"')
    case None => None
    case Some(i) =>
      if i + |MessageInfix| <= |body| && body[i..i + |MessageInfix|] == MessageInfix
      then Some((body[..i], body[i + |MessageInfix|..]))
      else None
  }

  /**
    A reader of chat payloads: splits `s` into sender and text at the first
    quote after the prefix. It inverts `ChatPayload` on senders without quotes.
  */
  function ParseChatPayload(s: string): Option<(string, string)> {
    match Unwrap(s)
    case None => None
    case Some(body) => SplitFields(body)
  }

  lemma UnwrapInverts(body: string)
    ensures Unwrap(FromPrefix + body + PayloadSuffix) == Some(body)
  {
    var s := FromPrefix + body + PayloadSuffix;
    assert s[..|FromPrefix|] == FromPrefix;
    assert s[|s| - |PayloadSuffix|..] == PayloadSuffix;
    assert s[|FromPrefix|..|s| - |PayloadSuffix|] == body;
  }

  lemma UnwrapSound(s: string, body: string)
    requires Unwrap(s) == Some(body)
    ensures s == FromPrefix + body + PayloadSuffix
  {
    assert s == s[..|FromPrefix|] + body + s[|s| - |PayloadSuffix|..];
  }

  lemma SplitFieldsInverts(from: string, text: string)
    requires '"' !in from
    ensures SplitFields(from + MessageInfix + text) == Some((from, text))
  {
    var body := from + MessageInfix + text;
    assert body[|from|] == '"';
    var r := IndexOf(body, '"');
    assert r.Some? by {
      assert body[|from|] in body;
    }
    var i := r.value;
    assert i == |from|;
    assert body[i..i + |MessageInfix|] == MessageInfix;
    assert body[..i] == from;
    assert body[i + |MessageInfix|..] == text;
  }

  lemma SplitFieldsSound(body: string, from: string, text: string)
    requires SplitFields(body) == Some((from, text))
    ensures '"' !in from && body == from + MessageInfix + text
  {
    var i := IndexOf(body, '"').value;
    assert body == body[..i] + body[i..i + |MessageInfix|] + body[i + |MessageInfix|..];
  }

  /** Splitting a payload recovers sender and text whenever the sender holds no quote. */
  lemma ParseChatPayloadInverts(from: string, text: string)
    requires '"' !in from
    ensures ParseChatPayload(ChatPayload(from, text)) == Some((from, text))
  {
    var body := from + MessageInfix + text;
    assert ChatPayload(from, text) == FromPrefix + body + PayloadSuffix;
    UnwrapInverts(body);
    SplitFieldsInverts(from, text);
  }

  /** Whatever the reader accepts is a chat payload of a quote-free sender. */
  lemma ParseChatPayloadSound(s: string, from: string, text: string)
    requires ParseChatPayload(s) == Some((from, text))
    ensures '"' !in from && s == ChatPayload(from, text)
  {
    var body := Unwrap(s).value;
    UnwrapSound(s, body);
    SplitFieldsSound(body, from, text);
  }

  /** For quote-free senders the payload determines sender and text. */
  lemma ChatPayloadInjective(f1: string, t1: string, f2: string, t2: string)
    requires '"' !in f1 && '"' !in f2
    requires ChatPayload(f1, t1) == ChatPayload(f2, t2)
    ensures f1 == f2 && t1 == t2
  {
    ParseChatPayloadInverts(f1, t1);
    ParseChatPayloadInverts(f2, t2);
  }

  /** Without escaping, a display name containing a quote can forge a second "message" field. */
  lemma ChatPayloadAmbiguous()
    ensures ChatPayload("a\", \"message\": \"b", "c") == ChatPayload("a", "b\", \"message\": \"c")
  {
  }

  /** The welcome frame reads back as "System" saying "Welcome to chat!". */
  lemma WelcomeParses()
    ensures ParseChatPayload(WelcomePayload) == Some(("System", "Welcome to chat!"))
  {
    WelcomeIsChatPayload();
    ParseChatPayloadInverts("System", "Welcome to chat!");
  }
}

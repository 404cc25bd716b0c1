/**
 * The in-memory state of the WebSocket chat room (server.js) and the effect of
 * each event on it, as pure functions over a value of that state.
 *
 * The state is the bounded chat history, the room's theme and title, the
 * registry of connected sockets with the per-socket user record, and the log
 * of every `send` the server has made so far (the outbox).  Each handler of
 * server.js runs to completion before the next event, so every event is one
 * function from the old state to the new one.
 */
module ChatRoom {
  import opened Options
  import opened JsText

  const HISTORY_LIMIT: nat := 50
  const DEFAULT_THEME: string := "default"
  const DEFAULT_TITLE: string := "Classroom"
  const MAX_NAME_LENGTH: nat := 20

  const AI_TRIGGER: string := "hey huybeo"
  const AI_NAME: string := "Huybeo (AI)"
  const AI_COLOR: string := "#00ccff"
  const AI_IDLE_REPLY: string := "Yes? How can I help you?"

  const RAINBOW: string := "rainbow"
  const DENIED: string := "Permission Denied. Try /admin@"
  const GRANTED: string := "ACCESS GRANTED. Secrets: /rainbow, /theme, /chattitle, /clearall"
  const RAINBOW_ON: string := "Rainbow mode activated!"
  const CLEARED: string := "Chat history has been cleared by an Admin."
  /** The multi-line TDTU banner of `handleTDTU`, with its leading and trailing line breaks. */
  const TDTU_BANNER: string := "\n████████╗██████╗ ████████╗██╗   ██╗    ██╗  ██╗   ██╗\n╚══██╔══╝██╔══██╗╚══██╔══╝██║   ██║    ██║  ██║   ██║\n   ██║   ██║  ██║   ██║   ██║   ██║    ██║  ██║   ██║\n   ██║   ██║  ██║   ██║   ██║   ██║    ╚═╝  ╚═╝   ╚═╝\n   ██║   ██████╔╝   ██║   ╚██████╔╝    ██╗  ██╗   ██╗\n   ╚═╝   ╚═════╝    ╚═╝    ╚═════╝     ╚═╝  ╚═╝   ╚═╝\n              #1 UNIVERSITY\n"

  /** The system notices whose text carries a name, theme or title. */
  function JoinNotice(name: string): string { "User " + name + " joined the chat." }
  function LeftNotice(name: string): string { "User " + name + " disconnected." }
  function RenamedNotice(oldName: string, newName: string): string { oldName + " is now known as " + newName }
  function NotFoundNotice(target: string): string { "Error: User '" + target + "' not found." }
  function ThemeNotice(theme: string): string { "Global theme changed to " + theme }
  function TitleNotice(title: string): string { "Room title changed to: " + title }

  /** The identity of one connected socket. */
  type ClientId = nat

  /** A chat record as kept in the history and sent in a `message` envelope; the banner record has no timestamp. */
  datatype ChatMsg = ChatMsg(username: string, color: string, content: string, timestamp: Option<int>)

  /** One connected socket: its `userData` record and whether its transport is OPEN. */
  datatype Session = Session(id: ClientId, username: string, color: string, ip: string, isAdmin: bool, open: bool)

  /** Outbound envelopes, one constructor per `type`. */
  datatype Envelope =
    | History(messages: seq<ChatMsg>)
    | Theme(theme: string)
    | Title(title: string)
    | Init(username: string, color: string)
    | System(notice: string)
    | Message(msg: ChatMsg)
    | Dm(sender: string, target: string, color: string, content: string)
    | Pong(startTime: int)
    | AdminGranted
    | ClearHistory

  /** Inbound envelopes, one constructor per recognised `type`; Unrecognised also stands for an envelope that failed to parse. */
  datatype Inbound =
    | Chat(content: string)
    | UpdateName(content: string)
    | UpdateColor(content: string)
    | Ping(startTime: int)
    | DirectMessage(target: string, content: string)
    | Tdtu
    | AdminLogin
    | SetRainbow
    | ChangeTheme(theme: string)
    | ChangeTitle(title: string)
    | ClearChat
    | Unrecognised

  /** One `send` call: which socket, which envelope. */
  datatype Delivery = Delivery(recipient: ClientId, env: Envelope)

  /** What the message handler takes from outside: the clock and the AI service's reply. */
  datatype Inputs = Inputs(now: int, aiReply: string, aiNow: int)

  datatype Room = Room(history: seq<ChatMsg>, theme: string, title: string, clients: seq<Session>, outbox: seq<Delivery>)

  function InitialRoom(): Room {
    Room([], DEFAULT_THEME, DEFAULT_TITLE, [], [])
  }

  ghost predicate UniqueIds(cs: seq<Session>) {
    forall i, j :: 0 <= i < j < |cs| ==> cs[i].id != cs[j].id
  }

  ghost predicate FreshId(cs: seq<Session>, id: ClientId) {
    forall k :: 0 <= k < |cs| ==> cs[k].id != id
  }

  /** Some registered socket with this id is OPEN. */
  ghost predicate OpenIn(cs: seq<Session>, id: ClientId) {
    exists k :: 0 <= k < |cs| && cs[k].id == id && cs[k].open
  }

  /** The newest `n` entries of `s`, in their original order. */
  function Newest<T>(s: seq<T>, n: nat): seq<T> {
    if |s| <= n then s else s[|s| - n..]
  }

  /** `chatHistory.push(m)` followed by one `shift()` when the length exceeds the limit. */
  function PushCapped(h: seq<ChatMsg>, m: ChatMsg): (r: seq<ChatMsg>)
    ensures |h| <= HISTORY_LIMIT ==> |r| <= HISTORY_LIMIT && r == Newest(h + [m], HISTORY_LIMIT)
    ensures |r| > 0 && r[|r| - 1] == m
  {
    var pushed := h + [m];
    if |pushed| > HISTORY_LIMIT then pushed[1..] else pushed
  }

  /** `broadcast(e)`: one send of `e` to each OPEN socket, in registry order. */
  function Fanout(cs: seq<Session>, e: Envelope): (r: seq<Delivery>)
    ensures |r| <= |cs|
    ensures forall k :: 0 <= k < |r| ==> r[k].env == e
  {
    if cs == [] then []
    else
      var last := cs[|cs| - 1];
      var rest := Fanout(cs[..|cs| - 1], e);
      if last.open then rest + [Delivery(last.id, e)] else rest
  }

  /** One send of `e` to the socket at index `s` (`ws.send`). */
  function Reply(r: Room, s: nat, e: Envelope): Room
    requires s < |r.clients|
  {
    r.(outbox := r.outbox + [Delivery(r.clients[s].id, e)])
  }

  predicate Addressable(c: Session, name: string) {
    c.open && c.username == name
  }

  /** The socket `handleDM` settles on: the last OPEN socket whose name equals `name` exactly. */
  function LastOpenNamed(cs: seq<Session>, name: string): (t: Option<nat>)
    ensures t.Some? ==> t.value < |cs| && Addressable(cs[t.value], name)
    ensures t.Some? ==> forall j :: t.value < j < |cs| ==> !Addressable(cs[j], name)
    ensures t.None? ==> forall j :: 0 <= j < |cs| ==> !Addressable(cs[j], name)
  {
    if cs == [] then None
    else if Addressable(cs[|cs| - 1], name) then Some(|cs| - 1)
    else
      var t := LastOpenNamed(cs[..|cs| - 1], name);
      assert forall j :: 0 <= j < |cs| - 1 ==> cs[..|cs| - 1][j] == cs[j];
      t
  }

  /** `content.toLowerCase().trim().startsWith("hey huybeo")`. */
  predicate IsAiTrigger(content: string) {
    StartsWith(Trim(ToLowerAscii(content)), AI_TRIGGER)
  }

  /** The question as server.js cuts it: ten characters off the UNTRIMMED content, then trimmed. */
  function PromptAsWritten(content: string): string {
    Trim(Drop(content, |AI_TRIGGER|))
  }

  /** The question with the trigger cut off where the trigger test found it: after the leading whitespace. */
  function Prompt(content: string): string {
    Trim(Drop(TrimStart(content), |AI_TRIGGER|))
  }

  function AiRecord(content: string, at: int): ChatMsg {
    ChatMsg(AI_NAME, AI_COLOR, content, Some(at))
  }

  /** The record a user's chat message becomes: the sender's current name and colour, the content, the clock. */
  function UserRecord(c: Session, content: string, now: int): ChatMsg {
    ChatMsg(c.username, c.color, content, Some(now))
  }

  /**
   * A `message` envelope whose question, should the content carry the trigger,
   * has been cut as `question`: store and broadcast the sender's record; then
   * ask the AI service and store and broadcast its answer when the question is
   * non-empty, or broadcast the fixed reply without storing it when it is empty.
   */
  function ChatEffect(r: Room, s: nat, content: string, question: string, io: Inputs): Room
    requires s < |r.clients|
  {
    var msg := UserRecord(r.clients[s], content, io.now);
    var r1 := r.(history := PushCapped(r.history, msg), outbox := r.outbox + Fanout(r.clients, Message(msg)));
    if !IsAiTrigger(content) then r1
    else if |question| > 0 then
      var ai := AiRecord(io.aiReply, io.aiNow);
      r1.(history := PushCapped(r1.history, ai), outbox := r1.outbox + Fanout(r1.clients, Message(ai)))
    else
      r1.(outbox := r1.outbox + Fanout(r1.clients, Message(AiRecord(AI_IDLE_REPLY, io.aiNow))))
  }

  /** A `message` envelope as server.js handles it: the question is cut ten characters into the untrimmed content. */
  function ChatStep(r: Room, s: nat, content: string, io: Inputs): Room
    requires s < |r.clients|
  {
    ChatEffect(r, s, content, PromptAsWritten(content), io)
  }

  /** A `message` envelope with the question cut where the trigger test found the trigger. */
  function ChatStepIntended(r: Room, s: nat, content: string, io: Inputs): Room
    requires s < |r.clients|
  {
    ChatEffect(r, s, content, Prompt(content), io)
  }

  /** The name an `update_name` request asks for: trimmed, then cut to 20 characters. */
  function RequestedName(content: string): string {
    Take(Trim(content), MAX_NAME_LENGTH)
  }

  /** An `update_name` envelope. */
  function RenameStep(r: Room, s: nat, content: string): Room
    requires s < |r.clients|
  {
    var oldName := r.clients[s].username;
    var newName := RequestedName(content);
    if newName != [] && newName != oldName then
      var cs := r.clients[s := r.clients[s].(username := newName)];
      r.(clients := cs, outbox := r.outbox + Fanout(cs, System(RenamedNotice(oldName, newName))))
    else r
  }

  /** A `dm` envelope (`handleDM`). */
  function DmStep(r: Room, s: nat, target: string, content: string): Room
    requires s < |r.clients|
  {
    var me := r.clients[s];
    match LastOpenNamed(r.clients, target)
    case Some(k) =>
      var dm := Dm(me.username, target, me.color, content);
      r.(outbox := r.outbox + [Delivery(r.clients[k].id, dm), Delivery(me.id, dm)])
    case None =>
      Reply(r, s, System(NotFoundNotice(target)))
  }

  /** The banner record `handleTDTU` sends: the sender's current name and colour, no timestamp. */
  function BannerRecord(c: Session): ChatMsg {
    ChatMsg(c.username, c.color, TDTU_BANNER, None)
  }

  /** A `tdtu` envelope (`handleTDTU`): the banner is stored and broadcast like a chat message, without a timestamp. */
  function TdtuStep(r: Room, s: nat): Room
    requires s < |r.clients|
  {
    var msg := BannerRecord(r.clients[s]);
    r.(history := PushCapped(r.history, msg), outbox := r.outbox + Fanout(r.clients, Message(msg)))
  }

  /** An `admin_login` envelope: no check at all; the flag is set and the sender is told twice. */
  function AdminLoginStep(r: Room, s: nat): Room
    requires s < |r.clients|
  {
    var cs := r.clients[s := r.clients[s].(isAdmin := true)];
    Reply(Reply(r.(clients := cs), s, AdminGranted), s, System(GRANTED))
  }

  /** An `update_color` envelope: the colour is taken verbatim. */
  function UpdateColorStep(r: Room, s: nat, color: string): Room
    requires s < |r.clients|
  {
    r.(clients := r.clients[s := r.clients[s].(color := color)])
  }

  /** The admin-only commands: `set_rainbow` answers the sender; the other three are followed by two broadcasts each. */
  function RainbowStep(r: Room, s: nat): Room
    requires s < |r.clients|
  {
    Reply(UpdateColorStep(r, s, RAINBOW), s, System(RAINBOW_ON))
  }

  function ChangeThemeStep(r: Room, t: string): Room {
    r.(theme := t, outbox := r.outbox + Fanout(r.clients, Theme(t)) + Fanout(r.clients, System(ThemeNotice(t))))
  }

  function ChangeTitleStep(r: Room, t: string): Room {
    r.(title := t, outbox := r.outbox + Fanout(r.clients, Title(t)) + Fanout(r.clients, System(TitleNotice(t))))
  }

  function ClearChatStep(r: Room): Room {
    r.(history := [], outbox := r.outbox + Fanout(r.clients, ClearHistory) + Fanout(r.clients, System(CLEARED)))
  }

  /** The admin gate: the granted effect for an admin, otherwise one denial notice to the sender. */
  function Gated(r: Room, s: nat, granted: Room): Room
    requires s < |r.clients|
  {
    if r.clients[s].isAdmin then granted else Reply(r, s, System(DENIED))
  }

  /** The `message` handler: the effect of one inbound envelope from the socket at index `s`. */
  function Step(r: Room, s: nat, m: Inbound, io: Inputs): Room
    requires s < |r.clients|
  {
    match m
    case Chat(content) => ChatStep(r, s, content, io)
    case UpdateName(content) => RenameStep(r, s, content)
    case UpdateColor(color) => UpdateColorStep(r, s, color)
    case Ping(t) => Reply(r, s, Pong(t))
    case DirectMessage(target, content) => DmStep(r, s, target, content)
    case Tdtu => TdtuStep(r, s)
    case AdminLogin => AdminLoginStep(r, s)
    case SetRainbow => Gated(r, s, RainbowStep(r, s))
    case ChangeTheme(t) => Gated(r, s, ChangeThemeStep(r, t))
    case ChangeTitle(t) => Gated(r, s, ChangeTitleStep(r, t))
    case ClearChat => Gated(r, s, ClearChatStep(r))
    case Unrecognised => r
  }

  /** The records a chat message from `c` stores: its own, then the AI's answer when server.js asks the AI service. */
  function ChatRecords(c: Session, content: string, io: Inputs): seq<ChatMsg> {
    var msg := UserRecord(c, content, io.now);
    if IsAiTrigger(content) && |PromptAsWritten(content)| > 0 then [msg, AiRecord(io.aiReply, io.aiNow)] else [msg]
  }

  /** The records one inbound envelope pushes onto the history, oldest first; `clear_chat` empties the history instead. */
  function Stored(r: Room, s: nat, m: Inbound, io: Inputs): seq<ChatMsg>
    requires s < |r.clients|
  {
    match m
    case Chat(content) => ChatRecords(r.clients[s], content, io)
    case Tdtu => [BannerRecord(r.clients[s])]
    case _ => []
  }

  /** The session a new connection gets: named after its remote port, not an admin, OPEN. */
  function NewSession(id: ClientId, port: nat, color: string, ip: string): Session {
    Session(id, Decimal(port), color, ip, false, true)
  }

  /**
   * The `connection` handler: the socket is already registered when it runs;
   * it gets the history, theme and title, everyone (itself included) gets the
   * join notice, then it gets its identity.
   */
  function ConnectStep(r: Room, id: ClientId, port: nat, color: string, ip: string): Room {
    var c := NewSession(id, port, color, ip);
    var cs := r.clients + [c];
    r.(clients := cs,
       outbox := r.outbox
                 + [Delivery(id, History(r.history)), Delivery(id, Theme(r.theme)), Delivery(id, Title(r.title))]
                 + Fanout(cs, System(JoinNotice(c.username)))
                 + [Delivery(id, Init(c.username, c.color))])
  }

  /** The transport of socket `s` leaves the OPEN state (closing handshake begun); it stays registered. */
  function ClosingStep(r: Room, s: nat): Room
    requires s < |r.clients|
  {
    r.(clients := r.clients[s := r.clients[s].(open := false)])
  }

  /** The `close` handler: the socket has already left the registry; the others get the leave notice. */
  function DisconnectStep(r: Room, s: nat): Room
    requires s < |r.clients|
  {
    var cs := r.clients[..s] + r.clients[s + 1..];
    r.(clients := cs, outbox := r.outbox + Fanout(cs, System(LeftNotice(r.clients[s].username))))
  }
}

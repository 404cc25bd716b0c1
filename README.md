# Classroom chat servers, modelled in Dafny

This project models two small chat relays.

**The WebSocket chat room of `server.js`.** The room keeps:
- a history of the last 50 chat records;
- a room theme and a room title;
- one session record per connected socket: name, colour, address, admin flag.

Every inbound envelope is handled to completion before the next one:
- a chat message, with the "hey huybeo" AI trigger;
- a rename, a colour change, a ping, a direct message, the TDTU banner;
- the admin login and the four admin-only commands: rainbow, theme, title, clear.

Connecting and leaving sockets get a snapshot and join/leave notices. Everything the server sends is recorded as a log of `send` calls (`outbox`), each naming the recipient socket and the envelope.

**The client registry of the TCP relay in `server.py`.** This is the list of client sockets kept by `MessageServer`: accept appends, `broadcast` sends to all but the sender and then drops the clients whose send failed, `remove_client`, and `stop`.

Layout:
- `options.dfy` (`Options`): the `Option` type.
- `js_text.dfy` (`JsText`): the JavaScript string operations the handlers use. `trim` with the ECMAScript whitespace set, `substring`, `startsWith`, `toLowerCase`, and the decimal numeral of a port number.
- `chat_room.dfy` (`ChatRoom`): the room as a value. One function per event gives the new room and the sends it makes (`ChatStep`, `RenameStep`, …, `Step`, `ConnectStep`, `DisconnectStep`). `ChatStep` cuts the AI question as `server.js` does; `ChatStepIntended` is the corrected variant described under Findings, and only the lemmas about that finding use it.
- `chat_room_facts.dfy` (`ChatRoomFacts`): what those functions guarantee.
- `chat_server.dfy` (`WsServer`): class `ChatServer`. Its fields are the history, theme, title, registry and outbox. Its methods update them in place, each proved to have exactly the effect of the matching `ChatRoom` function. A ghost log of every record pushed since the last clear ties the history to "the newest 50 pushed"; each handler states how it extends that log.
- `tcp_server.dfy` (`TcpServer`): class `MessageServer`, the list functions that specify it, and their lemmas.

`server.js` has no accounts, logins, persisted message store or archive, and none is modelled.

## Model

| member | source | states |
|---|---|---|
| ChatRoom.PushCapped | server.js:71-72 | push then one shift keeps at most 50 records; they are the newest 50 of the old history plus the new record, and the new record is last |
| ChatRoomFacts.NewestOfPush | server.js:13-15 | capping after every push equals capping the whole push sequence once, so the history is always the newest 50 records ever pushed, in push order |
| ChatRoom.Fanout | server.js:275-281 | `broadcast` makes no more sends than there are registered sockets, and every one carries the broadcast envelope; the count per socket is `FanoutExactlyOpen` |
| ChatRoomFacts.FanoutExactlyOpen | server.js:275-281 | `broadcast` sends the envelope exactly once to every OPEN registered socket and never to any other socket |
| ChatRoomFacts.FanoutIgnoresProfile | server.js:275-281 | who receives a broadcast depends only on which sockets are registered and OPEN, not on their names or colours |
| ChatRoom.LastOpenNamed | server.js:233-237 | the lookup finds an OPEN socket with exactly the wanted name, no later socket qualifies, and it finds nothing only when none qualifies |
| ChatRoom.Step | server.js:56-183 | the `message` handler: one event function per envelope `type`, the four admin-only kinds through `Gated`, anything else unchanged; its properties are the `ChatRoomFacts` lemmas below |
| ChatRoom.ChatEffect | server.js:60-110 | store and broadcast the sender's record, then, with the trigger, store and broadcast the AI's answer to a non-empty question or broadcast the fixed reply; stated by `AiAnswerIsStoredAndBroadcast`, `AiIdleReplyIsNotStored` and `ChatMessageReachesEveryOpenClient` |
| ChatRoom.ChatStep | server.js:60-110 | the chat handler as written: the question is `PromptAsWritten` |
| ChatRoom.ChatStepIntended | server.js:76-80 | the corrected chat handler: the question is `Prompt`; stated by `IntendedStepAsksAboutTriggerTail` |
| ChatRoom.IsAiTrigger | server.js:77-78 | the lower-cased, trimmed content starts with "hey huybeo"; `TriggerIsCutExactly` states what that means |
| ChatRoom.PromptAsWritten | server.js:80 | ten characters off the untrimmed content, then trimmed |
| ChatRoom.Prompt | server.js:79-80 | ten characters off the content after its leading whitespace, then trimmed; `TriggerIsCutExactly` shows these are the trigger |
| ChatRoom.ChatRecords | server.js:60-110 | the records a chat message stores: its own, and the AI's answer when the AI is asked |
| ChatRoom.Stored | server.js:56-183 | the records each envelope stores; related to the history by `StepHistoryIsNewestStored` |
| ChatRoom.RequestedName | server.js:114 | the trimmed request cut to 20 characters; `RenameEffect` states its use |
| ChatRoom.RenameStep | server.js:112-122 | the rename and its notice; stated by `RenameEffect` |
| ChatRoom.UpdateColorStep | server.js:123-125 | the colour taken verbatim; stated by `QuietKinds` |
| ChatRoom.DmStep | server.js:229-252 | `handleDM`; stated by `DirectMessageDelivery` |
| ChatRoom.BannerRecord | server.js:254-268 | the banner record under the sender's current name and colour, without a timestamp |
| ChatRoom.TdtuStep | server.js:254-273 | `handleTDTU`; stated by `TdtuIsStoredAndBroadcast` |
| ChatRoom.AdminLoginStep | server.js:136-143 | the unconditional admin flag and the two replies; stated by `AdminLoginIdempotent` |
| ChatRoom.Gated | server.js:144-178 | the admin check of the four admin-only kinds; stated by `NonAdminDenied` |
| ChatRoom.RainbowStep | server.js:144-151 | stated by `AdminCommandsTakeEffect` |
| ChatRoom.ChangeThemeStep | server.js:152-160 | stated by `AdminCommandsTakeEffect` |
| ChatRoom.ChangeTitleStep | server.js:161-169 | stated by `AdminCommandsTakeEffect` |
| ChatRoom.ClearChatStep | server.js:170-178 | stated by `AdminCommandsTakeEffect` |
| ChatRoom.ConnectStep | server.js:21-54 | the connection handler; stated by `ConnectSnapshotAndJoin` |
| ChatRoom.ClosingStep | server.js:277 | only the socket's OPEN flag drops; stated by `CloseKeepsWellFormed` |
| ChatRoom.DisconnectStep | server.js:185-190 | the close handler; stated by `DisconnectNotice` |
| JsText.Trim | server.js:77 | `trim` is `TrimEnd` after `TrimStart`; stated by `TrimStartIsSuffix`, `TrimEndIsPrefix` and `TrimIdempotent` |
| JsText.StartsWith | server.js:78 | the text begins with the given prefix |
| ChatRoomFacts.ChatKeepsWellFormed | server.js:60-110 | a chat message keeps the history within 50 records and leaves the registry unchanged |
| ChatRoomFacts.StepKeepsWellFormed | server.js:56-183 | every inbound envelope keeps the history within 50 records and no socket registered twice |
| ChatRoomFacts.ConnectKeepsWellFormed | server.js:21-54 | registering a socket with a fresh identity keeps the invariant |
| ChatRoomFacts.CloseKeepsWellFormed | server.js:185-190 | a socket leaving the OPEN state, or leaving the registry, keeps the invariant |
| ChatRoomFacts.ChatMessageReachesEveryOpenClient | server.js:60-74 | without the trigger, the sender's record (current name and colour, the content, the clock) becomes the newest history entry and every OPEN socket, sender included, gets it exactly once; nothing else changes |
| ChatRoomFacts.AiAnswerIsStoredAndBroadcast | server.js:76-98 | with the trigger and a non-empty question as server.js cuts it (ten characters off the raw content, trimmed), the AI's reply record ("Huybeo (AI)", `#00ccff`) is stored after the sender's record and broadcast after it; nothing else changes |
| ChatRoomFacts.AiIdleReplyIsNotStored | server.js:99-109 | with the trigger and an empty question as server.js cuts it, the fixed "Yes? How can I help you?" record is broadcast after the sender's record and not stored; nothing else changes |
| ChatRoomFacts.TriggerIsCutExactly | server.js:76-80 | when the trigger test passes, the text starts (after leading whitespace) with the ten trigger characters in any ASCII case, and the question is exactly the trimmed rest |
| ChatRoomFacts.PromptAgreesWithoutLeadingWhitespace | server.js:77-80 | for content that does not start with whitespace, cutting ten characters off the raw content gives the same question |
| ChatRoomFacts.PromptAsWrittenKeepsTriggerTail | server.js:80 | the content " hey huybeo" passes the trigger test, yet the question cut from the raw content is "o" instead of empty |
| ChatRoomFacts.TriggerTailIsAskedAsWritten | server.js:76-98 | for " hey huybeo" the handler stores the sender's record and then the AI's answer, where the corrected handler stores only the sender's record |
| ChatRoomFacts.IntendedStepAsksAboutTriggerTail | server.js:76-109 | in the corrected handler the AI is asked, and its answer stored and broadcast, exactly when something other than whitespace follows the trigger; otherwise only the fixed reply is broadcast |
| ChatRoomFacts.IntendedAgreesWithoutLeadingWhitespace | server.js:77-80 | the corrected handler and server.js behave identically on every message that does not start with whitespace |
| ChatRoomFacts.RenameEffect | server.js:112-122 | the sender is renamed to the trimmed request cut to 20 characters, and one rename notice goes to every OPEN socket, exactly when that name is non-empty and new; otherwise the room is unchanged |
| ChatRoomFacts.NonAdminDenied | server.js:144-178 | for a sender without the admin flag each admin-only command sends one "Permission Denied. Try /admin@" notice to the sender only and changes nothing else |
| ChatRoomFacts.AdminCommandsTakeEffect | server.js:144-178 | for an admin, theme and title are set and announced by the value envelope then the notice; clear empties the history then announces; rainbow sets only the sender's colour and answers only the sender |
| ChatRoomFacts.AdminLoginIdempotent | server.js:136-143 | `admin_login` needs nothing, sets only the sender's flag, answers only the sender (granted envelope, then the notice), and repeating it changes no session |
| ChatRoomFacts.QuietKinds | server.js:123-128 | `ping` only answers the sender with its start time; `update_color` only sets the sender's colour verbatim; an unrecognised envelope changes nothing |
| ChatRoomFacts.DirectMessageDelivery | server.js:229-252 | a `dm` goes, as one identical record, to the last OPEN socket with the exact target name and then back to the sender; with no such socket only the sender gets the not-found notice; the room never changes |
| ChatRoomFacts.TdtuIsStoredAndBroadcast | server.js:254-273 | the banner record, under the sender's current name and colour and without timestamp, is stored and broadcast like a chat message |
| ChatRoomFacts.ConnectSnapshotAndJoin | server.js:21-54 | a new socket is named after its port (read back, the name is the port), gets history, theme and title, then the join notice that every OPEN socket including itself gets once, then its own name and colour |
| ChatRoomFacts.DisconnectNotice | server.js:185-190 | the leaving socket is out of the registry and the others stay in order; it never gets its own leave notice, and every remaining OPEN socket gets it once |
| ChatRoomFacts.StepHistoryIsNewestStored | server.js:56-183 | after any envelope the history is the newest 50 of the old history followed by the records that envelope stores (`Stored`), except an admin's `clear_chat`, which empties it |
| ChatRoomFacts.ChatHistoryIsNewestStored | server.js:60-110 | after a chat message the history is the newest 50 of the old history followed by the sender's record and, when the AI is asked, its answer |
| JsText.TrimStart | server.js:77 | what is left after removing leading whitespace is empty or starts with non-whitespace |
| JsText.TrimEnd | server.js:114 | what is left after removing trailing whitespace is empty or ends with non-whitespace |
| JsText.TrimStartIsSuffix | server.js:77 | trimming the start removes exactly a whitespace prefix |
| JsText.TrimEndIsPrefix | server.js:114 | trimming the end removes exactly a whitespace suffix |
| JsText.TrimIdempotent | server.js:114 | trimming twice is trimming once |
| JsText.Take | server.js:114 | `substring(0, n)` is the first n characters, or all of a shorter string |
| JsText.Drop | server.js:80 | `substring(n)` is what follows the first n characters, or empty |
| JsText.ToLowerAscii | server.js:77 | lower-casing keeps the length, leaves no ASCII capital, turns each capital into the same small letter, and keeps every other character |
| JsText.LowerIdempotent | server.js:77 | lower-casing twice is lower-casing once |
| JsText.LowerOfPrefix | server.js:77-78 | lower-casing commutes with taking a prefix |
| JsText.LowerKeepsWhitespace | server.js:77 | lower-casing neither creates nor removes whitespace |
| JsText.TrimStartOfLower | server.js:77 | lower-casing and trimming leading whitespace commute |
| JsText.LowerOfLowerCase | server.js:77 | text without ASCII capitals is its own lower-case form |
| JsText.Decimal | server.js:32 | the port's numeral is non-empty, all digits, and has no leading zero unless it is "0" |
| JsText.DecimalRoundTrip | server.js:32 | reading the numeral back gives the port |
| WsServer.ChatServer.constructor | server.js:13-19 | the server starts with an empty history, theme "default", title "Classroom", no sockets and no sends |
| WsServer.ChatServer.Broadcast | server.js:275-281 | the loop appends exactly the sends of `Fanout` over the registry to the log |
| WsServer.ChatServer.Send | server.js:247-248 | one send to the socket at the given index is appended to the log |
| WsServer.ChatServer.PushHistory | server.js:71-72 | push then shift gives `PushCapped` and keeps the history equal to the newest 50 records pushed |
| WsServer.ChatServer.FindTarget | server.js:229-237 | the `forEach` lookup returns what `LastOpenNamed` specifies |
| WsServer.ChatServer.Connect | server.js:21-54 | the connection handler has exactly the effect of `ConnectStep` and keeps the invariant |
| WsServer.ChatServer.Closing | server.js:277 | a socket leaving the OPEN state has the effect of `ClosingStep` |
| WsServer.ChatServer.Disconnect | server.js:185-190 | the close handler has exactly the effect of `DisconnectStep` and keeps the invariant |
| WsServer.ChatServer.HandleMessage | server.js:56-183 | the dispatcher has exactly the effect of `Step` for every envelope kind and keeps the invariant; the log of pushed records grows by exactly what the envelope stores, or is emptied by an admin's `clear_chat` |
| WsServer.ChatServer.OnChat | server.js:60-110 | the chat branch, cutting the question as line 80 does, has exactly the effect of `ChatStep`, and the log of pushed records grows by the sender's record and, when the AI is asked, its answer |
| WsServer.ChatServer.OnUpdateName | server.js:112-122 | the rename branch has exactly the effect of `RenameStep` |
| WsServer.ChatServer.OnUpdateColor | server.js:123-125 | the colour branch has exactly the effect of `UpdateColorStep` |
| WsServer.ChatServer.OnDirectMessage | server.js:229-252 | `handleDM` has exactly the effect of `DmStep` |
| WsServer.ChatServer.OnTdtu | server.js:254-273 | `handleTDTU` has exactly the effect of `TdtuStep`, and the log of pushed records grows by the banner record |
| WsServer.ChatServer.OnAdminLogin | server.js:136-143 | the admin login branch has exactly the effect of `AdminLoginStep` |
| WsServer.ChatServer.OnSetRainbow | server.js:144-151 | the granted rainbow branch has exactly the effect of `RainbowStep` |
| WsServer.ChatServer.OnChangeTheme | server.js:152-160 | the granted theme branch has exactly the effect of `ChangeThemeStep` |
| WsServer.ChatServer.OnChangeTitle | server.js:161-169 | the granted title branch has exactly the effect of `ChangeTitleStep` |
| WsServer.ChatServer.OnClearChat | server.js:170-178 | the granted clear branch has exactly the effect of `ClearChatStep`, and the history and the log of pushed records are both empty afterwards |
| TcpServer.Others | server.py:67-68 | the clients `broadcast` writes to are exactly the listed clients other than the sender, without repeats |
| TcpServer.Sends | server.py:67-70 | one `broadcast` makes no more sends than there are listed clients; the count per client is `SendsReachOthersOnce` and the order is `SendsFollowOthers` |
| TcpServer.Failed | server.py:65-72 | the collected failures are exactly the listed clients, other than the sender, whose send raised, without repeats |
| TcpServer.Without | server.py:73-74 | a client survives the filter exactly when it was listed and is not in the removed set |
| TcpServer.ListRemove | server.py:74 | `list.remove` shortens the list by one and adds nothing |
| TcpServer.WithoutIsSubsequence | server.py:73-74 | the surviving clients keep their original relative order |
| TcpServer.WithoutNothing | server.py:79-80 | filtering out clients that are not listed leaves the list unchanged |
| TcpServer.WithoutSameOnMembers | server.py:73-74 | only the listed clients of the removed set matter |
| TcpServer.WithoutTwice | server.py:73-74 | removing one set after another is removing their union |
| TcpServer.ListRemoveIsWithout | server.py:74 | on a list without repeats, `list.remove(x)` is the filter that takes out `x` |
| TcpServer.WithoutKeepsNoDup | server.py:73-74 | filtering keeps the list free of repeats |
| TcpServer.SendsFollowOthers | server.py:67-70 | the sends go to the clients other than the sender, one each, in list order |
| TcpServer.SendsReachOthersOnce | server.py:63-70 | `broadcast` never writes to the sender and writes to every other listed client exactly once |
| TcpServer.OthersOnce | server.py:67-68 | a list without repeats holds each member once |
| TcpServer.SendAllCount | server.py:67-70 | sending to a list sends to each client as often as it is listed |
| TcpServer.RemoveIsIdempotent | server.py:76-80 | removing an unlisted client changes nothing; removing twice is removing once; afterwards the client is not listed |
| TcpServer.OneMoreTried | server.py:67-72 | trying one more client adds at most its send and its failure |
| TcpServer.RemoveNextFailed | server.py:73-74 | each `list.remove` in the second loop takes out one more failed client, which is still listed |
| TcpServer.MessageServer.constructor | server.py:14-22 | a new server has no clients and is not running |
| TcpServer.MessageServer.Start | server.py:28 | starting raises the running flag |
| TcpServer.MessageServer.Accept | server.py:36-37 | an accepted socket is appended at the end of the list and nothing else changes |
| TcpServer.MessageServer.Broadcast | server.py:63-74 | the log gains exactly the sends to the other clients in list order; afterwards exactly the clients whose send raised are gone and the rest stay |
| TcpServer.MessageServer.SendToOthers | server.py:65-72 | the first loop makes the sends of `Sends` and collects exactly `Failed` |
| TcpServer.MessageServer.RemoveFailed | server.py:73-74 | the second loop leaves exactly the clients that did not fail, in order |
| TcpServer.MessageServer.RemoveClient | server.py:76-84 | the socket is no longer listed, the others stay in order, and it is closed |
| TcpServer.MessageServer.Stop | server.py:86-95 | afterwards the server is not running, every listed socket has been closed in list order, and the list is empty |

## Left out

- Express, the HTTP server, WebSocket setup and static file serving are plumbing outside the room logic.
- JSON encoding and decoding are not modelled: envelopes are datatypes. An envelope that fails to parse, or has an unknown `type`, is `Unrecognised` and changes nothing, as the `catch` and the fall-through of the if-chain do.
- JSON values of the wrong type are not modelled. Content, names, themes and titles are always strings here. In JavaScript a non-string chat content throws at `toLowerCase` after the record was already stored and broadcast. A missing `theme` or `title` stores `undefined`.
- `askHuybeoAI` is an HTTP call to an external service. Its reply text is an input (`Inputs.aiReply`), and so is the clock after it. The `await` is treated as atomic: no other event can interleave between the user's record and the AI's record.
- `getRandomColor`, `Date.now()` and the remote port are inputs.
- The socket identity is a number, and the registry holds no identity twice.
- The `x-forwarded-for` / remote-address parsing is not modelled. The address is an input stored as is.
- JsText.ToLowerAscii: lower-cases only the ASCII letters A–Z. JavaScript's `toLowerCase` also maps other cased letters. The trigger "hey huybeo" is ASCII, but a non-ASCII capital elsewhere in a message is kept.
- Strings are sequences of Unicode scalar values. JavaScript counts lengths and positions in UTF-16 code units, where a character outside the Basic Multilingual Plane (an emoji, say) takes two units. The two agree only on text within that plane.
- ChatRoom.RequestedName: the 20-character cap counts scalar values. JavaScript counts code units, so a name of 15 emoji is kept whole here, where `substring(0, 20)` keeps 10 of them.
- JsText.Take: `substring(0, n)` is modelled in scalar values, not UTF-16 code units. It also cannot split a surrogate pair, which JavaScript can.
- JsText.Drop: `substring(n)` is modelled in scalar values, not UTF-16 code units. The cut ten characters into a message that starts with astral characters therefore falls at a different place than in JavaScript.
- A send to a socket that is no longer OPEN is still recorded in the outbox. The `ws` library drops such a send without delivering it.
- When the `close` handler runs, the `ws` library has already taken the socket out of `wss.clients`. `Disconnect` therefore removes it before the leave notice.
- The console logging of both servers is not modelled.
- For `server.py`, the following are not modelled: threads, the lock, the `accept` and `recv` loops, `handle_client` (it calls `broadcast` and finally `remove_client`), and the closing of the listening socket. Each locked section is one atomic method.
- `broadcast` encodes the message as UTF-8 before sending. The model sends the string itself.
- TcpServer.MessageServer.Accept: requires that the socket is not listed yet. A socket returned by `accept` is a new object, so the list stays free of repeats.
- Whether a `send` raises is an input set (`broken`). A `close` that raises is ignored, as in the source, and is logged like any other `close`.
- All of `client.py` is left out: stdin handling and the socket wrapper.

## Findings

| source | as written | input that shows it | evidently intended | confidence | as-written member | corrected member |
|---|---|---|---|---|---|---|
| server.js:80 | The question is cut as `msgContent.substring(10).trim()`, ten characters off the raw content. The trigger test at server.js:77-78 trims the content first. | " hey huybeo" passes the trigger test, and the question becomes "o" instead of empty. " hey huybeo what?" asks "o what?". | Cut the trigger where the test found it: after the leading whitespace. `ChatStep`, `Step` and the server class model the program as written; `ChatStepIntended` is the corrected handler. `PromptAsWrittenKeepsTriggerTail` shows the cut itself, and `TriggerIsCutExactly` shows the corrected cut removes exactly the trigger. | medium; not executed | ChatRoomFacts.TriggerTailIsAskedAsWritten | ChatRoomFacts.IntendedStepAsksAboutTriggerTail |

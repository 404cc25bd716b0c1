/**
 * The WebSocket chat server of server.js as an object whose fields the
 * handlers update in place: the history array, the two room globals, the
 * registry of sockets with their `userData`, and the log of sends.  Each
 * handler is proved to have exactly the effect that ChatRoom gives the
 * corresponding event.
 */
module WsServer {
  import opened Options
  import opened JsText
  import opened ChatRoom
  import opened ChatRoomFacts

  class ChatServer {
    var history: seq<ChatMsg>
    var theme: string
    var title: string
    var clients: seq<Session>
    var outbox: seq<Delivery>
    /** Every record pushed onto the history since start-up or the last clear, oldest first. */
    ghost var pushed: seq<ChatMsg>

    /** The history is the newest 50 records pushed since the last clear, in push order, and no socket is registered twice. */
    ghost predicate Valid()
      reads this
    {
      WellFormed(State()) && history == Newest(pushed, HISTORY_LIMIT)
    }

    function State(): Room
      reads this
    {
      Room(history, theme, title, clients, outbox)
    }

    constructor ()
      ensures Valid() && State() == InitialRoom() && pushed == []
    {
      history, theme, title := [], DEFAULT_THEME, DEFAULT_TITLE;
      clients, outbox := [], [];
      pushed := [];
    }

    /** `broadcast`: walk the registry and send to each OPEN socket. */
    method Broadcast(e: Envelope)
      modifies this`outbox
      ensures outbox == old(outbox) + Fanout(clients, e)
    {
      var i := 0;
      while i < |clients|
        invariant 0 <= i <= |clients|
        invariant outbox == old(outbox) + Fanout(clients[..i], e)
      {
        assert clients[..i + 1][..i] == clients[..i];
        if clients[i].open {
          outbox := outbox + [Delivery(clients[i].id, e)];
        }
        i := i + 1;
      }
      assert clients[..|clients|] == clients;
    }

    /** `ws.send` on the socket at index `s`. */
    method Send(s: nat, e: Envelope)
      requires s < |clients|
      modifies this`outbox
      ensures outbox == old(outbox) + [Delivery(clients[s].id, e)]
    {
      outbox := outbox + [Delivery(clients[s].id, e)];
    }

    /** `chatHistory.push(m)`, then one `shift()` if the history has grown past the limit. */
    method PushHistory(m: ChatMsg)
      requires Valid()
      modifies this`history, this`pushed
      ensures Valid()
      ensures history == PushCapped(old(history), m) && pushed == old(pushed) + [m]
    {
      history := history + [m];
      if |history| > HISTORY_LIMIT {
        history := history[1..];
      }
      NewestOfPush(pushed, m, HISTORY_LIMIT);
      pushed := pushed + [m];
    }

    /** The `forEach` of `handleDM`: every OPEN socket with the name overwrites the candidate, so the last one wins. */
    method FindTarget(name: string) returns (target: Option<nat>)
      ensures target == LastOpenNamed(clients, name)
    {
      target := None;
      for i := 0 to |clients|
        invariant target == LastOpenNamed(clients[..i], name)
      {
        assert clients[..i + 1][..i] == clients[..i];
        if clients[i].open && clients[i].username == name {
          target := Some(i);
        }
      }
      assert clients[..|clients|] == clients;
    }

    /** The `connection` handler; the socket is registered before it runs. */
    method Connect(id: ClientId, port: nat, color: string, ip: string)
      requires Valid() && FreshId(clients, id)
      modifies this`clients, this`outbox
      ensures Valid()
      ensures State() == ConnectStep(old(State()), id, port, color, ip)
    {
      ghost var r := State();
      var me := Session(id, Decimal(port), color, ip, false, true);
      clients := clients + [me];
      outbox := outbox + [Delivery(id, History(history)), Delivery(id, Theme(theme)), Delivery(id, Title(title))];
      Broadcast(System(JoinNotice(me.username)));
      outbox := outbox + [Delivery(id, Init(me.username, me.color))];
      ConnectKeepsWellFormed(r, id, port, color, ip);
    }

    /** The transport of socket `s` starts closing: `readyState` is no longer OPEN. */
    method Closing(s: nat)
      requires Valid() && s < |clients|
      modifies this`clients
      ensures Valid()
      ensures State() == ClosingStep(old(State()), s)
    {
      ghost var r := State();
      clients := clients[s := clients[s].(open := false)];
      CloseKeepsWellFormed(r, s);
    }

    /** The `close` handler; the socket has already been taken out of the registry. */
    method Disconnect(s: nat)
      requires Valid() && s < |clients|
      modifies this`clients, this`outbox
      ensures Valid()
      ensures State() == DisconnectStep(old(State()), s)
    {
      ghost var r := State();
      var name := clients[s].username;
      clients := clients[..s] + clients[s + 1..];
      Broadcast(System(LeftNotice(name)));
      CloseKeepsWellFormed(r, s);
    }

    /** The `message` handler: the if-chain on the envelope type, for one envelope from the socket at index `s`. */
    method HandleMessage(s: nat, m: Inbound, io: Inputs)
      requires Valid() && s < |clients|
      modifies this
      ensures Valid()
      ensures State() == Step(old(State()), s, m, io)
      ensures if m.ClearChat? && old(clients[s].isAdmin) then pushed == [] else pushed == old(pushed) + Stored(old(State()), s, m, io)
    {
      if m.Chat? {
        OnChat(s, m.content, io);
      } else if m.UpdateName? {
        OnUpdateName(s, m.content);
      } else if m.UpdateColor? {
        OnUpdateColor(s, m.content);
      } else if m.Ping? {
        Send(s, Pong(m.startTime));
      } else if m.DirectMessage? {
        OnDirectMessage(s, m.target, m.content);
      } else if m.Tdtu? {
        OnTdtu(s);
      } else if m.AdminLogin? {
        OnAdminLogin(s);
      } else if m.SetRainbow? {
        if clients[s].isAdmin { OnSetRainbow(s); } else { Send(s, System(DENIED)); }
      } else if m.ChangeTheme? {
        if clients[s].isAdmin { OnChangeTheme(m.theme); } else { Send(s, System(DENIED)); }
      } else if m.ChangeTitle? {
        if clients[s].isAdmin { OnChangeTitle(m.title); } else { Send(s, System(DENIED)); }
      } else if m.ClearChat? {
        if clients[s].isAdmin { OnClearChat(); } else { Send(s, System(DENIED)); }
      }
    }

    /** The `message` branch: store and broadcast the sender's record, then answer the AI trigger. */
    method OnChat(s: nat, content: string, io: Inputs)
      requires Valid() && s < |clients|
      modifies this`history, this`pushed, this`outbox
      ensures Valid()
      ensures State() == ChatStep(old(State()), s, content, io)
      ensures pushed == old(pushed) + ChatRecords(old(clients[s]), content, io)
    {
      ghost var r := State();
      ghost var p := pushed;
      var msg := UserRecord(clients[s], content, io.now);
      PushHistory(msg);
      Broadcast(Message(msg));
      ghost var r1 := State();
      assert r1 == r.(history := PushCapped(r.history, msg), outbox := r.outbox + Fanout(r.clients, Message(msg)));
      var lowerMsg := Trim(ToLowerAscii(content));
      if StartsWith(lowerMsg, AI_TRIGGER) {
        var prompt := Trim(Drop(content, |AI_TRIGGER|));
        assert prompt == PromptAsWritten(content);
        if |prompt| > 0 {
          var ai := AiRecord(io.aiReply, io.aiNow);
          PushHistory(ai);
          Broadcast(Message(ai));
          assert State() == r1.(history := PushCapped(r1.history, ai), outbox := r1.outbox + Fanout(r1.clients, Message(ai)));
          assert pushed == p + [msg, ai];
        } else {
          Broadcast(Message(AiRecord(AI_IDLE_REPLY, io.aiNow)));
          assert pushed == p + [msg];
        }
      } else {
        assert pushed == p + [msg];
      }
      assert State() == ChatStep(r, s, content, io);
      ChatKeepsWellFormed(r, s, content, io);
    }

    /** The `update_name` branch. */
    method OnUpdateName(s: nat, content: string)
      requires Valid() && s < |clients|
      modifies this`clients, this`outbox
      ensures Valid()
      ensures State() == RenameStep(old(State()), s, content)
    {
      ghost var r := State();
      var oldName := clients[s].username;
      var newName := RequestedName(content);
      if newName != [] && newName != oldName {
        var me := clients[s].(username := newName);
        UniqueIdsUpdate(clients, s, me);
        clients := clients[s := me];
        Broadcast(System(RenamedNotice(oldName, newName)));
        assert State() == RenameStep(r, s, content);
      } else {
        assert State() == r;
      }
    }

    /** The `update_color` branch. */
    method OnUpdateColor(s: nat, color: string)
      requires Valid() && s < |clients|
      modifies this`clients
      ensures Valid()
      ensures State() == UpdateColorStep(old(State()), s, color)
    {
      UniqueIdsUpdate(clients, s, clients[s].(color := color));
      clients := clients[s := clients[s].(color := color)];
    }

    /** `handleDM`: two identical `dm` sends, to the target and back to the sender, or one not-found notice. */
    method OnDirectMessage(s: nat, targetName: string, content: string)
      requires s < |clients|
      modifies this`outbox
      ensures State() == DmStep(old(State()), s, targetName, content)
    {
      var target := FindTarget(targetName);
      match target
      case Some(k) =>
        var dm := Dm(clients[s].username, targetName, clients[s].color, content);
        Send(k, dm);
        Send(s, dm);
      case None =>
        Send(s, System(NotFoundNotice(targetName)));
    }

    /** `handleTDTU`: the banner under the sender's name and colour, stored and broadcast. */
    method OnTdtu(s: nat)
      requires Valid() && s < |clients|
      modifies this`history, this`pushed, this`outbox
      ensures Valid()
      ensures State() == TdtuStep(old(State()), s)
      ensures pushed == old(pushed) + [BannerRecord(old(clients[s]))]
    {
      var msg := BannerRecord(clients[s]);
      PushHistory(msg);
      Broadcast(Message(msg));
    }

    /** The `admin_login` branch. */
    method OnAdminLogin(s: nat)
      requires Valid() && s < |clients|
      modifies this`clients, this`outbox
      ensures Valid()
      ensures State() == AdminLoginStep(old(State()), s)
    {
      UniqueIdsUpdate(clients, s, clients[s].(isAdmin := true));
      clients := clients[s := clients[s].(isAdmin := true)];
      Send(s, AdminGranted);
      Send(s, System(GRANTED));
    }

    /** The granted half of `set_rainbow`. */
    method OnSetRainbow(s: nat)
      requires Valid() && s < |clients|
      modifies this`clients, this`outbox
      ensures Valid()
      ensures State() == RainbowStep(old(State()), s)
    {
      UniqueIdsUpdate(clients, s, clients[s].(color := RAINBOW));
      clients := clients[s := clients[s].(color := RAINBOW)];
      Send(s, System(RAINBOW_ON));
    }

    /** The granted half of `change_theme`. */
    method OnChangeTheme(t: string)
      requires Valid()
      modifies this`theme, this`outbox
      ensures Valid()
      ensures State() == ChangeThemeStep(old(State()), t)
    {
      theme := t;
      Broadcast(Theme(theme));
      Broadcast(System(ThemeNotice(theme)));
    }

    /** The granted half of `change_title`. */
    method OnChangeTitle(t: string)
      requires Valid()
      modifies this`title, this`outbox
      ensures Valid()
      ensures State() == ChangeTitleStep(old(State()), t)
    {
      title := t;
      Broadcast(Title(title));
      Broadcast(System(TitleNotice(title)));
    }

    /** The granted half of `clear_chat`: `chatHistory.length = 0`, then two broadcasts. */
    method OnClearChat()
      requires Valid()
      modifies this`history, this`pushed, this`outbox
      ensures Valid()
      ensures State() == ClearChatStep(old(State()))
      ensures pushed == []
    {
      history := [];
      pushed := [];
      Broadcast(ClearHistory);
      Broadcast(System(CLEARED));
    }
  }
}

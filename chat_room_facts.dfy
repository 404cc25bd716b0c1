/**
 * What the chat room promises, proved about the event functions of ChatRoom:
 * the history bound, the fan-out rules, the admin gate, direct messages,
 * renames, and the join and leave notices.
 */
module ChatRoomFacts {
  import opened Options
  import opened JsText
  import opened ChatRoom

  /** The invariant every reachable room keeps. */
  ghost predicate WellFormed(r: Room) {
    |r.history| <= HISTORY_LIMIT && UniqueIds(r.clients)
  }

  // ---------------------------------------------------------------- history

  /** Capping after every push keeps exactly the newest entries of everything pushed. */
  lemma NewestOfPush<T>(s: seq<T>, m: T, n: nat)
    requires n > 0
    ensures Newest(Newest(s, n) + [m], n) == Newest(s + [m], n)
  {
    if |s| > n {
      assert Newest(s, n) + [m] == (s + [m])[|s| - n..];
      assert (s + [m])[|s| - n..][1..] == (s + [m])[|s| + 1 - n..];
    }
  }

  // ---------------------------------------------------------------- fan-out

  /** `broadcast` reaches each OPEN registered socket exactly once, and no other socket. */
  lemma {:induction false} FanoutExactlyOpen(cs: seq<Session>, e: Envelope, id: ClientId)
    requires UniqueIds(cs)
    ensures multiset(Fanout(cs, e))[Delivery(id, e)] == if OpenIn(cs, id) then 1 else 0
  {
    if cs != [] {
      var p := cs[..|cs| - 1];
      var last := cs[|cs| - 1];
      assert UniqueIds(p);
      FanoutExactlyOpen(p, e, id);
      assert OpenIn(p, id) ==> OpenIn(cs, id) by {
        if OpenIn(p, id) {
          var k :| 0 <= k < |p| && p[k].id == id && p[k].open;
          assert cs[k] == p[k];
        }
      }
      if last.id == id {
        forall k | 0 <= k < |p| ensures p[k].id != id {
          assert p[k] == cs[k];
        }
        assert OpenIn(cs, id) <==> last.open;
      } else {
        assert OpenIn(cs, id) ==> OpenIn(p, id) by {
          if OpenIn(cs, id) {
            var k :| 0 <= k < |cs| && cs[k].id == id && cs[k].open;
            assert k < |cs| - 1;
            assert p[k] == cs[k];
          }
        }
      }
    }
  }

  /** `broadcast` looks only at which sockets are registered and OPEN, in order; names and colours do not matter. */
  lemma {:induction false} FanoutIgnoresProfile(cs: seq<Session>, s: nat, c: Session, e: Envelope)
    requires s < |cs| && c.id == cs[s].id && c.open == cs[s].open
    ensures Fanout(cs[s := c], e) == Fanout(cs, e)
  {
    var cs' := cs[s := c];
    if s < |cs| - 1 {
      assert cs'[..|cs'| - 1] == cs[..|cs| - 1][s := c];
      FanoutIgnoresProfile(cs[..|cs| - 1], s, c, e);
    } else {
      assert cs'[..|cs'| - 1] == cs[..|cs| - 1];
    }
  }

  lemma UniqueIdsUpdate(cs: seq<Session>, s: nat, c: Session)
    requires UniqueIds(cs) && s < |cs| && c.id == cs[s].id
    ensures UniqueIds(cs[s := c])
  {
    var cs' := cs[s := c];
    forall i, j | 0 <= i < j < |cs'| ensures cs'[i].id != cs'[j].id {
      assert cs'[i].id == cs[i].id && cs'[j].id == cs[j].id;
    }
  }

  lemma UniqueIdsRemove(cs: seq<Session>, s: nat)
    requires UniqueIds(cs) && s < |cs|
    ensures UniqueIds(cs[..s] + cs[s + 1..])
    ensures FreshId(cs[..s] + cs[s + 1..], cs[s].id)
  {
    var cs' := cs[..s] + cs[s + 1..];
    forall i | 0 <= i < |cs'| ensures cs'[i] == cs[if i < s then i else i + 1] {
    }
  }

  // ---------------------------------------------------------------- invariant

  /** A chat message adds at most two records to the capped history and leaves the registry alone. */
  lemma ChatKeepsWellFormed(r: Room, s: nat, content: string, io: Inputs)
    requires WellFormed(r) && s < |r.clients|
    ensures WellFormed(ChatStep(r, s, content, io))
    ensures ChatStep(r, s, content, io).clients == r.clients
  {
    var msg := UserRecord(r.clients[s], content, io.now);
    var r1 := r.(history := PushCapped(r.history, msg), outbox := r.outbox + Fanout(r.clients, Message(msg)));
    assert WellFormed(r1);
    if !IsAiTrigger(content) {
      assert ChatStep(r, s, content, io) == r1;
    } else if |PromptAsWritten(content)| > 0 {
      var ai := AiRecord(io.aiReply, io.aiNow);
      assert ChatStep(r, s, content, io) == r1.(history := PushCapped(r1.history, ai), outbox := r1.outbox + Fanout(r1.clients, Message(ai)));
    } else {
      assert ChatStep(r, s, content, io).history == r1.history;
    }
  }

  /** Every inbound envelope keeps the history within 50 entries and the registry free of duplicates. */
  lemma StepKeepsWellFormed(r: Room, s: nat, m: Inbound, io: Inputs)
    requires WellFormed(r) && s < |r.clients|
    ensures WellFormed(Step(r, s, m, io))
  {
    var me := r.clients[s];
    match m
    case Chat(content) =>
      ChatKeepsWellFormed(r, s, content, io);
    case UpdateName(content) =>
      UniqueIdsUpdate(r.clients, s, me.(username := RequestedName(content)));
    case UpdateColor(color) =>
      UniqueIdsUpdate(r.clients, s, me.(color := color));
    case Ping(t) =>
      assert Step(r, s, m, io) == Reply(r, s, Pong(t));
    case DirectMessage(target, content) =>
      assert Step(r, s, m, io).clients == r.clients;
    case Tdtu =>
      assert Step(r, s, m, io) == TdtuStep(r, s);
    case AdminLogin =>
      UniqueIdsUpdate(r.clients, s, me.(isAdmin := true));
    case SetRainbow =>
      UniqueIdsUpdate(r.clients, s, me.(color := RAINBOW));
    case ChangeTheme(t) =>
      assert Step(r, s, m, io).clients == r.clients;
    case ChangeTitle(t) =>
      assert Step(r, s, m, io).clients == r.clients;
    case ClearChat =>
      assert Step(r, s, m, io).clients == r.clients;
    case Unrecognised =>
  }

  /** Connecting a socket with a fresh identity keeps the invariant. */
  lemma ConnectKeepsWellFormed(r: Room, id: ClientId, port: nat, color: string, ip: string)
    requires WellFormed(r) && FreshId(r.clients, id)
    ensures WellFormed(ConnectStep(r, id, port, color, ip))
  {
  }

  /** A socket that starts closing, or leaves, keeps the invariant. */
  lemma CloseKeepsWellFormed(r: Room, s: nat)
    requires WellFormed(r) && s < |r.clients|
    ensures WellFormed(ClosingStep(r, s))
    ensures WellFormed(DisconnectStep(r, s))
  {
    UniqueIdsUpdate(r.clients, s, r.clients[s].(open := false));
    UniqueIdsRemove(r.clients, s);
  }

  /**
   * Every envelope leaves the history as the newest 50 of the old history
   * followed by the records it stores, except an admin's `clear_chat`, which
   * empties it.
   */
  lemma StepHistoryIsNewestStored(r: Room, s: nat, m: Inbound, io: Inputs)
    requires |r.history| <= HISTORY_LIMIT && s < |r.clients|
    ensures Step(r, s, m, io).history
            == if m.ClearChat? && r.clients[s].isAdmin then [] else Newest(r.history + Stored(r, s, m, io), HISTORY_LIMIT)
  {
    var h := r.history;
    match m
    case Chat(content) =>
      ChatHistoryIsNewestStored(r, s, content, io);
      assert Step(r, s, m, io) == ChatStep(r, s, content, io);
    case Tdtu =>
      assert Step(r, s, m, io).history == PushCapped(h, BannerRecord(r.clients[s]));
    case ClearChat =>
      assert h + [] == h;
    case _ =>
      assert h + [] == h;
      assert Step(r, s, m, io).history == h;
  }

  lemma ChatHistoryIsNewestStored(r: Room, s: nat, content: string, io: Inputs)
    requires |r.history| <= HISTORY_LIMIT && s < |r.clients|
    ensures ChatStep(r, s, content, io).history == Newest(r.history + ChatRecords(r.clients[s], content, io), HISTORY_LIMIT)
  {
    var h := r.history;
    var msg := UserRecord(r.clients[s], content, io.now);
    if IsAiTrigger(content) && |PromptAsWritten(content)| > 0 {
      var ai := AiRecord(io.aiReply, io.aiNow);
      NewestOfPush(h + [msg], ai, HISTORY_LIMIT);
      assert h + [msg, ai] == h + [msg] + [ai];
      assert ChatStep(r, s, content, io).history == PushCapped(PushCapped(h, msg), ai);
    } else {
      assert ChatStep(r, s, content, io).history == PushCapped(h, msg);
    }
  }

  // ---------------------------------------------------------------- chat messages

  /**
   * A chat message without the trigger: the sender's record (current name and
   * colour) becomes the newest history entry, and every OPEN socket, the sender
   * included, is sent that record exactly once; nothing else changes.
   */
  lemma ChatMessageReachesEveryOpenClient(r: Room, s: nat, content: string, io: Inputs, id: ClientId)
    requires UniqueIds(r.clients) && s < |r.clients| && !IsAiTrigger(content)
    ensures var r' := Step(r, s, Chat(content), io);
            var msg := UserRecord(r.clients[s], content, io.now);
            && r'.clients == r.clients && r'.theme == r.theme && r'.title == r.title
            && r'.history == PushCapped(r.history, msg)
            && r'.history[|r'.history| - 1] == msg
            && |r'.outbox| >= |r.outbox| && r'.outbox[..|r.outbox|] == r.outbox
            && (forall k :: |r.outbox| <= k < |r'.outbox| ==> r'.outbox[k].env == Message(msg))
            && multiset(r'.outbox[|r.outbox|..])[Delivery(id, Message(msg))] == (if OpenIn(r.clients, id) then 1 else 0)
  {
    var msg := UserRecord(r.clients[s], content, io.now);
    var r' := Step(r, s, Chat(content), io);
    assert r'.outbox[|r.outbox|..] == Fanout(r.clients, Message(msg));
    FanoutExactlyOpen(r.clients, Message(msg), id);
  }

  /**
   * The trigger with a question: after the sender's record, the AI's reply
   * record (fixed name and colour) is stored too and broadcast to the same
   * OPEN sockets.
   */
  lemma AiAnswerIsStoredAndBroadcast(r: Room, s: nat, content: string, io: Inputs)
    requires s < |r.clients| && IsAiTrigger(content) && |PromptAsWritten(content)| > 0
    ensures var r' := Step(r, s, Chat(content), io);
            var msg := UserRecord(r.clients[s], content, io.now);
            var ai := ChatMsg(AI_NAME, AI_COLOR, io.aiReply, Some(io.aiNow));
            && r'.history == PushCapped(PushCapped(r.history, msg), ai)
            && r'.history[|r'.history| - 1] == ai
            && r'.outbox == r.outbox + Fanout(r.clients, Message(msg)) + Fanout(r.clients, Message(ai))
            && r'.clients == r.clients && r'.theme == r.theme && r'.title == r.title
  {
  }

  /** The trigger alone: the fixed reply is broadcast but not stored. */
  lemma AiIdleReplyIsNotStored(r: Room, s: nat, content: string, io: Inputs)
    requires s < |r.clients| && IsAiTrigger(content) && |PromptAsWritten(content)| == 0
    ensures var r' := Step(r, s, Chat(content), io);
            var msg := UserRecord(r.clients[s], content, io.now);
            && r'.history == PushCapped(r.history, msg)
            && r'.outbox == r.outbox + Fanout(r.clients, Message(msg))
                            + Fanout(r.clients, Message(ChatMsg(AI_NAME, AI_COLOR, AI_IDLE_REPLY, Some(io.aiNow))))
            && r'.clients == r.clients && r'.theme == r.theme && r'.title == r.title
  {
  }

  /** The question handed to the AI service is what follows the trigger, with the trigger matched case-insensitively. */
  lemma TriggerIsCutExactly(content: string)
    requires IsAiTrigger(content)
    ensures |TrimStart(content)| >= |AI_TRIGGER|
    ensures ToLowerAscii(TrimStart(content)[..|AI_TRIGGER|]) == AI_TRIGGER
    ensures Prompt(content) == Trim(TrimStart(content)[|AI_TRIGGER|..])
  {
    var n := |AI_TRIGGER|;
    var t := TrimStart(content);
    var lt := ToLowerAscii(t);
    TrimStartOfLower(content);
    var e := TrimEnd(lt);
    TrimEndIsPrefix(lt);
    assert e == Trim(ToLowerAscii(content));
    PrefixOfPrefix(e, lt, n);
    LowerOfPrefix(t, n);
  }

  /** When the content does not start with whitespace the two ways of cutting the question agree. */
  lemma PromptAgreesWithoutLeadingWhitespace(content: string)
    requires content == [] || !IsJsWhitespace(content[0])
    ensures Prompt(content) == PromptAsWritten(content)
  {
  }

  /** One leading space is enough for server.js to pass a fragment of the trigger itself to the AI service. */
  lemma PromptAsWrittenKeepsTriggerTail()
    ensures IsAiTrigger(" hey huybeo")
    ensures PromptAsWritten(" hey huybeo") == "o"
    ensures Prompt(" hey huybeo") == ""
  {
    SpacedTriggerPasses();
    SpacedTriggerCuts();
  }

  lemma SpacedTriggerPasses()
    ensures IsAiTrigger(" hey huybeo")
  {
    var c := " hey huybeo";
    var b := "hey huybeo";
    assert forall k :: 0 <= k < |c| ==> !('A' <= c[k] <= 'Z');
    LowerOfLowerCase(c);
    assert c[1..] == b && !IsJsWhitespace(b[0]);
    assert TrimStart(c) == b;
    assert !IsJsWhitespace(b[|b| - 1]);
    assert TrimEnd(b) == b;
  }

  lemma SpacedTriggerCuts()
    ensures PromptAsWritten(" hey huybeo") == "o"
    ensures Prompt(" hey huybeo") == ""
  {
    var c := " hey huybeo";
    var b := "hey huybeo";
    assert c[1..] == b && !IsJsWhitespace(b[0]);
    assert TrimStart(c) == b;
    assert Drop(c, 10) == "o";
    assert !IsJsWhitespace('o');
    assert TrimStart("o") == "o" && TrimEnd("o") == "o";
  }

  /**
   * For " hey huybeo" server.js asks the AI service about "o" and stores its
   * answer, where cutting the trigger where the test found it leaves no
   * question and only the fixed reply is broadcast.
   */
  lemma TriggerTailIsAskedAsWritten(r: Room, s: nat, io: Inputs)
    requires s < |r.clients|
    ensures var msg := UserRecord(r.clients[s], " hey huybeo", io.now);
            && Step(r, s, Chat(" hey huybeo"), io).history == PushCapped(PushCapped(r.history, msg), AiRecord(io.aiReply, io.aiNow))
            && ChatStepIntended(r, s, " hey huybeo", io).history == PushCapped(r.history, msg)
  {
    PromptAsWrittenKeepsTriggerTail();
  }

  /**
   * With the question cut after the trigger, the AI service is asked exactly
   * when something other than whitespace follows the trigger: its answer is
   * then stored and broadcast after the sender's record; otherwise only the
   * fixed reply is broadcast.
   */
  lemma IntendedStepAsksAboutTriggerTail(r: Room, s: nat, content: string, io: Inputs)
    requires s < |r.clients| && IsAiTrigger(content)
    ensures |TrimStart(content)| >= |AI_TRIGGER|
    ensures var r' := ChatStepIntended(r, s, content, io);
            var msg := UserRecord(r.clients[s], content, io.now);
            var ai := AiRecord(io.aiReply, io.aiNow);
            var tail := Trim(TrimStart(content)[|AI_TRIGGER|..]);
            && r'.clients == r.clients && r'.theme == r.theme && r'.title == r.title
            && (tail != [] ==>
                  && r'.history == PushCapped(PushCapped(r.history, msg), ai)
                  && r'.outbox == r.outbox + Fanout(r.clients, Message(msg)) + Fanout(r.clients, Message(ai)))
            && (tail == [] ==>
                  && r'.history == PushCapped(r.history, msg)
                  && r'.outbox == r.outbox + Fanout(r.clients, Message(msg))
                                  + Fanout(r.clients, Message(AiRecord(AI_IDLE_REPLY, io.aiNow))))
  {
    TriggerIsCutExactly(content);
  }

  /** The corrected handler differs from server.js only on content that starts with whitespace. */
  lemma IntendedAgreesWithoutLeadingWhitespace(r: Room, s: nat, content: string, io: Inputs)
    requires s < |r.clients| && (content == [] || !IsJsWhitespace(content[0]))
    ensures ChatStepIntended(r, s, content, io) == Step(r, s, Chat(content), io)
  {
    PromptAgreesWithoutLeadingWhitespace(content);
  }

  // ---------------------------------------------------------------- rename

  /**
   * `update_name` renames the sender to the trimmed, 20-character-capped request
   * exactly when that is non-empty and differs from the current name, and then
   * sends one rename notice to each OPEN socket; otherwise nothing happens.
   */
  lemma RenameEffect(r: Room, s: nat, content: string, io: Inputs)
    requires s < |r.clients|
    ensures var r' := Step(r, s, UpdateName(content), io);
            var oldName := r.clients[s].username;
            var newName := RequestedName(content);
            && r'.history == r.history && r'.theme == r.theme && r'.title == r.title
            && |newName| <= MAX_NAME_LENGTH
            && (r' == r <==> newName == [] || newName == oldName)
            && (newName != [] && newName != oldName ==>
                  && r'.clients == r.clients[s := r.clients[s].(username := newName)]
                  && r'.outbox == r.outbox + Fanout(r.clients, System(RenamedNotice(oldName, newName))))
  {
    var oldName := r.clients[s].username;
    var newName := RequestedName(content);
    if newName != [] && newName != oldName {
      var c := r.clients[s].(username := newName);
      FanoutIgnoresProfile(r.clients, s, c, System(RenamedNotice(oldName, newName)));
      var r' := Step(r, s, UpdateName(content), io);
      assert r'.clients[s].username != r.clients[s].username;
    }
  }

  // ---------------------------------------------------------------- admin gate

  ghost predicate AdminOnly(m: Inbound) {
    m.SetRainbow? || m.ChangeTheme? || m.ChangeTitle? || m.ClearChat?
  }

  /** Without the admin flag, each admin-only command sends one "Permission Denied" notice to the sender and changes nothing else. */
  lemma NonAdminDenied(r: Room, s: nat, m: Inbound, io: Inputs)
    requires s < |r.clients| && !r.clients[s].isAdmin && AdminOnly(m)
    ensures var r' := Step(r, s, m, io);
            && r'.history == r.history && r'.theme == r.theme && r'.title == r.title && r'.clients == r.clients
            && r'.outbox == r.outbox + [Delivery(r.clients[s].id, System(DENIED))]
  {
  }

  /** With the admin flag, the room commands take effect and are announced to every OPEN socket, value first and notice second. */
  lemma AdminCommandsTakeEffect(r: Room, s: nat, t: string, io: Inputs)
    requires s < |r.clients| && r.clients[s].isAdmin
    ensures var r' := Step(r, s, ChangeTheme(t), io);
            && r'.theme == t && r'.title == r.title && r'.history == r.history && r'.clients == r.clients
            && r'.outbox == r.outbox + Fanout(r.clients, Theme(t)) + Fanout(r.clients, System(ThemeNotice(t)))
    ensures var r' := Step(r, s, ChangeTitle(t), io);
            && r'.title == t && r'.theme == r.theme && r'.history == r.history && r'.clients == r.clients
            && r'.outbox == r.outbox + Fanout(r.clients, Title(t)) + Fanout(r.clients, System(TitleNotice(t)))
    ensures var r' := Step(r, s, ClearChat, io);
            && r'.history == [] && r'.theme == r.theme && r'.title == r.title && r'.clients == r.clients
            && r'.outbox == r.outbox + Fanout(r.clients, ClearHistory) + Fanout(r.clients, System(CLEARED))
    ensures var r' := Step(r, s, SetRainbow, io);
            && r'.clients == r.clients[s := r.clients[s].(color := RAINBOW)]
            && r'.history == r.history && r'.theme == r.theme && r'.title == r.title
            && r'.outbox == r.outbox + [Delivery(r.clients[s].id, System(RAINBOW_ON))]
  {
    assert Step(r, s, ChangeTheme(t), io) == ChangeThemeStep(r, t);
    assert Step(r, s, ChangeTitle(t), io) == ChangeTitleStep(r, t);
    assert Step(r, s, ClearChat, io) == ClearChatStep(r);
    assert Step(r, s, SetRainbow, io) == RainbowStep(r, s);
  }

  /** `admin_login` needs nothing, sets only the sender's flag, answers only the sender, and a second one changes no session. */
  lemma AdminLoginIdempotent(r: Room, s: nat, io: Inputs)
    requires s < |r.clients|
    ensures var r1 := Step(r, s, AdminLogin, io);
            && r1.clients == r.clients[s := r.clients[s].(isAdmin := true)]
            && r1.history == r.history && r1.theme == r.theme && r1.title == r.title
            && r1.outbox == r.outbox + [Delivery(r.clients[s].id, AdminGranted), Delivery(r.clients[s].id, System(GRANTED))]
            && Step(r1, s, AdminLogin, io).clients == r1.clients
  {
  }

  // ---------------------------------------------------------------- quiet kinds

  /** `ping`, `update_color` and unrecognised envelopes touch no room value, and at most answer the sender. */
  lemma QuietKinds(r: Room, s: nat, t: int, color: string, io: Inputs)
    requires s < |r.clients|
    ensures Step(r, s, Ping(t), io) == r.(outbox := r.outbox + [Delivery(r.clients[s].id, Pong(t))])
    ensures Step(r, s, UpdateColor(color), io) == r.(clients := r.clients[s := r.clients[s].(color := color)])
    ensures Step(r, s, Unrecognised, io) == r
  {
  }

  // ---------------------------------------------------------------- direct messages

  /**
   * A `dm` to a name some OPEN socket carries goes, as one identical record,
   * first to the last such socket and then back to the sender; to any other
   * name it produces one not-found notice for the sender alone.  The room
   * itself never changes.
   */
  lemma DirectMessageDelivery(r: Room, s: nat, target: string, content: string, io: Inputs)
    requires s < |r.clients|
    ensures var r' := Step(r, s, DirectMessage(target, content), io);
            var me := r.clients[s];
            && r'.history == r.history && r'.theme == r.theme && r'.title == r.title && r'.clients == r.clients
            && ((exists k :: 0 <= k < |r.clients| && Addressable(r.clients[k], target)) ==>
                  exists k ::
                    && 0 <= k < |r.clients| && Addressable(r.clients[k], target)
                    && (forall j :: k < j < |r.clients| ==> !Addressable(r.clients[j], target))
                    && r'.outbox == r.outbox + [Delivery(r.clients[k].id, Dm(me.username, target, me.color, content)),
                                                Delivery(me.id, Dm(me.username, target, me.color, content))])
            && ((forall k :: 0 <= k < |r.clients| ==> !Addressable(r.clients[k], target)) ==>
                  r'.outbox == r.outbox + [Delivery(me.id, System(NotFoundNotice(target)))])
  {
    match LastOpenNamed(r.clients, target)
    case Some(k) =>
    case None =>
  }

  // ---------------------------------------------------------------- tdtu

  /** The banner is stored and broadcast under the sender's current name and colour. */
  lemma TdtuIsStoredAndBroadcast(r: Room, s: nat, io: Inputs)
    requires s < |r.clients|
    ensures var r' := Step(r, s, Tdtu, io);
            var msg := ChatMsg(r.clients[s].username, r.clients[s].color, TDTU_BANNER, None);
            && r'.history == PushCapped(r.history, msg)
            && r'.outbox == r.outbox + Fanout(r.clients, Message(msg))
            && r'.clients == r.clients && r'.theme == r.theme && r'.title == r.title
  {
  }

  // ---------------------------------------------------------------- connect and close

  /**
   * A new socket, named after its remote port, first receives the current
   * history, theme and title, then the join notice (which every OPEN socket,
   * itself included, receives exactly once), and last its own name and colour.
   */
  lemma ConnectSnapshotAndJoin(r: Room, id: ClientId, port: nat, color: string, ip: string, other: ClientId)
    requires UniqueIds(r.clients) && FreshId(r.clients, id)
    ensures var r' := ConnectStep(r, id, port, color, ip);
            var name := Decimal(port);
            var join := System(JoinNotice(name));
            && r'.clients == r.clients + [Session(id, name, color, ip, false, true)]
            && DecimalValue(name) == port
            && r'.outbox[..|r.outbox| + 3]
               == r.outbox + [Delivery(id, History(r.history)), Delivery(id, Theme(r.theme)), Delivery(id, Title(r.title))]
            && r'.outbox[|r'.outbox| - 1] == Delivery(id, Init(name, color))
            && multiset(r'.outbox[|r.outbox| + 3..|r'.outbox| - 1])[Delivery(other, join)]
               == (if other == id || OpenIn(r.clients, other) then 1 else 0)
            && r'.history == r.history && r'.theme == r.theme && r'.title == r.title
  {
    var c := NewSession(id, port, color, ip);
    var cs := r.clients + [c];
    var join := System(JoinNotice(c.username));
    var r' := ConnectStep(r, id, port, color, ip);
    DecimalRoundTrip(port);
    assert UniqueIds(cs);
    FanoutExactlyOpen(cs, join, other);
    assert r'.outbox[|r.outbox| + 3..|r'.outbox| - 1] == Fanout(cs, join);
    assert OpenIn(cs, other) <==> other == id || OpenIn(r.clients, other) by {
      if OpenIn(r.clients, other) {
        var k :| 0 <= k < |r.clients| && r.clients[k].id == other && r.clients[k].open;
        assert cs[k] == r.clients[k];
      }
      if other == id {
        assert cs[|cs| - 1].id == other && cs[|cs| - 1].open;
      }
      if OpenIn(cs, other) && other != id {
        var k :| 0 <= k < |cs| && cs[k].id == other && cs[k].open;
        assert k < |r.clients| && cs[k] == r.clients[k];
      }
    }
  }

  /** A leaving socket is out of the registry and never gets its own leave notice; every remaining OPEN socket gets it once. */
  lemma DisconnectNotice(r: Room, s: nat, other: ClientId)
    requires UniqueIds(r.clients) && s < |r.clients|
    ensures var r' := DisconnectStep(r, s);
            var bye := System(LeftNotice(r.clients[s].username));
            && r'.clients == r.clients[..s] + r.clients[s + 1..]
            && FreshId(r'.clients, r.clients[s].id)
            && r'.outbox[..|r.outbox|] == r.outbox
            && multiset(r'.outbox[|r.outbox|..])[Delivery(other, bye)] == (if OpenIn(r'.clients, other) then 1 else 0)
            && multiset(r'.outbox[|r.outbox|..])[Delivery(r.clients[s].id, bye)] == 0
            && r'.history == r.history && r'.theme == r.theme && r'.title == r.title
  {
    var r' := DisconnectStep(r, s);
    var bye := System(LeftNotice(r.clients[s].username));
    UniqueIdsRemove(r.clients, s);
    assert r'.outbox[|r.outbox|..] == Fanout(r'.clients, bye);
    FanoutExactlyOpen(r'.clients, bye, other);
    FanoutExactlyOpen(r'.clients, bye, r.clients[s].id);
  }
}

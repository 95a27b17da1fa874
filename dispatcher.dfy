/**
  The `MessageDispatcher` object: the event loop body that classifies events
  and queues them for the worker pool, the in-place resolver, the classifier,
  and the dispatch of one queued task. Each method is proved against the
  specification functions of Classifier and Routing.
*/
module Dispatcher {
  import opened Wrappers
  import opened Slack
  import opened AtMessage
  import opened Replies
  import opened Classifier
  import opened Routing

  /** `event.get('type') == 'message'`: the only events the loop classifies. */
  predicate IsMessageEvent(fields: map<string, string>) {
    Get(fields, "type", "") == "message"
  }

  /** Every message event of the batch can be classified without raising. */
  predicate BatchParseable(session: Session, batch: seq<map<string, string>>) {
    forall i :: 0 <= i < |batch| && IsMessageEvent(batch[i]) ==> Parseable(session, batch[i])
  }

  /**
    The tasks one pass of the loop body adds to the pool's queue: the
    classification of each message event in arrival order, None included;
    other events add nothing.
  */
  function EnqueuedTasks(session: Session, plugins: Plugins, batch: seq<map<string, string>>): seq<Option<MessageInfo>>
    requires BatchParseable(session, batch)
  {
    if batch == [] then []
    else
      var init := batch[..|batch| - 1];
      var last := batch[|batch| - 1];
      assert BatchParseable(session, init) by {
        forall i | 0 <= i < |init| && IsMessageEvent(init[i]) ensures Parseable(session, init[i]) {
          assert init[i] == batch[i];
        }
      }
      EnqueuedTasks(session, plugins, init) +
        if IsMessageEvent(last) then [Classify(session, plugins, last)] else []
  }

  lemma {:induction false} EnqueuedTasksAppend(session: Session, plugins: Plugins, a: seq<map<string, string>>, b: seq<map<string, string>>)
    requires BatchParseable(session, a + b)
    ensures BatchParseable(session, a) && BatchParseable(session, b)
    ensures EnqueuedTasks(session, plugins, a + b) == EnqueuedTasks(session, plugins, a) + EnqueuedTasks(session, plugins, b)
    decreases |b|
  {
    assert BatchParseable(session, a) by {
      forall i | 0 <= i < |a| && IsMessageEvent(a[i]) ensures Parseable(session, a[i]) {
        assert a[i] == (a + b)[i];
      }
    }
    assert BatchParseable(session, b) by {
      forall i | 0 <= i < |b| && IsMessageEvent(b[i]) ensures Parseable(session, b[i]) {
        assert b[i] == (a + b)[|a| + i];
      }
    }
    if b == [] {
      assert a + b == a;
    } else {
      var b' := b[..|b| - 1];
      assert (a + b)[..|a + b| - 1] == a + b';
      assert (a + b)[|a + b| - 1] == b[|b| - 1];
      EnqueuedTasksAppend(session, plugins, a, b');
    }
  }

  lemma BatchParseablePrefix(session: Session, batch: seq<map<string, string>>, i: nat)
    requires BatchParseable(session, batch) && i <= |batch|
    ensures BatchParseable(session, batch[..i])
  {
    assert forall j :: 0 <= j < i ==> batch[..i][j] == batch[j];
  }

  /** One more event of the batch adds its own task, if it is a message. */
  lemma EnqueuedTasksStep(session: Session, plugins: Plugins, batch: seq<map<string, string>>, i: nat)
    requires BatchParseable(session, batch) && i < |batch|
    ensures BatchParseable(session, batch[..i]) && BatchParseable(session, batch[..i + 1])
    ensures EnqueuedTasks(session, plugins, batch[..i + 1]) ==
      EnqueuedTasks(session, plugins, batch[..i]) +
        if IsMessageEvent(batch[i]) then [Classify(session, plugins, batch[i])] else []
  {
    BatchParseablePrefix(session, batch, i);
    BatchParseablePrefix(session, batch, i + 1);
    assert batch[..i + 1][..i] == batch[..i];
  }

  /** An event other than a message adds nothing to the queue. */
  lemma NonMessageSkipped(session: Session, plugins: Plugins, event: map<string, string>)
    requires !IsMessageEvent(event)
    ensures BatchParseable(session, [event]) && EnqueuedTasks(session, plugins, [event]) == []
  {
  }

  /** A batch of message events is queued one task per event, in arrival order. */
  lemma {:induction false} MessagesQueuedInOrder(session: Session, plugins: Plugins, batch: seq<map<string, string>>)
    requires forall i :: 0 <= i < |batch| ==> IsMessageEvent(batch[i]) && Parseable(session, batch[i])
    ensures BatchParseable(session, batch)
    ensures var tasks := EnqueuedTasks(session, plugins, batch);
      |tasks| == |batch| && forall i :: 0 <= i < |batch| ==> tasks[i] == Classify(session, plugins, batch[i])
  {
    if batch != [] {
      var init := batch[..|batch| - 1];
      assert forall i :: 0 <= i < |init| ==> init[i] == batch[i];
      MessagesQueuedInOrder(session, plugins, init);
    }
  }

  /**
    A message event whose sender cannot be determined is not dropped from the
    queue: the loop queues None for it.
  */
  lemma UnattributedEventQueuedAsNone(session: Session, plugins: Plugins, event: map<string, string>)
    requires IsMessageEvent(event) && SenderOf(session, event).None?
    ensures BatchParseable(session, [event]) && EnqueuedTasks(session, plugins, [event]) == [None]
  {
  }

  /**
    Every message the classifier returns can be dispatched, given that its
    channel is known to the client when it takes the fallback path (the only
    one that looks the channel up).
  */
  lemma ClassifiedIsDispatchable(session: Session, plugins: Plugins, fields: map<string, string>)
    requires Parseable(session, fields) && Classify(session, plugins, fields).Some?
    requires !IsChanged(fields) && !Classify(session, plugins, fields).value.isRulesMessage ==>
      "channel" in fields && fields["channel"] in session.channelNames
    ensures Dispatchable(session, Classify(session, plugins, fields).value)
  {
  }

  /**
    The self-message guard, end to end: a message from the bot's own name is
    classified as a bot message and dispatching it sends nothing, whatever the
    plugins and the engine.
  */
  lemma SelfMessageNeverAnswered(session: Session, plugins: Plugins, respond: string -> string, fields: map<string, string>)
    requires SenderOf(session, fields) == Some(session.botName)
    requires !IsChanged(fields) ==> "channel" in fields && fields["channel"] in session.channelNames
    ensures Parseable(session, fields)
    ensures var r := Classify(session, plugins, fields);
      && r == Some(MessageInfo(BotMessage, fields, session.botName, IsChanged(fields), false))
      && Dispatchable(session, r.value)
      && DispatchSends(session, plugins, respond, r.value) == []
  {
  }

  /**
    The bot's reply in a shared channel, read back by the resolver, is addressed
    exactly when the mentioned sender id is the bot's own id, and then the
    resolver strips it back to the reply's text.
  */
  lemma ReplyReadBack(session: Session, body: map<string, string>, text: string)
    requires CanReply(body) && StartsShared(body["channel"])
    requires WordId(RenderId(GetUserId(session, body))) && NoNewline(text)
    ensures var uid := RenderId(GetUserId(session, body));
      Resolve(body["channel"], GenReply(session, body, text), session.botId) ==
        if uid == session.botId then Resolution(true, Some(text)) else Resolution(false, None)
  {
    ReplyRoundTrip(session, body, text);
  }

  /** Scenario: a plain message in a direct conversation is at the bot, text unchanged, from the looked-up name. */
  lemma DirectMessageScenario(plugins: Plugins)
    ensures var session := Session("bot", "U9", map["U1" := "alice"], map[], map[]);
      var fields := map["channel" := "D123", "text" := "hello", "user" := "U1"];
      Parseable(session, fields) &&
      Classify(session, plugins, fields) ==
        Some(MessageInfo(AtBotMessage, fields, "alice", false, HasRulesHandler(plugins, "hello")))
  {
  }

  /** The matches of the two channel scenarios' texts. */
  lemma PingMatches()
    ensures Match("<@U9>: ping") == Some(("U9", "ping"))
    ensures Match("<@U2>: ping") == Some(("U2", "ping"))
  {
    PingTexts();
    MatchComplete("U9", true, "ping", false);
    MatchComplete("U2", true, "ping", false);
  }

  lemma PingTexts()
    ensures MentionText("U9", true, "ping", false) == "<@U9>: ping"
    ensures MentionText("U2", true, "ping", false) == "<@U2>: ping"
  {
  }

  /** Scenario: a mention of the bot in a channel is at the bot, with the mention stripped. */
  lemma MentionOfBotScenario(plugins: Plugins)
    ensures var session := Session("bot", "U9", map["U1" := "alice"], map[], map[]);
      var fields := map["channel" := "C55", "text" := "<@U9>: ping", "user" := "U1"];
      Parseable(session, fields) &&
      Classify(session, plugins, fields) ==
        Some(MessageInfo(AtBotMessage, fields["text" := "ping"], "alice", false, HasRulesHandler(plugins, "ping")))
  {
    var session := Session("bot", "U9", map["U1" := "alice"], map[], map[]);
    var fields := map["channel" := "C55", "text" := "<@U9>: ping", "user" := "U1"];
    assert SenderOf(session, fields) == Some("alice");
    assert !IsChanged(fields);
    PingMatches();
    assert Resolve(fields["channel"], fields["text"], session.botId) == Resolution(true, Some("ping"));
  }

  /** Scenario: a mention of another user in a channel is general chatter, text unchanged. */
  lemma MentionOfOtherScenario(plugins: Plugins)
    ensures var session := Session("bot", "U9", map["U1" := "alice"], map[], map[]);
      var fields := map["channel" := "C55", "text" := "<@U2>: ping", "user" := "U1"];
      Parseable(session, fields) &&
      Classify(session, plugins, fields) ==
        Some(MessageInfo(GeneralMessage, fields, "alice", false, HasRulesHandler(plugins, "<@U2>: ping")))
  {
    var session := Session("bot", "U9", map["U1" := "alice"], map[], map[]);
    var fields := map["channel" := "C55", "text" := "<@U2>: ping", "user" := "U1"];
    assert SenderOf(session, fields) == Some("alice");
    assert !IsChanged(fields);
    PingMatches();
    assert Resolve(fields["channel"], fields["text"], session.botId) == Resolution(false, None);
  }

  /** Some category of `categories` has a truthy handler for `text`. */
  predicate HandlerInSome(plugins: Plugins, categories: seq<Category>, text: string) {
    categories != [] &&
    (HandlerInSome(plugins, categories[..|categories| - 1], text) ||
     HasHandler(plugins.getPlugins(categories[|categories| - 1], text)))
  }

  class MessageDispatcher {
    const client: Client
    const plugins: Plugins
    /** The conversational engine's `respond`. */
    const respond: string -> string
    /** The worker pool's task queue, in submission order. */
    var queue: seq<Option<MessageInfo>>

    constructor (client: Client, plugins: Plugins, respond: string -> string)
      ensures this.client == client && this.plugins == plugins && this.respond == respond
      ensures queue == []
    {
      this.client := client;
      this.plugins := plugins;
      this.respond := respond;
      queue := [];
    }

    /**
      `dispatch_msg` on one queued task. A None task raises at the first
      attribute access (`raised`) before sending anything; an edited message is
      ignored; otherwise the plugins or the fallback answer.
    */
    method DispatchMsg(task: Option<MessageInfo>) returns (raised: bool)
      requires task.Some? ==> Dispatchable(client.session, task.value)
      modifies client
      ensures raised == task.None?
      ensures client.outbox == old(client.outbox) +
        (if task.Some? then DispatchSends(client.session, plugins, respond, task.value) else [])
    {
      if task.None? {
        return true;
      }
      raised := false;
      var messageInfo := task.value;
      if messageInfo.isChangedMessage == false {
        if messageInfo.isRulesMessage {
          DispatchRulesMessage(messageInfo);
        } else {
          DispatchAimlMessage(messageInfo);
        }
      }
    }

    /** `dispatchAIMLMessage`: the engine answers on the channel, only if authorised and at the bot. */
    method DispatchAimlMessage(messageInfo: MessageInfo)
      requires FallbackReady(client.session, messageInfo)
      modifies client
      ensures client.outbox == old(client.outbox) + FallbackSends(client.session, respond, messageInfo)
    {
      var channel := messageInfo.message["channel"];
      var channelName := client.session.channelNames[channel];
      if messageInfo.sender == AuthorisedUser || channelName == AuthorisedChannel {
        if messageInfo.messageType == AtBotMessage {
          client.RtmSendMessage(channel, respond(messageInfo.message["text"]));
        }
      }
    }

    /**
      `dispatchRulesMessage`: every truthy handler of the message's category is
      run on a fresh Message, in registry order; each one that faults adds its
      fault reply, and the loop goes on.
    */
    method DispatchRulesMessage(messageInfo: MessageInfo)
      requires RulesReady(messageInfo)
      modifies client
      ensures client.outbox == old(client.outbox) + PluginSends(client.session, plugins, messageInfo)
    {
      var text := messageInfo.message["text"];
      var category := CategoryOf(messageInfo);
      HandleMatches(messageInfo.message, text, plugins.getPlugins(category, text));
    }

    /** The loop of `dispatchRulesMessage` over the items the registry yields. */
    method HandleMatches(body: map<string, string>, text: string, matches: seq<PluginMatch>)
      requires CanReply(body)
      modifies client
      ensures client.outbox == old(client.outbox) + RulesSends(client.session, plugins, body, text, matches)
    {
      ghost var log0 := client.outbox;
      var i := 0;
      while i < |matches|
        invariant 0 <= i <= |matches|
        invariant client.outbox == log0 + RulesSends(client.session, plugins, body, text, matches[..i])
      {
        ghost var log := client.outbox;
        HandleMatch(body, text, matches[i]);
        RulesSendsStep(client.session, plugins, body, text, matches, i);
        LogGrows(log0, log, RulesSends(client.session, plugins, body, text, matches[..i]),
                 HandlerSends(client.session, plugins, body, text, matches[i]),
                 RulesSends(client.session, plugins, body, text, matches[..i + 1]));
        i := i + 1;
      }
      assert matches[..|matches|] == matches;
    }

    /**
      One item of the plugin loop: a truthy handler runs on a fresh Message over
      the event, and if it faults its fault reply goes to the event's channel.
    */
    method HandleMatch(body: map<string, string>, text: string, m: PluginMatch)
      requires CanReply(body)
      modifies client
      ensures client.outbox == old(client.outbox) + HandlerSends(client.session, plugins, body, text, m)
    {
      if m.handler.Some? {
        var name := m.handler.value;
        var message := new Message(client, body);
        var outcome := InvokeHandler(message, name, m.args);
        if outcome.Fault? {
          var reply := FaultReport(name, text, outcome.trace);
          client.RtmSendMessage(body["channel"], reply);
        }
      }
    }

    /**
      `func(Message(client, msg), *args)` inside its `try`: the handler's calls on
      the message are carried out in order, and its outcome is returned instead
      of being raised.
    */
    method InvokeHandler(message: Message, name: string, args: seq<string>) returns (outcome: Outcome)
      requires message.client == client && CanReply(message.body)
      modifies client
      ensures outcome == plugins.run(name, message.body, args).outcome
      ensures client.outbox == old(client.outbox) +
        ActionSends(client.session, message.body, plugins.run(name, message.body, args).actions)
    {
      var run := plugins.run(name, message.body, args);
      var i := 0;
      while i < |run.actions|
        invariant 0 <= i <= |run.actions|
        invariant client.outbox == old(client.outbox) + ActionSends(client.session, message.body, run.actions[..i])
      {
        match run.actions[i] {
          case Reply(text) => message.Reply(text);
          case Send(text) => message.Send(text);
        }
        assert run.actions[..i + 1][..i] == run.actions[..i];
        i := i + 1;
      }
      assert run.actions[..|run.actions|] == run.actions;
      outcome := run.outcome;
    }

    /** The flag loop of `parseMessage`: whether any truthy handler matches in either category. */
    method RulesMatch(text: string) returns (isRulesMessage: bool)
      ensures isRulesMessage == HasRulesHandler(plugins, text)
    {
      isRulesMessage := false;
      var categories := [RespondTo, ListenTo];
      var c := 0;
      while c < |categories|
        invariant 0 <= c <= |categories|
        invariant isRulesMessage == HandlerInSome(plugins, categories[..c], text)
      {
        var matches := plugins.getPlugins(categories[c], text);
        var i := 0;
        while i < |matches|
          invariant 0 <= i <= |matches|
          invariant isRulesMessage == (HandlerInSome(plugins, categories[..c], text) || HasHandler(matches[..i]))
        {
          if matches[i].handler.Some? {
            isRulesMessage := true;
          }
          assert HasHandler(matches[..i + 1]) == (HasHandler(matches[..i]) || matches[i].handler.Some?) by {
            assert forall j :: 0 <= j < i ==> matches[..i + 1][j] == matches[..i][j];
          }
          i := i + 1;
        }
        assert matches[..|matches|] == matches;
        assert categories[..c + 1][..c] == categories[..c];
        c := c + 1;
      }
      assert categories[..2][..1][..0] == [];
    }

    /**
      `msgRespondTo`: decides whether the event is at the bot and rewrites its
      `text` field in place when a leading mention is stripped.
    */
    method MsgRespondTo(msg: RawEvent) returns (r: Option<RawEvent>)
      requires "channel" in msg.fields && msg.fields["channel"] != ""
      modifies msg
      ensures var res := Resolve(old(msg.fields["channel"]), Get(old(msg.fields), "text", ""), client.session.botId);
        && (r.Some? <==> res.addressed)
        && (r.Some? ==> r.value == msg)
        && msg.fields == Rewrite(old(msg.fields), res.rewritten)
    {
      var text := Get(msg.fields, "text", "");
      var channel := msg.fields["channel"];
      if channel[0] == 'C' || channel[0] == 'G' {
        var m := Match(text);
        if m.None? {
          return None;
        }
        var (atUser, rest) := m.value;
        if atUser != client.session.botId {
          // a channel message at another user
          return None;
        }
        msg.fields := msg.fields["text" := rest];
      } else {
        var m := Match(text);
        if m.Some? {
          msg.fields := msg.fields["text" := m.value.1];
        }
      }
      return Some(msg);
    }

    /**
      `parseMessage`: classifies the event, rewriting its text in place on the
      path through the resolver.
    */
    method ParseMessage(msg: RawEvent) returns (r: Option<MessageInfo>)
      requires Parseable(client.session, msg.fields)
      modifies msg
      ensures r == Classify(client.session, plugins, old(msg.fields))
      ensures msg.fields ==
        if ReachesResolver(client.session, old(msg.fields)) then Normalized(client.session, old(msg.fields))
        else old(msg.fields)
    {
      var messageChanged := false;
      if Get(msg.fields, "subtype", "") == "message_changed" {
        messageChanged := true;
      }
      var botname := client.session.botName;
      var username: string;
      if "user" in msg.fields && msg.fields["user"] in client.session.users {
        username := client.session.users[msg.fields["user"]];
      } else if "username" in msg.fields {
        username := msg.fields["username"];
      } else {
        return None;
      }
      if username == botname {
        return Some(MessageInfo(BotMessage, msg.fields, botname, messageChanged, false));
      }
      var msgRespondTo := MsgRespondTo(msg);
      var text := msg.fields["text"];
      var isRulesMessage := RulesMatch(text);
      if msgRespondTo.Some? {
        return Some(MessageInfo(AtBotMessage, msgRespondTo.value.fields, username, messageChanged, isRulesMessage));
      } else {
        return Some(MessageInfo(GeneralMessage, msg.fields, username, messageChanged, isRulesMessage));
      }
    }

    /**
      One pass of the loop body over a batch read from the stream: every
      message event gets a fresh event object, is classified, and its result
      (None included) is queued in arrival order.
    */
    method Loop(events: seq<map<string, string>>)
      requires BatchParseable(client.session, events)
      modifies this
      ensures queue == old(queue) + EnqueuedTasks(client.session, plugins, events)
    {
      ghost var queue0 := queue;
      var i := 0;
      BatchParseablePrefix(client.session, events, 0);
      while i < |events|
        invariant 0 <= i <= |events|
        invariant BatchParseable(client.session, events[..i])
        invariant queue == queue0 + EnqueuedTasks(client.session, plugins, events[..i])
      {
        EnqueuedTasksStep(client.session, plugins, events, i);
        if IsMessageEvent(events[i]) {
          var event := new RawEvent(events[i]);
          var messageInfo := ParseMessage(event);
          queue := queue + [messageInfo];
        }
        i := i + 1;
      }
      assert events[..|events|] == events;
    }
  }
}

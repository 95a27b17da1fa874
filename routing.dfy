/**
  What dispatching one classified message sends: the decision procedure of
  `dispatch_msg`, the fault-isolated plugin loop of `dispatchRulesMessage` and
  the authorised fallback of `dispatchAIMLMessage`, as functions from the
  message to the sequence of real-time sends it causes.
*/
module Routing {
  import opened Wrappers
  import opened Slack
  import opened Replies
  import opened Classifier

  /** The hard-coded allow-list of the fallback engine. */
  const AuthorisedUser: string := "quinn.thomson"
  const AuthorisedChannel: string := "beepboop-lab"

  /** The plugin category that answers a message: `respond_to` when at the bot, else `listen_to`. */
  function CategoryOf(mi: MessageInfo): Category {
    if mi.messageType == AtBotMessage then RespondTo else ListenTo
  }

  /** The header line of the fault reply. */
  function FaultHeader(name: string, text: string): string {
    "[" + name + "] I have problem when handling \"" + text + "\"\n"
  }

  /** The fault reply: the header, then the trace in a code block. */
  function FaultReport(name: string, text: string, trace: string): (r: string)
    ensures |r| == |FaultHeader(name, text)| + |trace| + 8
    ensures r[..|FaultHeader(name, text)|] == FaultHeader(name, text)
    ensures r[|FaultHeader(name, text)| + 4..|r| - 4] == trace
  {
    var header := FaultHeader(name, text);
    var r := header + "```\n" + trace + "\n```";
    assert r[..|header|] == header;
    assert r[|header| + 4..|r| - 4] == trace;
    r
  }

  /** The sends a handler's own calls on its Message make, in order. */
  function ActionSends(session: Session, body: map<string, string>, actions: seq<Action>): seq<Sent>
    requires CanReply(body)
  {
    if actions == [] then []
    else
      var last := actions[|actions| - 1];
      var sent := match last
        case Reply(text) => Sent(body["channel"], GenReply(session, body, text))
        case Send(text) => Sent(body["channel"], text);
      ActionSends(session, body, actions[..|actions| - 1]) + [sent]
  }

  /**
    The sends of one item of the registry: nothing for the falsy placeholder;
    otherwise the handler's own sends, then one fault reply exactly when it faults.
  */
  function HandlerSends(session: Session, plugins: Plugins, body: map<string, string>, text: string, m: PluginMatch): seq<Sent>
    requires CanReply(body)
  {
    match m.handler
    case None => []
    case Some(name) =>
      var run := plugins.run(name, body, m.args);
      ActionSends(session, body, run.actions) +
        match run.outcome
        case Ok => []
        case Fault(trace) => [Sent(body["channel"], FaultReport(name, text, trace))]
  }

  /** The sends of the plugin loop over `matches`, in registry order. */
  function RulesSends(session: Session, plugins: Plugins, body: map<string, string>, text: string, matches: seq<PluginMatch>): seq<Sent>
    requires CanReply(body)
  {
    if matches == [] then []
    else
      RulesSends(session, plugins, body, text, matches[..|matches| - 1]) +
        HandlerSends(session, plugins, body, text, matches[|matches| - 1])
  }

  /** Whether the fallback's allow-list admits the message's sender or channel. */
  predicate Authorised(session: Session, mi: MessageInfo)
    requires "channel" in mi.message && mi.message["channel"] in session.channelNames
  {
    mi.sender == AuthorisedUser || session.channelNames[mi.message["channel"]] == AuthorisedChannel
  }

  /** What `dispatchRulesMessage` reads: the text, and what a reply on the message needs. */
  predicate RulesReady(mi: MessageInfo) {
    "text" in mi.message && CanReply(mi.message)
  }

  /** What `dispatchAIMLMessage` reads: a known channel, and the text when it answers. */
  predicate FallbackReady(session: Session, mi: MessageInfo) {
    "channel" in mi.message && mi.message["channel"] in session.channelNames &&
    (Authorised(session, mi) && mi.messageType == AtBotMessage ==> "text" in mi.message)
  }

  /** What `dispatch_msg` reads on the branch it takes. */
  predicate Dispatchable(session: Session, mi: MessageInfo) {
    !mi.isChangedMessage ==>
      (mi.isRulesMessage ==> RulesReady(mi)) && (!mi.isRulesMessage ==> FallbackReady(session, mi))
  }

  /** The sends of `dispatchRulesMessage`. */
  function PluginSends(session: Session, plugins: Plugins, mi: MessageInfo): seq<Sent>
    requires RulesReady(mi)
  {
    var text := mi.message["text"];
    RulesSends(session, plugins, mi.message, text, plugins.getPlugins(CategoryOf(mi), text))
  }

  /** The sends of `dispatchAIMLMessage`: one answer from the engine, or nothing. */
  function FallbackSends(session: Session, respond: string -> string, mi: MessageInfo): seq<Sent>
    requires FallbackReady(session, mi)
  {
    if Authorised(session, mi) && mi.messageType == AtBotMessage then
      [Sent(mi.message["channel"], respond(mi.message["text"]))]
    else []
  }

  /** The sends of `dispatch_msg`. */
  function DispatchSends(session: Session, plugins: Plugins, respond: string -> string, mi: MessageInfo): seq<Sent>
    requires Dispatchable(session, mi)
  {
    if mi.isChangedMessage then []
    else if mi.isRulesMessage then PluginSends(session, plugins, mi)
    else FallbackSends(session, respond, mi)
  }

  lemma {:induction false} RulesSendsAppend(session: Session, plugins: Plugins, body: map<string, string>, text: string, a: seq<PluginMatch>, b: seq<PluginMatch>)
    requires CanReply(body)
    ensures RulesSends(session, plugins, body, text, a + b) ==
      RulesSends(session, plugins, body, text, a) + RulesSends(session, plugins, body, text, b)
    decreases |b|
  {
    if b == [] {
      assert a + b == a;
    } else {
      var b', last := b[..|b| - 1], b[|b| - 1];
      assert b == b' + [last];
      assert a + b == (a + b') + [last];
      RulesSendsSnoc(session, plugins, body, text, a + b', last);
      RulesSendsSnoc(session, plugins, body, text, b', last);
      RulesSendsAppend(session, plugins, body, text, a, b');
    }
  }

  /** One more item of the registry adds exactly that item's sends. */
  lemma RulesSendsSnoc(session: Session, plugins: Plugins, body: map<string, string>, text: string, matches: seq<PluginMatch>, m: PluginMatch)
    requires CanReply(body)
    ensures RulesSends(session, plugins, body, text, matches + [m]) ==
      RulesSends(session, plugins, body, text, matches) + HandlerSends(session, plugins, body, text, m)
  {
    assert (matches + [m])[..|matches|] == matches;
  }

  /**
    Fault isolation: the sends of the plugin loop are those of the handlers
    before item i, then item i's own, then those of the handlers after it,
    whatever item i's outcome. Item i contributes its own sends plus exactly
    one fault reply to the message's channel when it faults, none when it
    ends normally, and nothing when it is the falsy placeholder.
  */
  lemma FaultIsolation(session: Session, plugins: Plugins, body: map<string, string>, text: string, matches: seq<PluginMatch>, i: nat)
    requires CanReply(body) && i < |matches|
    ensures RulesSends(session, plugins, body, text, matches) ==
      RulesSends(session, plugins, body, text, matches[..i]) +
      HandlerSends(session, plugins, body, text, matches[i]) +
      RulesSends(session, plugins, body, text, matches[i + 1..])
    ensures matches[i].handler.None? ==> HandlerSends(session, plugins, body, text, matches[i]) == []
    ensures matches[i].handler.Some? ==>
      var name := matches[i].handler.value;
      var run := plugins.run(name, body, matches[i].args);
      HandlerSends(session, plugins, body, text, matches[i]) ==
        ActionSends(session, body, run.actions) +
        (if run.outcome.Fault? then [Sent(body["channel"], FaultReport(name, text, run.outcome.trace))] else [])
  {
    var m, before, after := matches[i], matches[..i], matches[i + 1..];
    assert matches == before + ([m] + after);
    RulesSendsAppend(session, plugins, body, text, before, [m] + after);
    RulesSendsAppend(session, plugins, body, text, [m], after);
    RulesSendsSingle(session, plugins, body, text, m);
    var rb, hs, ra := RulesSends(session, plugins, body, text, before), HandlerSends(session, plugins, body, text, m),
      RulesSends(session, plugins, body, text, after);
    LogGrows(rb, rb + hs, hs, ra, hs + ra);
    HandlerSendsShape(session, plugins, body, text, m);
  }

  /** The sends of one item: nothing when falsy, else its own sends and then its fault reply, if any. */
  lemma HandlerSendsShape(session: Session, plugins: Plugins, body: map<string, string>, text: string, m: PluginMatch)
    requires CanReply(body)
    ensures m.handler.None? ==> HandlerSends(session, plugins, body, text, m) == []
    ensures m.handler.Some? ==>
      var run := plugins.run(m.handler.value, body, m.args);
      HandlerSends(session, plugins, body, text, m) ==
        ActionSends(session, body, run.actions) +
        (if run.outcome.Fault? then [Sent(body["channel"], FaultReport(m.handler.value, text, run.outcome.trace))] else [])
  {
  }

  /** One more item of the registry adds exactly that item's sends. */
  lemma RulesSendsStep(session: Session, plugins: Plugins, body: map<string, string>, text: string, matches: seq<PluginMatch>, i: nat)
    requires CanReply(body) && i < |matches|
    ensures RulesSends(session, plugins, body, text, matches[..i + 1]) ==
      RulesSends(session, plugins, body, text, matches[..i]) + HandlerSends(session, plugins, body, text, matches[i])
  {
    assert matches[..i + 1][..i] == matches[..i];
  }

  lemma RulesSendsSingle(session: Session, plugins: Plugins, body: map<string, string>, text: string, m: PluginMatch)
    requires CanReply(body)
    ensures RulesSends(session, plugins, body, text, [m]) == HandlerSends(session, plugins, body, text, m)
  {
  }

  /** A registry result with no truthy handler causes no send at all. */
  lemma {:induction false} NoHandlerNoSends(session: Session, plugins: Plugins, body: map<string, string>, text: string, matches: seq<PluginMatch>)
    requires CanReply(body) && !HasHandler(matches)
    ensures RulesSends(session, plugins, body, text, matches) == []
  {
    if matches != [] {
      var init := matches[..|matches| - 1];
      assert !HasHandler(init) by {
        forall j | 0 <= j < |init| ensures init[j].handler.None? {
          assert init[j] == matches[j];
        }
      }
      NoHandlerNoSends(session, plugins, body, text, init);
    }
  }

  /** An edited message causes no send at all. */
  lemma EditedMessageIgnored(session: Session, plugins: Plugins, respond: string -> string, mi: MessageInfo)
    requires Dispatchable(session, mi) && mi.isChangedMessage
    ensures DispatchSends(session, plugins, respond, mi) == []
  {
  }

  /**
    A rules message goes only to the plugins of its own category, and never to
    the fallback: its sends do not depend on the engine at all.
  */
  lemma RulesMessageSkipsFallback(session: Session, plugins: Plugins, respond: string -> string, other: string -> string, mi: MessageInfo)
    requires Dispatchable(session, mi) && !mi.isChangedMessage && mi.isRulesMessage
    ensures DispatchSends(session, plugins, respond, mi) == DispatchSends(session, plugins, other, mi)
    ensures DispatchSends(session, plugins, respond, mi) ==
      RulesSends(session, plugins, mi.message, mi.message["text"],
                 plugins.getPlugins(if mi.messageType == AtBotMessage then RespondTo else ListenTo, mi.message["text"]))
  {
  }

  /**
    An at-bot rules message whose text only `listen_to` handlers match is
    answered by nobody: the registry is asked for `respond_to`, which yields no
    handler, and the fallback is not consulted.
  */
  lemma AtBotListenOnlyIsSilent(session: Session, plugins: Plugins, respond: string -> string, mi: MessageInfo)
    requires Dispatchable(session, mi) && !mi.isChangedMessage && mi.isRulesMessage
    requires mi.messageType == AtBotMessage
    requires !HasHandler(plugins.getPlugins(RespondTo, mi.message["text"]))
    ensures DispatchSends(session, plugins, respond, mi) == []
  {
    NoHandlerNoSends(session, plugins, mi.message, mi.message["text"], plugins.getPlugins(RespondTo, mi.message["text"]));
  }

  /**
    Fallback authorisation: a non-edited message without a rules handler causes
    a send exactly when it is at the bot and its sender or channel is on the
    allow-list, and then exactly one: the engine's answer to its text, on its
    channel.
  */
  lemma FallbackAuthorisation(session: Session, plugins: Plugins, respond: string -> string, mi: MessageInfo)
    requires Dispatchable(session, mi) && !mi.isChangedMessage && !mi.isRulesMessage
    ensures var sends := DispatchSends(session, plugins, respond, mi);
      && (sends != [] <==>
            mi.messageType == AtBotMessage &&
            (mi.sender == "quinn.thomson" || session.channelNames[mi.message["channel"]] == "beepboop-lab"))
      && (sends != [] ==> sends == [Sent(mi.message["channel"], respond(mi.message["text"]))])
  {
  }

  /** General and bot messages never reach the engine: they send only what their plugins send. */
  lemma OnlyAtBotReachesFallback(session: Session, plugins: Plugins, respond: string -> string, mi: MessageInfo)
    requires Dispatchable(session, mi) && mi.messageType != AtBotMessage
    ensures DispatchSends(session, plugins, respond, mi) ==
      if !mi.isChangedMessage && mi.isRulesMessage then PluginSends(session, plugins, mi) else []
  {
  }
}

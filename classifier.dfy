/**
  Classification of one incoming event: the addressing resolver
  (`msgRespondTo`) and the classifier (`parseMessage`) of the dispatcher, as
  specification functions over the event's fields. The dispatcher's methods
  that rewrite the event in place are proved against them.
*/
module Classifier {
  import opened Wrappers
  import opened Slack
  import opened AtMessage

  /** `MessageType`; `Unset` is the source's `none`, which no path produces. */
  datatype MessageType = Unset | GeneralMessage | AtBotMessage | BotMessage

  /**
    `MessageInfo`. `message` is the event dictionary as `parseMessage` left it,
    after any rewrite of its `text` field.
  */
  datatype MessageInfo = MessageInfo(
    messageType: MessageType,
    message: map<string, string>,
    sender: string,
    isChangedMessage: bool,
    isRulesMessage: bool
  )

  /** An event dictionary as read off the real-time stream; `msgRespondTo` rewrites it in place. */
  class RawEvent {
    var fields: map<string, string>

    constructor (fields: map<string, string>)
      ensures this.fields == fields
    {
      this.fields := fields;
    }
  }

  /** `msg.get(key, default)`. */
  function Get(fields: map<string, string>, key: string, default: string): string {
    if key in fields then fields[key] else default
  }

  /**
    What `msgRespondTo` decides: whether it returns the message (`addressed`),
    and the value it writes to `msg['text']` (None when it writes nothing).
  */
  datatype Resolution = Resolution(addressed: bool, rewritten: Option<string>)

  /** `msgRespondTo` on the event's channel id and text; `channel[0]` needs a non-empty id. */
  function Resolve(channel: string, text: string, botId: string): Resolution
    requires channel != ""
  {
    if channel[0] == 'C' || channel[0] == 'G' then
      match Match(text)
      case None => Resolution(false, None)
      case Some((atUser, rest)) =>
        if atUser != botId then Resolution(false, None) else Resolution(true, Some(rest))
    else
      match Match(text)
      case None => Resolution(true, None)
      case Some((_, rest)) => Resolution(true, Some(rest))
  }

  /** The event's fields after the resolver's write, if any. */
  function Rewrite(fields: map<string, string>, rewritten: Option<string>): map<string, string> {
    match rewritten
    case None => fields
    case Some(text) => fields["text" := text]
  }

  /**
    Shared channels: the message is addressed exactly when its text is a mention
    of the bot's own id; then the text becomes the mention's rest, otherwise it
    is left alone.
  */
  lemma SharedChannelAddressing(channel: string, text: string, botId: string)
    requires StartsShared(channel)
    ensures var r := Resolve(channel, text, botId);
      && (r.addressed <==> exists rest :: IsMention(text, botId, rest))
      && (r.addressed ==> r.rewritten.Some? && IsMention(text, botId, r.rewritten.value))
      && (!r.addressed ==> r.rewritten == None)
  {
    var r := Resolve(channel, text, botId);
    if r.addressed {
      MatchSound(text);
    }
    forall rest | IsMention(text, botId, rest) ensures r.addressed {
      MatchIff(text, botId, rest);
    }
  }

  /** Shared channels: a mention of anyone other than the bot is not addressed and not rewritten. */
  lemma MentionOfOtherUser(channel: string, text: string, id: string, rest: string, botId: string)
    requires StartsShared(channel) && IsMention(text, id, rest) && id != botId
    ensures Resolve(channel, text, botId) == Resolution(false, None)
  {
    MatchIff(text, id, rest);
  }

  /**
    Direct conversations: always addressed; a leading mention of any id is
    stripped to its rest, and a text that is no mention is left alone.
  */
  lemma DirectAddressing(channel: string, text: string, botId: string)
    requires channel != "" && !StartsShared(channel)
    ensures var r := Resolve(channel, text, botId);
      && r.addressed
      && (forall id, rest :: IsMention(text, id, rest) ==> r.rewritten == Some(rest))
      && (r.rewritten.Some? ==> exists id :: IsMention(text, id, r.rewritten.value))
  {
    var r := Resolve(channel, text, botId);
    forall id, rest | IsMention(text, id, rest) ensures r.rewritten == Some(rest) {
      MatchIff(text, id, rest);
    }
    if r.rewritten.Some? {
      MatchSound(text);
    }
  }

  /** Step 2 of `parseMessage`: the user directory's name, else the `username` field, else nobody. */
  function SenderOf(session: Session, fields: map<string, string>): Option<string> {
    if "user" in fields && fields["user"] in session.users then Some(session.users[fields["user"]])
    else if "username" in fields then Some(fields["username"])
    else None
  }

  /** Whether the event carries the `message_changed` subtype. */
  predicate IsChanged(fields: map<string, string>) {
    Get(fields, "subtype", "") == "message_changed"
  }

  /** Whether `parseMessage` gets past the sender and self-message checks to the resolver. */
  predicate ReachesResolver(session: Session, fields: map<string, string>) {
    SenderOf(session, fields).Some? && SenderOf(session, fields).value != session.botName
  }

  /**
    What `parseMessage` needs in order to return instead of raising: on the path
    through the resolver, a non-empty channel id and a `text` field.
  */
  predicate Parseable(session: Session, fields: map<string, string>) {
    ReachesResolver(session, fields) ==>
      "channel" in fields && fields["channel"] != "" && "text" in fields
  }

  /** Some item of a `get_plugins` result carries a (truthy) handler. */
  predicate HasHandler(matches: seq<PluginMatch>) {
    exists j :: 0 <= j < |matches| && matches[j].handler.Some?
  }

  /** The flag computed at lines 103-107: a handler exists in `respond_to` or in `listen_to`. */
  predicate HasRulesHandler(plugins: Plugins, text: string) {
    HasHandler(plugins.getPlugins(RespondTo, text)) || HasHandler(plugins.getPlugins(ListenTo, text))
  }

  /** The event's fields after `parseMessage`'s call of the resolver. */
  function Normalized(session: Session, fields: map<string, string>): map<string, string>
    requires "channel" in fields && fields["channel"] != ""
  {
    Rewrite(fields, Resolve(fields["channel"], Get(fields, "text", ""), session.botId).rewritten)
  }

  /** `parseMessage`: the classified message, or None when the sender cannot be determined. */
  function Classify(session: Session, plugins: Plugins, fields: map<string, string>): Option<MessageInfo>
    requires Parseable(session, fields)
  {
    var changed := IsChanged(fields);
    match SenderOf(session, fields)
    case None => None
    case Some(username) =>
      if username == session.botName then
        Some(MessageInfo(BotMessage, fields, session.botName, changed, false))
      else
        var addressed := Resolve(fields["channel"], fields["text"], session.botId).addressed;
        var normalized := Normalized(session, fields);
        var rules := HasRulesHandler(plugins, normalized["text"]);
        Some(MessageInfo(if addressed then AtBotMessage else GeneralMessage, normalized, username, changed, rules))
  }

  /**
    The classification fields: an event is dropped exactly when it names no
    known user and has no `username`; the sender is the directory name or the
    `username`; `isChangedMessage` mirrors the subtype; the result is a bot
    message exactly when the sender is the bot, and then it is not a rules
    message and its text is not normalised.
  */
  lemma ClassificationFields(session: Session, plugins: Plugins, fields: map<string, string>)
    requires Parseable(session, fields)
    ensures var r := Classify(session, plugins, fields);
      && (r.None? <==> ("user" !in fields || fields["user"] !in session.users) && "username" !in fields)
      && (r.Some? ==> r.value.isChangedMessage == (Get(fields, "subtype", "") == "message_changed"))
      && (r.Some? && "user" in fields && fields["user"] in session.users ==> r.value.sender == session.users[fields["user"]])
      && (r.Some? && !("user" in fields && fields["user"] in session.users) ==> r.value.sender == fields["username"])
      && (r.Some? ==> (r.value.messageType == BotMessage <==> r.value.sender == session.botName))
      && (r.Some? && r.value.messageType == BotMessage ==> !r.value.isRulesMessage && r.value.message == fields)
      && (r.Some? && r.value.messageType != BotMessage ==>
            r.value.messageType in {GeneralMessage, AtBotMessage} &&
            r.value.isRulesMessage == HasRulesHandler(plugins, r.value.message["text"]))
  {
  }

  /**
    Classification in a shared channel: at-bot exactly when the text mentions the
    bot's id, with the text replaced by the mention's rest; otherwise general,
    with the event untouched (also when the mention names someone else).
  */
  lemma SharedChannelClassification(session: Session, plugins: Plugins, fields: map<string, string>)
    requires Parseable(session, fields) && ReachesResolver(session, fields)
    requires StartsShared(fields["channel"])
    ensures var mi := Classify(session, plugins, fields).value;
      && (mi.messageType == AtBotMessage <==> exists rest :: IsMention(fields["text"], session.botId, rest))
      && (mi.messageType == AtBotMessage ==>
            "text" in mi.message && IsMention(fields["text"], session.botId, mi.message["text"]) &&
            mi.message == fields["text" := mi.message["text"]])
      && (mi.messageType != AtBotMessage ==> mi.messageType == GeneralMessage && mi.message == fields)
  {
    SharedChannelAddressing(fields["channel"], fields["text"], session.botId);
  }

  /**
    Classification in a direct conversation: always at-bot; a leading mention of
    any id is stripped to its rest, and other texts are left alone.
  */
  lemma DirectClassification(session: Session, plugins: Plugins, fields: map<string, string>)
    requires Parseable(session, fields) && ReachesResolver(session, fields)
    requires !StartsShared(fields["channel"])
    ensures var mi := Classify(session, plugins, fields).value;
      && mi.messageType == AtBotMessage
      && (forall id, rest :: IsMention(fields["text"], id, rest) ==> mi.message == fields["text" := rest])
      && (mi.message != fields ==> exists id :: IsMention(fields["text"], id, mi.message["text"]))
  {
    DirectAddressing(fields["channel"], fields["text"], session.botId);
  }

  /** One pass of the resolver over a mention it answers: addressed, and rewritten to the rest. */
  lemma MentionStripped(channel: string, botId: string, text: string, id: string, rest: string)
    requires channel != "" && IsMention(text, id, rest)
    requires StartsShared(channel) ==> id == botId
    ensures Resolve(channel, text, botId) == Resolution(true, Some(rest))
  {
    MatchIff(text, id, rest);
  }

  /**
    The normalisation rewrites the event in place, so it is not idempotent: a
    text made of two leading mentions loses exactly one of them per pass, in a
    direct conversation (mentions of anyone) and in a shared channel (mentions
    of the bot).
  */
  lemma NormalizationNotIdempotent(channel: string, botId: string, text: string, id1: string, rest1: string, id2: string, rest2: string)
    requires channel != ""
    requires IsMention(text, id1, rest1) && IsMention(rest1, id2, rest2)
    requires StartsShared(channel) ==> id1 == botId && id2 == botId
    ensures Resolve(channel, text, botId).rewritten == Some(rest1)
    ensures Resolve(channel, rest1, botId).rewritten == Some(rest2)
    ensures rest1 != text && rest2 != rest1
  {
    MentionStripped(channel, botId, text, id1, rest1);
    MentionStripped(channel, botId, rest1, id2, rest2);
    MentionIsLonger(text, id1, rest1);
    MentionIsLonger(rest1, id2, rest2);
  }
}

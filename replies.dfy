/**
  The `Message` object handed to plugin handlers: replies are prefixed with an
  `@`-mention of the sender in shared channels, plain sends are not.
*/
module Replies {
  import opened Wrappers
  import opened Slack
  import AtMessage

  /**
    `_get_user_id`: the event's `user` field when there is one, otherwise the
    lookup of its `username` (which may find nobody).
  */
  function GetUserId(session: Session, body: map<string, string>): Option<string>
    requires "user" in body || "username" in body
  {
    if "user" in body then Some(body["user"]) else FindUserByName(session, body["username"])
  }

  /** How `'{}'.format(uid)` renders the id: Python prints `None` as the word None. */
  function RenderId(uid: Option<string>): string {
    match uid
    case Some(id) => id
    case None => "None"
  }

  /** `_gen_at_message`: `<@uid>: text`. */
  function GenAtMessage(session: Session, body: map<string, string>, text: string): string
    requires "user" in body || "username" in body
  {
    "<@" + RenderId(GetUserId(session, body)) + ">: " + text
  }

  /** The reply preconditions: the channel is read, and the sender id only in shared channels. */
  predicate CanReply(body: map<string, string>) {
    "channel" in body && (StartsShared(body["channel"]) ==> "user" in body || "username" in body)
  }

  /** `_gen_reply`: the mention prefix in shared channels, the bare text elsewhere. */
  function GenReply(session: Session, body: map<string, string>, text: string): string
    requires CanReply(body)
  {
    if StartsShared(body["channel"]) then GenAtMessage(session, body, text) else text
  }

  /**
    The reply's shape: in a shared channel it is the mention text (with a colon,
    no final newline) of the sender's id, which is the `user` field when
    present; in a direct conversation it is the text itself.
  */
  lemma ReplyShape(session: Session, body: map<string, string>, text: string)
    requires CanReply(body)
    ensures StartsShared(body["channel"]) ==>
      GenReply(session, body, text) == AtMessage.MentionText(RenderId(GetUserId(session, body)), true, text, false)
    ensures StartsShared(body["channel"]) && "user" in body ==>
      GenReply(session, body, text) == "<@" + body["user"] + ">: " + text
    ensures !StartsShared(body["channel"]) ==> GenReply(session, body, text) == text
  {
  }

  /**
    Round trip with the mention matcher: a reply in a shared channel to an id of
    word characters, with newline-free text, matches the matcher with exactly
    that id and that text as its two groups.
  */
  lemma ReplyRoundTrip(session: Session, body: map<string, string>, text: string)
    requires CanReply(body) && StartsShared(body["channel"])
    requires AtMessage.WordId(RenderId(GetUserId(session, body))) && AtMessage.NoNewline(text)
    ensures AtMessage.Match(GenReply(session, body, text)) == Some((RenderId(GetUserId(session, body)), text))
  {
    ReplyShape(session, body, text);
    AtMessage.MatchComplete(RenderId(GetUserId(session, body)), true, text, false);
  }

  /** A sender whose id cannot be found is mentioned as `<@None>`, which the matcher reads as the id "None". */
  lemma UnknownSenderMentionsNone(session: Session, body: map<string, string>, text: string)
    requires CanReply(body) && StartsShared(body["channel"])
    requires "user" !in body && body["username"] !in session.idsByName
    requires AtMessage.NoNewline(text)
    ensures AtMessage.Match(GenReply(session, body, text)) == Some(("None", text))
  {
    ReplyRoundTrip(session, body, text);
  }

  /** The Message given to a handler: the client it sends through and the event it answers. */
  class Message {
    const client: Client
    const body: map<string, string>

    constructor (client: Client, body: map<string, string>)
      ensures this.client == client && this.body == body
    {
      this.client := client;
      this.body := body;
    }

    /** `reply`: the formatted reply goes out on the event's channel. */
    method Reply(text: string)
      requires CanReply(body)
      modifies client
      ensures client.outbox == old(client.outbox) + [Sent(body["channel"], GenReply(client.session, body, text))]
    {
      var formatted := GenReply(client.session, body, text);
      Send(formatted);
    }

    /** `send`: the text goes out unchanged on the event's channel. */
    method Send(text: string)
      requires "channel" in body
      modifies client
      ensures client.outbox == old(client.outbox) + [Sent(body["channel"], text)]
    {
      client.RtmSendMessage(body["channel"], text);
    }
  }
}

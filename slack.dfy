/**
  The collaborators of the dispatcher, reduced to what it observes of them:
  the Slack client (login identity, user and channel directories, and the log
  of messages sent over the real-time API) and the plugin registry (the
  handlers whose patterns match a text, and what a handler does when run).
*/
module Slack {
  import opened Wrappers

  /** The read-only part of the client that the dispatcher consults. */
  datatype Session = Session(
    botName: string,                  // login_data['self']['name']
    botId: string,                    // login_data['self']['id']
    users: map<string, string>,       // users: user id -> the record's 'name'
    idsByName: map<string, string>,   // find_user_by_name: name -> user id
    channelNames: map<string, string> // get_channel(id).name()
  )

  /** `find_user_by_name`; Python's `None` when no user has that name. */
  function FindUserByName(session: Session, name: string): Option<string> {
    if name in session.idsByName then Some(session.idsByName[name]) else None
  }

  /**
    Channel ids starting with `C` (public channel) or `G` (private group) name
    shared channels; every other id is a direct conversation. This is the
    `startswith` test: an empty id is not shared.
  */
  predicate StartsShared(channel: string) {
    |channel| > 0 && (channel[0] == 'C' || channel[0] == 'G')
  }

  /** One call of `rtm_send_message(channel, text)`. */
  datatype Sent = Sent(channel: string, text: string)

  /** The client: its session, and the ordered log of real-time sends. */
  class Client {
    const session: Session
    var outbox: seq<Sent>

    constructor (session: Session)
      ensures this.session == session && outbox == []
    {
      this.session := session;
      outbox := [];
    }

    /** `rtm_send_message`: the text goes out on the channel, after everything sent before. */
    method RtmSendMessage(channel: string, text: string)
      modifies this
      ensures outbox == old(outbox) + [Sent(channel, text)]
    {
      outbox := outbox + [Sent(channel, text)];
    }
  }

  /** A log that grew by `done` and then by `step` grew by `done + step`. */
  lemma LogGrows(log0: seq<Sent>, log: seq<Sent>, done: seq<Sent>, step: seq<Sent>, total: seq<Sent>)
    requires log == log0 + done && total == done + step
    ensures log + step == log0 + total
  {
  }

  /** The two plugin categories of the registry. */
  datatype Category = ListenTo | RespondTo

  /**
    One item yielded by `get_plugins(category, text)`: the handler's function
    name, or None for the falsy placeholder the registry yields when nothing
    matches, and the captured arguments.
  */
  datatype PluginMatch = PluginMatch(handler: Option<string>, args: seq<string>)

  /** What a running handler does with the Message it is given. */
  datatype Action = Reply(text: string) | Send(text: string)

  /** How a handler call ends: normally, or with an exception whose `format_exc()` is `trace`. */
  datatype Outcome = Ok | Fault(trace: string)

  /** One run of a handler: the calls it makes on its Message, then how it ends. */
  datatype HandlerRun = HandlerRun(actions: seq<Action>, outcome: Outcome)

  /**
    The plugin registry: `getPlugins` is `get_plugins`, and `run(name, body, args)`
    is what calling the handler named `name` on a Message over `body` with
    `args` does.
  */
  datatype Plugins = Plugins(
    getPlugins: (Category, string) -> seq<PluginMatch>,
    run: (string, map<string, string>, seq<string>) -> HandlerRun
  )
}

# Message classification and routing of aiml-slack-bot

This project models the message dispatcher of a Slack bot (`slackbot/dispatcher.py`) and proves what it does. The dispatcher reads real-time events and classifies each one. An event can come from the bot itself, be addressed to the bot, or be general chatter. The dispatcher queues the result for a worker pool. For each queued message it either runs the matching plugin handlers, reporting each handler fault back to the channel, or asks a conversational engine for an answer. The engine is used only for a hard-coded allow-list of one user and one channel.

Files and modules:

- `at_message.dfy` (`AtMessage`): the mention regex `^\<@(\w+)\>:? (.*)$` written out as a string function. It follows Python's `re.match` semantics: `\w` is ASCII `[A-Za-z0-9_]`, `.` stops at a newline, and `$` may stand just before one final newline. It also defines the mention shape `MentionText` and proves that the matcher and the shape agree in both directions.
- `slack.dfy` (`Slack`): the collaborators, as values the model passes in. The client's session holds the bot's name and id, the user directory, the name-to-id lookup and the channel names. The `Client` class holds the log of real-time sends (`outbox`). The plugin registry is a function from (category, text) to the `get_plugins` items. A handler run is the calls it makes on its `Message`, followed by `Ok` or `Fault(trace)`.
- `replies.dfy` (`Replies`): the `Message` class given to handlers. Its id lookup and mention formatting are functions. `Reply` and `Send` are methods that append to the client's log.
- `classifier.dfy` (`Classifier`): `MessageType`, `MessageInfo`, the event object `RawEvent`, the addressing resolver `Resolve` and the classifier `Classify`, all as specification functions, with the lemmas about them.
- `routing.dfy` (`Routing`): the sends that dispatching one message causes (`DispatchSends`), plus the routing, authorisation and fault-isolation lemmas.
- `dispatcher.dfy` (`Dispatcher`): the `MessageDispatcher` class. Its methods `MsgRespondTo`, `ParseMessage`, `RulesMatch`, `DispatchMsg`, `DispatchRulesMessage` and `DispatchAimlMessage` loop and update state as the source does, and each is proved against the specification functions. `Loop` is one pass of the event loop, appending to the pool's queue. The module also holds the end-to-end lemmas and the scenarios.

Behaviours of the code that the model keeps, and that a reader might not expect:

- After `>` and the optional `:`, the pattern takes exactly one space. Any further spaces stay in the rest.
- An event whose sender cannot be determined is not dropped. `parseMessage` returns `None`, and the loop still queues that `None` (`Dispatcher.UnattributedEventQueuedAsNone`). Dispatching a `None` task raises at the first attribute access (line 42) before anything is sent (`DispatchMsg` returns `raised`).
- `$` matches before a final newline, so a mention whose text ends in `\n` is rewritten without that newline.
- The resolver rewrites the event in place, so classifying one event object twice is not idempotent, in either kind of channel. A text made of two leading mentions loses one per pass: mentions of anyone in a direct conversation, mentions of the bot in a shared channel (`Classifier.NormalizationNotIdempotent`).
- A message at the bot that only a `listen_to` pattern matches counts as a rules message. The dispatcher then asks only `respond_to`, so nobody answers it (`Routing.AtBotListenOnlyIsSilent`).

## Model

| member | source | states |
|---|---|---|
| `AtMessage.Match` | slackbot/dispatcher.py:14 | `AT_MESSAGE_MATCHER.match` with its two groups; no contract of its own: `AtMessage.MatchIff` states which texts it accepts and what it returns |
| `AtMessage.WordRun` | slackbot/dispatcher.py:14 | the greedy `\w+` covers the longest prefix of ASCII word characters: every character before it is one, and the character at it is not |
| `AtMessage.MatchIff` | slackbot/dispatcher.py:14 | the matcher returns groups `(id, rest)` exactly when the text is `<@id>`, an optional `:`, one space, `rest` and an optional final newline, with `id` a non-empty word and `rest` newline-free (both directions) |
| `AtMessage.MatchComplete` | slackbot/dispatcher.py:14 | every text of the mention shape matches, and its groups are exactly its id and rest |
| `AtMessage.MatchSound` | slackbot/dispatcher.py:14 | every match has the mention shape, with the groups as its id and rest |
| `AtMessage.OnlyPrefixMentions` | slackbot/dispatcher.py:14 | text that does not begin with `<` never matches, so a mention later in the text is ignored |
| `Classifier.Resolve` | slackbot/dispatcher.py:114-132 | what `msgRespondTo` returns and writes to `msg['text']`; no contract of its own: `SharedChannelAddressing`, `MentionOfOtherUser`, `DirectAddressing` and `MentionStripped` state it, and `MsgRespondTo` is proved against it |
| `Classifier.SharedChannelAddressing` | slackbot/dispatcher.py:114-127 | in a `C`/`G` channel the message is addressed exactly when its text is a mention of the bot's id; then the text is rewritten to the mention's rest, otherwise nothing is written |
| `Classifier.MentionOfOtherUser` | slackbot/dispatcher.py:119-125 | in a `C`/`G` channel a mention of any id other than the bot's is not addressed and the text is not rewritten |
| `Classifier.DirectAddressing` | slackbot/dispatcher.py:128-132 | in any other channel the message is always addressed; a leading mention of any id is rewritten to its rest, and a text that is no mention is not rewritten |
| `Classifier.MentionStripped` | slackbot/dispatcher.py:114-132 | a mention the resolver answers (of any id in a direct conversation, of the bot's id in a shared channel) is addressed and rewritten to exactly its rest |
| `Classifier.NormalizationNotIdempotent` | slackbot/dispatcher.py:114-132 | a text made of two leading mentions that the resolver answers loses exactly one of them per pass, in either kind of channel, so a second pass changes the text again |
| `Dispatcher.MessageDispatcher.MsgRespondTo` | slackbot/dispatcher.py:114-132 | returns the event itself exactly when the resolver addresses it, and rewrites the event's `text` field in place with the resolver's value, leaving every other field alone |
| `Classifier.SenderOf` | slackbot/dispatcher.py:84-92 | the sender: the user directory's name for `user`, else `username`, else nobody; no contract of its own: `ClassificationFields` states it |
| `Classifier.Classify` | slackbot/dispatcher.py:76-112 | `parseMessage`'s result; no contract of its own: `ClassificationFields`, `SharedChannelClassification` and `DirectClassification` state it, and `ParseMessage` is proved equal to it |
| `Classifier.ClassificationFields` | slackbot/dispatcher.py:76-112 | an event is dropped exactly when it names no known user and has no `username`; the sender is the directory name, else the `username`; `isChangedMessage` holds exactly for subtype `message_changed`; a bot message is returned exactly when the sender is the bot's name, and then it is not a rules message and its text is untouched; otherwise the type is general or at-bot and `isRulesMessage` is the rules-handler test on the normalised text |
| `Classifier.SharedChannelClassification` | slackbot/dispatcher.py:99-112 | in a `C`/`G` channel the message is at-bot exactly when its text mentions the bot's id, with the text replaced by the mention's rest; otherwise it is general and the event is unchanged |
| `Classifier.DirectClassification` | slackbot/dispatcher.py:99-112 | in a direct conversation the message is always at-bot; a leading mention of any id is stripped, and otherwise the event is unchanged |
| `Dispatcher.MessageDispatcher.RulesMatch` | slackbot/dispatcher.py:103-107 | the nested loop's flag is true exactly when some item of `respond_to` or of `listen_to` for the text carries a truthy handler |
| `Dispatcher.MessageDispatcher.ParseMessage` | slackbot/dispatcher.py:76-112 | returns the classification of the event as it was on entry, and leaves the event normalised when the sender is not the bot, and untouched otherwise |
| `Dispatcher.SelfMessageNeverAnswered` | slackbot/dispatcher.py:94-96 | a message from the bot's own name is a bot message, with no rules flag and its text untouched, and dispatching it sends nothing, whatever the plugins and the engine; the channel must be known only when the message is not edited, as the fallback looks it up |
| `Dispatcher.ClassifiedIsDispatchable` | slackbot/dispatcher.py:41-74 | every message `parseMessage` returns meets what the dispatch path it takes reads, given a channel the client knows when that path is the fallback (the only one that looks the channel up) |
| `Dispatcher.DirectMessageScenario` | slackbot/dispatcher.py:84-132 | `{channel: D123, text: hello, user: U1}` with U1 named alice is an at-bot message from alice with text `hello` |
| `Dispatcher.MentionOfBotScenario` | slackbot/dispatcher.py:114-127 | `<@U9>: ping` in channel C55, with bot id U9, is an at-bot message with text `ping` |
| `Dispatcher.MentionOfOtherScenario` | slackbot/dispatcher.py:119-125 | `<@U2>: ping` in channel C55, with bot id U9, is a general message with its text unchanged |
| `Routing.DispatchSends` | slackbot/dispatcher.py:41-48 | the sends of `dispatch_msg`; no contract of its own: `EditedMessageIgnored`, `RulesMessageSkipsFallback`, `FallbackAuthorisation` and `OnlyAtBotReachesFallback` state it, and `DispatchMsg` is proved against it |
| `Dispatcher.MessageDispatcher.DispatchMsg` | slackbot/dispatcher.py:41-48 | a `None` task raises and sends nothing; any other task appends exactly its dispatch sends to the client's log |
| `Routing.EditedMessageIgnored` | slackbot/dispatcher.py:41-48 | an edited message causes no send |
| `Routing.RulesMessageSkipsFallback` | slackbot/dispatcher.py:41-66 | a rules message sends only what the plugins of its category send (`respond_to` when at the bot, `listen_to` otherwise), and what it sends does not depend on the engine |
| `Routing.AtBotListenOnlyIsSilent` | slackbot/dispatcher.py:59-67 | an at-bot rules message with no truthy `respond_to` handler sends nothing at all |
| `Routing.FallbackAuthorisation` | slackbot/dispatcher.py:50-57 | a non-edited message without a rules handler sends something exactly when it is at the bot and its sender is `quinn.thomson` or its channel is named `beepboop-lab`; it then sends exactly one message, the engine's answer to its text, on its channel |
| `Routing.OnlyAtBotReachesFallback` | slackbot/dispatcher.py:41-57 | general and bot messages send only what their plugins send, and never an engine answer |
| `Routing.FallbackSends` | slackbot/dispatcher.py:50-57 | the sends of `dispatchAIMLMessage`; no contract of its own: `FallbackAuthorisation` states it |
| `Dispatcher.MessageDispatcher.DispatchAimlMessage` | slackbot/dispatcher.py:50-57 | appends exactly the fallback's sends to the client's log |
| `Routing.CategoryOf` | slackbot/dispatcher.py:62-64 | the category asked: `respond_to` for an at-bot message, `listen_to` otherwise; no contract of its own: `RulesMessageSkipsFallback` states it |
| `Routing.PluginSends` | slackbot/dispatcher.py:59-74 | the sends of `dispatchRulesMessage`; no contract of its own: `RulesMessageSkipsFallback` and `AtBotListenOnlyIsSilent` state it |
| `Routing.RulesSends` | slackbot/dispatcher.py:66-74 | the sends of the plugin loop; no contract of its own: `FaultIsolation`, `RulesSendsAppend` and `NoHandlerNoSends` state it |
| `Routing.HandlerSends` | slackbot/dispatcher.py:67-74 | the sends of one registry item; no contract of its own: `FaultIsolation` states it |
| `Dispatcher.MessageDispatcher.DispatchRulesMessage` | slackbot/dispatcher.py:59-74 | runs the items of the message's category in registry order and appends exactly the plugin loop's sends to the client's log |
| `Dispatcher.MessageDispatcher.HandleMatches` | slackbot/dispatcher.py:66-74 | the items are handled one after another, in registry order, and the log grows by exactly the plugin loop's sends |
| `Dispatcher.MessageDispatcher.HandleMatch` | slackbot/dispatcher.py:66-74 | for one registry item: nothing when the handler is falsy; otherwise the handler's own sends, then exactly one fault reply on the channel when it faults |
| `Dispatcher.MessageDispatcher.InvokeHandler` | slackbot/dispatcher.py:68-70 | the handler's calls on its fresh `Message` are carried out in order, and its fault is returned rather than raised |
| `Routing.FaultIsolation` | slackbot/dispatcher.py:66-74 | the plugin loop's sends are those of the items before item i, then item i's, then those of the items after it, whatever item i's outcome; a faulting handler adds exactly one fault reply after its own sends, a normal one adds none, and a falsy item adds nothing |
| `Routing.RulesSendsAppend` | slackbot/dispatcher.py:66-74 | the plugin loop over two consecutive runs of items sends what the two loops send, one after the other |
| `Routing.NoHandlerNoSends` | slackbot/dispatcher.py:66-67 | a registry result without a truthy handler sends nothing |
| `Routing.FaultReport` | slackbot/dispatcher.py:72-73 | the fault reply starts with `[<name>] I have problem when handling "<text>"` and a newline, and holds the trace inside a code block |
| `Replies.GetUserId` | slackbot/dispatcher.py:160-164 | `_get_user_id`; no contract of its own: `ReplyShape` and `UnknownSenderMentionsNone` state it |
| `Replies.GenAtMessage` | slackbot/dispatcher.py:166-168 | `_gen_at_message`; no contract of its own: `ReplyShape` and `ReplyRoundTrip` state it |
| `Replies.GenReply` | slackbot/dispatcher.py:170-175 | `_gen_reply`; no contract of its own: `ReplyShape`, `ReplyRoundTrip` and `ReplyReadBack` state it |
| `Replies.ReplyShape` | slackbot/dispatcher.py:160-175 | in a `C`/`G` channel a reply is `<@uid>: text`, where uid is the `user` field when there is one and the name lookup of `username` otherwise; elsewhere it is the text unchanged |
| `Replies.ReplyRoundTrip` | slackbot/dispatcher.py:166-175 | a reply in a shared channel to a word-character id with newline-free text matches the mention regex with exactly that id and text as its groups |
| `Replies.UnknownSenderMentionsNone` | slackbot/dispatcher.py:160-168 | when no user id is found, the reply mentions `<@None>`, which the matcher reads as the id `None` |
| `Dispatcher.ReplyReadBack` | slackbot/dispatcher.py:114-175 | a reply in a shared channel, read back by the resolver, is addressed exactly when the mentioned id is the bot's own, and then strips back to the reply's text |
| `Replies.Message.Reply` | slackbot/dispatcher.py:199-207 | appends one message, the formatted reply, on the event's channel |
| `Replies.Message.Send` | slackbot/dispatcher.py:209-217 | appends one message, the text unchanged, on the event's channel |
| `Dispatcher.EnqueuedTasks` | slackbot/dispatcher.py:137-141 | the tasks one pass of the loop body queues; no contract of its own: `EnqueuedTasksAppend`, `NonMessageSkipped`, `MessagesQueuedInOrder` and `UnattributedEventQueuedAsNone` state it, and `Loop` is proved against it |
| `Dispatcher.MessageDispatcher.Loop` | slackbot/dispatcher.py:137-141 | appends to the queue exactly the tasks of the batch, in arrival order |
| `Dispatcher.EnqueuedTasksAppend` | slackbot/dispatcher.py:137-141 | the tasks of two consecutive batches are those of the first, then those of the second |
| `Dispatcher.NonMessageSkipped` | slackbot/dispatcher.py:138-139 | an event whose type is not `message` adds no task |
| `Dispatcher.MessagesQueuedInOrder` | slackbot/dispatcher.py:137-141 | a batch of message events adds one task per event, the i-th being the classification of the i-th event |
| `Dispatcher.UnattributedEventQueuedAsNone` | slackbot/dispatcher.py:88-92 | a message event without a known user or a `username` still adds a task, `None` |

## Left out

- `slackbot/aimlResponder.py` and the AIML kernel: the engine is the opaque function `respond` given to the dispatcher. The engine's learning state across calls is not modelled.
- The worker pool (`WorkerPool`, its threads, `start`, and how workers take tasks): submitting a task is appending it to the `queue` sequence. The order and concurrency of dispatching, and what a worker does after a task raises, are not modelled.
- The outer `while True` of `loop`, `rtm_read` and `time.sleep(1)`: these are I/O and timing. `Loop` is one pass of the body over a batch that is given to it.
- `to_utf8` is the identity on strings. `print`, `logger` calls and the real traceback text (an opaque `trace` string) are left out.
- `_default_reply`: nothing calls it, and its text depends on Python 2 dict order and on reflection over handlers.
- `reply_webapi`, `send_webapi` and the `channel` and `body` properties: they pass through to the client's web API. Their only logic is `_gen_reply`, which is modelled.
- The slackclient is not part of this model. Its user directory is a map from ids to names, `find_user_by_name` is a map from names to ids, and `get_channel(...).name()` is a map from channel ids to names. In the client both lookups come from the same user directory; in the model the two maps are unrelated, and no proved property depends on their agreeing.
- Paths that raise in the source are stated as preconditions: a missing `text` field (line 102), a missing `channel` key (line 116), an empty channel id (line 118), a channel that `get_channel` does not know (line 52), and an event with neither `user` nor `username` given to `_get_user_id` (line 164).
- Dispatcher.MessageDispatcher.DispatchRulesMessage: requires the event's channel, and its `user` or `username` in shared channels, even when no handler replies. The source reads these only when a handler replies or faults. Every message the classifier flags as a rules message carries them.
- A plugin handler is modelled as a script of `reply`/`send` calls on its `Message`, followed by its outcome. The script is looked up by the handler's `__name__`, so two distinct handlers with the same name are made to behave alike. A handler that changes the event or calls the client in other ways is not modelled. So is a `KeyError` raised inside `reply`.
- `MessageInfo.message` is the event's fields as `parseMessage` leaves them, held as a value. Later changes to the shared dictionary are not seen.

# slackbot-spring: the Slack handlers, modelled in Dafny

The bot registers three handlers with a Slack Bolt `App` in
`SlackApp.initSlackApp`:

- the `/hello` slash command, which responds in the channel with a fixed text and then acknowledges;
- the `app_mention` event, which picks a reply from the token after the first space of the mention text, posts it to the context's channel and then acknowledges;
- a message matching `あなたとJava`, which adds the `yoshi` reaction to the message, posts a fixed two-line text to its channel and then acknowledges.

Two private helpers, `postChatInChannel` and `addReaction`, call the Slack Web API. Each makes one `println` call saying how the call went: a fixed success line on standard output, or on standard error a failure notice that names every argument and the error reason.

The model has six modules:

- `Options` (`options.dfy`): the `Option` type.
- `Strings` (`strings.dfy`): Kotlin's `split(" ")` with a one-character delimiter. Every occurrence splits, empty pieces are kept, there is no limit, and `""` splits into `[""]`. It is written as Kotlin writes it, as a scan with `indexOf` from a moving offset. It is proved to be the inverse of joining. Proved about it:
  - the piece count is one more than the number of delimiters;
  - no piece holds the delimiter;
  - the second piece exists exactly when the text holds a delimiter.
- `Mention` (`mention.dfy`): `text.split(" ")[1]` and the three-entry reply table. `SecondToken` is `None` exactly where Kotlin's `[1]` throws `IndexOutOfBoundsException`.
- `Reporting` (`reporting.dfy`): the report a Web API call produces, as a `Report(stream, text)`. `error` is nullable and Kotlin renders a null `${error}` as `null`, which `Show` reproduces.
- `Slack` (`slack.dfy`): the request `Context` as a class whose one mutable field is a trace of effects. The effects are `Respond`, `PostMessage`, `AddReaction`, `Output` (one print call) and `Ack`. Slack's answer to each Web API call is an input of the method that makes the call.
- `Handlers` (`handlers.dfy`): the three handlers and the two helpers as methods on a `Context`. Each method is proved to append exactly the effect sequence given by a specification function, and lemmas state what those sequences promise.

Three facts about the code shape the model:

- `/hello` first calls `context.respond` with an in-channel response carrying the text (SlackApp.kt:47), then calls `context.ack()` with no payload (SlackApp.kt:54).
- The message handler posts `いますぐダウンロー\nド`, which contains a line break (SlackApp.kt:92).
- A mention whose text has no space throws at `split(" ")[1]` (SlackApp.kt:67) before doing anything. The model keeps this as `Outcome.IndexOutOfBounds`, with nothing appended to the trace. It does not substitute a fallback reply.

## Model

| member | source | states |
|---|---|---|
| `Strings.IndexOf` | src/main/kotlin/dev/satsukies/sample/slackbotspring/SlackApp.kt:67 | the position found is at or after the start and holds the delimiter, or is the end of the text (Kotlin's -1) |
| `Strings.IndexOfFirst` | src/main/kotlin/dev/satsukies/sample/slackbotspring/SlackApp.kt:67 | no delimiter stands between the start and the position found, so it is the first one |
| `Strings.IndexOfFinds` | src/main/kotlin/dev/satsukies/sample/slackbotspring/SlackApp.kt:67 | the search finds a position exactly when the delimiter occurs in the rest of the text |
| `Strings.Split` | src/main/kotlin/dev/satsukies/sample/slackbotspring/SlackApp.kt:67 | `split` always yields at least one piece, even for the empty text |
| `Strings.SplitSecond` | src/main/kotlin/dev/satsukies/sample/slackbotspring/SlackApp.kt:67 | the split has a second piece iff the text holds the delimiter, and that piece is the text between the first delimiter and the next one or the end |
| `Strings.JoinSplit` | src/main/kotlin/dev/satsukies/sample/slackbotspring/SlackApp.kt:67 | joining the pieces with the delimiter gives back the text, so `split` loses nothing and keeps empty pieces |
| `Strings.SplitJoin` | src/main/kotlin/dev/satsukies/sample/slackbotspring/SlackApp.kt:67 | splitting a join of delimiter-free pieces gives back exactly those pieces, which makes `split` and join inverse |
| `Strings.SplitFromPiecesLackDelimiter` | src/main/kotlin/dev/satsukies/sample/slackbotspring/SlackApp.kt:67 | no piece of a split contains the delimiter |
| `Strings.SplitCount` | src/main/kotlin/dev/satsukies/sample/slackbotspring/SlackApp.kt:67 | a split has one piece more than the text has delimiters, because every occurrence splits and there is no limit |
| `Mention.SecondToken` | src/main/kotlin/dev/satsukies/sample/slackbotspring/SlackApp.kt:67 | `split(" ")[1]` exists iff the text contains a space; otherwise the index is out of bounds |
| `Mention.ReplyFor` | src/main/kotlin/dev/satsukies/sample/slackbotspring/SlackApp.kt:67-71 | the reply is `pong` iff the token is `ping`, `気づいたんや…` iff it is `なるほど`, and the fallback iff it is neither |
| `Mention.MentionReply` | src/main/kotlin/dev/satsukies/sample/slackbotspring/SlackApp.kt:67-71 | there is no reply iff the text has no space; otherwise the reply is one of the three fixed replies |
| `Mention.SecondTokenSpan` | src/main/kotlin/dev/satsukies/sample/slackbotspring/SlackApp.kt:67 | the token is exactly the text strictly between the first space and the next space, or between the first space and the end |
| `Mention.SecondTokenOf` | src/main/kotlin/dev/satsukies/sample/slackbotspring/SlackApp.kt:67 | conversely, any space-free word placed after the first space and followed by a space or the end is the token selected |
| `Mention.DoubleSpaceFallsBack` | src/main/kotlin/dev/satsukies/sample/slackbotspring/SlackApp.kt:67-71 | two spaces in a row select the empty token, which gets the fallback reply |
| `Mention.MentionWordReply` | src/main/kotlin/dev/satsukies/sample/slackbotspring/SlackApp.kt:67-71 | `<mention> <word>` gets the table's reply for the word, and `<mention> ping` gets `pong` |
| `Reporting.PostMessageReport` | src/main/kotlin/dev/satsukies/sample/slackbotspring/SlackApp.kt:116-125 | the report goes to standard output iff the post is ok, and it is the success line iff the post is ok |
| `Reporting.ReactionReport` | src/main/kotlin/dev/satsukies/sample/slackbotspring/SlackApp.kt:148-158 | the report goes to standard output iff the reaction is ok, and it is the success line iff the reaction is ok |
| `Reporting.PostFailureText` | src/main/kotlin/dev/satsukies/sample/slackbotspring/SlackApp.kt:119-124 | a failed post prints, on standard error, the header followed by the channel, message and reason lines in that order, with `null` for a missing reason |
| `Reporting.ReactionFailureText` | src/main/kotlin/dev/satsukies/sample/slackbotspring/SlackApp.kt:151-157 | a failed reaction prints, on standard error, the header followed by the channel, timestamp, reaction and reason lines in that order |
| `Reporting.NoticeNamesField` | src/main/kotlin/dev/satsukies/sample/slackbotspring/SlackApp.kt:119-124 | every field of a failure notice occurs in it as its own `name = value` line |
| `Reporting.PostFailureNamesArguments` | src/main/kotlin/dev/satsukies/sample/slackbotspring/SlackApp.kt:119-124 | a failed post's report contains the channelId, the message and the error reason |
| `Reporting.ReactionFailureNamesArguments` | src/main/kotlin/dev/satsukies/sample/slackbotspring/SlackApp.kt:151-157 | a failed reaction's report contains the channelId, the timestamp, the reaction name and the error reason |
| `Reporting.SuccessReportsAreFixed` | src/main/kotlin/dev/satsukies/sample/slackbotspring/SlackApp.kt:116-149 | a successful call's report is the fixed success line, independent of the arguments and of the error field |
| `Slack.Context.constructor` | src/main/kotlin/dev/satsukies/sample/slackbotspring/SlackApp.kt:62-65 | a fresh request context belongs to its channel and has done nothing yet |
| `Slack.Context.Respond` | src/main/kotlin/dev/satsukies/sample/slackbotspring/SlackApp.kt:47 | `context.respond` appends one response effect and nothing else |
| `Slack.Context.Ack` | src/main/kotlin/dev/satsukies/sample/slackbotspring/SlackApp.kt:54 | `context.ack()` appends one acknowledgement and nothing else |
| `Slack.Context.ChatPostMessage` | src/main/kotlin/dev/satsukies/sample/slackbotspring/SlackApp.kt:112-114 | `chatPostMessage` records a post of the text to the channel and returns Slack's answer |
| `Slack.Context.ReactionsAdd` | src/main/kotlin/dev/satsukies/sample/slackbotspring/SlackApp.kt:142-146 | `reactionsAdd` records the reaction on the message at the timestamp and returns Slack's answer |
| `Slack.Context.Print` | src/main/kotlin/dev/satsukies/sample/slackbotspring/SlackApp.kt:117-124 | `println` and `System.err.println` append one printed line on their stream |
| `Handlers.PostChatInChannel` | src/main/kotlin/dev/satsukies/sample/slackbotspring/SlackApp.kt:107-126 | appends the post followed by its report, the success line or the failure notice according to `isOk` |
| `Handlers.AddReactionTo` | src/main/kotlin/dev/satsukies/sample/slackbotspring/SlackApp.kt:136-159 | appends the reaction followed by its report, the success line or the failure notice according to `isOk` |
| `Handlers.HandleHello` | src/main/kotlin/dev/satsukies/sample/slackbotspring/SlackApp.kt:40-55 | appends the in-channel response with the fixed text, then the acknowledgement |
| `Handlers.HandleMention` | src/main/kotlin/dev/satsukies/sample/slackbotspring/SlackApp.kt:62-76 | throws iff the text has no space, and then appends nothing; otherwise appends the post of the selected reply to the context's channel, its report and the acknowledgement |
| `Handlers.HandleMessage` | src/main/kotlin/dev/satsukies/sample/slackbotspring/SlackApp.kt:84-95 | appends the `yoshi` reaction on the message with its report, then the download post to its channel with its report, then the acknowledgement |
| `Handlers.HelloShape` | src/main/kotlin/dev/satsukies/sample/slackbotspring/SlackApp.kt:40-54 | `/hello` responds in the channel with the fixed text, makes no Web API call, and acks exactly once, last |
| `Handlers.MentionShape` | src/main/kotlin/dev/satsukies/sample/slackbotspring/SlackApp.kt:67-75 | a mention with a space makes exactly one Web API call, a post of the selected reply to the context's channel, then acks exactly once, last, so its outbound actions are exactly that post and that ack; without a space it does nothing |
| `Handlers.MessageShape` | src/main/kotlin/dev/satsukies/sample/slackbotspring/SlackApp.kt:88-94 | the message handler makes exactly two Web API calls, the reaction before the post, and then acks exactly once, last, whatever Slack answers |
| `Handlers.MessageFailuresOnlyReport` | src/main/kotlin/dev/satsukies/sample/slackbotspring/SlackApp.kt:91-94 | a failed reaction or post changes only what is printed: the outbound actions are the same for every answer, and exactly one report is printed per call |
| `Handlers.MentionFailureOnlyReports` | src/main/kotlin/dev/satsukies/sample/slackbotspring/SlackApp.kt:73-75 | Slack's answer to the mention's post does not change the mention handler's outbound actions |
| `Handlers.PingMention` | src/main/kotlin/dev/satsukies/sample/slackbotspring/SlackApp.kt:62-76 | a mention `<mention> ping` posts `pong` to the context's channel and then acks, and does nothing else outbound |

## Left out

- Bolt's dispatch (`app.command`, `app.event`, `app.message`) and the choice of which handler runs happen inside the SDK. Each handler is modelled as called for its own event.
- The message trigger `Pattern.compile("あなたとJava")` (SlackApp.kt:162-164), and whether Bolt uses find or full match, is library behaviour. The pattern has no regular-expression metacharacters. `HandleMessage` is modelled as already triggered, and the text of the event is not read.
- The network calls `chat.postMessage`, `reactions.add`, `context.respond` and `ack` are recorded only as trace entries. Slack's answer is an input, and only its `isOk` and `error` are modelled.
- A call that throws is not modelled. `context.respond` (SlackApp.kt:47), `client.chatPostMessage` (SlackApp.kt:112) and `client.reactionsAdd` (SlackApp.kt:142) run without a try/catch, so an `IOException` or `SlackApiException` from one of them ends the handler: its report, every later step and the `ack` are skipped. The model has every call return an answer. So `MessageShape`, `MessageFailuresOnlyReport` and `MentionFailureOnlyReports` hold for every answer that comes back, not for a call that throws.
- Timing is not modelled: the three-second acknowledgement deadline, Slack's retries (SlackApp.kt:49-53), and concurrent dispatch.
- The printing itself is I/O; only the printed text and its stream are modelled.
- Spring wiring and configuration contain no logic and are not part of this model: `loadAppConfig` with the token and signing-secret injection (SlackApp.kt:16-27), the `main` bootstrap in `SlackbotSpringApplication.kt`, the Flyway clean/migrate in `FlywayConfig.kt`, and `build.gradle.kts`.
- Kotlin's `split` is modelled for the one-character delimiter the handler uses. Splitting on longer delimiters and `split` with a limit are not modelled.

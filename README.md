# FoxyGPT message pipeline, modelled in Dafny

FoxyGPT is a Discord bot that watches one channel. For each new message its
`MessageCreate` handler does five things in order:

1. It drops events from other channels and from the bot itself.
2. It runs non-empty text through the OpenAI moderation endpoint. A flagged message is deleted and the pass stops.
3. It keeps only image attachments and, when the text is non-empty, appends a user turn to the shared transcript `conversation`.
4. It renders the whole transcript into one chat completion request.
5. It reads the reply. The first line-start `YES`/`NO` is the verdict, and everything after the first newline is the text to send. Unless that text is empty or the verdict is exactly `NO`, the bot sends it and appends it as an assistant turn.

The model has one module per stage:

- `History` (`history.dfy`): the `DiscordMessageHistory` record as `Turn`, and the `conversation` array as the class `Conversation`. The class has a `seq<Turn>` field that `Push` extends. `SystemPrompt` and `SeedTurn` are the persona turn the array starts with, character for character.
- `Intake` (`intake.dfy`): the inbound `Message`, the environment `Env` (`CHANNEL_ID`, `bot.user?.id`), the channel/author filter `Admits`, the image filter `ImageOnly`, the moderation gate `Gate` and the user turn `UserTurns`.
- `Prompt` (`prompt.dfy`): the `conversation.map(...)` renderer. `RenderMessage` is the callback, with its `for` loop pushing image parts. `RenderConversation` is the `map`. The functions `Labelled`, `ImageParts`, `RenderTurn` and `Render` specify both.
- `Reply` (`reply.dfy`): the two regular expressions, as `Verdict` (`/^(YES|NO)/im`) and `StripFirstLine` (`/^[^\n]*\n/`), and the dispatch decision `Decide`.
- `Handler` (`handler.dfy`): the handler. `OnMessageCreate` and `AnswerMessage` change the `Conversation` in place. Each is proved equal to the pure specification `Pass` / `Answer` of one pass. `Run` chains passes for the append-only lemmas.

The two backend calls are parameters of the handler. Each is a total function from the request the handler builds to the answer it gets. Moderation answers `ModerationReply(flagged)` or `ModerationThrew`. The completion answers `Completed(content)`, where the content may be null, or `CompletionThrew`. What the pass does on Discord comes back as a list of `Effect`s: `RetractRequested` for `message.delete()` and `Sent(text)` for `message.channel.send`.

Details of the JavaScript that the model keeps:

- An undefined `CHANNEL_ID` matches no channel, so every event is dropped.
- A client with no `bot.user` filters no author.
- `msg.username ? … : …` treats an empty name as no name.
- The `m` flag lets `^` match after `\n`, `\r`, U+2028 and U+2029.
- Without the `u` flag, the `i` flag folds only ASCII letters for this pattern.
- The stripping regex has no `m` flag, so it only removes the first line.
- A completion call that throws does so after the user turn was pushed, so that turn stays.

Consequences of the code that the persona prompt does not lead one to expect, each proved as a lemma:

- The prompt (src/bot.ts:91-92) asks for `YES` or `NO` alone on the first line. The match at src/bot.ts:219 searches every line start, so `"hello\nNO"` is suppressed (`Reply.LaterLineNoIsIgnored`).
- A reply with no `YES`/`NO` token reaches only the log call at src/bot.ts:224-226, which has no `return`, so the reply is still sent (`Reply.NoVerdictStillResponds`).
- The test at src/bot.ts:233 compares with the exact string `"NO"`, while the match ignores case. So `no`, `No` and `nO` are sent (`Reply.LowerCaseNoStillResponds`).
- The pattern has no word boundary, so `"Nope"` yields the verdict `"No"` (`Reply.NopeYieldsNo`).
- A one-line reply has no newline to strip, so the whole line, token included, is kept as the reply text. So `"YES"` sends `"YES"` (`Reply.SingleLineYesIsSent`), while `"NO"` is still suppressed by its verdict (`Reply.SingleLineNoIsIgnored`).
- Empty text skips both the moderation call and the push. The code does not return there, despite the comment at src/bot.ts:131, so the images of a message with no text never reach the transcript. A completion is still requested, and a reply may still be sent (`Handler.EmptyTextSkipsModeration`).
- An empty reply returns at src/bot.ts:228-231 and sends nothing.

## Model

| member | source | states |
|---|---|---|
| Intake.Admits | src/bot.ts:117-121 | the event filter; its cases are stated by `Intake.AdmitsCases` and its effect on a pass by `Handler.FilteredPassIsInert` |
| Intake.Gate | src/bot.ts:131-154 | the moderation step; `Handler.EmptyTextSkipsModeration`, `Handler.FlaggedAppendsNothing` and `Handler.ModerationFailureAppendsNothing` state what each of its answers does to a pass |
| Intake.UserTurns | src/bot.ts:162-170 | the user turn of a message; pinned down by `Intake.UserTurnsShape` |
| Prompt.Labelled | src/bot.ts:177-179 | `msgContent`; pinned down by `Prompt.LabelledRoundTrip` |
| Prompt.RenderTurn | src/bot.ts:181-212 | the callback's result for one turn, with `Prompt.Parts` as the `content` array built at src/bot.ts:183-200; pinned down by `Prompt.RenderUserTurn` and `Prompt.RenderOtherTurn`, and computed by `Prompt.RenderMessage` |
| Reply.Verdict | src/bot.ts:219 | `replyBool`; pinned down by `Reply.VerdictSpec`, `Reply.VerdictIsToken` and `Reply.VerdictUpperNo` |
| Reply.Decide | src/bot.ts:224-243 | the handler's tail decision; pinned down by `Reply.DecideCases`, `Reply.NoVerdictStillResponds` and `Reply.LowerCaseNoStillResponds` |
| Handler.Pass | src/bot.ts:116-249 | one pass of the handler; implemented by `Handler.OnMessageCreate` and described by the `Handler` lemmas from `FilteredPassIsInert` to `PassAppendOnly` |
| Handler.Answer | src/bot.ts:172-243 | the answering half of a pass; implemented by `Handler.AnswerMessage` and described by `Handler.DispatchOutcomes` and `Handler.AnswerAppendOnly` |
| Handler.Run | src/bot.ts:116-249 | passes run one after another, each event with its own environment; described by `Handler.RunAppendOnly` and `Handler.SeedStaysFirst` |
| History.AppendKeepsValid | src/bot.ts:77-99 | appending a user or assistant turn keeps the seed turn first, keeps every earlier turn and keeps the transcript well formed |
| History.Conversation.constructor | src/bot.ts:77-99 | the transcript starts as exactly the persona's system turn |
| History.Conversation.Push | src/bot.ts:164-169 | `push` leaves the old turns in place and adds the turn last; a well-formed turn keeps the transcript valid |
| Intake.AdmitsCases | src/bot.ts:117-121 | an undefined channel id admits nothing; with no bot user only the channel matters; otherwise the channel must match and the author must not be the bot |
| Intake.ImageOnly | src/bot.ts:156-160 | the kept attachments are exactly the input attachments whose content type is present and starts with `image`, and there are no more of them than before |
| Intake.ImageOnlyAppend | src/bot.ts:156-160 | filtering distributes over concatenation, so the kept attachments stay in their original order |
| Intake.ImageOnlyKeepsImages | src/bot.ts:156-160 | a list of images only passes through unchanged |
| Intake.ImageOnlyIdempotent | src/bot.ts:156-160 | filtering twice is filtering once |
| Intake.UserTurnsShape | src/bot.ts:162-170 | empty text makes no user turn; other text makes exactly one well-formed user turn with that text, the author's name and the image attachments |
| Prompt.LabelledRoundTrip | src/bot.ts:177-179 | a named turn's text is `username + ": "` followed by the content, and dropping that label gives the content back; an unnamed or empty-named turn's text is its content |
| Prompt.ImageParts | src/bot.ts:185-195 | one `image_url` part per attachment, at the same index, carrying that attachment's url |
| Prompt.Render | src/bot.ts:175-213 | the request has one message per turn, and message i is the rendering of turn i |
| Prompt.RenderUserTurn | src/bot.ts:183-206 | a user turn becomes a parts message: the image parts in attachment order, then exactly one text part with the labelled text |
| Prompt.RenderOtherTurn | src/bot.ts:207-212 | system and assistant turns become a plain string with their own role |
| Prompt.RenderAppend | src/bot.ts:175-213 | rendering a longer transcript extends the earlier rendering by the new turns' messages |
| Prompt.RenderMessage | src/bot.ts:176-212 | the callback's loop and pushes produce exactly the specified message for the turn |
| Prompt.RenderConversation | src/bot.ts:175-213 | the `map` over the transcript produces exactly the specified request messages |
| Reply.VerdictFrom | src/bot.ts:219 | the search from a position returns the token at the first line start at or after it that has one, or nothing when no such line start exists |
| Reply.VerdictSpec | src/bot.ts:219 | there is a verdict exactly when some line start carries a YES/NO token in any case, and it is the token at the earliest such line start |
| Reply.VerdictIsToken | src/bot.ts:219 | a verdict is three letters spelling YES or two letters spelling NO, ignoring case, as written in the reply |
| Reply.VerdictUpperNo | src/bot.ts:219 | the verdict is exactly `"NO"` iff the earliest line-start token is an upper-case `N` followed by an upper-case `O` |
| Reply.NopeYieldsNo | src/bot.ts:219 | `"Nope"` yields the verdict `"No"`: the match is the shortest token, with no word boundary |
| Reply.FirstLineLength | src/bot.ts:221 | the first line holds no newline and, unless it ends the text, is followed by one |
| Reply.StripFirstLine | src/bot.ts:221 | text without a newline comes back unchanged; otherwise the text is its first line, a newline, and the result |
| Reply.StripAfterPrefix | src/bot.ts:221 | stripping undoes prefixing any newline-free line and a newline |
| Reply.DecideCases | src/bot.ts:223-236 | no reply exactly for null, empty, or one line ending in a newline; suppression exactly when the reply is non-empty and the earliest line-start token is upper-case NO; a sent reply is non-empty and a suffix of the content |
| Reply.NoVerdictStillResponds | src/bot.ts:223-238 | a non-empty reply with no verdict token is sent, because the missing decision is only logged |
| Reply.LowerCaseNoStillResponds | src/bot.ts:232-238 | any verdict other than the exact `"NO"`, such as `no` or `No`, lets the reply through |
| Reply.SingleLineNoIsIgnored | src/bot.ts:219-236 | a single-line `"NO"` is its own reply and its own verdict, and it is suppressed |
| Reply.SingleLineYesIsSent | src/bot.ts:219-238 | a single-line `"YES"` sends the text `"YES"` |
| Reply.BareVerdictLineIsNoReply | src/bot.ts:221-231 | `"YES\n"` leaves an empty reply, so nothing is sent |
| Reply.LowerCaseNoExample | src/bot.ts:219-238 | `"no\nhi"` sends `"hi"` |
| Reply.LaterLineNoIsIgnored | src/bot.ts:219-236 | `"hello\nNO"` is suppressed: the verdict may sit on a later line |
| Handler.OnMessageCreate | src/bot.ts:116-170 | the handler leaves the transcript and returns the result that the specification of the pass gives for the old transcript, and keeps the transcript valid |
| Handler.AnswerMessage | src/bot.ts:172-243 | rendering, completion, parsing, send and assistant push give the result of the answering half of the specification, keeping the transcript valid |
| Handler.FilteredPassIsInert | src/bot.ts:117-121 | a message from another channel or from the bot changes nothing, sends nothing and requests nothing |
| Handler.FlaggedAppendsNothing | src/bot.ts:132-154 | flagged text is retracted, appends no turn, makes no completion request and sends nothing |
| Handler.ModerationFailureAppendsNothing | src/bot.ts:132-151 | a moderation call that throws ends the pass with the transcript unchanged, no effect and no request |
| Handler.EmptyTextSkipsModeration | src/bot.ts:132-173 | for empty text the moderation answer is irrelevant, no user turn is added, and the completion is still requested over the unchanged transcript |
| Handler.ClearTextAppendsUserTurn | src/bot.ts:156-170 | cleared text adds, right after the old turns, one user turn with that text, the author's name and exactly the image attachments |
| Handler.RequestRendersTranscript | src/bot.ts:173-215 | any completion request uses the fixed model and 4096 tokens, and renders the old transcript followed by the new user turn, one message per turn |
| Handler.DispatchOutcomes | src/bot.ts:218-243 | the reply is sent iff the content is non-null, its stripped text is non-empty and the verdict is not exactly `"NO"`; then one send and one assistant turn carry that text, otherwise nothing is sent or added |
| Handler.CompletionFailureKeepsUserTurn | src/bot.ts:162-173 | a completion call that throws keeps the user turn and sends nothing |
| Handler.PassAppendOnly | src/bot.ts:162-243 | a pass keeps every existing turn in place and adds at most two turns, and the transcript stays valid |
| Handler.AnswerAppendOnly | src/bot.ts:238-243 | the answering half keeps every existing turn and adds at most one turn, and an added turn is a well-formed assistant turn with non-empty text |
| Handler.RunAppendOnly | src/bot.ts:116-249 | over any sequence of passes, each with its own channel and bot-user setting, the transcript keeps its prefix, grows by at most two turns per pass and stays valid |
| Handler.SeedStaysFirst | src/bot.ts:77-99 | from startup, every reachable transcript starts with the persona's system turn, and no later turn has the system role |

## Left out

- `src/vision.ts`, the Google image-description wrapper, is not part of this model. `src/bot.ts` never calls it.
- The `.env` check and creation, `process.exit`, the construction and login of the OpenAI and Discord clients, and the `ClientReady` log are process bootstrap, so they are not modelled.
- The coloured console logging is not modelled. This includes the "no decision made" and "no reply message" anomaly logs.
- The network calls to moderation and completion are not modelled. Each answer is a parameter of the pass. A malformed answer, such as an empty `results` or `choices` array, raises a TypeError in the handler, and the model folds that into `ModerationThrew` / `CompletionThrew`.
- `message.delete()` and `message.channel.send()` are not awaited. The model records them as effects and does not model their failure. The assistant turn is pushed whether or not the send succeeds, as in the code.
- Concurrency is not modelled. Passes can interleave at their `await` points and push into the shared array in any order. The model runs one pass at a time.
- Discord's attachment `Collection` becomes a sequence in insertion order. Each `Attachment` keeps its id. The `Collection` is keyed by id, so its ids are unique, but the sequence may repeat them. This only widens the inputs the lemmas cover.
- JavaScript strings are UTF-16 and Dafny's are Unicode scalars. Only ASCII folding matters for the YES/NO pattern, so the model is unaffected.

# LunDao round engine and event stream, in Dafny

LunDao is a brainstorming service: a user message starts a round, and several language
models answer it in turn. This project models the server's side of a round:

- command routing,
- the prompts,
- the round loop with its streamed events,
- the recorder's deterministic fallback,
- the chat request handler,
- the in-memory session table and each round's Markdown block,
- the environment-variable sanitiser.

It also models the client's side: the loop that cuts the event stream into `event:`/`data:` pairs, and the chat hook that folds the events into the message list. Everything is proved against a specification.

Layout, one module per source file:

- `Router` (router.ts), `SystemPrompt` (system.ts), `RecorderPrompt` (recorder.ts)
- `Orchestrator` (orchestrator.ts), `ChatRoute` (routes/chat.ts), `Storage` (storage.ts)
- `Env` (adapters/base.ts), `ClientApi` (client/src/utils/api.ts), `UseChat` (client/src/hooks/useChat.ts)
- Shared modules: `Wrappers` (Option, Result), `Text` (the string operations the code uses) and `Types` (records, the command, the session, the event).
- `Integration` joins server and client.

Boundaries are parameters:

- A model backend is `Config.call(id, systemPrompt, userContent)`. It returns `Reply(chunks, failure)`: the chunks it streams, then optionally the error it throws.
- The recorder's `JSON.parse` is `Config.parse` and `JSON.stringify` is `Config.serialize`.
- On the client, the JSON parser of `data:` lines is an oracle `parse`.
- Storage failures, ids and timestamps are arguments.
- Strings are `seq<char>`. White space is exactly the JavaScript `\s`/`trim` set. Case mapping covers ASCII only.

Methods are proved equal to the pure functions that specify them:

- `ExecuteRound` to `Turns`, and each pass of its loop (`TakeTurn`) to `TurnOf`
- `UpdateRecord` to `UpdatedRecord`
- `RoundMarkdown` to `RoundBlock`
- `FindIndex` to `FirstIndex`
- `ReadStream` to `FeedAll`
- `ChatHook.OnEvent` to `Reduce`

The properties are proved as lemmas about those functions.

## Model

| member | source | states |
|---|---|---|
| Router.ParseCommand | server/src/services/router.ts:5-66 | every message yields one command; the injection is the one of its type; only skip and direct name a target; summary and skip have empty content; a normal command's content is the message verbatim |
| Router.ParseAll | server/src/services/router.ts:7-13 | `@all X` is `all` with X minus a leading `新话题：`/`新话题:` and following white space, and the `all` injection |
| Router.ParseDeep | server/src/services/router.ts:16-22 | `@深入X` is `deep` with content trim(X) and the `deep` injection |
| Router.ParseChallenge | server/src/services/router.ts:25-31 | `@挑战X` is `challenge` with content trim(X) and the `challenge` injection |
| Router.ParseSummaryIff | server/src/services/router.ts:34-40 | the type is `summary` exactly when the trimmed message is `@总结`; then content is empty and the injection is `summary`'s |
| Router.SummaryWithArgumentIsNormal | server/src/services/router.ts:34-40 | `@总结 x` is not a summary and falls through to normal |
| Router.LongerAfterSummaryMarkerIsNormal | server/src/services/router.ts:34-65 | any longer message starting `@总` and not ending in white space is normal, verbatim |
| Router.ParseSkip | server/src/services/router.ts:43-48 | `@跳过X` is `skip` with target lower(trim(X)), empty content and no injection |
| Router.ParseDirectIff | server/src/services/router.ts:52-59 | the type is `direct` exactly when the message addresses glm, kimi or qwen (any case) followed by white space; target is the lower-cased id; content is the match's second group |
| Router.DirectMatchMeaning | server/src/services/router.ts:52 | the matched id is one of the three models; the content is the rest of the first line after the white space |
| Router.DirectMatchNone | server/src/services/router.ts:52 | a message addressing none of the three ids does not match |
| Router.ParseDirectQwen | server/src/services/router.ts:52-59 | `@Qwen rest` on one line is `direct` with target `qwen` and content `rest` |
| Router.ParseDirectExample | server/src/services/router.ts:52-59 | `@Qwen explain X` is `direct` with target `qwen`, content `explain X` and no injection |
| Router.ParseFallsThrough | server/src/services/router.ts:62-65 | a message that none of the earlier checks matches is normal with the message as content, no target and no injection |
| Router.GetParticipants | server/src/services/router.ts:69-86 | summary gives no participants; all, deep, challenge and normal give the default order unchanged |
| Router.WithoutMembers | server/src/services/router.ts:79 | the filter keeps exactly the ids other than the target, with their multiplicities; its length drops by the target's count |
| Router.WithoutAbsent | server/src/services/router.ts:79 | an absent target leaves the order unchanged |
| Router.SkipParticipants | server/src/services/router.ts:77-79 | skip keeps every id but the target and leaves the order unchanged when the target is absent |
| Router.WithoutAppend | server/src/services/router.ts:77-79 | removing the skip target from a concatenation removes it from each part, so the kept ids stay in order |
| Router.DirectParticipants | server/src/services/router.ts:80-82 | direct gives `[target]` for a non-empty target, even one not in the order, and the default order otherwise |
| Router.SkipExample | server/src/services/router.ts:43-79 | `@跳过 qwen` over `glm, kimi, qwen` leaves `glm, kimi` |
| SystemPrompt.DiscussantPromptShape | server/src/prompts/system.ts:2-17 | the prompt starts with the base prompt naming the model; it is exactly the base prompt if and only if there is no non-empty injection; an injection ends it |
| SystemPrompt.InjectionKeys | server/src/prompts/system.ts:20-25 | injections exist exactly for all, deep, challenge and summary, are non-empty, and always change the prompt |
| SystemPrompt.ContextFrame | server/src/prompts/system.ts:34-63 | the context starts with the outline header and the topic line and always ends with `## 本轮最新发言\n` |
| SystemPrompt.ContextSections | server/src/prompts/system.ts:39-58 | the decisions and questions sections appear exactly when their lists are non-empty, each under its header; the recent section exactly when the summary is non-empty |
| SystemPrompt.BulletsLines | server/src/prompts/system.ts:41 | a bullet list has one `- item` line per item, in order |
| RecorderPrompt.RecorderPromptEmbeds | server/src/prompts/recorder.ts:4-27 | the serialised record and the round transcript stand verbatim after their headers, and the window size appears in rules 5 and 6 |
| RecorderPrompt.DefaultLimitRules | server/src/prompts/recorder.ts:7-23 | with the default window, rules 5 and 6 name 5 rounds |
| RecorderPrompt.CreateEmptyRecord | server/src/prompts/recorder.ts:30-40 | the record has the given topic and empty decisions, questions, direction changes and window |
| RecorderPrompt.DefaultRecordHasNoTopic | server/src/prompts/recorder.ts:30 | called without a topic, the record starts with the empty topic |
| Orchestrator.FrameLines | server/src/services/orchestrator.ts:8-10 | a frame splits into the `event:` line, the `data:` line and two empty lines |
| Orchestrator.FormatRecentRoundsShape | server/src/services/orchestrator.ts:13-22 | the summary is empty exactly when there is no round; each block starts with `Round n:` |
| Orchestrator.FormatCurrentRoundAppend | server/src/services/orchestrator.ts:105-109 | one more message extends the transcript by a blank line and its `**speaker**: content` entry |
| Orchestrator.ParticipantInputFrame | server/src/services/orchestrator.ts:60-62 | a participant's user content starts with the context, which ends with the latest-messages header, and the round's transcript follows right after it |
| Orchestrator.TranscriptHoldsAll | server/src/services/orchestrator.ts:105-109 | every message of the round so far stands in the transcript as its `**speaker**: content` entry, content in full |
| Orchestrator.DoneMessagesHoldDone | server/src/services/orchestrator.ts:77-84 | every `model_done` announces a round message with its model and full text |
| Orchestrator.EarlierSpeakersHeard | server/src/services/orchestrator.ts:52-84 | the next participant takes its turn on the state the earlier ones left, and its backend's input holds the user's message and the full text of every reply a `model_done` announced earlier in the round |
| Orchestrator.SegmentShape | server/src/services/orchestrator.ts:56-90 | a turn is `model_start`, one chunk event per chunk in order, then `model_done` exactly when the stream completed, otherwise one `error` naming the model |
| Orchestrator.ChunkTextsOfChunkEvents | server/src/services/orchestrator.ts:68-75 | the chunk events carry the chunks in order, one each |
| Orchestrator.TurnShape | server/src/services/orchestrator.ts:52-91 | an id without an adapter changes nothing; with one, the turn's events are appended and a round message `{id, fullText}` only on success |
| Orchestrator.SegmentAnnounces | server/src/services/orchestrator.ts:56-90 | a turn opens exactly its model and the message it adds is the one its `model_done` announces |
| Orchestrator.TurnsExtend | server/src/services/orchestrator.ts:52-91 | the turns only append to the messages and the events |
| Orchestrator.TurnsStartInOrder | server/src/services/orchestrator.ts:52-56 | the `model_start` events name exactly the participants with an adapter, in list order |
| Orchestrator.TurnsMessagesAreDone | server/src/services/orchestrator.ts:78-84 | the messages after the initial ones are exactly those the `model_done` events announce, in order |
| Orchestrator.TurnsHaveNoRoundDone | server/src/services/orchestrator.ts:52-91 | no turn writes `round_done` |
| Orchestrator.TruncateSpec | server/src/services/orchestrator.ts:146 | a summary is at most 203 characters: the content itself up to 200, else its first 200 and `...` |
| Orchestrator.ModelSpeakersMembers | server/src/services/orchestrator.ts:143 | the fallback's participants are exactly the non-user speakers |
| Orchestrator.FallbackRecordSpec | server/src/services/orchestrator.ts:151-156 | the outline is unchanged; at most five rounds are kept, the last is the new one, the others are the old window's tail |
| Orchestrator.FallbackRoundSpec | server/src/services/orchestrator.ts:141-149 | the new round has the round number, the non-user speakers, no command and one truncated summary with no key points per message, in order |
| Orchestrator.FallbackKeepsAscending | server/src/services/orchestrator.ts:151 | a window with ascending round numbers stays ascending when the new number is larger |
| Orchestrator.UpdateRecord | server/src/services/orchestrator.ts:112-157 | the reply is accumulated chunk by chunk and parsed; a failed call or a failed parse gives the fallback record |
| Orchestrator.TakeTurn | server/src/services/orchestrator.ts:52-90 | one participant's turn is `TurnOf`: nothing without an adapter, otherwise `model_start`, one `model_chunk` per chunk, then `model_done` with the concatenated text and a new message, or an `error` naming the model and no message |
| Orchestrator.ExecuteRound | server/src/services/orchestrator.ts:25-102 | the messages and events are those of the turns in order, starting from the user's message; the record is the updated one; `round_done` with the round number and that record is appended last |
| Orchestrator.RoundSpec | server/src/services/orchestrator.ts:34-101 | the first message is the user's; the opened models are the participants with an adapter; the later messages are those announced by `model_done`; `round_done` is last and only there |
| ChatRoute.Rejection | server/src/routes/chat.ts:13-22 | a missing field is a 400, an unknown session a 404, and a round runs exactly when neither holds |
| ChatRoute.TopicOfMessages | server/src/routes/chat.ts:35-37 | `@all` sets the topic to its content, or to the whole message when that is empty; an ordinary message on a round-0 session becomes the topic as typed; every other case keeps the topic |
| ChatRoute.BareAllTopic | server/src/routes/chat.ts:35-37 | `@all ` with nothing after it makes the whole message the topic |
| ChatRoute.AdvanceSpec | server/src/routes/chat.ts:35-59 | the round counter goes up by exactly one and numbers the round; id, title and creation time stay; the stored record is the one `round_done` carries, the last and only such event; the round starts with the user's message |
| ChatRoute.PostChat | server/src/routes/chat.ts:13-69 | a rejection changes nothing; otherwise the events of the round, and the stored session and Markdown block when storing succeeds; a storing failure adds one model-less `error` event and keeps what was not yet stored |
| Storage.FirstIndex | server/src/services/storage.ts:73 | -1 exactly when no session has the id, else the first index that has it |
| Storage.Find | server/src/services/storage.ts:66-68 | none exactly when no session has the id, else a stored session with that id |
| Storage.ReplaceFirstSpec | server/src/services/storage.ts:71-78 | the length stays; only the first entry with the id is replaced; an absent id changes nothing; afterwards the lookup finds the new session |
| Storage.RemoveIdAppend | server/src/services/storage.ts:82 | deleting from a concatenation deletes from each part |
| Storage.RemoveIdSpec | server/src/services/storage.ts:81-83 | the deletion from any split of the list is the front's deletion then the back's, and one session is kept exactly when its id differs, so the kept sessions keep their order and multiplicity; the result holds exactly the sessions with another id, is no longer than before, unchanged for an absent id, and the id is no longer found |
| Storage.RemoveIdIdempotent | server/src/services/storage.ts:82 | deleting twice is deleting once |
| Storage.MessagesMarkdownAppend | server/src/services/storage.ts:110-113 | the message blocks of two runs of messages are the two blocks one after the other |
| Storage.FindRound | server/src/services/storage.ts:116 | none exactly when no summary has the round number, else one that has it |
| Storage.KeyPointsEmpty | server/src/services/storage.ts:119-122 | there are no key points exactly when every message summary has none |
| Storage.RoundBlockShape | server/src/services/storage.ts:107-130 | the block starts with `\n## Round n\n\n` and the messages' blocks, ends with `\n---\n`, and has a summary line exactly when the record has that round |
| Storage.RoundMarkdown | server/src/services/storage.ts:107-130 | the content built message by message is the round block |
| Storage.SessionStore.CreateSession | server/src/services/storage.ts:39-63 | one session is appended at the end with round 0 and the empty record of its title; its Markdown file gets the header |
| Storage.SessionStore.GetSession | server/src/services/storage.ts:66-68 | none exactly when no stored session has the id, else a stored session with it |
| Storage.SessionStore.FindIndex | server/src/services/storage.ts:73 | the search loop returns the first index with the id, or -1 |
| Storage.SessionStore.UpdateSession | server/src/services/storage.ts:71-78 | the first entry with the id is replaced, the rest and the Markdown files stay |
| Storage.SessionStore.DeleteSession | server/src/services/storage.ts:81-90 | every session with the id is removed, the others keep their order, and its Markdown file goes |
| Storage.SessionStore.AppendRoundToMarkdown | server/src/services/storage.ts:98-133 | an existing file gets the round block appended; a missing one stays missing |
| Storage.SessionStore.GetMarkdownContent | server/src/services/storage.ts:136-140 | the file's content, or empty when it is missing |
| Env.SearchComment | server/src/adapters/base.ts:23 | the leftmost index where white space runs up to a `#`, or -1 when there is none |
| Env.GetEnvSpec | server/src/adapters/base.ts:7-29 | an unset or empty value is unset; a set value is non-empty, trimmed and holds no inline comment |
| Env.LoneQuoteIsUnset | server/src/adapters/base.ts:14-19 | a lone `"` is stripped to nothing and so is unset |
| Env.QuotesStripped | server/src/adapters/base.ts:14-19 | a double-quoted word is read without its quotes |
| Env.HashWithoutSpaceKept | server/src/adapters/base.ts:23-26 | a `#` with no white space before it is kept |
| Env.CommentCut | server/src/adapters/base.ts:23-26 | `value #comment` is read as `value` |
| Env.RequireEnv | server/src/adapters/base.ts:31-39 | fails exactly when the value is unset, naming the variable; otherwise returns exactly that value |
| ClientApi.FeedAllAccounts | client/src/utils/api.ts:64-66 | the buffer holds no newline; the processed lines joined with newlines, then a newline and the buffer, are all the text read |
| ClientApi.LinesOfText | client/src/utils/api.ts:64-66 | the lines of all text read are the processed lines followed by the buffer |
| ClientApi.LinesAppend | client/src/utils/api.ts:69-81 | the line loop over two batches is the loop over their concatenation |
| ClientApi.LinesExtend | client/src/utils/api.ts:69-81 | deliveries are only appended, in line order |
| ClientApi.IgnoredLinesChangeNothing | client/src/utils/api.ts:69-81 | lines with neither prefix, blank ones included, change nothing |
| ClientApi.EventThenData | client/src/utils/api.ts:70-79 | an `event:` line then a `data:` line deliver the parsed data under the name after the 7-character prefix, or nothing when it does not parse; the name is cleared either way |
| ClientApi.DataWithoutEventDropped | client/src/utils/api.ts:72 | a `data:` line with no pending name is dropped |
| ClientApi.UnterminatedTailDeliversNothing | client/src/utils/api.ts:61-66 | text after the last newline waits in the buffer and is never delivered |
| ClientApi.ReadStream | client/src/utils/api.ts:42-89 | a failed status or a missing body gives its error and no delivery; otherwise the deliveries are those of the line loop over every read, then completion, the read error, or nothing on abort |
| ClientApi.CarryingRunsAllLines | client/src/utils/api.ts:64-81 | with the name kept across reads, the state is the line loop over all processed lines |
| ClientApi.CarryingIgnoresChunking | client/src/utils/api.ts:68 | with the name kept across reads, the result depends only on the text, not on how it is split into reads |
| ClientApi.EventLineOnly | client/src/utils/api.ts:68-75 | an `event:` line on a fresh line state sets the pending name and delivers nothing |
| ClientApi.SplitFrameDropped | client/src/utils/api.ts:68 | an `event:` line and its `data:` line in two reads deliver nothing; keeping the name delivers it |
| Integration.FrameRoundTrip | client/src/utils/api.ts:64-81 | one server frame in one read gives exactly one delivery of its data under its name, and an empty buffer |
| Integration.FramesArriveWhole | client/src/utils/api.ts:64-81 | a run of frames in one read gives all their deliveries in order |
| Integration.FramesArriveInBatches | client/src/utils/api.ts:64-81 | when every read ends on a frame boundary, the deliveries are all frames' in order, however they are grouped |
| Integration.FramesArriveAnyChunking | client/src/utils/api.ts:64-81 | keeping the name across reads, all frames arrive whatever the chunking |
| Integration.EventsArrive | server/src/services/orchestrator.ts:8-10 | with a one-line serialiser that the parser inverts, the client's reader delivers every event under its name, in order, when the stream comes in one read, and the name-keeping reader does so under any split into reads |
| Integration.TurnOnClient | client/src/hooks/useChat.ts:57-117 | one turn leaves exactly one finished message for the model holding its full text (the chunks joined, or the error text), the others unchanged; only a completed turn clears the speaker |
| UseChat.SettleSpec | client/src/hooks/useChat.ts:78-96 | only the model's streaming messages change, to the given content and flag; after settling with streaming off, none of the model's messages stream |
| UseChat.SettleQuiet | client/src/hooks/useChat.ts:78-96 | with nothing of the model streaming, settling changes nothing |
| UseChat.SettleOverride | client/src/hooks/useChat.ts:78-96 | the final text replaces the running contents of the chunks |
| UseChat.ReduceShape | client/src/hooks/useChat.ts:56-119 | only `model_start` adds a message, exactly one; `round_done` changes only the record; a model-less error changes nothing; no error clears the speaker |
| UseChat.StartAppendsPlaceholder | client/src/hooks/useChat.ts:57-72 | `model_start` appends an empty streaming placeholder, sets the speaker and empties the buffer |
| UseChat.ChunkShowsBuffer | client/src/hooks/useChat.ts:74-85 | a chunk grows the buffer by its text; the model's streaming messages show the buffer; the others stay |
| UseChat.ClosedAfterDoneOrError | client/src/hooks/useChat.ts:87-117 | after `model_done` or an error naming the model, no message of that model streams |
| UseChat.ChatHook.Send | client/src/hooks/useChat.ts:35-47 | nothing without a session or with blank text; otherwise loading starts and the untrimmed text is appended as the user's message |
| UseChat.ChatHook.OnEvent | client/src/hooks/useChat.ts:55-120 | the state after the event is the reducer's |
| UseChat.ChatHook.OnError | client/src/hooks/useChat.ts:121-125 | loading ends and the speaker is cleared |
| UseChat.ChatHook.OnComplete | client/src/hooks/useChat.ts:126-129 | loading ends and the speaker is cleared |
| UseChat.ChatHook.ClearMessages | client/src/hooks/useChat.ts:135-138 | messages and record are emptied |

## Left out

- Vendor adapters (anthropic, openai, zhipu, kimi, qwen): these are HTTP clients. Each is the oracle `Config.call`, whose chunks are finite and may end in a failure.
- Backend determinism: `Config.call` is a function, so backends are assumed deterministic. A model id listed twice among the participants whose first call failed gets the same input again and fails again. A backend that answers the same input differently on a second call is not modelled; no proof relies on this.
- Adapter registry: `getModelOrder` and `getRecorderModel` come from the environment. The default order and the recorder id are parameters. A `getRecorderModel` that throws is not modelled.
- The recorder's primary path: the parsed reply is taken as it is, without validation. No window bound or ordering is claimed for it.
- JSON: `JSON.stringify` and `JSON.parse` are oracles, and `serialize` is opaque.
- The wire payload: the mapping from an event to its JSON payload is left out. The client reducer works on the decoded event.
- The type cast of the client's `data` is assumed to match the event name.
- Transport: the HTTP and push-stream transport (headers, `res.write`, `res.end`), the sessions router and the server entry point. Events form a sequence, and the chat handler's response is that sequence.
- Files: file system access in storage. The session list and the Markdown files are fields of `SessionStore`. Reading the list back from disk before each operation is not modelled.
- Ids, timestamps and `toLocaleString`: these are arguments.
- Message ids and timestamps on the client are not modelled.
- Errors: a thrown value that is not an `Error` (the `'Unknown error'` message) is not modelled. Error messages are strings the caller supplies.
- ChatRoute.PostChat: it models failures of the two storage writes only. A throw of `parseCommand`, `getModelOrder` or `executeRound` itself is not modelled.
- Async machinery: cancellation, and `TextDecoder` byte decoding. The client reads decoded strings.
- React: state setters are direct field updates of `ChatHook`.
- Per-send stream buffers: each `send` has its own dictionary and overlapping sends are not modelled. `ChatHook.Send` resets one buffer map instead.
- UI components: they only render.
- Unicode: case mapping is ASCII only, and `\s` is the fixed JavaScript white-space set. Lengths and the 200-character cut count `char`s, not UTF-16 code units.
- Console logging is left out.

## Findings

| source | as written | input that shows it | evidently intended | confidence | as-written member | corrected member |
|---|---|---|---|---|---|---|
| client/src/utils/api.ts:68 | the pending event name is cleared at the start of every read, so a `data:` line that reaches the client in a later read than its `event:` line is dropped | reads `"event: e\n"` and `"data: d\n\n"`, with `d` parsing | the read loop buffers partial lines across reads, so the event name should survive a read boundary as well; large `round_done` payloads otherwise vanish whenever their data line spans reads | not executed; medium | ClientApi.SplitFrameDropped | ClientApi.CarryingIgnoresChunking |

`ClientApi.ReadStream` follows the code as written. The corrected reader `FeedAllCarrying` keeps the name across reads. `ClientApi.CarryingIgnoresChunking` proves that its deliveries depend only on the text, and `Integration.FramesArriveAnyChunking` uses it to show that every frame arrives however the text is split.

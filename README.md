# deepsearch research engine and chat persistence, modelled in Dafny

deepsearch answers a question by running a bounded research loop. A per-run
ledger (`SystemContext`) counts steps and accumulates search results, scraped
pages and a transcript. A planner (`getNextAction`) asks a language-model
decision service for the next action (search, scrape or answer). It retries up
to three times with exponential backoff and otherwise falls back to a fixed
action. The orchestrator (`runAgentLoop`) carries out one action per step for
at most ten steps, then forces an answer in degraded mode.

Around the engine, the chat persistence layer stores sessions, messages and
message parts:

- A session is created or reused.
- Every message of a finished transcript is upserted at its sequence position.
- Each message's parts are replaced.
- A new session's title is derived from the first user text.
- A session is read back in sequence order.

The chat endpoint chooses the history and the question. A tracing filter drops
framework and unnamed spans.

The model has one module per source file:

| module | file | models |
|---|---|---|
| `ResearchContext` | `system_context.dfy` | the ledger, as a class |
| `OutputSchema` | `output_schema.dfy` | the action union and what its schema accepts |
| `Planner` | `get_next_action.dfy` | the retry loop as a method, proved equal to the function `Plan` |
| `AgentLoop` | `run_agent_loop.dfy` | the loop as a method over the ledger, proved equal to the function `AgentRun` |
| `ChatStore` | `chat_store.dfy` | the three tables as values, and the effect of each persistence operation as a function |
| `ChatPersistence` | `chat_persistence.dfy` | the database as a class whose methods update the tables; each is proved to have its `ChatStore` effect |
| `ChatRoute` | `chat_route.dfy` | history selection and question extraction |
| `Instrumentation` | `instrumentation.dfy` | the span filter |
| `Common` | `common.dfy` | the 21-character id generator |
| `JsStrings` | `js_strings.dfy` | JavaScript's `trim` and `join` |
| `Wrappers` | `wrappers.dfy` | `Option` and `Result` |

Everything outside the program becomes a parameter:

- The language model, the search and scrape providers, the answer synthesizer and `new Date()` in the loop are an `Environment` of oracles. They are indexed by step, and by attempt, URL position or hit position; the answer synthesizer is indexed by its mode, standard or degraded. `None` stands for a thrown error. The loop catches the decision, search and scrape errors. It does not catch an answer synthesis error, which `runAgentLoop` throws on to its caller without adding an answer to the transcript.
- `Math.random()` is a sequence of draws `draw: nat -> AlphabetIndex`.
- `new Date()` in the persistence layer is one timestamp `now` per top-level call.

A service's outcome, success or error, is all the loop reads of it. So these parameters cover every outcome the services can produce.

Behaviour of the code that the model follows:

- `src/system-context.ts` declares only `step`, the two histories, `shouldStop`, `reportQueries` and `reportScrapes`. `src/run-agent-loop.ts` also calls `setQuestion`, `addMessage`, `incrementStep` and `getStep`, and `src/get-next-action.ts` calls `getStep` and `getQuestion`. The class has those with their evident meaning.
- Running search, search, answer with three hits per search gives two query results holding six hits in all: one query result per search (`AgentLoop.SearchSearchAnswer`).
- The search query schema is a plain string, so an empty query is accepted. The `SearchResult` interface's `query: string[]` disagrees with the schema; the schema is followed.
- The endpoint takes the question from the incoming messages, not from the restored history. A restored session is therefore asked the empty question (`ChatRoute.RestoredSessionAsksEmptyQuestion`).
- `upsertMessage` marks a message completed when one of its parts is final. Neither entry point marks the assistant message it appends as completed:
  - An agent answer is saved as one text part without `isFinal`.
  - A stream result's parts are tool parts and one such text part.
  - So those messages always stay in status `streaming` (`ChatStore.MergedPartsShape`, `ChatStore.PersistAgentEffect`).
- `src/server/db/schema.ts` is older than the persistence code; it has no messages or parts tables and uses serial ids. The keys used here come from the code:
  - sessions by their string id;
  - messages by (session id, sequence), the upsert's conflict target;
  - parts by message id.

## Model

| member | source | states |
|---|---|---|
| ResearchContext.SystemContext.constructor | src/system-context.ts:21-27 | a fresh ledger is at step 0 with both histories, the question and the transcript empty |
| ResearchContext.SystemContext.ReportQueries | src/system-context.ts:34-36 | appends the queries in order without deduplication, returns the new history length, changes nothing else and only extends the ledger |
| ResearchContext.SystemContext.ReportScrapes | src/system-context.ts:38-40 | appends the scrapes in order, returns the new history length, changes nothing else and only extends the ledger |
| ResearchContext.SystemContext.IncrementStep | src/run-agent-loop.ts:22 | the step goes up by one and nothing else changes |
| ResearchContext.SystemContext.SetQuestion | src/run-agent-loop.ts:16 | the question is replaced and nothing else changes |
| ResearchContext.SystemContext.AddMessage | src/run-agent-loop.ts:17 | the message is appended to the transcript and nothing else changes |
| ResearchContext.AppendOnlyTransitive | src/system-context.ts:23-40 | "only appends" composes: a ledger reached by several appending steps only extends the first |
| OutputSchema.TypeTag | src/output-schema.ts:26-40 | the discriminator is one of "search", "scrape", "answer", and it names the action's variant, both ways |
| OutputSchema.SchemaValidCases | src/output-schema.ts:21-40 | the schema accepts an action exactly when it has a title and a description and, for a scrape, at least one URL |
| Planner.Fallback | src/get-next-action.ts:62-71 | the fallback is a search for the question itself at step 0 or 1 and an answer later, without title or description |
| Planner.GetNextAction | src/get-next-action.ts:41-71 | the retry loop returns the action, the number of calls and the backoff waits of `Plan` |
| Planner.FirstAcceptedWins | src/get-next-action.ts:41-49 | the first attempt the schema accepts decides the action unchanged, after exactly that many calls |
| Planner.AllFailedFallsBack | src/get-next-action.ts:50-71 | when every attempt fails, the fallback is returned after exactly 3 calls |
| Planner.PlanFromSchedule | src/get-next-action.ts:54-58 | from any attempt on: at most 3 calls, one wait fewer than calls, the i-th wait being 1000 * 2^(attempt-1+i) ms |
| Planner.PlanSchedule | src/get-next-action.ts:10-11 | one to three calls; waits of 1000 ms then 2000 ms, never after the last attempt, at most 3000 ms in all |
| Planner.PlanResult | src/get-next-action.ts:41-71 | the result is the first accepted answer, preceded only by failures, or the fallback when all three fail |
| Planner.PlanWellFormed | src/output-schema.ts:35 | whatever the decision service does, a planned scrape names at least one URL |
| AgentLoop.ScrapeEach | src/run-agent-loop.ts:54-72 | the URL loop collects exactly the kept pages in URL order |
| AgentLoop.KeptUrlCollected | src/run-agent-loop.ts:56-72 | each URL whose scrape succeeded with non-empty text contributes that text, whatever happened to the others |
| AgentLoop.CollectedFromKept | src/run-agent-loop.ts:61-65 | every collected result comes from a URL whose scrape succeeded with non-empty text |
| AgentLoop.CollectedLength | src/run-agent-loop.ts:56-72 | at most one result per URL |
| AgentLoop.Advance | src/run-agent-loop.ts:22-94 | one pass adds one step, keeps the question and the transcript, only appends, and ends the run exactly when the decision is an answer, with nothing else changed; the answer is appended afterwards, by `Finish` |
| AgentLoop.RunAgentLoop | src/run-agent-loop.ts:14-102 | the loop returns the answer and the ledger of `AgentRun`; no answer when the synthesis throws |
| AgentLoop.RunOutcome | src/run-agent-loop.ts:21-101 | from any ledger within budget, the run: only appends; ends by step 10; appends exactly one assistant message, the answer of its mode, or none when that synthesis throws; is standard exactly at the first answer decision; is degraded only at step 10 with no answer decided |
| AgentLoop.StopRule | src/system-context.ts:30-32 | at step 10 or later the run only appends the degraded answer; before it, the run takes at least one more step and stays within 10 |
| AgentLoop.AgentRunOutcome | src/run-agent-loop.ts:14-101 | a whole run takes 1 to 10 steps. Its transcript is the question then one answer, or the question alone exactly when the synthesis in its mode throws. It is standard exactly when some step up to 10 decides to answer, and the answer comes at the first such step |
| AgentLoop.SearchStep | src/run-agent-loop.ts:30-43 | a successful search appends one query result: the action's query, and its organic hits (none when absent) one to one, the link as URL |
| AgentLoop.FailedSearchStep | src/run-agent-loop.ts:45-48 | a failed search changes nothing but the step and the loop goes on |
| AgentLoop.ScrapeStep | src/run-agent-loop.ts:74-76 | a scrape extends the scrape history by the kept results, and changes nothing when there are none |
| AgentLoop.ImmediateAnswer | src/run-agent-loop.ts:80-87 | an immediate answer ends the run after one step, in standard mode, with the transcript question then answer, or question alone when the synthesis throws |
| AgentLoop.FailedFirstDecision | src/get-next-action.ts:66-68 | three failed decisions at step 1 fall back to searching for the question, and the loop carries on from step 2 |
| AgentLoop.NeverAnswers | src/run-agent-loop.ts:97-101 | when no step decides to answer, all 10 steps run and the degraded answer is returned |
| AgentLoop.SearchSearchAnswer | src/run-agent-loop.ts:30-50 | search, search, answer with three hits each gives two query results holding six hits and a standard answer after step 3 |
| JsStrings.TrimStartSlice | src/server/db/chat-persistence.ts:100 | leading trimming drops exactly a whitespace prefix, and what remains does not start with whitespace |
| JsStrings.TrimEndSlice | src/server/db/chat-persistence.ts:100 | trailing trimming drops exactly a whitespace suffix, and what remains does not end with whitespace |
| JsStrings.TrimIsSlice | src/server/db/chat-persistence.ts:100 | `trim` returns a slice of its input whose cut-off ends are whitespace and whose own ends are not |
| JsStrings.TrimEmptyIffWhitespace | src/instrumentation.ts:17 | a string trims to the empty string exactly when it is all whitespace |
| JsStrings.TrimmedFixed | src/server/db/chat-persistence.ts:106 | a string without whitespace at either end is its own trim |
| JsStrings.TrimOfNonBlankStart | src/server/db/chat-persistence.ts:106 | a string starting with a non-whitespace character trims to a non-empty prefix of itself |
| JsStrings.TrimIdempotent | src/server/db/chat-persistence.ts:100 | trimming twice is trimming once |
| JsStrings.JoinEmptyIff | src/server/db/chat-persistence.ts:511-516 | joined with a space, texts are empty exactly when there are none or a single empty one |
| JsStrings.ConcatEmptyIff | src/app/api/chat/route.ts:63-66 | joined with the empty separator, texts are empty exactly when every one is |
| ChatStore.CreateOrGetOutcome | src/server/db/chat-persistence.ts:18-50 | a session is reused exactly when its id and owner both match. Otherwise a placeholder session is inserted under the chat id, or under "chat_" and a generated id, and the insert fails when that id is taken |
| ChatStore.UpdateMetadataEffect | src/server/db/chat-persistence.ts:64-92 | only the given columns change, `updatedAt` always does, other sessions and tables are untouched, and an absent session stays absent |
| ChatStore.SessionTitleShape | src/server/db/chat-persistence.ts:97-107 | a trimmed message of at most 50 characters is its own title. A longer one gives a trimmed, non-empty prefix of at most 50 characters followed by "..." |
| ChatStore.FirstUserIsFirst | src/server/db/chat-persistence.ts:504-508 | the first user message is the one at the least index with role user, and there is none exactly when no message has that role |
| ChatStore.FirstUserTextCases | src/server/db/chat-persistence.ts:503-517 | no text without a user message. Otherwise the text is the first user message's text parts joined by a space, and it is absent exactly when that join is empty |
| ChatStore.FirstUserTextAppend | src/server/db/chat-persistence.ts:346-352 | appending the assistant message does not change the first user text, so the title comes from the given messages |
| ChatStore.UpsertStatus | src/server/db/chat-persistence.ts:141-156 | the row takes the message's id and role. It is completed, at `now`, exactly when some part is final, and streaming otherwise. An overwritten row keeps its start time |
| ChatStore.UpsertRowIdempotent | src/server/db/chat-persistence.ts:159-172 | upserting the same message twice at the same time is upserting it once |
| ChatStore.PartRowsRoundTrip | src/server/db/chat-persistence.ts:233-244 | the stored part rows give back exactly the parts, indexed 0, 1, ... |
| ChatStore.SavePartsIdempotent | src/server/db/chat-persistence.ts:223-245 | replacing a message's parts twice is replacing them once, and the stored payloads are the parts |
| ChatStore.SaveAllLast | src/server/db/chat-persistence.ts:121-129 | saving `n` messages is saving the first `n-1`, then upserting the last at sequence `n-1` and replacing its parts |
| ChatStore.SaveAllTables | src/server/db/chat-persistence.ts:117-130 | saving leaves the sessions alone and overrides the parts table by those written |
| ChatStore.SaveAllKeys | src/server/db/chat-persistence.ts:117-130 | saving adds exactly the session's positions 0..n-1 to the message rows |
| ChatStore.SaveAllUntouched | src/server/db/chat-persistence.ts:117-130 | a row outside the session's positions 0..n-1 is untouched by saving |
| ChatStore.SaveAllRowAt | src/server/db/chat-persistence.ts:121-126 | position i of the session holds the upsert of message i over the row that was there before |
| ChatStore.SaveAllRows | src/server/db/chat-persistence.ts:121-126 | the same for all positions at once |
| ChatStore.PartsWrittenAt | src/server/db/chat-persistence.ts:128 | with distinct ids, each message's parts are the ones left under its id |
| ChatStore.SaveAllIdempotent | src/server/db/chat-persistence.ts:117-173 | saving the same transcript twice at the same time leaves the store as saving it once |
| ChatStore.PersistFinishedEffect | src/server/db/chat-persistence.ts:342-358 | the rows and parts are those of saving the transcript; the count is its length, the last message time and `updatedAt` are `now`; the title changes only for a new session with a first user text |
| ChatStore.PersistReplyEffect | src/server/db/chat-persistence.ts:342-358 | one assistant reply after the given messages: positions 0..n hold their ids. The reply is a streaming row with its parts; the count is n+1; the title comes from the given messages |
| ChatStore.PersistAgentEffect | src/server/db/chat-persistence.ts:362-396 | an agent answer is saved after the given messages as one streaming assistant row under the drawn id, with the answer as its single text part |
| ChatStore.FlatMapAppend | src/server/db/chat-persistence.ts:293-325 | collecting keeps the input order: the parts of `a + b` are those of `a`, then those of `b` (messages, and items within a message) |
| ChatStore.FlatMapAt | src/server/db/chat-persistence.ts:293-325 | element i's parts come after those of every earlier element and before those of every later one |
| ChatStore.FlatMapExactly | src/server/db/chat-persistence.ts:293-325 | a part is collected exactly when some element contributes it |
| ChatStore.ToolCallsExactly | src/server/db/chat-persistence.ts:298-307 | a tool call is collected from a content array exactly when some object item of type "tool-call" has its id, name and input |
| ChatStore.ToolResultsExactly | src/server/db/chat-persistence.ts:312-321 | a tool result is collected from a content array exactly when some object item of type "tool-result" has its id, name and output |
| ChatStore.MessagePartsExactly | src/server/db/chat-persistence.ts:295-323 | a message contributes exactly its tool calls when it is an assistant message, its tool results when it is a tool message, and nothing otherwise |
| ChatStore.ToolPartsExactly | src/server/db/chat-persistence.ts:293-325 | a part is collected exactly when it is a tool call of an assistant message or a tool result of a tool message of the response |
| ChatStore.ToolPartKinds | src/server/db/chat-persistence.ts:293-325 | every collected part is a tool call or a tool result |
| ChatStore.MergedPartsShape | src/server/db/chat-persistence.ts:326-337 | the merged parts start with the collected tool parts, which are exactly the response's tool calls and tool results. They are followed by one text part when the final text is non-empty and by nothing otherwise. No part is final |
| ChatStore.PersistStreamEffect | src/server/db/chat-persistence.ts:264-360 | a stream result is saved after the given messages as one streaming assistant row under the response id, whose stored parts give back the merged parts |
| ChatStore.Ascending | src/server/db/chat-persistence.ts:418-421 | the listing holds exactly the session's sequence numbers, strictly increasing |
| ChatStore.SavedSequences | src/server/db/chat-persistence.ts:418-421 | after saving n messages over a session with no rows past n, its sequence numbers are exactly 0..n-1 |
| ChatStore.SavedMessageAt | src/server/db/chat-persistence.ts:426-437 | after saving distinct ids, position i rebuilds message i: its id, role and parts, without legacy content |
| ChatStore.SaveThenLoad | src/server/db/chat-persistence.ts:405-452 | saving a transcript of distinct ids over a session with no later rows, then loading it, gives back the same messages in order (legacy string content is not stored, so it comes back absent) |
| ChatPersistence.ChatDatabase.CreateOrGetSession | src/server/db/chat-persistence.ts:18-50 | the result and the new tables are those of `CreateOrGet`, with the id made from the draws |
| ChatPersistence.ChatDatabase.UpdateSessionMetadata | src/server/db/chat-persistence.ts:64-92 | the update assembled field by field has the effect of `UpdateMetadata` |
| ChatPersistence.ChatDatabase.SaveMessages | src/server/db/chat-persistence.ts:117-130 | the loop leaves the tables as `SaveAll` describes |
| ChatPersistence.ChatDatabase.UpsertMessage | src/server/db/chat-persistence.ts:136-173 | the row at (session, sequence) becomes the upsert of the message over the old one; nothing else changes |
| ChatPersistence.ChatDatabase.SaveMessageParts | src/server/db/chat-persistence.ts:223-245 | delete then insert one by one leaves the message's parts as `SaveParts` describes; nothing else changes |
| ChatPersistence.ChatDatabase.SaveFinished | src/server/db/chat-persistence.ts:342-358 | the save and the two metadata updates have the effect of `PersistFinished` |
| ChatPersistence.ChatDatabase.PersistStreamResult | src/server/db/chat-persistence.ts:264-360 | the tables become those of `PersistStream` |
| ChatPersistence.ChatDatabase.PersistAgentResult | src/server/db/chat-persistence.ts:362-396 | the tables become those of `PersistAgent`, under the id made from the draws |
| ChatPersistence.ChatDatabase.GetSessionWithMessages | src/server/db/chat-persistence.ts:405-452 | the result is `SessionView` of the tables: none for an absent session, else its columns and its messages by sequence |
| ChatPersistence.CollectToolParts | src/server/db/chat-persistence.ts:293-325 | the message loop collects exactly `ToolParts` of the response messages |
| ChatPersistence.CollectToolCalls | src/server/db/chat-persistence.ts:298-307 | the content loop collects exactly `ToolCalls` of the items |
| ChatPersistence.CollectToolResults | src/server/db/chat-persistence.ts:312-321 | the content loop collects exactly `ToolResults` of the items |
| ChatRoute.LastUserIsLast | src/app/api/chat/route.ts:56 | the last user message is the one at the greatest index with role user, and there is none exactly when no message has that role |
| ChatRoute.LastUserQuestionCases | src/app/api/chat/route.ts:56-68 | no question without a user message. Otherwise it is the last user message's string content when present. With no content it is empty exactly when all its text parts are empty |
| ChatRoute.SelectHistory | src/app/api/chat/route.ts:44-68 | the stored history replaces the incoming one only for an existing session with no incoming messages; the question comes from the incoming ones |
| ChatRoute.RestoredSessionAsksEmptyQuestion | src/app/api/chat/route.ts:44-68 | a restored history has a user message exactly when the saved transcript did, and its question would be that message's text, yet the question asked is empty; the two differ whenever that text is non-empty |
| Instrumentation.ShouldExportSpanIff | src/instrumentation.ts:7-22 | a span is exported exactly when it is not a Next.js span, is not "Unnamed trace", and has a non-whitespace character in its name |
| Common.GenerateNanoId | src/app/utils/common.ts:1-11 | the loop builds the id of length `size` whose i-th character is the alphabet's draw(i)-th |
| Common.AlphabetCodes | src/app/utils/common.ts:2-3 | the alphabet has 62 characters: digits, upper-case, then lower-case letters, each in code order |
| Common.AlphabetDistinct | src/app/utils/common.ts:2-3 | the 62 alphabet characters are distinct |
| Common.NanoIdShape | src/server/db/chat-persistence.ts:489-498 | an id has the requested length and only alphabet characters, and two ids are equal exactly when their draws are |

`generateNanoId` exists twice in the source, in `src/app/utils/common.ts` and
in `src/server/db/chat-persistence.ts`. The two are the same algorithm, so
`Common` models both.

## Left out

- `getContextSummary`, `getMessages` and the prompt text: the prompt only feeds the decision oracle, which sees everything through its step index. The transcript is read from the ledger's state.
- The language model, the search and scrape providers and the answer synthesizer: they are oracles, so their arguments (the query, the URL, `userId`) are not passed on.
- Logging, `lastError` and the actual `sleep`: the waits are recorded as a sequence, not waited.
- The clock: `new Date()` is a parameter, and the ISO string of a hit's date is the oracle's string.
- `Planner.PlanWellFormed`: states the scrape-URL bound only. Title and description can be absent on the fallback, which the source also returns without them.
- `ResearchContext.SystemContext.ShouldStop` has no contract of its own: its rule is stated about the run by `AgentLoop.StopRule`. `GetStep` and `GetQuestion` are plain reads.
- The messages table's `content` and `metadata` columns (always null and `{}`), and the message id's own uniqueness constraint, which `src/server/db/schema.ts` does not describe.
- On insert, a message row's `updatedAt` is taken to be `now`, the column's database default.
- JSON serialisation of part payloads: a payload is stored and returned as the part itself.
- Parts come back in `partIndex` order: each message's parts are kept as one sequence in that order.
- Database failures other than a duplicate session id, and transactions: no operation is atomic in the source either.
- `getSession`, `getUserSessions` and `updateMessageMetadata`: they are not part of this model.
- The endpoint's authentication, rate limiting and request parsing; `performDeepSearch`, `after()` scheduling and the response stream; Redis stream resumption.
- Registration of the span processor and the tracer provider.
- `ChatStore.PersistStreamEffect` and `ChatStore.PersistAgentEffect` assume the session exists. Without it the metadata updates match no row, which `ChatStore.UpdateMetadataEffect` states.
- ChatStore.SessionTitleShape: the length test and the 50-character cut of `ChatStore.SessionTitle` count Unicode code points. JavaScript counts UTF-16 code units. The two agree on text within the Basic Multilingual Plane. A title over characters beyond it is not modelled: the source may cut such a character in half, which a Dafny string cannot hold. `trim` is exact either way, since every whitespace character lies in that plane.

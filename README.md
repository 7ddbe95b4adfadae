# Agent platform core, modelled in Dafny

This project models the core of a chat platform for autonomous agents. It has four parts.

- **Tool executor** (`execute-tool`). An HTTP function that runs one named tool for an agent. Most tools read and change two tables: `tasks` and `agent_memory`. Task tools cover creating, decomposing, listing, reading, updating (with a one-level cascade to the parent) and picking the next pending task. Memory tools cover storing, recalling, searching, reflecting, forgetting by decay, and consolidating. The remaining tools are a calculator with a character filter, Firecrawl search and scrape formatting, the date and time, and a code echo.
- **Reasoning loop** (`agent-chat`). It builds the model's context: the system prompt, the memory and tool sections, and the conversation history. It then runs at most five passes. In each pass the language model returns one structured reasoning step, which may call a tool, continue thinking, or respond. The loop writes Server-Sent Events to the response stream, streams the answer in three-character pieces, stores the answer and sometimes a short-term memory, and ends with `data: [DONE]`.
- **Client hook** (`useAgentChat`). It reads that stream. It splits the buffered text into `\n\n`-terminated blocks and reads their `event:`/`data:` lines. It then updates the messages, the reasoning steps and the current step shown to the user.
- **Two small rules**: the case-insensitive agent avatar table, and the rank order in which the agent selector shows the agents.

Modules and files:

| file | module | what it holds |
|---|---|---|
| wrappers.dfy | `Wrappers` | `Option` with `GetOr`, for absent JSON fields, missing rows and unset columns |
| text.dfy | `Text` | JavaScript string helpers: `\s`, truthiness, `substring`, ASCII `toLowerCase`, `indexOf`, `split("\n")`, `join`, number printing |
| ordering.dfy | `Ordering` | `ORDER BY … LIMIT` as a stable sort, with a filter and a limit; proofs that the sort permutes, sorts and is stable, and what a top-k query returns |
| calculator.dfy | `Calculator` | the `calculator` tool and what its filter accepts |
| formatters.dfy | `Formatters` | the search and scrape formatters, and `web_search`, `fetch_url`, `get_datetime`, `code_executor` |
| tasks.dfy | `Tasks` | `tasks` rows, the table's keys, and the queries and updates of the task tools |
| memories.dfy | `Memories` | `agent_memory` rows, and the queries and rules of the memory tools |
| executor.dfy | `Executor` | class `Store` (the two tables, the id counter, a clock), with one method per tool case and the `switch` |
| agent_chat.dfy | `AgentChat` | context building, one pass as a function, the loop, and the methods that run it step by step |
| sse_client.dfy | `SseClient` | the wire format, block and line parsing, event handling, and class `ChatHook` (the hook's state and `sendMessage`) |
| avatars.dfy | `Avatars` | `avatarMap` and `getAgentAvatars` |
| agent_selector.dfy | `AgentSelector` | the rank, the sort, and the selector's fetched state |

The outside world appears as parameters:

- **Language model and tool sub-call.** The agent-chat `Env` holds `model(pass, context)` and `tool(pass, name, input)`.
- **Executor services.** The executor's `Services` carries Firecrawl replies, the rendered clock, the expression evaluator, and the embedding, similarity-search, reflection and synthesis answers.
- **Store failures.** A `fault` argument stands for a failure of each database statement whose error the source checks. A `None` fault lets the statement run.
- **JSON parsing.** `JSON.parse` in the hook is the `parse` oracle.
- **Time.** Ids and timestamps are naturals. `Store.clock` advances once per statement that stamps a time.

## Model

| member | source | states |
|---|---|---|
| `Calculator.Calculate` | supabase/functions/execute-tool/index.ts:183-191 | a missing or empty expression gives "Error: No expression provided"; a rejected one gives "Error: Invalid characters in expression"; an accepted one gives exactly the evaluator's answer |
| `Calculator.MatchedName` | supabase/functions/execute-tool/index.ts:22-23 | a matched name is one of the eleven alternatives, and `Math.<name>` starts the text |
| `Calculator.NameFromFirst` | supabase/functions/execute-tool/index.ts:22 | the alternation picks the first listed name that fits |
| `Calculator.FilterAcceptsIff` | supabase/functions/execute-tool/index.ts:19-28 | the filter accepts an expression iff it has no whitespace and, after each `Math.<name>` becomes `MATHFUNC`, every character is a digit, one of `+-*/().%`, or a letter of `MATHFUNC` (both directions) |
| `Calculator.SecondCheck` | supabase/functions/execute-tool/index.ts:22-25 | the second comparison holds iff every character of the `MATHFUNC` form is admitted |
| `Calculator.FirstCheckNoSpace` | supabase/functions/execute-tool/index.ts:19-20 | the first comparison fails on any whitespace, which the sanitiser keeps and the other side strips |
| `Calculator.FirstCheckOperators` | supabase/functions/execute-tool/index.ts:19-20 | the first comparison holds only for text made of digits and operators alone, because replacing a call would lose a `.` |
| `Calculator.FirstCheckImpliesSecond` | supabase/functions/execute-tool/index.ts:19-25 | whenever the first comparison holds, the second would hold too |
| `Calculator.ParenCallsDots` | supabase/functions/execute-tool/index.ts:20 | shortening `Math.<name>(` to `(` never adds a `.`, and removes one whenever it changes the text |
| `Calculator.WithMathFuncIdentity` | supabase/functions/execute-tool/index.ts:23 | text without an `M` is left unchanged by the `MATHFUNC` replacement |
| `Calculator.WithMathFuncUntouched` | supabase/functions/execute-tool/index.ts:23 | the replacement neither adds nor removes any character that occurs neither in `Math.<name>` nor in `MATHFUNC` |
| `Calculator.AdmittedNoSpace` | supabase/functions/execute-tool/index.ts:23-25 | an admitted `MATHFUNC` form means the expression had no whitespace |
| `Calculator.SpacedRejected` | supabase/functions/execute-tool/index.ts:19-26 | any whitespace (for example `2 + 2`) gives the invalid-characters error |
| `Calculator.StrayCharacterRejected` | supabase/functions/execute-tool/index.ts:19-26 | a character outside the admitted set with no `M` in the text (for example `alert(1)`) gives the invalid-characters error |
| `Calculator.ArithmeticEvaluated` | supabase/functions/execute-tool/index.ts:19-32 | a non-empty expression of digits and operators (for example `2+2`) reaches the evaluator unchanged |
| `Calculator.SqrtMatched` | supabase/functions/execute-tool/index.ts:22-23 | `Math.sqrt…` matches the name `sqrt` |
| `Calculator.SqrtReplaced` | supabase/functions/execute-tool/index.ts:23 | `Math.sqrt` is replaced by `MATHFUNC` and the rest is processed on |
| `Calculator.SqrtEvaluated` | supabase/functions/execute-tool/index.ts:19-32 | `Math.sqrt` applied to an arithmetic argument reaches the evaluator unchanged |
| `Formatters.Summary` | supabase/functions/execute-tool/index.ts:46 | the description if truthy, else the first 200 characters of the markdown, else "No description" |
| `Formatters.FormatSearchResults` | supabase/functions/execute-tool/index.ts:39-48 | "No search results found." exactly when the list is missing or empty; otherwise the reply opens with the results header |
| `Formatters.SearchResultsAppend` | supabase/functions/execute-tool/index.ts:44-47 | one more result adds one more block after a blank line, numbered one past the others |
| `Formatters.SearchResultsSingle` | supabase/functions/execute-tool/index.ts:44-47 | a single result is block number 1 after the header |
| `Formatters.SearchEntryNumbered` | supabase/functions/execute-tool/index.ts:45-46 | the block of the n-th result starts with `n. ` |
| `Formatters.FormatScrapedContent` | supabase/functions/execute-tool/index.ts:51-60 | without markdown, the failure text; otherwise the header and exactly the first min(3000, length) characters, with the truncation note iff the length exceeds 3000 |
| `Formatters.ScrapedContentRecovered` | supabase/functions/execute-tool/index.ts:56-59 | the embedded text can be cut back out of the reply, and the reply length is bounded |
| `Formatters.WebSearch` | supabase/functions/execute-tool/index.ts:81-123 | a missing query is an error; without Firecrawl the reply opens with the configuration note for that query; a decoded answer is formatted; a thrown failure is reported with its message |
| `Formatters.FetchUrl` | supabase/functions/execute-tool/index.ts:125-167 | the same four cases for a URL and the scrape formatter |
| `Formatters.DateTimeSplits` | supabase/functions/execute-tool/index.ts:169-181 | the reply is the header and five labelled readings, one per line, so splitting it on newlines gives them back |
| `Formatters.DateTime` | supabase/functions/execute-tool/index.ts:169-181 | the reply opens with the `[Current Date/Time]` header and the date line, and ends with the ISO reading |
| `Formatters.CodeEchoed` | supabase/functions/execute-tool/index.ts:280-289 | the code is echoed verbatim inside the fence and can be cut back out |
| `Formatters.CodeExecutor` | supabase/functions/execute-tool/index.ts:280-289 | the reply opens with the language header and ends with the note that nothing is executed; the code sits exactly between them |
| `Formatters.DefaultLanguage` | supabase/functions/execute-tool/index.ts:283 | without a language the fence is a JavaScript one |
| `Tasks.Find` | supabase/functions/execute-tool/index.ts:422-431 | a row is found iff one has that id, and the found row is in the table with that id |
| `Tasks.AppendKeepsValid` | supabase/functions/execute-tool/index.ts:304-315 | inserting rows with fresh ids whose parents exist keeps unique ids, ids below the counter, and the parent foreign key |
| `Tasks.ListedBeforePreorder` | supabase/functions/execute-tool/index.ts:385-386 | `priority DESC, created_at DESC` is a total preorder |
| `Tasks.ListTasksSpec` | supabase/functions/execute-tool/index.ts:377-397 | at most 20 rows, all the agent's and passing the status and root filters, sorted, with no left-out row ranked before a returned one, and all matching rows when at most 20 match |
| `Tasks.ListTasks` | supabase/functions/execute-tool/index.ts:377-397 | at most 20 rows, each one of the table's rows that passes the agent, status and root filters |
| `Tasks.AheadPreorder` | supabase/functions/execute-tool/index.ts:512-513 | `priority DESC, created_at ASC` is a total preorder |
| `Tasks.NextPendingSpec` | supabase/functions/execute-tool/index.ts:505-518 | there is no next task iff the agent has no pending task; otherwise it is one of the agent's pending tasks with the highest priority and, among those, the earliest creation |
| `Tasks.NextPending` | supabase/functions/execute-tool/index.ts:505-518 | a next task, when there is one, is a pending task of the agent from the table |
| `Tasks.LowerPriorityFirstPreorder` | supabase/functions/execute-tool/index.ts:437 | `priority ASC` is a total preorder |
| `Tasks.SubtasksSpec` | supabase/functions/execute-tool/index.ts:433-437 | exactly the rows under the task, of any agent, sorted by ascending priority and a permutation of the matching rows |
| `Tasks.Subtasks` | supabase/functions/execute-tool/index.ts:433-437 | every row returned is a row of the table whose parent is the task |
| `Tasks.Patched` | supabase/functions/execute-tool/index.ts:463-472 | a truthy status replaces the status; only `completed` stamps `completed_at`; a given result replaces the result; nothing else changes |
| `Tasks.PatchTask` | supabase/functions/execute-tool/index.ts:474-479 | only the row with that id is patched; ids and parents stay |
| `Tasks.CompleteTask` | supabase/functions/execute-tool/index.ts:494-497 | only the parent row becomes completed with the new time; ids and parents stay |
| `Tasks.StartTask` | supabase/functions/execute-tool/index.ts:521-524 | only the picked row becomes `in_progress`; ids and parents stay |
| `Tasks.UpdateTableSpec` | supabase/functions/execute-tool/index.ts:463-500 | `update_task` changes only the row and, on completion, its parent; any other status never stamps `completed_at` and never reaches another row |
| `Tasks.UpdateTable` | supabase/functions/execute-tool/index.ts:463-500 | the update keeps the table's ids and their order |
| `Tasks.UpdateKeepsValid` | supabase/functions/execute-tool/index.ts:474-497 | the update and the cascade keep the table's keys valid |
| `Tasks.CascadeIff` | supabase/functions/execute-tool/index.ts:487-499 | after a completion, the parent ends up completed at the cascade's time iff every row under it is completed (or it already was, at that time) |
| `Memories.OrNumber` | supabase/functions/execute-tool/index.ts:196 | `x \|\| d`: absent and 0 both give the default |
| `Memories.OrCount` | supabase/functions/execute-tool/index.ts:251 | `n \|\| d` on a count: absent and 0 both give the default |
| `Memories.ImportanceFirstPreorder` | supabase/functions/execute-tool/index.ts:257 | `importance DESC` is a total preorder |
| `Memories.RankedSpec` | supabase/functions/execute-tool/index.ts:253-258 | a ranked query returns at most k matching rows, most important first, leaves out none more important than one returned, and returns all when at most k match |
| `Memories.RecallSpec` | supabase/functions/execute-tool/index.ts:249-265 | `memory_recall` returns at most `limit` rows (5 when absent or 0), only the agent's, containing the query ignoring case when one is given, in non-increasing importance; no matching row left out is more important than one returned, and every match is returned unless the limit is reached |
| `Memories.Recall` | supabase/functions/execute-tool/index.ts:249-265 | at most `limit` rows (5 when absent or 0), each a row of the table that the agent owns and that matches the query |
| `Memories.KeywordSearchSpec` | supabase/functions/execute-tool/index.ts:596-609 | the keyword fallback returns at most `limit` of the agent's rows that contain the query, in the category when one is given, in non-increasing importance; no match left out is more important than one returned, and every match is returned unless the limit is reached |
| `Memories.KeywordSearch` | supabase/functions/execute-tool/index.ts:596-609 | at most `limit` rows, each a row of the table that the agent owns and that matches the keyword and category |
| `Memories.Decayed` | supabase/functions/execute-tool/index.ts:728 | the new decay is never negative |
| `Memories.ForgetRemovesIff` | supabase/functions/execute-tool/index.ts:728-742 | one forget removes a record iff its stored decay is set, non-zero and below 0.7; otherwise the decay drops by 0.5 |
| `Memories.ForgetTwice` | supabase/functions/execute-tool/index.ts:728-745 | from a fresh record the first forget keeps it at 0.5 and the second removes it |
| `Memories.MaxWeight` | supabase/functions/execute-tool/index.ts:818 | the maximum of `importance \|\| 0.5` over the fetched rows: no row above it, one row at it |
| `Memories.ConsolidatedImportanceBounds` | supabase/functions/execute-tool/index.ts:818 | the merged importance is at most 1.0, and at least 0.1 above every merged record unless capped at 1.0 |
| `Memories.ConsolidatedContent` | supabase/functions/execute-tool/index.ts:771-815 | the caller's summary, else the model's synthesis, else the `[Consolidated] ` concatenation |
| `Memories.ConsolidationSet` | supabase/functions/execute-tool/index.ts:760-764 | the fetched rows are exactly the table's rows with a listed id owned by the agent |
| `Memories.RemoveIdsSpec` | supabase/functions/execute-tool/index.ts:840 | the delete keeps exactly the rows whose ids were not listed, whoever owns them |
| `Memories.RemoveIds` | supabase/functions/execute-tool/index.ts:840 | no row left has a listed id, and every row left was in the table |
| `Memories.ConsolidateDropsOthers` | supabase/functions/execute-tool/index.ts:760-840 | a listed row of another agent is not merged, yet the delete removes it |
| `Memories.SetDecay` | supabase/functions/execute-tool/index.ts:730-736 | only the row with that id gets the new decay, and importance 0 when the decay is below 0.2 |
| `Memories.FindOwned` | supabase/functions/execute-tool/index.ts:716-726 | a row is found only with that id and that agent, and none is found when no such row exists |
| `Memories.AppendKeepsValid` | supabase/functions/execute-tool/index.ts:232-239 | inserting a row with the next id keeps ids unique and below the counter |
| `Memories.SetDecayKeepsValid` | supabase/functions/execute-tool/index.ts:730-736 | the decay update keeps the table valid |
| `Memories.RemoveKeepsValid` | supabase/functions/execute-tool/index.ts:840 | the delete keeps the table valid |
| `Executor.PriorityOrZero` | supabase/functions/execute-tool/index.ts:296 | a missing priority defaults to 0 |
| `Executor.Children` | supabase/functions/execute-tool/index.ts:354-361 | child i has the next id, the subtask's title, a description only when truthy, status `pending`, priority `st.priority ?? i`, the parent's id, and the statement's one timestamp |
| `Executor.ChildrenInsertable` | supabase/functions/execute-tool/index.ts:354-366 | the children take distinct consecutive fresh ids and all hang under the one parent |
| `Executor.Store.CreateTask` | supabase/functions/execute-tool/index.ts:293-323 | a missing title, a store failure or an unknown parent leaves the store unchanged with the matching error; otherwise exactly one `pending` row is added, with priority defaulting to 0, and the reply echoes it |
| `Executor.Store.DecomposeTask` | supabase/functions/execute-tool/index.ts:325-375 | a missing goal or an empty subtask list is an error and changes nothing; a failed parent insert creates nothing; a failed child insert keeps the `in_progress` priority-1 parent and adds no child; otherwise the parent and all children are added |
| `Executor.Store.CreateTree` | supabase/functions/execute-tool/index.ts:335-374 | the root insert and the child insert, with the reply for each outcome |
| `Executor.Store.InsertChildren` | supabase/functions/execute-tool/index.ts:353-373 | the second insert adds exactly the children and replies with the decomposition text |
| `Executor.Store.InsertTasks` | supabase/functions/execute-tool/index.ts:304-315 | one insert appends the rows, advances the id counter by their number and stamps one time |
| `Executor.Store.ListTasks` | supabase/functions/execute-tool/index.ts:377-411 | a store failure gives its error; otherwise the listing text of the `list_tasks` query |
| `Executor.Store.GetTask` | supabase/functions/execute-tool/index.ts:413-451 | a missing id, a failure or an unknown task gives the matching error; otherwise the task's details with its children by ascending priority |
| `Executor.Store.UpdateTask` | supabase/functions/execute-tool/index.ts:453-503 | a missing id, a failure, an unknown task or an empty `updates` object (a falsy status and no result, which updates no row, so `.single()` fails) changes nothing and replies with the error; otherwise the table becomes the patched table with the cascade applied |
| `Executor.Store.ApplyUpdate` | supabase/functions/execute-tool/index.ts:474-501 | the patch at one time, the cascade at the next, and the reply with the cascade note exactly when the cascade fired |
| `Executor.Store.GetNextTask` | supabase/functions/execute-tool/index.ts:505-529 | with no pending task (or a failure) the fixed reply and no change; otherwise only the picked task becomes `in_progress` |
| `Executor.Store.MemoryStore` | supabase/functions/execute-tool/index.ts:193-247 | empty content or a failure changes nothing; otherwise exactly one row with type `short_term`, importance 0.5 (also for 0) and category `episodic` by default |
| `Executor.Store.MemoryRecall` | supabase/functions/execute-tool/index.ts:249-278 | a failure gives its error; otherwise the text of the recall query |
| `Executor.Store.MemorySearch` | supabase/functions/execute-tool/index.ts:533-622 | a missing query is an error; a non-empty similarity answer is shown; otherwise the keyword fallback, or its failure |
| `Executor.Store.MemoryReflect` | supabase/functions/execute-tool/index.ts:624-704 | a missing topic or no memories gives the error and no change; a reflection is stored as one `semantic` memory of importance 0.8; without one the memories are listed and nothing changes |
| `Executor.Store.MemoryForget` | supabase/functions/execute-tool/index.ts:706-748 | an unknown id for this agent changes nothing; otherwise the decay is lowered and the record removed iff the new decay is below 0.2 |
| `Executor.Store.MemoryConsolidate` | supabase/functions/execute-tool/index.ts:750-844 | fewer than 2 ids, or fewer than 2 found for the agent, changes nothing; after a successful insert of the merged record the listed ids are deleted; a failed insert deletes nothing |
| `Executor.Store.Execute` | supabase/functions/execute-tool/index.ts:80-848 | the pure tools give their functions' results and leave the store unchanged; an unknown name gives the list of tools; every tool keeps the store valid |
| `Executor.Store.ExecuteTaskTool` | supabase/functions/execute-tool/index.ts:293-529 | a task tool keeps the store valid and never touches the memories |
| `Executor.Store.ExecuteMemoryTool` | supabase/functions/execute-tool/index.ts:193-844 | a memory tool keeps the store valid and never touches the tasks |
| `AgentChat.ToolResultText` | supabase/functions/agent-chat/index.ts:87-113 | never empty; `result \|\| error \|\| "[No result]"`; `[Tool Error: body]` for a failed response; for a throw `[Tool execution failed: …]` with the `Error`'s message, even an empty one, and "Unknown error" only when something other than an `Error` was thrown |
| `AgentChat.ToolEntries` | supabase/functions/agent-chat/index.ts:202-210 | one entry per tool, in order |
| `AgentChat.ToolsContextShape` | supabase/functions/agent-chat/index.ts:201-211 | the tools section is empty iff there are no tools, and otherwise opens with its header |
| `AgentChat.ToolsContext` | supabase/functions/agent-chat/index.ts:201-211 | no section without tools; with tools the section is at least the header and the first tool's entry long |
| `AgentChat.ToolsContextAppend` | supabase/functions/agent-chat/index.ts:202-210 | one more tool adds its entry at the end after a blank line |
| `AgentChat.ContextRows` | supabase/functions/agent-chat/index.ts:185-190 | at most five of the agent's memories, most important first; none left out is more important than one listed, and all of them are listed unless five are |
| `AgentChat.MemoryContext` | supabase/functions/agent-chat/index.ts:183-196 | without memory, or when the agent has none, the section is empty; otherwise it is the `[MEMORY CONTEXT]` header and one `[type]: content` line per row of `ContextRows`, in that order, joined by newlines |
| `AgentChat.MemoryContextEmpty` | supabase/functions/agent-chat/index.ts:183-196 | with memory, the section is empty iff the agent has no memory |
| `AgentChat.SystemPrompt` | supabase/functions/agent-chat/index.ts:215-220 | the prompt is the agent's own prompt, then the memory section, then the tools section, then the fixed instructions, each at its own offset |
| `AgentChat.RecentWindow` | supabase/functions/agent-chat/index.ts:175-180 | the corrected history window has min(20, n) rows, where n is the conversation's length |
| `AgentChat.OldestWindow` | supabase/functions/agent-chat/index.ts:175-180 | as written, the history window is a prefix of the conversation (its oldest rows) with min(20, n) rows |
| `AgentChat.ConversationWithRequest` | supabase/functions/agent-chat/index.ts:167-180 | the stored request is the last row of its conversation |
| `AgentChat.OldestWindowDropsRequest` | supabase/functions/agent-chat/index.ts:167-180 | as written, once 20 earlier rows exist, the user's new message is not in the history sent to the model |
| `AgentChat.RecentWindowEndsWithRequest` | supabase/functions/agent-chat/index.ts:167-180 | corrected, the window always ends with the user's new message |
| `AgentChat.Turns` | supabase/functions/agent-chat/index.ts:224-227 | each row becomes one turn with its role and content |
| `AgentChat.BaseContext` | supabase/functions/agent-chat/index.ts:222-228 | as written, the system prompt first, then the turns of the oldest 20 messages |
| `AgentChat.BaseContextCorrected` | supabase/functions/agent-chat/index.ts:222-228 | corrected, the system prompt first, then the turns of the most recent 20 messages |
| `AgentChat.RequestBase` | supabase/functions/agent-chat/index.ts:167-228 | the request's context as assembled: a system message that begins with the agent's prompt, then the turns of the oldest 20 messages read after the user's message was stored |
| `AgentChat.RequestBaseCorrected` | supabase/functions/agent-chat/index.ts:214-228 | the same assembly over the 20 most recent messages |
| `AgentChat.BaseContextShortAgrees` | supabase/functions/agent-chat/index.ts:175-180 | while a conversation holds at most 20 messages the code as written and the corrected context agree |
| `AgentChat.BaseContextEndsWithRequest` | supabase/functions/agent-chat/index.ts:222-228 | with the corrected context the user's message is the last turn the model is given |
| `AgentChat.ResultByStepNumber` | supabase/functions/agent-chat/index.ts:358-363 | as written, every step row of the conversation with that step number gets the result |
| `AgentChat.ResultByStepNumberOverwrites` | supabase/functions/agent-chat/index.ts:358-363 | as written, an earlier request's step with the same number has its result replaced |
| `AgentChat.AttachResultOnlyLatest` | supabase/functions/agent-chat/index.ts:358-363 | corrected, only the pass's own row gets the result and every earlier row stays |
| `AgentChat.ResultByStepNumberFresh` | supabase/functions/agent-chat/index.ts:358-363 | when no earlier row of the conversation has this step number, the update as written touches only the pass's own row |
| `AgentChat.Slice` | supabase/functions/agent-chat/index.ts:391 | `slice(i, j)` clamped to the string's end |
| `AgentChat.ChunksConcat` | supabase/functions/agent-chat/index.ts:390-399 | the pieces concatenate back to the message exactly |
| `AgentChat.ChunksCount` | supabase/functions/agent-chat/index.ts:390-399 | there are ⌈n/3⌉ pieces |
| `AgentChat.ChunksSizes` | supabase/functions/agent-chat/index.ts:390-399 | every piece but the last has 3 characters; the last has 1 to 3 |
| `AgentChat.Chunks` | supabase/functions/agent-chat/index.ts:390-391 | no pieces for an empty answer, at most as many pieces as characters, and no piece empty |
| `AgentChat.DeltaFrames` | supabase/functions/agent-chat/index.ts:392-396 | one delta frame per piece, in order |
| `AgentChat.Stream` | supabase/functions/agent-chat/index.ts:390-399 | the `i += 3` loop appends exactly the delta frames of the text |
| `AgentChat.AssistantTurns` | supabase/functions/agent-chat/index.ts:258-261 | each history entry becomes one assistant turn, in order |
| `AgentChat.Pass` | supabase/functions/agent-chat/index.ts:250-252 | every pass advances the iteration by one |
| `AgentChat.Act` | supabase/functions/agent-chat/index.ts:341-401 | acting on a step keeps the step number, the requests sent and the number of step rows |
| `AgentChat.Answer` | supabase/functions/agent-chat/index.ts:278-401 | handling the model's answer keeps the step number and the requests sent |
| `AgentChat.PassFrames` | supabase/functions/agent-chat/index.ts:250-276 | a pass first writes its `iteration` frame (step, max 5), then nothing announcing another step and no `[DONE]`, and sends the base context followed by the history |
| `AgentChat.PassTail` | supabase/functions/agent-chat/index.ts:278-338 | after the announcement: one error frame for 429 or 402, nothing for other failures or bad arguments, one synthetic `reasoning` frame for a plain content reply, and the `reasoning` frame first for a structured step |
| `AgentChat.ActFrames` | supabase/functions/agent-chat/index.ts:341-401 | acting on a step only appends frames, none announcing a step or `[DONE]` |
| `AgentChat.PassWritten` | supabase/functions/agent-chat/index.ts:250-255 | a pass keeps "iteration frames are 1..i, each with max 5, no `[DONE]`, one request per pass" |
| `AgentChat.LoopWritten` | supabase/functions/agent-chat/index.ts:250-255 | the loop keeps that invariant, and a loop that did not break ran all five passes |
| `AgentChat.RunIterations` | supabase/functions/agent-chat/index.ts:243-255 | a request runs 1 to 5 passes, announced as steps 1, 2, … with max 5, with exactly one model request per pass |
| `AgentChat.Loop` | supabase/functions/agent-chat/index.ts:250-402 | a stopped loop is left as is; otherwise the step number only grows, stays within 5, and a loop still running has reached 5 |
| `AgentChat.Run` | supabase/functions/agent-chat/index.ts:243-446 | at most 5 passes; a thrown request stores nothing; a request that ran all 5 passes without throwing has a non-empty answer |
| `AgentChat.FinishTail` | supabase/functions/agent-chat/index.ts:404-445 | after the loop only answer pieces, `[DONE]` or the error event are written |
| `AgentChat.RunEnds` | supabase/functions/agent-chat/index.ts:404-445 | without a throw `[DONE]` is the last write and occurs once; after a throw the last write is the error event, there is no `[DONE]` and nothing is stored |
| `AgentChat.FinishEnds` | supabase/functions/agent-chat/index.ts:404-445 | the same for any loop state that has not written `[DONE]` |
| `AgentChat.RunApologises` | supabase/functions/agent-chat/index.ts:404-417 | a loop that ran five passes without an answer streams the fixed apology before `[DONE]`; a non-throwing run ends with an answer or with fewer than five passes |
| `AgentChat.RunPersists` | supabase/functions/agent-chat/index.ts:419-437 | a non-empty answer with a conversation is stored as exactly one assistant message, plus a `short_term` memory of importance 0.5 iff it is longer than 100 characters; nothing is stored otherwise |
| `AgentChat.Persisted` | supabase/functions/agent-chat/index.ts:419-437 | at most two rows; something is stored iff the answer is non-empty and there is a conversation; two iff the answer is also longer than 100 characters |
| `AgentChat.Finish` | supabase/functions/agent-chat/index.ts:404-445 | the pass frames stay first; rows, requests and step count are kept; a thrown request stores nothing and reports the error |
| `AgentChat.ToolPassOrder` | supabase/functions/agent-chat/index.ts:341-376 | a tool step writes the `iteration`, `reasoning`, `tool_call` and `tool_result` frames in this order, appends one row with this step number, writes the result, as written, to every row of the conversation with that step number (so the new row carries it), and adds one history entry |
| `AgentChat.PassHistory` | supabase/functions/agent-chat/index.ts:258-385 | a pass adds at most one history entry, at the end, exactly for a tool step naming its tool or a `continue` step |
| `AgentChat.AnswerHistory` | supabase/functions/agent-chat/index.ts:295-385 | the same, stated for the model's answer |
| `AgentChat.ActHistory` | supabase/functions/agent-chat/index.ts:341-385 | the same, stated for a parsed reasoning step |
| `AgentChat.PassFailures` | supabase/functions/agent-chat/index.ts:278-316 | 429 and 402 write one error frame and break; other statuses throw; bad arguments break with no event and no stored step; a reply without the tool call breaks and makes its content the answer |
| `AgentChat.LoopGrounded` | supabase/functions/agent-chat/index.ts:258-261 | every request the loop sends is the base context followed by a prefix of the history |
| `AgentChat.RunContexts` | supabase/functions/agent-chat/index.ts:258-261 | the first request is the base context alone; every request is the base context followed by history entries, in order |
| `AgentChat.RunRequests` | supabase/functions/agent-chat/index.ts:167-228 | when the loop is given the context the request assembles, its first request is exactly that context and every later request begins with it |
| `AgentChat.RunOmitsRequest` | supabase/functions/agent-chat/index.ts:167-228 | as written, once the conversation holds 20 messages, no request sent during the run contains the user's new message (when no earlier user message has the same text) |
| `AgentChat.RequestBaseOmitsRequest` | supabase/functions/agent-chat/index.ts:167-228 | as written, once the conversation holds 20 messages, the assembled context does not contain the user's new message (when no earlier user message has the same text) |
| `AgentChat.RunCorrectedSendsRequest` | supabase/functions/agent-chat/index.ts:167-228 | with the corrected history window, every request sent during the run contains the user's new message |
| `AgentChat.RequestBaseCorrectedEnds` | supabase/functions/agent-chat/index.ts:214-228 | the corrected request context ends with the user's new message |
| `AgentChat.LoopSentPrefix` | supabase/functions/agent-chat/index.ts:258-276 | the requests sent only grow |
| `AgentChat.ActOn` | supabase/functions/agent-chat/index.ts:341-401 | the handling of a reasoning step, written step by step, equals its specification `Act`, including the step-number update as written |
| `AgentChat.RunPass` | supabase/functions/agent-chat/index.ts:250-401 | one loop body, written step by step, equals one pass as the code is written |
| `AgentChat.RunLoop` | supabase/functions/agent-chat/index.ts:243-446 | the background task, written with its `while` loop, gives exactly the transcript `Run` specifies for the code as written |
| `SseClient.SplitBlocksRest` | src/hooks/useAgentChat.ts:101-104 | after the block loop no `\n\n` remains in the buffer |
| `SseClient.SplitBlocksJoin` | src/hooks/useAgentChat.ts:101-104 | the blocks and the remainder joined by `\n\n` give back the buffer |
| `SseClient.SplitBlocksAppend` | src/hooks/useAgentChat.ts:97-104 | cutting blocks from a longer buffer first cuts the blocks of its front part |
| `SseClient.FieldsAreLast` | src/hooks/useAgentChat.ts:106-116 | the type is the text after the last `event: ` line (else `message`); the data after the last `data: ` line (else empty) |
| `SseClient.ParseBlock` | src/hooks/useAgentChat.ts:106-116 | a block's type is the text after its last `event: ` line (else `message`) and its data the text after its last `data: ` line (else empty) |
| `SseClient.WireBlocks` | src/hooks/useAgentChat.ts:100-104 | a whole server frame `event: E\ndata: D\n\n` on an empty buffer is exactly one block |
| `SseClient.BlockFields` | src/hooks/useAgentChat.ts:106-116 | that block parses back to (E, D) |
| `SseClient.DataWireRoundTrip` | src/hooks/useAgentChat.ts:100-116 | a data-only frame is one block, parsed as `message` with its data |
| `SseClient.Delta` | src/hooks/useAgentChat.ts:166-178 | a truthy piece is appended to the content; steps, current step and message count stay |
| `SseClient.Retry` | src/hooks/useAgentChat.ts:181-203 | the retry changes neither steps nor current step nor the number of messages, only extends the content, and does nothing for empty data, `[DONE]` or text that is not JSON |
| `SseClient.HandleEvent` | src/hooks/useAgentChat.ts:118-203 | `[DONE]` changes nothing; no event changes the number of messages or shortens the content; the four step events leave messages and content alone |
| `SseClient.FeedSplitAnywhere` | src/hooks/useAgentChat.ts:93-104 | two reads give what one read of both chunks gives, so where a read ends makes no difference |
| `SseClient.Feed` | src/hooks/useAgentChat.ts:97-104 | after a read the buffer holds no complete block; the number of messages is kept and the content only grows |
| `SseClient.DoneIgnored` | src/hooks/useAgentChat.ts:118-120 | a `[DONE]` block changes nothing |
| `SseClient.HandleEventInSync` | src/hooks/useAgentChat.ts:118-203 | every event keeps the last message the assistant's with exactly the content so far, only appends to that content, and keeps earlier messages |
| `SseClient.ApplyBlocksInSync` | src/hooks/useAgentChat.ts:101-204 | the same across the blocks of a read |
| `SseClient.StepEvents` | src/hooks/useAgentChat.ts:123-160 | `reasoning` appends one step; `iteration` sets the current step; `tool_call` and `tool_result` change only the last step, and nothing when there is none |
| `SseClient.EmptyDataIgnored` | src/hooks/useAgentChat.ts:107-120 | a block without a `data: ` line leaves the data empty, which never parses, so it changes nothing whatever its type |
| `SseClient.ErrorEventSwallowed` | src/hooks/useAgentChat.ts:161-203 | an `error` event is only retried as a delta; no error is reported and reading goes on |
| `SseClient.EatLines` | src/hooks/useAgentChat.ts:207-232 | as written, after the trailing line loop no `\n` remains in the buffer |
| `SseClient.FeedAsWritten` | src/hooks/useAgentChat.ts:97-232 | as written, after a read no `\n` is left in the buffer; the number of messages is kept and the content only grows |
| `SseClient.EatLinesSkipsDone` | src/hooks/useAgentChat.ts:212 | a loose `data: [DONE]` line has no effect |
| `SseClient.AsWrittenEatsEventLine` | src/hooks/useAgentChat.ts:207-232 | as written, a read that ends after an `event:` line consumes that line without effect |
| `SseClient.WholeFrame` | src/hooks/useAgentChat.ts:97-232 | a whole frame on an empty buffer is handled by its type and data, as written and as corrected alike |
| `SseClient.WholeDataFrame` | src/hooks/useAgentChat.ts:97-232 | a whole data-only frame is handled as `message` |
| `SseClient.AsWrittenSplitFrame` | src/hooks/useAgentChat.ts:97-232 | as written, a frame cut after its `event:` line is handled as `message`, unlike the same frame read whole |
| `SseClient.AsWrittenLosesIteration` | src/hooks/useAgentChat.ts:207-232 | concretely, such a cut `iteration` frame leaves the current step where it was, while the same frame read whole moves it |
| `SseClient.MessageKeepsStep` | src/hooks/useAgentChat.ts:123-180 | a `message` event never moves the current step |
| `SseClient.SplitFrameKeepsType` | src/hooks/useAgentChat.ts:97-204 | corrected, the cut frame is still handled by its own type |
| `SseClient.FeedAllInSync` | src/hooks/useAgentChat.ts:93-204 | with the corrected block-only read, while the stream is read the last message stays the assistant's showing exactly the content so far, and earlier messages stay |
| `SseClient.FeedAll` | src/hooks/useAgentChat.ts:93-204 | after at least one read no complete block is left in the buffer; the number of messages is kept and the content only grows |
| `SseClient.FeedAllAsWritten` | src/hooks/useAgentChat.ts:93-233 | as written, after at least one read no `\n` is left in the buffer; the number of messages is kept and the content only grows |
| `SseClient.EatLinesInSync` | src/hooks/useAgentChat.ts:207-232 | the trailing line loop keeps the last message the assistant's showing exactly the content so far, and earlier messages stay |
| `SseClient.FeedAsWrittenInSync` | src/hooks/useAgentChat.ts:97-232 | one read as written keeps the last message in sync with the content, and earlier messages stay |
| `SseClient.FeedAllAsWrittenInSync` | src/hooks/useAgentChat.ts:93-233 | as written too, while the stream is read the last message stays the assistant's showing exactly the content so far, and earlier messages stay |
| `SseClient.FailureText` | src/hooks/useAgentChat.ts:69-86 | the server's `error` or "Failed to get response", "No response body", or the thrown message |
| `SseClient.Adopted` | src/hooks/useAgentChat.ts:74-78 | a conversation already held is kept; none is held only when the server named none |
| `SseClient.NonEmpty` | src/hooks/useAgentChat.ts:238 | only messages with content remain, and every one with content remains |
| `SseClient.ChatHook.constructor` | src/hooks/useAgentChat.ts:29-36 | empty messages and steps, step 0, not loading, and the given conversation when truthy |
| `SseClient.ChatHook.ClearChat` | src/hooks/useAgentChat.ts:247-252 | messages, conversation id, steps and current step reset to empty, null and 0; nothing else changes |
| `SseClient.ChatHook.ShowDelta` | src/hooks/useAgentChat.ts:166-178 | the new state and content are those of `Delta` |
| `SseClient.ChatHook.ReadFields` | src/hooks/useAgentChat.ts:106-116 | the line loop yields the block's parsed type and data |
| `SseClient.ChatHook.HandleBlock` | src/hooks/useAgentChat.ts:105-203 | one block changes the state as `HandleEvent` of its type and data says |
| `SseClient.ChatHook.RetryDelta` | src/hooks/useAgentChat.ts:181-203 | the inner `catch` re-parses the data as a delta, and does nothing for empty or `[DONE]` data |
| `SseClient.ChatHook.Receive` | src/hooks/useAgentChat.ts:97-232 | one read, as written, handles every complete block in order, then eats the complete lines left over, showing each `data: ` delta; the state is `FeedAsWritten`'s |
| `SseClient.ChatHook.ReadStream` | src/hooks/useAgentChat.ts:91-233 | the read loop gives the state of reading every chunk in order as written (`FeedAllAsWritten`) |
| `SseClient.ChatHook.ReadReply` | src/hooks/useAgentChat.ts:74-233 | a conversation id named by the server is adopted unless one is held; the empty assistant message is added and the stream is read as written; a failure while reading is reported once and empty messages are dropped |
| `SseClient.ChatHook.SendMessage` | src/hooks/useAgentChat.ts:38-245 | blank input changes nothing; otherwise the user message is added and steps reset; a refusal, missing body or thrown failure reports one error and drops empty messages; loading and thinking end on every path |
| `SseClient.ChatHook.Fail` | src/hooks/useAgentChat.ts:234-238 | reports the error once and drops messages with empty content |
| `Avatars.GetAgentAvatars` | src/lib/avatarMap.ts:31-39 | both pictures are present or both null, and present iff the lower-cased name is a key |
| `Avatars.TableKeys` | src/lib/avatarMap.ts:12-29 | the keys are exactly dohar, dehtyar, diyar and dehto |
| `Avatars.DoharFound` | src/lib/avatarMap.ts:13-16 | "Dohar" gets the dehtyar portrait and chat picture |
| `Avatars.DehtyarFound` | src/lib/avatarMap.ts:17-20 | "Dehtyar" gets the dohar chat picture as portrait and the dohar portrait in the chat |
| `Avatars.DiyarFound` | src/lib/avatarMap.ts:21-24 | "Diyar" gets its own pictures |
| `Avatars.DehtoFound` | src/lib/avatarMap.ts:25-28 | "Dehto" gets its own pictures, swapped |
| `Avatars.CaseIgnored` | src/lib/avatarMap.ts:32-33 | names equal after lower-casing get identical results |
| `Avatars.LookupMeetsTable` | src/lib/avatarMap.ts:31-39 | a key in any case finds its entry; any other name gets two nulls |
| `Avatars.TableCrossed` | src/lib/avatarMap.ts:13-28 | each entry's pictures come from one agent (dohar and dehtyar crossed), and are swapped exactly for dehtyar and dehto |
| `Avatars.AvatarsOfName` | src/lib/avatarMap.ts:31-39 | the pictures any known name gets, in terms of the crossing |
| `AgentSelector.Rank` | src/components/AgentSelector.tsx:35-36 | Dehto 0, Dohar 1, Dehtyar 2, Diyar 3, and 99 exactly for every other name |
| `AgentSelector.ByRankPreorder` | src/components/AgentSelector.tsx:34-37 | the comparator is a total preorder |
| `AgentSelector.RankSortCorrect` | src/components/AgentSelector.tsx:34-38 | the sorted list is a permutation of the fetched one, ranks never decrease along it, and agents of one rank keep their fetched (name) order |
| `AgentSelector.RankSort` | src/components/AgentSelector.tsx:34-38 | the sorted list is a permutation of the fetched one and ranks never decrease along it |
| `AgentSelector.TiedIsSameRank` | src/components/AgentSelector.tsx:36 | two agents compare equal iff they have the same rank |
| `AgentSelector.Selector.constructor` | src/components/AgentSelector.tsx:20-21 | no agents, loading |
| `AgentSelector.Selector.FetchAgents` | src/components/AgentSelector.tsx:30-40 | on an error the list stays as it was (empty on first load); otherwise it is the rank-sorted rows (none for `null`); loading ends either way |

## Left out

- HTTP serving, CORS, environment variables, the Supabase client and query builder, and response headers are not modelled. The executor gets its request already decoded as a `ToolCall`. Tool arguments of the wrong JSON type are not modelled.
- The Firecrawl search and scrape services, the embedding gateway, the `match_memories` similarity search, and the chat-completion gateway of `memory_reflect` and `memory_consolidate` are oracles. Their answers are fields of `Services`.
- The rows the semantic search finds are not modelled, and neither is the `access_count` update after it (supabase/functions/execute-tool/index.ts:577-581). That update writes the result of an RPC call into a column, and the model has no access counts.
- The embedding is stored as given. No vector is computed.
- The calculator's evaluation with `new Function` is a foreign evaluator. It is the `evaluate` parameter, and any error it throws is part of its answer.
- Importance, decay and similarity are exact reals. `String(x)` and `toFixed` are modelled on those reals, not on IEEE doubles.
- The clock and locale of `get_datetime` are an input already rendered to text.
- Timestamps are one natural-number counter. The database clock and the function's `new Date()` are the same counter.
- `ilike` is an ASCII case-insensitive substring test. `%` and `_` in a query are plain characters.
- `toLowerCase` is ASCII only.
- Concurrent requests on the same rows, the fire-and-forget background task, and the 10 ms delays between streamed pieces are not modelled.
- Agent lookup and the default agent, conversation creation and its title, the missing API key error, and the outer 500 responses of both functions are not modelled (supabase/functions/agent-chat/index.ts:116-172, 448-464). The request itself is modelled: the user's message appended to the conversation (`WithRequest`).
- The `agent_tools` query is an input. The model also does not decide whether its `parameters` JSON has a `properties` object; that is given as `Tool.params`.
- Event bodies are not serialised to JSON. The server writes abstract frames, and the wire format for the event name and one data line is modelled separately in `SseClient` (`Wire`, `DataWire`).
- An `action` whose `type` is missing, or whose arguments parse to something other than an object, is not modelled. Every parsed step has an action.
- The ignored outcomes of the step insert, the action-result update and the final inserts of agent-chat are modelled as succeeding.
- A failed read of the memory context (supabase/functions/agent-chat/index.ts:183-196) is not modelled separately. The code ignores the error, so the section is then empty, which `MemoryContextEmpty` states for no rows.
- `get_task` ignores the outcome of its subtasks query (supabase/functions/execute-tool/index.ts:433-437). A failed query leaves out the subtasks section. The model always answers the query.
- JavaScript's `length`, `slice` and `substring` count UTF-16 code units, while a Dafny string counts Unicode scalar values. For text outside the Basic Multilingual Plane the model's counts differ. This affects `Chunks` (supabase/functions/agent-chat/index.ts:390-391, where the code can split a surrogate pair), the 100-character test of `Persisted` (429), the cuts to 100 and 200 characters in `MemorySummary` (433), `Summary` (supabase/functions/execute-tool/index.ts:46) and the 3000-character cut of `FormatScrapedContent` (56-57).
- Ties in `ORDER BY` are broken by table order, because the model sorts stably. PostgreSQL promises no order among tied rows. This covers the memory context and `memory_recall` (importance descending), the keyword fallback of `memory_search` (supabase/functions/execute-tool/index.ts:602), `memory_reflect` (639), `list_tasks`, the subtasks of `get_task`, and `get_next_task` (512-513), where the children of one `decompose_task` share one `created_at`.
- `Memories.ConsolidationSet`, `Memories.ConsolidatedCategory`, `Memories.ConsolidatedContent` and `Executor.Store.MemoryConsolidate`: the fetch of supabase/functions/execute-tool/index.ts:760-764 has no `ORDER BY`, so PostgreSQL fixes no order of the fetched rows. The model takes them in table order. That order decides the merged category, taken from the first row (819), and the order of the texts joined after `[Consolidated] ` (813) and given to the synthesis.
- A `NULL` importance or priority is not modelled: both are always numbers. Under a descending order PostgreSQL would sort such a memory or task first. No modelled tool writes a `NULL` priority: `create_task` writes `priority || 0`, `decompose_task` writes 1 for the goal and `priority ?? index` for each subtask (supabase/functions/execute-tool/index.ts:296, 343, 357).
- A JSON `null` field in a service reply is read as absent. For example a Firecrawl result whose `url` is `null` is modelled by `Formatters.SearchEntry` like one without a `url`, so the model does not tell the printed `null` from the printed `undefined` (supabase/functions/execute-tool/index.ts:44-47).
- `Executor.Store.UpdateTask`: a JSON `null` result cannot be given. The source writes it and clears the column (`newResult !== undefined`, supabase/functions/execute-tool/index.ts:470), while the model's `Option<string>` has only an absent or a text result.
- `Executor.Store.MemoryConsolidate`: ids are naturals, so a listed id could equal the id the merged row is about to get, and the delete would then remove the merged row. With the source's UUIDs this cannot happen. The model does not rule it out.
- The executor's statements whose result the source does not check are modelled as succeeding. These are the forget delete, the consolidate delete, the cascade update and the next-task update (supabase/functions/execute-tool/index.ts:742, 840, 494, 521). Two more are the `memory_reflect` insert (683-689), whose failure still gives the stored-reflection reply while `MemoryReflect` always appends the row, and the siblings read of `update_task` (488-491), whose failure leaves `siblings` null so that nothing cascades, while `ApplyUpdate` cascades whenever every sibling is completed.
- The hook's `TextDecoder`: chunks arrive as text.
- The hook's React state (`setState` batching, re-renders, the `useCallback` dependencies): each update is applied in order, at once.
- The hook's `finally` is modelled by `SendMessage` setting `isLoading` and `isThinking` to false at the end.
- The hook's `onError` callback is the `errors` record. Its absence (`?.`) is not modelled.
- A stream the server ends without `[DONE]` is handled exactly like one with it, because the hook does not check for it.
- In the agent selector, names such as `constructor` that an object literal inherits from `Object.prototype` are not modelled: `order[a.name] ?? 99` is treated as a plain table lookup.
- UI rendering files and the generated Supabase types are not modelled.
- `Executor.Store.Execute`: for the twelve tools that use the store it states only that the store stays valid. The behaviour of each of those tools is the contract of the method `Execute` calls with the request's arguments, from `CreateTask` to `MemoryConsolidate`.
- `Executor.Store.ExecuteTaskTool`: states only validity and that the memories are untouched. The per-tool contracts are on the methods it calls.
- `Executor.Store.ExecuteMemoryTool`: states only validity and that the tasks are untouched. The per-tool contracts are on the methods it calls.
- `Formatters.WebSearch`: for an error status it does not state the reply text. The text is the status and body after "Error performing web search: ". Without Firecrawl it states only the reply's opening.
- `Formatters.FetchUrl`: the same as `WebSearch`, for "Error fetching URL: ".
- `AgentChat.Act`: its own contract states only what acting keeps. What it writes is stated by `ActFrames`, `ActHistory` and `ToolPassOrder`.
- `AgentChat.Loop`, `AgentChat.Finish` and `AgentChat.Run`: their own contracts state bounds and what is kept. The transcript is stated by `RunIterations`, `LoopWritten`, `FinishTail`, `RunEnds`, `RunApologises` and `RunPersists`.
- `AgentChat.ToolsContext` and `AgentChat.Chunks`: their own contracts state shape only. `ToolsContextShape`, `ToolsContextAppend`, `ChunksConcat`, `ChunksCount` and `ChunksSizes` state the rest.
- `SseClient.HandleEvent` and `SseClient.Retry`: their own contracts state what an event cannot change. The effect of each event is stated by `StepEvents`, `HandleEventInSync` and `ErrorEventSwallowed`.
- `SseClient.Feed`, `SseClient.FeedAsWritten`, `SseClient.FeedAll` and `SseClient.FeedAllAsWritten`: their own contracts state the buffer and the content only. What a read handles is stated by `FeedSplitAnywhere`, `WholeFrame`, `WholeDataFrame`, `AsWrittenSplitFrame` and the `InSync` lemmas.
- `Tasks.ListTasks`, `Tasks.NextPending`, `Tasks.Subtasks` and `Tasks.UpdateTable`: their own contracts state membership and keys only. Order, completeness and what changes are stated by `ListTasksSpec`, `NextPendingSpec`, `SubtasksSpec` and `UpdateTableSpec`.
- `Memories.Recall`, `Memories.KeywordSearch` and `Memories.RemoveIds`: their own contracts state the bound and membership only. The order, that no more important match is left out, and that every match is returned unless the limit is reached are stated by `RecallSpec` and `KeywordSearchSpec` (both built on `RankedSpec`); the converse of the delete is stated by `RemoveIdsSpec`.
- `Formatters.DateTime`: states the first and the last line only. `DateTimeSplits` states every line.
- `AgentSelector.RankSort`: does not state stability. `RankSortCorrect` does.
- `AgentChat.Pass` and `AgentChat.Answer`: their own contracts state only the step number and the requests sent. What a pass writes is stated by `PassFrames`, `PassTail`, `PassHistory`, `PassFailures` and `ToolPassOrder`.

## Findings

| source | as written | input that shows it | evidently intended | confidence | as-written member | corrected member |
|---|---|---|---|---|---|---|
| supabase/functions/agent-chat/index.ts:175-180 | the history query orders by `created_at` ascending and takes the first 20 rows, which are the oldest 20 | a conversation that already holds 20 messages: the user's new, 21st message is not sent to the model at all | the 20 most recent messages, oldest first, ending with the new message | not executed | `AgentChat.RunOmitsRequest` | `AgentChat.RunCorrectedSendsRequest` |
| src/hooks/useAgentChat.ts:207-232 | after the block loop, a loop eats every complete line left in the buffer, including the lines of a block whose blank line has not arrived yet | a read that ends right after `event: iteration\n`, followed by a read of `data: {"step":2}\n\n`: the `event:` line is eaten alone, so the data is later handled as a plain `message` and the current step never moves | lines of an incomplete block stay in the buffer until its blank line arrives, so a frame is handled by its type wherever the transport cuts it | not executed | `SseClient.AsWrittenLosesIteration` | `SseClient.SplitFrameKeepsType` |
| supabase/functions/agent-chat/index.ts:358-363 | the tool result is written to every step row of the conversation with `step_number = iteration`, and `iteration` restarts at 1 on every request | a second request in the same conversation whose first pass calls a tool: the result also replaces the `action_result` of the first request's step 1 | only the row this pass inserted gets the result | not executed | `AgentChat.ResultByStepNumberOverwrites` | `AgentChat.AttachResultOnlyLatest` |

The reasoning loop is modelled as written. `Run` takes its base context as `Env.base`; `RequestBase` assembles that context as the request does, with `BaseContext` over `OldestWindow`, and `RunRequests` shows that the run's first request is exactly it. `Act` writes the tool result with `ResultByStepNumber`. For the first finding, `OldestWindowDropsRequest` states the dropped message on the history, `RequestBaseOmitsRequest` on the assembled context, and `RunOmitsRequest` on every request of a run. The corrected halves are proved beside them: `RequestBaseCorrected` with `RecentWindowEndsWithRequest` and `RunCorrectedSendsRequest`, and `AttachResult` with `AttachResultOnlyLatest`. `BaseContextShortAgrees` and `ResultByStepNumberFresh` show that each pair agrees on its first request and on short conversations.

The first finding rests on the code alone. Lines 167-172 store the user's message just before the history is read, and the history is the only place that message reaches the model. Once a conversation holds 20 messages, the oldest-first query leaves it out.

The hook's methods read the stream as written: `Receive` runs the block loop and then the trailing line loop, so `ReadStream` equals `FeedAllAsWritten`, and `FeedAllAsWrittenInSync` proves the message invariant for it. The corrected read is `Feed`, with `FeedSplitAnywhere`, `SplitFrameKeepsType` and `FeedAllInSync`.

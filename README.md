# A verified model of the to-do assistant core

This project models the logic of a desktop to-do application. The app has a Rust back end (Tauri) and two React front ends. The model covers the path from a chat message typed by the user to changes in the task store. The pieces are:

- The task and settings records, with their status, priority, and error codes. The models live in `TodoModel`, `AppErrors` and `SettingsModel`.
- The SQLite settings table, modelled as a key → row map in the class `SettingsRepo.SettingsRepository`. The front-end settings normalisation is in `SettingsService`.
- The SQLite `todos` table, modelled as a sequence of database rows in the class `TodoRepo.TodoRepository`.
  - Rows stay in their database encoding: status as text, priority as an integer, completed as 0/1, and tags as a list whose JSON text is computed.
  - So every read goes through the decoders.
  - The `LIKE` filters are modelled with their `%` and `_` wildcards in `SqlLike`.
  - `ORDER BY completed ASC, created_at DESC` is an insertion sort on a rank key in `Sorting`.
- The function executor that the language model drives, in the class `FunctionCall.FunctionExecutor`. It covers:
  - the five function definitions;
  - dispatch by name, with its tolerant argument parsing;
  - `add_todos`, `complete_todo`, `delete_todo`, `query_todos` and `get_statistics`.
- The AI orchestration, in `AiService`. It covers:
  - the function-calling mode flags, request assembly and `build_messages`;
  - the `chat` loop: at most five API calls, with modern `tool_calls` first, then the legacy `function_call`, then the text fallback;
  - final response shaping;
  - the checks in `call_api`.
  - The server-sent-event line fold of `chat_stream` is in `AiStream`.
- The two front ends.
  - `Demo` covers `front-demo/demo.tsx`:
    - the keyword simulator and the normalisation of Gemini replies;
    - the sort comparator;
    - the chat-send and batch-add handlers, in the class `Demo.DemoChat`.
  - `AppUi` covers `src/App.tsx`:
    - the derived views and the list updaters;
    - the chat transcript sequence and the error hint, in the class `AppUi.DesktopApp`.

Outside parts of the system are passed in as parameters:

- the clock, UUIDs and message ids;
- HTTP replies, given as a sequence of outcomes the model reads in order; a reply body arrives in chunks and may break off with a transport error after any of them;
- JSON text parsing;
- the executor, as seen by the AI service;
- the two undefined helpers `get_tools` and `parse_function_calls_from_text`.

Timestamps are clock ticks (`nat`). Their order stands for the order of the RFC 3339 text that the source stores.

Stateful methods are specified by functions of the old state. For example:

- `TodoRepository.GetAll` returns `Query(rows, filter)`;
- `AiService.Chat` returns `RunChat(env, request, s0)`;
- `DemoChat.SendChat` ends with `messages == old(messages) + ChatAppended(...)`.

The lemmas then prove the source's promises about those functions.

## Model

| member | source | states |
|---|---|---|
| TodoModel.StatusText | src-tauri/src/models/todo.rs:14-31 | reading a status's text back gives the same status |
| TodoModel.StatusTextInjective | src-tauri/src/models/todo.rs:14-21 | the four statuses have four distinct texts |
| TodoModel.StatusFromUnknownText | src-tauri/src/models/todo.rs:23-31 | any text that is not a status name reads as the default status, Pending |
| TodoModel.StatusFromText | src-tauri/src/models/todo.rs:23-31 | only the texts in_progress, completed and cancelled read as a status other than the default Pending |
| TodoModel.PriorityCode | src-tauri/src/models/todo.rs:43-59 | a priority's code is 0, 1 or 2 and decodes back to that priority |
| TodoModel.PriorityCodeInjective | src-tauri/src/models/todo.rs:44-50 | the three priorities have distinct codes |
| TodoModel.PriorityFromUnknownCode | src-tauri/src/models/todo.rs:52-58 | any code outside 0..2 decodes to the default priority, Low |
| TodoModel.PriorityFromCode | src-tauri/src/models/todo.rs:52-58 | only the codes 1 and 2 read as a priority other than the default Low |
| AppErrors.ErrorCodeIdentifiesVariant | src-tauri/src/error.rs:53-68 | two errors have the same code exactly when they are the same variant, so the code is injective over the eleven variants |
| AppErrors.MessageEmbedsDetail | src-tauri/src/error.rs:4-38 | each variant that carries a detail shows that detail inside a longer message |
| AppErrors.MissingApiKeyMentionsApiKey | src-tauri/src/error.rs:18-19 | the missing-key message is "Missing API key", and its lower-case form contains "api key" |
| AppErrors.ToJson | src-tauri/src/error.rs:40-51 | the serialised error is an object with exactly the fields code and message, holding the error code and the display text |
| SettingsModel.DefaultSettings | src-tauri/src/models/settings.rs:41-54 | the defaults are: no API key, the OpenAI base URL, gpt-4o-mini, temperature 0.7, 2048 tokens, the built-in system prompt, mode "auto" and text fallback on |
| SettingsModel.ToObject | src-tauri/src/models/settings.rs:16-31 | serialising settings writes both function-calling fields, and deserialising gives the settings back |
| SettingsModel.FromObjectDefaults | src-tauri/src/models/settings.rs:26-39 | an object without the two function-calling fields deserialises with mode "auto" and text fallback on |
| SettingsRepo.ParseU32 | src-tauri/src/db/settings_repo.rs:57-65 | a text that parses as a u32 is non-empty and starts with a digit or '+' |
| SettingsRepo.ParseU32Decimal | src-tauri/src/db/settings_repo.rs:57-65 | the decimal text that save writes for max_tokens parses back to the same number |
| SettingsRepo.Read | src-tauri/src/db/settings_repo.rs:16-77 | the settings read never hold an empty API key, and the function-calling mode and text fallback are always their defaults, since get never reads them |
| SettingsRepo.Written | src-tauri/src/db/settings_repo.rs:79-93 | save writes all six keys stamped with the save time; an absent key is written as "" and max_tokens as its decimal text |
| SettingsRepo.ReadEmpty | src-tauri/src/db/settings_repo.rs:16-77 | reading an empty table gives the default settings |
| SettingsRepo.ReadApiKey | src-tauri/src/db/settings_repo.rs:21-29 | a stored empty api_key reads as none, and any other stored value v reads as v |
| SettingsRepo.ReadUnparsableMaxTokens | src-tauri/src/db/settings_repo.rs:57-65 | a max_tokens text that does not parse leaves the default 2048 |
| SettingsRepo.SaveThenGet | src-tauri/src/db/settings_repo.rs:16-93 | save then get returns the saved settings, except that a saved empty key comes back absent and the two function-calling options come back at their defaults |
| SettingsRepo.SaveForgetsFunctionCallingOptions | src-tauri/src/db/settings_repo.rs:16-93 | after save then get, the mode is "auto" and text fallback is on, whatever was saved |
| SettingsRepo.WrittenKeys | src-tauri/src/db/settings_repo.rs:79-93 | save writes exactly six keys and leaves every other row as it was |
| SettingsRepo.UpsertKeepsOneRowPerKey | src-tauri/src/db/settings_repo.rs:95-108 | an upsert stores the new value under its key, changes no other row, adds at most that key, and a second upsert of the same key overrides the first |
| SettingsRepo.SettingsRepository.Get | src-tauri/src/db/settings_repo.rs:16-77 | the settings read are the defaults, overridden one field at a time by the stored rows (the Read function) |
| SettingsRepo.SettingsRepository.Save | src-tauri/src/db/settings_repo.rs:79-93 | the table after save is the old table with the six upserts applied in order |
| SettingsRepo.SettingsRepository.UpsertSetting | src-tauri/src/db/settings_repo.rs:95-108 | the table after the call is the old one with that key's row replaced |
| SettingsService.FromBackend | src/services/tauri/settings.ts:28-40 | a null or absent key becomes ""; the mode and fallback are filled with "auto" and true only when absent, so an explicit false stays false; other fields pass through unchanged |
| SettingsService.KeyOrNull | src/services/tauri/settings.ts:45 | the key that save sends is null exactly when the form's key is "", and otherwise the key unchanged |
| SettingsService.ToBackend | src/services/tauri/settings.ts:42-55 | the save payload's key is null exactly when the form's key is ""; both function-calling options are always sent, as given or else "auto" and true |
| SettingsService.TestConnectionPayload | src/services/tauri/settings.ts:57-68 | the connection-test payload is the save payload without the two function-calling fields |
| SettingsService.SaveThenGetPayload | src/services/tauri/settings.ts:28-55 | passing the save payload back through get restores the form's key and every other field, with the two function-calling options filled with their defaults when absent |
| SettingsService.GetThenSavePayload | src/services/tauri/settings.ts:28-55 | a back-end object with a non-empty key and both options present survives get then save unchanged |
| SettingsService.SaveThenGetThroughStore | src/services/tauri/settings.ts:42-55 | saving from the form, storing in the settings table and loading again restores everything except the two function-calling options, which come back as "auto" and true |
| TodoRepo.Encode | src-tauri/src/db/todo_repo.rs:25-39 | a row written for a todo has completed 0 or 1 and decodes back to that todo |
| TodoRepo.EncodeAll | src-tauri/src/db/todo_repo.rs:97-112 | encoding a list gives canonical rows that decode back to the list |
| TodoRepo.JsonEscapeAppend | src-tauri/src/db/todo_repo.rs:23 | escaping text for the tags JSON works character by character |
| TodoRepo.TagsJson | src-tauri/src/db/todo_repo.rs:23 | the stored tags text is a bracketed JSON array |
| TodoRepo.MatchesParts | src-tauri/src/db/todo_repo.rs:69-90 | a row passes the WHERE clause exactly when it passes each supplied predicate on status, completed, priority, text and tags |
| TodoRepo.MatchesCanonical | src-tauri/src/db/todo_repo.rs:69-92 | on a stored row, the SQL filter and the sort key agree with the same filter and key on the decoded todo |
| TodoRepo.Query | src-tauri/src/db/todo_repo.rs:63-119 | get_all returns one todo per row that passes the WHERE clause |
| TodoRepo.QueryIsTodoQuery | src-tauri/src/db/todo_repo.rs:63-119 | filtering and sorting the rows and then decoding them is the same as decoding first and then filtering and sorting the todos |
| TodoRepo.TodoQueryMembers | src-tauri/src/db/todo_repo.rs:69-90 | a todo is in the get_all result exactly when it is stored and satisfies every supplied predicate |
| TodoRepo.TodoQueryOrdered | src-tauri/src/db/todo_repo.rs:92 | in the result, incomplete todos come before complete ones, and within each group the newest comes first |
| TodoRepo.TodoQueryAll | src-tauri/src/db/todo_repo.rs:63-119 | with no filter, get_all returns a permutation of the table |
| TodoRepo.SearchFindsText | src-tauri/src/db/todo_repo.rs:82-85 | for a keyword without wildcards, search keeps exactly the todos whose text contains the keyword, ignoring ASCII case |
| TodoRepo.TagFilterFindsPrefix | src-tauri/src/db/todo_repo.rs:86-89 | a todo with a tag that starts with the filter tag passes the tag LIKE pattern |
| TodoRepo.IndexOf | src-tauri/src/db/todo_repo.rs:121-146 | the lookup finds the first row with the id, and finds none exactly when no row has it |
| TodoRepo.Lookup | src-tauri/src/db/todo_repo.rs:121-146 | get_by_id fails exactly when no row has the id, and then with TodoNotFound of that id |
| TodoRepo.FirstClash | src-tauri/src/db/todo_repo.rs:54-61 | the index of the first request in a batch whose id is already taken, by the table or an earlier request |
| TodoRepo.NewTodo | src-tauri/src/db/todo_repo.rs:17-52 | a created todo has the given id, text and due date, is not completed, is Pending, has the requested priority or Low and the requested tags or none, and created_at = updated_at = now |
| TodoRepo.Merge | src-tauri/src/db/todo_repo.rs:153-187 | every field the update supplies replaces the stored one |
| TodoRepo.MergeNothing | src-tauri/src/db/todo_repo.rs:153-187 | an update that supplies no field changes only updated_at |
| TodoRepo.MergeKeeps | src-tauri/src/db/todo_repo.rs:153-187 | an update keeps id and created_at, sets updated_at, keeps each field the request does not supply, and never clears a due date |
| TodoRepo.MergeTwice | src-tauri/src/db/todo_repo.rs:153-187 | two updates in a row equal one update with their fields overlaid |
| TodoRepo.LookupAfterCreate | src-tauri/src/db/todo_repo.rs:17-52 | after creating a todo with a fresh id, get_by_id returns it |
| TodoRepo.LookupAfterUpdate | src-tauri/src/db/todo_repo.rs:148-188 | after an update, get_by_id returns the merged todo |
| TodoRepo.LookupAfterDelete | src-tauri/src/db/todo_repo.rs:215-224 | after delete, get_by_id of that id gives TodoNotFound |
| TodoRepo.DeleteRemovesOne | src-tauri/src/db/todo_repo.rs:215-224 | with unique ids, delete removes exactly the one row with that id and keeps the others in order |
| TodoRepo.StatisticsAfterCreate | src-tauri/src/db/todo_repo.rs:239-255 | creating a pending, incomplete todo adds one to total and to pending, and leaves the other counts unchanged |
| TodoRepo.StatusCountsAddUp | src-tauri/src/db/todo_repo.rs:239-255 | on a canonical table, pending, in_progress and cancelled plus the rows with status completed add up to total |
| TodoRepo.Statistics | src-tauri/src/db/todo_repo.rs:239-255 | total is the number of rows, and each other count is at most total |
| TodoRepo.TodoRepository.constructor | src-tauri/src/db/todo_repo.rs:13-15 | a new repository is empty |
| TodoRepo.TodoRepository.Create | src-tauri/src/db/todo_repo.rs:17-52 | a taken id fails with a Database error and changes nothing. Otherwise exactly one row is appended, holding the new todo: not completed, Pending, priority Low and no tags unless given, created_at = updated_at. Other rows are untouched |
| TodoRepo.TodoRepository.BatchCreate | src-tauri/src/db/todo_repo.rs:54-61 | requests are created in order. With no clash, all n are returned in request order. If request k fails, its error is returned and rows 0..k-1 stay in the table |
| TodoRepo.TodoRepository.GetAll | src-tauri/src/db/todo_repo.rs:63-119 | returns the decoded rows that pass the filter, in the source's order (the Query function) |
| TodoRepo.TodoRepository.GetById | src-tauri/src/db/todo_repo.rs:121-146 | returns the lookup result, and on success the todo's id is the id asked for |
| TodoRepo.TodoRepository.Update | src-tauri/src/db/todo_repo.rs:148-188 | an unknown id gives TodoNotFound and changes nothing; otherwise only that row is replaced, by the merged todo, which is returned |
| TodoRepo.TodoRepository.Delete | src-tauri/src/db/todo_repo.rs:215-224 | removes the rows with that id, and fails with TodoNotFound exactly when there was none |
| TodoRepo.TodoRepository.DeleteCompleted | src-tauri/src/db/todo_repo.rs:226-230 | removes every completed row, returns how many it removed (as a u32), and every remaining todo is incomplete |
| TodoRepo.TodoRepository.Search | src-tauri/src/db/todo_repo.rs:232-237 | search is get_all with only the text filter |
| TodoRepo.TodoRepository.GetStatistics | src-tauri/src/db/todo_repo.rs:239-255 | returns the counts of total, completed and each status; a count that does not fit a u32 (2^32 or more) fails |
| SqlLike.LikeInfixIsFoldedContains | src-tauri/src/db/todo_repo.rs:82-85 | a "%k%" LIKE pattern without wildcards in k matches exactly the texts that contain k, ignoring ASCII case |
| FunctionCall.FunctionDefinitions | src-tauri/src/services/function_call.rs:9-109 | there are five definitions |
| FunctionCall.DefinitionNames | src-tauri/src/services/function_call.rs:9-109 | the definitions are named add_todos, complete_todo, delete_todo, query_todos and get_statistics, in that order |
| FunctionCall.FunctionInfos | src-tauri/src/services/function_call.rs:111-119 | the infos are in the same order as the definitions, with the same names and descriptions |
| FunctionCall.KindOf | src-tauri/src/services/function_call.rs:134-141 | a name is dispatched exactly when it is one of the five defined names |
| FunctionCall.PriorityFromName | src-tauri/src/services/function_call.rs:155-161 | "high" gives High, "medium" gives Medium, and any other string gives Low |
| FunctionCall.PriorityNameRoundTrip | src-tauri/src/services/function_call.rs:155-161 | the priority names read back as their priorities |
| FunctionCall.EntryRequest | src-tauri/src/services/function_call.rs:150-165 | an entry gives a request exactly when its text is a string; a priority is set exactly when a priority string is given, and there is no due date or tags |
| FunctionCall.EntryPriority | src-tauri/src/services/function_call.rs:155-161 | the priority mapping of one entry, including that an absent priority leaves the repository default |
| FunctionCall.FirstInvalid | src-tauri/src/services/function_call.rs:148-153 | the first entry without a string text, with every entry before it valid |
| FunctionCall.AddTodosSuccessCount | src-tauri/src/services/function_call.rs:144-180 | a successful add_todos had an array of todos, reports created_count equal to its length, and added that many rows |
| FunctionCall.Selection | src-tauri/src/services/function_call.rs:184-199 | an id takes precedence over a search, and with neither the result is InvalidArgument |
| FunctionCall.SelectionIsStored | src-tauri/src/services/function_call.rs:184-199 | a selected todo is one stored in the table |
| FunctionCall.SearchSelectsFirstMatch | src-tauri/src/services/function_call.rs:188-195 | a search selects a stored todo whose text contains the term, and it comes first in get_all order among all such todos |
| FunctionCall.CompleteMarksDone | src-tauri/src/services/function_call.rs:200-203 | completing a todo sets completed and status Completed and changes nothing else but updated_at |
| FunctionCall.DeleteRemovesSelected | src-tauri/src/services/function_call.rs:222-231 | without delete_all_completed, delete_todo removes exactly the selected todo |
| FunctionCall.DeleteOutcomeRows | src-tauri/src/services/function_call.rs:222-231 | without delete_all_completed, the table after delete_todo is the old table without the selected id |
| FunctionCall.DeleteAllCompletedIgnoresSelection | src-tauri/src/services/function_call.rs:210-219 | with delete_all_completed set, the outcome does not depend on id or search |
| FunctionCall.ArgsFilter | src-tauri/src/services/function_call.rs:239-260 | query_todos filters by the given status (read with from_str, so an unknown name is pending), the completed flag and the search, and never by priority or tag |
| FunctionCall.FunctionExecutor.Execute | src-tauri/src/services/function_call.rs:130-142 | malformed arguments are read as {}; each of the five names runs its function; any other name gives UnknownFunction(name) and leaves the table unchanged |
| FunctionCall.FunctionExecutor.AddTodos | src-tauri/src/services/function_call.rs:144-180 | a non-array todos gives InvalidArgument. Otherwise entries are created in order; the first entry without a text stops with InvalidArgument, and the earlier rows stay |
| FunctionCall.FunctionExecutor.CreateEntries | src-tauri/src/services/function_call.rs:149-171 | entries are created in order until the first one without a text or the first taken id; the created todos are exactly the ones before that point, their rows are appended, and the failure names what stopped the loop |
| FunctionCall.FunctionExecutor.CompleteTodo | src-tauri/src/services/function_call.rs:182-206 | the selected todo ends completed with status Completed, and no other row changes |
| FunctionCall.FunctionExecutor.DeleteTodo | src-tauri/src/services/function_call.rs:208-237 | delete_all_completed removes every completed row; otherwise the selected todo is deleted |
| FunctionCall.FunctionExecutor.QueryTodos | src-tauri/src/services/function_call.rs:239-260 | the result is get_all with the filter read from the arguments |
| FunctionCall.FunctionExecutor.GetStatistics | src-tauri/src/services/function_call.rs:262-279 | the result is the repository statistics as a JSON object, or its error |
| AiService.ModeFlags | src-tauri/src/services/ai_service.rs:379-384 | the tools flag is off only for "functions" and "disabled", and the functions flag is off only for "tools" and "disabled" |
| AiService.RequestBody | src-tauri/src/services/ai_service.rs:386-412 | the request carries functions and function_call "auto" exactly when the functions flag is set, and tools and tool_choice "auto" exactly when the tools flag is set; model, messages, temperature and max_tokens come from the settings |
| AiService.ModesOfferFunctions | src-tauri/src/services/ai_service.rs:257-262 | every mode except "disabled" offers tools or functions, and every mode other than "tools", "functions" and "disabled" offers both |
| AiService.ReplyResponse | src-tauri/src/services/ai_service.rs:422-447 | a transport error, on sending or while reading the body, becomes Http; a non-2xx status becomes ApiError with the status and the body; a 2xx body that does not parse becomes ApiError "Invalid JSON response: ..."; otherwise the parsed response |
| AiService.CallApi | src-tauri/src/services/ai_service.rs:369-448 | a missing key fails with MissingApiKey before any request; otherwise the reply to the request body built from the settings |
| AiService.ContextTodos | src-tauri/src/services/ai_service.rs:39-49 | the context lists the first incomplete todos in list order, at most 10 of them |
| AiService.TodoContext | src-tauri/src/services/ai_service.rs:39-49 | an empty list gives the fixed no-tasks sentence, and any other list gives the pending-tasks header followed by the lines |
| AiService.ContextShowsListed | src-tauri/src/services/ai_service.rs:39-49 | each listed todo's text and id prefix appear in the context |
| AiService.Conversation | src-tauri/src/services/ai_service.rs:35-84 | the messages are the system message, then the history in order, then the user message: 2 + the history's length in all |
| AiService.BuildMessages | src-tauri/src/services/ai_service.rs:35-84 | the pushed messages are the conversation above |
| AiService.AppendHistory | src-tauri/src/services/ai_service.rs:66-71 | the loop leaves the system message followed by every history message, in order |
| AiService.StepPrecedence | src-tauri/src/services/ai_service.rs:106-220 | a reply ends the loop exactly when it has no tool_calls, no function_call and no usable text fallback; tool_calls are handled first, then function_call (only without tool_calls), then the fallback; each case is exactly the fold for its format |
| AiService.FallbackStep | src-tauri/src/services/ai_service.rs:169-220 | the text fallback adds the one fallback warning |
| AiService.ToolCallsFold | src-tauri/src/services/ai_service.rs:106-139 | the modern format adds one result per function-type call, after the earlier results, and no warning |
| AiService.ToolCallsFoldRecords | src-tauri/src/services/ai_service.rs:110-121 | each new result is a success named after its function-type call, in call order |
| AiService.ToolCallsFoldError | src-tauri/src/services/ai_service.rs:111-115 | a failed turn carries the error the executor returned for one of the function-type calls |
| AiService.LegacyStep | src-tauri/src/services/ai_service.rs:141-167 | the legacy format adds one successful result for the call, holding the executor's value, after the earlier results, and no warning; a failed turn carries the executor's error and the state it left |
| AiService.ExtractedFold | src-tauri/src/services/ai_service.rs:182-193 | the fallback adds one result per extracted call, after the earlier results, and no warning of its own |
| AiService.ExtractedFoldRecords | src-tauri/src/services/ai_service.rs:182-189 | each new result is a success named after its extracted call, in call order |
| AiService.ExtractedFoldError | src-tauri/src/services/ai_service.rs:182-183 | a failed turn carries the error the executor returned for one of the extracted calls |
| AiService.Step | src-tauri/src/services/ai_service.rs:106-220 | a turn that does not fail keeps every result and warning gathered before it, in front of the new ones |
| AiService.FinalResponse | src-tauri/src/services/ai_service.rs:222-239 | the message is the content or ""; function_results and warnings are none exactly when empty; updated_todos is always present |
| AiService.ChatFrom | src-tauri/src/services/ai_service.rs:96-242 | past five attempts the chat fails with TooManyFunctionCalls; without a key it fails with MissingApiKey; a reply reports every earlier result and warning, in order, and the todos as the executor leaves them |
| AiService.AfterStep | src-tauri/src/services/ai_service.rs:138-239 | a failed turn ends the chat with its error and state; a reply reports the turn's results and warnings, in order, and the todos as the executor leaves them |
| AiService.RunChat | src-tauri/src/services/ai_service.rs:87-243 | a successful chat reports the todos as the executor leaves them |
| AiService.ChatFromUsesFiveAttempts | src-tauri/src/services/ai_service.rs:97-242 | the loop reads no more than the first five server replies |
| AiService.EndlessCallsAreTooMany | src-tauri/src/services/ai_service.rs:97-242 | if every reply asks for a function, as tool_calls, a function_call or calls the text fallback finds, and every call succeeds, chat fails with TooManyFunctionCalls |
| AiService.ExtractedNeverFail | src-tauri/src/services/ai_service.rs:182-189 | when the executor never fails, the fallback's calls never fail either |
| AiService.ToolCallsNeverFail | src-tauri/src/services/ai_service.rs:106-139 | when the executor never fails, processing tool calls never fails either: only an executor error can end the fold, since `execute(...)?` passes that error straight out |
| AiService.NoFallbackTurn | src-tauri/src/services/ai_service.rs:169-220 | with the text fallback off, a turn that does not fail leaves the warnings as they were |
| AiService.NoFallbackNoWarnings | src-tauri/src/services/ai_service.rs:169-239 | with the text fallback off, a successful reply has no warnings |
| AiService.MissingKeyFailsFirst | src-tauri/src/services/ai_service.rs:369-376 | without an API key, chat fails with MissingApiKey and the executor state is unchanged |
| AiService.Chat | src-tauri/src/services/ai_service.rs:87-243 | the imperative loop returns the outcome of the specification RunChat |
| AiService.ChatLoop | src-tauri/src/services/ai_service.rs:96-242 | the loop of at most five attempts returns the outcome ChatFrom gives from the first attempt |
| AiService.ChatRound | src-tauri/src/services/ai_service.rs:99-240 | one attempt either ends the chat with the outcome ChatFrom gives at that attempt, or hands on a progress from which the next attempt gives that same outcome |
| AiStream.Absorb | src-tauri/src/services/ai_service.rs:341-358 | the delta's content is appended to the content buffer and its argument piece to the arguments; the name buffer becomes the delta's name when it has one and is kept otherwise |
| AiStream.Finish | src-tauri/src/services/ai_service.rs:322-339 | at [DONE], a function runs only when the accumulated name is non-empty |
| AiStream.LinesFold | src-tauri/src/services/ai_service.rs:316-361 | reading a chunk's lines only adds to the events forwarded so far |
| AiStream.ChunksFold | src-tauri/src/services/ai_service.rs:312-364 | reading the chunks only adds to the events forwarded so far |
| AiStream.ProcessLines | src-tauri/src/services/ai_service.rs:316-361 | the imperative loop over one chunk's lines returns the outcome of LinesFold |
| AiStream.LastNameWins | src-tauri/src/services/ai_service.rs:353-355 | the name buffer ends as the name of the last line that carries one, or as it started when no line does |
| AiStream.OnlyDataLinesCount | src-tauri/src/services/ai_service.rs:316-320 | lines without the "data: " prefix do not affect the result |
| AiStream.FoldCollects | src-tauri/src/services/ai_service.rs:312-363 | without [DONE], the fold emits the content deltas in order and accumulates content, the last name and the arguments |
| AiStream.DoneEndsChunk | src-tauri/src/services/ai_service.rs:322-339 | lines after [DONE] in the same chunk are ignored |
| AiStream.RunStream | src-tauri/src/services/ai_service.rs:246-366 | a missing key fails with MissingApiKey and emits nothing; a transport error fails with Http; a non-2xx reply fails with ApiError of the body alone, or Http if the body breaks off; a 2xx reply is the fold of its chunks, and a body that breaks off after them fails with Http after the events already forwarded |
| AiStream.StreamEnd | src-tauri/src/services/ai_service.rs:312-313 | a stream still open when the body breaks off fails with Http, keeping the executor state and the events already forwarded; otherwise the fold's outcome stands |
| AiStream.ChatStream | src-tauri/src/services/ai_service.rs:246-366 | the loop over chunks and lines returns the outcome of RunStream |
| Demo.Simulate | front-demo/demo.tsx:53-81 | rules are tried in order and the first match wins. 生成/计划/帮我 gives a generation with three open, active actions. 总结/回顾 gives a summary. Anything else gives the chat text |
| Demo.PlanRuleComesFirst | front-demo/demo.tsx:58-67 | an input containing 帮我 is a generation, even if it also asks for a summary |
| Demo.SummaryShowsCounts | front-demo/demo.tsx:68-73 | the summary text shows both the completed count and the pending count |
| Demo.StripFencesKeeps | front-demo/demo.tsx:122 | removing fences leaves fence-free text before them untouched |
| Demo.FencedReadsLikeBare | front-demo/demo.tsx:122 | JSON wrapped in a json fence cleans to the same text as the bare JSON |
| Demo.Interpret | front-demo/demo.tsx:132-140 | a new_todos array gives a generation with one open, active action per entry, even when empty; otherwise a chat with the response field |
| Demo.Remote | front-demo/demo.tsx:84-147 | a thrown error or an error field gives the error text with its message; empty reply text gives "API 返回为空"; a parse failure gives a chat with the raw text verbatim; a parsed reply is interpreted |
| Demo.CallAI | front-demo/demo.tsx:48-148 | an empty key always takes the simulator, and any other key takes the remote path |
| Demo.NewTodosGenerate | front-demo/demo.tsx:118-140 | a reply whose cleaned text parses to an object with a new_todos array is a generation |
| Demo.CompareIsRankOrder | front-demo/demo.tsx:213-218 | the comparator is antisymmetric and agrees with the rank key: incomplete first, then by createdAt descending, treating a missing createdAt as 0 |
| Demo.Ordered | front-demo/demo.tsx:213-218 | the sorted list is a permutation of the documents |
| Demo.OrderedFollowsComparator | front-demo/demo.tsx:213-218 | in the sorted list each element compares at most equal to the next one |
| Demo.BatchDocs | front-demo/demo.tsx:253-264 | one stored document per action, in order, each with the action's text, completed flag and status, the i-th id, the i-th createdAt tick and the i-th date text |
| Demo.DemoChat.constructor | front-demo/demo.tsx:167-169 | the transcript starts with the single welcome message and the store is empty |
| Demo.DemoChat.BatchAdd | front-demo/demo.tsx:253-264 | when signed in and the writes succeed, one document per action is added; a failed write reports failure |
| Demo.DemoChat.SendChat | front-demo/demo.tsx:288-311 | blank input changes nothing. Otherwise the input is cleared, the user message and then the reply are appended, a generation's actions are written when signed in, and typing ends |
| Demo.DemoChat.Submit | front-demo/demo.tsx:291-310 | past the guard: the input is cleared, the user message and then the reply are appended, a generation is written when signed in, and typing ends |
| Demo.PlanRequestWritesThree | front-demo/demo.tsx:53-67 | in simulator mode, a 帮我 request produces three actions to write |
| AppUi.ViewsPartition | src/App.tsx:91-95 | a todo is active exactly when it is neither completed nor cancelled, and archived exactly when cancelled; no todo is both |
| AppUi.ViewsCover | src/App.tsx:91-95 | completedCount counts the done todos, and active + archived + completed-but-not-cancelled counts every todo once |
| AppUi.ReplaceById | src/App.tsx:134-136 | the updated list has the same length, replaces the elements with the updated id and keeps the others |
| AppUi.ReplaceByIdSettles | src/App.tsx:147-149 | replacing twice is the same as replacing once, and an absent id leaves the list unchanged |
| AppUi.RemoveById | src/App.tsx:158 | the filtered list holds no element with that id and keeps every other element |
| AppUi.RemoveByIdCount | src/App.tsx:158 | exactly the elements with that id are removed |
| AppUi.History | src/App.tsx:228-231 | the chat history sent holds one message per transcript entry, with its role and content |
| AppUi.Hint | src/App.tsx:272-292 | a message that mentions MISSING_API_KEY or "api key" gives the configure-key hint; otherwise "AI 调用失败：" plus the message, or the default text when it is empty |
| AppUi.ErrorText | src/App.tsx:274-277 | a thrown string is the message; the text is missing exactly when the rejection is an object whose message is neither absent, null nor a string |
| AppUi.ErrorMessages | src/App.tsx:272-292 | an error adds at most one assistant message, and it is the hint for the error's message |
| AppUi.ReplyMessages | src/App.tsx:244-271 | the assistant message comes first; a warning message prefixed "⚠️ " follows when there are warnings; a system update message follows when todos were updated |
| AppUi.MissingKeyShowsHint | src/App.tsx:272-292 | without an API key, the failure shown to the user is the configure-key hint |
| AppUi.BatchRequests | src/App.tsx:112-126 | one create request per action, in order, with priority medium and empty tags |
| AppUi.ToggleRequest | src/App.tsx:128-140 | the update flips completed, sets status completed when the todo becomes done and pending when it is undone, and supplies nothing else |
| AppUi.FailureAddsOneAssistantMessage | src/App.tsx:272-292 | a failed chat adds at most one message, and it is from the assistant |
| AppUi.DesktopApp.constructor | src/App.tsx:53-59 | the transcript starts with the welcome message |
| AppUi.DesktopApp.AddTodo | src/App.tsx:98-110 | whitespace-only input makes no call; otherwise one create call with the trimmed text and priority medium, and the created todo is prepended to the unchanged list |
| AppUi.DesktopApp.CreateTrimmed | src/App.tsx:103-109 | one create call with the trimmed text and priority medium; on success the created todo is prepended and the input cleared, and on failure the list and input stay |
| AppUi.DesktopApp.BatchAddTodos | src/App.tsx:112-126 | an empty batch makes no call; otherwise one batch call, and the created todos are prepended in order |
| AppUi.DesktopApp.ToggleComplete | src/App.tsx:128-140 | sends the toggle update and replaces the todo by id on success |
| AppUi.DesktopApp.UpdateStatus | src/App.tsx:142-153 | sends the status-only update and replaces the todo by id on success |
| AppUi.DesktopApp.DeleteTodo | src/App.tsx:155-162 | sends the delete and removes the todo by id on success |
| AppUi.DesktopApp.SendChat | src/App.tsx:214-293 | blank input does nothing. Otherwise it appends the user message, then the reply messages or the single error message, replaces the todos when updated ones come back, and typing ends |
| AppUi.DesktopApp.SendTrimmed | src/App.tsx:218-293 | past the guard: the user message is appended, the call carries the earlier transcript as history, the reply or error messages follow, and typing ends |

## Left out

- Floating point: temperature is a `real`, and its text encoding and parsing are parameters of the settings repository.
- JSON text: parsing (`serde_json::from_str`, `JSON.parse`) and serialising are not modelled. Decoded values are inputs, and "malformed" is `None`.
- Transport: the HTTP requests, headers, URLs and the Gemini `fetch` are not modelled. Replies are given outcomes. The Tauri `invoke`/`listen`/`emit` plumbing and the command wrappers are thin pass-throughs and are not modelled. A failed `emit` is not modelled.
- Firebase: auth and the Firestore listeners are not modelled. The demo's store is the list of documents written.
- The database engine, its connection pool and its I/O failures are not modelled. The only database error modelled is a duplicate primary key on insert, and a count overflow in statistics.
- Clock, UUIDs, `Date.now()` message ids and the one-second simulator delay are parameters. App.tsx message ids take one clock reading per message slot.
- `get_tools` and `parse_function_calls_from_text` are used but not defined in the application; they are parameters. So is the executor as seen by `AiService`, and the settings that `chat` reads.
- Case folding is ASCII only (`Text.ToLower`). This is exact for SQLite's built-in `LIKE`, which folds ASCII letters only. JavaScript `toLowerCase` folds more characters than this, so the front-end checks that lower-case a message (`AppUi.Hint`) are modelled for ASCII case only.
- AiService.ContextShowsListed: the source shows `&t.id[..8]` for each listed task, which panics for an id shorter than 8 bytes. The model shows such an id whole and counts characters, not bytes.
- TodoRepo.TagFilterFindsPrefix: proved in one direction only (a matching tag passes the filter). The `LIKE` pattern can also match inside other JSON text.
- TodoRepo.TodoQueryOrdered: the order between two todos with the same completion and creation time is not stated, like `ORDER BY` itself.
- AiStream.DoneEndsChunk: `[DONE]` ends only the lines of its own chunk, as in the source. Later chunks are still read.
- Demo.Remote: a TypeError from reading a property of a null reply is modelled by a `typeErrorText` parameter. JavaScript `String(v)` of a non-string message is the `jsString` parameter.
- Demo.DemoChat.BatchAdd: the store writes are all-or-nothing (`ok`). With `Promise.all`, some writes could land before one fails.
- The demo's `handleAddTodo`, `toggleComplete`, `updateStatus` and derived views are not modelled; the desktop app's versions are.
- AppUi.ErrorMessages: a rejection whose `message` is neither a string nor absent throws inside the catch block. It is modelled as adding no message.
- The desktop app's settings screen handlers (`handleTestApi`, the function-calling test, `saveSettings`) are not modelled. Rendering, scrolling and view switching are UI and are not modelled.
- Neither front end has a single-flight guard on sending, and the demo does not downgrade an empty generation; the model has neither.

# Boardgame reviewer: game lookup and assistant orchestration in Dafny

This project models the two sequential parts of the boardgame reviewer and proves properties about them.

- **Game lookup** (`boardgamegeek_client.py`, class `BoardGameGeekClient`). A game name is resolved to a BoardGameGeek id by the search tie-break rule: the first item whose name matches case-insensitively, else the first item, else nothing. The details for that id are extracted, or replaced by the error dictionary when the request fails. They are then formatted into a seven-entry Czech display record.
- **Assistant orchestration** (`assistant_manager.py`, class `AssistantManager`). The manager holds the current run and the last review. A single-active-run guard decides whether a message is added or a run is started. A polling loop ends on `completed` (storing the newest message's text) or `failed`. On `requires_action` it answers tool calls through a two-entry dispatch table and submits the outputs in one batch when there are any.

Files:

- `wrappers.dfy` (module `Wrappers`): `Option`.
- `text.dfy` (module `Text`): the Python string operations the lookup uses. These are ASCII `lower()`, `sep.join(parts)`, and `x or fallback`.
- `game_lookup.dfy` (module `GameLookup`): the search, details and formatting functions. It also holds `GetGameId`, the search loop as a method, and `GetGameInfo`.
- `assistant.dfy` (module `Assistant`): the class `AssistantService`, an abstract assistant service, and the class `AssistantManager`.
  - The service keeps the thread as a message sequence, oldest first. It also keeps a finite script of answers to status requests, the submitted tool-output batches, and a run counter.
  - Each status request consumes one scripted answer. The messages the assistant posted since the previous answer join the thread at that point.
- `session.dfy` (module `Session`): a client method that drives one session through the contracts alone.

The outcome of each HTTP request and XML parse is an input `Fetch<T>`: `TransportError`, `ParseError` or `Parsed(doc)`. The two catalog endpoints are the functions of a `Catalog` value. JSON encoding of a lookup result is the manager's function-valued constant `encode`.

## Model

| member | source | states |
|---|---|---|
| `Text.Lower` | boardgamegeek_client.py:41 | the lower-cased string has the same length, maps each character through ASCII lower-casing, and has no upper-case letter left |
| `Text.LowerIdempotent` | boardgamegeek_client.py:41 | lower-casing an already lower-cased string changes nothing |
| `Text.OrElse` | boardgamegeek_client.py:109-116 | Python's `v or fallback` gives `v` when it is neither None nor empty, else the fallback, and it is never empty when the fallback is not |
| `Text.Join` | boardgamegeek_client.py:116 | Python's `sep.join(parts)`: the result starts with the first part, and with the first part and the separator when there are two or more parts |
| `Text.JoinEmptyIff` | boardgamegeek_client.py:116 | with a non-empty separator, the join is empty exactly when there are no parts or a single empty part |
| `GameLookup.FirstMatch` | boardgamegeek_client.py:37-42 | a found index is in range and its item's name matches the query ignoring case |
| `GameLookup.FirstMatchIsLeast` | boardgamegeek_client.py:37-42 | the search finds index k exactly when item k matches and no earlier item does. Items without a `name` element never match, and a missing `value` reads as '' |
| `GameLookup.FirstMatchNone` | boardgamegeek_client.py:37-42 | the search finds nothing exactly when no item matches |
| `GameLookup.SelectId` | boardgamegeek_client.py:37-48 | the tie-break rule on a parsed item list: no id exactly when the list is empty, and otherwise the id of one of its items |
| `GameLookup.ResolvedId` | boardgamegeek_client.py:23-51 | what `get_game_id` returns for a search response: an id only from a parsed response, and then the id of one of its items |
| `GameLookup.SelectIdFirstMatch` | boardgamegeek_client.py:37-42 | the resolved id is the id of the first item, in document order, whose name equals the query ignoring case |
| `GameLookup.SelectIdFallback` | boardgamegeek_client.py:44-48 | with no matching name, the resolved id is the first item's id, whatever its name |
| `GameLookup.ResolvedIdNone` | boardgamegeek_client.py:23-51 | no id exactly when the request or parse failed or there are no items |
| `GameLookup.SelectIdIgnoresQueryCase` | boardgamegeek_client.py:41 | lower-casing the query does not change the resolved id |
| `GameLookup.GetGameId` | boardgamegeek_client.py:19-51 | the scanning loop with its early return gives exactly the id the tie-break rule selects, and None on a failed request or parse |
| `GameLookup.Categories` | boardgamegeek_client.py:98 | every extracted category is the `value` of a `boardgamecategory` link, and every such link's value is extracted |
| `GameLookup.CategoriesAppend` | boardgamegeek_client.py:98 | extraction keeps document order: the categories of two runs of links are the concatenation of each run's categories |
| `GameLookup.Extract` | boardgamegeek_client.py:90-99 | a parsed document gives a value for every field. Each absent attribute becomes its placeholder, and an absent or empty description text becomes "Popis nenalezen". The playing time is the attribute or placeholder followed by " minut" |
| `GameLookup.FetchDetails` | boardgamegeek_client.py:53-101 | a failed request or parse gives the error dictionary (all seven values None, no categories), and only a failure does. Otherwise the result is the extracted dictionary |
| `GameLookup.PlayerCount` | boardgamegeek_client.py:111-112 | the player-count text is the minimum, then '-', then the maximum, each replaced by its own placeholder when missing or empty |
| `GameLookup.CategoryText` | boardgamegeek_client.py:116 | the categories text is never empty, and with no categories it is "Žádné kategorie" |
| `GameLookup.Format` | boardgamegeek_client.py:103-119 | a falsy argument gives the empty record. Any other argument gives exactly the seven display keys, each with a non-empty value |
| `GameLookup.DisplayKeysCount` | boardgamegeek_client.py:108-117 | the display record has seven distinct keys |
| `GameLookup.FormatFields` | boardgamegeek_client.py:109-115 | each single-valued entry shows the field when it is neither None nor empty, and otherwise its fixed placeholder |
| `GameLookup.PlayerCountSplits` | boardgamegeek_client.py:111-112 | for every record, the displayed player count is minimum, '-', maximum, each replaced by its own placeholder separately. Splitting at the first '-' recovers both when the minimum has no '-' |
| `GameLookup.CategoriesShown` | boardgamegeek_client.py:116 | no categories show "Žádné kategorie", and a single non-empty category shows itself. Two or more are joined with ", " |
| `GameLookup.FailedFetchShowsPlaceholders` | boardgamegeek_client.py:57-87 | after a failed details fetch, every entry of the display shows its placeholder |
| `GameLookup.MissingPlayingTimeShown` | boardgamegeek_client.py:95 | a parsed document without a playing time shows "Herní čas nenalezen minut" |
| `GameLookup.GameInfo` | boardgamegeek_client.py:13-17 | `get_game_info`: info only for a truthy resolved id, and then a record with exactly the seven display keys |
| `GameLookup.GameInfoNone` | boardgamegeek_client.py:13-17 | no info exactly when the resolved id is None or empty. In that case the result is the same for any details endpoint, so details are not consulted |
| `GameLookup.GameInfoSome` | boardgamegeek_client.py:13-17 | otherwise the info is the formatted details of the resolved id, with the seven display keys |
| `GameLookup.GetGameInfo` | boardgamegeek_client.py:11-17 | resolving the id with the search loop, then fetching and formatting, gives the lookup result `GameInfo` |
| `Assistant.NewestFirst` | assistant_manager.py:79-80 | the listed messages are the thread reversed, so `data[0]` is the newest message |
| `Assistant.OutputsFor` | assistant_manager.py:93-104 | the outputs for one call: exactly one for `get_boardgame_info` or `make_review`, none for any other name, tagged with the call's id |
| `Assistant.ToolOutputs` | assistant_manager.py:92-104 | the outputs for a list of calls, at most one per call |
| `Assistant.ToolOutputsInCallOrder` | assistant_manager.py:88-106 | there is one output per call named `get_boardgame_info` or `make_review`, in call order, tagged with that call's id. `make_review` gives its `boardgame_review` argument verbatim, and `get_boardgame_info` gives the encoded lookup result for its `boardgame_name` |
| `Assistant.ToolOutputsEmptyIff` | assistant_manager.py:92-104 | no output is prepared exactly when no call has a dispatched name |
| `Assistant.EndIndex` | assistant_manager.py:52-71 | the first completed or failed answer: it is one, and no earlier answer is |
| `Assistant.BatchFor` | assistant_manager.py:58-66 | the batches one answer submits: none unless it is `requires_action`, and never an empty batch |
| `Assistant.BatchForIff` | assistant_manager.py:58-68 | an answer leads to at most one submitted batch. It leads to one exactly when it is `requires_action` with a `tool_calls` list holding a dispatched call |
| `Assistant.AssistantService.CreateMessage` | assistant_manager.py:20-22 | the service appends one message with the given role and a single text part |
| `Assistant.AssistantService.CreateRun` | assistant_manager.py:37-39 | the service returns a run with a fresh id |
| `Assistant.AssistantService.Retrieve` | assistant_manager.py:45-47 | a status request consumes the next scripted answer, and that answer's posted messages join the thread |
| `Assistant.AssistantService.SubmitToolOutputs` | assistant_manager.py:62-66 | the service records one batch of outputs |
| `Assistant.AssistantService.ListMessages` | assistant_manager.py:79 | the listed messages are the thread, newest first: same length, element 0 the newest |
| `Assistant.AssistantManager.constructor` | assistant_manager.py:9-15 | a new manager has no run and no review |
| `Assistant.AssistantManager.CheckRun` | assistant_manager.py:43-48 | returns a freshly retrieved status of the current run |
| `Assistant.AssistantManager.IsRunActive` | assistant_manager.py:26-32 | false without a run, with no status request. Otherwise true exactly when the freshly retrieved status is neither completed nor failed |
| `Assistant.AssistantManager.AddMessageToThread` | assistant_manager.py:17-24 | exactly one message with the given role and content is appended when no run is active. Otherwise nothing is appended |
| `Assistant.AssistantManager.RunAssistant` | assistant_manager.py:34-41 | the run is replaced by a newly created one only when no run is active. Otherwise run and run count are unchanged |
| `Assistant.AssistantManager.GetReview` | assistant_manager.py:73-75 | returns the stored review, which is None until a completed answer or a direct `get_latest_response` stores one |
| `Assistant.AssistantManager.GetLatestResponse` | assistant_manager.py:77-81 | when the newest message's first content part is text, that text becomes the review. Otherwise (where the source raises) the review is unchanged |
| `Assistant.AssistantManager.GetBoardgameInfo` | assistant_manager.py:83-86 | the tool handler's result is the game lookup of the given name |
| `Assistant.AssistantManager.PrepareToolOutputs` | assistant_manager.py:88-108 | None exactly when there is no `tool_calls` key. Otherwise the outputs of the dispatched calls, in call order |
| `Assistant.AssistantManager.AnswerToolCalls` | assistant_manager.py:58-68 | the prepared outputs are submitted in one batch when non-empty, and nothing is submitted when they are None or empty |
| `Assistant.AssistantManager.PollOnce` | assistant_manager.py:53-71 | one pass consumes one answer. Completed stores the newest text and ends the wait, failed ends it with the review unchanged, and any other status continues |
| `Assistant.AssistantManager.WaitForRunToComplete` | assistant_manager.py:50-71 | polling stops at the first completed or failed answer. The thread has every posted message, the submitted batches are those of the required actions before it, and a completed run stores the newest message's first text. A failed run leaves the earlier review in place |

## Left out

- HTTP requests, URL building and the 10-second timeout (boardgamegeek_client.py:21-28, 55-60) are not modelled. Their outcome, together with XML parsing, is the input `Fetch<T>`. The unescaped query in the URL is not modelled.
- XML parsing (`ET.fromstring`, `find`, `findall`) is not modelled. A search response is a sequence of items and a details response a record of optional attribute values. Elements the client looks up with `find` are assumed present (the source raises when one is missing). Absent `id` attributes on items and absent `value` attributes on category links also raise in the source; both are plain strings here.
- `Text.Lower`: lower-cases ASCII letters only, not Python's full Unicode `str.lower()`.
- JSON decoding of tool-call arguments is not modelled; arguments arrive as a decoded map. Malformed JSON or a missing `boardgame_name`/`boardgame_review` key raises in the source; here it is excluded by the `WellFormed` precondition. JSON encoding of the lookup result is the input function `encode`.
- `Assistant.AssistantManager.WaitForRunToComplete`: requires that the service eventually answers completed or failed, and that the tool calls of the answers up to that one are well formed. The source loop has no bound and keeps polling forever otherwise, including the stuck `requires_action` case where nothing is submitted.
- `Assistant.AssistantService.Retrieve`: requires a scripted answer to be left, standing for a service that always answers.
- Thread and run ids passed to the service are not modelled: all runs share one scripted status stream.
- The script does not keep a finished run's status terminal: nothing stops an answer after a completed or failed one from reporting the same run active again, which the service never does. The wait reads no answer after the first completed or failed one, so its contract does not depend on this; `is_run_active` and the callers that use it take whatever answer comes next.
- Where `get_latest_response` raises (empty thread, or newest message without a leading text part), the exception leaves the loop. The model ends the wait with `NoReply` and the review unchanged; what the caller does with the exception is not modelled.
- Logging is not modelled: it is a side effect only.
- main.py (Streamlit form, dotenv, reading the instruction file, session state), tools.py (a static tool schema literal) and the demo block at boardgamegeek_client.py:122-131 are not part of this model.
- Details values are the attribute strings the code reads, not integers or floats. The player count, rating and age are never converted, so the record carries strings, following the code.
- `is_run_active` counts every status other than completed and failed as active, including cancelled and expired, following the code.

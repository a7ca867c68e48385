# OpenDota analytics backend: a Dafny model of its deterministic core

The backend answers Dota 2 questions through a hosted language model (Gemini) that
can call tools on an MCP server wrapping the OpenDota API, and it can analyse one
match with three specialised sub-agents. Around the model calls and the tool calls
sits a small amount of deterministic logic. This project models that logic as pure
Dafny functions over immutable datatypes and proves what it promises:

- `MatchAnalysis` (match_analyzer.dfy): the orchestrator. It slices a match record
  into three agent inputs with defaults for missing fields, renders the duration as
  `M:SS`, turns a failed sub-agent call into an error result instead of an
  exception, and assembles the report in fixed task order.
- `Gemini` (gemini_client.dfy): the chat client. It maps the conversation history to
  Gemini roles, converts tool descriptions into function declarations (with a default
  parameter schema), flattens a tool result to text, and runs the tool-call loop
  against a model oracle.
- `Mcp` (mcp_client.dfy): the MCP client. It splits the launch arguments, records
  the tool catalog on connecting, guards every tool call behind the session, and
  produces the Gemini-facing tool descriptions.
- `ChatEndpoint` (chat_endpoint.dfy): the `POST /chat` handler. It has a 503 guard
  on the two clients, runs the chat with the catalog's tools, and extends the
  conversation history by one exchange.
- Support modules:
  - `Wrappers` for `Option` and `Result`;
  - `JsonValues` for the JSON values the backend passes around as dicts;
  - `Models` for the request and response records;
  - `Text` for `str(n)`, `f"{n:02d}"`, `sep.join` and `str.split()`. The number
    formats are pinned down by their read-back. `str.split()` is pinned down by two
    laws: it recovers the words from any whitespace layout, and it yields only words.

Every call into a foreign library is a parameter. Each property therefore holds for
any function in that parameter's place, within the limits listed under "Left out":

- The language model is `ChatModel.send` (chat) or `Env.generate` (sub-agents).
- An MCP tool invocation is `Session.invoke`.
- `json.dumps` is `Env.dumps` or the `dumps` argument.
- How far `connect` got is a `ConnectOutcome`.

An exception is a `Failure` carrying what was raised. The tool-call loop has no bound
in the source, so the model gives it `fuel`. `Gemini.LoopNeverAnswers` shows that the
bound is a real modelling choice: a model that keeps asking for tools never receives
an answer, however much fuel it gets.

Three behaviours of the code are easy to misread, and the model keeps them as written:

- **Tool failures.** A tool call that raises is re-raised out of the chat and becomes
  a 500 (backend/app/gemini_client.py:74 and 98-100). Whatever a tool *returns*,
  an error text included, goes back to the model as the function response; see
  `Gemini.ToolResultIsFedBack`.
- **Where `duration` and `radiant_win` are read.** They are read under the record's
  `metadata`, never at its top level.
- **A `metadata` value that is not a dict.** The log line at
  backend/app/match_analyzer.py:200 calls `.get` on it before any agent is created.
  The analysis therefore fails before the agents run.

## Model

| member | source | states |
|---|---|---|
| Text.IntToDecimalRoundTrip | backend/app/match_analyzer.py:187 | the unpadded minute field `{minutes}` reads back as the same integer, negative minutes included |
| Text.ZeroPad2RoundTrip | backend/app/match_analyzer.py:187 | the `:02d` seconds field reads back as the same number |
| Text.DropSpacesRemovesSpaces | backend/app/mcp_client.py:13 | skipping leading whitespace leaves a suffix of the input, and everything skipped is whitespace |
| Text.SplitWordsAreWords | backend/app/mcp_client.py:13 | every token `str.split()` yields is non-empty and contains no whitespace |
| Text.SplitJoinRoundTrip | backend/app/mcp_client.py:13 | splitting a space-joined list of words gives back exactly that list |
| Text.SplitSpacedWords | backend/app/mcp_client.py:13 | words separated by any non-empty whitespace runs, with any leading and trailing whitespace, split back into exactly those words |
| Text.AllSpaceSplitsToNothing | backend/app/mcp_client.py:13 | a string of whitespace only, the empty string included, splits into no words |
| Text.JoinAppend | backend/app/gemini_client.py:125 | `"\n".join` of two non-empty lists is the two joins with one separator between them |
| Mcp.ServerArgs | backend/app/mcp_client.py:13 | a missing or empty argument string gives `[]`; otherwise the whitespace split, whose tokens are all words |
| Mcp.ServerArgsRoundTrip | backend/app/mcp_client.py:13 | arguments written as one space-separated string are recovered word for word |
| Mcp.NewClient | backend/app/mcp_client.py:10-16 | a new client keeps its command and split arguments, has no session and an empty catalog |
| Mcp.CatalogEntry | backend/app/mcp_client.py:30-34 | a catalog record has exactly the keys name, description and input_schema, holding the listed tool's name, description (null when absent) and input schema |
| Mcp.Catalog | backend/app/mcp_client.py:29-36 | the catalog has one record per listed tool, in listing order |
| Mcp.Connect | backend/app/mcp_client.py:18-42 | a transport failure changes nothing; a failure after the session exists records that new session but keeps the old catalog; a completed listing records the new session and replaces the catalog with one well-formed record per tool; an error is reported exactly when the listing did not complete |
| Mcp.CallTool | backend/app/mcp_client.py:44-54 | without a session the call raises "MCP client not connected" before anything is invoked; with one, the outcome is the session's for exactly that name and those arguments |
| Mcp.GeminiTool | backend/app/mcp_client.py:67-71 | a record with the three catalog keys gives exactly name, description and parameters, with parameters = input_schema; otherwise it raises on the first missing key in the order name, description, input_schema |
| Mcp.ToolsForGemini | backend/app/mcp_client.py:63-73 | succeeds exactly when every record is readable, then gives one description per record in order; otherwise it fails with the first unreadable record's error |
| Mcp.ConnectedCatalogWellFormed | backend/app/mcp_client.py:29-36 | `connect` keeps the catalog well formed, so `get_tools_for_gemini` never fails on it |
| Mcp.ListedToolsReachGemini | backend/app/mcp_client.py:63-73 | from listing to Gemini descriptions, count and order are kept and `parameters` is always present, holding the listed schema whatever it is |
| Gemini.GeminiRole | backend/app/gemini_client.py:50 | the Gemini role is "user" or "model", and "user" exactly when the message role is "user" |
| Gemini.ToGeminiHistory | backend/app/gemini_client.py:48-51 | the converted history has the same length and order; each entry's only part is the message content, and its role is "user" exactly for user messages and "model" otherwise |
| Gemini.ToGeminiHistoryAppend | backend/app/gemini_client.py:48-51 | the conversion distributes over concatenation of histories |
| Gemini.ParametersOf | backend/app/gemini_client.py:109 | a present `parameters` key is used whatever its value; only an absent key gives the default object schema |
| Gemini.Declaration | backend/app/gemini_client.py:106-110 | succeeds exactly when name and description are present, copying both and the parameters; otherwise a KeyError for "name" first, then "description" |
| Gemini.Declarations | backend/app/gemini_client.py:104-111 | succeeds exactly when every tool is declarable, then gives one declaration per tool in order; otherwise it fails with the first undeclarable tool's error |
| Gemini.ConvertTools | backend/app/gemini_client.py:102-113 | succeeds exactly when every tool is declarable, giving all declarations, in order, wrapped in a single Tool; a failure is the KeyError of the first undeclarable tool, all tools before it being declarable |
| Gemini.CatalogToolsConvert | backend/app/gemini_client.py:102-113 | tools that came through the MCP catalog always convert, each declaration carrying the listed name, description and input schema, so the default schema never applies to them |
| Gemini.RenderItem | backend/app/gemini_client.py:120-124 | an item contributes its text if it has one, otherwise its serialised data, otherwise nothing |
| Gemini.RenderOneItem | backend/app/gemini_client.py:119-124 | a one-item content list renders exactly as that item does |
| Gemini.RenderItemsAppend | backend/app/gemini_client.py:119-124 | rendering content lists distributes over concatenation; with `RenderOneItem` every list renders item by item, in order, as `RenderItem` says |
| Gemini.SpeakingItems | backend/app/gemini_client.py:119-124 | when every item has text or data, each gives exactly one line in item order: its text if it has one, otherwise `json.dumps` of its data |
| Gemini.FormatToolResult | backend/app/gemini_client.py:126 | a result without `content` is returned as its `str` rendering, unchanged |
| Gemini.TextThenData | backend/app/gemini_client.py:115-125 | a text item followed by a data item flattens to the text, a newline and the serialised data |
| Gemini.SilentItemsFlattenToNothing | backend/app/gemini_client.py:115-126 | content made only of items with neither text nor data, the empty list included, flattens to "" |
| Gemini.FlattenAppend | backend/app/gemini_client.py:115-126 | flattening two content lists in sequence puts exactly one newline between the two non-empty halves and leaves no trace of an empty half |
| Gemini.RecordCall | backend/app/gemini_client.py:66-69 | a call read from the first part of the latest response extends a faithful trace |
| Gemini.RecordReply | backend/app/gemini_client.py:74-89 | the function response carrying the tool's returned result, under the call's name, extends a faithful trace |
| Gemini.ToolLoop | backend/app/gemini_client.py:66-91 | every requested call is the first-part call of a response, and every following message is the tool's flattened result for exactly that name and those arguments; the run ends in one of exactly these ways: the last send raised and that error is the answer; the last response has no first part (IndexError); its first part has no call and the answer is its text; it still asks for a call and the bound is used up; or the last call's tool raised and that error is the answer |
| Gemini.ChatSession | backend/app/gemini_client.py:53-100 | without tools or client: one plain send and its text, no tool call; with tools: a conversion error stops it before anything is sent, otherwise the message goes out with the converted tools, the trace is faithful and the run ends as the loop's does |
| Gemini.LoopNeverAnswers | backend/app/gemini_client.py:66-90 | the loop has no bound of its own: a model that always asks for a tool, with tools that always return, makes one call per unit of fuel and never answers |
| Gemini.ChatNeverAnswers | backend/app/gemini_client.py:54-90 | the same for a whole chat session on any history: such a model exhausts any bound after exactly that many tool calls |
| Gemini.ToolResultIsFedBack | backend/app/gemini_client.py:73-91 | whatever a tool returns, an error text included, does not stop the loop: the flattened result goes back under the call's name as the only other message, and the text of the next response without a call is the answer |
| MatchAnalysis.FormatSecondsShape | backend/app/match_analyzer.py:183-187 | the clock text ends in a colon and two digits, the first of them at most 5 |
| MatchAnalysis.FormatSecondsRoundTrip | backend/app/match_analyzer.py:185-187 | with floor division and modulo, minutes * 60 + seconds read back from the text gives the input, negative inputs included |
| MatchAnalysis.FormatSecondsInjective | backend/app/match_analyzer.py:183-187 | distinct numbers of seconds give distinct texts |
| MatchAnalysis.FormatSecondsExamples | backend/app/match_analyzer.py:183-187 | 0 gives "0:00" and 125 gives "2:05" |
| MatchAnalysis.FormatMinuteBoundary | backend/app/match_analyzer.py:183-187 | 59 gives "0:59" and 60 gives "1:00" |
| MatchAnalysis.FormatHalfHour | backend/app/match_analyzer.py:183-187 | 1800 gives "30:00" |
| MatchAnalysis.FormatNegativeSecond | backend/app/match_analyzer.py:185-187 | -1 gives "-1:59", because Python's `//` and `%` floor |
| MatchAnalysis.StatusText | backend/app/match_analyzer.py:56-68 | the status field is "success" or "error", and "success" exactly for a successful generation |
| MatchAnalysis.Analyze | backend/app/match_analyzer.py:33-68 | the result always names the agent; it is successful exactly when generation returned, with the generated text; otherwise its content is "Analysis failed: " followed by the message, and nothing is raised |
| MatchAnalysis.FailureMessageRecoverable | backend/app/match_analyzer.py:62-68 | the failure's message can be read back from an error result after the prefix |
| MatchAnalysis.NewOrchestrator | backend/app/match_analyzer.py:76-143 | a new orchestrator has the default configuration, which covers all three tasks, and no agents |
| MatchAnalysis.DefaultAgents | backend/app/match_analyzer.py:87-141 | the default configuration builds the Match Overview, Teamfight Analysis and Player Performance agents with their own instructions |
| MatchAnalysis.InitializeAgents | backend/app/match_analyzer.py:145-152 | one agent per configuration key, named and instructed by that configuration and replacing any earlier agent under the key; agents under other keys stay |
| MatchAnalysis.InitializeAgentsIdempotent | backend/app/match_analyzer.py:145-152 | initialising twice equals initialising once |
| MatchAnalysis.ExtractSections | backend/app/match_analyzer.py:154-181 | the slices have exactly the keys {metadata, objectives, chat}, {teamfights_summary, match_duration} and {players_summary, match_metadata}; it fails exactly when `metadata` is present but not a dict |
| MatchAnalysis.ExtractSectionsCopiesOrDefaults | backend/app/match_analyzer.py:164-181 | each slice field is the record's value unchanged, or its default when missing: {} for metadata and the summaries, [] for objectives and chat, 0 for the duration, False for radiant_win |
| MatchAnalysis.SlicesAgreeOnDuration | backend/app/match_analyzer.py:171-178 | the teamfight slice's match_duration equals the player slice's match_metadata.duration |
| MatchAnalysis.ExtractSectionsReadsOnlyItsFields | backend/app/match_analyzer.py:164-181 | two records that agree on the five fields read give the same slices |
| MatchAnalysis.Dispatch | backend/app/match_analyzer.py:203-226 | the agents are re-created and the results come back in task order, each from the agent configured for its task on its own slice and prompt, whatever agents existed before |
| MatchAnalysis.FormatDuration | backend/app/match_analyzer.py:259 | a duration formats exactly when Python's `//` and `%` accept it (an int or a bool); otherwise it raises |
| MatchAnalysis.FormatDurationReadsBack | backend/app/match_analyzer.py:259 | the formatted duration reads back as the value's seconds |
| MatchAnalysis.Summarize | backend/app/match_analyzer.py:257-262 | the winner is "Radiant" exactly when radiant_win is present and truthy, else "Dire"; the scores are copied or null; it fails exactly when a duration is present that cannot be formatted, and then with the duration error |
| MatchAnalysis.SummaryDurationReadsBack | backend/app/match_analyzer.py:259 | the report's duration reads back as the record's duration, or 0 when there is none |
| MatchAnalysis.AnalyzeMatch | backend/app/match_analyzer.py:189-263 | fails exactly when metadata is not a dict (the `.get` error, raised before the agents run) or its duration cannot be formatted (the duration error, raised after them); otherwise the agents are re-created and section i holds task i's key, title, agent, content and status, in the order overview, teamfights, players |
| MatchAnalysis.ReportReadsMetadata | backend/app/match_analyzer.py:232-262 | the report's metadata block and match id are read from the record's metadata alone, and agents_used is the number of sections, 3 |
| MatchAnalysis.SummaryIgnoresAgents | backend/app/match_analyzer.py:257-262 | success, the metadata block and the match id do not depend on what the agents produce |
| MatchAnalysis.FailureIsIsolated | backend/app/match_analyzer.py:237-256 | each section carries its fixed key, title and configured agent name; its status is "success" or "error", and "error" exactly when its own agent's generation raised |
| MatchAnalysis.ScenarioSummary | backend/app/match_analyzer.py:257-262 | a 30-minute Radiant win without scores gives winner "Radiant", duration "30:00" and null scores |
| MatchAnalysis.ScenarioAnalyses | backend/app/match_analyzer.py:44-68 | with the player agent's call failing, that agent's result is the error record and the other two hold their texts |
| MatchAnalysis.OneFailingAgentScenario | backend/app/match_analyzer.py:209-256 | the analysis still succeeds with three sections, and only the player section is an error, carrying the failure's message |
| MatchAnalysis.OneFailingAgentScenarioMetadata | backend/app/match_analyzer.py:232-262 | the scenario's report reads "Radiant" and "30:00", with null match id and scores, and counts 3 agents |
| ChatEndpoint.UpdateHistory | backend/app/main.py:116-119 | the new history is the old one, unchanged and in order, followed by (user, message) and then (assistant, answer) |
| ChatEndpoint.UpdateKeepsAlternation | backend/app/main.py:116-119 | a history of whole user/assistant exchanges stays one after the update |
| ChatEndpoint.UpdatedHistoryReachesModel | backend/app/main.py:99-119 | on the next request the model sees the earlier history, then the message as a user turn, then its answer as a model turn |
| ChatEndpoint.CatalogAlwaysConverts | backend/app/main.py:104-113 | whatever `get_tools_for_gemini` returns converts into Gemini declarations without a KeyError |
| ChatEndpoint.HandleChat | backend/app/main.py:94-134 | a missing client gives a 503 before anything is sent; a null history gives a 500 before the catalog is read; an unreadable catalog or a chat error gives a 500 carrying what was raised; otherwise the chat session runs on the converted request history with the catalog's tools, the response is its answer and the history is the updated one |
| ChatEndpoint.ToolsAccompanyTheMessage | backend/app/main.py:104-113 | with a non-empty connected catalog, the user's message goes out with one Tool holding one declaration per catalog record |
| ChatEndpoint.ConversationCarriesOver | backend/app/main.py:99-130 | sending back the returned history with a next message runs the next request's chat session on the earlier turns, the message as a user turn and the answer as a model turn, in that order |

## Left out

- Floating-point values are not in the `Json` model. A float duration would reach the
  `:02d` format and raise; durations here are integers or booleans.
- `json.dumps` output (both the `indent=2` form and the compact form) is an abstract
  function, so its formatting is not modelled. `str(result)` for a tool result without
  `content` is carried as the result's rendering.
- A `json.dumps` that raises is not modelled: the serialiser is total. `SubAgent.analyze`
  reaches its error result only through a failed generation.
- Timestamps and processing time (`datetime.now`, `processing_time_ms`,
  `analysis_timestamp`) are left out: they are wall-clock and floating-point values.
- `asyncio.gather` runs the three analyses concurrently. It is modelled as an
  order-preserving sequence, which is what it returns.
- The texts of the system instructions and task prompts are left out. A `Brief` names
  an instruction and `Env.promptText` gives a prompt; both are opaque.
- The Gemini SDK's own checks inside `FunctionDeclaration` and `Tool` (schema
  validation) are left out. A declaration copies its three values.
- Logging is left out.
- The FastAPI wiring is left out: CORS, the `/` and `/tools` routes, and the
  `lifespan` startup and shutdown. The lifespan constructs `MCPClient(server_url=...)`,
  which the constructor's signature does not accept. The model therefore starts from
  `Mcp.NewClient`, with the command and argument string the constructor does take.
- `MCPClient.disconnect` only closes the session and transport. It has no logic to model.
- The 500 response's `detail` text (`str(e)`) is left out. The error carries what was
  raised instead.
- The request history's round trip through dicts and back to `Message` objects is
  the identity, and is modelled as such.
- Decoding the request body is not modelled. An omitted `conversation_history` takes
  its default `[]` and is `Some([])` here; an explicit `null` is `None`, which the
  handler cannot iterate, so it ends in a 500.
- Mcp.Session: a tool's outcome is a function of its name and arguments alone. A
  server that answers two identical calls differently within one chat is not
  represented, so the loop's properties are stated for servers that answer
  consistently.
- backend/app/config.py (settings from the environment) is not part of this model.
- Gemini.ToolLoop: the source loop is unbounded. The model stops with `OutOfFuel` after
  `fuel` tool calls, an outcome the source does not have.
- Gemini.RenderItems: its own contract states only that it gives at most one string
  per item. What it renders is stated by `RenderOneItem` and `RenderItemsAppend`
  together, and for common shapes by `SpeakingItems` and `SilentItemsFlattenToNothing`.
- MatchAnalysis.FormatDuration and MatchAnalysis.Summarize: the read-back of the
  formatted duration is stated in `FormatDurationReadsBack` and
  `SummaryDurationReadsBack`, not in their own contracts.
- Gemini.ChatModel: a response's content is reduced to whether its first part holds a
  function call, plus its `text`, which may raise. Other part kinds are not modelled.

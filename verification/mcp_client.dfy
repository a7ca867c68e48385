/** The MCP tool-server client: how it splits its launch arguments, the tool
    catalog it records on connecting, the guard in front of every tool call, and
    the catalog's Gemini-facing shape. The stdio transport and the session are an
    oracle: listing the tools is an outcome handed to `Connect`, and invoking a tool
    is the `invoke` function the session carries. */
module Mcp {
  import opened Wrappers
  import opened JsonValues
  import opened Text

  /** One tool as the server lists it (`tool.name`, `tool.description`, `tool.inputSchema`). */
  datatype ListedTool = ListedTool(name: string, description: Option<string>, inputSchema: Json)

  /** One content item of a tool result, described by which of the probed
      attributes it has: `text` for text content, `data` for binary/structured content,
      neither for embedded resources and the like. */
  datatype ContentItem = ContentItem(text: Option<string>, data: Option<Json>)

  /** What `session.call_tool` returns: a result with a `content` list, or some other
      object, known only through its `str(...)` rendering. */
  datatype ToolResult =
    | CallResult(content: seq<ContentItem>)
    | OtherResult(rendered: string)

  /** A tool call either returns a result or raises with a message. */
  datatype ToolOutcome = Returned(result: ToolResult) | Raised(message: string)

  /** An open MCP session; `invoke(name, args)` stands for `session.call_tool`. */
  datatype Session = Session(invoke: (string, map<string, Json>) -> ToolOutcome)

  datatype McpClient = McpClient(
    command: string,
    args: seq<string>,
    session: Option<Session>,
    availableTools: seq<map<string, Json>>)

  const NotConnectedMessage := "MCP client not connected"

  /** The catalog keys every recorded tool carries. */
  const CatalogKeys: set<string> := {"name", "description", "input_schema"}

  /** The keys of every Gemini-facing tool description. */
  const GeminiToolKeys: set<string> := {"name", "description", "parameters"}

  /** A missing description (`None`) is rendered as JSON null. */
  function DescriptionValue(d: Option<string>): Json {
    match d
    case None => JNull
    case Some(s) => JStr(s)
  }

  /** The launch arguments: `server_args.split()` when the string is present and
      non-empty, `[]` otherwise. */
  function ServerArgs(serverArgs: Option<string>): (args: seq<string>)
    ensures serverArgs.None? || serverArgs == Some("") ==> args == []
    ensures serverArgs.Some? ==> args == SplitWords(serverArgs.value)
    ensures forall i :: 0 <= i < |args| ==> IsWord(args[i])
  {
    match serverArgs
    case None => []
    case Some(s) => if s == "" then [] else (SplitWordsAreWords(s); SplitWords(s))
  }

  /** A freshly constructed client: not connected, no tools known yet. */
  function NewClient(command: string, serverArgs: Option<string>): (c: McpClient)
    ensures c.command == command && c.args == ServerArgs(serverArgs)
    ensures c.session.None? && c.availableTools == []
  {
    McpClient(command, ServerArgs(serverArgs), None, [])
  }

  /** Arguments written as one space-separated string are recovered word for word. */
  lemma ServerArgsRoundTrip(words: seq<string>)
    requires forall i :: 0 <= i < |words| ==> IsWord(words[i])
    ensures ServerArgs(Some(Join(" ", words))) == words
  {
    SplitJoinRoundTrip(words);
  }

  /** The catalog record of one listed tool. */
  function CatalogEntry(t: ListedTool): (e: map<string, Json>)
    ensures e.Keys == CatalogKeys
    ensures e["name"] == JStr(t.name)
    ensures e["description"] == DescriptionValue(t.description)
    ensures e["input_schema"] == t.inputSchema
  {
    map["name" := JStr(t.name), "description" := DescriptionValue(t.description), "input_schema" := t.inputSchema]
  }

  /** The list comprehension over `tools_response.tools`. */
  function Catalog(tools: seq<ListedTool>): (cat: seq<map<string, Json>>)
    ensures |cat| == |tools|
    ensures forall i :: 0 <= i < |tools| ==> cat[i] == CatalogEntry(tools[i])
    decreases |tools|
  {
    if tools == [] then [] else [CatalogEntry(tools[0])] + Catalog(tools[1..])
  }

  /** Every catalog record has exactly the three catalog keys. */
  predicate WellFormedCatalog(cat: seq<map<string, Json>>) {
    forall i :: 0 <= i < |cat| ==> cat[i].Keys == CatalogKeys
  }

  /** How far `connect` gets: the stdio transport fails to open (nothing is recorded),
      or the session is recorded and then entering, initialising it or listing the
      tools fails, or the tools are listed. */
  datatype ConnectOutcome =
    | TransportFailed(message: string)
    | SessionFailed(message: string)
    | Listed(tools: seq<ListedTool>)

  /** The client after `connect`, and the error it re-raised, if any. */
  datatype ConnectRun = ConnectRun(client: McpClient, error: Option<string>)

  /** `connect`: the session is recorded as soon as it is created, before it is
      initialised, so a failure after that point leaves the client holding a session
      and an unchanged catalog. Only a completed listing replaces the catalog. */
  function Connect(c: McpClient, session: Session, outcome: ConnectOutcome): (r: ConnectRun)
    ensures r.client.command == c.command && r.client.args == c.args
    ensures r.error.None? <==> outcome.Listed?
    ensures !outcome.TransportFailed? ==> r.client.session == Some(session)
    ensures outcome.TransportFailed? ==> r.client == c && r.error == Some(outcome.message)
    ensures outcome.SessionFailed? ==>
      r.client.session.Some? && r.client.availableTools == c.availableTools && r.error == Some(outcome.message)
    ensures outcome.Listed? ==> r.client.session.Some? && |r.client.availableTools| == |outcome.tools|
    ensures outcome.Listed? ==> forall i :: 0 <= i < |outcome.tools| ==>
      (var entry := r.client.availableTools[i];
       && entry.Keys == CatalogKeys
       && entry["name"] == JStr(outcome.tools[i].name)
       && entry["description"] == DescriptionValue(outcome.tools[i].description)
       && entry["input_schema"] == outcome.tools[i].inputSchema)
  {
    match outcome
    case TransportFailed(e) => ConnectRun(c, Some(e))
    case SessionFailed(e) => ConnectRun(c.(session := Some(session)), Some(e))
    case Listed(tools) => ConnectRun(c.(session := Some(session), availableTools := Catalog(tools)), None)
  }

  /** `call_tool`: a client without a session raises before anything is invoked;
      otherwise the outcome is the session's, raised errors included. */
  function CallTool(c: McpClient, name: string, args: map<string, Json>): (r: ToolOutcome)
    ensures c.session.None? ==> r == Raised(NotConnectedMessage)
    ensures c.session.Some? ==> r == c.session.value.invoke(name, args)
  {
    match c.session
    case None => Raised(NotConnectedMessage)
    case Some(s) => s.invoke(name, args)
  }

  /** A catalog record `get_tools_for_gemini` cannot read: the first of "name",
      "description" and "input_schema" it lacks, the key the `KeyError` names. */
  datatype CatalogError = MissingKey(key: string)

  /** A record `get_tools_for_gemini` can read: it has the three catalog keys, and
      maybe others. */
  predicate Readable(entry: map<string, Json>) {
    "name" in entry && "description" in entry && "input_schema" in entry
  }

  /** The Gemini-facing description of one catalog record. The dict display reads
      "name", then "description", then "input_schema"; extra keys are ignored. */
  function GeminiTool(entry: map<string, Json>): (r: Result<map<string, Json>, CatalogError>)
    ensures r.Success? <==> Readable(entry)
    ensures "name" !in entry ==> r == Failure(MissingKey("name"))
    ensures "name" in entry && "description" !in entry ==> r == Failure(MissingKey("description"))
    ensures "name" in entry && "description" in entry && "input_schema" !in entry ==>
      r == Failure(MissingKey("input_schema"))
    ensures r.Success? ==> r.value.Keys == GeminiToolKeys
    ensures r.Success? ==> r.value["name"] == entry["name"] && r.value["description"] == entry["description"]
    ensures r.Success? ==> r.value["parameters"] == entry["input_schema"]
  {
    if "name" !in entry then Failure(MissingKey("name"))
    else if "description" !in entry then Failure(MissingKey("description"))
    else if "input_schema" !in entry then Failure(MissingKey("input_schema"))
    else Success(map["name" := entry["name"], "description" := entry["description"], "parameters" := entry["input_schema"]])
  }

  /** `get_tools_for_gemini`: one description per catalog record, in catalog order; the
      first record that cannot be read stops it with its error. */
  function ToolsForGemini(cat: seq<map<string, Json>>): (r: Result<seq<map<string, Json>>, CatalogError>)
    ensures r.Success? <==> forall i :: 0 <= i < |cat| ==> Readable(cat[i])
    ensures r.Success? ==> |r.value| == |cat|
    ensures r.Success? ==> forall i :: 0 <= i < |cat| ==> GeminiTool(cat[i]) == Success(r.value[i])
    ensures r.Failure? ==>
      exists k :: 0 <= k < |cat| && GeminiTool(cat[k]) == Failure(r.error)
        && (forall i :: 0 <= i < k ==> Readable(cat[i]))
    decreases |cat|
  {
    if cat == [] then Success([])
    else
      match GeminiTool(cat[0])
      case Failure(e) => Failure(e)
      case Success(g) =>
        match ToolsForGemini(cat[1..])
        case Failure(e) =>
          var k :| 0 <= k < |cat[1..]| && GeminiTool(cat[1..][k]) == Failure(e)
            && (forall i :: 0 <= i < k ==> Readable(cat[1..][i]));
          assert GeminiTool(cat[k + 1]) == Failure(e) && (forall i :: 0 <= i < k + 1 ==> Readable(cat[i]));
          Failure(e)
        case Success(gs) => Success([g] + gs)
  }

  /** The catalog `connect` records is always well formed, so `get_tools_for_gemini`
      never meets a missing key on it. */
  lemma ConnectedCatalogWellFormed(c: McpClient, session: Session, outcome: ConnectOutcome)
    requires WellFormedCatalog(c.availableTools)
    ensures WellFormedCatalog(Connect(c, session, outcome).client.availableTools)
    ensures ToolsForGemini(Connect(c, session, outcome).client.availableTools).Success?
  {
  }

  /** From the listed tools to the Gemini-facing descriptions: order is kept, and
      `parameters` is present on every description, holding the listed input schema,
      whatever that schema is. */
  lemma ListedToolsReachGemini(tools: seq<ListedTool>)
    ensures WellFormedCatalog(Catalog(tools))
    ensures var r := ToolsForGemini(Catalog(tools));
      && r.Success? && |r.value| == |tools|
      && forall i :: 0 <= i < |tools| ==>
           && "parameters" in r.value[i] && r.value[i]["parameters"] == tools[i].inputSchema
           && r.value[i]["name"] == JStr(tools[i].name)
           && r.value[i]["description"] == DescriptionValue(tools[i].description)
  {
    var r := ToolsForGemini(Catalog(tools));
    forall i | 0 <= i < |tools|
      ensures r.value[i]["parameters"] == tools[i].inputSchema
    {
      assert GeminiTool(Catalog(tools)[i]) == Success(r.value[i]);
    }
  }
}

/** The multi-agent match analysis: three sub-agents, each given one slice of a
    match record, and a report assembled from their results in a fixed order.

    The language model is the oracle `Env.generate(brief, fullPrompt)`. The agents'
    system instructions and the three task prompts are opaque: a `Brief` names an
    instruction, and `Env.promptText` gives each task's prompt text. `json.dumps(data,
    indent=2)` is `Env.dumps`. The concurrent `asyncio.gather` is an order-preserving
    map, since it returns results in task order. Timestamps and processing time are
    not modelled. */
module MatchAnalysis {
  import opened Wrappers
  import opened JsonValues
  import opened Text

  // ---------------------------------------------------------------------------
  // Clock formatting
  // ---------------------------------------------------------------------------

  /** `_format_seconds_to_time`: floor division and modulo by 60 (Dafny's `/` and `%`
      agree with Python's for a positive divisor), minutes unpadded, seconds padded
      to two digits. */
  function FormatSeconds(seconds: int): string {
    IntToDecimal(seconds / 60) + ":" + ZeroPad2(seconds % 60)
  }

  /** The clock text ends in a colon and two digits, the first of them at most 5. */
  lemma FormatSecondsShape(seconds: int)
    ensures var clock := FormatSeconds(seconds);
      && |clock| >= 4 && clock[|clock| - 3] == ':'
      && AllDigits(clock[|clock| - 2..]) && DigitValue(clock[|clock| - 2]) <= 5
  {
    var secs := seconds % 60;
    var padded := ZeroPad2(secs);
    var clock := FormatSeconds(seconds);
    assert clock[|clock| - 2..] == padded;
    assert DigitValue(padded[0]) <= 5 by {
      if secs >= 10 {
        var d := NatToDecimal(secs / 10);
        assert padded == d + [DigitChar(secs % 10)];
        assert |d| == 1 && ParseDigits(d) == Some(secs / 10) by { ParseNatToDecimal(secs / 10); }
      }
    }
  }

  /** Reads `M:SS` back: a possibly negative minute count, a colon, and exactly two
      digits below 60. */
  function ParseClock(clock: string): Option<int> {
    if |clock| < 4 || clock[|clock| - 3] != ':' then None
    else
      match (ParseInt(clock[..|clock| - 3]), ParseDigits(clock[|clock| - 2..]))
      case (Some(m), Some(s)) => if s < 60 then Some(m * 60 + s) else None
      case _ => None
  }

  /** Every number of seconds, negative ones included, is recovered from its clock
      text: minutes * 60 + seconds gives back the input. */
  lemma FormatSecondsRoundTrip(seconds: int)
    ensures ParseClock(FormatSeconds(seconds)) == Some(seconds)
  {
    var minutes := IntToDecimal(seconds / 60);
    var padded := ZeroPad2(seconds % 60);
    var clock := FormatSeconds(seconds);
    assert clock == minutes + ":" + padded;
    assert clock[..|clock| - 3] == minutes;
    assert clock[|clock| - 2..] == padded;
    IntToDecimalRoundTrip(seconds / 60);
    ZeroPad2RoundTrip(seconds % 60);
  }

  /** Distinct durations give distinct clock texts. */
  lemma FormatSecondsInjective(a: int, b: int)
    requires FormatSeconds(a) == FormatSeconds(b)
    ensures a == b
  {
    FormatSecondsRoundTrip(a);
    FormatSecondsRoundTrip(b);
  }

  /** The clock text from its two parts. */
  lemma FormatSecondsFromParts(seconds: int, minutes: string, secs: string)
    requires IntToDecimal(seconds / 60) == minutes && ZeroPad2(seconds % 60) == secs
    ensures FormatSeconds(seconds) == minutes + ":" + secs
  {
  }

  /** Seconds are padded to two digits and minutes are not. */
  lemma FormatSecondsExamples()
    ensures FormatSeconds(0) == "0:00"
    ensures FormatSeconds(125) == "2:05"
  {
    FormatSecondsFromParts(0, "0", "00");
    FormatSecondsFromParts(125, "2", "05");
  }

  /** The last second of a minute and the first of the next. */
  lemma FormatMinuteBoundary()
    ensures FormatSeconds(59) == "0:59"
    ensures FormatSeconds(60) == "1:00"
  {
    assert NatToDecimal(59) == "59" by { assert NatToDecimal(5) == "5"; }
    FormatSecondsFromParts(59, "0", "59");
    FormatSecondsFromParts(60, "1", "00");
  }

  /** Half an hour reads "30:00". */
  lemma FormatHalfHour()
    ensures FormatSeconds(1800) == "30:00"
  {
    assert NatToDecimal(30) == "30" by { assert NatToDecimal(3) == "3"; }
    FormatSecondsFromParts(1800, "30", "00");
  }

  /** A negative duration floors: one second before zero is minute -1, second 59. */
  lemma FormatNegativeSecond()
    ensures FormatSeconds(-1) == "-1:59"
  {
    assert NatToDecimal(59) == "59" by { assert NatToDecimal(5) == "5"; }
    assert -1 / 60 == -1 && -1 % 60 == 59;
    assert IntToDecimal(-1) == "-1" by { assert NatToDecimal(1) == "1"; }
    FormatSecondsFromParts(-1, "-1", "59");
  }

  // ---------------------------------------------------------------------------
  // Agents
  // ---------------------------------------------------------------------------

  /** The system instruction an agent is created with, by identity only. */
  datatype Brief = OverviewBrief | TeamfightBrief | PlayerBrief

  datatype AgentConfig = AgentConfig(name: string, brief: Brief)

  datatype SubAgent = SubAgent(name: string, brief: Brief)

  datatype Status = Succeeded | Failed

  /** The `{"agent", "content", "status"}` record `SubAgent.analyze` returns. */
  datatype AgentResult = AgentResult(agent: string, content: string, status: Status)

  /** What `generate_content(...).text` gives: a text, or an exception's message. */
  datatype Reply = Generated(text: string) | Raised(message: string)

  /** The three analysis tasks, in the order they are dispatched. */
  datatype Task = OverviewTask | TeamfightTask | PlayerTask

  datatype Env = Env(
    dumps: Json -> string,
    generate: (Brief, string) -> Reply,
    promptText: Task -> string)

  const FailurePrefix := "Analysis failed: "

  /** The rendering of a status in the report. */
  function StatusText(s: Status): (t: string)
    ensures t == "success" || t == "error"
    ensures t == "success" <==> s == Succeeded
  {
    match s
    case Succeeded => "success"
    case Failed => "error"
  }

  /** The prompt an agent sends: the task prompt, then the serialised data. */
  function FullPrompt(prompt: string, dataJson: string): string {
    prompt + "\n\nData to analyze:\n" + dataJson
  }

  /** `SubAgent.analyze`: always a result carrying the agent's name; a generation
      failure becomes an error result whose content names the failure. */
  function Analyze(agent: SubAgent, data: Json, prompt: string, env: Env): (r: AgentResult)
    ensures r.agent == agent.name
    ensures var reply := env.generate(agent.brief, FullPrompt(prompt, env.dumps(data)));
      && (r.status == Succeeded <==> reply.Generated?)
      && (reply.Generated? ==> r.content == reply.text)
      && (reply.Raised? ==> r.content == FailurePrefix + reply.message)
  {
    match env.generate(agent.brief, FullPrompt(prompt, env.dumps(data)))
    case Generated(text) => AgentResult(agent.name, text, Succeeded)
    case Raised(message) => AgentResult(agent.name, FailurePrefix + message, Failed)
  }

  /** The failure message can be read back from an error result. */
  lemma FailureMessageRecoverable(agent: SubAgent, data: Json, prompt: string, env: Env)
    requires env.generate(agent.brief, FullPrompt(prompt, env.dumps(data))).Raised?
    ensures var r := Analyze(agent, data, prompt, env);
      && r.status == Failed
      && |r.content| >= |FailurePrefix| && r.content[..|FailurePrefix|] == FailurePrefix
      && r.content[|FailurePrefix|..] == env.generate(agent.brief, FullPrompt(prompt, env.dumps(data))).message
  {
  }

  /** The agent configuration, keyed by section. */
  function DefaultConfigs(): map<string, AgentConfig>
  {
    map[
      "overview" := AgentConfig("Match Overview Agent", OverviewBrief),
      "teamfights" := AgentConfig("Teamfight Analysis Agent", TeamfightBrief),
      "players" := AgentConfig("Player Performance Agent", PlayerBrief)]
  }

  datatype Orchestrator = Orchestrator(configs: map<string, AgentConfig>, agents: map<string, SubAgent>)

  /** A new orchestrator: the default configuration and no agents yet. */
  function NewOrchestrator(): (o: Orchestrator)
    ensures o.configs == DefaultConfigs() && o.agents == map[]
    ensures Configured(o)
  {
    Orchestrator(DefaultConfigs(), map[])
  }

  /** `_initialize_agents`: one agent per configuration key, named and instructed by
      that configuration, replacing any agent already under the key; agents under
      other keys stay. */
  function InitializeAgents(agents: map<string, SubAgent>, configs: map<string, AgentConfig>): (r: map<string, SubAgent>)
    ensures r.Keys == agents.Keys + configs.Keys
    ensures forall k :: k in configs ==> r[k] == SubAgent(configs[k].name, configs[k].brief)
    ensures forall k :: k in agents && k !in configs ==> r[k] == agents[k]
  {
    agents + map k | k in configs :: SubAgent(configs[k].name, configs[k].brief)
  }

  /** Initialising twice is the same as initialising once: every request starts from
      agents built afresh from the configuration. */
  lemma InitializeAgentsIdempotent(agents: map<string, SubAgent>, configs: map<string, AgentConfig>)
    ensures InitializeAgents(InitializeAgents(agents, configs), configs) == InitializeAgents(agents, configs)
  {
    var once := InitializeAgents(agents, configs);
    var twice := InitializeAgents(once, configs);
    assert forall k :: k in twice ==> twice[k] == once[k];
  }

  // ---------------------------------------------------------------------------
  // Slicing the match record
  // ---------------------------------------------------------------------------

  /** Errors `analyze_match` can raise: `.get` on a `metadata` value that is not a
      dict, and `//`/`%` or `:02d` on a duration that is not an integer. */
  datatype AnalysisError = MetadataNotADict | DurationNotAnInteger

  /** The fields of the record's `metadata`, empty when it is missing or not a dict. */
  function MetadataFields(m: map<string, Json>): map<string, Json> {
    if "metadata" in m && m["metadata"].JObj? then m["metadata"].fields else map[]
  }

  /** `match_data.get("metadata", {})`. */
  function Metadata(m: map<string, Json>): Json {
    Lookup(m, "metadata", EmptyObject)
  }

  /** The three slices handed to the agents. */
  datatype Slices = Slices(overview: Json, teamfights: Json, players: Json)

  /** `_extract_match_sections`: the three slices, each field copied unchanged or
      defaulted when missing. Reading the duration out of a `metadata` value that is
      not a dict raises. */
  function ExtractSections(m: map<string, Json>): (r: Result<Slices, AnalysisError>)
    ensures r.Failure? <==> "metadata" in m && !m["metadata"].JObj?
    ensures r.Failure? ==> r.error == MetadataNotADict
    ensures r.Success? ==> r.value.overview.JObj? && r.value.overview.fields.Keys == {"metadata", "objectives", "chat"}
    ensures r.Success? ==> r.value.teamfights.JObj? && r.value.teamfights.fields.Keys == {"teamfights_summary", "match_duration"}
    ensures r.Success? ==> r.value.players.JObj? && r.value.players.fields.Keys == {"players_summary", "match_metadata"}
  {
    match Metadata(m)
    case JObj(meta) =>
      var duration := Lookup(meta, "duration", JInt(0));
      Success(Slices(
        JObj(map[
          "metadata" := Metadata(m),
          "objectives" := Lookup(m, "objectives", EmptyList),
          "chat" := Lookup(m, "chat", EmptyList)]),
        JObj(map[
          "teamfights_summary" := Lookup(m, "teamfights_summary", EmptyObject),
          "match_duration" := duration]),
        JObj(map[
          "players_summary" := Lookup(m, "players_summary", EmptyObject),
          "match_metadata" := JObj(map[
            "duration" := duration,
            "radiant_win" := Lookup(meta, "radiant_win", JBool(false))])])))
    case _ => Failure(MetadataNotADict)
  }

  /** `v` is the record's own value under `key`, or `default` when the key is missing. */
  predicate CopiedOrDefault(v: Json, m: map<string, Json>, key: string, default: Json) {
    (key in m ==> v == m[key]) && (key !in m ==> v == default)
  }

  /** Each slice field is the record's own value, unchanged, or its default when the
      record lacks it: `{}` for metadata and the two summaries, `[]` for objectives and
      chat, `0` for the duration, `False` for radiant_win. */
  lemma ExtractSectionsCopiesOrDefaults(m: map<string, Json>)
    requires ExtractSections(m).Success?
    ensures var s := ExtractSections(m).value;
      var meta := MetadataFields(m);
      var matchMeta := s.players.fields["match_metadata"];
      && CopiedOrDefault(s.overview.fields["metadata"], m, "metadata", JObj(map[]))
      && CopiedOrDefault(s.overview.fields["objectives"], m, "objectives", JArr([]))
      && CopiedOrDefault(s.overview.fields["chat"], m, "chat", JArr([]))
      && CopiedOrDefault(s.teamfights.fields["teamfights_summary"], m, "teamfights_summary", JObj(map[]))
      && CopiedOrDefault(s.teamfights.fields["match_duration"], meta, "duration", JInt(0))
      && CopiedOrDefault(s.players.fields["players_summary"], m, "players_summary", JObj(map[]))
      && matchMeta.JObj? && matchMeta.fields.Keys == {"duration", "radiant_win"}
      && CopiedOrDefault(matchMeta.fields["duration"], meta, "duration", JInt(0))
      && CopiedOrDefault(matchMeta.fields["radiant_win"], meta, "radiant_win", JBool(false))
  {
  }

  /** The teamfight slice and the player slice carry the same duration. */
  lemma SlicesAgreeOnDuration(m: map<string, Json>)
    requires ExtractSections(m).Success?
    ensures var s := ExtractSections(m).value;
      s.teamfights.fields["match_duration"] == s.players.fields["match_metadata"].fields["duration"]
  {
  }

  /** The slices depend on the five fields they read and on nothing else in the record. */
  lemma ExtractSectionsReadsOnlyItsFields(m: map<string, Json>, m': map<string, Json>)
    requires forall k :: k in {"metadata", "objectives", "chat", "teamfights_summary", "players_summary"} ==>
      (k in m <==> k in m') && (k in m ==> m[k] == m'[k])
    ensures ExtractSections(m) == ExtractSections(m')
  {
    assert Metadata(m) == Metadata(m');
  }

  // ---------------------------------------------------------------------------
  // The report
  // ---------------------------------------------------------------------------

  function TaskKey(t: Task): string {
    match t
    case OverviewTask => "overview"
    case TeamfightTask => "teamfights"
    case PlayerTask => "players"
  }

  function TaskTitle(t: Task): string {
    match t
    case OverviewTask => "Match Overview"
    case TeamfightTask => "Teamfight Analysis"
    case PlayerTask => "Player Performance"
  }

  /** One entry of the report's `sections`: its key, and the title, agent, content and
      status text it shows. */
  datatype Section = Section(key: string, title: string, agent: string, content: string, status: string)

  /** The report's `metadata` block. */
  datatype Summary = Summary(winner: string, duration: string, radiantScore: Json, direScore: Json)

  /** The report, without its timestamp and processing time. */
  datatype Report = Report(matchId: Json, agentsUsed: nat, sections: seq<Section>, summary: Summary)

  /** The orchestrator after the request (its agents were re-created) and the report. */
  datatype Analysis = Analysis(orchestrator: Orchestrator, report: Report)

  /** The orchestrator can run: every task's key is configured. */
  predicate Configured(o: Orchestrator) {
    forall t: Task :: TaskKey(t) in o.configs
  }

  /** The slice task `t` analyses. */
  function SliceFor(slices: Slices, t: Task): Json {
    match t
    case OverviewTask => slices.overview
    case TeamfightTask => slices.teamfights
    case PlayerTask => slices.players
  }

  /** The agent a configured orchestrator builds for task `t`. */
  function AgentFor(o: Orchestrator, t: Task): SubAgent
    requires Configured(o)
  {
    SubAgent(o.configs[TaskKey(t)].name, o.configs[TaskKey(t)].brief)
  }

  /** Task `t`'s analysis: its slice, analysed with its prompt by the agent configured
      for it. */
  function TaskAnalysis(o: Orchestrator, env: Env, slices: Slices, t: Task): AgentResult
    requires Configured(o)
  {
    Analyze(AgentFor(o, t), SliceFor(slices, t), env.promptText(t), env)
  }

  /** One analysis, run by whichever agent the map holds under the task's key. */
  function RunTask(agents: map<string, SubAgent>, slices: Slices, env: Env, t: Task): AgentResult
    requires TaskKey(t) in agents
  {
    Analyze(agents[TaskKey(t)], SliceFor(slices, t), env.promptText(t), env)
  }

  /** The agents are re-created from the configuration and the three analyses are
      gathered; `asyncio.gather` returns them in task order, and each is the
      analysis by the agent configured for its task, whatever agents the
      orchestrator held before. */
  function Dispatch(o: Orchestrator, env: Env, slices: Slices): (results: seq<AgentResult>)
    requires Configured(o)
    ensures results == [TaskAnalysis(o, env, slices, OverviewTask),
                        TaskAnalysis(o, env, slices, TeamfightTask),
                        TaskAnalysis(o, env, slices, PlayerTask)]
  {
    var agents := InitializeAgents(o.agents, o.configs);
    [RunTask(agents, slices, env, OverviewTask), RunTask(agents, slices, env, TeamfightTask), RunTask(agents, slices, env, PlayerTask)]
  }

  function SectionOf(t: Task, r: AgentResult): Section {
    Section(TaskKey(t), TaskTitle(t), r.agent, r.content, StatusText(r.status))
  }

  /** The number of seconds Python's `//` and `%` see in a duration value: an integer,
      or a bool (which is an integer in Python); nothing else has them. */
  function DurationSeconds(v: Json): Option<int> {
    match v
    case JInt(n) => Some(n)
    case JBool(b) => Some(if b then 1 else 0)
    case _ => None
  }

  /** `_format_seconds_to_time` applied to a duration value: the clock text reads back
      as the value's seconds, and a value without seconds raises. */
  function FormatDuration(v: Json): (r: Result<string, AnalysisError>)
    ensures r.Success? <==> DurationSeconds(v).Some?
    ensures r.Failure? ==> r.error == DurationNotAnInteger
  {
    match DurationSeconds(v)
    case None => Failure(DurationNotAnInteger)
    case Some(n) => Success(FormatSeconds(n))
  }

  /** A formatted duration reads back as the value's seconds. */
  lemma FormatDurationReadsBack(v: Json)
    requires FormatDuration(v).Success?
    ensures ParseClock(FormatDuration(v).value) == DurationSeconds(v)
  {
    FormatSecondsRoundTrip(DurationSeconds(v).value);
  }

  /** The `metadata` block, read from the record alone. */
  function Summarize(meta: map<string, Json>): (r: Result<Summary, AnalysisError>)
    ensures r.Failure? <==> "duration" in meta && DurationSeconds(meta["duration"]).None?
    ensures r.Failure? ==> r.error == DurationNotAnInteger
    ensures r.Success? ==> r.value.winner == "Radiant" || r.value.winner == "Dire"
    ensures r.Success? ==> (r.value.winner == "Radiant" <==> "radiant_win" in meta && Truthy(meta["radiant_win"]))
    ensures r.Success? ==> CopiedOrDefault(r.value.radiantScore, meta, "radiant_score", JNull)
    ensures r.Success? ==> CopiedOrDefault(r.value.direScore, meta, "dire_score", JNull)
  {
    var winner := if Truthy(Lookup(meta, "radiant_win", JNull)) then "Radiant" else "Dire";
    // the winner is computed before the duration, but only the duration can raise
    match FormatDuration(Lookup(meta, "duration", JInt(0)))
    case Failure(e) => Failure(e)
    case Success(clock) => Success(Summary(winner, clock, Lookup(meta, "radiant_score", JNull), Lookup(meta, "dire_score", JNull)))
  }

  /** The report's duration reads back as the record's duration in seconds, and as 0
      when the record has none. */
  lemma SummaryDurationReadsBack(meta: map<string, Json>)
    requires Summarize(meta).Success?
    ensures "duration" !in meta ==> ParseClock(Summarize(meta).value.duration) == Some(0)
    ensures "duration" in meta ==> ParseClock(Summarize(meta).value.duration) == DurationSeconds(meta["duration"])
  {
    FormatDurationReadsBack(Lookup(meta, "duration", JInt(0)));
  }

  /** `analyze_match`: a `metadata` value that is not a dict stops it before any agent
      is created (the log line that opens it already calls `.get` on that value);
      otherwise the agents are re-created, the three analyses gathered, and the
      report built. Formatting a duration that is not an integer raises after the
      agents ran. */
  function AnalyzeMatch(o: Orchestrator, env: Env, m: map<string, Json>): (r: Result<Analysis, AnalysisError>)
    requires Configured(o)
    ensures r.Failure? <==>
      || ("metadata" in m && !m["metadata"].JObj?)
      || ("metadata" in m && m["metadata"].JObj? && "duration" in m["metadata"].fields
          && DurationSeconds(m["metadata"].fields["duration"]).None?)
    ensures r.Failure? ==>
      r.error == (if "metadata" in m && !m["metadata"].JObj? then MetadataNotADict else DurationNotAnInteger)
    ensures r.Success? ==> r.value.orchestrator == Orchestrator(o.configs, InitializeAgents(o.agents, o.configs))
    ensures r.Success? ==> ExtractSections(m).Success?
    ensures r.Success? ==> (r.value.report.sections ==
      [SectionOf(OverviewTask, TaskAnalysis(o, env, ExtractSections(m).value, OverviewTask)),
       SectionOf(TeamfightTask, TaskAnalysis(o, env, ExtractSections(m).value, TeamfightTask)),
       SectionOf(PlayerTask, TaskAnalysis(o, env, ExtractSections(m).value, PlayerTask))])
  {
    match Metadata(m)
    case JObj(meta) =>
      var results := Dispatch(o, env, ExtractSections(m).value);
      (match Summarize(meta)
       case Failure(e) => Failure(e)
       case Success(summary) =>
         var sections := [SectionOf(OverviewTask, results[0]), SectionOf(TeamfightTask, results[1]), SectionOf(PlayerTask, results[2])];
         Success(Analysis(Orchestrator(o.configs, InitializeAgents(o.agents, o.configs)),
                          Report(Lookup(meta, "match_id", JNull), |results|, sections, summary))))
    case _ => Failure(MetadataNotADict)
  }

  // ---------------------------------------------------------------------------
  // Properties of the report
  // ---------------------------------------------------------------------------

  /** The report's `metadata` block and match id are read from the record's
      `metadata`, and it counts one agent per section. */
  lemma ReportReadsMetadata(o: Orchestrator, env: Env, m: map<string, Json>)
    requires Configured(o) && AnalyzeMatch(o, env, m).Success?
    ensures var report := AnalyzeMatch(o, env, m).value.report;
      && Summarize(MetadataFields(m)) == Success(report.summary)
      && CopiedOrDefault(report.matchId, MetadataFields(m), "match_id", JNull)
      && report.agentsUsed == |report.sections| == 3
  {
  }

  /** Whether the analysis succeeds, its `metadata` block and its match id do not
      depend on what the agents produce. */
  lemma SummaryIgnoresAgents(o: Orchestrator, env: Env, env': Env, m: map<string, Json>)
    requires Configured(o)
    ensures AnalyzeMatch(o, env, m).Success? == AnalyzeMatch(o, env', m).Success?
    ensures AnalyzeMatch(o, env, m).Success? ==>
      && AnalyzeMatch(o, env, m).value.report.summary == AnalyzeMatch(o, env', m).value.report.summary
      && AnalyzeMatch(o, env, m).value.report.matchId == AnalyzeMatch(o, env', m).value.report.matchId
  {
  }

  /** Section `s` is task `t`'s: its key, its title, the configured agent's name, and a
      status text that is "success" or "error", "error" exactly when that agent's
      generation raised. */
  predicate ReportsTask(s: Section, o: Orchestrator, env: Env, slices: Slices, t: Task)
    requires Configured(o)
  {
    var agent := AgentFor(o, t);
    && s.key == TaskKey(t)
    && s.title == TaskTitle(t)
    && s.agent == o.configs[TaskKey(t)].name
    && (s.status == "success" || s.status == "error")
    && (s.status == "error" <==>
          env.generate(agent.brief, FullPrompt(env.promptText(t), env.dumps(SliceFor(slices, t)))).Raised?)
  }

  /** Each section's status depends only on its own agent: it is an error exactly when
      that agent's generation raised, whatever the other agents did; the sections come
      in the order overview, teamfights, players. */
  lemma FailureIsIsolated(o: Orchestrator, env: Env, m: map<string, Json>)
    requires Configured(o) && AnalyzeMatch(o, env, m).Success?
    ensures var ss := AnalyzeMatch(o, env, m).value.report.sections;
      var slices := ExtractSections(m).value;
      && ReportsTask(ss[0], o, env, slices, OverviewTask)
      && ReportsTask(ss[1], o, env, slices, TeamfightTask)
      && ReportsTask(ss[2], o, env, slices, PlayerTask)
  {
  }

  /** The default configuration builds the three named agents. */
  lemma DefaultAgents()
    ensures Configured(NewOrchestrator())
    ensures AgentFor(NewOrchestrator(), OverviewTask) == SubAgent("Match Overview Agent", OverviewBrief)
    ensures AgentFor(NewOrchestrator(), TeamfightTask) == SubAgent("Teamfight Analysis Agent", TeamfightBrief)
    ensures AgentFor(NewOrchestrator(), PlayerTask) == SubAgent("Player Performance Agent", PlayerBrief)
  {
  }

  // ---------------------------------------------------------------------------
  // A worked scenario: one agent fails
  // ---------------------------------------------------------------------------

  /** A record with a 30-minute Radiant win and nothing else. */
  function ScenarioMetadata(): map<string, Json> {
    map["duration" := JInt(1800), "radiant_win" := JBool(true)]
  }

  function ScenarioRecord(): map<string, Json> {
    map["metadata" := JObj(ScenarioMetadata())]
  }

  /** A model whose call fails for the player agent and answers the others. */
  function ScenarioGenerate(b: Brief, prompt: string): Reply {
    match b
    case OverviewBrief => Generated("A")
    case TeamfightBrief => Generated("B")
    case PlayerBrief => Raised("timed out")
  }

  function ScenarioDumps(data: Json): string {
    "{}"
  }

  function ScenarioPrompt(t: Task): string {
    ""
  }

  function ScenarioEnv(): Env {
    Env(ScenarioDumps, ScenarioGenerate, ScenarioPrompt)
  }

  /** The scenario's `metadata` block: Radiant won, in 30:00, no scores. */
  lemma ScenarioSummary()
    ensures MetadataFields(ScenarioRecord()) == ScenarioMetadata()
    ensures Summarize(ScenarioMetadata()) == Success(Summary("Radiant", "30:00", JNull, JNull))
  {
    var meta := ScenarioMetadata();
    assert "radiant_score" !in meta && "dire_score" !in meta;
    assert Lookup(meta, "duration", JInt(0)) == JInt(1800);
    assert Truthy(Lookup(meta, "radiant_win", JNull));
    FormatHalfHour();
    assert FormatDuration(JInt(1800)) == Success("30:00");
  }

  /** The default agents' results in the scenario. */
  lemma ScenarioAnalyses(slices: Slices)
    ensures TaskAnalysis(NewOrchestrator(), ScenarioEnv(), slices, OverviewTask)
      == AgentResult("Match Overview Agent", "A", Succeeded)
    ensures TaskAnalysis(NewOrchestrator(), ScenarioEnv(), slices, TeamfightTask)
      == AgentResult("Teamfight Analysis Agent", "B", Succeeded)
    ensures TaskAnalysis(NewOrchestrator(), ScenarioEnv(), slices, PlayerTask)
      == AgentResult("Player Performance Agent", "Analysis failed: timed out", Failed)
  {
    DefaultAgents();
  }

  /** The default agents analyse the scenario record while the player agent's call
      fails: the analysis succeeds with three sections, and only the player section
      is an error, carrying the failure's message. */
  lemma OneFailingAgentScenario()
    ensures AnalyzeMatch(NewOrchestrator(), ScenarioEnv(), ScenarioRecord()).Success?
    ensures AnalyzeMatch(NewOrchestrator(), ScenarioEnv(), ScenarioRecord()).value.report.sections ==
      [Section("overview", "Match Overview", "Match Overview Agent", "A", "success"),
       Section("teamfights", "Teamfight Analysis", "Teamfight Analysis Agent", "B", "success"),
       Section("players", "Player Performance", "Player Performance Agent", "Analysis failed: timed out", "error")]
  {
    var m := ScenarioRecord();
    assert MetadataFields(m) == ScenarioMetadata();
    ScenarioAnalyses(ExtractSections(m).value);
  }

  /** The scenario report's metadata block reads "Radiant" and "30:00", with no match
      id and no scores. */
  lemma OneFailingAgentScenarioMetadata()
    ensures AnalyzeMatch(NewOrchestrator(), ScenarioEnv(), ScenarioRecord()).Success?
    ensures var report := AnalyzeMatch(NewOrchestrator(), ScenarioEnv(), ScenarioRecord()).value.report;
      && report.summary == Summary("Radiant", "30:00", JNull, JNull)
      && report.matchId == JNull
      && report.agentsUsed == 3
  {
    ScenarioSummary();
    ReportReadsMetadata(NewOrchestrator(), ScenarioEnv(), ScenarioRecord());
    assert "match_id" !in ScenarioMetadata();
  }
}

/**
 * The agent interface shared by every provider: execution results, routing
 * plans, conversation turns and their dictionary form, the per-agent
 * conversation Context with its export/import hand-off, and the agent object
 * itself with its cost estimate.
 */
module AgentBase {
  import opened Wrappers
  import opened Values
  import opened Clock
  import opened Text

  /** The outcome of one agent execution. */
  datatype AgentResult = AgentResult(
    agentName: string,
    task: string,
    response: string,
    timeTaken: real,
    tokensUsed: int,
    cost: real,
    qualityScore: Option<real>,
    metadata: Dict)

  /** AgentResult(...) followed by __post_init__: metadata left as None becomes {}. */
  function MakeAgentResult(agentName: string, task: string, response: string, timeTaken: real,
                           tokensUsed: int, cost: real, qualityScore: Option<real>,
                           metadata: Option<Dict>): (r: AgentResult)
    ensures metadata.None? ==> r.metadata == map[]
    ensures metadata.Some? ==> r.metadata == metadata.value
    ensures r.agentName == agentName && r.task == task && r.response == response
    ensures r.tokensUsed == tokensUsed && r.cost == cost && r.timeTaken == timeTaken
    ensures r.qualityScore == qualityScore
  {
    AgentResult(agentName, task, response, timeTaken, tokensUsed, cost, qualityScore,
                metadata.GetOr(map[]))
  }

  /** A primary agent's recommendation for how to run a task. */
  datatype RoutingPlan = RoutingPlan(
    task: string,
    intent: string,
    complexity: real,
    requiresMultiple: bool,
    recommendedAgents: seq<string>,
    parallelExecution: bool,
    context: Dict,
    estimatedTokens: int)

  /** One conversation turn; the session store uses the same record. */
  datatype Turn = Turn(role: string, content: string, agent: string,
                       timestamp: DateTime, tokens: int, cost: real)

  predicate TurnValid(t: Turn) { Valid(t.timestamp) }

  predicate TurnsValid(ts: seq<Turn>) { forall i | 0 <= i < |ts| :: TurnValid(ts[i]) }

  const TurnKeys: set<string> := {"role", "content", "agent", "timestamp", "tokens", "cost"}

  /** Turn.to_dict: the six fields, the timestamp as its ISO string. */
  function TurnToDict(t: Turn): (d: Dict)
    requires TurnValid(t)
    ensures d.Keys == TurnKeys
  {
    map["role" := VStr(t.role), "content" := VStr(t.content), "agent" := VStr(t.agent),
        "timestamp" := VStr(IsoFormat(t.timestamp)), "tokens" := VInt(t.tokens),
        "cost" := VReal(t.cost)]
  }

  /** The timestamp entry parsed by datetime.fromisoformat, with the errors Python raises. */
  function TimestampOf(d: Dict): (r: Result<DateTime>)
    ensures r.Ok? ==> "timestamp" in d && d["timestamp"].VStr? && FromIsoFormat(d["timestamp"].s) == Some(r.value)
    ensures r.Ok? ==> Valid(r.value)
  {
    if "timestamp" !in d then Err(Error(KeyError, "timestamp"))
    else if !d["timestamp"].VStr? then Err(Error(TypeError, "fromisoformat: argument must be str"))
    else
      match FromIsoFormat(d["timestamp"].s)
      case None => Err(Error(ValueError, "Invalid isoformat string"))
      case Some(ts) => Ok(ts)
  }

  /** Turn(**d) once the timestamp is parsed: exactly the six keys, each of its field's type. */
  function TurnOfFields(d: Dict, ts: DateTime): (r: Result<Turn>)
    ensures r.Ok? ==> d.Keys == TurnKeys && r.value.timestamp == ts
    ensures r.Ok? ==> (d["role"] == VStr(r.value.role) && d["content"] == VStr(r.value.content)
      && d["agent"] == VStr(r.value.agent) && d["tokens"] == VInt(r.value.tokens))
    ensures r.Ok? ==> AsReal(d["cost"]) == Some(r.value.cost)
  {
    if d.Keys != TurnKeys then Err(Error(TypeError, "unexpected or missing keyword argument"))
    else if !(d["role"].VStr? && d["content"].VStr? && d["agent"].VStr? && d["tokens"].VInt?)
            || AsReal(d["cost"]).None? then
      Err(Error(TypeError, "field of the wrong type"))
    else
      Ok(Turn(d["role"].s, d["content"].s, d["agent"].s, ts, d["tokens"].i, AsReal(d["cost"]).value))
  }

  /**
   * Turn.from_dict: parse the timestamp (KeyError when absent, TypeError when
   * not a string, ValueError when malformed), then build the Turn from exactly
   * the six keyword arguments (TypeError for a missing or unexpected key).
   */
  function TurnFromDict(v: Value): (r: Result<Turn>)
    ensures r.Ok? ==> v.VDict? && v.entries.Keys == TurnKeys && TurnValid(r.value)
    ensures r.Ok? ==> (v.entries["role"] == VStr(r.value.role) && v.entries["content"] == VStr(r.value.content)
      && v.entries["agent"] == VStr(r.value.agent) && v.entries["tokens"] == VInt(r.value.tokens))
    ensures r.Ok? ==> (v.entries["timestamp"].VStr? && FromIsoFormat(v.entries["timestamp"].s) == Some(r.value.timestamp)
      && AsReal(v.entries["cost"]) == Some(r.value.cost))
  {
    if !v.VDict? then Err(Error(TypeError, "object does not support item assignment"))
    else
      match TimestampOf(v.entries)
      case Err(e) => Err(e)
      case Ok(ts) => TurnOfFields(v.entries, ts)
  }

  /** Turn.from_dict(t.to_dict()) == t */
  lemma TurnRoundTrip(t: Turn)
    requires TurnValid(t)
    ensures TurnFromDict(VDict(TurnToDict(t))) == Ok(t)
  {
    var d := TurnToDict(t);
    IsoRoundTrip(t.timestamp);
    assert TimestampOf(d) == Ok(t.timestamp);
    assert TurnOfFields(d, t.timestamp) == Ok(t);
  }

  function TurnsToDicts(ts: seq<Turn>): (vs: seq<Value>)
    requires TurnsValid(ts)
    ensures |vs| == |ts|
    ensures forall i | 0 <= i < |ts| :: vs[i] == VDict(TurnToDict(ts[i]))
  {
    if ts == [] then [] else [VDict(TurnToDict(ts[0]))] + TurnsToDicts(ts[1..])
  }

  /** [Turn.from_dict(t) for t in items]: the first failing item's error, or every turn in order. */
  function TurnsFromDicts(items: seq<Value>): (r: Result<seq<Turn>>)
    ensures r.Ok? ==> |r.value| == |items| && TurnsValid(r.value)
    ensures r.Ok? ==> forall i | 0 <= i < |items| :: TurnFromDict(items[i]) == Ok(r.value[i])
    ensures r.Err? ==> exists i | 0 <= i < |items| :: TurnFromDict(items[i]).Err?
  {
    if items == [] then Ok([])
    else
      match TurnFromDict(items[0])
      case Err(e) => Err(e)
      case Ok(t) =>
        match TurnsFromDicts(items[1..])
        case Err(e) =>
          var i :| 0 <= i < |items[1..]| && TurnFromDict(items[1..][i]).Err?;
          assert TurnFromDict(items[i + 1]).Err?;
          Err(e)
        case Ok(ts) =>
          ConsParsed(items, TurnFromDict, t, ts);
          assert TurnsValid([t] + ts) by {
            assert forall i | 1 <= i < |[t] + ts| :: ([t] + ts)[i] == ts[i - 1];
          }
          Ok([t] + ts)
  }

  /** The first item's parse in front of the rest's parses: every item parses to its place. */
  lemma ConsParsed(items: seq<Value>, parse: Value -> Result<Turn>, t: Turn, ts: seq<Turn>)
    requires items != [] && parse(items[0]) == Ok(t) && |ts| == |items| - 1
    requires forall i | 0 <= i < |ts| :: parse(items[1..][i]) == Ok(ts[i])
    ensures forall i | 0 <= i < |items| :: parse(items[i]) == Ok(([t] + ts)[i])
  {
    forall i | 0 <= i < |items|
      ensures parse(items[i]) == Ok(([t] + ts)[i])
    {
      if i > 0 {
        assert items[i] == items[1..][i - 1];
      }
    }
  }

  lemma {:induction false} TurnsRoundTrip(ts: seq<Turn>)
    requires TurnsValid(ts)
    ensures TurnsFromDicts(TurnsToDicts(ts)) == Ok(ts)
  {
    if ts != [] {
      var items := TurnsToDicts(ts);
      TurnRoundTrip(ts[0]);
      assert TurnFromDict(items[0]) == Ok(ts[0]);
      TurnsRoundTrip(ts[1..]);
      assert items[1..] == TurnsToDicts(ts[1..]);
      assert [ts[0]] + ts[1..] == ts;
    }
  }

  /**
   * Iterating a value as the 'conversation' entry: a list is its items, an
   * empty string or dict has nothing to iterate; a non-empty string or dict
   * yields strings, which Turn.from_dict rejects, and anything else is not
   * iterable.
   */
  function TurnsFromValue(v: Value): (r: Result<seq<Turn>>)
    ensures r.Ok? ==> TurnsValid(r.value)
  {
    match v
    case VList(items) => TurnsFromDicts(items)
    case VStr(s) => if s == [] then Ok([]) else Err(Error(TypeError, "'str' object does not support item assignment"))
    case VDict(m) => if m == map[] then Ok([]) else Err(Error(TypeError, "'str' object does not support item assignment"))
    case _ => Err(Error(TypeError, "object is not iterable"))
  }

  /** The four fields of a Context. */
  datatype ContextState = ContextState(conversation: seq<Turn>, memory: Value, task: Value, prefs: Value)

  const EmptyContext := ContextState([], EmptyDict, EmptyDict, EmptyDict)

  const ExportKeys: set<string> := {"conversation", "memory", "task", "prefs"}

  /** Context.export */
  function ExportState(s: ContextState): (d: Dict)
    requires TurnsValid(s.conversation)
    ensures d.Keys == ExportKeys
    ensures d["memory"] == s.memory && d["task"] == s.task && d["prefs"] == s.prefs
  {
    map["conversation" := VList(TurnsToDicts(s.conversation)), "memory" := s.memory,
        "task" := s.task, "prefs" := s.prefs]
  }

  /** The state Context.import_from leaves behind: every field replaced, a missing key meaning empty. */
  function DecodeContext(data: Dict): (r: Result<ContextState>)
    ensures r.Ok? ==> TurnsValid(r.value.conversation)
    ensures r.Ok? ==> (r.value.memory == Get(data, "memory", EmptyDict)
      && r.value.task == Get(data, "task", EmptyDict)
      && r.value.prefs == Get(data, "prefs", EmptyDict))
    ensures r.Err? <==> TurnsFromValue(Get(data, "conversation", VList([]))).Err?
  {
    match TurnsFromValue(Get(data, "conversation", VList([])))
    case Err(e) => Err(e)
    case Ok(ts) => Ok(ContextState(ts, Get(data, "memory", EmptyDict), Get(data, "task", EmptyDict),
                                   Get(data, "prefs", EmptyDict)))
  }

  /** import_from(export()) reproduces the context. */
  lemma ExportImportRoundTrip(s: ContextState)
    requires TurnsValid(s.conversation)
    ensures DecodeContext(ExportState(s)) == Ok(s)
  {
    var d := ExportState(s);
    ExportStateGets(s);
    ConversationRoundTrip(s.conversation);
    DecodeOk(d, s.conversation);
  }

  lemma ExportStateGets(s: ContextState)
    requires TurnsValid(s.conversation)
    ensures Get(ExportState(s), "conversation", VList([])) == VList(TurnsToDicts(s.conversation))
    ensures Get(ExportState(s), "memory", EmptyDict) == s.memory
    ensures Get(ExportState(s), "task", EmptyDict) == s.task
    ensures Get(ExportState(s), "prefs", EmptyDict) == s.prefs
  {
  }

  lemma ConversationRoundTrip(ts: seq<Turn>)
    requires TurnsValid(ts)
    ensures TurnsFromValue(VList(TurnsToDicts(ts))) == Ok(ts)
  {
    TurnsRoundTrip(ts);
  }

  lemma DecodeOk(data: Dict, ts: seq<Turn>)
    requires TurnsFromValue(Get(data, "conversation", VList([]))) == Ok(ts)
    ensures DecodeContext(data) == Ok(ContextState(ts, Get(data, "memory", EmptyDict), Get(data, "task", EmptyDict), Get(data, "prefs", EmptyDict)))
  {
  }

  /** Importing a dictionary without any of the four keys resets the context to empty. */
  lemma ImportOfEmptyIsFresh()
    ensures DecodeContext(map[]) == Ok(EmptyContext)
  {
  }

  /** Conversation context of one agent. */
  class Context {
    var conversation: seq<Turn>
    var sessionMemory: Value
    var taskContext: Value
    var userPrefs: Value

    ghost predicate Valid()
      reads this
    {
      TurnsValid(conversation)
    }

    function State(): ContextState
      reads this
    {
      ContextState(conversation, sessionMemory, taskContext, userPrefs)
    }

    /** A fresh Context: no turns and empty memory, task and preferences. */
    constructor()
      ensures Valid() && State() == EmptyContext
    {
      conversation := [];
      sessionMemory := EmptyDict;
      taskContext := EmptyDict;
      userPrefs := EmptyDict;
    }

    method Export() returns (d: Dict)
      requires Valid()
      ensures d == ExportState(State())
    {
      d := map["conversation" := VList(TurnsToDicts(conversation)), "memory" := sessionMemory,
               "task" := taskContext, "prefs" := userPrefs];
    }

    /**
     * import_from: all four fields are replaced together; when a turn fails to
     * parse the exception leaves the context as it was.
     */
    method ImportFrom(data: Dict) returns (r: Result<()>)
      modifies this
      ensures r.Ok? <==> DecodeContext(data).Ok?
      ensures r.Ok? ==> State() == DecodeContext(data).value && Valid()
      ensures r.Err? ==> State() == old(State())
    {
      var turns := TurnsFromValue(Get(data, "conversation", VList([])));
      if turns.Err? {
        return Err(turns.error);
      }
      conversation := turns.value;
      sessionMemory := Get(data, "memory", EmptyDict);
      taskContext := Get(data, "task", EmptyDict);
      userPrefs := Get(data, "prefs", EmptyDict);
      r := Ok(());
    }
  }

  /** config['name'], when it is a string. */
  function ConfigName(config: Dict): Option<string> {
    GetStr(config, "name")
  }

  /**
   * estimate_cost: tokens * cost_per_1k_tokens / 1000, with a missing rate
   * meaning 0.0; a rate that is not a number raises TypeError.
   */
  function EstimateCost(config: Dict, tokens: int): (r: Result<real>)
    ensures "cost_per_1k_tokens" !in config ==> r == Ok(0.0)
    ensures r.Ok? <==> AsReal(Get(config, "cost_per_1k_tokens", VReal(0.0))).Some?
    ensures r.Ok? ==> r.value * 1000.0 == tokens as real * AsReal(Get(config, "cost_per_1k_tokens", VReal(0.0))).value
  {
    match AsReal(Get(config, "cost_per_1k_tokens", VReal(0.0)))
    case Some(rate) => Ok(tokens as real * rate / 1000.0)
    case None => Err(Error(TypeError, "unsupported operand type(s)"))
  }

  /** The estimate is additive in the token count. */
  lemma EstimateCostAdditive(config: Dict, a: int, b: int)
    requires EstimateCost(config, a).Ok?
    ensures EstimateCost(config, a + b).Ok? && EstimateCost(config, b).Ok?
    ensures EstimateCost(config, a + b).value == EstimateCost(config, a).value + EstimateCost(config, b).value
  {
  }

  /**
   * config.get('api_key') or os.getenv(<provider variable>): the configured key
   * when truthy, else the environment's value when non-empty; ValueError when
   * neither is found. `env` is the environment variable's value, None when unset.
   */
  function ResolveApiKey(config: Dict, env: Option<string>): (r: Result<Value>)
    ensures r.Ok? <==> Truthy(Get(config, "api_key", VNone)) || (env.Some? && env.value != "")
    ensures r.Ok? ==> Truthy(r.value)
    ensures Truthy(Get(config, "api_key", VNone)) ==> r == Ok(config["api_key"])
    ensures r.Err? ==> r.error.kind == ValueError
  {
    var configured := Get(config, "api_key", VNone);
    if Truthy(configured) then Ok(configured)
    else if env.Some? && env.value != "" then Ok(VStr(env.value))
    else Err(Error(ValueError, "API key not found"))
  }

  predicate AllDicts(vs: seq<Value>) { forall i | 0 <= i < |vs| :: vs[i].VDict? }

  /**
   * context.get('conversation', [])[-10:]: the last ten entries of the
   * conversation list. An empty string slices to nothing; a non-empty string
   * yields characters, whose .get fails; other values cannot be sliced.
   */
  function ConversationTail(context: Dict): (r: Result<seq<Value>>)
    ensures r.Ok? ==> |r.value| <= 10
    ensures Get(context, "conversation", VList([])).VList? ==>
      r == Ok(LastN(Get(context, "conversation", VList([])).items, 10))
    ensures "conversation" !in context ==> r == Ok([])
  {
    match Get(context, "conversation", VList([]))
    case VList(items) => Ok(LastN(items, 10))
    case VStr(s) => if s == [] then Ok([]) else Err(Error(AttributeError, "'str' object has no attribute 'get'"))
    case _ => Err(Error(TypeError, "object is not subscriptable"))
  }
}

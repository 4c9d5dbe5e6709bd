/**
 * The agent objects: each provider agent holds its configuration, its name
 * and its own Context; the Google-backed agent also holds an open chat or
 * none. Construction checks the name and the API key.
 */
module Agents {
  import opened Wrappers
  import opened Values
  import opened AgentBase
  import GeminiApi

  datatype AgentKind = ClaudeApi | Gemini | ClaudeCode

  /** A provider agent: its name and configuration, its own Context, and whether a chat is open. */
  class Agent {
    const kind: AgentKind
    const name: string
    const config: Dict
    const context: Context
    /** GeminiAgent.chat is not None. */
    var chatOpen: bool

    ghost predicate Valid()
      reads this, context
    {
      context.Valid()
    }

    /** BaseAgent.__init__: the name comes from config['name'] and the context starts fresh. */
    constructor(kind: AgentKind, config: Dict)
      requires ConfigName(config).Some?
      ensures this.kind == kind && this.config == config && name == ConfigName(config).value
      ensures fresh(context) && Valid() && context.State() == EmptyContext && !chatOpen
    {
      this.kind := kind;
      this.config := config;
      name := ConfigName(config).value;
      context := new Context();
      chatOpen := false;
    }

    method ExportContext() returns (d: Dict)
      requires Valid()
      ensures d == ExportState(context.State())
    {
      d := context.Export();
    }

    /**
     * import_context: the context is imported; GeminiAgent additionally drops
     * its chat session, but only once the import has succeeded.
     */
    method ImportContext(data: Dict) returns (r: Result<()>)
      modifies this, context
      ensures r.Ok? <==> DecodeContext(data).Ok?
      ensures r.Ok? ==> context.State() == DecodeContext(data).value
      ensures old(Valid()) ==> Valid()
      ensures r.Err? ==> context.State() == old(context.State()) && chatOpen == old(chatOpen)
      ensures r.Ok? ==> chatOpen == (old(chatOpen) && kind != Gemini)
    {
      r := context.ImportFrom(data);
      if r.Ok? && kind == Gemini {
        chatOpen := false;
      }
    }

    /**
     * The hand-off of switch_orchestrator: this agent imports what `source`
     * exports, which always succeeds and leaves this agent's context in the
     * state of the source's.
     */
    method ImportFromAgent(source: Agent)
      requires Valid() && source.Valid()
      modifies this, context
      ensures Valid() && context.State() == old(source.context.State())
      ensures chatOpen == (old(chatOpen) && kind != Gemini)
    {
      var exported := source.ExportContext();
      ExportImportRoundTrip(source.context.State());
      var imported := ImportContext(exported);
      assert imported.Ok?;
    }

    /**
     * GeminiAgent.execute before sending: with no open chat the history is
     * built from the context and a chat is started with it; an open chat is
     * reused and no history is built (None).
     */
    method PrepareChat(context: Dict) returns (r: Result<Option<seq<GeminiApi.HistoryEntry>>>)
      requires kind == Gemini
      modifies this
      ensures old(chatOpen) ==> r == Ok(None) && chatOpen
      ensures !old(chatOpen) ==> (r.Ok? <==> ConversationTail(context).Ok? && AllDicts(ConversationTail(context).value))
      ensures !old(chatOpen) && r.Ok? ==> (r.value.Some? && chatOpen
        && var w := ConversationTail(context).value;
           |r.value.value| == |w| && forall i | 0 <= i < |w| :: r.value.value[i] == GeminiApi.HistoryEntryOf(w[i].entries))
      ensures r.Err? ==> !chatOpen
    {
      if chatOpen {
        return Ok(None);
      }
      var history := GeminiApi.BuildHistory(context);
      if history.Err? {
        return Err(history.error);
      }
      chatOpen := true;
      r := Ok(Some(history.value));
    }
  }


  /**
   * Constructing an agent of the given kind: config['name'] must be present
   * (KeyError otherwise); the two API-backed kinds then need an API key from
   * the configuration or the environment (ValueError otherwise). `env` is the
   * provider's environment variable.
   */
  method CreateAgent(kind: AgentKind, config: Dict, env: Option<string>) returns (r: Result<Agent>)
    ensures r.Ok? <==> ConfigName(config).Some? && (kind == ClaudeCode || ResolveApiKey(config, env).Ok?)
    ensures "name" !in config ==> r.Err? && r.error.kind == KeyError
    ensures "name" in config && ConfigName(config).Some? && r.Err? ==> r.error.kind == ValueError
    ensures r.Ok? ==> fresh(r.value) && fresh(r.value.context) && r.value.Valid()
    ensures r.Ok? ==> r.value.kind == kind && r.value.name == ConfigName(config).value && r.value.config == config
    ensures r.Ok? ==> r.value.context.State() == EmptyContext && !r.value.chatOpen
  {
    if "name" !in config {
      return Err(Error(KeyError, "name"));
    }
    if ConfigName(config).None? {
      return Err(Error(TypeError, "agent name is not a string"));
    }
    if kind != ClaudeCode && ResolveApiKey(config, env).Err? {
      return Err(ResolveApiKey(config, env).error);
    }
    var agent := new Agent(kind, config);
    r := Ok(agent);
  }
}

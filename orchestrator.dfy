/**
 * The first agent-agnostic orchestrator: a registry of agent objects with one
 * primary agent, an optional session, mode dispatch, the context window handed
 * to agents, the session update after a result and the mid-session hand-off of
 * the conversation context to another primary agent. An agent's execution is
 * an input: its outcome is a parameter.
 */
module Orchestrator {
  import opened Wrappers
  import opened Values
  import opened Clock
  import opened Text
  import opened AgentBase
  import Router
  import opened Sessions
  import opened Agents

  /** The turn recorded for an agent's result: role "assistant" and the result's agent, tokens and cost. */
  function AssistantTurn(result: AgentResult, now: DateTime): Turn {
    Turn("assistant", result.response, result.agentName, now, result.tokensUsed, result.cost)
  }

  /** A turn reduced to the three entries an agent sees. */
  function BriefTurn(t: Turn): (d: Dict)
    ensures d.Keys == {"role", "content", "agent"}
    ensures d["role"] == VStr(t.role) && d["content"] == VStr(t.content) && d["agent"] == VStr(t.agent)
  {
    map["role" := VStr(t.role), "content" := VStr(t.content), "agent" := VStr(t.agent)]
  }

  /** The conversation window: the last ten turns, oldest first, each reduced to role, content and agent. */
  function Window(conv: seq<Turn>): (items: seq<Value>)
    ensures |items| == (if |conv| <= 10 then |conv| else 10)
    ensures forall i | 0 <= i < |items| :: items[i] == VDict(BriefTurn(conv[|conv| - |items| + i]))
  {
    var w := LastN(conv, 10);
    seq(|w|, i requires 0 <= i < |w| => VDict(BriefTurn(w[i])))
  }

  /**
   * _build_context: without a session only an empty conversation; with one,
   * the conversation window, the workspace and the session's context.
   */
  function BuildContext(session: Option<SessionRecord>): (d: Dict)
    ensures "conversation" in d && d["conversation"].VList?
    ensures session.None? ==> d == map["conversation" := VList([])]
    ensures session.Some? ==> (d.Keys == {"conversation", "workspace", "session_context"}
      && d["conversation"] == VList(Window(session.value.conversation))
      && d["workspace"] == VStr(session.value.workspace)
      && d["session_context"] == VDict(session.value.context))
  {
    match session
    case None => map["conversation" := VList([])]
    case Some(s) =>
      map["conversation" := VList(Window(s.conversation)), "workspace" := VStr(s.workspace),
          "session_context" := VDict(s.context)]
  }

  /**
   * The context the orchestrator builds passes through the agents' own
   * ten-turn windows unchanged: every entry is a dictionary and none is cut.
   */
  lemma ContextFitsAgentWindow(session: Option<SessionRecord>)
    ensures var items := BuildContext(session)["conversation"].items;
      ConversationTail(BuildContext(session)) == Ok(items) && AllDicts(items) && |items| <= 10
  {
    var d := BuildContext(session);
    var items := d["conversation"].items;
    assert Get(d, "conversation", VList([])) == VList(items);
    assert LastN(items, 10) == items[0..];
  }

  /** The session's record, None without a session. */
  function View(session: Session?): Option<SessionRecord>
    reads session
  {
    if session == null then None else Some(session.Record())
  }

  /**
   * The session update after a result (inline in _execute_single, and
   * _update_session in the second orchestrator): one assistant turn appended
   * and the result's tokens and cost added to the totals; nothing without a
   * session. The session is not saved here.
   */
  method RecordResult(session: Session?, result: AgentResult, now: DateTime)
    requires session != null ==> session.Valid()
    requires Clock.Valid(now)
    modifies session
    ensures session != null ==> (session.Record() == WithTurn(old(session.Record()), AssistantTurn(result, now))
      && session.Valid())
    ensures session != null && old(TotalsMatch(session.Record())) ==> TotalsMatch(session.Record())
  {
    if session != null {
      var updated := WithTurn(session.Record(), AssistantTurn(result, now));
      if TotalsMatch(session.Record()) {
        WithTurnKeepsTotals(session.Record(), AssistantTurn(result, now));
      }
      session.Assign(updated);
    }
  }

  /** Switching away and back re-imports the primary agent's own export: its context is restored. */
  lemma SwitchBackRestores(s: ContextState)
    requires TurnsValid(s.conversation)
    ensures DecodeContext(ExportState(s)).Ok?
    ensures DecodeContext(ExportState(DecodeContext(ExportState(s)).value)) == Ok(s)
  {
    ExportImportRoundTrip(s);
    ExportImportRoundTrip(s);
  }

  const ComparePlaceholder: string := "Compare mode will be available in Phase 2"
  const ParallelPlaceholder: string := "Parallel mode will be available in Phase 2"

  /** AgnosticOrchestrator: agents by name (`names` is the registry's key order), the primary agent and the session. */
  class Orchestrator {
    var primaryName: string
    var primaryAgent: Agent
    const agents: map<string, Agent>
    const names: seq<string>
    const session: Session?
    /** The agents' contexts, the objects besides the agents that switching changes. */
    ghost const contexts: set<Context>

    /** Every registered agent's context is valid. */
    ghost predicate AgentsValid()
      reads agents.Values, contexts
    {
      forall a | a in agents.Values :: a.context in contexts && a.Valid()
    }

    ghost predicate Valid()
      reads this, agents.Values, contexts, session
    {
      && primaryName in agents && primaryAgent == agents[primaryName]
      && (forall n :: n in names <==> n in agents)
      && AgentsValid()
      && (session != null ==> session.Valid())
    }

    constructor(primary: string, agents: map<string, Agent>, names: seq<string>, session: Session?)
      requires primary in agents && (forall n :: n in names <==> n in agents)
      requires forall a | a in agents.Values :: a.Valid()
      requires session != null ==> session.Valid()
      ensures Valid()
      ensures primaryName == primary && this.agents == agents && this.names == names && this.session == session
    {
      primaryName := primary;
      this.agents := agents;
      this.names := names;
      this.session := session;
      primaryAgent := agents[primary];
      contexts := set a | a in agents.Values :: a.context;
    }

    /** The agent _execute_single selects: select_agent with the primary agent preferred. */
    function Selected(userInput: string): Result<string>
      reads this
    {
      Router.SelectAgent(userInput, names, Some(primaryName))
    }

    /**
     * _execute_single: the agent chosen by select_agent with the primary agent
     * preferred runs the task (`outcome` is what its execute returned or
     * raised); on success the session gets one assistant turn and the totals grow.
     */
    method ExecuteSingle(userInput: string, outcome: Result<AgentResult>, now: DateTime)
      returns (r: Result<string>, selected: string)
      requires Valid() && Clock.Valid(now)
      modifies session
      ensures Valid()
      ensures Selected(userInput) == Ok(selected)
      ensures primaryName != "" ==> selected == primaryName
      ensures outcome.Err? ==> r == Err(outcome.error) && (session != null ==> session.Record() == old(session.Record()))
      ensures outcome.Ok? ==> r == Ok(outcome.value.response)
      ensures outcome.Ok? && session != null ==>
        session.Record() == WithTurn(old(session.Record()), AssistantTurn(outcome.value, now))
      ensures session != null && old(TotalsMatch(session.Record())) ==> TotalsMatch(session.Record())
    {
      var choice := Router.SelectAgent(userInput, names, Some(primaryName));
      selected := choice.value;
      if outcome.Err? {
        return Err(outcome.error), selected;
      }
      RecordResult(session, outcome.value, now);
      r := Ok(outcome.value.response);
    }

    /**
     * execute: "single" runs one agent, "compare" and "parallel" answer with a
     * fixed placeholder, any other mode raises ValueError.
     */
    method Execute(userInput: string, mode: string, outcome: Result<AgentResult>, now: DateTime) returns (r: Result<string>)
      requires Valid() && Clock.Valid(now)
      modifies session
      ensures Valid()
      ensures mode == "compare" ==> r == Ok(ComparePlaceholder)
      ensures mode == "parallel" ==> r == Ok(ParallelPlaceholder)
      ensures mode != "single" && mode != "compare" && mode != "parallel" ==> r.Err? && r.error.kind == ValueError
      ensures mode != "single" ==> (session != null ==> session.Record() == old(session.Record()))
      ensures mode == "single" ==> r == (if outcome.Ok? then Ok(outcome.value.response) else Err(outcome.error))
      ensures mode == "single" && outcome.Ok? && session != null ==>
        session.Record() == WithTurn(old(session.Record()), AssistantTurn(outcome.value, now))
      ensures mode == "single" && outcome.Err? && session != null ==> session.Record() == old(session.Record())
    {
      if mode == "single" {
        var selected;
        r, selected := ExecuteSingle(userInput, outcome, now);
      } else if mode == "compare" {
        r := Ok(ComparePlaceholder);
      } else if mode == "parallel" {
        r := Ok(ParallelPlaceholder);
      } else {
        r := Err(Error(ValueError, "Unknown execution mode: " + mode));
      }
    }

    /**
     * switch_orchestrator: an unknown name raises ValueError before anything
     * changes; otherwise the new primary agent imports the old one's export and
     * the session records the new primary agent.
     */
    method SwitchOrchestrator(newName: string) returns (r: Result<()>)
      requires Valid()
      modifies this, agents.Values, contexts, session
      ensures Valid()
      ensures r.Ok? <==> newName in agents
      ensures newName !in agents ==> (r.error.kind == ValueError && primaryName == old(primaryName)
        && primaryAgent == old(primaryAgent)
        && (forall a | a in agents.Values :: a.context.State() == old(a.context.State()))
        && (session != null ==> session.Record() == old(session.Record())))
      ensures newName in agents ==> (primaryName == newName && primaryAgent == agents[newName]
        && primaryAgent.context.State() == old(primaryAgent.context.State())
        && (forall a | a in agents.Values && a.context != primaryAgent.context ::
              a.context.State() == old(a.context.State()))
        && (session != null ==> session.Record() == old(session.Record()).(primaryAgent := newName)))
    {
      if newName !in agents {
        return Err(Error(ValueError, "Agent '" + newName + "' not found"));
      }
      agents[newName].ImportFromAgent(primaryAgent);
      primaryName := newName;
      primaryAgent := agents[newName];
      if session != null {
        session.Assign(session.Record().(primaryAgent := newName));
      }
      r := Ok(());
    }

    /** Switching to another agent and back leaves the primary agent, and its context, as they were. */
    method SwitchAwayAndBack(other: string) returns (r: Result<()>)
      requires Valid() && other in agents
      modifies this, agents.Values, contexts, session
      ensures Valid() && r.Ok?
      ensures primaryName == old(primaryName) && primaryAgent == old(primaryAgent)
      ensures primaryAgent.context.State() == old(primaryAgent.context.State())
    {
      var home := primaryName;
      r := SwitchOrchestrator(other);
      r := SwitchOrchestrator(home);
    }
  }

  /** AgnosticOrchestrator(...): ValueError when the primary agent is not registered. */
  method NewOrchestrator(primary: string, agents: map<string, Agent>, names: seq<string>, session: Session?)
    returns (r: Result<Orchestrator>)
    requires forall n :: n in names <==> n in agents
    requires forall a | a in agents.Values :: a.Valid()
    requires session != null ==> session.Valid()
    ensures r.Ok? <==> primary in agents
    ensures r.Err? ==> r.error.kind == ValueError
    ensures r.Ok? ==> (fresh(r.value) && r.value.Valid() && r.value.primaryName == primary
      && r.value.agents == agents && r.value.session == session)
  {
    if primary !in agents {
      return Err(Error(ValueError, "Primary agent '" + primary + "' not found in agents"));
    }
    var o := new Orchestrator(primary, agents, names, session);
    r := Ok(o);
  }
}

/**
 * The deterministic parts of the Google-backed agent: the chat history built
 * from the context, the four-characters-per-token estimate, its own keyword
 * intent table, the single-agent routing plan and the concatenating
 * synthesis. The API calls are inputs.
 */
module GeminiApi {
  import opened Wrappers
  import opened Text
  import opened Values
  import opened AgentBase
  import Router
  import ClaudeApi

  /** One entry of the chat history: a role ("user" or "model") and its parts. */
  datatype HistoryEntry = HistoryEntry(role: string, parts: seq<Value>)

  /** A turn as a history entry: role "user" stays, every other role (or none) becomes "model". */
  function HistoryEntryOf(turn: Dict): (h: HistoryEntry)
    ensures h.role == "user" <==> Get(turn, "role", VNone) == VStr("user")
    ensures h.role == "user" || h.role == "model"
    ensures h.parts == [Get(turn, "content", VStr(""))]
  {
    HistoryEntry(if Get(turn, "role", VNone) == VStr("user") then "user" else "model",
                 [Get(turn, "content", VStr(""))])
  }

  /** _build_history: one entry per turn of the last ten, in order. */
  method BuildHistory(context: Dict) returns (r: Result<seq<HistoryEntry>>)
    ensures r.Ok? <==> ConversationTail(context).Ok? && AllDicts(ConversationTail(context).value)
    ensures r.Ok? ==> |r.value| <= 10
    ensures r.Ok? ==> var w := ConversationTail(context).value;
      && |r.value| == |w|
      && forall i | 0 <= i < |w| :: r.value[i] == HistoryEntryOf(w[i].entries)
  {
    var tail := ConversationTail(context);
    if tail.Err? {
      return Err(tail.error);
    }
    var w := tail.value;
    var history: seq<HistoryEntry> := [];
    var i := 0;
    while i < |w|
      invariant 0 <= i <= |w|
      invariant |history| == i
      invariant forall j | 0 <= j < i :: w[j].VDict? && history[j] == HistoryEntryOf(w[j].entries)
    {
      if !w[i].VDict? {
        return Err(Error(AttributeError, "object has no attribute 'get'"));
      }
      history := history + [HistoryEntryOf(w[i].entries)];
      i := i + 1;
    }
    r := Ok(history);
  }

  /** _estimate_tokens: a quarter of the characters, rounded down. */
  function EstimateTokens(input: string, output: string): (n: nat)
    ensures 4 * n <= |input| + |output| < 4 * n + 4
  {
    (|input| + |output|) / 4
  }

  /** The keyword lists of _classify_intent, tried in this order. */
  const GeminiOrder: seq<Router.Intent> := [Router.Code, Router.Research, Router.Analysis, Router.Creative]

  function GeminiKeywords(i: Router.Intent): seq<string> {
    match i
    case Code => ["code", "program", "function", "debug"]
    case Research => ["research", "find", "search", "learn"]
    case Analysis => ["analyze", "explain", "why", "how"]
    case Creative => ["create", "imagine", "brainstorm", "design"]
    case _ => []
  }

  predicate GHit(t: string, i: Router.Intent) {
    exists k | k in GeminiKeywords(i) :: Contains(t, k)
  }

  /** _classify_intent: code, research, analysis, creative in that order, else general. */
  function ClassifyIntent(task: string): (r: Router.Intent)
    ensures var t := Lower(task);
      && (r == Router.Code <==> GHit(t, Router.Code))
      && (r == Router.Research <==> !GHit(t, Router.Code) && GHit(t, Router.Research))
      && (r == Router.Analysis <==> !GHit(t, Router.Code) && !GHit(t, Router.Research) && GHit(t, Router.Analysis))
      && (r == Router.Creative <==> !GHit(t, Router.Code) && !GHit(t, Router.Research) && !GHit(t, Router.Analysis)
                                    && GHit(t, Router.Creative))
      && (r == Router.General <==> !GHit(t, Router.Code) && !GHit(t, Router.Research) && !GHit(t, Router.Analysis)
                                   && !GHit(t, Router.Creative))
  {
    var t := Lower(task);
    if GHit(t, Router.Code) then Router.Code
    else if GHit(t, Router.Research) then Router.Research
    else if GHit(t, Router.Analysis) then Router.Analysis
    else if GHit(t, Router.Creative) then Router.Creative
    else Router.General
  }

  /** Any task mentioning "how" or "why" without a code or research keyword is analysis. */
  lemma BareHowIsAnalysis(task: string)
    requires Contains(Lower(task), "how") || Contains(Lower(task), "why")
    requires !GHit(Lower(task), Router.Code) && !GHit(Lower(task), Router.Research)
    ensures ClassifyIntent(task) == Router.Analysis
  {
    assert "how" in GeminiKeywords(Router.Analysis) && "why" in GeminiKeywords(Router.Analysis);
  }

  /** The agent never labels a task terminal, whatever it mentions. */
  lemma NeverTerminal(task: string)
    ensures ClassifyIntent(task) != Router.Terminal
  {
  }

  /**
   * create_routing_plan: always this agent alone, with the agent's own intent
   * label; it differs from the Anthropic agent's fallback plan only in the intent.
   */
  function CreateRoutingPlan(task: string, name: string, context: Dict): (p: RoutingPlan)
    ensures p == ClaudeApi.FallbackPlan(task, name, context).(intent := ClassifyIntent(task).Name())
    ensures !p.requiresMultiple && p.recommendedAgents == [name] && p.estimatedTokens == 2000
  {
    RoutingPlan(task, ClassifyIntent(task).Name(), 0.5, false, [name], false, context, 2000)
  }

  /** "Response from <agent>:\n<response>" */
  function Block(r: AgentResult): (b: string)
    ensures StartsWith(b, "Response from " + r.agentName + ":\n")
  {
    "Response from " + r.agentName + ":\n" + r.response
  }

  const Separator: string := "\n\n---\n\n"

  /** synthesize: one result as it is; otherwise one block per result, in order, between separators. */
  function Synthesize(results: seq<AgentResult>): (text: string)
    ensures |results| == 1 ==> text == results[0].response
    ensures |results| != 1 ==> text == Join(seq(|results|, i requires 0 <= i < |results| => Block(results[i])), Separator)
  {
    if |results| == 1 then results[0].response
    else Join(seq(|results|, i requires 0 <= i < |results| => Block(results[i])), Separator)
  }

  /** With several results every result's block appears in the synthesis, and the first leads it. */
  lemma SynthesizeKeepsEveryBlock(results: seq<AgentResult>)
    requires |results| >= 2
    ensures forall i | 0 <= i < |results| :: Contains(Synthesize(results), Block(results[i]))
    ensures StartsWith(Synthesize(results), Block(results[0]))
  {
    var blocks := seq(|results|, i requires 0 <= i < |results| => Block(results[i]));
    JoinContainsParts(blocks, Separator);
    assert forall i | 0 <= i < |results| :: blocks[i] == Block(results[i]);
  }
}

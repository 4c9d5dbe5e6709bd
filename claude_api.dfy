/**
 * The deterministic parts of the Anthropic-backed agent: the message window
 * sent with a task, extraction of the JSON routing plan from a reply that may
 * be wrapped in a markdown code fence, the plan read from the parsed reply
 * with its fixed fallback, the single-result synthesis shortcut and the
 * agent list shown to the model. The API calls and json.loads are inputs.
 */
module ClaudeApi {
  import opened Wrappers
  import opened Text
  import opened Values
  import opened AgentBase

  /** One entry of the messages list: whatever the turn holds under 'role' and 'content'. */
  datatype Message = Message(role: Value, content: Value)

  /** A conversation turn as a message; a missing role means "user", missing content "". */
  function MessageOf(turn: Dict): (m: Message)
    ensures "role" !in turn ==> m.role == VStr("user")
    ensures "content" !in turn ==> m.content == VStr("")
    ensures "role" in turn ==> m.role == turn["role"]
    ensures "content" in turn ==> m.content == turn["content"]
  {
    Message(Get(turn, "role", VStr("user")), Get(turn, "content", VStr("")))
  }

  /**
   * _build_messages: the last ten turns of the context's conversation, in
   * order, then the task as a user message.
   */
  method BuildMessages(task: string, context: Dict) returns (r: Result<seq<Message>>)
    ensures r.Ok? <==> ConversationTail(context).Ok? && AllDicts(ConversationTail(context).value)
    ensures r.Ok? ==> 1 <= |r.value| <= 11
    ensures r.Ok? ==> var w := ConversationTail(context).value;
      && |r.value| == |w| + 1
      && r.value[|w|] == Message(VStr("user"), VStr(task))
      && forall i | 0 <= i < |w| :: r.value[i] == MessageOf(w[i].entries)
  {
    var tail := ConversationTail(context);
    if tail.Err? {
      return Err(tail.error);
    }
    var w := tail.value;
    var messages: seq<Message> := [];
    var i := 0;
    while i < |w|
      invariant 0 <= i <= |w|
      invariant |messages| == i
      invariant forall j | 0 <= j < i :: w[j].VDict? && messages[j] == MessageOf(w[j].entries)
    {
      if !w[i].VDict? {
        return Err(Error(AttributeError, "object has no attribute 'get'"));
      }
      messages := messages + [MessageOf(w[i].entries)];
      i := i + 1;
    }
    r := Ok(messages + [Message(VStr("user"), VStr(task))]);
  }

  const Fence: string := "```"
  const JsonFence: string := "```json"

  /**
   * The JSON text of a routing reply: the stripped reply; when it contains
   * "```json", the stripped text after that marker up to the next "```json"
   * and then up to the next "```"; otherwise, when it contains "```", the
   * stripped text between the first two fences.
   */
  function ExtractJson(reply: string): string {
    var t := Strip(reply);
    if Contains(t, JsonFence) then Cut(After(t, JsonFence), JsonFence)
    else if Contains(t, Fence) then Cut(After(t, Fence), Fence)
    else t
  }

  /** An unfenced reply is only stripped; the extracted text never has surrounding whitespace. */
  lemma ExtractJsonUnfenced(reply: string)
    ensures Unpadded(ExtractJson(reply))
    ensures !Contains(Strip(reply), Fence) ==> ExtractJson(reply) == Strip(reply)
  {
    var t := Strip(reply);
    if Contains(t, JsonFence) {
      assert OccursAt(JsonFence, Fence, 0);
      ContainsTrans(t, JsonFence, Fence);
    }
  }

  /**
   * A fenced reply gives a fence-free piece of the text after its first
   * "```json" marker, or after its first fence when there is no such marker.
   */
  lemma ExtractJsonFencedPiece(reply: string)
    ensures var t := Strip(reply);
      && (Contains(t, Fence) ==> !Contains(ExtractJson(reply), Fence))
      && (Contains(t, JsonFence) ==> Contains(After(t, JsonFence), ExtractJson(reply)))
      && (Contains(t, Fence) && !Contains(t, JsonFence) ==> Contains(After(t, Fence), ExtractJson(reply)))
  {
  }

  /** text.split(marker)[0].split("```")[0].strip(): a stripped, fence-free piece of the text. */
  function Cut(text: string, marker: string): (r: string)
    requires marker != []
    ensures Unpadded(r)
    ensures Contains(text, r) && !Contains(r, Fence)
  {
    var b := Before(text, marker);
    var c := Before(b, Fence);
    PrefixContained(text, b);
    PrefixContained(b, c);
    ContainsTrans(text, b, c);
    StrippedPiece(text, c);
    Strip(c)
  }

  lemma PrefixContained(s: string, r: string)
    requires StartsWith(s, r)
    ensures Contains(s, r)
  {
    assert OccursAt(s, r, 0);
  }

  /** Stripping a fence-free piece of `a` leaves a fence-free piece of `a`. */
  lemma StrippedPiece(a: string, piece: string)
    requires Contains(a, piece) && !Contains(piece, Fence)
    ensures Contains(a, Strip(piece)) && !Contains(Strip(piece), Fence)
  {
    ContainsTrans(a, piece, Strip(piece));
    if Contains(Strip(piece), Fence) {
      ContainsTrans(piece, Strip(piece), Fence);
    }
  }

  /** When p starts with a character absent from a, the first p in a + p + b is the one after a. */
  lemma FirstOccurrence(a: string, p: string, b: string)
    requires p != [] && p[0] !in a
    ensures Contains(a + p + b, p)
    ensures Before(a + p + b, p) == a && After(a + p + b, p) == b
  {
    var s := a + p + b;
    assert OccursAt(s, p, |a|);
    var r := Before(s, p);
    forall k: nat | k < |a| ensures !OccursAt(s, p, k) {
      if k + |p| <= |s| {
        assert s[k..k + |p|][0] == a[k];
        assert a[k] in a;
      }
    }
    assert |r| == |a|;
  }

  /** In body + "```" + post with no backtick in body or post, "```json" can only start right after body. */
  lemma JsonMarkerAfterBody(body: string, post: string)
    requires '`' !in body && '`' !in post
    ensures var a := body + Fence + post;
      forall k: nat | k <= |a| && k != |body| :: !OccursAt(a, JsonFence, k)
  {
    var a := body + Fence + post;
    forall k: nat | k <= |a| && k != |body| ensures !OccursAt(a, JsonFence, k) {
      if k + |JsonFence| <= |a| {
        if k < |body| {
          assert a[k..k + 7][0] == body[k];
          assert body[k] in body;
        } else {
          assert a[k..k + 7][2] == post[k + 2 - |body| - 3];
          assert post[k + 2 - |body| - 3] in post;
        }
      }
    }
  }

  /** Cutting body + "```" + post before "```json" and then before "```" leaves body. */
  lemma CutAfterJsonMarker(body: string, post: string)
    requires '`' !in body && '`' !in post
    ensures Before(Before(body + Fence + post, JsonFence), Fence) == body
    ensures Cut(body + Fence + post, JsonFence) == Strip(body)
  {
    var a := body + Fence + post;
    var b := Before(a, JsonFence);
    JsonMarkerAfterBody(body, post);
    FirstOccurrence(body, Fence, post);
    if Contains(a, JsonFence) {
      assert |b| == |body|;
      assert b == body;
      MissingCharExcludes(body, Fence, '`');
    }
  }

  /** Such a reply is already stripped, and its first "```json" marker is the one after pre. */
  lemma FencedReplyShape(pre: string, a: string)
    requires '`' !in pre && a != []
    requires pre == [] || !IsSpace(pre[0])
    requires !IsSpace(a[|a| - 1])
    ensures Strip(pre + JsonFence + a) == pre + JsonFence + a
    ensures Contains(pre + JsonFence + a, JsonFence) && After(pre + JsonFence + a, JsonFence) == a
  {
    var reply := pre + JsonFence + a;
    if pre == [] { assert reply[0] == '`'; } else { assert reply[0] == pre[0]; }
    assert reply[|reply| - 1] == a[|a| - 1];
    StripUnpadded(reply);
    FirstOccurrence(pre, JsonFence, a);
  }

  /**
   * A reply of the form pre + "```json" + body + "```" + post, with no
   * backtick in pre, body or post and no surrounding whitespace, yields the
   * stripped body.
   */
  lemma ExtractJsonFenced(pre: string, body: string, post: string)
    requires '`' !in pre && '`' !in body && '`' !in post
    requires pre == [] || !IsSpace(pre[0])
    requires post == [] || !IsSpace(post[|post| - 1])
    ensures ExtractJson(pre + JsonFence + (body + Fence + post)) == Strip(body)
  {
    var a := body + Fence + post;
    if post == [] { assert a[|a| - 1] == '`'; } else { assert a[|a| - 1] == post[|post| - 1]; }
    FencedReplyShape(pre, a);
    CutAfterJsonMarker(body, post);
  }

  const PlanKeys: set<string> :=
    {"intent", "complexity", "requires_multiple", "recommended_agents", "parallel_execution", "estimated_tokens"}

  /** RoutingPlan fields read from the parsed reply; None when a key is missing or ill-typed. */
  function PlanFields(task: string, context: Dict, parsed: Dict): (r: Option<RoutingPlan>)
    ensures r.Some? ==> r.value.task == task && r.value.context == context
    ensures r.Some? ==> (PlanKeys <= parsed.Keys
      && parsed["intent"] == VStr(r.value.intent)
      && parsed["requires_multiple"] == VBool(r.value.requiresMultiple)
      && parsed["parallel_execution"] == VBool(r.value.parallelExecution)
      && parsed["estimated_tokens"] == VInt(r.value.estimatedTokens)
      && AsReal(parsed["complexity"]) == Some(r.value.complexity)
      && StringList(parsed["recommended_agents"]) == Some(r.value.recommendedAgents))
    ensures !(PlanKeys <= parsed.Keys) ==> r.None?
  {
    if !(PlanKeys <= parsed.Keys) then None
    else if !(parsed["intent"].VStr? && AsReal(parsed["complexity"]).Some? && parsed["requires_multiple"].VBool?
              && StringList(parsed["recommended_agents"]).Some? && parsed["parallel_execution"].VBool?
              && parsed["estimated_tokens"].VInt?)
    then None
    else
      Some(RoutingPlan(task, parsed["intent"].s, AsReal(parsed["complexity"]).value,
                       parsed["requires_multiple"].b, StringList(parsed["recommended_agents"]).value,
                       parsed["parallel_execution"].b, context, parsed["estimated_tokens"].i))
  }

  /** The plan used when routing analysis fails: one agent, this one. */
  function FallbackPlan(task: string, name: string, context: Dict): (p: RoutingPlan)
    ensures p.task == task && p.context == context
    ensures !p.requiresMultiple && !p.parallelExecution && p.recommendedAgents == [name]
    ensures p.intent == "general" && p.complexity == 0.5 && p.estimatedTokens == 2000
  {
    RoutingPlan(task, "general", 0.5, false, [name], false, context, 2000)
  }

  /**
   * create_routing_plan with the reply already parsed: `parsed` is None when
   * the API call or json.loads raised; a missing key also lands in the
   * fallback, since the whole analysis sits in one try block.
   */
  function CreateRoutingPlan(task: string, name: string, context: Dict, parsed: Option<Dict>): (p: RoutingPlan)
    ensures p.task == task && p.context == context
    ensures parsed.None? ==> p == FallbackPlan(task, name, context)
    ensures parsed.Some? && PlanFields(task, context, parsed.value).Some? ==> p == PlanFields(task, context, parsed.value).value
    ensures parsed.Some? && !(PlanKeys <= parsed.value.Keys) ==> p == FallbackPlan(task, name, context)
  {
    if parsed.None? then FallbackPlan(task, name, context)
    else PlanFields(task, context, parsed.value).GetOr(FallbackPlan(task, name, context))
  }

  /**
   * synthesize: a single result is returned as it is; otherwise the model's
   * reply, or on failure the formatted results under a fixed heading.
   * `formattedResults` stands for _format_results, which prints floats.
   */
  function Synthesize(results: seq<AgentResult>, apiReply: Option<string>, formattedResults: string): (r: string)
    ensures |results| == 1 ==> r == results[0].response
    ensures |results| != 1 && apiReply.Some? ==> r == apiReply.value
    ensures |results| != 1 && apiReply.None? ==> r == "Multiple agent responses:\n\n" + formattedResults
  {
    if |results| == 1 then results[0].response
    else apiReply.GetOr("Multiple agent responses:\n\n" + formattedResults)
  }

  /** "- name: cap1, cap2" */
  function AgentLine(name: string, capabilities: seq<string>): (line: string)
    ensures StartsWith(line, "- " + name + ": ")
  {
    "- " + name + ": " + Join(capabilities, ", ")
  }

  /** _format_agents over (name, capabilities) pairs in dict order: one line per agent. */
  method FormatAgents(agents: seq<(string, seq<string>)>) returns (text: string)
    ensures exists lines: seq<string> | |lines| == |agents| ::
      && (forall i | 0 <= i < |agents| :: lines[i] == AgentLine(agents[i].0, agents[i].1))
      && text == Join(lines, "\n")
  {
    var lines: seq<string> := [];
    var i := 0;
    while i < |agents|
      invariant 0 <= i <= |agents|
      invariant |lines| == i
      invariant forall j | 0 <= j < i :: lines[j] == AgentLine(agents[j].0, agents[j].1)
    {
      lines := lines + [AgentLine(agents[i].0, agents[i].1)];
      i := i + 1;
    }
    text := Join(lines, "\n");
  }

  /**
   * When no name or capability holds a newline, splitting the formatted text
   * at newlines gives back exactly one line per agent, in order.
   */
  lemma FormatAgentsLines(lines: seq<string>, agents: seq<(string, seq<string>)>)
    requires |agents| >= 1 && |lines| == |agents|
    requires forall i | 0 <= i < |agents| :: lines[i] == AgentLine(agents[i].0, agents[i].1)
    requires forall i | 0 <= i < |agents| :: '\n' !in agents[i].0 && forall c | c in agents[i].1 :: '\n' !in c
    ensures Split(Join(lines, "\n"), '\n') == lines
  {
    forall k | 0 <= k < |lines| ensures '\n' !in lines[k] {
      JoinAvoids(agents[k].1, ", ", '\n');
    }
    SplitJoin(lines, '\n');
  }
}

/**
 * SimpleRouter: keyword-based intent classification with a fixed priority
 * order, and agent selection with a preferred-agent override, a per-intent
 * default and a fallback to the first registered agent.
 */
module Router {
  import opened Wrappers
  import opened Text

  datatype Intent = Code | Terminal | Research | Creative | Analysis | General {
    function Name(): string {
      match this
      case Code => "code"
      case Terminal => "terminal"
      case Research => "research"
      case Creative => "creative"
      case Analysis => "analysis"
      case General => "general"
    }
  }

  /** INTENT_RULES: the keywords that signal each intent. */
  function Keywords(i: Intent): seq<string> {
    match i
    case Code => ["code", "program", "function", "debug", "refactor", "implement"]
    case Research => ["research", "find", "search", "learn", "discover"]
    case Analysis => ["analyze", "explain", "why does", "how does", "how can", "understand"]
    case Creative => ["create", "imagine", "brainstorm", "design", "generate"]
    case Terminal => ["terminal", "command", "shell", "bash", "run"]
    case General => []
  }

  /** DEFAULT_PREFERENCES: the agent each intent goes to by default. */
  function DefaultPreference(i: Intent): string {
    if i == Creative then "gemini" else "claude"
  }

  /** The order in which classify_intent tries the intents. */
  const PriorityOrder: seq<Intent> := [Code, Terminal, Research, Creative, Analysis]

  /** Some keyword of intent i is a substring of t. */
  predicate Hit(t: string, i: Intent) {
    exists k | k in Keywords(i) :: Contains(t, k)
  }

  /** The position in `order` of the first intent with a keyword hit in t, or |order|. */
  function FirstHit(t: string, order: seq<Intent>): (n: nat)
    ensures n <= |order|
    ensures n < |order| ==> Hit(t, order[n])
    ensures forall j | 0 <= j < n :: !Hit(t, order[j])
  {
    if order == [] then 0
    else if Hit(t, order[0]) then 0
    else 1 + FirstHit(t, order[1..])
  }

  /** classify_intent: the first intent, in priority order, with a keyword in the lower-cased task. */
  function ClassifyIntent(task: string): (r: Intent)
    ensures var t := Lower(task);
      && (r == Code <==> Hit(t, Code))
      && (r == Terminal <==> !Hit(t, Code) && Hit(t, Terminal))
      && (r == Research <==> !Hit(t, Code) && !Hit(t, Terminal) && Hit(t, Research))
      && (r == Creative <==> !Hit(t, Code) && !Hit(t, Terminal) && !Hit(t, Research) && Hit(t, Creative))
      && (r == Analysis <==> !Hit(t, Code) && !Hit(t, Terminal) && !Hit(t, Research) && !Hit(t, Creative)
                             && Hit(t, Analysis))
      && (r == General <==> !Hit(t, Code) && !Hit(t, Terminal) && !Hit(t, Research) && !Hit(t, Creative)
                            && !Hit(t, Analysis))
  {
    var t := Lower(task);
    var n := FirstHit(t, PriorityOrder);
    assert PriorityOrder[0] == Code && PriorityOrder[1] == Terminal && PriorityOrder[2] == Research
      && PriorityOrder[3] == Creative && PriorityOrder[4] == Analysis;
    if n < |PriorityOrder| then PriorityOrder[n] else General
  }

  /** Lower-casing is idempotent on every character. */
  lemma LowerIdempotent(s: string)
    ensures Lower(Lower(s)) == Lower(s)
  {
    assert forall i | 0 <= i < |s| :: Lower(Lower(s))[i] == Lower(s)[i];
  }

  /** Tasks that differ only in letter case have the same intent. */
  lemma ClassifyIgnoresCase(a: string, b: string)
    requires |a| == |b|
    requires forall i | 0 <= i < |a| :: LowerChar(a[i]) == LowerChar(b[i])
    ensures ClassifyIntent(a) == ClassifyIntent(b)
  {
    assert Lower(a) == Lower(b);
  }

  /** A task mentioning "debug" is code, whatever else it mentions ("debug" and "search" included). */
  lemma DebugIsCode(task: string)
    requires Contains(Lower(task), "debug")
    ensures ClassifyIntent(task) == Code
  {
    assert "debug" in Keywords(Code);
  }

  /**
   * select_agent over the agents' names in registration order: the preferred
   * agent when it is a non-empty registered name, else the default for the
   * task's intent when registered, else the first agent. An empty registry
   * raises StopIteration from next(iter(...)).
   */
  function SelectAgent(task: string, names: seq<string>, preferred: Option<string>): (r: Result<string>)
    ensures r.Ok? <==> names != []
    ensures r.Ok? ==> r.value in names
    ensures preferred.Some? && preferred.value != "" && preferred.value in names ==> r == Ok(preferred.value)
    ensures !(preferred.Some? && preferred.value != "" && preferred.value in names) && names != [] ==>
      r.value == (if DefaultPreference(ClassifyIntent(task)) in names
                  then DefaultPreference(ClassifyIntent(task)) else names[0])
  {
    if preferred.Some? && preferred.value != "" && preferred.value in names then Ok(preferred.value)
    else
      var default := DefaultPreference(ClassifyIntent(task));
      if default in names then Ok(default)
      else if names == [] then Err(Error(StopIteration, ""))
      else Ok(names[0])
  }

  /** With a registered preferred agent the task plays no part in the selection. */
  lemma PreferredIgnoresTask(a: string, b: string, names: seq<string>, preferred: string)
    requires preferred != "" && preferred in names
    ensures SelectAgent(a, names, Some(preferred)) == SelectAgent(b, names, Some(preferred))
  {
  }

  /** should_use_multiple: always a single agent. */
  function ShouldUseMultiple(task: string, complexity: real): (r: bool)
    ensures !r
  {
    false
  }
}

/**
 * The interactive REPL over the second orchestrator: the routing suggestion
 * and the user's answers to it, the slash commands, execute_task and the
 * read loop. The console, the prompts and the orchestrator's own work are
 * not modelled: the prompt answers, the routing plan and what execute
 * returned or raised are inputs.
 */
module Repl {
  import opened Wrappers
  import opened Text
  import opened Clock
  import opened AgentBase
  import opened Sessions
  import V2 = OrchestratorV2
  import Orchestrator
  import opened Values

  // ----- handle_routing_suggestion -----

  /** execute_task's modes. */
  datatype Mode = Auto | Single | Multi

  function ModeName(m: Mode): string {
    match m
    case Auto => "auto"
    case Single => "single"
    case Multi => "multi"
  }

  /** Prompt.ask with a default: an empty line gives the default. */
  function Answer(typed: string, default: string): string {
    if typed == [] then default else typed
  }

  /** The default of "How many agents?": the number of recommended agents, as text. */
  function DefaultCount(plan: RoutingPlan): string {
    NatToString(|plan.recommendedAgents|)
  }

  /**
   * handle_routing_suggestion: `confirmed` answers "Use multiple agents?" and
   * `typed` is the line typed at "How many agents?". Multi mode with the
   * count read from the answer, or single mode without a count.
   */
  function SuggestionChoice(plan: RoutingPlan, confirmed: bool, typed: string): (c: (Mode, Option<int>))
    ensures c.0 != Auto
    ensures c.0 == Multi <==> c.1.Some?
    ensures c.0 == Multi <==> plan.requiresMultiple && confirmed && PyInt(Answer(typed, DefaultCount(plan))).Some?
    ensures c.1.Some? ==> c.1 == PyInt(Answer(typed, DefaultCount(plan)))
  {
    if !plan.requiresMultiple || !confirmed then (Single, None)
    else
      match PyInt(Answer(typed, DefaultCount(plan)))
      case Some(n) => (Multi, Some(n))
      case None => (Single, None)
  }

  /** Accepting the suggestion and the default count runs as many agents as were recommended. */
  lemma DefaultRunsRecommended(plan: RoutingPlan)
    requires plan.requiresMultiple
    ensures SuggestionChoice(plan, true, "") == (Multi, Some(|plan.recommendedAgents|))
  {
    PyIntRoundTrip(|plan.recommendedAgents|);
  }

  /** Accepting and typing a number n runs n agents. */
  lemma TypedCountRuns(plan: RoutingPlan, n: int)
    requires plan.requiresMultiple
    ensures SuggestionChoice(plan, true, IntToString(n)) == (Multi, Some(n))
  {
    PyIntRoundTrip(n);
    assert IntToString(n) != [];
  }

  // ----- execute_task -----

  /**
   * The prompt answers and the orchestrator's replies one task meets:
   * `outcome` is what execute returns or raises, and `recorded` the agent
   * result a single run hands to the orchestrator's session update (None
   * when the spawn was queued or the run failed inside _execute_single).
   */
  datatype Env = Env(suggestion: Result<RoutingPlan>, confirmed: bool, typed: string, outcome: Result<string>,
                     recorded: Option<AgentResult>)

  /** The mode and count execute_task settles on; None when asking for the routing plan raised. */
  function Resolve(mode: Mode, count: Option<int>, env: Env): (r: Option<(Mode, Option<int>)>)
    ensures r.None? <==> mode == Auto && env.suggestion.Err?
    ensures r.Some? ==> r.value.0 != Auto
  {
    if mode != Auto then Some((mode, count))
    else if env.suggestion.Err? then None
    else Some(SuggestionChoice(env.suggestion.value, env.confirmed, env.typed))
  }

  /** The orchestrator call: execute(task, mode="multi", num_agents=n) or execute(task, mode="single"). */
  function RouteOf(mode: Mode, count: Option<int>): Result<V2.Route> {
    if mode == Multi then
      (if count.None? then Err(Error(ValueError, "num_agents required for multi mode"))
       else Ok(V2.RunMulti(count.value)))
    else Ok(V2.RunSingle)
  }

  /** The route agrees with the orchestrator's own dispatch on the mode name execute_task passes. */
  lemma RouteIsDispatch(mode: Mode, count: Option<int>, suggestion: Result<RoutingPlan>)
    requires mode != Auto
    ensures RouteOf(mode, count) == V2.Dispatch(ModeName(mode), if mode == Multi then count else None, suggestion)
  {
    assert ModeName(Single) != "multi";
  }

  /**
   * What execute_task ends with: the route taken and the response, or the
   * exception it caught and printed (from the routing plan, from the
   * dispatch or from the execution).
   */
  function TaskOutcome(mode: Mode, count: Option<int>, env: Env): Result<(V2.Route, string)> {
    match Resolve(mode, count, env)
    case None => Err(env.suggestion.error)
    case Some(mc) =>
      match RouteOf(mc.0, mc.1)
      case Err(e) => Err(e)
      case Ok(route) => if env.outcome.Err? then Err(env.outcome.error) else Ok((route, env.outcome.value))
  }

  /**
   * In auto mode a plan that does not ask for several agents runs one agent,
   * and declining runs one agent, whatever the count answer.
   */
  lemma AutoSingleUnlessAccepted(plan: RoutingPlan, confirmed: bool, typed: string, response: string)
    requires !plan.requiresMultiple || !confirmed
    ensures TaskOutcome(Auto, None, Env(Ok(plan), confirmed, typed, Ok(response), None)) == Ok((V2.RunSingle, response))
  {
    var c := SuggestionChoice(plan, confirmed, typed);
    assert c == (Single, None);
  }

  /** An accepted suggestion with the default count runs as many agents as were recommended. */
  lemma AutoAcceptedDefault(plan: RoutingPlan, response: string)
    requires plan.requiresMultiple
    ensures TaskOutcome(Auto, None, Env(Ok(plan), true, "", Ok(response), None))
      == Ok((V2.RunMulti(|plan.recommendedAgents|), response))
  {
    DefaultRunsRecommended(plan);
  }

  /**
   * The session after a task that succeeded: a single run whose agent
   * result reached the orchestrator adds that result as an assistant turn
   * (its tokens and cost join the totals); save_session then stamps it.
   */
  function TaskRecord(rec: SessionRecord, route: V2.Route, env: Env, now: DateTime): (r: SessionRecord)
    ensures route.RunMulti? || env.recorded.None? ==> r == rec.(lastActive := now)
    ensures route.RunSingle? && env.recorded.Some? ==>
      r == WithTurn(rec, Orchestrator.AssistantTurn(env.recorded.value, now)).(lastActive := now)
  {
    var updated := if route.RunSingle? && env.recorded.Some? then WithTurn(rec, Orchestrator.AssistantTurn(env.recorded.value, now)) else rec;
    updated.(lastActive := now)
  }

  // ----- handle_command -----

  /** The commands handle_command knows; any other word is `OtherCmd`. */
  datatype Command = ExitCmd | HelpCmd | StatusCmd | SaveCmd | ClearCmd | MultiCmd | SingleCmd | OtherCmd

  /** The words handle_command compares the lowercased first word with; "/exit" and "/quit" are the same command. */
  const Commands: seq<(string, Command)> := [
    ("/exit", ExitCmd), ("/quit", ExitCmd), ("/help", HelpCmd), ("/status", StatusCmd), ("/save", SaveCmd),
    ("/clear", ClearCmd), ("/multi", MultiCmd), ("/single", SingleCmd)]

  /** The command of the first entry whose word is `word`; `OtherCmd` when there is none. */
  function Lookup(word: string, table: seq<(string, Command)>): Command {
    if table == [] then OtherCmd
    else if table[0].0 == word then table[0].1
    else Lookup(word, table[1..])
  }

  /** The command a lowercased first word names. */
  function CommandOf(word: string): Command {
    Lookup(word, Commands)
  }

  /** What handle_command does with a line. */
  datatype Action =
    | Stop
    | ShowHelp
    | ShowStatus
    | Save
    | Clear
    | Run(task: string, mode: Mode, count: Option<int>)
    | MultiUsage
    | BadCount
    | SingleUsage
    | Unknown(cmd: string)

  /** /multi: a count and a task must follow; the count must read as an int. */
  function MultiAction(parts: seq<string>): (a: Action)
    ensures a.Run? || a == MultiUsage || a == BadCount
    ensures a.Run? ==> |parts| >= 2 && a.mode == Multi && a.count.Some? && a.task != []
    ensures |parts| < 2 ==> a == MultiUsage
  {
    if |parts| < 2 then MultiUsage
    else
      var args := SplitOnce(parts[1]);
      if |args| < 2 then MultiUsage
      else
        match PyInt(args[0])
        case None => BadCount
        case Some(n) => Run(args[1], Multi, Some(n))
  }

  /** What a command does with the words of its line (`parts[0]` the command word, `parts[1]` the rest). */
  function ActionOf(c: Command, cmd: string, parts: seq<string>): (a: Action)
    requires |parts| <= 2 && (|parts| == 2 ==> parts[1] != [])
    ensures a == Stop <==> c == ExitCmd
    ensures a.Run? ==> (a.mode != Auto && a.task != [] && (a.mode == Multi <==> a.count.Some?))
  {
    match c
    case ExitCmd => Stop
    case HelpCmd => ShowHelp
    case StatusCmd => ShowStatus
    case SaveCmd => Save
    case ClearCmd => Clear
    case MultiCmd => MultiAction(parts)
    case SingleCmd => if |parts| < 2 then SingleUsage else Run(parts[1], Single, None)
    case OtherCmd => Unknown(cmd)
  }

  /**
   * handle_command's decision: the lowercased first word picks the command,
   * the rest of the line is its argument. IndexError when the line has no
   * word at all.
   */
  function CommandAction(command: string): (r: Result<Action>)
    ensures r.Err? ==> r.error.kind == IndexError
    ensures r.Ok? && r.value.Run? ==> (r.value.mode != Auto && r.value.task != []
      && (r.value.mode == Multi <==> r.value.count.Some?))
  {
    var parts := SplitOnce(command);
    if parts == [] then Err(Error(IndexError, "list index out of range"))
    else Ok(ActionOf(CommandOf(Lower(parts[0])), Lower(parts[0]), parts))
  }

  /** Only a line without a word raises. */
  lemma CommandRaises(command: string)
    ensures CommandAction(command).Err? <==> Words(command) == []
  {
    var parts := SplitOnce(command);
    if parts == [] {
      assert CommandAction(command).Err?;
    } else {
      assert CommandAction(command).Ok?;
    }
  }

  /** The loop stops exactly on a first word that lowercases to "/exit" or "/quit". */
  lemma CommandStops(command: string)
    requires Words(command) != []
    ensures CommandAction(command) == Ok(Stop) <==> CommandOf(Lower(Words(command)[0])) == ExitCmd
  {
    var parts := SplitOnce(command);
    assert parts[0] == Words(command)[0];
  }

  lemma MultiWord()
    ensures IsWord("/multi") && Lower("/multi") == "/multi" && CommandOf("/multi") == MultiCmd
  {
    LowerUnchanged("/multi");
  }

  lemma SingleWord()
    ensures IsWord("/single") && Lower("/single") == "/single" && CommandOf("/single") == SingleCmd
  {
    LowerUnchanged("/single");
  }

  lemma CountWord(n: int)
    ensures IsWord(IntToString(n))
  {
    var s := IntToString(n);
    var d := NatToString(if n < 0 then -n else n);
    forall i | 0 <= i < |s| ensures !IsSpace(s[i]) {
      if n < 0 && i > 0 {
        assert s[i] == d[i - 1] && d[i - 1] in d;
      } else if n >= 0 {
        assert s[i] in d;
      }
    }
  }

  /** The arguments "<n> <task>" of /multi give a run of the task on n agents. */
  lemma MultiArguments(n: int, task: string)
    requires task != [] && !IsSpace(task[0])
    ensures MultiAction(["/multi", IntToString(n) + " " + task]) == Run(task, Multi, Some(n))
  {
    CountWord(n);
    SplitOnceJoin(IntToString(n), task);
    PyIntRoundTrip(n);
  }

  /** "/multi <n> <task>" runs the task on n agents. */
  lemma MultiCommand(n: int, task: string)
    requires task != [] && !IsSpace(task[0])
    ensures CommandAction("/multi" + " " + (IntToString(n) + " " + task)) == Ok(Run(task, Multi, Some(n)))
  {
    CountWord(n);
    MultiWord();
    SplitOnceJoin("/multi", IntToString(n) + " " + task);
    MultiArguments(n, task);
  }

  /** "/multi <n>" without a task only shows the usage. */
  lemma MultiWithoutTask(n: int)
    ensures CommandAction("/multi" + " " + IntToString(n)) == Ok(MultiUsage)
  {
    var count := IntToString(n);
    CountWord(n);
    MultiWord();
    SplitOnceJoin("/multi", count);
    SplitOnceWord(count);
  }

  /** "/multi <word> <task>" with a word int() rejects runs nothing. */
  lemma MultiBadCount(w: string, task: string)
    requires IsWord(w) && PyInt(w).None?
    requires task != [] && !IsSpace(task[0])
    ensures CommandAction("/multi" + " " + (w + " " + task)) == Ok(BadCount)
  {
    MultiWord();
    assert MultiAction(["/multi", w + " " + task]) == BadCount by {
      SplitOnceJoin(w, task);
    }
    SplitOnceJoin("/multi", w + " " + task);
  }

  /** "/single <task>" runs the task on one agent; "/single" alone only shows the usage. */
  lemma SingleCommand(task: string)
    requires task != [] && !IsSpace(task[0])
    ensures CommandAction("/single" + " " + task) == Ok(Run(task, Single, None))
    ensures CommandAction("/single") == Ok(SingleUsage)
  {
    SingleWord();
    assert CommandAction("/single" + " " + task) == Ok(Run(task, Single, None)) by {
      var parts := SplitOnce("/single" + " " + task);
      SplitOnceJoin("/single", task);
      assert parts == ["/single", task] && Lower(parts[0]) == "/single";
      assert ActionOf(SingleCmd, "/single", parts) == Run(task, Single, None);
    }
    assert CommandAction("/single") == Ok(SingleUsage) by {
      var parts := SplitOnce("/single");
      SplitOnceWord("/single");
      assert parts == ["/single"] && Lower(parts[0]) == "/single";
      assert ActionOf(SingleCmd, "/single", parts) == SingleUsage;
    }
  }

  // ----- the REPL object -----

  /** `session_name or 'default'` */
  function SessionName(name: Option<string>): string {
    if name.None? || name.value == "" then "default" else name.value
  }

  /** Whether handle_command saves the session. */
  predicate CommandSaves(a: Result<Action>, env: Env) {
    a.Ok? && (a.value.Save? || (a.value.Run? && TaskOutcome(a.value.mode, a.value.count, env).Ok?))
  }

  /** The session record after handle_command. */
  function CommandRecord(rec: SessionRecord, a: Result<Action>, env: Env, now: DateTime): SessionRecord {
    if a.Ok? && a.value.Clear? then rec.(conversation := [])
    else if a.Ok? && a.value.Save? then rec.(lastActive := now)
    else if CommandSaves(a, env) then TaskRecord(rec, TaskOutcome(a.value.mode, a.value.count, env).value.0, env, now)
    else rec
  }

  /** A line of input with what its prompts and its execution give. */
  datatype Line = Line(text: string, env: Env, now: DateTime)

  /** The loop's test: a non-blank line starting with "/" goes to handle_command. */
  predicate IsCommand(text: string) {
    Strip(text) != [] && text[0] == '/'
  }

  /** A line that ends the loop. */
  predicate Stops(text: string) {
    IsCommand(text) && CommandAction(text) == Ok(Stop)
  }

  /** Whether one line of the loop saves the session. */
  predicate LineSaves(line: Line) {
    if Strip(line.text) == [] then false
    else if line.text[0] == '/' then CommandSaves(CommandAction(line.text), line.env)
    else TaskOutcome(Auto, None, line.env).Ok?
  }

  /** The session record after one line of the loop. */
  function LineRecord(rec: SessionRecord, line: Line): SessionRecord {
    if Strip(line.text) == [] then rec
    else if line.text[0] == '/' then CommandRecord(rec, CommandAction(line.text), line.env, line.now)
    else if LineSaves(line) then TaskRecord(rec, TaskOutcome(Auto, None, line.env).value.0, line.env, line.now)
    else rec
  }

  /** The session record after the lines, one after the other. */
  function Replay(rec: SessionRecord, lines: seq<Line>): SessionRecord {
    if lines == [] then rec else LineRecord(Replay(rec, lines[..|lines| - 1]), lines[|lines| - 1])
  }

  lemma ReplayNext(rec: SessionRecord, lines: seq<Line>, n: nat)
    requires n < |lines|
    ensures Replay(rec, lines[..n + 1]) == LineRecord(Replay(rec, lines[..n]), lines[n])
  {
    assert lines[..n + 1][..n] == lines[..n];
  }

  /** The parts of a session record neither the REPL nor the orchestrator's session update touch. */
  predicate SameIdentity(a: SessionRecord, b: SessionRecord) {
    && a.id == b.id && a.workspace == b.workspace && a.primaryAgent == b.primaryAgent
    && a.createdAt == b.createdAt && a.context == b.context
  }

  /** A line that is the /clear command. */
  predicate Clears(text: string) {
    IsCommand(text) && CommandAction(text) == Ok(Clear)
  }

  /** The session update of a task keeps the identity, and keeps the totals equal to the sums over the turns. */
  lemma TaskKeeps(rec: SessionRecord, route: V2.Route, env: Env, now: DateTime)
    ensures SameIdentity(rec, TaskRecord(rec, route, env, now))
    ensures TotalsMatch(rec) ==> TotalsMatch(TaskRecord(rec, route, env, now))
  {
    if route.RunSingle? && env.recorded.Some? && TotalsMatch(rec) {
      WithTurnKeepsTotals(rec, Orchestrator.AssistantTurn(env.recorded.value, now));
    }
  }

  lemma CommandKeeps(rec: SessionRecord, a: Result<Action>, env: Env, now: DateTime)
    ensures SameIdentity(rec, CommandRecord(rec, a, env, now))
    ensures TotalsMatch(rec) && a != Ok(Clear) ==> TotalsMatch(CommandRecord(rec, a, env, now))
  {
    if a.Ok? && a.value.Run? && CommandSaves(a, env) {
      var route := TaskOutcome(a.value.mode, a.value.count, env).value.0;
      TaskKeeps(rec, route, env, now);
      assert CommandRecord(rec, a, env, now) == TaskRecord(rec, route, env, now);
    }
  }

  /**
   * A line keeps the session's identity, and every line but /clear keeps
   * the totals equal to the sums over the turns: a task adds its agent's
   * turn and its tokens and cost together.
   */
  lemma LineKeeps(rec: SessionRecord, line: Line)
    ensures SameIdentity(rec, LineRecord(rec, line))
    ensures TotalsMatch(rec) && !Clears(line.text) ==> TotalsMatch(LineRecord(rec, line))
  {
    if Strip(line.text) == [] {
      assert LineRecord(rec, line) == rec;
    } else if line.text[0] == '/' {
      var a := CommandAction(line.text);
      CommandKeeps(rec, a, line.env, line.now);
      assert LineRecord(rec, line) == CommandRecord(rec, a, line.env, line.now);
      assert IsCommand(line.text);
    } else if LineSaves(line) {
      var route := TaskOutcome(Auto, None, line.env).value.0;
      TaskKeeps(rec, route, line.env, line.now);
      assert LineRecord(rec, line) == TaskRecord(rec, route, line.env, line.now);
    } else {
      assert LineRecord(rec, line) == rec;
    }
  }

  /**
   * A run of the loop never changes the session's identity: the REPL's
   * saves only stamp it, and the orchestrator's updates only add turns.
   */
  lemma {:induction false} ReplayKeeps(rec: SessionRecord, lines: seq<Line>)
    ensures SameIdentity(rec, Replay(rec, lines))
  {
    if lines != [] {
      var before := Replay(rec, lines[..|lines| - 1]);
      ReplayKeeps(rec, lines[..|lines| - 1]);
      LineKeeps(before, lines[|lines| - 1]);
    }
  }

  /** Without a /clear, a run of the loop keeps the totals equal to the sums over the turns. */
  lemma {:induction false} ReplayKeepsTotals(rec: SessionRecord, lines: seq<Line>)
    requires TotalsMatch(rec) && forall k | 0 <= k < |lines| :: !Clears(lines[k].text)
    ensures TotalsMatch(Replay(rec, lines))
  {
    if lines != [] {
      var init := lines[..|lines| - 1];
      assert forall k | 0 <= k < |init| :: init[k] == lines[k];
      ReplayKeepsTotals(rec, init);
      LineKeeps(Replay(rec, init), lines[|lines| - 1]);
    }
  }

  lemma ClearWord()
    ensures IsWord("/clear") && Lower("/clear") == "/clear" && CommandOf("/clear") == ClearCmd
  {
    LowerUnchanged("/clear");
  }

  lemma ClearIsCommand()
    ensures IsCommand("/clear")
  {
    StripUnpadded("/clear");
  }

  lemma ClearCommandAction()
    ensures CommandAction("/clear") == Ok(Clear)
  {
    ClearWord();
    SplitOnceWord("/clear");
  }

  /**
   * /clear empties the conversation but keeps both totals, so a session
   * whose totals matched its turns and were not zero no longer does.
   */
  lemma ClearKeepsTotals(rec: SessionRecord, env: Env, now: DateTime)
    requires TotalsMatch(rec) && rec.totalTokens != 0
    ensures var r := LineRecord(rec, Line("/clear", env, now));
      r.conversation == [] && r.totalTokens == rec.totalTokens && r.totalCost == rec.totalCost
      && !TotalsMatch(r)
  {
    ClearIsCommand();
    ClearCommandAction();
    var line := Line("/clear", env, now);
    assert LineRecord(rec, line) == CommandRecord(rec, Ok(Clear), env, now);
  }

  /**
   * The session __init__ ends with: the named session when its file reads;
   * otherwise a new one under that name (or "default" without a name), saved.
   */
  ghost predicate Opened(files: map<string, Dict>, sessionName: Option<string>, primaryAgent: string, now: DateTime,
                         rec: SessionRecord, files': map<string, Dict>)
    requires Clock.Valid(now)
  {
    var name := SessionName(sessionName);
    if sessionName.Some? && sessionName.value != "" && name in files && SessionFromDict(files[name]).Ok?
    then rec == SessionFromDict(files[name]).value && files' == files
    else rec == NewRecord(name, primaryAgent, now) && files' == files[name := SessionToDict(rec)]
  }

  /** __init__'s load-or-create of the session. */
  method OpenSession(registry: SessionRegistry, sessionName: Option<string>, primaryAgent: string, now: DateTime)
    returns (s: Session)
    requires Clock.Valid(now)
    modifies registry
    ensures s.Valid()
    ensures Opened(old(registry.files), sessionName, primaryAgent, now, s.Record(), registry.files)
  {
    var name := SessionName(sessionName);
    if sessionName.Some? && sessionName.value != "" {
      var loaded := registry.LoadSession(name);
      if loaded.Ok? && loaded.value.Some? {
        return loaded.value.value;
      }
    }
    s := registry.CreateSession(name, primaryAgent, now);
  }

  /** BrainREPL: the running flag, the session and the registry it saves to. */
  class BrainRepl {
    var running: bool
    const session: Session
    const registry: SessionRegistry
    const workspacePath: string
    const primaryAgent: string

    ghost predicate Valid()
      reads this, session
    {
      session.Valid()
    }

    /**
     * __init__: the named session is loaded when its file reads; a missing or
     * unreadable one is created (and saved) under that name, and without a
     * name the session is a new "default" one. The loop is not running yet.
     */
    constructor(workspacePath: Option<string>, cwd: string, sessionName: Option<string>, primaryAgent: string,
                registry: SessionRegistry, now: DateTime)
      requires Clock.Valid(now)
      modifies registry
      ensures Valid() && !running
      ensures this.registry == registry && this.primaryAgent == primaryAgent
      ensures this.workspacePath == V2.Workspace(workspacePath, cwd)
      ensures Opened(old(registry.files), sessionName, primaryAgent, now, session.Record(), registry.files)
    {
      var s := OpenSession(registry, sessionName, primaryAgent, now);
      session := s;
      this.registry := registry;
      this.workspacePath := V2.Workspace(workspacePath, cwd);
      this.primaryAgent := primaryAgent;
      running := false;
    }

    /** save_session on the REPL's session. */
    method SaveSession(now: DateTime)
      requires Valid() && Clock.Valid(now)
      modifies session, registry
      ensures Valid()
      ensures session.Record() == old(session.Record()).(lastActive := now)
      ensures registry.files == old(registry.files)[session.workspace := SessionToDict(session.Record())]
    {
      registry.SaveSession(session, now);
    }

    /**
     * execute_task: in auto mode the routing plan is asked for and the user
     * answers the suggestion; the orchestrator then runs the task and the
     * session is saved. Any exception on the way is printed and nothing is
     * saved.
     */
    method ExecuteTask(mode: Mode, count: Option<int>, env: Env, now: DateTime) returns (r: Result<(V2.Route, string)>)
      requires Valid() && Clock.Valid(now)
      modifies session, registry
      ensures Valid()
      ensures r == TaskOutcome(mode, count, env)
      ensures r.Ok? ==> (session.Record() == TaskRecord(old(session.Record()), r.value.0, env, now)
        && registry.files == old(registry.files)[session.workspace := SessionToDict(session.Record())])
      ensures r.Err? ==> (session.Record() == old(session.Record()) && registry.files == old(registry.files))
    {
      var resolved := Resolve(mode, count, env);
      if resolved.None? {
        return Err(env.suggestion.error);
      }
      var route := RouteOf(resolved.value.0, resolved.value.1);
      if route.Err? {
        return Err(route.error);
      }
      if env.outcome.Err? {
        return Err(env.outcome.error);
      }
      if route.value.RunSingle? && env.recorded.Some? {
        Orchestrator.RecordResult(session, env.recorded.value, now);
      }
      SaveSession(now);
      r := Ok((route.value, env.outcome.value));
    }

    /** conversation.clear(): the turns go, the totals stay. */
    method ClearConversation()
      requires Valid()
      modifies session
      ensures Valid()
      ensures session.Record() == old(session.Record()).(conversation := [])
    {
      session.conversation := [];
    }

    /** What handle_command does once the command line has been read. */
    method Perform(a: Result<Action>, env: Env, now: DateTime)
      requires Valid() && Clock.Valid(now)
      modifies this, session, registry
      ensures Valid()
      ensures running == (old(running) && a != Ok(Stop))
      ensures session.Record() == CommandRecord(old(session.Record()), a, env, now)
      ensures CommandSaves(a, env) ==> registry.files == old(registry.files)[session.workspace := SessionToDict(session.Record())]
      ensures !CommandSaves(a, env) ==> registry.files == old(registry.files)
    {
      if a.Ok? && a.value.Run? {
        RunTask(a.value.task, a.value.mode, a.value.count, env, now);
      } else {
        PerformOther(a, now);
      }
    }

    /** The commands other than a run of /multi or /single. */
    method PerformOther(a: Result<Action>, now: DateTime)
      requires Valid() && Clock.Valid(now) && !(a.Ok? && a.value.Run?)
      modifies this, session, registry
      ensures Valid()
      ensures running == (old(running) && a != Ok(Stop))
      ensures a == Ok(Clear) ==> session.Record() == old(session.Record()).(conversation := [])
      ensures a == Ok(Save) ==> session.Record() == old(session.Record()).(lastActive := now)
      ensures a != Ok(Clear) && a != Ok(Save) ==> session.Record() == old(session.Record())
      ensures a == Ok(Save) ==> registry.files == old(registry.files)[session.workspace := SessionToDict(session.Record())]
      ensures a != Ok(Save) ==> registry.files == old(registry.files)
    {
      if a.Err? {
        return;
      }
      match a.value {
        case Stop => running := false;
        case Save => SaveSession(now);
        case Clear => ClearConversation();
        case _ =>
      }
    }

    /** The /multi and /single commands once their arguments are complete. */
    method RunTask(task: string, mode: Mode, count: Option<int>, env: Env, now: DateTime)
      requires Valid() && Clock.Valid(now)
      modifies session, registry
      ensures Valid()
      ensures var a := Ok(Run(task, mode, count));
        && session.Record() == CommandRecord(old(session.Record()), a, env, now)
        && (CommandSaves(a, env) ==> registry.files == old(registry.files)[session.workspace := SessionToDict(session.Record())])
        && (!CommandSaves(a, env) ==> registry.files == old(registry.files))
    {
      var done := ExecuteTask(mode, count, env, now);
    }

    /**
     * handle_command: /exit and /quit stop the loop, /save saves, /clear
     * empties the conversation, /multi and /single run their task when
     * their arguments are complete; everything else only prints.
     */
    method HandleCommand(command: string, env: Env, now: DateTime) returns (r: Result<Action>)
      requires Valid() && Clock.Valid(now)
      modifies this, session, registry
      ensures Valid()
      ensures r == CommandAction(command)
      ensures running == (old(running) && r != Ok(Stop))
      ensures session.Record() == CommandRecord(old(session.Record()), r, env, now)
      ensures CommandSaves(r, env) ==> registry.files == old(registry.files)[session.workspace := SessionToDict(session.Record())]
      ensures !CommandSaves(r, env) ==> registry.files == old(registry.files)
    {
      r := CommandAction(command);
      Perform(r, env, now);
    }

    /** One pass of run()'s loop: blank lines are skipped, "/" lines are commands, others tasks in auto mode. */
    method Step(line: Line)
      requires Valid() && Clock.Valid(line.now)
      modifies this, session, registry
      ensures Valid()
      ensures running == (old(running) && !Stops(line.text))
      ensures session.Record() == LineRecord(old(session.Record()), line)
      ensures LineSaves(line) ==> registry.files == old(registry.files)[session.workspace := SessionToDict(session.Record())]
      ensures !LineSaves(line) ==> registry.files == old(registry.files)
    {
      if Strip(line.text) == [] {
        return;
      }
      if line.text[0] == '/' {
        var a := HandleCommand(line.text, line.env, line.now);
      } else {
        var done := ExecuteTask(Auto, None, line.env, line.now);
      }
    }

    /**
     * run(): the loop reads lines until a command stops it or the input
     * ends; `n` lines were read. Every line before the last one read left
     * the loop running.
     */
    method RunLoop(lines: seq<Line>) returns (n: nat)
      requires Valid() && forall k | 0 <= k < |lines| :: Clock.Valid(lines[k].now)
      modifies this, session, registry
      ensures Valid() && n <= |lines|
      ensures forall k | 0 <= k < n - 1 :: !Stops(lines[k].text)
      ensures !running <==> n > 0 && Stops(lines[n - 1].text)
      ensures running ==> n == |lines|
      ensures session.Record() == Replay(old(session.Record()), lines[..n])
    {
      running := true;
      n := 0;
      while running && n < |lines|
        invariant Valid() && n <= |lines|
        invariant running ==> forall k | 0 <= k < n :: !Stops(lines[k].text)
        invariant !running ==> n > 0 && Stops(lines[n - 1].text) && forall k | 0 <= k < n - 1 :: !Stops(lines[k].text)
        invariant session.Record() == Replay(old(session.Record()), lines[..n])
        decreases |lines| - n
      {
        ReplayNext(old(session.Record()), lines, n);
        Advance(lines, n);
        n := n + 1;
      }
    }

    /** One turn of run()'s loop, stated over the lines read so far. */
    method Advance(lines: seq<Line>, n: nat)
      requires Valid() && running && n < |lines| && Clock.Valid(lines[n].now)
      requires forall k | 0 <= k < n :: !Stops(lines[k].text)
      modifies this, session, registry
      ensures Valid()
      ensures running ==> forall k | 0 <= k <= n :: !Stops(lines[k].text)
      ensures !running ==> Stops(lines[n].text)
      ensures session.Record() == LineRecord(old(session.Record()), lines[n])
    {
      ghost var stop := Stops(lines[n].text);
      Step(lines[n]);
      assert running == !stop;
      if running {
        forall k | 0 <= k <= n
          ensures !Stops(lines[k].text)
        {
          if k == n {
            assert !stop;
          }
        }
      }
    }
  }
}

/**
 * The command-line front end: environment-variable expansion of the
 * configuration text, agent creation from the configuration, the choice of
 * the primary agent, one exchange of the interactive loop (the user turn is
 * appended before execution and removed again when execution fails) and the
 * slash commands. Console input and output, YAML parsing and the agents'
 * SDK calls are not modelled: their results are parameters.
 */
module Cli {
  import opened Wrappers
  import opened Values
  import opened Text
  import opened Clock
  import opened AgentBase
  import opened Sessions
  import O = Orchestrator

  // ----- ${NAME} / $NAME expansion -----

  predicate IsNameStart(c: char) { IsAsciiLetter(c) || c == '_' }

  predicate IsNameChar(c: char) { IsNameStart(c) || IsDigit(c) }

  /** The length of the longest prefix of s made of name characters. */
  function NameEnd(s: string): (n: nat)
    ensures n <= |s|
    ensures forall j | 0 <= j < n :: IsNameChar(s[j])
    ensures n < |s| ==> !IsNameChar(s[n])
  {
    if s == [] || !IsNameChar(s[0]) then 0 else 1 + NameEnd(s[1..])
  }

  /** os.getenv(name, '') */
  function Getenv(env: map<string, string>, name: string): string {
    if name in env then env[name] else ""
  }

  /**
   * The reference the pattern matches at the start of s, as the variable's
   * name and the length of the match: "${" closed by the first "}" after at
   * least one character, or else "$" followed by a name
   * ([A-Za-z_][A-Za-z0-9_]*). None when s does not start with either.
   */
  function Reference(s: string): (r: Option<(string, nat)>)
    ensures r.Some? ==> s != [] && s[0] == '$' && 2 <= r.value.1 <= |s| && r.value.0 != []
  {
    if |s| >= 2 && s[0] == '$' && s[1] == '{' && '}' in s[2..] && IndexOfChar(s[2..], '}') > 0 then
      var j := IndexOfChar(s[2..], '}');
      Some((s[2..2 + j], j + 3))
    else if |s| >= 2 && s[0] == '$' && IsNameStart(s[1]) then
      var n := NameEnd(s[1..]);
      Some((s[1..1 + n], n + 1))
    else None
  }

  /**
   * re.sub over the configuration text: each reference matched while
   * scanning left to right is replaced by the variable's value, and any
   * other character is copied, the scan moving on by one.
   */
  function ExpandEnvVars(s: string, env: map<string, string>): string
    decreases |s|
  {
    if s == [] then []
    else
      match Reference(s)
      case Some((name, n)) => Getenv(env, name) + ExpandEnvVars(s[n..], env)
      case None => [s[0]] + ExpandEnvVars(s[1..], env)
  }

  /** A piece of configuration text: literal text, a ${NAME} reference or a $NAME reference. */
  datatype Piece = Literal(text: string) | Braced(name: string) | Bare(name: string)

  predicate IsName(name: string) {
    name != [] && IsNameStart(name[0]) && forall j | 0 <= j < |name| :: IsNameChar(name[j])
  }

  predicate PieceOk(p: Piece) {
    match p
    case Literal(t) => t != [] && '$' !in t
    case Braced(name) => name != [] && '}' !in name
    case Bare(name) => IsName(name)
  }

  /**
   * A text cut into pieces the expansion sees one by one: literals without
   * "$", and a bare reference never followed by a literal that would
   * lengthen its name.
   */
  predicate Template(ps: seq<Piece>) {
    forall k | 0 <= k < |ps| :: PieceOk(ps[k])
      && (ps[k].Bare? && k + 1 < |ps| && ps[k + 1].Literal? && ps[k + 1].text != [] ==> !IsNameChar(ps[k + 1].text[0]))
  }

  function RenderPiece(p: Piece): string {
    match p
    case Literal(t) => t
    case Braced(name) => "${" + name + "}"
    case Bare(name) => "$" + name
  }

  /** The text the pieces spell. */
  function Render(ps: seq<Piece>): string {
    if ps == [] then [] else RenderPiece(ps[0]) + Render(ps[1..])
  }

  /** The intended result: every reference replaced by its value, literals kept. */
  function Substitute(ps: seq<Piece>, env: map<string, string>): string {
    if ps == [] then []
    else (if ps[0].Literal? then ps[0].text else Getenv(env, ps[0].name)) + Substitute(ps[1..], env)
  }

  /** Text without "$" is copied unchanged, whatever follows it. */
  lemma {:induction false} ExpandLiteral(t: string, rest: string, env: map<string, string>)
    requires '$' !in t
    ensures ExpandEnvVars(t + rest, env) == t + ExpandEnvVars(rest, env)
  {
    if t != [] {
      var s := t + rest;
      assert s[0] == t[0] && t[0] in t;
      assert s[1..] == t[1..] + rest;
      assert ExpandEnvVars(s, env) == [t[0]] + ExpandEnvVars(s[1..], env);
      assert '$' !in t[1..] by {
        forall c | c in t[1..] ensures c != '$' { assert c in t; }
      }
      ExpandLiteral(t[1..], rest, env);
      assert t == [t[0]] + t[1..];
    } else {
      assert t + rest == rest;
    }
  }

  lemma ExpandBraced(name: string, rest: string, env: map<string, string>)
    requires name != [] && '}' !in name
    ensures ExpandEnvVars("${" + name + "}" + rest, env) == Getenv(env, name) + ExpandEnvVars(rest, env)
  {
    var s := "${" + name + "}" + rest;
    assert s[2..] == name + ['}'] + rest;
    IndexOfCharAfter(name, rest, '}');
    assert s[2..2 + |name|] == name;
    assert Reference(s) == Some((name, |name| + 3));
    assert s[3 + |name|..] == rest;
  }

  lemma {:induction false} NameEndOf(name: string, rest: string)
    requires forall j | 0 <= j < |name| :: IsNameChar(name[j])
    requires rest == [] || !IsNameChar(rest[0])
    ensures NameEnd(name + rest) == |name|
  {
    if name != [] {
      assert (name + rest)[1..] == name[1..] + rest;
      NameEndOf(name[1..], rest);
    }
  }

  lemma ExpandBare(name: string, rest: string, env: map<string, string>)
    requires IsName(name)
    requires rest == [] || !IsNameChar(rest[0])
    ensures ExpandEnvVars("$" + name + rest, env) == Getenv(env, name) + ExpandEnvVars(rest, env)
  {
    var s := "$" + name + rest;
    assert s[1..] == name + rest;
    NameEndOf(name, rest);
    assert s[0] == '$' && s[1] == name[0];
    assert s[1..1 + |name|] == name;
    assert Reference(s) == Some((name, |name| + 1));
    assert s[1 + |name|..] == rest;
  }

  lemma RenderHead(ps: seq<Piece>)
    requires ps != [] && PieceOk(ps[0])
    ensures Render(ps) != []
    ensures Render(ps)[0] == (if ps[0].Literal? then ps[0].text[0] else '$')
  {
    assert Render(ps) == RenderPiece(ps[0]) + Render(ps[1..]);
  }

  /**
   * Expansion substitutes exactly the references: rendering well-formed
   * pieces and expanding gives each reference's value (or "") in place and
   * every literal unchanged.
   */
  lemma {:induction false} ExpandRender(ps: seq<Piece>, env: map<string, string>)
    requires Template(ps)
    ensures ExpandEnvVars(Render(ps), env) == Substitute(ps, env)
  {
    if ps != [] {
      var rest := Render(ps[1..]);
      assert Template(ps[1..]) by {
        forall k | 0 <= k < |ps[1..]| ensures PieceOk(ps[1..][k]) { assert ps[1..][k] == ps[k + 1]; }
      }
      ExpandRender(ps[1..], env);
      assert PieceOk(ps[0]);
      match ps[0]
      case Literal(t) =>
        ExpandLiteral(t, rest, env);
      case Braced(name) =>
        assert Render(ps) == "${" + name + "}" + rest;
        ExpandBraced(name, rest, env);
      case Bare(name) =>
        assert Render(ps) == "$" + name + rest;
        if ps[1..] != [] {
          assert PieceOk(ps[1..][0]);
          RenderHead(ps[1..]);
        }
        ExpandBare(name, rest, env);
    }
  }

  /** "${}" is not a reference: it is copied as it stands. */
  lemma EmptyBracesKept(rest: string, env: map<string, string>)
    ensures ExpandEnvVars("${}" + rest, env) == "${}" + ExpandEnvVars(rest, env)
  {
    var s := "${}" + rest;
    assert s[2..][0] == '}' && IndexOfChar(s[2..], '}') == 0;
    assert !IsNameStart(s[1]);
    assert Reference(s) == None;
    assert s[1..] == "{}" + rest;
    ExpandLiteral("{}", rest, env);
  }

  /** A "${" never closed is copied as it stands. */
  lemma UnclosedBraceKept(t: string, env: map<string, string>)
    requires '$' !in t && '}' !in t
    ensures ExpandEnvVars("${" + t, env) == "${" + t
  {
    var s := "${" + t;
    assert s[2..] == t;
    assert !IsNameStart(s[1]);
    assert Reference(s) == None;
    assert s[1..] == "{" + t;
    ExpandLiteral("{" + t, [], env);
    assert "{" + t + [] == "{" + t;
  }

  // ----- create_agents -----

  /** mapping.get(key, default) on a YAML value: AttributeError when it is not a mapping. */
  function Get(v: Value, key: string, default: Value): (r: Result<Value>)
    ensures r.Ok? <==> v.VDict?
    ensures r.Err? ==> r.error.kind == AttributeError
    ensures v.VDict? && key in v.entries ==> r == Ok(v.entries[key])
    ensures v.VDict? && key !in v.entries ==> r == Ok(default)
  {
    if !v.VDict? then Err(Error(AttributeError, "object has no attribute 'get'"))
    else if key in v.entries then Ok(v.entries[key])
    else Ok(default)
  }

  /** The settings of an agent whose `enabled` entry is truthy; None when it is disabled or absent. */
  function EnabledSettings(section: Value, key: string): Result<Option<Dict>> {
    match Get(section, key, VDict(map[]))
    case Err(e) => Err(e)
    case Ok(entry) =>
      match Get(entry, "enabled", VBool(false))
      case Err(e) => Err(e)
      case Ok(flag) => Ok(if Truthy(flag) then Some(entry.entries) else None)
  }

  /** The agent's configuration copy with its name set to the key. */
  function Named(settings: Dict, key: string): (d: Dict)
    ensures "name" in d && d["name"] == VStr(key)
  {
    settings["name" := VStr(key)]
  }

  /**
   * The agents built for the keys in order: an enabled agent whose
   * constructor succeeds (`builds`) is added under its key; one whose
   * constructor raises is skipped with a warning.
   */
  function BuildAgents(section: Value, keys: seq<string>, builds: (string, Dict) -> bool): Result<seq<(string, Dict)>> {
    if keys == [] then Ok([])
    else
      match EnabledSettings(section, keys[0])
      case Err(e) => Err(e)
      case Ok(settings) =>
        var first := if settings.Some? && builds(keys[0], Named(settings.value, keys[0]))
                     then [(keys[0], Named(settings.value, keys[0]))] else [];
        match BuildAgents(section, keys[1..], builds)
        case Err(e) => Err(e)
        case Ok(more) => Ok(first + more)
  }

  const AgentKeys: seq<string> := ["claude", "gemini"]

  /** create_agents(config): RuntimeError when no agent could be created. */
  function CreateAgents(config: Value, builds: (string, Dict) -> bool): (r: Result<seq<(string, Dict)>>)
    ensures r.Ok? ==> r.value != []
  {
    match Get(config, "agents", VDict(map[]))
    case Err(e) => Err(e)
    case Ok(section) =>
      match BuildAgents(section, AgentKeys, builds)
      case Err(e) => Err(e)
      case Ok(agents) =>
        if agents == [] then Err(Error(RuntimeError, "No agents could be created. Please check your configuration and ensure API keys are set."))
        else Ok(agents)
  }

  function NamesOf(agents: seq<(string, Dict)>): (ns: seq<string>)
    ensures |ns| == |agents| && forall k | 0 <= k < |agents| :: ns[k] == agents[k].0
  {
    if agents == [] then [] else [agents[0].0] + NamesOf(agents[1..])
  }

  /**
   * An agent is built exactly when its key is listed, it is enabled and its
   * constructor succeeds; each is configured with its own key as name, in
   * key order, so each key at most once.
   */
  lemma {:induction false} BuildAgentsSpec(section: Value, keys: seq<string>, builds: (string, Dict) -> bool)
    requires BuildAgents(section, keys, builds).Ok?
    ensures forall name | name in keys :: EnabledSettings(section, name).Ok?
    ensures var agents := BuildAgents(section, keys, builds).value;
      && (forall k | 0 <= k < |agents| :: EnabledSettings(section, agents[k].0).Ok?
            && EnabledSettings(section, agents[k].0).value.Some?
            && agents[k].1 == Named(EnabledSettings(section, agents[k].0).value.value, agents[k].0))
      && (forall name :: name in NamesOf(agents) <==>
           (name in keys && EnabledSettings(section, name).Ok? && EnabledSettings(section, name).value.Some?
            && builds(name, Named(EnabledSettings(section, name).value.value, name))))
      && |agents| <= |keys|
  {
    if keys != [] {
      BuildAgentsSpec(section, keys[1..], builds);
      var agents := BuildAgents(section, keys, builds).value;
      var more := BuildAgents(section, keys[1..], builds).value;
      var settings := EnabledSettings(section, keys[0]).value;
      var first := if settings.Some? && builds(keys[0], Named(settings.value, keys[0]))
                   then [(keys[0], Named(settings.value, keys[0]))] else [];
      assert agents == first + more;
      assert NamesOf(agents) == NamesOf(first) + NamesOf(more);
      assert keys == [keys[0]] + keys[1..];
    }
  }

  /** The agents section is read before anything is built: a settings entry that is not a mapping raises AttributeError. */
  lemma BuildAgentsFails(section: Value, keys: seq<string>, builds: (string, Dict) -> bool, k: nat)
    requires k < |keys| && EnabledSettings(section, keys[k]).Err?
    ensures BuildAgents(section, keys, builds).Err?
    ensures BuildAgents(section, keys, builds).error.kind == AttributeError
  {
    if k > 0 {
      assert keys[1..][k - 1] == keys[k];
      BuildAgentsFails(section, keys[1..], builds, k - 1);
    }
  }

  // ----- the primary agent -----

  /**
   * `agent or config.get('default_orchestrator', 'claude')`: the --agent
   * option when given and non-empty, else the configured default, else
   * "claude"; a configured value that is not a string can never name an agent.
   */
  function RequestedPrimary(agent: Option<string>, config: Dict): Option<string> {
    if agent.Some? && agent.value != [] then agent
    else if "default_orchestrator" !in config then Some("claude")
    else if config["default_orchestrator"].VStr? then Some(config["default_orchestrator"].s)
    else None
  }

  /** The primary agent: the requested one when it was created, else the first created agent. */
  function Primary(agent: Option<string>, config: Dict, created: seq<string>): (p: string)
    requires created != []
    ensures p in created
  {
    var wanted := RequestedPrimary(agent, config);
    if wanted.Some? && wanted.value in created then wanted.value else created[0]
  }

  /** A non-empty --agent naming a created agent always wins. */
  lemma AgentOptionWins(agent: string, config: Dict, created: seq<string>)
    requires agent != [] && agent in created
    ensures Primary(Some(agent), config, created) == agent
  {
  }

  /** Without --agent, the configured default is used when it was created, and the first created agent otherwise. */
  lemma ConfiguredDefault(config: Dict, created: seq<string>, name: string)
    requires created != [] && "default_orchestrator" in config && config["default_orchestrator"] == VStr(name)
    ensures name in created ==> Primary(None, config, created) == name
    ensures name !in created ==> Primary(None, config, created) == created[0]
    ensures Primary(Some(""), config, created) == Primary(None, config, created)
  {
  }

  // ----- one exchange of the interactive loop -----

  function UserTurn(input: string, agent: string, now: DateTime): Turn {
    Turn("user", input, agent, now, 0, 0.0)
  }

  /** self.session.conversation.append(turn) */
  method PushTurn(orch: O.Orchestrator, t: Turn)
    requires orch.Valid() && orch.session != null && TurnValid(t)
    modifies orch.session
    ensures orch.Valid()
    ensures orch.session.Record() == old(orch.session.Record()).(conversation := old(orch.session.conversation) + [t])
  {
    var s := orch.session;
    s.conversation := s.conversation + [t];
    assert TurnsValid(s.conversation) by {
      assert forall i | 0 <= i < |s.conversation| - 1 :: s.conversation[i] == old(s.conversation)[i];
    }
  }

  /** self.session.conversation.pop(): the turn pushed last is removed again. */
  method PopTurn(orch: O.Orchestrator, ghost before: SessionRecord, t: Turn)
    requires orch.Valid() && orch.session != null
    requires orch.session.Record() == before.(conversation := before.conversation + [t])
    modifies orch.session
    ensures orch.Valid() && orch.session.Record() == before
  {
    var s := orch.session;
    s.conversation := s.conversation[..|s.conversation| - 1];
    assert s.conversation == before.conversation;
  }

  /** save_session on the orchestrator's session. */
  method SaveCurrent(orch: O.Orchestrator, registry: SessionRegistry, now: DateTime)
    requires orch.Valid() && orch.session != null && Clock.Valid(now)
    modifies orch.session, registry
    ensures orch.Valid()
    ensures orch.session.Record() == old(orch.session.Record()).(lastActive := now)
    ensures registry.files == old(registry.files)[orch.session.workspace := SessionToDict(orch.session.Record())]
  {
    registry.SaveSession(orch.session, now);
  }

  /**
   * A non-command line: the user turn is appended, the task executed, and
   * the session saved on success; when execution raises, the user turn is
   * popped again and nothing is saved, so the session is as it was.
   */
  method Exchange(input: string, orch: O.Orchestrator, registry: SessionRegistry,
                  outcome: Result<AgentResult>, now: DateTime) returns (r: Result<string>)
    requires orch.Valid() && orch.session != null && Clock.Valid(now)
    modifies orch.session, registry
    ensures orch.Valid()
    ensures outcome.Err? ==> (r == Err(outcome.error)
      && orch.session.Record() == old(orch.session.Record())
      && registry.files == old(registry.files))
    ensures outcome.Ok? ==> (r == Ok(outcome.value.response)
      && orch.session.Record()
        == WithTurn(old(orch.session.Record()).(conversation := old(orch.session.conversation)
             + [UserTurn(input, orch.primaryName, now)]), O.AssistantTurn(outcome.value, now)).(lastActive := now)
      && registry.files == old(registry.files)[orch.session.workspace := SessionToDict(orch.session.Record())])
  {
    ghost var before := orch.session.Record();
    var user := UserTurn(input, orch.primaryName, now);
    PushTurn(orch, user);
    r := orch.Execute(input, "single", outcome, now);
    if r.Ok? {
      SaveCurrent(orch, registry, now);
    } else {
      PopTurn(orch, before, user);
    }
  }

  // ----- slash commands -----

  /** command[1:] */
  function DropFirst(command: string): string {
    if command == [] then [] else command[1..]
  }

  /**
   * The command word and arguments as handle_slash_command reads them:
   * `parts[0]` of the split raises IndexError when nothing follows the "/".
   */
  function SlashWordsAsWritten(command: string): (r: Result<(string, string)>)
    ensures r.Err? <==> Words(DropFirst(command)) == []
    ensures r.Err? ==> r.error.kind == IndexError
  {
    var parts := SplitOnce(DropFirst(command));
    if parts == [] then Err(Error(IndexError, "list index out of range"))
    else Ok((Lower(parts[0]), if |parts| > 1 then parts[1] else ""))
  }

  /**
   * The command word, lowercased, and the rest of the line as arguments ("" when
   * there is none); a bare "/" reads as the empty, unknown command.
   */
  function SlashWords(command: string): (string, string) {
    var parts := SplitOnce(DropFirst(command));
    if parts == [] then ("", "")
    else (Lower(parts[0]), if |parts| > 1 then parts[1] else "")
  }

  /** The corrected reading agrees with the written one wherever that does not raise. */
  lemma SlashWordsAgree(command: string)
    ensures SlashWordsAsWritten(command).Ok? ==> SlashWords(command) == SlashWordsAsWritten(command).value
    ensures SlashWordsAsWritten(command).Err? ==> SlashWords(command) == ("", "")
  {
  }

  lemma AllSpaceNoWords(w: string)
    requires forall i | 0 <= i < |w| :: IsSpace(w[i])
    ensures Words(w) == []
  {
  }

  /**
   * A line that is a "/" followed only by whitespace passes the loop's
   * blank-line test and the "/" test, and the command split then raises
   * IndexError, which nothing in the loop catches.
   */
  lemma BareSlashRaises(w: string)
    requires forall i | 0 <= i < |w| :: IsSpace(w[i])
    ensures var line := "/" + w;
      && Strip(line) != [] && line[0] == '/'
      && SlashWordsAsWritten(line).Err? && SlashWordsAsWritten(line).error.kind == IndexError
  {
    var line := "/" + w;
    assert DropFirst(line) == w;
    AllSpaceNoWords(w);
    assert !IsSpace(line[0]);
    assert TrimLeft(line) == line;
  }

  /** The slash commands handle_slash_command knows; any other word is `Other`. */
  datatype Command = Switch | ListAgents | ShowContext | Save | Clear | Help | Quit | Other

  /** The command a (lowercased) command word names; "exit" and "quit" are the same command. */
  function CommandOf(word: string): Command {
    if word == "switch" then Switch
    else if word == "agents" then ListAgents
    else if word == "context" then ShowContext
    else if word == "save" then Save
    else if word == "clear" then Clear
    else if word == "help" then Help
    else if word == "exit" || word == "quit" then Quit
    else Other
  }

  /** Only the eight command words name a command; /exit and /quit both end the loop. */
  lemma CommandWords(word: string)
    ensures CommandOf(word) == Quit <==> word == "exit" || word == "quit"
    ensures CommandOf(word) == Other <==> word !in ["switch", "agents", "context", "save", "clear", "help", "exit", "quit"]
    ensures CommandOf(word) == Switch <==> word == "switch"
    ensures CommandOf(word) == Clear <==> word == "clear"
    ensures CommandOf(word) == Save <==> word == "save"
  {
  }

  /** What a slash command did, besides the state changes its contract states. */
  datatype SlashReply =
    | SwitchUsage
    | Switched(agent: string)
    | SwitchFailed(error: Error)
    | ListedAgents
    | ShowedContext
    | Saved
    | Cleared
    | ShowedHelp
    | Unknown(cmd: string)

  /** The registry's switch_primary_agent on the orchestrator's session: it records the agent and saves. */
  method RecordSwitch(orch: O.Orchestrator, registry: SessionRegistry, name: string, now: DateTime)
    requires orch.Valid() && orch.session != null && Clock.Valid(now)
    modifies orch.session, registry
    ensures orch.Valid()
    ensures orch.session.Record() == old(orch.session.Record()).(primaryAgent := name, lastActive := now)
    ensures registry.files == old(registry.files)[orch.session.workspace := SessionToDict(orch.session.Record())]
  {
    registry.SwitchPrimaryAgent(orch.session, name, now);
  }

  /**
   * /switch: without an agent name only the usage is shown; otherwise the
   * orchestrator switches to the stripped name and the registry records the
   * new primary agent and saves, or the orchestrator's ValueError is shown
   * and nothing changes.
   */
  method SwitchCommand(args: string, orch: O.Orchestrator, registry: SessionRegistry, now: DateTime)
    returns (r: SlashReply)
    requires orch.Valid() && orch.session != null && Clock.Valid(now)
    modifies orch, orch.agents.Values, orch.contexts, orch.session, registry
    ensures orch.Valid()
    ensures args == [] ==> r == SwitchUsage
    ensures args != [] ==> (Strip(args) in orch.agents <==> r == Switched(Strip(args)))
    ensures args != [] && Strip(args) in orch.agents ==> (orch.primaryName == Strip(args)
      && orch.session.Record() == old(orch.session.Record()).(primaryAgent := Strip(args), lastActive := now)
      && registry.files == old(registry.files)[orch.session.workspace := SessionToDict(orch.session.Record())])
    ensures !(args != [] && Strip(args) in orch.agents) ==> (orch.primaryName == old(orch.primaryName)
      && orch.session.Record() == old(orch.session.Record())
      && registry.files == old(registry.files))
  {
    if args == [] {
      return SwitchUsage;
    }
    var name := Strip(args);
    var switched := orch.SwitchOrchestrator(name);
    if switched.Err? {
      return SwitchFailed(switched.error);
    }
    RecordSwitch(orch, registry, name, now);
    r := Switched(name);
  }

  /** /clear: the conversation is emptied, both totals are zeroed and the session is saved. */
  method ClearCommand(orch: O.Orchestrator, registry: SessionRegistry, now: DateTime)
    requires orch.Valid() && orch.session != null && Clock.Valid(now)
    modifies orch.session, registry
    ensures orch.Valid()
    ensures orch.session.Record()
      == old(orch.session.Record()).(conversation := [], totalTokens := 0, totalCost := 0.0, lastActive := now)
    ensures registry.files == old(registry.files)[orch.session.workspace := SessionToDict(orch.session.Record())]
  {
    var s := orch.session;
    s.Assign(s.Record().(conversation := [], totalTokens := 0, totalCost := 0.0));
    SaveCurrent(orch, registry, now);
  }

  /**
   * The other commands: /exit and /quit raise KeyboardInterrupt; /clear
   * empties the conversation, zeroes both totals and saves; /save saves;
   * the listing commands and unknown ones change nothing.
   */
  method SessionCommand(c: Command, word: string, orch: O.Orchestrator, registry: SessionRegistry, now: DateTime)
    returns (r: Result<SlashReply>)
    requires orch.Valid() && orch.session != null && Clock.Valid(now) && c != Switch
    modifies orch.session, registry
    ensures orch.Valid()
    ensures r.Err? <==> c == Quit
    ensures r.Err? ==> r.error.kind == KeyboardInterrupt
    ensures c == Clear ==> (r == Ok(Cleared)
      && orch.session.Record()
        == old(orch.session.Record()).(conversation := [], totalTokens := 0, totalCost := 0.0, lastActive := now)
      && registry.files == old(registry.files)[orch.session.workspace := SessionToDict(orch.session.Record())])
    ensures c == Save ==> (r == Ok(Saved)
      && orch.session.Record() == old(orch.session.Record()).(lastActive := now)
      && registry.files == old(registry.files)[orch.session.workspace := SessionToDict(orch.session.Record())])
    ensures c != Clear && c != Save ==> (orch.session.Record() == old(orch.session.Record())
      && registry.files == old(registry.files))
    ensures c == Other ==> r == Ok(Unknown(word))
  {
    match c {
      case ListAgents => r := Ok(ListedAgents);
      case ShowContext => r := Ok(ShowedContext);
      case Save =>
        SaveCurrent(orch, registry, now);
        r := Ok(Saved);
      case Clear =>
        ClearCommand(orch, registry, now);
        r := Ok(Cleared);
      case Help => r := Ok(ShowedHelp);
      case Quit => r := Err(Error(KeyboardInterrupt, ""));
      case Other => r := Ok(Unknown(word));
    }
  }

  /** handle_slash_command: the command word picks /switch or one of the other commands. */
  method HandleSlash(command: string, orch: O.Orchestrator, registry: SessionRegistry, now: DateTime)
    returns (r: Result<SlashReply>)
    requires orch.Valid() && orch.session != null && Clock.Valid(now)
    modifies orch, orch.agents.Values, orch.contexts, orch.session, registry
    ensures orch.Valid()
    ensures r.Err? <==> CommandOf(SlashWords(command).0) == Quit
    ensures r.Err? ==> (r.error.kind == KeyboardInterrupt
      && orch.session.Record() == old(orch.session.Record()) && registry.files == old(registry.files))
    ensures CommandOf(SlashWords(command).0) != Switch ==> orch.primaryName == old(orch.primaryName)
  {
    var (word, args) := SlashWords(command);
    var c := CommandOf(word);
    if c == Switch {
      var reply := SwitchCommand(args, orch, registry, now);
      r := Ok(reply);
    } else {
      r := SessionCommand(c, word, orch, registry, now);
    }
  }

  /**
   * One pass of the interactive loop over a line the user typed: blank
   * lines are skipped, "/" lines go to the slash commands, anything else is
   * an exchange. KeyboardInterrupt from /exit or /quit saves the session
   * and ends the loop (`more` false).
   */
  method Step(input: string, orch: O.Orchestrator, registry: SessionRegistry,
              outcome: Result<AgentResult>, now: DateTime) returns (more: bool)
    requires orch.Valid() && orch.session != null && Clock.Valid(now)
    modifies orch, orch.agents.Values, orch.contexts, orch.session, registry
    ensures orch.Valid()
    ensures !more <==> (Strip(input) != [] && input[0] == '/' && CommandOf(SlashWords(input).0) == Quit)
    ensures Strip(input) == [] ==> (orch.session.Record() == old(orch.session.Record())
      && registry.files == old(registry.files))
    ensures !more ==> (orch.session.Record() == old(orch.session.Record()).(lastActive := now)
      && registry.files == old(registry.files)[orch.session.workspace := SessionToDict(orch.session.Record())])
    ensures Strip(input) != [] && input[0] != '/' && outcome.Err? ==> (orch.session.Record() == old(orch.session.Record())
      && registry.files == old(registry.files))
  {
    if Strip(input) == [] {
      return true;
    }
    assert input != [];
    if input[0] == '/' {
      var reply := HandleSlash(input, orch, registry, now);
      if reply.Err? {
        SaveCurrent(orch, registry, now);
        return false;
      }
      return true;
    }
    var r := Exchange(input, orch, registry, outcome, now);
    more := true;
  }
}

# brain-cli in Dafny

This project models the core of **brain-cli**, a command-line front end that
routes a user's tasks to several AI agents (an Anthropic-backed agent, a
Google-backed agent and a local coding agent). One agent acts as the primary
orchestrator. The model covers the bookkeeping and text logic around the API
calls:

- the keyword router and the Google agent's own intent table;
- the conversation `Turn`, the per-agent `Context` with its export/import
  hand-off, the `Session` record and the `SessionRegistry` that stores sessions
  and accumulates token and cost totals;
- both orchestrators: mode dispatch, the ten-turn context window, the session
  update after a result, `switch_orchestrator` and the boxed multi-result
  report with its greedy word wrap;
- the fleet manager's bounded table of agent instances and its FIFO overflow
  queue;
- the worktree manager's table with lock, unlock, remove and age-based cleanup,
  and the `git worktree list --porcelain` parser;
- the hook bus and the event records it carries;
- the analytics pipeline: CSV row normalisation for Jira and GitHub exports,
  the `Issue`/`PullRequest` post-init checks, label and month counting, and
  keyword sentiment;
- the CLI's configuration expansion, agent creation and primary selection,
  its interactive loop, and the REPL's command handling.

Each Python source file becomes one Dafny module. Shared building blocks live
in their own modules: `Wrappers` (Option/Result), `Text` (Python string
methods), `Values` (JSON/YAML-like values and dicts), `Clock` (naive
datetimes and ISO-8601 text), `Counters` (`collections.Counter`) and
`StrOrder` (Python's string ordering and `sorted`). Objects whose fields the
source updates in place are classes: the Context, the agents, the session
registry, the orchestrators, the fleet, worktree and hook managers, and the
REPL. Their methods carry `modifies` clauses. Records that are only built and
read are datatypes. Loops in the source are `while`/`for` loops with
invariants. Each one is proved against a recursive specification function,
and the properties of that function are proved as lemmas.

Calls into code outside the model become parameters of the operation:

- the LLM SDKs, `json.loads`, git subprocesses, the clock, uuid, the
  filesystem and YAML, and the interactive prompts;
- float formatting (`:.2f`, `:.4f`), which is passed in as a function.

Python exceptions are `Err` values of a `Result` with the exception's kind.

## Model

| member | source | states |
|---|---|---|
| Router.FirstHit | src/brain/router.py:47-52 | the position of the first intent in the order with a keyword in the text; no intent before it has one |
| Router.ClassifyIntent | src/brain/router.py:34-54 | each intent is returned exactly when the lower-cased task contains one of its keywords and none of the intents tried before it do; "general" exactly when none of the five prioritised intents has a hit |
| Router.ClassifyIgnoresCase | src/brain/router.py:44-51 | two tasks that differ only in letter case get the same intent |
| Router.DebugIsCode | src/brain/router.py:47-52 | a task mentioning "debug" is code whatever else it mentions, "search" included |
| Router.SelectAgent | src/brain/router.py:56-84 | fails (StopIteration) exactly on an empty registry; the result is always a registered agent; a non-empty registered preferred name wins; otherwise the intent's default agent when registered, else the first agent |
| Router.PreferredIgnoresTask | src/brain/router.py:70-71 | with a registered preferred agent the task plays no part in the selection |
| Router.ShouldUseMultiple | src/brain/router.py:86-101 | never asks for several agents |
| RouterExamples.ClassifyWriteFunction | tests/test_orchestrator.py:21-27 | "Write a Python function" is code |
| RouterExamples.ClassifyResearchQuantum | tests/test_orchestrator.py:21-27 | "Research quantum computing" is research |
| RouterExamples.ClassifyExplainHow | tests/test_orchestrator.py:21-27 | "Explain how this works" is analysis |
| RouterExamples.ClassifyDesignLogo | tests/test_orchestrator.py:21-27 | "Design a creative logo" is creative |
| RouterExamples.ClassifyGreeting | tests/test_orchestrator.py:21-27 | "Hello, how are you?" is general |
| AgentBase.MakeAgentResult | src/brain/agents/base.py:9-24 | after post-init the metadata is never None: a missing value becomes the empty dict, a given one is kept, and every other field is as passed |
| AgentBase.TurnToDict | src/brain/agents/base.py:58-66 | the dictionary has exactly the six keys role, content, agent, timestamp, tokens and cost |
| AgentBase.TimestampOf | src/brain/agents/base.py:69-70 | a parsed timestamp is the `fromisoformat` reading of a string entry, and a valid datetime |
| AgentBase.TurnOfFields | src/brain/agents/base.py:71 | `Turn(**data)` succeeds only on exactly the six keys, every field is its entry (the cost read as a number) and the parsed timestamp is kept; requiring each entry to hold its field's type is this model's restriction |
| AgentBase.TurnFromDict | src/brain/agents/base.py:68-71 | a turn parses only from a dict with exactly the six keys; its fields are the dict's entries, the timestamp being fromisoformat of its string and the cost its number |
| AgentBase.TurnRoundTrip | src/brain/agents/base.py:58-71 | `Turn.from_dict(t.to_dict())` gives back `t`, the timestamp going through isoformat |
| AgentBase.TurnsToDicts | src/brain/agents/base.py:85 | one dict per turn, in order |
| AgentBase.TurnsFromDicts | src/brain/agents/base.py:92 | on success one turn per item, in order, each the item's parse; a failure means some item fails to parse |
| AgentBase.TurnsRoundTrip | src/brain/agents/base.py:83-95 | parsing the exported turns gives back the turns in order |
| AgentBase.TurnsFromValue | src/brain/agents/base.py:92 | iterating the conversation entry yields only valid turns |
| AgentBase.ExportState | src/brain/agents/base.py:83-89 | `export` has exactly the keys conversation, memory, task and prefs, the last three holding the fields unchanged |
| AgentBase.DecodeContext | src/brain/agents/base.py:91-95 | `import_from` replaces all four fields, a missing key meaning empty; it fails exactly when the conversation entry does not parse |
| AgentBase.ExportImportRoundTrip | src/brain/agents/base.py:83-95 | importing an export reproduces the context exactly |
| AgentBase.ImportOfEmptyIsFresh | src/brain/agents/base.py:91-95 | importing a dict with none of the keys resets the context to a fresh one: full replacement, never a merge |
| AgentBase.Context.constructor | src/brain/agents/base.py:77-81 | a fresh context has no turns and empty memory, task and preferences |
| AgentBase.Context.Export | src/brain/agents/base.py:83-89 | the export is the export of the current state |
| AgentBase.Context.ImportFrom | src/brain/agents/base.py:91-95 | succeeds exactly when the data decodes, and then the state is the decoded one; on failure nothing changes |
| AgentBase.EstimateCost | src/brain/agents/base.py:168-171 | cost × 1000 = tokens × rate; 0 when no rate is configured; TypeError exactly when the rate is not a number |
| AgentBase.EstimateCostAdditive | src/brain/agents/base.py:168-171 | the estimate for a + b tokens is the sum of the estimates |
| AgentBase.ResolveApiKey | src/brain/agents/claude.py:18-20 | a key is found exactly when the configured one is truthy or the environment's is non-empty, the configured key winning; otherwise ValueError |
| AgentBase.ConversationTail | src/brain/agents/claude.py:69-70 | at most ten entries: the last ten of a conversation list, nothing when the key is missing |
| Agents.Agent.constructor | src/brain/agents/base.py:101-104 | the name comes from `config['name']` and the context starts fresh |
| Agents.Agent.ExportContext | src/brain/agents/claude.py:182-184 | the export of the agent's context |
| Agents.Agent.ImportContext | src/brain/agents/gemini.py:126-130 | succeeds exactly when the data decodes, and the context is then the decoded state; the Google agent drops its chat after a successful import; a failed import changes nothing |
| Agents.Agent.ImportFromAgent | src/brain/orchestrator.py:178-185 | the hand-off always succeeds, and this agent's context becomes the source's state |
| Agents.Agent.PrepareChat | src/brain/agents/gemini.py:31-34 | an open chat is reused with no history built; otherwise the history is built from the last ten turns, one entry per turn in order, and a chat is opened |
| Agents.CreateAgent | src/brain/agents/claude.py:15-20 | succeeds exactly when the name is a string (this model's restriction) and an API-backed kind finds a key; KeyError for a missing name, ValueError for a missing key; a new agent has a fresh context and no chat |
| ClaudeApi.MessageOf | src/brain/agents/claude.py:71-74 | the turn's role and content, "user" and "" when missing |
| ClaudeApi.BuildMessages | src/brain/agents/claude.py:64-82 | one message per turn of the last ten, in order, then the task as a user message; between 1 and 11 messages; fails exactly when the window is not a list of dicts |
| ClaudeApi.ExtractJsonUnfenced | src/brain/agents/claude.py:117-123 | the extracted text is always stripped, and a reply without a fence is only stripped |
| ClaudeApi.ExtractJsonFencedPiece | src/brain/agents/claude.py:120-123 | a fenced reply gives a fence-free piece of the text after its first "```json" marker, or after its first fence when there is no such marker |
| ClaudeApi.Cut | src/brain/agents/claude.py:121 | the piece cut out is stripped, occurs in the text and holds no fence |
| ClaudeApi.ExtractJsonFenced | src/brain/agents/claude.py:120-121 | a reply pre + "```json" + body + "```" + post, with no backticks in the three parts, yields the stripped body |
| ClaudeApi.PlanFields | src/brain/agents/claude.py:125-136 | a plan is read only when all six keys are present (and, as this model's restriction, of their field's type); the task and context are the caller's |
| ClaudeApi.FallbackPlan | src/brain/agents/claude.py:138-149 | the fallback plan: intent "general", complexity 0.5, this agent alone, no parallel run, 2000 tokens |
| ClaudeApi.CreateRoutingPlan | src/brain/agents/claude.py:84-149 | the parsed plan when the reply parses and has every key; the fallback when the call or parse fails or a key is missing |
| ClaudeApi.Synthesize | src/brain/agents/claude.py:151-180 | a single result is passed through unchanged; otherwise the model's reply, or the formatted results under the fixed heading when the call fails |
| ClaudeApi.AgentLine | src/brain/agents/claude.py:207 | each line starts "- name: " |
| ClaudeApi.FormatAgents | src/brain/agents/claude.py:202-208 | the text is the newline-join of one line per agent, in dict order |
| ClaudeApi.FormatAgentsLines | src/brain/agents/claude.py:202-208 | when no name or capability holds a newline, splitting the text at newlines gives back the agent lines in order |
| GeminiApi.HistoryEntryOf | src/brain/agents/gemini.py:68-72 | role "user" exactly when the turn's role is "user", "model" otherwise; the parts are the content, "" when missing |
| GeminiApi.BuildHistory | src/brain/agents/gemini.py:62-74 | at most ten entries, one per turn of the last ten, in order; fails exactly when the window is not a list of dicts |
| GeminiApi.EstimateTokens | src/brain/agents/gemini.py:76-78 | four times the estimate is the character count rounded down to a multiple of four |
| GeminiApi.ClassifyIntent | src/brain/agents/gemini.py:96-109 | each of code, research, analysis and creative is returned exactly when the lower-cased task hits its list and no earlier list; general otherwise |
| GeminiApi.BareHowIsAnalysis | src/brain/agents/gemini.py:104-105 | any task containing "how" or "why" without a code or research keyword is analysis |
| GeminiApi.NeverTerminal | src/brain/agents/gemini.py:96-109 | the Google agent never labels a task terminal |
| GeminiApi.CreateRoutingPlan | src/brain/agents/gemini.py:80-94 | the plan equals the Anthropic agent's fallback plan except for the intent, which is this agent's own classification |
| GeminiApi.Block | src/brain/agents/gemini.py:118 | each block starts "Response from <agent>:" and a newline |
| GeminiApi.Synthesize | src/brain/agents/gemini.py:111-120 | a single result is passed through; otherwise the blocks are joined, in order, with the separator |
| GeminiApi.SynthesizeKeepsEveryBlock | src/brain/agents/gemini.py:111-120 | with several results every result's block appears in the synthesis, and the first one leads it |
| Sessions.SessionDict | src/brain/session.py:53-65 | the session dictionary has exactly the nine keys, each holding its entry |
| Sessions.SessionToDict | src/brain/session.py:53-65 | `Session.to_dict` has exactly the nine keys |
| Sessions.DateField | src/brain/session.py:70-71 | a parsed date is the `fromisoformat` reading of a string entry, and a valid datetime |
| Sessions.SessionOfFields | src/brain/session.py:73 | `Session(**data)` succeeds only on exactly the nine keys, every scalar field is its entry (total_cost read as a number) and the parsed dates and turns are kept; requiring each entry to hold its field's type is this model's restriction |
| Sessions.SessionFromDict | src/brain/session.py:67-73 | a parsed session is valid and came from a dictionary with exactly the nine keys |
| Sessions.DatesRead | src/brain/session.py:59-71 | both saved dates read back as they were |
| Sessions.TurnsRead | src/brain/session.py:61-72 | the saved conversation reads back as the same turns, in order |
| Sessions.FieldsRead | src/brain/session.py:55-73 | the saved fields rebuild the same session |
| Sessions.SessionRoundTrip | src/brain/session.py:53-73 | `Session.from_dict(s.to_dict())` gives back `s`, every turn included and in order |
| Sessions.NewRecord | src/brain/session.py:100-115 | a new session has no turns, an empty context, zero totals, the given workspace and primary agent, and the id workspace + "_" + the compact timestamp; its totals match its (empty) turns |
| Sessions.WithTurn | src/brain/session.py:186-188 | the turn is appended at the end, its tokens and cost are added to the totals, and every other field is unchanged |
| Sessions.WithTurnKeepsTotals | src/brain/session.py:186-188 | adding a turn keeps the totals equal to the sums over the turns |
| Sessions.AddAllKeepsTotals | src/brain/session.py:186-188 | adding turns one by one appends them in order and keeps the totals equal to the sums over the turns |
| Sessions.TurnsFromFreshSession | src/brain/session.py:111-114 | a session made by `create_session` and then only `add_turn` holds exactly the added turns, and its totals are their sums |
| Sessions.OneTurnSurvivesReload | tests/test_orchestrator.py:146-164 | a fresh session with one turn added, saved and reloaded holds exactly that turn |
| Sessions.Session.constructor | src/brain/session.py:39-51 | the session object holds the given record |
| Sessions.SessionRegistry.constructor | src/brain/session.py:79-87 | a new registry starts with no session files and no backups |
| Sessions.SessionRegistry.SaveSession | src/brain/session.py:120-144 | last_active becomes now and nothing else in the session changes; session.json and the minute-stamped backup both hold the session's dictionary |
| Sessions.SessionRegistry.CreateSession | src/brain/session.py:89-118 | the new session is the fresh record, with totals matching its turns, and it is saved at once |
| Sessions.SessionRegistry.LoadSession | src/brain/session.py:146-164 | None when the workspace has no session file; otherwise the session read from it, failing exactly when the dictionary does not parse |
| Sessions.SessionRegistry.AddTurn | src/brain/session.py:178-189 | the turn is appended, the totals grow by its tokens and cost, the session is saved, and totals that matched the turns still match |
| Sessions.SessionRegistry.SwitchPrimaryAgent | src/brain/session.py:191-200 | only the primary agent changes, plus last_active on saving; conversation, context and totals are untouched |
| Orchestrator.BriefTurn | src/brain/orchestrator.py:146-150 | each turn handed to an agent carries exactly role, content and agent, copied from the turn |
| Orchestrator.Window | src/brain/orchestrator.py:144-150 | the window holds the last ten turns (all of them when fewer), oldest first, each in its brief form |
| Orchestrator.BuildContext | src/brain/orchestrator.py:133-158 | without a session the context is an empty conversation only; with one it has exactly conversation, workspace and session_context |
| Orchestrator.ContextFitsAgentWindow | src/brain/orchestrator.py:144-150 | the built conversation is a list of dictionaries no longer than the agents' own ten-turn window |
| Orchestrator.RecordResult | src/brain/orchestrator.py:86-99 | with a session, exactly one assistant turn for the result is appended and the totals grow by its tokens and cost, so matching totals stay matching; without one nothing changes |
| Orchestrator.SwitchBackRestores | src/brain/orchestrator.py:177-185 | re-importing an export of an imported export gives back the original context |
| Orchestrator.Orchestrator.constructor | src/brain/orchestrator.py:21-39 | the registry, names, session and primary agent are the ones given |
| Orchestrator.Orchestrator.ExecuteSingle | src/brain/orchestrator.py:64-101 | the primary agent is the one chosen; an agent error leaves the session as it was; a result returns its response and records one assistant turn with its tokens and cost |
| Orchestrator.Orchestrator.Execute | src/brain/orchestrator.py:41-131 | single runs one agent and adds its turn, or leaves the session as it was when the run fails; compare and parallel return their fixed placeholder without touching the session, any other mode is a ValueError |
| Orchestrator.Orchestrator.SwitchOrchestrator | src/brain/orchestrator.py:160-189 | succeeds exactly for a registered name; an unknown name changes nothing; otherwise the new primary holds the old primary's context and the session records the new name |
| Orchestrator.Orchestrator.SwitchAwayAndBack | src/brain/orchestrator.py:160-189 | switching to another agent and back restores the primary agent and its context |
| Orchestrator.NewOrchestrator | src/brain/orchestrator.py:36-39 | construction fails with ValueError exactly when the primary agent is not registered |
| OrchestratorV2.Boxed | src/brain/orchestrator_v2.py:300-303 | a wrapped line is its text padded to 68 characters (never cut) and closed by " │" |
| OrchestratorV2.Boxes | src/brain/orchestrator_v2.py:296-303 | one boxed line per group, in order |
| OrchestratorV2.GroupsKeepWords | src/brain/orchestrator_v2.py:294-303 | the emitted groups hold the group being built followed by the words still to come, in order |
| OrchestratorV2.WrapKeepsWords | src/brain/orchestrator_v2.py:294-303 | wrapping neither loses, duplicates nor reorders a word of line.split() |
| OrchestratorV2.GroupsFit | src/brain/orchestrator_v2.py:296-301 | every emitted group fits within 68 characters or is a single word |
| OrchestratorV2.WrapWidths | src/brain/orchestrator_v2.py:296-303 | every wrapped output line is exactly 70 characters unless it holds one word too long for the box |
| OrchestratorV2.GroupsGreedy | src/brain/orchestrator_v2.py:297-301 | every group after the first starts with a word that did not fit on the group before it |
| OrchestratorV2.WrapIsGreedy | src/brain/orchestrator_v2.py:297-301 | the wrapping of a long line is greedy |
| OrchestratorV2.BlankFirstBox | src/brain/orchestrator_v2.py:295-301 | the first box line is blank exactly when the first word is longer than 65 characters |
| OrchestratorV2.StripPiece | src/brain/orchestrator_v2.py:302-303 | the last line is emitted exactly when it holds a word |
| OrchestratorV2.WrapLine | src/brain/orchestrator_v2.py:293-303 | the wrapping loop emits exactly the boxed greedy groups of the line |
| OrchestratorV2.Rule | src/brain/orchestrator_v2.py:284 | a rule is 70 characters between its two corner characters |
| OrchestratorV2.AgentHeader | src/brain/orchestrator_v2.py:281 | the header line opens a box |
| OrchestratorV2.HeaderNamesAgent | src/brain/orchestrator_v2.py:281 | the header line contains "Agent i: name" |
| OrchestratorV2.ShortBox | src/brain/orchestrator_v2.py:290-291 | a short response line is kept whole after "│ ", padded with spaces to 66 characters and closed by " │", 70 in all |
| OrchestratorV2.LineBoxes | src/brain/orchestrator_v2.py:288-303 | every box line of a response line starts with "│" |
| OrchestratorV2.BodyLines | src/brain/orchestrator_v2.py:288-303 | every body line of a box starts with "│" |
| OrchestratorV2.BoxTop | src/brain/orchestrator_v2.py:280-285 | a box opens with its agent header followed by three lines that open no box |
| OrchestratorV2.Banner | src/brain/orchestrator_v2.py:272-277 | four lines before the boxes, none of them a box header |
| OrchestratorV2.Summary | src/brain/orchestrator_v2.py:308-317 | four lines after the boxes, the second the totals line, none of them a box header |
| OrchestratorV2.BoxBody | src/brain/orchestrator_v2.py:288-303 | the inner loop yields the box lines of every line of the response, in order |
| OrchestratorV2.BoxOf | src/brain/orchestrator_v2.py:279-305 | one pass of the outer loop yields the whole box of that result |
| OrchestratorV2.BoxesOf | src/brain/orchestrator_v2.py:279-305 | the outer loop yields one box per result, numbered from 1 in order |
| OrchestratorV2.FormatMultiResults | src/brain/orchestrator_v2.py:250-319 | no results give the fixed message, one result gives its response alone, more give the banner, the boxes and the summary joined by newlines |
| OrchestratorV2.BoxHeaders | src/brain/orchestrator_v2.py:280-305 | a result's box contains exactly one header line, its own |
| OrchestratorV2.BoxesHeaders | src/brain/orchestrator_v2.py:279-305 | the boxes hold one header per result, numbered 1 to n in input order |
| OrchestratorV2.LayoutHeaders | src/brain/orchestrator_v2.py:265-319 | the formatted output holds exactly one box header per result, numbered 1 to n in input order |
| OrchestratorV2.LayoutNamesAgents | src/brain/orchestrator_v2.py:265-319 | the joined text names every agent as "Agent i: name" |
| OrchestratorV2.LayoutTotals | src/brain/orchestrator_v2.py:307-317 | the totals line is the third line from the end |
| OrchestratorV2.TotalTokensAppend | src/brain/orchestrator_v2.py:309 | the token total is additive over the results |
| OrchestratorV2.Dispatch | src/brain/orchestrator_v2.py:76-121 | single runs one agent; multi runs n agents and is a ValueError without n; auto fails only when the routing plan fails; any other mode is a ValueError; only multi runs several agents |
| OrchestratorV2.AutoRunsSingle | src/brain/orchestrator_v2.py:106-118 | in auto mode one agent runs whatever the plan says |
| OrchestratorV2.Workspace | src/brain/orchestrator_v2.py:56 | a missing or empty workspace path means the current directory, otherwise the path given |
| OrchestratorV2.AgentConfig | src/brain/orchestrator_v2.py:408-410 | the copied configuration keeps every other entry and has its name and workspace_path overwritten |
| OrchestratorV2.AgnosticOrchestrator.constructor | src/brain/orchestrator_v2.py:54-74 | the primary agent is fresh, built from its configuration with the raw workspace argument, and has an empty context |
| OrchestratorV2.AgnosticOrchestrator.BuildContext | src/brain/orchestrator_v2.py:343-368 | the loop builds the same context as the first orchestrator's _build_context |
| OrchestratorV2.AgnosticOrchestrator.UpdateSession | src/brain/orchestrator_v2.py:370-388 | with a session, one assistant turn is appended and the totals grow, so matching totals stay matching |
| OrchestratorV2.AgnosticOrchestrator.SwitchOrchestrator | src/brain/orchestrator_v2.py:390-420 | succeeds exactly for a configured name; an unknown name changes nothing; otherwise a fresh primary agent with the orchestrator's workspace holds the old context and the session records the new name |
| OrchestratorV2.AgnosticOrchestrator.SwitchAwayAndBack | src/brain/orchestrator_v2.py:390-420 | switching away and back restores the primary name and the conversation context; the session is as it was except that its primary agent is the home agent again |
| OrchestratorV2.NewAgnosticOrchestrator | src/brain/orchestrator_v2.py:54-74 | construction fails with ValueError exactly when the primary name has no configuration; the workspace defaults to the current directory |
| Fleet.AgentNameOf | src/brain/fleet.py:151-156 | the name is read exactly when config has a string "name"; a missing one is a KeyError |
| Fleet.AgentId | src/brain/fleet.py:151 | the id is the agent name, a dash and the eight hex digits of the suffix |
| Fleet.Outcome | src/brain/fleet.py:223-252 | a result makes the instance COMPLETED with it, an exception FAILED with its message; both record the completion time and nothing else changes |
| Fleet.Recorded | src/brain/fleet.py:200-252 | the outcome is recorded on the instance when it is in the table, and no other instance changes |
| Fleet.Poll | src/brain/fleet.py:316-336 | an unknown id raises ValueError, a failed agent RuntimeError, a completed one yields its result, and only a nonzero timeout that has passed raises TimeoutError; otherwise polling goes on |
| Fleet.WaitSeesResult | src/brain/fleet.py:318-327 | once a run records its result, waiting returns exactly that result |
| Fleet.WaitSeesFailure | src/brain/fleet.py:318-327 | once a run fails, waiting raises RuntimeError |
| Fleet.ShutdownNeverResolves | src/brain/fleet.py:318-336 | waiting for a shut-down agent never yields a result: it ends only by a timeout, and never without one |
| Fleet.ShutdownLeavesRunning | src/brain/fleet.py:373-378 | shutting an agent down takes it, and only it, out of the running count |
| Fleet.SpawnedInOrderGrows | src/brain/fleet.py:273-277 | one more task spawned from the queue keeps the spawned ids in queue order |
| Fleet.FleetManager.constructor | src/brain/fleet.py:66-76 | the fleet starts with no active agents and an empty queue |
| Fleet.FleetManager.Spawn | src/brain/fleet.py:121-186 | at capacity the task is queued at the back and None returned; otherwise a missing name raises and changes nothing, and a named task is filed as one SPAWNING instance under its id; the table never exceeds max_concurrent |
| Fleet.FleetManager.Start | src/brain/fleet.py:200-205 | an id no longer in the table raises KeyError; otherwise only that instance becomes RUNNING |
| Fleet.FleetManager.Finish | src/brain/fleet.py:200-271 | the outcome is recorded on the instance, then the queue is drained; every instance not spawned over is kept as recorded |
| Fleet.FleetManager.SpawnFront | src/brain/fleet.py:276-277 | the front task leaves the queue and is spawned under its id; every other instance is kept |
| Fleet.FleetManager.ProcessQueue | src/brain/fleet.py:273-277 | tasks are spawned from the front in queue order until the queue is empty or the fleet is full; a spawning error stops the drain with that task removed |
| Fleet.FleetManager.RunningCount | src/brain/fleet.py:294-299 | the running count never exceeds the number of active instances |
| Fleet.FleetManager.ListAgentsByProject | src/brain/fleet.py:287-292 | exactly the project's instances, each once |
| Fleet.FleetManager.CleanupCompleted | src/brain/fleet.py:359-368 | exactly the COMPLETED, FAILED and SHUTDOWN instances are removed and the others kept unchanged |
| Fleet.FleetManager.ShutdownAgent | src/brain/fleet.py:373-378 | a present instance becomes SHUTDOWN, an unknown id changes nothing, and no other instance changes |
| Fleet.FleetManager.ShutdownAll | src/brain/fleet.py:380-383 | every instance becomes SHUTDOWN and stays in the table |
| Worktrees.PathJoin | src/brain/worktree.py:103-106 | joining a relative component adds one slash unless the base already ends in one; an absolute component replaces the base |
| Worktrees.SlashEnd | src/brain/worktree.py:185 | the position just after the last slash, with no slash after it |
| Worktrees.TrimSlashes | src/brain/worktree.py:185 | the trimmed path never ends in a slash |
| Worktrees.BranchName | src/brain/worktree.py:113-115 | the given branch, else "agent-" followed by the agent id |
| Worktrees.DirnameOfJoin | src/brain/worktree.py:185 | taking the dirname undoes joining one path component |
| Worktrees.RepoRootOfWorktree | src/brain/worktree.py:103-106 | the dirname of the dirname of a worktree's path is the root it was created under |
| Worktrees.Unlock | src/brain/worktree.py:211-215 | a tracked entry is unlocked and nothing else changes; an untracked id changes nothing |
| Worktrees.Removed | src/brain/worktree.py:164-209 | an untracked id or a locked worktree without force changes nothing; otherwise the entry goes exactly when git removed it, and no other entry changes |
| Worktrees.StaleIds | src/brain/worktree.py:239-248 | a cleanup only attempts tracked, unlocked worktrees |
| Worktrees.Swept | src/brain/worktree.py:235-249 | the table after a cleanup is still a valid table |
| Worktrees.SweepStep | src/brain/worktree.py:240-248 | each entry looked at is removed through remove_worktree when stale and kept otherwise |
| Worktrees.UnlockIdempotent | src/brain/worktree.py:211-215 | unlocking twice is unlocking once |
| Worktrees.LockedUntilUnlocked | src/brain/worktree.py:143-215 | a freshly created worktree cannot be removed without force until it is unlocked, and then a successful removal drops it |
| Worktrees.SweepKeeps | src/brain/worktree.py:242-248 | a cleanup keeps every locked or recent worktree unchanged |
| Worktrees.Flush | src/brain/worktree.py:283-298 | the record being built is emitted exactly when it is not empty |
| Worktrees.ListingsNonEmpty | src/brain/worktree.py:279-298 | the parse never yields an empty record |
| Worktrees.PathsAppend | src/brain/worktree.py:279-298 | the paths of two runs of records are the paths of each, in order |
| Worktrees.ListingPaths | src/brain/worktree.py:279-298 | every "worktree " line yields exactly one record with its path, in input order, and no other record has a path |
| Worktrees.FeedPaths | src/brain/worktree.py:281-296 | one line passes on the paths of the record before it and adds the path it names |
| Worktrees.WorktreeLinePath | src/brain/worktree.py:285-286 | a path that does not repeat the prefix is read back unchanged |
| Worktrees.ParsePorcelain | src/brain/worktree.py:279-298 | the line loop yields exactly the records of the porcelain output |
| Worktrees.ListWorktrees | src/brain/worktree.py:254-304 | nothing outside a repository or when git fails, otherwise the parsed records |
| Worktrees.WorktreeManager.constructor | src/brain/worktree.py:30-38 | no worktree is tracked at first |
| Worktrees.WorktreeManager.CreateWorktree | src/brain/worktree.py:75-162 | no repository or no root gives None; an existing directory gives its path untracked; a failed add gives None; otherwise the new worktree is tracked locked under the agent id with its branch and its path is returned |
| Worktrees.WorktreeManager.RemoveWorktree | src/brain/worktree.py:164-209 | the table becomes Removed of the old one |
| Worktrees.WorktreeManager.UnlockWorktree | src/brain/worktree.py:211-215 | the table becomes Unlock of the old one |
| Worktrees.WorktreeManager.CleanupOldWorktrees | src/brain/worktree.py:217-252 | nothing happens without a repository, its root or the worktree directory; otherwise exactly the stale worktrees are attempted and the table becomes Swept of the old one |
| Worktrees.WorktreeManager.SweepOne | src/brain/worktree.py:240-248 | one loop pass removes the entry when it is stale and leaves it otherwise |
| Worktrees.WorktreeManager.GetOrCreateWorktree | src/brain/worktree.py:306-348 | the repository path outside a repository or when creation fails, the tracked path for a tracked agent, otherwise the created path |
| Worktrees.WorktreeManager.GetOrCreateTwice | src/brain/worktree.py:306-348 | once an agent has a tracked worktree, asking again gives the same path |
| Worktrees.WorktreeManager.SyncWorktreeToMain | src/brain/worktree.py:350-425 | False for an untracked id; otherwise True exactly when the status ran and the tree is clean, or the later steps ran and the merge succeeded |
| Hooks.IndexOf | src/brain/observability/hooks.py:53 | the position of the first occurrence of the callback |
| Hooks.RemoveFirst | src/brain/observability/hooks.py:51-55 | a callback not in the list leaves it as it was; otherwise the list loses exactly one entry |
| Hooks.RemoveFirstCutsFirst | src/brain/observability/hooks.py:53 | exactly the first occurrence is cut out and the rest keeps its order |
| Hooks.RemoveFirstMultiset | src/brain/observability/hooks.py:53 | one copy of the callback leaves the list and the others stay |
| Hooks.RemoveFirstUndoesAppend | src/brain/observability/hooks.py:38-55 | unsubscribing a callback subscribed once undoes the subscription |
| Hooks.RemoveFirstKeepsLater | src/brain/observability/hooks.py:38-55 | for a callback subscribed twice, the earlier registration goes and the later one stays at the end |
| Hooks.FilterNext | src/brain/observability/hooks.py:71-76 | each subscriber joins exactly one of the plain and the coroutine lists |
| Hooks.SyncOnlyAppend | src/brain/observability/hooks.py:98-101 | the plain callbacks of two lists are those of each, in order |
| Hooks.AsyncOnlyAppend | src/brain/observability/hooks.py:71-75 | the coroutine callbacks of two lists are those of each, in order |
| Hooks.SyncAsyncPartition | src/brain/observability/hooks.py:71-84 | every subscriber is either called or gathered, exactly once |
| Hooks.WarningsNext | src/brain/observability/hooks.py:78-104 | one more called callback adds its warning exactly when it raised |
| Hooks.WarningsBounded | src/brain/observability/hooks.py:78-104 | at most one warning per called callback, each naming the event type |
| Hooks.NoRaiseNoWarnings | src/brain/observability/hooks.py:78-104 | when no callback raises, nothing is printed |
| Hooks.HookManager.constructor | src/brain/observability/hooks.py:23-27 | every event type starts with an empty list |
| Hooks.HookManager.Subscribe | src/brain/observability/hooks.py:29-41 | the callback goes at the end of its type's list and no other list changes |
| Hooks.HookManager.Unsubscribe | src/brain/observability/hooks.py:43-55 | the first registration of the callback goes; an unknown callback or type changes nothing, and no other list changes |
| Hooks.HookManager.EmitSync | src/brain/observability/hooks.py:86-104 | exactly the plain callbacks of the event's type are called, in order, and each raising one gives one warning without stopping the others |
| Hooks.HookManager.Emit | src/brain/observability/hooks.py:57-84 | the plain callbacks are called in order with one warning per raising one, and the coroutine callbacks are gathered in order |
| Hooks.MetadataOrEmpty | src/brain/observability/hooks.py:118-128 | the metadata stored is the one given, or an empty dictionary |
| Hooks.SpawnedDictKeys | src/brain/observability/hooks.py:108-150 | a spawned or started event's dictionary has only the base and the required agent keys |
| Hooks.CompletedDictKeys | src/brain/observability/hooks.py:152-180 | a completed event's dictionary carries tokens, cost, time and response, and no error message |
| Hooks.FailedDictKeys | src/brain/observability/hooks.py:182-204 | a failed event's dictionary carries the error message and no usage figures |
| Hooks.SpawnedHookRoundTrip | tests/test_observability.py:16-53 | one plain callback subscribed on a fresh manager receives exactly one AGENT_SPAWNED event with the agent id, and unsubscribing leaves the list empty |
| Events.EventTypesListed | src/brain/observability/events.py:18-27 | every member appears once in the declaration-order list of all eight |
| Events.EventTypeSnakeCase | src/brain/observability/events.py:18-27 | every member's value is snake_case |
| Events.EventTypeValueInjective | src/brain/observability/events.py:18-27 | distinct members have distinct values, so a stored value names one member |
| Events.BaseEntries | src/brain/observability/events.py:30-43 | the base part of the dictionary is the four keys event_type, timestamp, project and metadata, none of them None |
| Events.DetailEntries | src/brain/observability/events.py:46-99 | an agent event adds nine fields and a tool event five, whose first four are the required ones and never None |
| Events.Keys | src/brain/observability/events.py:38-43 | one key per entry |
| Events.DropNone | src/brain/observability/events.py:61-78 | no None value is left, and nothing is added |
| Events.DropNoneMember | src/brain/observability/events.py:61-78 | an entry survives exactly when it was there with a value other than None |
| Events.DropNoneKeepsPrefix | src/brain/observability/events.py:61-78 | a prefix without None values is kept whole |
| Events.DropNoneAppend | src/brain/observability/events.py:61-78 | dropping distributes over concatenation |
| Events.ToDictBase | src/brain/observability/events.py:38-102 | every kind's dictionary starts with the four base entries |
| Events.ToDictTimestampRoundTrip | src/brain/observability/events.py:42 | the stored timestamp string reads back as the event's timestamp |
| Events.RequiredEntriesKept | src/brain/observability/events.py:61-78 | an agent or tool event's dictionary has no None value and keeps the base entries and the four required fields |
| Events.AgentDictOptional | src/brain/observability/events.py:55-64 | an agent event's dictionary holds each optional field exactly when it is set |
| Events.ToolDictOptional | src/brain/observability/events.py:74-78 | a tool event's dictionary holds the error message exactly when one is set |
| Events.AgentDictKeys | src/brain/observability/events.py:46-64 | an agent event's keys are the base four, the required four, then each set optional field in declaration order |
| Events.ToolDictKeys | src/brain/observability/events.py:67-78 | a tool event's keys are the base four, the required four, then the error message when set |
| Events.FixedDictKeys | src/brain/observability/events.py:81-102 | worktree and session events keep all eight keys in declaration order |
| AnalyticsModels.Elapsed | src/brain/analytics/models.py:35-70 | subtracting a naive from an aware datetime, or the reverse, is a TypeError; otherwise a duration in seconds |
| AnalyticsModels.ElapsedAntisymmetric | src/brain/analytics/models.py:35-70 | going back in time gives the opposite duration |
| AnalyticsModels.ElapsedSameInstant | src/brain/analytics/models.py:35-70 | two aware datetimes naming the same UTC instant are no time apart |
| AnalyticsModels.DaysBetween | src/brain/analytics/models.py:34-70 | without an end the given value stays; with one, the elapsed seconds over 86400 replace it, and a naive/aware mix is a TypeError |
| AnalyticsModels.NewIssue | src/brain/analytics/models.py:8-36 | labels given as None become an empty list, time_to_resolve is derived from the resolution when there is one, every other field is kept, and a naive/aware mix raises TypeError |
| AnalyticsModels.NewPullRequest | src/brain/analytics/models.py:39-70 | reviewers and labels given as None become empty lists, time_to_merge is derived from the merge when there is one, every other field is kept, and a naive/aware mix raises TypeError |
| AnalyticsModels.ResolvedAfterWholeDays | src/brain/analytics/models.py:34-36 | an issue resolved exactly n days after creation resolves in n days |
| AnalyticsModels.ResolvedBeforeCreated | src/brain/analytics/models.py:34-36 | a resolution before creation gives a negative time_to_resolve, which the source does not reject |
| Parsers.Or | src/brain/analytics/parsers.py:42-48 | `a or b` is truthy exactly when one of them is, and is a when a is truthy |
| Parsers.OrElse | src/brain/analytics/parsers.py:44-45 | `a or default` is a when a is truthy, else the default |
| Parsers.KeepStripped | src/brain/analytics/parsers.py:58-59 | at most one item per piece, each non-empty and stripped |
| Parsers.SplitListItems | src/brain/analytics/parsers.py:58-59 | every listed item is non-empty, unpadded and free of commas |
| Parsers.SplitListRoundTrip | src/brain/analytics/parsers.py:58-59 | joining clean labels with commas and parsing the cell gives the labels back |
| Parsers.FirstFormat | src/brain/analytics/parsers.py:96-100 | the result is what some format gave, and there is none exactly when every format fails |
| Parsers.FirstFormatWins | src/brain/analytics/parsers.py:96-100 | a format that parses wins over every later one |
| Parsers.JiraDate | src/brain/analytics/parsers.py:80-104 | empty text or text no format accepts gives now(); the result is always naive |
| Parsers.IsoDatePartPrefix | src/brain/analytics/parsers.py:241-244 | with a 'T', the text parsed is the longest prefix holding neither '+' nor 'Z' |
| Parsers.IsoDatePartKeepsMinusOffset | src/brain/analytics/parsers.py:241-244 | a negative offset such as "-05:00" is not cut and reaches fromisoformat |
| Parsers.IsoDatePartWithoutT | src/brain/analytics/parsers.py:245-246 | without a 'T' the text is parsed unchanged |
| Parsers.IsoDate | src/brain/analytics/parsers.py:234-249 | empty or unparseable text gives now() (naive); otherwise what fromisoformat read from the cut text |
| Parsers.ParseInt | src/brain/analytics/parsers.py:251-256 | None for a missing or empty cell and for text int() rejects, otherwise int() of the text |
| Parsers.ParseIntRoundTrip | src/brain/analytics/parsers.py:251-256 | a cell holding str(n) reads back as n |
| Parsers.JiraRowKept | src/brain/analytics/parsers.py:38-78 | a Jira row is never dropped: all its datetimes are naive, so the subtraction cannot raise |
| Parsers.JiraRowFields | src/brain/analytics/parsers.py:42-73 | the id is the first non-empty of three columns, description and status have their defaults, and the other fields come from their columns |
| Parsers.JiraRowResolution | src/brain/analytics/parsers.py:54-68 | an issue is resolved, and has a time to resolve, exactly when a resolution column is non-empty |
| Parsers.JiraRowExample | tests/test_analytics.py:80-95 | a resolved row with a key, a summary and the labels "bug,authentication" parses to an issue with that id, title and both labels, and a time to resolve |
| Parsers.TwoItems | src/brain/analytics/parsers.py:59 | "a,b" reads as the two items a and b |
| Parsers.GitHubIssueRowFields | src/brain/analytics/parsers.py:158-183 | the id is '#' and the number column, the state defaults to "open", and the other fields come from their columns |
| Parsers.GitHubPrRowFields | src/brain/analytics/parsers.py:192-228 | a PR's id, state, author and reviewers come from their columns and its sizes through _parse_int |
| Parsers.GitHubIssueRowKept | src/brain/analytics/parsers.py:155-187 | a GitHub issue row is kept exactly when it has no closing date or its two datetimes are both naive or both aware |
| Parsers.Parsed | src/brain/analytics/parsers.py:31-34 | no more items than rows |
| Parsers.ParsedAppend | src/brain/analytics/parsers.py:31-34 | one more row adds its item when it parses, and nothing otherwise |
| Parsers.ParsedAll | src/brain/analytics/parsers.py:31-34 | when no row is dropped, the i-th item comes from the i-th row |
| Parsers.ParseRows | src/brain/analytics/parsers.py:31-34 | the loop keeps exactly the rows that parse, in file order |
| Parsers.JiraParse | src/brain/analytics/parsers.py:24-36 | every row becomes an issue, in order |
| Parsers.GitHubParseIssues | src/brain/analytics/parsers.py:127-139 | exactly the issue rows that parse, in file order |
| Parsers.GitHubParsePrs | src/brain/analytics/parsers.py:141-153 | exactly the PR rows that parse, in file order |
| Patterns.ClusterCount | src/brain/analytics/patterns.py:48-49 | the requested count when there are enough issues; otherwise at least 2 and about half the issues, fitting them when there are at least two and exceeding them when there are fewer |
| Patterns.CountLabels | src/brain/analytics/patterns.py:225-228 | the Counter of every label occurrence of every issue |
| Patterns.AllLabelsNext | src/brain/analytics/patterns.py:226-228 | one more issue adds its labels, in order |
| Patterns.CountCombos | src/brain/analytics/patterns.py:231-235 | the Counter of the sorted label tuples of the issues with more than one label |
| Patterns.ComboKeyIgnoresOrder | src/brain/analytics/patterns.py:234 | two issues with the same labels in any order share one combination |
| Patterns.CreatedMonths | src/brain/analytics/patterns.py:172 | one creation month per issue |
| Patterns.CountMonths | src/brain/analytics/patterns.py:168-177 | the Counters of the creation months and of the resolution months of the resolved issues |
| Patterns.MonthPatterns | src/brain/analytics/patterns.py:181-186 | one pattern per month with its created count and its resolved count, 0 when none |
| Patterns.Peak | src/brain/analytics/patterns.py:192 | the first pattern with the largest created count |
| Patterns.AnalyzeTemporalPatterns | src/brain/analytics/patterns.py:154-209 | the patterns are the monthly ones and total_months counts them; with patterns there are two insights, the peak month and the average of the last three months' created counts, and no patterns give no insight |
| Patterns.Recent | src/brain/analytics/patterns.py:197 | the last three patterns, or all of them when there are fewer, as a suffix of the list |
| Patterns.RecentAverageBounds | src/brain/analytics/patterns.py:191-202 | the recent average is never negative and never above the peak month's created count |
| Patterns.BuildMonthPatterns | src/brain/analytics/patterns.py:181-186 | the month loop appends one pattern per month, in order |
| Patterns.TemporalMonths | src/brain/analytics/patterns.py:168-186 | one pattern per distinct creation month, months strictly ascending |
| Patterns.TemporalResolved | src/brain/analytics/patterns.py:168-186 | each month's created and resolved counts are the numbers of issues created and resolved in it |
| Patterns.TemporalCreatedTotal | src/brain/analytics/patterns.py:168-186 | the created counts add up to the number of issues |
| Patterns.TemporalPeak | src/brain/analytics/patterns.py:191-196 | the peak month has the largest created count and is the earliest month with it |
| Patterns.SingleOf | src/brain/analytics/patterns.py:242-247 | a single-label pattern carries its label and its count |
| Patterns.Singles | src/brain/analytics/patterns.py:241-247 | one single-label pattern per top label, in order |
| Patterns.CombosOf | src/brain/analytics/patterns.py:250-255 | one combination pattern per top combination, in order |
| Patterns.AnalyzeLabels | src/brain/analytics/patterns.py:211-267 | the patterns are the ten most common labels then the five most common combinations, with the insight, unique-label count and summary |
| Patterns.SinglePatterns | src/brain/analytics/patterns.py:241-247 | the loop appends one single-label pattern per top label |
| Patterns.ComboPatterns | src/brain/analytics/patterns.py:250-255 | the loop appends one combination pattern per top combination |
| Patterns.LabelCounts | src/brain/analytics/patterns.py:225-228 | every label occurrence is counted, each distinct label once, and exactly the labels worn appear |
| Patterns.SinglesDescending | src/brain/analytics/patterns.py:241 | single-label patterns come by non-increasing count |
| Patterns.CombosDescending | src/brain/analytics/patterns.py:250 | combination patterns come by non-increasing count |
| Patterns.LabelPatternsKinds | src/brain/analytics/patterns.py:238-255 | at most ten single-label patterns come first, then at most five combinations |
| Patterns.LabelPatternsOrder | src/brain/analytics/patterns.py:238-255 | within each kind the patterns come by non-increasing count |
| Patterns.LabelInsightSpec | src/brain/analytics/patterns.py:257-260 | "No labels found" exactly when no issue carries a label, otherwise a label no other outnumbers |
| Patterns.CommonLabels | src/brain/analytics/patterns.py:269-276 | the labels of most_common(top_n) |
| Patterns.CommonLabelsSpec | src/brain/analytics/patterns.py:269-276 | at most top_n labels, distinct, each worn by some issue, by non-increasing count |
| Nlp.WordSet | src/brain/analytics/nlp.py:204-205 | exactly the whitespace-separated words of the lowercased title and description, each once |
| Nlp.PositiveHits | src/brain/analytics/nlp.py:207 | no more hits than positive keywords |
| Nlp.NegativeHits | src/brain/analytics/nlp.py:208 | no more hits than negative keywords |
| Nlp.Sentiment | src/brain/analytics/nlp.py:210-215 | the score lies in [-1, 1], is positive exactly when positive keywords outnumber negative ones, and negative exactly in the reverse case |
| Nlp.RatioBounds | src/brain/analytics/nlp.py:213 | a ratio whose numerator is no larger than its positive denominator lies in [-1, 1] and keeps the numerator's sign |
| Nlp.Classify | src/brain/analytics/nlp.py:220-222 | positive exactly above 0.2, negative exactly below -0.2, neutral otherwise |
| Nlp.Scores | src/brain/analytics/nlp.py:203-223 | one scored record per issue, in order |
| Nlp.CategoriesOf | src/brain/analytics/nlp.py:227 | the categories of the records, in order |
| Nlp.PatternsOf | src/brain/analytics/nlp.py:229-235 | one pattern per Counter entry, in first-seen order, with its category and count |
| Nlp.AnalyzeSentiment | src/brain/analytics/nlp.py:174-250 | an empty list raises ZeroDivisionError; otherwise the average of the scores, the category patterns, the two insights and the summary |
| Nlp.ScoreAll | src/brain/analytics/nlp.py:203-223 | the loop scores every issue, in order |
| Nlp.BuildPatterns | src/brain/analytics/nlp.py:229-235 | the comprehension builds one pattern per category entry |
| Nlp.FifthThreshold | src/brain/analytics/nlp.py:220-221 | comparing a ratio with 1/5 is comparing five times its numerator with its denominator |
| Nlp.ClassifyCounts | src/brain/analytics/nlp.py:207-222 | positive exactly when 2*pos > 3*neg, negative exactly when 2*neg > 3*pos, neutral otherwise |
| Nlp.OneFifthNeutral | src/brain/analytics/nlp.py:213-222 | a score of exactly 1/5 either way, such as three positive keywords against two negative, is neutral |
| Nlp.SameWordsSameScore | src/brain/analytics/nlp.py:205-208 | repeating a keyword does not change the score: only the set of words counts |
| Nlp.NoKeywordNeutral | src/brain/analytics/nlp.py:214-222 | an issue without any keyword scores 0 and is neutral |
| Nlp.SumBounds | src/brain/analytics/nlp.py:226 | the sum of n scores in [-1, 1] lies in [-n, n] |
| Nlp.AverageBounds | src/brain/analytics/nlp.py:226 | the average of scores in [-1, 1] lies in [-1, 1] |
| Nlp.ScoresBounded | src/brain/analytics/nlp.py:203-223 | every issue's score lies in [-1, 1] |
| Nlp.NoKeywordsReadNegative | src/brain/analytics/nlp.py:226-240 | issues without any keyword average 0, which the overall insight calls negative |
| Nlp.CategoryCounts | src/brain/analytics/nlp.py:227 | the Counter names each category once, its counts add up to the number of records, and each count is the number of records with that category |
| Nlp.PercentSum | src/brain/analytics/nlp.py:229-235 | the pattern counts add up to the Counter's total and the percentages to that total's share of the issues |
| Nlp.PatternsSpec | src/brain/analytics/nlp.py:227-235 | the patterns name each category once, their counts add up to the number of issues and their percentages to 100 |
| Cli.NameEnd | src/brain/cli.py:38 | the longest prefix of name characters: all of them are name characters and the next one is not |
| Cli.Reference | src/brain/cli.py:38 | a match starts with "$", is at least two characters long and names a non-empty variable |
| Cli.ExpandLiteral | src/brain/cli.py:33-38 | text without "$" is copied unchanged |
| Cli.ExpandBraced | src/brain/cli.py:34-38 | "${NAME}" is replaced by the variable's value, "" when unset |
| Cli.NameEndOf | src/brain/cli.py:38 | a bare name stops at the first character that cannot continue it |
| Cli.ExpandBare | src/brain/cli.py:34-38 | "$NAME" not followed by a name character is replaced by the variable's value, "" when unset |
| Cli.RenderHead | src/brain/cli.py:38 | a reference piece renders starting with "$", a literal with its own first character |
| Cli.ExpandRender | src/brain/cli.py:33-40 | expanding a text made of literals and references replaces every reference by its value and keeps every literal |
| Cli.EmptyBracesKept | src/brain/cli.py:38 | "${}" is not a reference and is copied as it stands |
| Cli.UnclosedBraceKept | src/brain/cli.py:38 | a "${" never closed is copied as it stands |
| Cli.Get | src/brain/cli.py:51-63 | get on a mapping gives the entry or the default; on anything else it raises AttributeError |
| Cli.Named | src/brain/cli.py:56-66 | the configuration copy names the agent after its key |
| Cli.CreateAgents | src/brain/cli.py:47-77 | a successful result holds at least one agent; none created is a RuntimeError |
| Cli.NamesOf | src/brain/cli.py:120-124 | the names of the created agents, in creation order |
| Cli.BuildAgentsSpec | src/brain/cli.py:53-69 | an agent is built exactly when its key is listed, it is enabled and its constructor succeeds; each is configured with its own key as name, in key order |
| Cli.BuildAgentsFails | src/brain/cli.py:54-63 | an agent entry that is not a mapping raises AttributeError |
| Cli.Primary | src/brain/cli.py:119-125 | the primary agent is always one that was created |
| Cli.AgentOptionWins | src/brain/cli.py:120 | a non-empty --agent naming a created agent is the primary agent |
| Cli.ConfiguredDefault | src/brain/cli.py:120-124 | without --agent the configured default is used when it was created, else the first created agent; an empty --agent counts as none |
| Cli.PushTurn | src/brain/cli.py:202 | the turn is appended to the conversation and nothing else changes |
| Cli.PopTurn | src/brain/cli.py:218 | the turn pushed last is removed and the session is as it was before |
| Cli.SaveCurrent | src/brain/cli.py:213 | last_active becomes now and the registry file holds the session's dictionary |
| Cli.Exchange | src/brain/cli.py:193-218 | on failure the session and the files are as they were; on success the user turn then the assistant turn are appended, the totals grow and the session is saved |
| Cli.SlashWordsAsWritten | src/brain/cli.py:232-234 | the split raises IndexError exactly when nothing but whitespace follows the "/" |
| Cli.SlashWords | src/brain/cli.py:232-234 | the lowercased command word and the rest of the line; a bare "/" reads as the empty, unknown command |
| Cli.SlashWordsAgree | src/brain/cli.py:232-234 | the corrected reading agrees with the written one wherever that does not raise |
| Cli.BareSlashRaises | src/brain/cli.py:183-233 | a "/" followed only by whitespace passes the blank-line and "/" tests and then raises IndexError |
| Cli.CommandWords | src/brain/cli.py:236-284 | only the eight command words name a command, and /exit and /quit are the same command |
| Cli.RecordSwitch | src/brain/cli.py:244 | the session records the new primary agent and is saved |
| Cli.SwitchCommand | src/brain/cli.py:236-247 | without an argument only the usage is shown; otherwise the switch succeeds exactly for a registered name, recording and saving it, and a failed switch changes nothing |
| Cli.ClearCommand | src/brain/cli.py:269-274 | the conversation is emptied, both totals are zeroed and the session is saved |
| Cli.SessionCommand | src/brain/cli.py:249-284 | /exit and /quit raise KeyboardInterrupt and change nothing; /clear clears and saves; /save saves; the other commands change nothing |
| Cli.HandleSlash | src/brain/cli.py:229-284 | KeyboardInterrupt exactly for /exit and /quit, and only /switch changes the primary agent |
| Cli.Step | src/brain/cli.py:179-226 | the loop stops exactly on /exit or /quit, saving the session; a blank line changes nothing; a failed exchange leaves the session and the files as they were |
| Repl.SuggestionChoice | src/brain/repl.py:158-211 | never auto; multi with a count exactly when the plan asks for several agents, the user accepts and the count answer reads as an int; single otherwise |
| Repl.DefaultRunsRecommended | src/brain/repl.py:192-208 | accepting with the default count runs as many agents as were recommended |
| Repl.TypedCountRuns | src/brain/repl.py:201-208 | accepting and typing the number n runs n agents |
| Repl.Resolve | src/brain/repl.py:222-229 | only asking for the routing plan in auto mode can fail; the settled mode is never auto |
| Repl.RouteIsDispatch | src/brain/repl.py:236-239 | execute_task's call takes the orchestrator's own route for the mode name it passes |
| Repl.AutoSingleUnlessAccepted | src/brain/repl.py:175-239 | in auto mode a plan that does not ask for several agents, or a declined one, runs one agent |
| Repl.AutoAcceptedDefault | src/brain/repl.py:192-237 | an accepted suggestion with the default count runs the recommended number of agents |
| Repl.MultiAction | src/brain/repl.py:311-327 | /multi without a count and a task shows the usage; a count int() rejects runs nothing; a run is in multi mode with a count and a non-empty task |
| Repl.ActionOf | src/brain/repl.py:294-340 | the loop is stopped exactly by /exit and /quit; every run has a non-empty task and a count exactly in multi mode |
| Repl.CommandAction | src/brain/repl.py:289-340 | the only error is IndexError; every run has a settled mode and a non-empty task |
| Repl.CommandRaises | src/brain/repl.py:291-292 | handle_command raises exactly on a line without a word |
| Repl.CommandStops | src/brain/repl.py:292-295 | a line stops the loop exactly when its first word lowercases to "/exit" or "/quit" |
| Repl.MultiArguments | src/brain/repl.py:317-325 | the arguments "<n> <task>" give a run of the task on n agents |
| Repl.MultiCommand | src/brain/repl.py:311-325 | "/multi <n> <task>" runs the task on n agents |
| Repl.MultiWithoutTask | src/brain/repl.py:317-320 | "/multi <n>" without a task only shows the usage |
| Repl.MultiBadCount | src/brain/repl.py:322-327 | a count int() rejects runs nothing |
| Repl.SingleCommand | src/brain/repl.py:329-336 | "/single <task>" runs the task on one agent; "/single" alone shows the usage |
| Repl.TaskKeeps | src/brain/orchestrator_v2.py:370-388 | the session update after a task keeps the session's identity, and keeps the totals equal to the sums over the turns |
| Repl.CommandKeeps | src/brain/repl.py:289-340 | a command leaves the session's identity as it was, and every command but /clear keeps the totals equal to the sums over the turns |
| Repl.LineKeeps | src/brain/repl.py:264-284 | a line of the loop leaves the session's identity as it was, and every line but /clear keeps the totals equal to the sums over the turns |
| Repl.ReplayKeeps | src/brain/repl.py:258-287 | any run of the loop leaves the session's identity as it was |
| Repl.ReplayKeepsTotals | src/brain/repl.py:258-287 | a run of the loop without /clear keeps the totals equal to the sums over the turns |
| Repl.ClearKeepsTotals | src/brain/repl.py:307-309 | /clear empties the conversation and keeps the totals, so totals that matched the turns no longer do |
| Repl.OpenSession | src/brain/repl.py:69-91 | a named session is loaded when its file reads, otherwise created and saved under that name; without a name a new "default" session is created and saved |
| Repl.BrainRepl.constructor | src/brain/repl.py:37-102 | the workspace is the given path or the current directory, the session is opened as above and the loop is not running |
| Repl.BrainRepl.SaveSession | src/brain/repl.py:303-304 | last_active becomes now and the session's file holds its dictionary |
| Repl.BrainRepl.ExecuteTask | src/brain/repl.py:213-256 | the outcome is the route and response of the settled mode; on success a single run's agent result is added as an assistant turn (tokens and cost join the totals) and the session is saved, on any exception nothing changes |
| Repl.BrainRepl.ClearConversation | src/brain/repl.py:308 | the turns go and everything else stays |
| Repl.BrainRepl.PerformOther | src/brain/repl.py:294-340 | /exit and /quit stop the loop, /save saves, /clear empties the conversation; the other commands change nothing |
| Repl.BrainRepl.RunTask | src/brain/repl.py:311-336 | a complete /multi or /single runs its task as execute_task does |
| Repl.BrainRepl.Perform | src/brain/repl.py:294-340 | the loop stops exactly on a stop command; the session and the files change as the command's record says |
| Repl.BrainRepl.HandleCommand | src/brain/repl.py:289-340 | the action is the line's decision; the loop stops exactly on /exit and /quit; the files change only when the command saves |
| Repl.BrainRepl.Step | src/brain/repl.py:264-284 | blank lines change nothing, "/" lines are commands and other lines run in auto mode; the loop stops exactly on a stop command |
| Repl.BrainRepl.Advance | src/brain/repl.py:264-284 | one turn of the loop keeps every earlier line a non-stopping one, and stops only on a stopping line |
| Repl.BrainRepl.RunLoop | src/brain/repl.py:258-287 | the loop reads lines until the first stopping one or the end of the input, and the session is the replay of the lines read |
| Clock.IsoRoundTrip | src/brain/session.py:59-71 | fromisoformat reads back every instant isoformat writes |
| Clock.IsoFormat | src/brain/session.py:59-60 | isoformat writes 19 characters, or 26 when the microseconds are not zero |
| Clock.MonthKey | src/brain/analytics/patterns.py:170-181 | the "%Y-%m" month key is seven characters with a "-" in the middle |
| Counters.MostCommonSpec | src/brain/analytics/patterns.py:241-250 | most_common(n) lists min(n, number of entries) of the counter's entries, each at most once, by descending count |
| Counters.MostCommonCutoff | src/brain/analytics/patterns.py:241-276 | no entry left out of most_common(n) counts more than the last one listed |
| Counters.MostCommonFirst | src/brain/analytics/patterns.py:258 | the first entry of most_common(1) has the largest count of all |
| Counters.MostCommonEntries | src/brain/analytics/patterns.py:241-276 | most_common(n) names each key at most once and with its own count |
| Text.PyIntRoundTrip | src/brain/repl.py:203-207 | int() reads back every integer str() writes |
| Text.SplitOnceJoin | src/brain/repl.py:317 | split(maxsplit=1) of a word, a space and a text starting with a non-space gives the word and the text |
| Text.Words | src/brain/orchestrator_v2.py:294 | every piece str.split() gives is a word without whitespace |
| Text.Strip | src/brain/cli.py:183 | strip() leaves no whitespace at either end and a piece of its input |
| Text.StripPadded | src/brain/cli.py:183 | the piece strip() gives is surrounded by whitespace alone |
| Text.StripUnique | src/brain/cli.py:183 | any unpadded piece that only whitespace surrounds is what strip() gives, so its contract fixes it |

## Left out

- AgentBase.TurnOfFields: an entry of the wrong type is rejected here; the dataclass would accept it.
- Sessions.SessionOfFields: an entry of the wrong type is rejected here; the dataclass would accept it.
- ClaudeApi.PlanFields: an entry of the wrong type gives the fallback plan here; the dataclass would accept it.
- The LLM calls themselves (anthropic, google.generativeai, claude_agent_sdk) and `json.loads`: what they return or raise is a parameter of the operation that awaits them.
- src/brain/agents/claude_code.py is not part of this model beyond the configuration the orchestrators hand it; its streaming, JSON extraction and `ping` are SDK plumbing.
- asyncio: every awaited step is one atomic transition, so interleavings of concurrent agents, `asyncio.gather` in `emit` and the polling and sleeping in `wait_for_agent` and `wait_for_all` are not modelled. `Fleet.Poll` states one poll's answer.
- Git subprocesses (`is_git_repo`, `get_repo_root`, `git worktree add/remove/list`, the fetch and rebase of `sync_worktree_to_main`): their success or output is an input.
- SQLite persistence in the fleet manager (`_init_database`, `_save_instance`, `get_project_stats`) and the observability storage, API and server modules: SQL-engine behaviour, network plumbing and file I/O.
- The fleet's hook emissions, `wait_for_all`, `AgentInstance.to_dict`, `list_active_agents` and `get_queue_size`: notifications and read-only views around the modelled table.
- Agents.CreateAgent: a config whose `name` is not a string is a TypeError here, where `BaseAgent.__init__` stores any value; every caller passes a string name.
- Fleet.AgentNameOf: a `name` that is not a string is an error here, where the f-string would format any value; agent names in the model are strings.
- Fleet.FleetManager.ListAgentsByProject: the table is a map, so the dict's insertion order is not modelled; the listing holds every instance of the project exactly once, in no stated order.
- `get_hooks` and the other module-level singletons: global glue.
- Hooks.HookManager.Emit: a failing callback's message is returned as a warning line instead of printed; the async callbacks awaited by `asyncio.gather` are left out with asyncio.
- The clock, `uuid4` and `os.urandom`: `now`, id suffixes and session timestamps are parameters; `datetime.now()` order between calls is not modelled.
- `strptime` and `fromisoformat` beyond the shape `isoformat` writes: the date text the CSV parsers hand on is stated, the datetime it becomes is an input.
- Float presentation (`:.2f`, `:.4f`, the percentages' rounding): costs, sentiment and percentages are `real`, and printed float text is a function passed in.
- `np.mean` of the resolution times in `cluster_issues` is left out with the rest of that function; the recent average of `analyze_temporal_patterns` is an exact `real`, and its one-decimal text is a function passed in.
- `cluster_issues` beyond its cluster-count adjustment, `extract_topics` and `_generate_cluster_insights` (scikit-learn TF-IDF, k-means, LDA), and `extract_entities`, `extract_key_phrases` and `find_similar_issues` (spaCy): the ML libraries themselves.
- Nlp: the positive and negative keyword lists are a `Lexicon` value; the sentiment properties hold for any lexicon.
- Ties in `Counter.most_common` are ordered as CPython orders them (stable sort by descending count in first-seen order); other Python versions are not modelled.
- The analytics `Issue` and `PullRequest` dataclasses are values built by a checking constructor function, not objects whose `__post_init__` assigns fields in place.
- Whitespace and case: `str.split`, `strip` and `lower` are modelled for ASCII; Unicode whitespace and case folding are not.
- YAML and file reading in `load_agent_configs`, with its FileNotFoundError: the parsed configuration is an input.
- What an agent constructor does (API keys, SDK clients): whether it succeeds is a parameter of `create_agents`.
- The console loops as loops: the CLI's `run_interactive` is one iteration (`Cli.Step`); end of input, `run_headless`, `/agents`, `/context` and `show_help` only print.
- Cli.Exchange: the CLI calls the first orchestrator's `execute` in single mode; `execute` builds its context after the user turn was appended (`Orchestrator.BuildContext` states that context), but the agent's result is an input of the run, so the context is not shown reaching the agent.
- Repl: the orchestrator's reply and, for a single run, the agent result `_update_session` records are inputs of each task (`Env.outcome`, `Env.recorded`); the spawn, the wait and the routing call behind them are `OrchestratorV2`'s and are not re-run inside the REPL.
- The REPL's `display_banner`, `display_help`, `display_status` and the rich prompts: printing; a prompt answer is an input, and the empty answer gives the default.
- KeyboardInterrupt raised by the terminal (Ctrl-C) in both loops: a signal, not an input line.
- Repl.BrainRepl.RunLoop: states the session record and the stopping line; the registry's files after the loop are stated line by line by `Repl.BrainRepl.Step`.
- `list_workspaces` and the other directory listings of the session registry: filesystem.
- The second orchestrator's `_execute_single`, `_execute_multi`, `get_agent_status`, `get_fleet_status` and `get_project_stats`: they drive the fleet and worktree managers through asyncio and SQLite; their routes are stated by `OrchestratorV2.Dispatch`.
- The first orchestrator's `get_agent_status` (a `ping` per agent), `get_routing_plan` and `synthesize_results`: each delegates straight to an agent's API call.
- The "Available:" agent list in the switch error messages: only the exception kind is stated.

## Findings

| source | as written | input that shows it | evidently intended | confidence | as-written member | corrected member |
|---|---|---|---|---|---|---|
| src/brain/cli.py:232-233 | a line that is "/" followed only by whitespace passes the blank-line and "/" tests, then `parts[0]` of an empty split raises IndexError, which the loop does not catch, so the CLI exits without saving the session | "/" | treat it as an unknown command | high, not executed | Cli.SlashWordsAsWritten, Cli.BareSlashRaises | Cli.SlashWords, Cli.SlashWordsAgree |

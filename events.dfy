/**
 * The observability events: eight event types, a base event with a type, a
 * timestamp, a project and metadata, and four kinds of event carrying their
 * own fields. to_dict flattens an event into a dictionary; the agent and tool
 * events leave out the entries whose value is None.
 */
module Events {
  import opened Wrappers
  import opened Values
  import opened Clock

  datatype EventType =
    | AgentSpawned | AgentStarted | AgentCompleted | AgentFailed
    | ToolUsed | WorktreeCreated | WorktreeRemoved | SessionUpdated
  {
    /** The enum member's value. */
    function Value(): string {
      match this
      case AgentSpawned => "agent_spawned"
      case AgentStarted => "agent_started"
      case AgentCompleted => "agent_completed"
      case AgentFailed => "agent_failed"
      case ToolUsed => "tool_used"
      case WorktreeCreated => "worktree_created"
      case WorktreeRemoved => "worktree_removed"
      case SessionUpdated => "session_updated"
    }
  }

  /** The members in declaration order. */
  const AllEventTypes: seq<EventType> :=
    [AgentSpawned, AgentStarted, AgentCompleted, AgentFailed, ToolUsed, WorktreeCreated, WorktreeRemoved, SessionUpdated]

  predicate SnakeCase(s: string) {
    s != [] && forall i | 0 <= i < |s| :: ('a' <= s[i] <= 'z') || s[i] == '_'
  }

  /** Every member is listed once, and its value is snake_case. */
  lemma EventTypesListed(t: EventType)
    ensures t in AllEventTypes
  {
    match t
    case AgentSpawned => assert AllEventTypes[0] == t;
    case AgentStarted => assert AllEventTypes[1] == t;
    case AgentCompleted => assert AllEventTypes[2] == t;
    case AgentFailed => assert AllEventTypes[3] == t;
    case ToolUsed => assert AllEventTypes[4] == t;
    case WorktreeCreated => assert AllEventTypes[5] == t;
    case WorktreeRemoved => assert AllEventTypes[6] == t;
    case SessionUpdated => assert AllEventTypes[7] == t;
  }

  /** Each member's value is snake_case. */
  lemma EventTypeSnakeCase(t: EventType)
    ensures SnakeCase(t.Value())
  {
  }

  /** Distinct members have distinct values, so a value names one member. */
  lemma EventTypeValueInjective(a: EventType, b: EventType)
    requires a.Value() == b.Value()
    ensures a == b
  {
  }

  /** The fields an event adds to the base event, by kind. */
  datatype Detail =
    | AgentFields(agentId: string, agentName: string, task: string, workspacePath: string,
                  errorMessage: Option<string>, tokensUsed: Option<int>, cost: Option<real>,
                  timeTaken: Option<real>, response: Option<string>)
    | ToolFields(agentId: string, toolName: string, toolInput: Dict, success: bool, errorMessage: Option<string>)
    | WorktreeFields(agentId: string, worktreePath: string, repoPath: string, branch: string)
    | SessionFields(sessionName: string, totalTokens: int, totalCost: real, conversationTurns: int)

  /** An event: the base fields and those of its kind. */
  datatype Event = Event(eventType: EventType, timestamp: DateTime, project: string, metadata: Dict, detail: Detail)

  function OptStr(o: Option<string>): Value { if o.None? then VNone else VStr(o.value) }
  function OptInt(o: Option<int>): Value { if o.None? then VNone else VInt(o.value) }
  function OptReal(o: Option<real>): Value { if o.None? then VNone else VReal(o.value) }

  /** A dictionary as its entries in insertion order, the order Python keeps. */
  type Entries = seq<(string, Value)>

  predicate NoNone(s: Entries) {
    forall i | 0 <= i < |s| :: s[i].1 != VNone
  }

  const BaseKeys: seq<string> := ["event_type", "timestamp", "project", "metadata"]
  const AgentRequiredKeys: seq<string> := ["agent_id", "agent_name", "task", "workspace_path"]
  const ToolRequiredKeys: seq<string> := ["agent_id", "tool_name", "tool_input", "success"]

  /** The base fields, with the type's value and the timestamp's ISO string in place; none is None. */
  function BaseEntries(e: Event): (r: Entries)
    requires Clock.Valid(e.timestamp)
    ensures |r| == 4 && NoNone(r)
    ensures Keys(r) == BaseKeys
  {
    [("event_type", VStr(e.eventType.Value())), ("timestamp", VStr(IsoFormat(e.timestamp))),
     ("project", VStr(e.project)), ("metadata", VDict(e.metadata))]
  }

  /** The kind's own fields in declaration order, None kept; the first four of an agent or tool event are never None. */
  function DetailEntries(d: Detail): (r: Entries)
    ensures d.AgentFields? ==> |r| == 9
    ensures d.ToolFields? ==> |r| == 5
    ensures d.AgentFields? || d.ToolFields? ==> NoNone(r[..4])
    ensures d.AgentFields? ==> Keys(r[..4]) == AgentRequiredKeys
    ensures d.ToolFields? ==> Keys(r[..4]) == ToolRequiredKeys
  {
    match d
    case AgentFields(id, name, task, ws, err, tokens, cost, time, response) =>
      [("agent_id", VStr(id)), ("agent_name", VStr(name)), ("task", VStr(task)), ("workspace_path", VStr(ws)),
       ("error_message", OptStr(err)), ("tokens_used", OptInt(tokens)), ("cost", OptReal(cost)),
       ("time_taken", OptReal(time)), ("response", OptStr(response))]
    case ToolFields(id, tool, input, success, err) =>
      [("agent_id", VStr(id)), ("tool_name", VStr(tool)), ("tool_input", VDict(input)),
       ("success", VBool(success)), ("error_message", OptStr(err))]
    case WorktreeFields(id, path, repo, branch) =>
      [("agent_id", VStr(id)), ("worktree_path", VStr(path)), ("repo_path", VStr(repo)), ("branch", VStr(branch))]
    case SessionFields(name, tokens, cost, turns) =>
      [("session_name", VStr(name)), ("total_tokens", VInt(tokens)), ("total_cost", VReal(cost)),
       ("conversation_turns", VInt(turns))]
  }

  /** BaseEvent.to_dict: asdict, base fields first, then the kind's. */
  function AsDict(e: Event): Entries
    requires Clock.Valid(e.timestamp)
  {
    BaseEntries(e) + DetailEntries(e.detail)
  }

  function Keys(s: Entries): (r: seq<string>)
    ensures |r| == |s|
  {
    seq(|s|, i requires 0 <= i < |s| => s[i].0)
  }

  /** The entries whose value is not None, in their order. */
  function DropNone(s: Entries): (r: Entries)
    ensures |r| <= |s|
    ensures NoNone(r)
  {
    if s == [] then []
    else if s[0].1 == VNone then DropNone(s[1..])
    else [s[0]] + DropNone(s[1..])
  }

  /** An entry survives exactly when it is there and its value is not None. */
  lemma {:induction false} DropNoneMember(s: Entries, p: (string, Value))
    ensures p in DropNone(s) <==> p in s && p.1 != VNone
  {
    if s != [] {
      DropNoneMember(s[1..], p);
      assert s == [s[0]] + s[1..];
    }
  }

  /** A prefix without None values is kept whole, and dropping goes on after it. */
  lemma {:induction false} DropNoneKeepsPrefix(a: Entries, b: Entries)
    requires NoNone(a)
    ensures DropNone(a + b) == a + DropNone(b)
  {
    if a != [] {
      var ab := a + b;
      assert ab[0] == a[0] && a[0].1 != VNone;
      assert ab[1..] == a[1..] + b;
      assert DropNone(ab) == [a[0]] + DropNone(ab[1..]);
      assert NoNone(a[1..]) by {
        forall i | 0 <= i < |a[1..]| ensures a[1..][i].1 != VNone {
          assert a[1..][i] == a[i + 1];
        }
      }
      DropNoneKeepsPrefix(a[1..], b);
      assert a == [a[0]] + a[1..];
    } else {
      assert a + b == b;
    }
  }

  /** to_dict of each kind: the agent and tool events drop their None entries, the others keep all. */
  function ToDict(e: Event): Entries
    requires Clock.Valid(e.timestamp)
  {
    if e.detail.AgentFields? || e.detail.ToolFields? then DropNone(AsDict(e)) else AsDict(e)
  }

  /** Every to_dict starts with the four base entries, whatever the kind. */
  lemma ToDictBase(e: Event)
    requires Clock.Valid(e.timestamp)
    ensures |ToDict(e)| >= 4 && ToDict(e)[..4] == BaseEntries(e)
  {
    DropNoneKeepsPrefix(BaseEntries(e), DetailEntries(e.detail));
  }

  /** The timestamp's string reads back as the event's timestamp. */
  lemma ToDictTimestampRoundTrip(e: Event)
    requires Clock.Valid(e.timestamp)
    ensures |ToDict(e)| >= 4 && ToDict(e)[1].0 == "timestamp" && ToDict(e)[1].1.VStr?
    ensures FromIsoFormat(ToDict(e)[1].1.s) == Some(e.timestamp)
  {
    ToDictBase(e);
    assert ToDict(e)[1] == ToDict(e)[..4][1];
    IsoRoundTrip(e.timestamp);
  }

  /**
   * An agent or tool event's dictionary has no None value and starts with
   * the base entries and the event's first four fields, which are never None.
   */
  lemma RequiredEntriesKept(e: Event)
    requires Clock.Valid(e.timestamp) && (e.detail.AgentFields? || e.detail.ToolFields?)
    ensures NoNone(ToDict(e))
    ensures |ToDict(e)| >= 8 && ToDict(e)[..8] == AsDict(e)[..8]
  {
    var base := BaseEntries(e);
    var det := DetailEntries(e.detail);
    var front := base + det[..4];
    assert NoNone(front) by {
      forall i | 0 <= i < 8 ensures front[i].1 != VNone {
        if i >= 4 {
          assert front[i] == det[..4][i - 4];
        }
      }
    }
    assert AsDict(e) == front + det[4..];
    DropNoneKeepsPrefix(front, det[4..]);
  }

  /** An agent event's dictionary holds each optional field exactly when it is set. */
  lemma AgentDictOptional(e: Event)
    requires Clock.Valid(e.timestamp) && e.detail.AgentFields?
    ensures var d := ToDict(e); var f := e.detail;
      && (("error_message", OptStr(f.errorMessage)) in d <==> f.errorMessage.Some?)
      && (("tokens_used", OptInt(f.tokensUsed)) in d <==> f.tokensUsed.Some?)
      && (("cost", OptReal(f.cost)) in d <==> f.cost.Some?)
      && (("time_taken", OptReal(f.timeTaken)) in d <==> f.timeTaken.Some?)
      && (("response", OptStr(f.response)) in d <==> f.response.Some?)
  {
    var a := AsDict(e);
    var f := e.detail;
    assert a[8] == ("error_message", OptStr(f.errorMessage));
    assert a[9] == ("tokens_used", OptInt(f.tokensUsed));
    assert a[10] == ("cost", OptReal(f.cost));
    assert a[11] == ("time_taken", OptReal(f.timeTaken));
    assert a[12] == ("response", OptStr(f.response));
    DropNoneMember(a, ("error_message", OptStr(f.errorMessage)));
    DropNoneMember(a, ("tokens_used", OptInt(f.tokensUsed)));
    DropNoneMember(a, ("cost", OptReal(f.cost)));
    DropNoneMember(a, ("time_taken", OptReal(f.timeTaken)));
    DropNoneMember(a, ("response", OptStr(f.response)));
  }

  /** A tool event's dictionary holds the error message exactly when one is set. */
  lemma ToolDictOptional(e: Event)
    requires Clock.Valid(e.timestamp) && e.detail.ToolFields?
    ensures ("error_message", OptStr(e.detail.errorMessage)) in ToDict(e) <==> e.detail.errorMessage.Some?
  {
    assert AsDict(e)[8] == ("error_message", OptStr(e.detail.errorMessage));
    DropNoneMember(AsDict(e), ("error_message", OptStr(e.detail.errorMessage)));
  }

  /** The key an optional field contributes: its name when set, nothing otherwise. */
  function OptKey(k: string, isSet: bool): seq<string> {
    if isSet then [k] else []
  }

  lemma KeysAppend(a: Entries, b: Entries)
    ensures Keys(a + b) == Keys(a) + Keys(b)
  {
  }

  /** Dropping distributes over concatenation. */
  lemma {:induction false} DropNoneAppend(a: Entries, b: Entries)
    ensures DropNone(a + b) == DropNone(a) + DropNone(b)
  {
    if a != [] {
      assert (a + b)[0] == a[0];
      assert (a + b)[1..] == a[1..] + b;
      DropNoneAppend(a[1..], b);
    } else {
      assert a + b == b;
    }
  }

  /** The keys one field leaves after dropping: its own, unless its value is None. */
  lemma DropNoneOneKey(k: string, v: Value)
    ensures Keys(DropNone([(k, v)])) == OptKey(k, v != VNone)
  {
    assert [(k, v)][1..] == [];
  }

  /** The keys of the optional tail of an agent or tool event: those of the fields that are set, in order. */
  lemma {:induction false} OptionalKeys(s: Entries)
    ensures |s| == 0 ==> Keys(DropNone(s)) == []
    ensures |s| >= 1 ==> Keys(DropNone(s)) == OptKey(s[0].0, s[0].1 != VNone) + Keys(DropNone(s[1..]))
  {
    if |s| >= 1 {
      assert s == [s[0]] + s[1..];
      DropNoneAppend([s[0]], s[1..]);
      KeysAppend(DropNone([s[0]]), DropNone(s[1..]));
      DropNoneOneKey(s[0].0, s[0].1);
    }
  }

  /** The keys five fields leave after dropping, field by field. */
  lemma FiveOptionalKeys(t: Entries)
    requires |t| == 5
    ensures Keys(DropNone(t)) == OptKey(t[0].0, t[0].1 != VNone) + (OptKey(t[1].0, t[1].1 != VNone)
      + (OptKey(t[2].0, t[2].1 != VNone) + (OptKey(t[3].0, t[3].1 != VNone) + OptKey(t[4].0, t[4].1 != VNone))))
  {
    var t1, t2, t3, t4 := t[1..], t[2..], t[3..], t[4..];
    assert t1[1..] == t2 && t2[1..] == t3 && t3[1..] == t4 && t4[1..] == [];
    OptionalKeys(t4[1..]);
    OptionalKeys(t4);
    assert Keys(DropNone(t4)) == OptKey(t[4].0, t[4].1 != VNone);
    OptionalKeys(t3);
    OptionalKeys(t2);
    OptionalKeys(t1);
    OptionalKeys(t);
  }

  /** An agent event's keys: the base four, the required four, then each optional field that is set, in declaration order. */
  lemma AgentDictKeys(e: Event)
    requires Clock.Valid(e.timestamp) && e.detail.AgentFields?
    ensures var f := e.detail;
      Keys(ToDict(e)) == BaseKeys + AgentRequiredKeys
        + (OptKey("error_message", f.errorMessage.Some?) + (OptKey("tokens_used", f.tokensUsed.Some?)
        + (OptKey("cost", f.cost.Some?) + (OptKey("time_taken", f.timeTaken.Some?)
        + OptKey("response", f.response.Some?)))))
  {
    var a := AsDict(e);
    RequiredEntriesKept(e);
    var tail := a[8..];
    assert a == a[..8] + tail;
    DropNoneKeepsPrefix(a[..8], tail);
    KeysAppend(a[..8], DropNone(tail));
    FiveOptionalKeys(tail);
    var f := e.detail;
    assert tail[0] == ("error_message", OptStr(f.errorMessage));
    assert tail[1] == ("tokens_used", OptInt(f.tokensUsed));
    assert tail[2] == ("cost", OptReal(f.cost));
    assert tail[3] == ("time_taken", OptReal(f.timeTaken));
    assert tail[4] == ("response", OptStr(f.response));
    var det := DetailEntries(e.detail);
    assert a[..8] == BaseEntries(e) + det[..4];
    KeysAppend(BaseEntries(e), det[..4]);
  }

  /** A tool event's keys: the base four, the four required fields, then the error message when it is set. */
  lemma ToolDictKeys(e: Event)
    requires Clock.Valid(e.timestamp) && e.detail.ToolFields?
    ensures Keys(ToDict(e)) == BaseKeys + ToolRequiredKeys + OptKey("error_message", e.detail.errorMessage.Some?)
  {
    var a := AsDict(e);
    RequiredEntriesKept(e);
    var tail := a[8..];
    assert a == a[..8] + tail;
    DropNoneKeepsPrefix(a[..8], tail);
    KeysAppend(a[..8], DropNone(tail));
    var det := DetailEntries(e.detail);
    assert a[..8] == BaseEntries(e) + det[..4];
    KeysAppend(BaseEntries(e), det[..4]);
    OptionalKeys(tail);
    OptionalKeys(tail[1..]);
  }

  /** Worktree and session events keep every field: the four base entries and their own four, in order. */
  lemma FixedDictKeys(e: Event)
    requires Clock.Valid(e.timestamp) && (e.detail.WorktreeFields? || e.detail.SessionFields?)
    ensures e.detail.WorktreeFields? ==>
      Keys(ToDict(e)) == ["event_type", "timestamp", "project", "metadata", "agent_id", "worktree_path", "repo_path", "branch"]
    ensures e.detail.SessionFields? ==>
      Keys(ToDict(e)) == ["event_type", "timestamp", "project", "metadata", "session_name", "total_tokens", "total_cost",
                          "conversation_turns"]
  {
  }
}

/**
 * The hook bus: a HookManager keeps, per event type, the callbacks
 * subscribed to it in registration order, and dispatches an event to them
 * fail-soft: a callback that raises is reported and the rest still run.
 *
 * A callback is identified by its identity (Python compares functions by
 * identity) and is either a plain function or a coroutine function. What a
 * callback does is not modelled; whether calling it raises, and with which
 * message, is the `raises` parameter of the dispatch methods.
 */
module Hooks {
  import opened Wrappers
  import opened Values
  import opened Clock
  import opened Events

  datatype Callback = Callback(id: nat, isAsync: bool)

  /** The list registered for a type, empty when the type has no entry. */
  function Listed(m: map<EventType, seq<Callback>>, t: EventType): seq<Callback> {
    if t in m then m[t] else []
  }

  // ----- list.remove: the first occurrence goes -----

  /** The position of the first occurrence of x. */
  function IndexOf(s: seq<Callback>, x: Callback): (i: nat)
    requires x in s
    ensures i < |s| && s[i] == x && x !in s[..i]
  {
    if s[0] == x then 0
    else
      var j := IndexOf(s[1..], x);
      assert s[..j + 1] == [s[0]] + s[1..][..j];
      j + 1
  }

  /** list.remove without the ValueError: the first occurrence of x is dropped, a list without x is kept. */
  function RemoveFirst(s: seq<Callback>, x: Callback): (r: seq<Callback>)
    ensures x !in s ==> r == s
    ensures x in s ==> |r| == |s| - 1
  {
    if s == [] then []
    else if s[0] == x then s[1..]
    else [s[0]] + RemoveFirst(s[1..], x)
  }

  /** Exactly the element at the first occurrence is cut out; everything else keeps its order. */
  lemma {:induction false} RemoveFirstCutsFirst(s: seq<Callback>, x: Callback)
    requires x in s
    ensures var i := IndexOf(s, x); RemoveFirst(s, x) == s[..i] + s[i + 1..]
  {
    if s[0] != x {
      RemoveFirstCutsFirst(s[1..], x);
      var j := IndexOf(s[1..], x);
      assert s[..j + 1] == [s[0]] + s[1..][..j];
      assert s[j + 2..] == s[1..][j + 1..];
    }
  }

  /** One copy of x leaves the bag of callbacks; the others are untouched. */
  lemma {:induction false} RemoveFirstMultiset(s: seq<Callback>, x: Callback)
    ensures x in s ==> multiset(RemoveFirst(s, x)) == multiset(s) - multiset{x}
  {
    if s != [] && s[0] != x {
      RemoveFirstMultiset(s[1..], x);
      assert s == [s[0]] + s[1..];
    } else if s != [] {
      assert s == [s[0]] + s[1..];
    }
  }

  /** Unsubscribing a callback subscribed once undoes the subscription. */
  lemma {:induction false} RemoveFirstUndoesAppend(s: seq<Callback>, x: Callback)
    requires x !in s
    ensures RemoveFirst(s + [x], x) == s
  {
    if s != [] {
      assert (s + [x])[1..] == s[1..] + [x];
      RemoveFirstUndoesAppend(s[1..], x);
      assert s == [s[0]] + s[1..];
    } else {
      assert [x][1..] == [];
    }
  }

  /** A callback subscribed twice loses its earlier registration first: the later one stays at the end. */
  lemma {:induction false} RemoveFirstKeepsLater(s: seq<Callback>, x: Callback)
    requires x in s
    ensures RemoveFirst(s + [x], x) == RemoveFirst(s, x) + [x]
  {
    if s[0] != x {
      assert (s + [x])[1..] == s[1..] + [x];
      RemoveFirstKeepsLater(s[1..], x);
    } else {
      assert (s + [x])[1..] == s[1..] + [x];
    }
  }

  // ----- dispatch -----

  /** The plain callbacks, in order: those emit and emit_sync call directly. */
  function SyncOnly(s: seq<Callback>): seq<Callback> {
    if s == [] then []
    else SyncOnly(s[..|s| - 1]) + (if s[|s| - 1].isAsync then [] else [s[|s| - 1]])
  }

  /** The coroutine functions, in order: those emit gathers. */
  function AsyncOnly(s: seq<Callback>): seq<Callback> {
    if s == [] then []
    else AsyncOnly(s[..|s| - 1]) + (if s[|s| - 1].isAsync then [s[|s| - 1]] else [])
  }

  /** The line printed when a callback raised. */
  function HookWarning(t: EventType, message: string): string {
    "⚠️  Hook error for " + t.Value() + ": " + message
  }

  /** The warnings printed for the called callbacks that raised, in call order. */
  function Warnings(t: EventType, called: seq<Callback>, raises: Callback -> Option<string>): seq<string> {
    if called == [] then []
    else
      var c := called[|called| - 1];
      Warnings(t, called[..|called| - 1], raises) + (if raises(c).Some? then [HookWarning(t, raises(c).value)] else [])
  }

  /** One more callback: it joins exactly one of the two filtered lists. */
  lemma FilterNext(cbs: seq<Callback>, i: nat)
    requires i < |cbs|
    ensures SyncOnly(cbs[..i + 1]) == SyncOnly(cbs[..i]) + (if cbs[i].isAsync then [] else [cbs[i]])
    ensures AsyncOnly(cbs[..i + 1]) == AsyncOnly(cbs[..i]) + (if cbs[i].isAsync then [cbs[i]] else [])
  {
    assert cbs[..i + 1][..i] == cbs[..i];
  }

  /** One more called callback adds its warning, if it raised. */
  lemma WarningsNext(t: EventType, called: seq<Callback>, c: Callback, raises: Callback -> Option<string>)
    ensures Warnings(t, called + [c], raises)
      == Warnings(t, called, raises) + (if raises(c).Some? then [HookWarning(t, raises(c).value)] else [])
  {
    assert (called + [c])[..|called|] == called;
  }

  lemma {:induction false} SyncOnlyAppend(a: seq<Callback>, b: seq<Callback>)
    ensures SyncOnly(a + b) == SyncOnly(a) + SyncOnly(b)
    decreases |b|
  {
    if b != [] {
      assert (a + b)[..|a + b| - 1] == a + b[..|b| - 1];
      SyncOnlyAppend(a, b[..|b| - 1]);
    } else {
      assert a + b == a;
    }
  }

  lemma {:induction false} AsyncOnlyAppend(a: seq<Callback>, b: seq<Callback>)
    ensures AsyncOnly(a + b) == AsyncOnly(a) + AsyncOnly(b)
    decreases |b|
  {
    if b != [] {
      assert (a + b)[..|a + b| - 1] == a + b[..|b| - 1];
      AsyncOnlyAppend(a, b[..|b| - 1]);
    } else {
      assert a + b == a;
    }
  }

  /** Every subscriber is either called or gathered, exactly once. */
  lemma {:induction false} SyncAsyncPartition(s: seq<Callback>)
    ensures multiset(SyncOnly(s)) + multiset(AsyncOnly(s)) == multiset(s)
  {
    if s != [] {
      SyncAsyncPartition(s[..|s| - 1]);
      assert s == s[..|s| - 1] + [s[|s| - 1]];
    }
  }

  /** Each printed warning names the event type, and no callback is reported twice. */
  lemma {:induction false} WarningsBounded(t: EventType, called: seq<Callback>, raises: Callback -> Option<string>)
    ensures |Warnings(t, called, raises)| <= |called|
    ensures forall w | w in Warnings(t, called, raises) :: exists m :: w == HookWarning(t, m)
  {
    if called != [] {
      WarningsBounded(t, called[..|called| - 1], raises);
    }
  }

  /** When no callback raises, nothing is printed. */
  lemma {:induction false} NoRaiseNoWarnings(t: EventType, called: seq<Callback>, raises: Callback -> Option<string>)
    requires forall c | c in called :: raises(c).None?
    ensures Warnings(t, called, raises) == []
  {
    if called != [] {
      assert called[|called| - 1] in called;
      NoRaiseNoWarnings(t, called[..|called| - 1], raises);
    }
  }

  class HookManager {
    var subscribers: map<EventType, seq<Callback>>

    /** Every event type starts with an empty list. */
    constructor()
      ensures forall t: EventType :: t in subscribers && subscribers[t] == []
    {
      forall t: EventType ensures t in AllEventTypes {
        EventTypesListed(t);
      }
      subscribers := map t | t in AllEventTypes :: [];
    }

    /** The callback goes at the end of its type's list; subscribing twice registers twice. */
    method Subscribe(t: EventType, cb: Callback)
      modifies this
      ensures subscribers == old(subscribers)[t := Listed(old(subscribers), t) + [cb]]
      ensures forall u | u != t :: Listed(subscribers, u) == Listed(old(subscribers), u)
    {
      if t !in subscribers {
        subscribers := subscribers[t := []];
      }
      subscribers := subscribers[t := subscribers[t] + [cb]];
    }

    /** The first registration of the callback goes; an unknown callback or type is ignored. */
    method Unsubscribe(t: EventType, cb: Callback)
      modifies this
      ensures t in old(subscribers) ==> subscribers == old(subscribers)[t := RemoveFirst(old(subscribers)[t], cb)]
      ensures t !in old(subscribers) ==> subscribers == old(subscribers)
      ensures forall u | u != t :: Listed(subscribers, u) == Listed(old(subscribers), u)
    {
      if t in subscribers {
        subscribers := subscribers[t := RemoveFirst(subscribers[t], cb)];
      }
    }

    /**
     * emit_sync: the plain callbacks of the event's type are called in
     * order, coroutine functions are skipped, and a raising callback is
     * reported without stopping the ones after it.
     */
    method EmitSync(e: Event, raises: Callback -> Option<string>) returns (called: seq<Callback>, warnings: seq<string>)
      ensures called == SyncOnly(Listed(subscribers, e.eventType))
      ensures warnings == Warnings(e.eventType, called, raises)
    {
      called, warnings := [], [];
      if e.eventType !in subscribers {
        return;
      }
      var cbs := subscribers[e.eventType];
      for i := 0 to |cbs|
        invariant called == SyncOnly(cbs[..i])
        invariant warnings == Warnings(e.eventType, called, raises)
      {
        var cb := cbs[i];
        FilterNext(cbs, i);
        WarningsNext(e.eventType, called, cb, raises);
        if !cb.isAsync {
          called := called + [cb];
          match raises(cb)
          case Some(message) => warnings := warnings + [HookWarning(e.eventType, message)];
          case None =>
        }
      }
      assert cbs[..|cbs|] == cbs;
    }

    /**
     * emit: the plain callbacks are called in order and a raising one is
     * reported without stopping the rest; the coroutine functions are
     * gathered, in order, with their exceptions swallowed.
     */
    method Emit(e: Event, raises: Callback -> Option<string>)
      returns (called: seq<Callback>, gathered: seq<Callback>, warnings: seq<string>)
      ensures called == SyncOnly(Listed(subscribers, e.eventType))
      ensures gathered == AsyncOnly(Listed(subscribers, e.eventType))
      ensures warnings == Warnings(e.eventType, called, raises)
    {
      called, gathered, warnings := [], [], [];
      if e.eventType !in subscribers {
        return;
      }
      var cbs := subscribers[e.eventType];
      for i := 0 to |cbs|
        invariant called == SyncOnly(cbs[..i])
        invariant gathered == AsyncOnly(cbs[..i])
        invariant warnings == Warnings(e.eventType, called, raises)
      {
        var cb := cbs[i];
        FilterNext(cbs, i);
        WarningsNext(e.eventType, called, cb, raises);
        if cb.isAsync {
          gathered := gathered + [cb];
        } else {
          called := called + [cb];
          match raises(cb)
          case Some(message) => warnings := warnings + [HookWarning(e.eventType, message)];
          case None =>
        }
      }
      assert cbs[..|cbs|] == cbs;
    }
  }

  // ----- the convenience emitters' events -----

  /** The metadata an emitter stores: the one given, or an empty dict (`metadata or {}`). */
  function MetadataOrEmpty(metadata: Option<Dict>): (d: Dict)
    ensures metadata.None? ==> d == map[]
    ensures metadata.Some? ==> d == metadata.value
  {
    metadata.GetOr(map[])
  }

  function AgentSpawnedEvent(agentId: string, agentName: string, task: string, workspacePath: string,
                             project: string, metadata: Option<Dict>, now: DateTime): Event
  {
    Event(AgentSpawned, now, project, MetadataOrEmpty(metadata),
          AgentFields(agentId, agentName, task, workspacePath, None, None, None, None, None))
  }

  function AgentStartedEvent(agentId: string, agentName: string, task: string, workspacePath: string,
                             project: string, metadata: Option<Dict>, now: DateTime): Event
  {
    Event(AgentStarted, now, project, MetadataOrEmpty(metadata),
          AgentFields(agentId, agentName, task, workspacePath, None, None, None, None, None))
  }

  function AgentCompletedEvent(agentId: string, agentName: string, task: string, workspacePath: string,
                               project: string, tokensUsed: int, cost: real, timeTaken: real, response: string,
                               metadata: Option<Dict>, now: DateTime): Event
  {
    Event(AgentCompleted, now, project, MetadataOrEmpty(metadata),
          AgentFields(agentId, agentName, task, workspacePath, None, Some(tokensUsed), Some(cost), Some(timeTaken),
                      Some(response)))
  }

  function AgentFailedEvent(agentId: string, agentName: string, task: string, workspacePath: string,
                            project: string, errorMessage: string, metadata: Option<Dict>, now: DateTime): Event
  {
    Event(AgentFailed, now, project, MetadataOrEmpty(metadata),
          AgentFields(agentId, agentName, task, workspacePath, Some(errorMessage), None, None, None, None))
  }

  function ToolUsedEvent(agentId: string, toolName: string, toolInput: Dict, success: bool, project: string,
                         errorMessage: Option<string>, metadata: Option<Dict>, now: DateTime): Event
  {
    Event(ToolUsed, now, project, MetadataOrEmpty(metadata), ToolFields(agentId, toolName, toolInput, success, errorMessage))
  }

  function WorktreeEventOf(t: EventType, agentId: string, worktreePath: string, repoPath: string, branch: string,
                           project: string, metadata: Option<Dict>, now: DateTime): Event
  {
    Event(t, now, project, MetadataOrEmpty(metadata), WorktreeFields(agentId, worktreePath, repoPath, branch))
  }

  function SessionUpdatedEvent(sessionName: string, totalTokens: int, totalCost: real, conversationTurns: int,
                               project: string, metadata: Option<Dict>, now: DateTime): Event
  {
    Event(SessionUpdated, now, project, MetadataOrEmpty(metadata),
          SessionFields(sessionName, totalTokens, totalCost, conversationTurns))
  }

  /** A spawned or started event stores only the base and required fields. */
  lemma SpawnedDictKeys(agentId: string, agentName: string, task: string, workspacePath: string,
                        project: string, metadata: Option<Dict>, now: DateTime)
    requires Clock.Valid(now)
    ensures Keys(ToDict(AgentSpawnedEvent(agentId, agentName, task, workspacePath, project, metadata, now)))
         == BaseKeys + AgentRequiredKeys
    ensures Keys(ToDict(AgentStartedEvent(agentId, agentName, task, workspacePath, project, metadata, now)))
         == BaseKeys + AgentRequiredKeys
  {
    AgentDictKeys(AgentSpawnedEvent(agentId, agentName, task, workspacePath, project, metadata, now));
    AgentDictKeys(AgentStartedEvent(agentId, agentName, task, workspacePath, project, metadata, now));
    assert BaseKeys + AgentRequiredKeys + [] == BaseKeys + AgentRequiredKeys;
  }

  /** A completed event stores the usage fields and the response, and no error message. */
  lemma CompletedDictKeys(agentId: string, agentName: string, task: string, workspacePath: string,
                          project: string, tokensUsed: int, cost: real, timeTaken: real, response: string,
                          metadata: Option<Dict>, now: DateTime)
    requires Clock.Valid(now)
    ensures Keys(ToDict(AgentCompletedEvent(agentId, agentName, task, workspacePath, project, tokensUsed, cost,
                                            timeTaken, response, metadata, now)))
         == BaseKeys + AgentRequiredKeys + ["tokens_used", "cost", "time_taken", "response"]
  {
    AgentDictKeys(AgentCompletedEvent(agentId, agentName, task, workspacePath, project, tokensUsed, cost,
                                      timeTaken, response, metadata, now));
  }

  /** A failed event stores the error message and no usage fields. */
  lemma FailedDictKeys(agentId: string, agentName: string, task: string, workspacePath: string,
                       project: string, errorMessage: string, metadata: Option<Dict>, now: DateTime)
    requires Clock.Valid(now)
    ensures Keys(ToDict(AgentFailedEvent(agentId, agentName, task, workspacePath, project, errorMessage, metadata, now)))
         == BaseKeys + AgentRequiredKeys + ["error_message"]
  {
    AgentDictKeys(AgentFailedEvent(agentId, agentName, task, workspacePath, project, errorMessage, metadata, now));
  }

  /**
   * The hook round trip of the observability test: one plain callback
   * subscribed to AGENT_SPAWNED on a fresh manager is called exactly once
   * by agent_spawned, with an event of that type carrying the agent id;
   * unsubscribing it leaves the list empty again.
   */
  method SpawnedHookRoundTrip(cb: Callback, agentId: string, agentName: string, task: string, workspacePath: string,
                              project: string, now: DateTime, raises: Callback -> Option<string>)
    returns (received: seq<Event>, remaining: seq<Callback>)
    requires !cb.isAsync
    ensures |received| == 1 && received[0].eventType == AgentSpawned
    ensures received[0].detail.AgentFields? && received[0].detail.agentId == agentId
    ensures received[0].metadata == map[]
    ensures remaining == []
  {
    var hooks := new HookManager();
    hooks.Subscribe(AgentSpawned, cb);
    var e := AgentSpawnedEvent(agentId, agentName, task, workspacePath, project, None, now);
    var called, gathered, warnings := hooks.Emit(e, raises);
    assert [cb] == [] + [cb];
    received := seq(|called|, _ => e);
    hooks.Unsubscribe(AgentSpawned, cb);
    remaining := hooks.subscribers[AgentSpawned];
  }
}

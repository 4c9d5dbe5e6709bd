/**
 * AgentFleetManager: a bounded table of active agent instances and a FIFO
 * queue of tasks waiting for capacity. Each awaited step of the source is one
 * atomic transition here: spawning, the start of a run, the recording of its
 * outcome (followed by draining the queue), shutdown and cleanup. The random
 * id suffix, the clock and the agent's outcome are parameters.
 */
module Fleet {
  import opened Wrappers
  import opened Values
  import opened Clock
  import opened AgentBase

  datatype AgentStatus = Spawning | Running | Completed | Failed | Shutdown {
    function Value(): string {
      match this
      case Spawning => "spawning"
      case Running => "running"
      case Completed => "completed"
      case Failed => "failed"
      case Shutdown => "shutdown"
    }

    /** The states cleanup_completed removes. */
    predicate Finished() {
      this == Completed || this == Failed || this == Shutdown
    }
  }

  /** AgentInstance */
  datatype Instance = Instance(
    agentId: string,
    agentName: string,
    project: string,
    task: string,
    status: AgentStatus,
    worktreePath: Option<string>,
    spawnTime: DateTime,
    completionTime: Option<DateTime>,
    result: Option<AgentResult>,
    error: Option<string>)
  {
    /** The instance with status SHUTDOWN and every other field as it was. */
    function Stopped(): Instance {
      this.(status := Shutdown)
    }
  }

  /** A task waiting in the queue (the agent class is always the same one and is left out). */
  datatype QueuedTask = QueuedTask(task: string, project: string, config: Dict, worktreePath: Option<string>)

  predicate IsHexDigit(c: char) { ('0' <= c <= '9') || ('a' <= c <= 'f') }

  /** uuid4().hex[:8] */
  predicate IsIdSuffix(s: string) { |s| == 8 && forall i | 0 <= i < |s| :: IsHexDigit(s[i]) }

  /** config['name'] as spawn_agent reads it. */
  function AgentNameOf(config: Dict): (r: Result<string>)
    ensures r.Ok? <==> "name" in config && config["name"].VStr?
    ensures r.Ok? ==> config["name"] == VStr(r.value)
    ensures "name" !in config ==> r.Err? && r.error.kind == KeyError
  {
    if "name" !in config then Err(Error(KeyError, "name"))
    else if !config["name"].VStr? then Err(Error(TypeError, "agent name is not a string"))
    else Ok(config["name"].s)
  }

  /** f"{name}-{suffix}" */
  function AgentId(name: string, suffix: string): (id: string)
    requires IsIdSuffix(suffix)
    ensures |id| == |name| + 9 && id[..|name|] == name && id[|name|] == '-' && id[|name| + 1..] == suffix
  {
    name + "-" + suffix
  }

  /** The record spawn_agent adds: status SPAWNING, spawned now, nothing completed yet. */
  function SpawnedInstance(id: string, name: string, t: QueuedTask, now: DateTime): Instance {
    Instance(id, name, t.project, t.task, Spawning, t.worktreePath, now, None, None, None)
  }

  /** _run_agent's outcome: COMPLETED with the result, or FAILED with the message, both completed now. */
  function Outcome(inst: Instance, outcome: Result<AgentResult>, now: DateTime): (r: Instance)
    ensures outcome.Ok? ==> r.status == Completed && r.result == Some(outcome.value) && r.error == inst.error
    ensures outcome.Err? ==> r.status == Failed && r.error == Some(outcome.error.message) && r.result == inst.result
    ensures r.completionTime == Some(now)
    ensures r.(status := inst.status, completionTime := inst.completionTime, result := inst.result, error := inst.error) == inst
  {
    match outcome
    case Ok(res) => inst.(result := Some(res), status := Completed, completionTime := Some(now))
    case Err(e) => inst.(status := Failed, error := Some(e.message), completionTime := Some(now))
  }

  /** Every instance is filed under its own id, and a completed one holds its result. */
  predicate TableValid(active: map<string, Instance>) {
    && (forall id | id in active :: active[id].agentId == id)
    && (forall id | id in active :: active[id].status == Completed ==> active[id].result.Some?)
  }

  /** The ids get_running_count counts. */
  function RunningIds(active: map<string, Instance>): set<string> {
    set id | id in active && active[id].status == Running
  }

  /**
   * One poll of wait_for_agent: an unknown id raises ValueError, a failed
   * agent RuntimeError, a completed one yields its result; otherwise the
   * timeout is checked (a timeout of None or 0 never expires) and None means
   * "sleep and poll again".
   */
  function Poll(active: map<string, Instance>, id: string, elapsed: real, timeout: Option<real>): (r: Option<Result<AgentResult>>)
    requires TableValid(active)
    ensures id !in active ==> r.Some? && r.value.Err? && r.value.error.kind == ValueError
    ensures id in active && active[id].status == Failed ==> r.Some? && r.value.Err? && r.value.error.kind == RuntimeError
    ensures id in active && active[id].status == Completed ==> r == Some(Ok(active[id].result.value))
    ensures r.Some? && r.value.Ok? ==> id in active && active[id].status == Completed
    ensures id in active && !(active[id].status == Completed || active[id].status == Failed) ==>
      (r.None? <==> !(timeout.Some? && timeout.value != 0.0 && elapsed > timeout.value))
    ensures r.Some? && r.value.Err? && r.value.error.kind == TimeoutError ==>
      id in active && timeout.Some? && elapsed > timeout.value
  {
    if id !in active then Some(Err(Error(ValueError, "Agent not found")))
    else
      var inst := active[id];
      if inst.status == Failed then
        Some(Err(Error(RuntimeError, "Agent failed: " + inst.error.GetOr("None"))))
      else if inst.status == Completed then Some(Ok(inst.result.value))
      else if timeout.Some? && timeout.value != 0.0 && elapsed > timeout.value then
        Some(Err(Error(TimeoutError, "Agent did not complete in time")))
      else None
  }

  /** Once the run has recorded a result, waiting for the agent returns exactly that result. */
  lemma WaitSeesResult(active: map<string, Instance>, id: string, res: AgentResult, now: DateTime,
                       elapsed: real, timeout: Option<real>)
    requires TableValid(active) && id in active
    ensures TableValid(active[id := Outcome(active[id], Ok(res), now)])
    ensures Poll(active[id := Outcome(active[id], Ok(res), now)], id, elapsed, timeout) == Some(Ok(res))
  {
    var m := active[id := Outcome(active[id], Ok(res), now)];
    assert m[id].status == Completed && m[id].result == Some(res);
  }

  /** A failed run makes waiting raise RuntimeError, carrying the failure's message. */
  lemma WaitSeesFailure(active: map<string, Instance>, id: string, e: Error, now: DateTime,
                        elapsed: real, timeout: Option<real>)
    requires TableValid(active) && id in active
    ensures TableValid(active[id := Outcome(active[id], Err(e), now)])
    ensures Poll(active[id := Outcome(active[id], Err(e), now)], id, elapsed, timeout)
      == Some(Err(Error(RuntimeError, "Agent failed: " + e.message)))
  {
    var m := active[id := Outcome(active[id], Err(e), now)];
    assert m[id].status == Failed && m[id].error == Some(e.message);
  }

  /** Waiting for a shut-down agent never returns its result: it ends only by a timeout. */
  lemma ShutdownNeverResolves(active: map<string, Instance>, id: string, elapsed: real, timeout: Option<real>)
    requires TableValid(active) && id in active && active[id].status == Shutdown
    ensures Poll(active, id, elapsed, timeout).Some? ==>
      (Poll(active, id, elapsed, timeout).value.Err? && Poll(active, id, elapsed, timeout).value.error.kind == TimeoutError)
    ensures timeout.None? ==> Poll(active, id, elapsed, timeout).None?
  {
  }

  /** Shutting down a running agent takes it out of the running count, and only it. */
  lemma ShutdownLeavesRunning(active: map<string, Instance>, id: string)
    requires id in active
    ensures RunningIds(active[id := active[id].Stopped()]) == RunningIds(active) - {id}
  {
  }

  /** The i-th id is the one spawned from the i-th task, with the i-th suffix, and is in the table. */
  predicate SpawnedInOrder(ids: seq<string>, tasks: seq<QueuedTask>, suffixes: seq<string>, active: map<string, Instance>)
  {
    && |ids| <= |tasks| && |ids| <= |suffixes|
    && (forall i | 0 <= i < |ids| :: AgentNameOf(tasks[i].config).Ok? && IsIdSuffix(suffixes[i])
         && ids[i] == AgentId(AgentNameOf(tasks[i].config).value, suffixes[i]))
    && (forall i | 0 <= i < |ids| :: ids[i] in active)
  }

  /** One more task spawned, in a table that only grew. */
  lemma SpawnedInOrderGrows(ids: seq<string>, tasks: seq<QueuedTask>, suffixes: seq<string>,
                            a1: map<string, Instance>, a2: map<string, Instance>, id: string)
    requires SpawnedInOrder(ids, tasks, suffixes, a1) && a1.Keys <= a2.Keys
    requires |ids| < |tasks| && |ids| < |suffixes| && IsIdSuffix(suffixes[|ids|])
    requires AgentNameOf(tasks[|ids|].config).Ok?
    requires id == AgentId(AgentNameOf(tasks[|ids|].config).value, suffixes[|ids|]) && id in a2
    ensures SpawnedInOrder(ids + [id], tasks, suffixes, a2)
  {
  }

  /** The table after _run_agent records the outcome on the instance, when it is still there. */
  function Recorded(active: map<string, Instance>, id: string, outcome: Result<AgentResult>, now: DateTime): (a: map<string, Instance>)
    requires TableValid(active)
    ensures TableValid(a) && a.Keys == active.Keys
    ensures id in active ==> a[id] == Outcome(active[id], outcome, now)
    ensures forall k | k in active && k != id :: a[k] == active[k]
  {
    if id in active then active[id := Outcome(active[id], outcome, now)] else active
  }

  /** Every instance of a0 whose id was not spawned over is still in a1 unchanged. */
  predicate Unspawned(a0: map<string, Instance>, a1: map<string, Instance>, spawned: seq<string>) {
    forall k | k in a0 && k !in spawned :: k in a1 && a1[k] == a0[k]
  }

  /** Spawning one more id keeps every other instance. */
  lemma UnspawnedGrows(a0: map<string, Instance>, a1: map<string, Instance>, a2: map<string, Instance>,
                       spawned: seq<string>, id: string)
    requires Unspawned(a0, a1, spawned)
    requires forall k | k in a1 && k != id :: k in a2 && a2[k] == a1[k]
    ensures Unspawned(a0, a2, spawned + [id])
  {
  }

  lemma {:induction false} SubsetSize<T>(a: set<T>, b: set<T>)
    requires a <= b
    ensures |a| <= |b|
    decreases |b|
  {
    if a != {} {
      var x :| x in a;
      SubsetSize(a - {x}, b - {x});
    }
  }

  class FleetManager {
    const maxConcurrent: int
    var active: map<string, Instance>
    var queue: seq<QueuedTask>

    /** The table never holds more than max_concurrent instances. */
    ghost predicate Valid()
      reads this
    {
      && (|active| <= maxConcurrent || active == map[])
      && TableValid(active)
    }

    constructor(maxConcurrent: int)
      ensures Valid() && this.maxConcurrent == maxConcurrent && active == map[] && queue == []
    {
      this.maxConcurrent := maxConcurrent;
      active := map[];
      queue := [];
    }

    /**
     * spawn_agent: at capacity the task goes to the back of the queue and None
     * is returned; otherwise config['name'] is read and one SPAWNING instance
     * is filed under name + "-" + suffix.
     */
    method Spawn(t: QueuedTask, suffix: string, now: DateTime) returns (r: Result<Option<string>>)
      requires Valid() && IsIdSuffix(suffix)
      modifies this
      ensures Valid()
      ensures |old(active)| >= maxConcurrent ==> r == Ok(None) && active == old(active) && queue == old(queue) + [t]
      ensures |old(active)| < maxConcurrent ==> queue == old(queue) && (r.Ok? ==> r.value.Some?) && (r.Err? ==> AgentNameOf(t.config).Err?)
      ensures r.Ok? && r.value.Some? ==> AgentNameOf(t.config).Ok? && r.value.value == AgentId(AgentNameOf(t.config).value, suffix)
      ensures |old(active)| < maxConcurrent ==> (queue == old(queue)
        && (r.Ok? <==> AgentNameOf(t.config).Ok?)
        && (r.Err? ==> active == old(active) && r.error == AgentNameOf(t.config).error)
        && (r.Ok? ==> var name := AgentNameOf(t.config).value;
              r == Ok(Some(AgentId(name, suffix)))
              && active == old(active)[AgentId(name, suffix) := SpawnedInstance(AgentId(name, suffix), name, t, now)]))
      ensures r.Ok? && r.value.Some? ==> r.value.value in active
      ensures old(active).Keys <= active.Keys
    {
      if |active| >= maxConcurrent {
        queue := queue + [t];
        return Ok(None);
      }
      var name := AgentNameOf(t.config);
      if name.Err? {
        return Err(name.error);
      }
      var id := AgentId(name.value, suffix);
      active := active[id := SpawnedInstance(id, name.value, t, now)];
      r := Ok(Some(id));
    }

    /** The start of _run_agent: the instance becomes RUNNING; an id no longer present raises KeyError. */
    method Start(id: string) returns (r: Result<()>)
      requires Valid()
      modifies this
      ensures Valid() && queue == old(queue)
      ensures r.Ok? <==> id in old(active)
      ensures r.Err? ==> active == old(active) && r.error.kind == KeyError
      ensures r.Ok? ==> active == old(active)[id := old(active)[id].(status := Running)]
    {
      if id !in active {
        return Err(Error(KeyError, id));
      }
      active := active[id := active[id].(status := Running)];
      r := Ok(());
    }

    /**
     * The end of _run_agent: the outcome is recorded on the instance (when it
     * is still in the table), then the queue is drained.
     */
    method Finish(id: string, outcome: Result<AgentResult>, now: DateTime, suffixes: seq<string>)
      returns (spawned: seq<string>, r: Result<()>)
      requires Valid()
      requires |suffixes| >= |queue| && forall i | 0 <= i < |suffixes| :: IsIdSuffix(suffixes[i])
      modifies this
      ensures Valid()
      ensures old(active).Keys <= active.Keys
      ensures SpawnedInOrder(spawned, old(queue), suffixes, active)
      ensures Unspawned(Recorded(old(active), id, outcome, now), active, spawned)
      ensures r.Ok? ==> queue == old(queue)[|spawned|..] && (queue == [] || |active| >= maxConcurrent)
      ensures r.Err? ==> |spawned| < |old(queue)| && queue == old(queue)[|spawned| + 1..]
    {
      active := Recorded(active, id, outcome, now);
      spawned, r := ProcessQueue(suffixes, now);
    }

    /** One step of _process_queue: the task at the front is removed from the queue and spawned. */
    method SpawnFront(suffix: string, now: DateTime) returns (r: Result<string>)
      requires Valid() && queue != [] && |active| < maxConcurrent && IsIdSuffix(suffix)
      modifies this
      ensures Valid() && queue == old(queue)[1..] && old(active).Keys <= active.Keys
      ensures r.Ok? <==> AgentNameOf(old(queue)[0].config).Ok?
      ensures r.Ok? ==> r.value == AgentId(AgentNameOf(old(queue)[0].config).value, suffix) && r.value in active
      ensures r.Err? ==> r.error == AgentNameOf(old(queue)[0].config).error
      ensures forall k | k in old(active) && (r.Err? || k != r.value) :: k in active && active[k] == old(active)[k]
    {
      var t := queue[0];
      queue := queue[1..];
      var s := Spawn(t, suffix, now);
      if s.Err? {
        return Err(s.error);
      }
      r := Ok(s.value.value);
    }

    /**
     * _process_queue: while tasks wait and capacity remains, the task at the
     * front is removed and spawned; an exception from spawning ends the drain
     * with that task already removed. The ids spawned come back in order.
     */
    method ProcessQueue(suffixes: seq<string>, now: DateTime) returns (spawned: seq<string>, r: Result<()>)
      requires Valid()
      requires |suffixes| >= |queue| && forall i | 0 <= i < |suffixes| :: IsIdSuffix(suffixes[i])
      modifies this
      ensures Valid()
      ensures old(active).Keys <= active.Keys
      ensures SpawnedInOrder(spawned, old(queue), suffixes, active)
      ensures r.Ok? ==> queue == old(queue)[|spawned|..] && (queue == [] || |active| >= maxConcurrent)
      ensures r.Err? ==> (|spawned| < |old(queue)| && queue == old(queue)[|spawned| + 1..]
        && AgentNameOf(old(queue)[|spawned|].config).Err?)
      ensures Unspawned(old(active), active, spawned)
    {
      spawned := [];
      ghost var q0 := queue;
      while queue != [] && |active| < maxConcurrent
        invariant Valid()
        invariant |spawned| <= |q0| && queue == q0[|spawned|..]
        invariant old(active).Keys <= active.Keys
        invariant SpawnedInOrder(spawned, q0, suffixes, active)
        invariant Unspawned(old(active), active, spawned)
        decreases |queue|
      {
        ghost var before := active;
        var s := SpawnFront(suffixes[|spawned|], now);
        if s.Err? {
          return spawned, Err(s.error);
        }
        SpawnedInOrderGrows(spawned, q0, suffixes, before, active, s.value);
        UnspawnedGrows(old(active), before, active, spawned, s.value);
        spawned := spawned + [s.value];
      }
      r := Ok(());
    }

    /** get_running_count */
    function RunningCount(): (n: nat)
      reads this
      ensures n <= |active|
    {
      SubsetSize(RunningIds(active), active.Keys);
      |RunningIds(active)|
    }

    /** list_agents_by_project: every instance of the project exactly once (in no particular order here). */
    method ListAgentsByProject(project: string) returns (r: seq<Instance>)
      requires Valid()
      ensures forall i | 0 <= i < |r| :: r[i].project == project && r[i].agentId in active && active[r[i].agentId] == r[i]
      ensures forall id | id in active && active[id].project == project :: active[id] in r
      ensures forall i, j | 0 <= i < j < |r| :: r[i].agentId != r[j].agentId
    {
      r := [];
      var pending := active.Keys;
      while pending != {}
        invariant pending <= active.Keys
        invariant forall i | 0 <= i < |r| :: (r[i].project == project && r[i].agentId in active
          && r[i].agentId !in pending && active[r[i].agentId] == r[i])
        invariant forall id | id in active && id !in pending && active[id].project == project :: active[id] in r
        invariant forall i, j | 0 <= i < j < |r| :: r[i].agentId != r[j].agentId
        decreases |pending|
      {
        var id :| id in pending;
        if active[id].project == project {
          r := r + [active[id]];
        }
        pending := pending - {id};
      }
    }

    /** cleanup_completed: exactly the COMPLETED, FAILED and SHUTDOWN instances are removed. */
    method CleanupCompleted()
      requires Valid()
      modifies this
      ensures Valid() && queue == old(queue)
      ensures forall id :: id in active <==> id in old(active) && (old(active)[id].status == Spawning || old(active)[id].status == Running)
      ensures forall id | id in active :: active[id] == old(active)[id]
    {
      var toRemove: set<string> := {};
      var pending := active.Keys;
      while pending != {}
        invariant pending <= active.Keys
        invariant forall id :: id in toRemove <==> id in active && id !in pending && active[id].status.Finished()
        decreases |pending|
      {
        var id :| id in pending;
        if active[id].status.Finished() {
          toRemove := toRemove + {id};
        }
        pending := pending - {id};
      }
      assert (active - toRemove).Keys <= active.Keys;
      active := active - toRemove;
    }

    /** shutdown_agent: SHUTDOWN for a present id, nothing for an unknown one. */
    method ShutdownAgent(id: string)
      modifies this
      ensures old(Valid()) ==> Valid()
      ensures queue == old(queue)
      ensures id in old(active) ==> active == old(active)[id := old(active)[id].Stopped()]
      ensures id !in old(active) ==> active == old(active)
      ensures active.Keys == old(active).Keys
      ensures forall k | k in active && k != id :: active[k] == old(active)[k]
    {
      if id in active {
        active := active[id := active[id].Stopped()];
      }
    }

    /** shutdown_all: every instance is shut down and stays in the table. */
    method ShutdownAll()
      requires Valid()
      modifies this
      ensures Valid() && queue == old(queue)
      ensures active.Keys == old(active).Keys
      ensures forall id | id in active :: active[id] == old(active)[id].Stopped()
    {
      ghost var a0 := active;
      var pending := active.Keys;
      while pending != {}
        invariant queue == old(queue) && Valid()
        invariant pending <= active.Keys && active.Keys == a0.Keys
        invariant forall id | id in active && id in pending :: active[id] == a0[id]
        invariant forall id | id in active && id !in pending :: active[id] == a0[id].Stopped()
        decreases |pending|
      {
        var id :| id in pending;
        ShutdownAgent(id);
        pending := pending - {id};
      }
    }
  }
}

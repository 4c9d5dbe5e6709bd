/**
 * WorktreeManager: the table of tracked git worktrees, one per agent, with
 * locking, removal, age-based cleanup, the path and branch naming, and the
 * parser of `git worktree list --porcelain` output. Git itself and the file
 * system are inputs: each git command is an outcome, each existence test a flag.
 */
module Worktrees {
  import opened Wrappers
  import opened Clock
  import opened Text

  /** Worktree; `locked` is False unless given. */
  datatype Worktree = Worktree(path: string, branch: string, agentId: string, createdAt: DateTime, locked: bool)

  /** A git subprocess: exit status 0, another exit status, or an exception (a timeout included). */
  datatype GitRun = Succeeded | Failed | Raised

  // ---------------------------------------------------------------------------
  // Paths
  // ---------------------------------------------------------------------------

  /** os.path.join(a, b) on POSIX. */
  function PathJoin(a: string, b: string): (p: string)
    ensures b != [] && b[0] != '/' && (a == [] || a[|a| - 1] == '/') ==> p == a + b
    ensures b != [] && b[0] != '/' && a != [] && a[|a| - 1] != '/' ==> p == a + "/" + b
    ensures b != [] && b[0] == '/' ==> p == b
  {
    if b != [] && b[0] == '/' then b
    else if a == [] || a[|a| - 1] == '/' then a + b
    else a + "/" + b
  }

  /** The position just after the last '/', 0 when there is none. */
  function SlashEnd(p: string): (i: nat)
    ensures i <= |p| && (i > 0 ==> p[i - 1] == '/')
    ensures forall k | i <= k < |p| :: p[k] != '/'
  {
    if p == [] then 0 else if p[|p| - 1] == '/' then |p| else SlashEnd(p[..|p| - 1])
  }

  predicate AllSlashes(s: string) {
    forall k | 0 <= k < |s| :: s[k] == '/'
  }

  /** s.rstrip('/') */
  function TrimSlashes(s: string): (r: string)
    ensures r == [] || r[|r| - 1] != '/'
  {
    if s == [] || s[|s| - 1] != '/' then s else TrimSlashes(s[..|s| - 1])
  }

  /** os.path.dirname on POSIX: everything before the last '/', trailing slashes dropped unless only slashes remain. */
  function Dirname(p: string): string {
    var head := p[..SlashEnd(p)];
    if head != [] && !AllSlashes(head) then TrimSlashes(head) else head
  }

  /** The directory holding every agent's worktree: <root>/.agent-worktrees */
  function WorktreeBase(root: string): string {
    PathJoin(root, ".agent-worktrees")
  }

  /** Where an agent's worktree lives: <root>/.agent-worktrees/<agent_id> */
  function WorktreePath(root: string, agentId: string): string {
    PathJoin(WorktreeBase(root), agentId)
  }

  /** The branch create_worktree uses: the given one, else "agent-" + agent_id. */
  function BranchName(agentId: string, branch: Option<string>): (b: string)
    ensures branch.None? ==> b == "agent-" + agentId
    ensures branch.Some? ==> b == branch.value
  {
    if branch.None? then "agent-" + agentId else branch.value
  }

  /** A single path component: not empty and free of '/'. */
  predicate IsComponent(s: string) {
    s != [] && forall k | 0 <= k < |s| :: s[k] != '/'
  }

  /** A directory path as realpath yields it: no trailing slash, unless it is made of slashes only. */
  predicate IsDirPath(a: string) {
    a == [] || AllSlashes(a) || a[|a| - 1] != '/'
  }

  /** Taking the dirname undoes joining one path component. */
  lemma DirnameOfJoin(a: string, b: string)
    requires IsComponent(b) && IsDirPath(a)
    ensures Dirname(PathJoin(a, b)) == a
  {
    var p := PathJoin(a, b);
    if a == [] {
      assert p == b && SlashEnd(p) == 0;
    } else if a[|a| - 1] == '/' {
      assert p == a + b;
      assert p[|a| - 1] == '/';
      assert SlashEnd(p) == |a|;
      assert p[..|a|] == a;
    } else {
      assert p == a + "/" + b;
      assert p[|a|] == '/';
      assert SlashEnd(p) == |a| + 1;
      assert p[..|a| + 1] == a + "/";
      assert !AllSlashes(a + "/") by { assert (a + "/")[|a| - 1] != '/'; }
      assert (a + "/")[..|a|] == a;
      assert TrimSlashes(a + "/") == TrimSlashes(a);
    }
  }

  /**
   * remove_worktree and sync_worktree_to_main take the repository root as the
   * dirname of the dirname of the worktree's path: that is the root the
   * worktree was created under.
   */
  lemma RepoRootOfWorktree(root: string, agentId: string)
    requires IsDirPath(root) && IsComponent(agentId)
    ensures Dirname(Dirname(WorktreePath(root, agentId))) == root
  {
    var base := WorktreeBase(root);
    assert IsComponent(".agent-worktrees");
    DirnameOfJoin(root, ".agent-worktrees");
    assert base[|base| - 1] == 's';
    DirnameOfJoin(base, agentId);
  }

  // ---------------------------------------------------------------------------
  // The tracking table
  // ---------------------------------------------------------------------------

  /** Every worktree is filed under its own agent id and carries a valid creation time. */
  predicate TableValid(m: map<string, Worktree>) {
    forall id | id in m :: m[id].agentId == id && Clock.Valid(m[id].createdAt)
  }

  /** unlock_worktree's effect: the tracked entry is unlocked, everything else stays. */
  function Unlock(m: map<string, Worktree>, agentId: string): (r: map<string, Worktree>)
    ensures r.Keys == m.Keys
    ensures agentId in m ==> !r[agentId].locked && r[agentId] == m[agentId].(locked := false)
    ensures forall id | id in m && id != agentId :: r[id] == m[id]
  {
    if agentId in m then m[agentId := m[agentId].(locked := false)] else m
  }

  /**
   * remove_worktree's effect: an untracked id, or a locked worktree without
   * force, changes nothing; otherwise the entry goes exactly when git removed it.
   */
  function Removed(m: map<string, Worktree>, agentId: string, force: bool, run: GitRun): (r: map<string, Worktree>)
    ensures forall id | id in r :: id in m && r[id] == m[id]
    ensures forall id | id in m && id != agentId :: id in r
    ensures agentId in m ==> (agentId !in r <==> (!m[agentId].locked || force) && run == Succeeded)
  {
    if agentId !in m then m
    else if m[agentId].locked && !force then m
    else if run == Succeeded then m - {agentId}
    else m
  }

  /** A worktree cleanup removes: unlocked and created before now minus the given hours. */
  predicate Stale(w: Worktree, now: DateTime, hours: int)
    requires Clock.Valid(w.createdAt) && Clock.Valid(now)
  {
    !w.locked && OlderThan(w.createdAt, now, hours)
  }

  /** The ids a cleanup attempts to remove. */
  function StaleIds(m: map<string, Worktree>, now: DateTime, hours: int): (s: set<string>)
    requires TableValid(m) && Clock.Valid(now)
    ensures forall id | id in s :: id in m && !m[id].locked
  {
    set id | id in m && Stale(m[id], now, hours)
  }

  /** The table after a cleanup: the stale entries whose removal succeeded are gone. */
  function Swept(m: map<string, Worktree>, now: DateTime, hours: int, runs: string -> GitRun): (r: map<string, Worktree>)
    requires TableValid(m) && Clock.Valid(now)
    ensures TableValid(r)
  {
    SweptBut(m, {}, now, hours, runs)
  }

  /** The table part-way through a cleanup: the entries still `pending` have not been looked at. */
  function SweptBut(m: map<string, Worktree>, pending: set<string>, now: DateTime, hours: int, runs: string -> GitRun)
    : (r: map<string, Worktree>)
    requires TableValid(m) && Clock.Valid(now)
    ensures TableValid(r)
  {
    map id | id in m && (id in pending || !(Stale(m[id], now, hours) && runs(id) == Succeeded)) :: m[id]
  }

  /** The ids attempted so far grow by the entry looked at when it is stale. */
  lemma StaleStep(m: map<string, Worktree>, pending: set<string>, now: DateTime, hours: int, id: string)
    requires TableValid(m) && Clock.Valid(now) && id in pending && pending <= m.Keys
    ensures StaleIds(m, now, hours) - (pending - {id})
         == (StaleIds(m, now, hours) - pending) + (if Stale(m[id], now, hours) then {id} else {})
  {
  }

  /** Looking at one more entry: a stale one goes through remove_worktree, any other is kept. */
  lemma SweepStep(m: map<string, Worktree>, pending: set<string>, now: DateTime, hours: int, runs: string -> GitRun,
                  id: string)
    requires TableValid(m) && Clock.Valid(now) && id in pending && pending <= m.Keys
    ensures Stale(m[id], now, hours) ==>
      SweptBut(m, pending - {id}, now, hours, runs) == Removed(SweptBut(m, pending, now, hours, runs), id, false, runs(id))
    ensures !Stale(m[id], now, hours) ==>
      SweptBut(m, pending - {id}, now, hours, runs) == SweptBut(m, pending, now, hours, runs)
  {
    var before := SweptBut(m, pending, now, hours, runs);
    var after := SweptBut(m, pending - {id}, now, hours, runs);
    assert id in before && before[id] == m[id];
    if Stale(m[id], now, hours) {
      var removed := Removed(before, id, false, runs(id));
      assert after.Keys == removed.Keys;
    } else {
      assert after.Keys == before.Keys;
    }
  }

  /** Unlocking twice is unlocking once. */
  lemma UnlockIdempotent(m: map<string, Worktree>, agentId: string)
    ensures Unlock(Unlock(m, agentId), agentId) == Unlock(m, agentId)
  {
  }

  /** A freshly created worktree is locked: removing it without force does nothing until it is unlocked. */
  lemma LockedUntilUnlocked(m: map<string, Worktree>, w: Worktree, run: GitRun)
    requires w.locked
    ensures Removed(m[w.agentId := w], w.agentId, false, run) == m[w.agentId := w]
    ensures run == Succeeded ==> Removed(Unlock(m[w.agentId := w], w.agentId), w.agentId, false, run) == m - {w.agentId}
  {
    var n := Unlock(m[w.agentId := w], w.agentId);
    if run == Succeeded {
      assert Removed(n, w.agentId, false, run) == n - {w.agentId};
      assert n - {w.agentId} == m - {w.agentId};
    }
  }

  /** A cleanup never removes a locked worktree, nor a recent one, nor changes any entry it keeps. */
  lemma SweepKeeps(m: map<string, Worktree>, now: DateTime, hours: int, runs: string -> GitRun, id: string)
    requires TableValid(m) && Clock.Valid(now) && id in m
    requires m[id].locked || !OlderThan(m[id].createdAt, now, hours)
    ensures id in Swept(m, now, hours, runs) && Swept(m, now, hours, runs)[id] == m[id]
  {
  }

  // ---------------------------------------------------------------------------
  // The porcelain listing
  // ---------------------------------------------------------------------------

  /** One listed worktree: "path", "branch" and "head" entries, as far as they were seen. */
  type Listing = map<string, string>

  /** The record so far, when it is not empty. */
  function Flush(current: Listing): (r: seq<Listing>)
    ensures |r| <= 1 && (r == [] <==> current == map[]) && (r != [] ==> r[0] == current)
  {
    if current == map[] then [] else [current]
  }

  /**
   * One porcelain line: the records it completes and the record then being
   * built. A "worktree " line starts a new record, "branch " and "HEAD "
   * lines set an entry of the current one, a blank line closes it, other
   * lines are skipped.
   */
  function Feed(current: Listing, line: string): (seq<Listing>, Listing) {
    if StartsWith(line, "worktree ") then (Flush(current), map["path" := ReplaceAll(line, "worktree ", "")])
    else if StartsWith(line, "branch ") then ([], current["branch" := ReplaceAll(line, "branch ", "")])
    else if StartsWith(line, "HEAD ") then ([], current["head" := ReplaceAll(line, "HEAD ", "")])
    else if line == "" then (Flush(current), map[])
    else ([], current)
  }

  /** The records of the porcelain lines, given the record being built; the last one is closed at the end. */
  function Listings(current: Listing, lines: seq<string>): seq<Listing>
    decreases |lines|
  {
    if lines == [] then Flush(current)
    else
      var (out, next) := Feed(current, lines[0]);
      out + Listings(next, lines[1..])
  }

  /** No record comes out empty. */
  lemma {:induction false} ListingsNonEmpty(current: Listing, lines: seq<string>)
    ensures forall i | 0 <= i < |Listings(current, lines)| :: Listings(current, lines)[i] != map[]
    decreases |lines|
  {
    if lines != [] {
      var (out, next) := Feed(current, lines[0]);
      ListingsNonEmpty(next, lines[1..]);
      assert Listings(current, lines) == out + Listings(next, lines[1..]);
    }
  }

  /** The paths of the records that have one, in order. */
  function Paths(records: seq<Listing>): seq<string> {
    if records == [] then []
    else (if "path" in records[0] then [records[0]["path"]] else []) + Paths(records[1..])
  }

  /** The paths named by the "worktree " lines, in order. */
  function WorktreeLines(lines: seq<string>): seq<string> {
    if lines == [] then []
    else
      (if StartsWith(lines[0], "worktree ") then [ReplaceAll(lines[0], "worktree ", "")] else [])
      + WorktreeLines(lines[1..])
  }

  lemma {:induction false} PathsAppend(a: seq<Listing>, b: seq<Listing>)
    ensures Paths(a + b) == Paths(a) + Paths(b)
  {
    if a != [] {
      assert (a + b)[1..] == a[1..] + b;
      PathsAppend(a[1..], b);
    } else {
      assert a + b == b;
    }
  }

  /**
   * Every "worktree " line yields exactly one record with that path, in input
   * order, and no other record has a path.
   */
  lemma {:induction false} ListingPaths(current: Listing, lines: seq<string>)
    ensures Paths(Listings(current, lines))
         == (if "path" in current then [current["path"]] else []) + WorktreeLines(lines)
    decreases |lines|
  {
    var own := if "path" in current then [current["path"]] else [];
    if lines == [] {
      assert Paths(Flush(current)) == own;
    } else {
      var out, next := Feed(current, lines[0]).0, Feed(current, lines[0]).1;
      var rest := lines[1..];
      var ownNext := if "path" in next then [next["path"]] else [];
      var line := if StartsWith(lines[0], "worktree ") then [ReplaceAll(lines[0], "worktree ", "")] else [];
      ListingsCons(current, lines);
      ListingPaths(next, rest);
      PathsAppend(out, Listings(next, rest));
      FeedPaths(current, lines[0]);
      assert WorktreeLines(lines) == line + WorktreeLines(rest);
      assert Paths(out) + (ownNext + WorktreeLines(rest)) == (own + line) + WorktreeLines(rest);
    }
  }

  /** One line's completed records and the record then being built carry the paths of the record before and of the line. */
  lemma FeedPaths(current: Listing, line: string)
    ensures Paths(Feed(current, line).0)
      + (if "path" in Feed(current, line).1 then [Feed(current, line).1["path"]] else [])
        == (if "path" in current then [current["path"]] else [])
           + (if StartsWith(line, "worktree ") then [ReplaceAll(line, "worktree ", "")] else [])
  {
    assert Paths(Flush(current)) == if "path" in current then [current["path"]] else [];
  }

  /** A "worktree " line whose path does not repeat the prefix yields the path unchanged. */
  lemma WorktreeLinePath(path: string)
    requires !Contains(path, "worktree ")
    ensures ReplaceAll("worktree " + path, "worktree ", "") == path
  {
    var line := "worktree " + path;
    assert StartsWith(line, "worktree ");
    assert line[|"worktree "|..] == path;
  }

  /**
   * The porcelain parse of list_worktrees: line by line, with the record
   * being built in `current`; what each line does is `Feed`.
   */
  method ParsePorcelain(stdout: string) returns (worktrees: seq<Listing>)
    ensures worktrees == Listings(map[], Split(stdout, '\n'))
  {
    var lines := Split(stdout, '\n');
    worktrees := [];
    var current: Listing := map[];
    var k := 0;
    while k < |lines|
      invariant 0 <= k <= |lines|
      invariant worktrees + Listings(current, lines[k..]) == Listings(map[], lines)
    {
      ListingsStep(worktrees, current, lines, k);
      worktrees := worktrees + Feed(current, lines[k]).0;
      current := Feed(current, lines[k]).1;
      k := k + 1;
    }
    assert lines[k..] == [];
    if current != map[] {
      worktrees := worktrees + [current];
    }
  }

  /** Feeding line k moves its completed records from the rest of the parse to the output. */
  lemma ListingsStep(done: seq<Listing>, current: Listing, lines: seq<string>, k: nat)
    requires k < |lines|
    ensures (done + Feed(current, lines[k]).0) + Listings(Feed(current, lines[k]).1, lines[k + 1..])
         == done + Listings(current, lines[k..])
  {
    var rest := lines[k..];
    assert rest[0] == lines[k] && rest[1..] == lines[k + 1..];
    ListingsCons(current, rest);
  }

  lemma ListingsCons(current: Listing, lines: seq<string>)
    requires lines != []
    ensures Listings(current, lines) == Feed(current, lines[0]).0 + Listings(Feed(current, lines[0]).1, lines[1..])
  {
  }

  // ---------------------------------------------------------------------------
  // The manager
  // ---------------------------------------------------------------------------

  /**
   * What create_worktree learns outside the process: whether the path is a
   * git repository, the repository root git reports (None when it fails),
   * whether the worktree directory already exists, and the outcomes of
   * `git worktree add -b` and of the retry without -b.
   */
  datatype CreateEnv = CreateEnv(isRepo: bool, root: Option<string>, pathExists: bool, addBranch: GitRun, addPlain: GitRun)

  /** The worktree got created: the first add worked, or it failed with an exit status and the retry worked. */
  predicate Added(env: CreateEnv) {
    env.addBranch == Succeeded || (env.addBranch == Failed && env.addPlain == Succeeded)
  }

  /** A usable repository root: git answered with a non-empty path. */
  predicate HasRoot(env: CreateEnv) {
    env.isRepo && env.root.Some? && env.root.value != ""
  }

  class WorktreeManager {
    const cleanupAfterHours: int
    var active: map<string, Worktree>

    ghost predicate Valid()
      reads this
    {
      TableValid(active)
    }

    constructor(cleanupAfterHours: int)
      ensures Valid() && this.cleanupAfterHours == cleanupAfterHours && active == map[]
    {
      this.cleanupAfterHours := cleanupAfterHours;
      active := map[];
    }

    /**
     * create_worktree: None for a non-repository or without a root; the
     * existing directory's path, untracked, when it is already there; else
     * the path of a new worktree, tracked locked under agent_id, or None when
     * git could not add it.
     */
    method CreateWorktree(agentId: string, branch: Option<string>, env: CreateEnv, now: DateTime)
      returns (r: Option<string>)
      requires Valid() && Clock.Valid(now)
      modifies this
      ensures Valid()
      ensures !HasRoot(env) ==> r.None? && active == old(active)
      ensures HasRoot(env) && env.pathExists ==> r == Some(WorktreePath(env.root.value, agentId)) && active == old(active)
      ensures HasRoot(env) && !env.pathExists && !Added(env) ==> r.None? && active == old(active)
      ensures HasRoot(env) && !env.pathExists && Added(env) ==> (
        var path := WorktreePath(env.root.value, agentId);
        r == Some(path)
        && active == old(active)[agentId := Worktree(path, BranchName(agentId, branch), agentId, now, true)])
    {
      if !env.isRepo {
        return None;
      }
      if env.root.None? || env.root.value == "" {
        return None;
      }
      var path := PathJoin(WorktreeBase(env.root.value), agentId);
      if env.pathExists {
        return Some(path);
      }
      var name := BranchName(agentId, branch);
      if env.addBranch == Raised {
        return None;
      }
      if env.addBranch == Failed && env.addPlain != Succeeded {
        return None;
      }
      active := active[agentId := Worktree(path, name, agentId, now, true)];
      r := Some(path);
    }

    /** remove_worktree; `run` is the outcome of `git worktree remove`. */
    method RemoveWorktree(agentId: string, force: bool, run: GitRun)
      requires Valid()
      modifies this
      ensures Valid()
      ensures active == Removed(old(active), agentId, force, run)
    {
      if agentId !in active {
        return;
      }
      var worktree := active[agentId];
      if worktree.locked && !force {
        return;
      }
      if run == Succeeded {
        active := active - {agentId};
      }
    }

    /** unlock_worktree */
    method UnlockWorktree(agentId: string)
      requires Valid()
      modifies this
      ensures Valid()
      ensures active == Unlock(old(active), agentId)
    {
      if agentId in active {
        active := active[agentId := active[agentId].(locked := false)];
      }
    }

    /**
     * cleanup_old_worktrees: nothing happens without a repository, its root or
     * the worktree directory; otherwise every unlocked worktree older than
     * cleanup_after_hours is removed without force (`runs` gives each removal's
     * git outcome). The ids whose removal was attempted come back.
     */
    method CleanupOldWorktrees(isRepo: bool, root: Option<string>, baseExists: bool, now: DateTime,
                               runs: string -> GitRun) returns (attempted: set<string>)
      requires Valid() && Clock.Valid(now)
      modifies this
      ensures Valid()
      ensures !(isRepo && root.Some? && root.value != "" && baseExists) ==> active == old(active) && attempted == {}
      ensures isRepo && root.Some? && root.value != "" && baseExists ==>
        active == Swept(old(active), now, cleanupAfterHours, runs)
        && attempted == StaleIds(old(active), now, cleanupAfterHours)
    {
      attempted := {};
      if !isRepo || root.None? || root.value == "" || !baseExists {
        return;
      }
      ghost var a0 := active;
      var pending := active.Keys;
      assert active == SweptBut(a0, pending, now, cleanupAfterHours, runs);
      while pending != {}
        invariant pending <= a0.Keys
        invariant active == SweptBut(a0, pending, now, cleanupAfterHours, runs)
        invariant attempted == StaleIds(a0, now, cleanupAfterHours) - pending
        decreases |pending|
      {
        var id :| id in pending;
        var stale := SweepOne(a0, pending, id, now, runs);
        StaleStep(a0, pending, now, cleanupAfterHours, id);
        if stale {
          attempted := attempted + {id};
        }
        pending := pending - {id};
      }
    }

    /** One iteration of the sweep: the entry is removed when it is stale, and left alone otherwise. */
    method SweepOne(ghost a0: map<string, Worktree>, ghost pending: set<string>, id: string, now: DateTime,
                    runs: string -> GitRun) returns (stale: bool)
      requires Valid() && TableValid(a0) && Clock.Valid(now) && id in pending && pending <= a0.Keys
      requires active == SweptBut(a0, pending, now, cleanupAfterHours, runs)
      modifies this
      ensures Valid()
      ensures stale == Stale(a0[id], now, cleanupAfterHours)
      ensures active == SweptBut(a0, pending - {id}, now, cleanupAfterHours, runs)
    {
      var worktree := active[id];
      SweepStep(a0, pending, now, cleanupAfterHours, runs, id);
      stale := !worktree.locked && OlderThan(worktree.createdAt, now, cleanupAfterHours);
      if stale {
        RemoveWorktree(id, false, runs(id));
      }
    }

    /**
     * get_or_create_worktree: the repository path itself for a non-repository
     * or when creation fails, the tracked path when the agent already has a
     * worktree, and otherwise whatever create_worktree returned.
     */
    method GetOrCreateWorktree(repoPath: string, agentId: string, branch: Option<string>, env: CreateEnv, now: DateTime)
      returns (path: string)
      requires Valid() && Clock.Valid(now)
      modifies this
      ensures Valid()
      ensures !env.isRepo ==> path == repoPath && active == old(active)
      ensures env.isRepo && agentId in old(active) ==> path == old(active)[agentId].path && active == old(active)
      ensures env.isRepo && agentId in active ==> path == active[agentId].path
      ensures env.isRepo && agentId !in old(active) ==>
        if HasRoot(env) && !env.pathExists && Added(env) then
          path == WorktreePath(env.root.value, agentId)
          && active == old(active)[agentId := Worktree(path, BranchName(agentId, branch), agentId, now, true)]
        else if HasRoot(env) && env.pathExists then path == WorktreePath(env.root.value, agentId) && active == old(active)
        else path == repoPath && active == old(active)
    {
      if !env.isRepo {
        return repoPath;
      }
      if agentId in active {
        return active[agentId].path;
      }
      var created := CreateWorktree(agentId, branch, env, now);
      if created.None? {
        return repoPath;
      }
      path := created.value;
    }

    /** Asking twice for an agent's worktree gives the same path once the first call tracked one. */
    method GetOrCreateTwice(repoPath: string, agentId: string, branch: Option<string>, first: CreateEnv,
                            second: CreateEnv, now: DateTime) returns (p1: string, p2: string)
      requires Valid() && Clock.Valid(now) && first.isRepo && second.isRepo
      modifies this
      ensures Valid()
      ensures agentId in old(active) || (HasRoot(first) && !first.pathExists && Added(first)) ==>
        p1 == p2 && agentId in active
    {
      p1 := GetOrCreateWorktree(repoPath, agentId, branch, first, now);
      p2 := GetOrCreateWorktree(repoPath, agentId, branch, second, now);
    }

    /**
     * sync_worktree_to_main: False for an untracked id. `status` is the output
     * of `git status --porcelain` (None when it raised); a clean tree is
     * already in sync. Otherwise the add, commit and checkout steps run
     * (`steps` is Raised when one of them raised) and the merge decides.
     */
    method SyncWorktreeToMain(agentId: string, status: Option<string>, steps: GitRun, merge: GitRun)
      returns (ok: bool)
      ensures agentId !in active ==> !ok
      ensures agentId in active ==> ok == (status.Some? && (Strip(status.value) == "" ||
                                           (steps != Raised && merge == Succeeded)))
    {
      if agentId !in active {
        return false;
      }
      if status.None? {
        return false;
      }
      if Strip(status.value) == "" {
        return true;
      }
      if steps == Raised {
        return false;
      }
      ok := merge == Succeeded;
    }
  }

  /** list_worktrees: nothing outside a repository or when git fails; otherwise the parsed records. */
  method ListWorktrees(isRepo: bool, output: Option<string>) returns (worktrees: seq<Listing>)
    ensures !isRepo || output.None? ==> worktrees == []
    ensures isRepo && output.Some? ==> worktrees == Listings(map[], Split(output.value, '\n'))
  {
    if !isRepo || output.None? {
      return [];
    }
    worktrees := ParsePorcelain(output.value);
  }
}

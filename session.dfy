/**
 * Workspace sessions: the session record and its dictionary form, and the
 * registry that creates, saves, loads and updates them. The session.json file
 * of each workspace is a map from workspace name to the saved dictionary, the
 * history backups a map from (workspace, minute stamp) to the same; the clock
 * is a parameter.
 */
module Sessions {
  import opened Wrappers
  import opened Values
  import opened Clock
  import opened AgentBase

  datatype SessionRecord = SessionRecord(
    id: string,
    workspace: string,
    primaryAgent: string,
    createdAt: DateTime,
    lastActive: DateTime,
    conversation: seq<Turn>,
    context: Dict,
    totalTokens: int,
    totalCost: real)

  predicate RecordValid(s: SessionRecord) {
    Valid(s.createdAt) && Valid(s.lastActive) && TurnsValid(s.conversation)
  }

  const SessionKeys: set<string> :=
    {"id", "workspace", "primary_agent", "created_at", "last_active", "conversation", "context",
     "total_tokens", "total_cost"}

  /** The nine-entry dictionary of a session, entry by entry. */
  function SessionDict(id: Value, workspace: Value, primaryAgent: Value, createdAt: Value, lastActive: Value,
                       conversation: Value, context: Value, totalTokens: Value, totalCost: Value): (d: Dict)
    ensures d.Keys == SessionKeys
    ensures d["id"] == id && d["workspace"] == workspace && d["primary_agent"] == primaryAgent
    ensures d["created_at"] == createdAt && d["last_active"] == lastActive
    ensures d["conversation"] == conversation && d["context"] == context
    ensures d["total_tokens"] == totalTokens && d["total_cost"] == totalCost
  {
    map["id" := id, "workspace" := workspace, "primary_agent" := primaryAgent, "created_at" := createdAt,
        "last_active" := lastActive, "conversation" := conversation, "context" := context,
        "total_tokens" := totalTokens, "total_cost" := totalCost]
  }

  /** Session.to_dict */
  function SessionToDict(s: SessionRecord): (d: Dict)
    requires RecordValid(s)
    ensures d.Keys == SessionKeys
  {
    SessionDict(VStr(s.id), VStr(s.workspace), VStr(s.primaryAgent), VStr(IsoFormat(s.createdAt)),
                VStr(IsoFormat(s.lastActive)), VList(TurnsToDicts(s.conversation)), VDict(s.context),
                VInt(s.totalTokens), VReal(s.totalCost))
  }

  /** datetime.fromisoformat(data[key]) with the exceptions Python raises. */
  function DateField(d: Dict, key: string): (r: Result<DateTime>)
    ensures r.Ok? ==> key in d && d[key].VStr? && FromIsoFormat(d[key].s) == Some(r.value) && Valid(r.value)
  {
    if key !in d then Err(Error(KeyError, key))
    else if !d[key].VStr? then Err(Error(TypeError, "fromisoformat: argument must be str"))
    else
      match FromIsoFormat(d[key].s)
      case None => Err(Error(ValueError, "Invalid isoformat string"))
      case Some(t) => Ok(t)
  }

  /** Session(**data) once the dates and turns are parsed: exactly the nine keys, each of its field's type. */
  function SessionOfFields(d: Dict, created: DateTime, active: DateTime, turns: seq<Turn>): (r: Result<SessionRecord>)
    ensures r.Ok? ==> d.Keys == SessionKeys
    ensures r.Ok? ==> r.value.createdAt == created && r.value.lastActive == active && r.value.conversation == turns
    ensures r.Ok? ==> (d["id"] == VStr(r.value.id) && d["workspace"] == VStr(r.value.workspace)
      && d["primary_agent"] == VStr(r.value.primaryAgent) && d["context"] == VDict(r.value.context)
      && d["total_tokens"] == VInt(r.value.totalTokens))
    ensures r.Ok? ==> AsReal(d["total_cost"]) == Some(r.value.totalCost)
  {
    if d.Keys != SessionKeys then Err(Error(TypeError, "unexpected or missing keyword argument"))
    else if !(d["id"].VStr? && d["workspace"].VStr? && d["primary_agent"].VStr? && d["context"].VDict?
              && d["total_tokens"].VInt?) || AsReal(d["total_cost"]).None? then
      Err(Error(TypeError, "field of the wrong type"))
    else
      Ok(SessionRecord(d["id"].s, d["workspace"].s, d["primary_agent"].s, created, active, turns,
                       d["context"].entries, d["total_tokens"].i, AsReal(d["total_cost"]).value))
  }

  /**
   * Session.from_dict: created_at, then last_active, then every turn of the
   * conversation is parsed, and the session is built from exactly the nine
   * keyword arguments.
   */
  function SessionFromDict(d: Dict): (r: Result<SessionRecord>)
    ensures r.Ok? ==> RecordValid(r.value) && d.Keys == SessionKeys
  {
    match DateField(d, "created_at")
    case Err(e) => Err(e)
    case Ok(created) =>
      match DateField(d, "last_active")
      case Err(e) => Err(e)
      case Ok(active) =>
        if "conversation" !in d then Err(Error(KeyError, "conversation"))
        else
          match TurnsFromValue(d["conversation"])
          case Err(e) => Err(e)
          case Ok(turns) => SessionOfFields(d, created, active, turns)
  }

  lemma DatesRead(s: SessionRecord)
    requires RecordValid(s)
    ensures DateField(SessionToDict(s), "created_at") == Ok(s.createdAt)
    ensures DateField(SessionToDict(s), "last_active") == Ok(s.lastActive)
  {
    IsoRoundTrip(s.createdAt);
    IsoRoundTrip(s.lastActive);
  }

  lemma TurnsRead(s: SessionRecord)
    requires RecordValid(s)
    ensures "conversation" in SessionToDict(s)
    ensures TurnsFromValue(SessionToDict(s)["conversation"]) == Ok(s.conversation)
  {
    TurnsRoundTrip(s.conversation);
  }

  lemma FieldsRead(s: SessionRecord)
    requires RecordValid(s)
    ensures SessionOfFields(SessionToDict(s), s.createdAt, s.lastActive, s.conversation) == Ok(s)
  {
  }

  /** Session.from_dict(s.to_dict()) == s, every turn included and in order. */
  lemma SessionRoundTrip(s: SessionRecord)
    requires RecordValid(s)
    ensures SessionFromDict(SessionToDict(s)) == Ok(s)
  {
    DatesRead(s);
    TurnsRead(s);
    FieldsRead(s);
  }

  /** The tokens of a conversation, summed. */
  function SumTokens(ts: seq<Turn>): int {
    if ts == [] then 0 else SumTokens(ts[..|ts| - 1]) + ts[|ts| - 1].tokens
  }

  /** The costs of a conversation, summed. */
  function SumCost(ts: seq<Turn>): real {
    if ts == [] then 0.0 else SumCost(ts[..|ts| - 1]) + ts[|ts| - 1].cost
  }

  /** The session's running totals are the sums over its turns. */
  predicate TotalsMatch(s: SessionRecord) {
    s.totalTokens == SumTokens(s.conversation) && s.totalCost == SumCost(s.conversation)
  }

  /** The record create_session builds. */
  function NewRecord(workspace: string, primaryAgent: string, now: DateTime): (s: SessionRecord)
    requires Valid(now)
    ensures RecordValid(s) && TotalsMatch(s)
    ensures s.conversation == [] && s.context == map[] && s.totalTokens == 0 && s.totalCost == 0.0
    ensures s.workspace == workspace && s.primaryAgent == primaryAgent
    ensures s.id == workspace + "_" + CompactStamp(now)
  {
    SessionRecord(workspace + "_" + CompactStamp(now), workspace, primaryAgent, now, now, [], map[], 0, 0.0)
  }

  /** add_turn on the record: the turn appended and its tokens and cost added to the totals. */
  function WithTurn(s: SessionRecord, t: Turn): (r: SessionRecord)
    ensures r.conversation == s.conversation + [t]
    ensures r.totalTokens == s.totalTokens + t.tokens && r.totalCost == s.totalCost + t.cost
    ensures r.(conversation := s.conversation, totalTokens := s.totalTokens, totalCost := s.totalCost) == s
  {
    s.(conversation := s.conversation + [t], totalTokens := s.totalTokens + t.tokens,
       totalCost := s.totalCost + t.cost)
  }

  /** Adding a turn keeps the totals equal to the sums over the turns. */
  lemma WithTurnKeepsTotals(s: SessionRecord, t: Turn)
    requires TotalsMatch(s)
    ensures TotalsMatch(WithTurn(s, t))
  {
    var ts := s.conversation + [t];
    assert ts[..|ts| - 1] == s.conversation;
  }

  /** Adding turns one by one appends them and keeps the totals equal to the sums over the turns. */
  lemma {:induction false} AddAllKeepsTotals(s: SessionRecord, turns: seq<Turn>)
    requires TotalsMatch(s)
    ensures TotalsMatch(AddAll(s, turns))
    ensures AddAll(s, turns).conversation == s.conversation + turns
  {
    if turns != [] {
      var init := turns[..|turns| - 1];
      var last := turns[|turns| - 1];
      AddAllKeepsTotals(s, init);
      WithTurnKeepsTotals(AddAll(s, init), last);
      assert init + [last] == turns;
      assert s.conversation + init + [last] == s.conversation + turns;
    }
  }

  /** Totals of a session built by create_session and then only add_turn. */
  lemma TurnsFromFreshSession(workspace: string, primaryAgent: string, now: DateTime, turns: seq<Turn>)
    requires Valid(now)
    ensures TotalsMatch(AddAll(NewRecord(workspace, primaryAgent, now), turns))
    ensures AddAll(NewRecord(workspace, primaryAgent, now), turns).conversation == turns
  {
    var s := NewRecord(workspace, primaryAgent, now);
    AddAllKeepsTotals(s, turns);
    assert s.conversation + turns == turns;
  }

  /** The record after adding the turns one by one. */
  function AddAll(s: SessionRecord, turns: seq<Turn>): SessionRecord {
    if turns == [] then s else WithTurn(AddAll(s, turns[..|turns| - 1]), turns[|turns| - 1])
  }

  /** A fresh session with one turn added, saved and reloaded, holds exactly that turn. */
  lemma OneTurnSurvivesReload(workspace: string, primaryAgent: string, created: DateTime, saved: DateTime, t: Turn)
    requires Valid(created) && Valid(saved) && TurnValid(t)
    ensures var s := WithTurn(NewRecord(workspace, primaryAgent, created), t).(lastActive := saved);
      SessionFromDict(SessionToDict(s)).Ok? && SessionFromDict(SessionToDict(s)).value.conversation == [t]
  {
    var s := WithTurn(NewRecord(workspace, primaryAgent, created), t).(lastActive := saved);
    assert s.conversation == [t];
    SessionRoundTrip(s);
  }

  /** A session object: the fields add_turn, switch_primary_agent and save_session assign in place. */
  class Session {
    var id: string
    var workspace: string
    var primaryAgent: string
    var createdAt: DateTime
    var lastActive: DateTime
    var conversation: seq<Turn>
    var context: Dict
    var totalTokens: int
    var totalCost: real

    function Record(): SessionRecord
      reads this
    {
      SessionRecord(id, workspace, primaryAgent, createdAt, lastActive, conversation, context,
                    totalTokens, totalCost)
    }

    ghost predicate Valid()
      reads this
    {
      RecordValid(Record())
    }

    constructor(s: SessionRecord)
      ensures Record() == s
    {
      id := s.id;
      workspace := s.workspace;
      primaryAgent := s.primaryAgent;
      createdAt := s.createdAt;
      lastActive := s.lastActive;
      conversation := s.conversation;
      context := s.context;
      totalTokens := s.totalTokens;
      totalCost := s.totalCost;
    }

    /** Assigns every field from the record. */
    method Assign(s: SessionRecord)
      modifies this
      ensures Record() == s
    {
      id, workspace, primaryAgent, createdAt, lastActive := s.id, s.workspace, s.primaryAgent, s.createdAt, s.lastActive;
      conversation, context, totalTokens, totalCost := s.conversation, s.context, s.totalTokens, s.totalCost;
    }
  }

  /** SessionRegistry over its files: session.json per workspace and the minute-stamped backups. */
  class SessionRegistry {
    var files: map<string, Dict>
    var history: map<(string, string), Dict>

    constructor()
      ensures files == map[] && history == map[]
    {
      files := map[];
      history := map[];
    }

    /** save_session: last_active becomes now; the dictionary goes to session.json and to the backup. */
    method SaveSession(s: Session, now: DateTime)
      requires s.Valid() && Clock.Valid(now)
      modifies this, s
      ensures s.Record() == old(s.Record()).(lastActive := now) && s.Valid()
      ensures files == old(files)[s.workspace := SessionToDict(s.Record())]
      ensures history == old(history)[(s.workspace, MinuteStamp(now)) := SessionToDict(s.Record())]
    {
      var saved := s.Record().(lastActive := now);
      var d := SessionToDict(saved);
      files := files[saved.workspace := d];
      history := history[(saved.workspace, MinuteStamp(now)) := d];
      s.Assign(saved);
    }

    /** create_session: a fresh session for the workspace, saved at once. */
    method CreateSession(workspace: string, primaryAgent: string, now: DateTime) returns (s: Session)
      requires Clock.Valid(now)
      modifies this
      ensures fresh(s) && s.Valid() && s.Record() == NewRecord(workspace, primaryAgent, now)
      ensures TotalsMatch(s.Record())
      ensures files == old(files)[workspace := SessionToDict(s.Record())]
    {
      s := new Session(NewRecord(workspace, primaryAgent, now));
      SaveSession(s, now);
    }

    /** load_session: None when the workspace has no session.json, else the session read from it. */
    method LoadSession(workspace: string) returns (r: Result<Option<Session>>)
      ensures workspace !in files ==> r == Ok(None)
      ensures workspace in files ==> (r.Ok? <==> SessionFromDict(files[workspace]).Ok?)
      ensures workspace in files && r.Ok? ==> r.value.Some?
      ensures r.Ok? && r.value.Some? ==> (workspace in files && fresh(r.value.value)
        && r.value.value.Record() == SessionFromDict(files[workspace]).value && r.value.value.Valid())
    {
      if workspace !in files {
        return Ok(None);
      }
      var parsed := SessionFromDict(files[workspace]);
      if parsed.Err? {
        return Err(parsed.error);
      }
      var s := new Session(parsed.value);
      r := Ok(Some(s));
    }

    /** add_turn: the turn appended, its tokens and cost added to the totals, then saved. */
    method AddTurn(s: Session, t: Turn, now: DateTime)
      requires s.Valid() && TurnValid(t) && Clock.Valid(now)
      modifies this, s
      ensures s.Record() == WithTurn(old(s.Record()), t).(lastActive := now) && s.Valid()
      ensures old(TotalsMatch(s.Record())) ==> TotalsMatch(s.Record())
      ensures files == old(files)[s.workspace := SessionToDict(s.Record())]
    {
      var added := WithTurn(s.Record(), t);
      if TotalsMatch(s.Record()) {
        WithTurnKeepsTotals(s.Record(), t);
      }
      s.Assign(added);
      SaveSession(s, now);
    }

    /** switch_primary_agent: only the primary agent changes (and last_active, on saving). */
    method SwitchPrimaryAgent(s: Session, newAgent: string, now: DateTime)
      requires s.Valid() && Clock.Valid(now)
      modifies this, s
      ensures s.Record() == old(s.Record()).(primaryAgent := newAgent, lastActive := now) && s.Valid()
      ensures files == old(files)[s.workspace := SessionToDict(s.Record())]
    {
      s.Assign(s.Record().(primaryAgent := newAgent));
      SaveSession(s, now);
    }
  }
}

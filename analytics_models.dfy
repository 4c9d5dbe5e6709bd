/**
 * The analytics records: issues and pull requests as the parsers build
 * them, with the derived fields their dataclass post-initialisation fills in.
 */
module AnalyticsModels {
  import opened Wrappers
  import opened Clock

  /** A datetime: naive when offset is None, else aware with that UTC offset in seconds. */
  datatype Moment = Moment(at: DateTime, offset: Option<int>)

  predicate ValidMoment(m: Moment) {
    Valid(m.at)
  }

  predicate ValidOptMoment(m: Option<Moment>) {
    m.Some? ==> ValidMoment(m.value)
  }

  /**
   * (later - earlier).total_seconds(): two naive datetimes compare wall
   * clocks, two aware ones compare their UTC instants, and mixing the two
   * raises TypeError.
   */
  function Elapsed(earlier: Moment, later: Moment): (r: Result<real>)
    requires ValidMoment(earlier) && ValidMoment(later)
    ensures r.Err? <==> earlier.offset.Some? != later.offset.Some?
    ensures r.Err? ==> r.error.kind == TypeError
  {
    match (earlier.offset, later.offset)
    case (None, None) => Ok(ElapsedSeconds(earlier.at, later.at))
    case (Some(a), Some(b)) => Ok(ElapsedSeconds(earlier.at, later.at) - (b - a) as real)
    case _ => Err(Error(TypeError, "can't subtract offset-naive and offset-aware datetimes"))
  }

  /** Going back in time gives the opposite duration. */
  lemma ElapsedAntisymmetric(a: Moment, b: Moment)
    requires ValidMoment(a) && ValidMoment(b) && Elapsed(a, b).Ok?
    ensures Elapsed(b, a).Ok? && Elapsed(b, a).value == -Elapsed(a, b).value
  {
  }

  /** Two aware datetimes that name the same UTC instant are no time apart. */
  lemma ElapsedSameInstant(a: Moment, b: Moment)
    requires ValidMoment(a) && ValidMoment(b) && a.offset.Some? && b.offset.Some?
    requires Micros(a.at) - a.offset.value * 1000000 == Micros(b.at) - b.offset.value * 1000000
    ensures Elapsed(a, b) == Ok(0.0)
  {
  }

  const SecondsPerDay: real := 86400.0

  datatype Issue = Issue(
    id: Option<string>,
    title: Option<string>,
    description: string,
    status: string,
    createdAt: Moment,
    updatedAt: Option<Moment>,
    resolvedAt: Option<Moment>,
    assignee: Option<string>,
    reporter: Option<string>,
    labels: seq<string>,
    priority: Option<string>,
    issueType: Option<string>,
    timeToResolve: Option<real>)

  datatype PullRequest = PullRequest(
    id: string,
    title: Option<string>,
    description: string,
    state: string,
    createdAt: Moment,
    mergedAt: Option<Moment>,
    closedAt: Option<Moment>,
    author: Option<string>,
    reviewers: seq<string>,
    labels: seq<string>,
    filesChanged: Option<int>,
    additions: Option<int>,
    deletions: Option<int>,
    timeToMerge: Option<real>)

  /** The duration in days a derived field gets: from the post-init subtraction, or kept as given. */
  function DaysBetween(from: Moment, to: Option<Moment>, given: Option<real>): (r: Result<Option<real>>)
    requires ValidMoment(from) && ValidOptMoment(to)
    ensures to.None? ==> r == Ok(given)
    ensures to.Some? ==> (r.Ok? <==> Elapsed(from, to.value).Ok?)
    ensures to.Some? && r.Ok? ==> r.value == Some(Elapsed(from, to.value).value / SecondsPerDay)
    ensures r.Err? ==> r.error.kind == TypeError
  {
    if to.None? then Ok(given)
    else
      match Elapsed(from, to.value)
      case Ok(secs) => Ok(Some(secs / SecondsPerDay))
      case Err(e) => Err(e)
  }

  /**
   * Issue(...): labels given as None become [], and when the issue was
   * resolved time_to_resolve becomes the days between creation and
   * resolution, replacing whatever was passed; a naive/aware mix raises.
   */
  function NewIssue(
    id: Option<string>, title: Option<string>, description: string, status: string,
    createdAt: Moment, updatedAt: Option<Moment>, resolvedAt: Option<Moment>,
    assignee: Option<string>, reporter: Option<string>, labels: Option<seq<string>>,
    priority: Option<string>, issueType: Option<string>, timeToResolve: Option<real>): (r: Result<Issue>)
    requires ValidMoment(createdAt) && ValidOptMoment(resolvedAt)
    ensures r.Ok? <==> DaysBetween(createdAt, resolvedAt, timeToResolve).Ok?
    ensures r.Ok? ==> r.value.labels == labels.GetOr([])
    ensures r.Ok? ==> r.value.timeToResolve == DaysBetween(createdAt, resolvedAt, timeToResolve).value
    ensures r.Ok? ==> (
      && r.value.id == id && r.value.title == title && r.value.status == status
      && r.value.description == description && r.value.createdAt == createdAt
      && r.value.updatedAt == updatedAt && r.value.resolvedAt == resolvedAt
      && r.value.assignee == assignee && r.value.reporter == reporter
      && r.value.priority == priority && r.value.issueType == issueType)
    ensures r.Err? ==> r.error.kind == TypeError
  {
    match DaysBetween(createdAt, resolvedAt, timeToResolve)
    case Ok(days) =>
      Ok(Issue(id, title, description, status, createdAt, updatedAt, resolvedAt,
               assignee, reporter, labels.GetOr([]), priority, issueType, days))
    case Err(e) => Err(e)
  }

  /**
   * PullRequest(...): reviewers and labels given as None become [], and
   * when the PR was merged time_to_merge becomes the days from creation to
   * merge, replacing whatever was passed; a naive/aware mix raises.
   */
  function NewPullRequest(
    id: string, title: Option<string>, description: string, state: string,
    createdAt: Moment, mergedAt: Option<Moment>, closedAt: Option<Moment>,
    author: Option<string>, reviewers: Option<seq<string>>, labels: Option<seq<string>>,
    filesChanged: Option<int>, additions: Option<int>, deletions: Option<int>,
    timeToMerge: Option<real>): (r: Result<PullRequest>)
    requires ValidMoment(createdAt) && ValidOptMoment(mergedAt)
    ensures r.Ok? <==> DaysBetween(createdAt, mergedAt, timeToMerge).Ok?
    ensures r.Ok? ==> r.value.reviewers == reviewers.GetOr([]) && r.value.labels == labels.GetOr([])
    ensures r.Ok? ==> r.value.timeToMerge == DaysBetween(createdAt, mergedAt, timeToMerge).value
    ensures r.Ok? ==> (
      && r.value.id == id && r.value.title == title && r.value.state == state
      && r.value.description == description && r.value.createdAt == createdAt
      && r.value.mergedAt == mergedAt && r.value.closedAt == closedAt
      && r.value.author == author && r.value.filesChanged == filesChanged
      && r.value.additions == additions && r.value.deletions == deletions)
    ensures r.Err? ==> r.error.kind == TypeError
  {
    match DaysBetween(createdAt, mergedAt, timeToMerge)
    case Ok(days) =>
      Ok(PullRequest(id, title, description, state, createdAt, mergedAt, closedAt,
                     author, reviewers.GetOr([]), labels.GetOr([]),
                     filesChanged, additions, deletions, days))
    case Err(e) => Err(e)
  }

  /** An issue resolved exactly n days (of wall clock, both naive) after it was created resolves in n days. */
  lemma ResolvedAfterWholeDays(created: Moment, resolved: Moment, n: int)
    requires ValidMoment(created) && ValidMoment(resolved)
    requires created.offset.None? && resolved.offset.None?
    requires Micros(resolved.at) == Micros(created.at) + n * 86400000000
    ensures DaysBetween(created, Some(resolved), None) == Ok(Some(n as real))
  {
    assert ElapsedSeconds(created.at, resolved.at) == (n * 86400) as real;
  }

  /** An issue resolved before it was created gets a negative time_to_resolve. */
  lemma ResolvedBeforeCreated(created: Moment, resolved: Moment)
    requires ValidMoment(created) && ValidMoment(resolved)
    requires created.offset.None? && resolved.offset.None?
    requires Micros(resolved.at) < Micros(created.at)
    ensures DaysBetween(created, Some(resolved), None).Ok?
    ensures DaysBetween(created, Some(resolved), None).value.value < 0.0
  {
  }
}

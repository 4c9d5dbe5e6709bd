/**
 * The Jira and GitHub CSV export parsers: each row, read as a dictionary
 * from column name to cell, becomes an Issue or a PullRequest, or is
 * dropped when building it raises. The clock and the standard library's
 * datetime parsers are inputs.
 */
module Parsers {
  import opened Wrappers
  import opened Text
  import opened Clock
  import opened AnalyticsModels

  /** A CSV row as csv.DictReader yields it; a column it lacks reads as None. */
  type Row = map<string, string>

  type Instant = d: DateTime | Valid(d) witness DateTime(1970, 1, 1, 0, 0, 0, 0)

  type ParsedMoment = m: Moment | ValidMoment(m) witness Moment(DateTime(1970, 1, 1, 0, 0, 0, 0), None)

  /**
   * What the parsers take from the standard library: datetime.now(),
   * datetime.strptime(text, format) (None where it raises ValueError) and
   * datetime.fromisoformat(text) (likewise).
   */
  datatype Sources = Sources(
    now: Instant,
    strptime: (string, string) -> Option<Instant>,
    fromIsoFormat: string -> Option<ParsedMoment>)

  /** row.get(column) */
  function Cell(row: Row, column: string): Option<string> {
    if column in row then Some(row[column]) else None
  }

  /** Python truthiness of an optional string: present and non-empty. */
  predicate Truthy(v: Option<string>) {
    v.Some? && v.value != ""
  }

  /** a or b */
  function Or(a: Option<string>, b: Option<string>): (r: Option<string>)
    ensures Truthy(r) <==> Truthy(a) || Truthy(b)
    ensures Truthy(a) ==> r == a
  {
    if Truthy(a) then a else b
  }

  /** a or default, for a non-empty default */
  function OrElse(a: Option<string>, default: string): (r: string)
    ensures Truthy(a) ==> r == a.value
    ensures !Truthy(a) ==> r == default
  {
    if Truthy(a) then a.value else default
  }

  /** str(v) for an optional string */
  function PyStr(v: Option<string>): string {
    match v
    case Some(s) => s
    case None => "None"
  }

  // ----- comma-separated lists -----

  function KeepStripped(pieces: seq<string>): (r: seq<string>)
    ensures |r| <= |pieces|
    ensures forall k | 0 <= k < |r| :: r[k] != "" && Unpadded(r[k])
  {
    if pieces == [] then []
    else
      var t := Strip(pieces[0]);
      (if t != "" then [t] else []) + KeepStripped(pieces[1..])
  }

  /** [x.strip() for x in s.split(',') if x.strip()] */
  function SplitList(s: string): seq<string> {
    KeepStripped(Split(s, ','))
  }

  lemma {:induction false} KeepStrippedNoComma(pieces: seq<string>)
    requires forall k | 0 <= k < |pieces| :: ',' !in pieces[k]
    ensures forall k | 0 <= k < |KeepStripped(pieces)| :: ',' !in KeepStripped(pieces)[k]
  {
    if pieces != [] {
      KeepStrippedNoComma(pieces[1..]);
      var t := Strip(pieces[0]);
      if ',' in t {
        MissingCharExcludes(pieces[0], t, ',');
      }
    }
  }

  /** Every item of a comma-separated list is non-empty, unpadded and free of commas. */
  lemma SplitListItems(s: string)
    ensures forall k | 0 <= k < |SplitList(s)| ::
      SplitList(s)[k] != "" && Unpadded(SplitList(s)[k]) && ',' !in SplitList(s)[k]
  {
    KeepStrippedNoComma(Split(s, ','));
  }

  lemma {:induction false} KeepStrippedClean(items: seq<string>)
    requires forall k | 0 <= k < |items| :: items[k] != "" && Unpadded(items[k])
    ensures KeepStripped(items) == items
  {
    if items != [] {
      StripUnpadded(items[0]);
      KeepStrippedClean(items[1..]);
    }
  }

  /** Joining clean labels with commas and parsing the cell gives the labels back. */
  lemma SplitListRoundTrip(items: seq<string>)
    requires forall k | 0 <= k < |items| :: items[k] != "" && Unpadded(items[k]) && ',' !in items[k]
    ensures SplitList(Join(items, [','])) == items
  {
    if items == [] {
      assert Split("", ',') == [""];
    } else {
      SplitJoin(items, ',');
      KeepStrippedClean(items);
    }
  }

  // ----- dates and integers -----

  const JiraDateFormats: seq<string> := [
    "%Y-%m-%d %H:%M:%S", "%Y-%m-%d %H:%M", "%Y-%m-%d",
    "%m/%d/%Y %H:%M:%S", "%m/%d/%Y",
    "%d/%m/%Y %H:%M:%S", "%d/%m/%Y"]

  /** The first format, in order, that strptime accepts. */
  function FirstFormat(src: Sources, s: string, formats: seq<string>): (r: Option<Instant>)
    ensures r.Some? ==> exists i | 0 <= i < |formats| :: r == src.strptime(s, formats[i])
    ensures r.None? <==> forall i | 0 <= i < |formats| :: src.strptime(s, formats[i]).None?
  {
    if formats == [] then None
    else if src.strptime(s, formats[0]).Some? then src.strptime(s, formats[0])
    else FirstFormat(src, s, formats[1..])
  }

  /** A format that parses takes precedence over every later one. */
  lemma {:induction false} FirstFormatWins(src: Sources, s: string, formats: seq<string>, i: nat)
    requires i < |formats| && src.strptime(s, formats[i]).Some?
    requires forall j | 0 <= j < i :: src.strptime(s, formats[j]).None?
    ensures FirstFormat(src, s, formats) == src.strptime(s, formats[i])
  {
    if i > 0 {
      FirstFormatWins(src, s, formats[1..], i - 1);
    }
  }

  /** JiraParser._parse_date: empty text or text no format accepts falls back to now(); always naive. */
  function JiraDate(src: Sources, s: Option<string>): (m: Moment)
    ensures ValidMoment(m) && m.offset.None?
    ensures !Truthy(s) ==> m.at == src.now
    ensures Truthy(s) ==> m.at == FirstFormat(src, s.value, JiraDateFormats).GetOr(src.now)
  {
    if !Truthy(s) then Moment(src.now, None)
    else Moment(FirstFormat(src, s.value, JiraDateFormats).GetOr(src.now), None)
  }

  /**
   * The text _parse_iso_date hands to fromisoformat: for text with a 'T',
   * everything before the first '+', then before the first 'Z'.
   */
  function IsoDatePart(s: string): (r: string) {
    if 'T' in s then Split(Split(s, '+')[0], 'Z')[0] else s
  }

  lemma SplitHead(s: string, c: char)
    ensures Split(s, c)[0] == if c in s then s[..IndexOfChar(s, c)] else s
  {
  }

  /** With a 'T', the date part is the longest prefix holding neither '+' nor 'Z'. */
  lemma IsoDatePartPrefix(s: string)
    requires 'T' in s
    ensures var r := IsoDatePart(s);
      && |r| <= |s| && r == s[..|r|]
      && '+' !in r && 'Z' !in r
      && (|r| == |s| || s[|r|] == '+' || s[|r|] == 'Z')
  {
    var a := Split(s, '+')[0];
    SplitHead(s, '+');
    SplitHead(a, 'Z');
    var r := Split(a, 'Z')[0];
    assert a == s[..|a|];
    assert r == a[..|r|];
    if |r| < |a| {
      assert s[|r|] == a[|r|] == 'Z';
    }
    assert '+' !in a;
    assert forall c | c in r :: c in a;
  }

  /** Only '+' and 'Z' offsets are cut: a negative offset such as "-05:00" reaches fromisoformat. */
  lemma IsoDatePartKeepsMinusOffset(s: string)
    requires 'T' in s && '+' !in s && 'Z' !in s
    ensures IsoDatePart(s) == s
  {
    IsoDatePartPrefix(s);
  }

  /** Without a 'T' the text goes to fromisoformat unchanged. */
  lemma IsoDatePartWithoutT(s: string)
    requires 'T' !in s
    ensures IsoDatePart(s) == s
  {
  }

  /** GitHubParser._parse_iso_date: empty or unparseable text falls back to now() (naive). */
  function IsoDate(src: Sources, s: Option<string>): (m: Moment)
    ensures ValidMoment(m)
    ensures !Truthy(s) ==> m == Moment(src.now, None)
    ensures Truthy(s) && src.fromIsoFormat(IsoDatePart(s.value)).Some? ==> m == src.fromIsoFormat(IsoDatePart(s.value)).value
    ensures Truthy(s) && src.fromIsoFormat(IsoDatePart(s.value)).None? ==> m == Moment(src.now, None)
  {
    if !Truthy(s) then Moment(src.now, None)
    else
      match src.fromIsoFormat(IsoDatePart(s.value))
      case Some(m) => m
      case None => Moment(src.now, None)
  }

  /** GitHubParser._parse_int: None for a missing or empty cell and for text int() rejects. */
  function ParseInt(v: Option<string>): (r: Option<int>)
    ensures !Truthy(v) ==> r.None?
    ensures Truthy(v) ==> r == PyInt(v.value)
  {
    if Truthy(v) then PyInt(v.value) else None
  }

  /** A cell holding str(n) reads back as n. */
  lemma ParseIntRoundTrip(n: int)
    ensures ParseInt(Some(IntToString(n))) == Some(n)
  {
    PyIntRoundTrip(n);
    assert IntToString(n) != "" by {
      if n < 0 {
        assert IntToString(n)[0] == '-';
      }
    }
  }

  // ----- rows -----

  /** JiraParser._parse_row */
  function JiraRow(src: Sources, row: Row): (r: Option<Issue>)
  {
    var created := JiraDate(src, Or(Cell(row, "Created"), Cell(row, "Created Date")));
    var updatedText := Or(Cell(row, "Updated"), Cell(row, "Updated Date"));
    var updated := if Truthy(updatedText) then Some(JiraDate(src, updatedText)) else None;
    var resolvedText := Or(Cell(row, "Resolved"), Cell(row, "Resolution Date"));
    var resolved := if Truthy(resolvedText) then Some(JiraDate(src, resolvedText)) else None;
    var issue := NewIssue(
      Or(Or(Cell(row, "Issue key"), Cell(row, "Key")), Cell(row, "Issue Key")),
      Or(Cell(row, "Summary"), Cell(row, "Title")),
      OrElse(Cell(row, "Description"), ""),
      OrElse(Cell(row, "Status"), "Unknown"),
      created, updated, resolved,
      Cell(row, "Assignee"), Cell(row, "Reporter"),
      Some(SplitList(OrElse(Cell(row, "Labels"), ""))),
      Cell(row, "Priority"), Or(Cell(row, "Issue Type"), Cell(row, "Type")), None);
    if issue.Ok? then Some(issue.value) else None
  }

  /** A Jira row is never dropped: its datetimes are all naive, so the post-init subtraction cannot raise. */
  lemma JiraRowKept(src: Sources, row: Row)
    ensures JiraRow(src, row).Some?
  {
  }

  /** The id is the first non-empty of three columns; description and status have defaults. */
  lemma JiraRowFields(src: Sources, row: Row)
    ensures JiraRow(src, row).Some? ==> (
      var i := JiraRow(src, row).value;
      && i.id == Or(Or(Cell(row, "Issue key"), Cell(row, "Key")), Cell(row, "Issue Key"))
      && i.title == Or(Cell(row, "Summary"), Cell(row, "Title"))
      && i.description == OrElse(Cell(row, "Description"), "")
      && i.status == OrElse(Cell(row, "Status"), "Unknown")
      && i.labels == SplitList(OrElse(Cell(row, "Labels"), ""))
      && i.issueType == Or(Cell(row, "Issue Type"), Cell(row, "Type")))
  {
  }

  /** An issue is resolved, and has a time to resolve, exactly when a resolution column is non-empty. */
  lemma JiraRowResolution(src: Sources, row: Row)
    ensures JiraRow(src, row).Some? ==> (
      var i := JiraRow(src, row).value;
      && (i.resolvedAt.Some? <==> Truthy(Or(Cell(row, "Resolved"), Cell(row, "Resolution Date"))))
      && (i.timeToResolve.Some? <==> i.resolvedAt.Some?))
  {
  }

  /**
   * A resolved Jira row with a key, a summary and the labels "a,b" (as the
   * export's first issue: PROJ-1, "bug,authentication") parses to an issue
   * with that id, title and both labels, and with a time to resolve.
   */
  lemma JiraRowExample(src: Sources, row: Row, key: string, summary: string, resolved: string, a: string, b: string)
    requires key != "" && summary != "" && resolved != ""
    requires a != "" && Unpadded(a) && ',' !in a && b != "" && Unpadded(b) && ',' !in b
    requires Cell(row, "Issue key") == Some(key)
    requires Cell(row, "Summary") == Some(summary)
    requires Cell(row, "Resolved") == Some(resolved)
    requires Cell(row, "Labels") == Some(a + "," + b)
    ensures JiraRow(src, row).Some?
    ensures var i := JiraRow(src, row).value;
      && i.id == Some(key) && i.title == Some(summary)
      && i.labels == [a, b] && i.timeToResolve.Some?
  {
    JiraRowKept(src, row);
    JiraRowFields(src, row);
    JiraRowResolution(src, row);
    TwoItems(a, b);
  }

  /** "a,b" reads as the two items a and b. */
  lemma TwoItems(a: string, b: string)
    requires a != "" && Unpadded(a) && ',' !in a && b != "" && Unpadded(b) && ',' !in b
    ensures SplitList(a + "," + b) == [a, b]
  {
    var items := [a, b];
    assert items[1..] == [b];
    assert Join(items, [',']) == a + "," + b;
    SplitListRoundTrip(items);
  }

  /** GitHubParser._parse_issue_row */
  function GitHubIssueRow(src: Sources, row: Row): (r: Option<Issue>)
  {
    var created := IsoDate(src, Or(Cell(row, "created_at"), Cell(row, "Created")));
    var closedText := Or(Cell(row, "closed_at"), Cell(row, "Closed"));
    var resolved := if Truthy(closedText) then Some(IsoDate(src, closedText)) else None;
    var issue := NewIssue(
      Some("#" + PyStr(Or(Cell(row, "number"), Cell(row, "Number")))),
      Or(Cell(row, "title"), Cell(row, "Title")),
      OrElse(Or(Cell(row, "body"), Cell(row, "Body")), ""),
      OrElse(Or(Cell(row, "state"), Cell(row, "State")), "open"),
      created, None, resolved,
      Or(Cell(row, "assignees"), Cell(row, "Assignee")),
      Or(Cell(row, "user"), Cell(row, "Author")),
      Some(SplitList(OrElse(Or(Cell(row, "labels"), Cell(row, "Labels")), ""))),
      None, None, None);
    match issue
    case Ok(i) => Some(i)
    case Err(_) => None
  }

  /** GitHubParser._parse_pr_row */
  function GitHubPrRow(src: Sources, row: Row): (r: Option<PullRequest>)
  {
    var created := IsoDate(src, Or(Cell(row, "created_at"), Cell(row, "Created")));
    var mergedText := Or(Cell(row, "merged_at"), Cell(row, "Merged"));
    var merged := if Truthy(mergedText) then Some(IsoDate(src, mergedText)) else None;
    var closedText := Or(Cell(row, "closed_at"), Cell(row, "Closed"));
    var closed := if Truthy(closedText) then Some(IsoDate(src, closedText)) else None;
    var pr := NewPullRequest(
      "#" + PyStr(Or(Cell(row, "number"), Cell(row, "Number"))),
      Or(Cell(row, "title"), Cell(row, "Title")),
      OrElse(Or(Cell(row, "body"), Cell(row, "Body")), ""),
      OrElse(Or(Cell(row, "state"), Cell(row, "State")), "open"),
      created, merged, closed,
      Or(Cell(row, "user"), Cell(row, "Author")),
      Some(SplitList(OrElse(Cell(row, "reviewers"), ""))),
      Some(SplitList(OrElse(Or(Cell(row, "labels"), Cell(row, "Labels")), ""))),
      ParseInt(Cell(row, "changed_files")),
      ParseInt(Cell(row, "additions")),
      ParseInt(Cell(row, "deletions")),
      None);
    match pr
    case Ok(p) => Some(p)
    case Err(_) => None
  }

  /** GitHub ids are '#' and the number column; the state defaults to "open". */
  lemma GitHubIssueRowFields(src: Sources, row: Row)
    ensures GitHubIssueRow(src, row).Some? ==> (
      var i := GitHubIssueRow(src, row).value;
      && i.id == Some("#" + PyStr(Or(Cell(row, "number"), Cell(row, "Number"))))
      && i.status == OrElse(Or(Cell(row, "state"), Cell(row, "State")), "open")
      && i.labels == SplitList(OrElse(Or(Cell(row, "labels"), Cell(row, "Labels")), "")))
  {
  }

  /** A PR's id, state and reviewers come from its columns, its sizes through _parse_int. */
  lemma GitHubPrRowFields(src: Sources, row: Row)
    ensures GitHubPrRow(src, row).Some? ==> (
      var p := GitHubPrRow(src, row).value;
      && p.id == "#" + PyStr(Or(Cell(row, "number"), Cell(row, "Number")))
      && p.state == OrElse(Or(Cell(row, "state"), Cell(row, "State")), "open")
      && p.reviewers == SplitList(OrElse(Cell(row, "reviewers"), ""))
      && p.filesChanged == ParseInt(Cell(row, "changed_files"))
      && p.additions == ParseInt(Cell(row, "additions"))
      && p.deletions == ParseInt(Cell(row, "deletions")))
  {
  }

  /**
   * A GitHub issue row is kept exactly when its creation and closing
   * datetimes are both naive or both aware: subtracting a naive from an
   * aware datetime raises inside the row's try block.
   */
  lemma GitHubIssueRowKept(src: Sources, row: Row)
    ensures var created := IsoDate(src, Or(Cell(row, "created_at"), Cell(row, "Created")));
      var closedText := Or(Cell(row, "closed_at"), Cell(row, "Closed"));
      GitHubIssueRow(src, row).Some? <==>
        (!Truthy(closedText) || created.offset.Some? == IsoDate(src, closedText).offset.Some?)
  {
  }

  // ----- files -----

  /** The rows that parse, in file order. */
  function Parsed<T>(rows: seq<Row>, parse: Row -> Option<T>): (r: seq<T>)
    ensures |r| <= |rows|
  {
    if rows == [] then []
    else
      var rest := Parsed(rows[1..], parse);
      match parse(rows[0])
      case Some(x) => [x] + rest
      case None => rest
  }

  lemma {:induction false} ParsedAppend<T>(rows: seq<Row>, row: Row, parse: Row -> Option<T>)
    ensures Parsed(rows + [row], parse)
      == Parsed(rows, parse) + (if parse(row).Some? then [parse(row).value] else [])
  {
    if rows != [] {
      assert (rows + [row])[1..] == rows[1..] + [row];
      ParsedAppend(rows[1..], row, parse);
    }
  }

  /** When no row is dropped, the i-th item comes from the i-th row. */
  lemma {:induction false} ParsedAll<T>(rows: seq<Row>, parse: Row -> Option<T>)
    requires forall i | 0 <= i < |rows| :: parse(rows[i]).Some?
    ensures |Parsed(rows, parse)| == |rows|
    ensures forall i | 0 <= i < |rows| :: Parsed(rows, parse)[i] == parse(rows[i]).value
  {
    if rows != [] {
      ParsedAll(rows[1..], parse);
      assert parse(rows[0]).Some?;
    }
  }

  /** The loop of parse(): each row is parsed and appended when it yields an item. */
  method ParseRows<T>(rows: seq<Row>, parse: Row -> Option<T>) returns (items: seq<T>)
    ensures items == Parsed(rows, parse)
  {
    items := [];
    for i := 0 to |rows|
      invariant items == Parsed(rows[..i], parse)
    {
      ParsedAppend(rows[..i], rows[i], parse);
      assert rows[..i + 1] == rows[..i] + [rows[i]];
      match parse(rows[i])
      case Some(x) => items := items + [x];
      case None =>
    }
    assert rows[..|rows|] == rows;
  }

  /** JiraParser.parse: every row of the export becomes an issue, in order. */
  method JiraParse(src: Sources, rows: seq<Row>) returns (issues: seq<Issue>)
    ensures |issues| == |rows|
    ensures forall i | 0 <= i < |rows| :: issues[i] == JiraRow(src, rows[i]).value
  {
    issues := ParseRows(rows, row => JiraRow(src, row));
    forall i | 0 <= i < |rows| ensures JiraRow(src, rows[i]).Some? {
      JiraRowKept(src, rows[i]);
    }
    ParsedAll(rows, row => JiraRow(src, row));
  }

  /** GitHubParser.parse_issues */
  method GitHubParseIssues(src: Sources, rows: seq<Row>) returns (issues: seq<Issue>)
    ensures issues == Parsed(rows, row => GitHubIssueRow(src, row))
  {
    issues := ParseRows(rows, row => GitHubIssueRow(src, row));
  }

  /** GitHubParser.parse_prs */
  method GitHubParsePrs(src: Sources, rows: seq<Row>) returns (prs: seq<PullRequest>)
    ensures prs == Parsed(rows, row => GitHubPrRow(src, row))
  {
    prs := ParseRows(rows, row => GitHubPrRow(src, row));
  }
}

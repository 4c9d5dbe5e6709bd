/**
 * The pattern detector's counting analyses: how many clusters to ask for,
 * issues per creation month, and label and label-combination frequencies.
 * The TF-IDF, k-means and topic models themselves are not modelled.
 */
module Patterns {
  import opened Text
  import opened Clock
  import opened Counters
  import opened StrOrder
  import opened AnalyticsModels

  predicate ValidIssue(i: Issue) {
    ValidMoment(i.createdAt) && ValidOptMoment(i.resolvedAt)
  }

  predicate AllValid(issues: seq<Issue>) {
    forall i | 0 <= i < |issues| :: ValidIssue(issues[i])
  }

  /**
   * cluster_issues' n_clusters: with fewer issues than requested clusters
   * it becomes max(2, len(issues) // 2), which fits the issues when there
   * are at least two of them and exceeds them when there are fewer.
   */
  function ClusterCount(n: nat, requested: int): (k: int)
    ensures n >= requested ==> k == requested
    ensures n < requested ==> 2 <= k && k * 2 <= n + 4
    ensures n < requested && n >= 2 ==> k <= n
    ensures n < requested && n < 2 ==> k > n
  {
    if n < requested then (if n / 2 > 2 then n / 2 else 2) else requested
  }

  // ----- counting loops -----

  /** Every label of every issue, issue by issue. */
  function AllLabels(issues: seq<Issue>): seq<string> {
    if issues == [] then [] else AllLabels(issues[..|issues| - 1]) + issues[|issues| - 1].labels
  }

  /** label_counts: each label occurrence of each issue counted in turn. */
  method CountLabels(issues: seq<Issue>) returns (counts: Counts<string>)
    ensures counts == Tally(AllLabels(issues))
  {
    counts := [];
    for i := 0 to |issues|
      invariant counts == Tally(AllLabels(issues[..i]))
    {
      counts := CountIssueLabels(counts, AllLabels(issues[..i]), issues[i].labels);
      AllLabelsNext(issues, i);
    }
    assert issues[..|issues|] == issues;
  }

  /** The inner loop of label_counts: one issue's labels counted in turn. */
  method CountIssueLabels(counts0: Counts<string>, ghost before: seq<string>, labels: seq<string>)
    returns (counts: Counts<string>)
    requires counts0 == Tally(before)
    ensures counts == Tally(before + labels)
  {
    counts := counts0;
    assert before + labels[..0] == before;
    for j := 0 to |labels|
      invariant counts == Tally(before + labels[..j])
    {
      TallySnoc(before + labels[..j], labels[j]);
      assert before + labels[..j + 1] == (before + labels[..j]) + [labels[j]];
      counts := Inc(counts, labels[j]);
    }
    assert labels[..|labels|] == labels;
  }

  lemma AllLabelsNext(issues: seq<Issue>, i: nat)
    requires i < |issues|
    ensures AllLabels(issues[..i + 1]) == AllLabels(issues[..i]) + issues[i].labels
  {
    assert issues[..i + 1][..i] == issues[..i];
  }

  /** The combination key of an issue: tuple(sorted(labels)). */
  function ComboKey(i: Issue): seq<string> {
    Sort(i.labels)
  }

  /** The keys of the issues with more than one label, in order. */
  function ComboKeys(issues: seq<Issue>): seq<seq<string>> {
    if issues == [] then []
    else
      var last := issues[|issues| - 1];
      ComboKeys(issues[..|issues| - 1]) + (if |last.labels| > 1 then [ComboKey(last)] else [])
  }

  /** label_combos */
  method CountCombos(issues: seq<Issue>) returns (combos: Counts<seq<string>>)
    ensures combos == Tally(ComboKeys(issues))
  {
    combos := [];
    for i := 0 to |issues|
      invariant combos == Tally(ComboKeys(issues[..i]))
    {
      assert issues[..i + 1][..i] == issues[..i];
      if |issues[i].labels| > 1 {
        TallySnoc(ComboKeys(issues[..i]), ComboKey(issues[i]));
        combos := Inc(combos, ComboKey(issues[i]));
      } else {
        assert ComboKeys(issues[..i + 1]) == ComboKeys(issues[..i]);
      }
    }
    assert issues[..|issues|] == issues;
  }

  /** Two issues carrying the same labels in any order share one combination key. */
  lemma ComboKeyIgnoresOrder(a: Issue, b: Issue)
    requires multiset(a.labels) == multiset(b.labels)
    ensures ComboKey(a) == ComboKey(b)
  {
    SortIgnoresOrder(a.labels, b.labels);
  }

  /** The creation month of every issue. */
  function CreatedMonths(issues: seq<Issue>): (ms: seq<string>)
    requires AllValid(issues)
    ensures |ms| == |issues|
  {
    if issues == [] then []
    else CreatedMonths(issues[..|issues| - 1]) + [MonthKey(issues[|issues| - 1].createdAt.at)]
  }

  /** The resolution month of every resolved issue. */
  function ResolvedMonths(issues: seq<Issue>): seq<string>
    requires AllValid(issues)
  {
    if issues == [] then []
    else
      var last := issues[|issues| - 1];
      ResolvedMonths(issues[..|issues| - 1])
      + (if last.resolvedAt.Some? then [MonthKey(last.resolvedAt.value.at)] else [])
  }

  /** monthly_counts and monthly_resolved */
  method CountMonths(issues: seq<Issue>) returns (created: Counts<string>, resolved: Counts<string>)
    requires AllValid(issues)
    ensures created == Tally(CreatedMonths(issues))
    ensures resolved == Tally(ResolvedMonths(issues))
  {
    created, resolved := [], [];
    for i := 0 to |issues|
      invariant created == Tally(CreatedMonths(issues[..i]))
      invariant resolved == Tally(ResolvedMonths(issues[..i]))
    {
      assert issues[..i + 1][..i] == issues[..i];
      var issue := issues[i];
      TallySnoc(CreatedMonths(issues[..i]), MonthKey(issue.createdAt.at));
      created := Inc(created, MonthKey(issue.createdAt.at));
      if issue.resolvedAt.Some? {
        TallySnoc(ResolvedMonths(issues[..i]), MonthKey(issue.resolvedAt.value.at));
        resolved := Inc(resolved, MonthKey(issue.resolvedAt.value.at));
      } else {
        assert ResolvedMonths(issues[..i + 1]) == ResolvedMonths(issues[..i]);
      }
    }
    assert issues[..|issues|] == issues;
  }

  // ----- temporal patterns -----

  datatype MonthPattern = MonthPattern(month: string, created: nat, resolved: nat)

  /** One pattern per month, its counts looked up in the two Counters. */
  function MonthPatterns(months: seq<string>, created: Counts<string>, resolved: Counts<string>): (ps: seq<MonthPattern>)
    ensures |ps| == |months|
    ensures forall i | 0 <= i < |months| :: ps[i] == MonthPattern(months[i], Count(created, months[i]), Count(resolved, months[i]))
  {
    if months == [] then []
    else
      var p := MonthPattern(months[0], Count(created, months[0]), Count(resolved, months[0]));
      [p] + MonthPatterns(months[1..], created, resolved)
  }

  /** The patterns of analyze_temporal_patterns: over sorted(monthly_counts.keys()). */
  function TemporalPatterns(issues: seq<Issue>): seq<MonthPattern>
    requires AllValid(issues)
  {
    var created := Tally(CreatedMonths(issues));
    MonthPatterns(KeysOf(SortByKey(created)), created, Tally(ResolvedMonths(issues)))
  }

  function SumCreated(ps: seq<MonthPattern>): nat {
    if ps == [] then 0 else ps[0].created + SumCreated(ps[1..])
  }

  /** max(patterns, key=created): the first pattern with the largest created count. */
  function Peak(ps: seq<MonthPattern>): (k: nat)
    requires ps != []
    ensures k < |ps|
    ensures forall j | 0 <= j < |ps| :: ps[j].created <= ps[k].created
    ensures forall j | 0 <= j < k :: ps[j].created < ps[k].created
  {
    if |ps| == 1 then 0
    else
      var k := Peak(ps[..|ps| - 1]);
      if ps[|ps| - 1].created > ps[k].created then |ps| - 1 else k
  }

  function PeakInsight(p: MonthPattern): string {
    "Peak activity: " + p.month + " (" + NatToString(p.created) + " issues created)"
  }

  /** patterns[-3:]: the last three months, or all of them when there are fewer. */
  function Recent(ps: seq<MonthPattern>): (r: seq<MonthPattern>)
    ensures |r| == (if |ps| < 3 then |ps| else 3)
    ensures r == ps[|ps| - |r|..]
  {
    if |ps| <= 3 then ps else ps[|ps| - 3..]
  }

  /** np.mean of the created counts of the last three months. */
  function RecentAverage(ps: seq<MonthPattern>): real
    requires ps != []
  {
    SumCreated(Recent(ps)) as real / |Recent(ps)| as real
  }

  /** The second insight; fmt is the one-decimal float formatting. */
  function RecentInsight(avg: real, fmt: real -> string): string {
    "Recent average: " + fmt(avg) + " issues/month"
  }

  lemma {:induction false} SumCreatedBelow(ps: seq<MonthPattern>, m: nat)
    requires forall j | 0 <= j < |ps| :: ps[j].created <= m
    ensures SumCreated(ps) <= |ps| * m
  {
    if ps != [] {
      assert forall j | 0 <= j < |ps[1..]| :: ps[1..][j].created <= m by {
        forall j | 0 <= j < |ps[1..]| ensures ps[1..][j].created <= m {
          assert ps[1..][j] == ps[j + 1];
        }
      }
      SumCreatedBelow(ps[1..], m);
    }
  }

  /** The recent average is never negative and never above the peak month's count. */
  lemma RecentAverageBounds(ps: seq<MonthPattern>)
    requires ps != []
    ensures 0.0 <= RecentAverage(ps) <= ps[Peak(ps)].created as real
  {
    var r := Recent(ps);
    var m := ps[Peak(ps)].created;
    forall j | 0 <= j < |r| ensures r[j].created <= m {
      assert r[j] == ps[|ps| - |r| + j];
    }
    SumCreatedBelow(r, m);
    DivideBelow(SumCreated(r), |r|, m);
  }

  lemma DivideBelow(s: nat, n: nat, m: nat)
    requires n > 0 && s <= n * m
    ensures 0.0 <= s as real / n as real <= m as real
  {
    var d := n as real;
    var gap := (n * m - s) as real;
    assert gap >= 0.0;
    assert m as real - s as real / d == gap / d;
  }

  datatype TemporalAnalysis = TemporalAnalysis(
    summary: string, insights: seq<string>, patterns: seq<MonthPattern>, totalMonths: nat)

  /** analyze_temporal_patterns; fmt is the one-decimal float formatting of the recent average. */
  method AnalyzeTemporalPatterns(issues: seq<Issue>, fmt: real -> string) returns (result: TemporalAnalysis)
    requires AllValid(issues)
    ensures result.patterns == TemporalPatterns(issues)
    ensures result.totalMonths == |result.patterns|
    ensures result.patterns == [] ==> result.insights == []
    ensures result.patterns != [] ==> (result.insights ==
      [PeakInsight(result.patterns[Peak(result.patterns)]), RecentInsight(RecentAverage(result.patterns), fmt)])
    ensures result.summary == "Analyzed temporal patterns for " + NatToString(|issues|) + " issues"
  {
    var created, resolved := CountMonths(issues);
    var patterns := BuildMonthPatterns(KeysOf(SortByKey(created)), created, resolved);
    var insights: seq<string> := [];
    if patterns != [] {
      insights := insights + [PeakInsight(patterns[Peak(patterns)])];
      insights := insights + [RecentInsight(RecentAverage(patterns), fmt)];
    }
    result := TemporalAnalysis(
      "Analyzed temporal patterns for " + NatToString(|issues|) + " issues",
      insights, patterns, |patterns|);
  }

  /** The loop over the sorted months, appending one pattern per month. */
  method BuildMonthPatterns(months: seq<string>, created: Counts<string>, resolved: Counts<string>)
    returns (patterns: seq<MonthPattern>)
    ensures patterns == MonthPatterns(months, created, resolved)
  {
    patterns := [];
    for i := 0 to |months|
      invariant patterns == MonthPatterns(months[..i], created, resolved)
    {
      MonthPatternsSnoc(months[..i], months[i], created, resolved);
      assert months[..i + 1] == months[..i] + [months[i]];
      patterns := patterns + [MonthPattern(months[i], Count(created, months[i]), Count(resolved, months[i]))];
    }
    assert months[..|months|] == months;
  }

  lemma MonthPatternsSnoc(months: seq<string>, m: string, created: Counts<string>, resolved: Counts<string>)
    ensures MonthPatterns(months + [m], created, resolved)
      == MonthPatterns(months, created, resolved) + [MonthPattern(m, Count(created, m), Count(resolved, m))]
  {
    var l := MonthPatterns(months + [m], created, resolved);
    var r := MonthPatterns(months, created, resolved) + [MonthPattern(m, Count(created, m), Count(resolved, m))];
    assert forall i | 0 <= i < |l| :: l[i] == r[i];
  }

  /** One pattern per distinct creation month, months in strictly ascending order. */
  lemma TemporalMonths(issues: seq<Issue>)
    requires AllValid(issues)
    ensures var ps := TemporalPatterns(issues);
      && (forall i | 0 <= i < |ps| - 1 :: StrLt(ps[i].month, ps[i + 1].month))
      && (forall m :: (exists i | 0 <= i < |ps| :: ps[i].month == m) <==> m in CreatedMonths(issues))
  {
    var created := Tally(CreatedMonths(issues));
    var s := SortByKey(created);
    TallyKeys(CreatedMonths(issues));
    SortByKeyAscending(created);
    SortByKeyKeys(created);
    var ps := TemporalPatterns(issues);
    forall m ensures (exists i | 0 <= i < |ps| :: ps[i].month == m) <==> m in CreatedMonths(issues) {
      if m in KeysOf(s) {
        var i :| 0 <= i < |s| && KeysOf(s)[i] == m;
        assert ps[i].month == m;
      }
    }
  }

  /** A month's resolved count is the number of issues resolved in it: 0 when none was. */
  lemma TemporalResolved(issues: seq<Issue>, i: nat)
    requires AllValid(issues) && i < |TemporalPatterns(issues)|
    ensures TemporalPatterns(issues)[i].resolved == multiset(ResolvedMonths(issues))[TemporalPatterns(issues)[i].month]
    ensures TemporalPatterns(issues)[i].created == multiset(CreatedMonths(issues))[TemporalPatterns(issues)[i].month]
  {
    TallyCount(ResolvedMonths(issues), TemporalPatterns(issues)[i].month);
    TallyCount(CreatedMonths(issues), TemporalPatterns(issues)[i].month);
  }

  lemma {:induction false} SumCreatedEntries(s: Counts<string>, created: Counts<string>, resolved: Counts<string>)
    requires forall i | 0 <= i < |s| :: Count(created, s[i].0) == s[i].1
    ensures SumCreated(MonthPatterns(KeysOf(s), created, resolved)) == Total(s)
  {
    if s != [] {
      SumCreatedEntries(s[1..], created, resolved);
      assert KeysOf(s)[1..] == KeysOf(s[1..]);
    }
  }

  /** The created counts of the patterns add up to the number of issues. */
  lemma TemporalCreatedTotal(issues: seq<Issue>)
    requires AllValid(issues)
    ensures SumCreated(TemporalPatterns(issues)) == |issues|
  {
    var created := Tally(CreatedMonths(issues));
    var s := SortByKey(created);
    TallyKeys(CreatedMonths(issues));
    TallyTotal(CreatedMonths(issues));
    SortByKeyPermutes(created);
    SortByKeyTotal(created);
    forall i | 0 <= i < |s| ensures Count(created, s[i].0) == s[i].1 {
      assert s[i] in multiset(created);
      var j :| 0 <= j < |created| && created[j] == s[i];
      CountOfEntry(created, j);
    }
    SumCreatedEntries(s, created, Tally(ResolvedMonths(issues)));
  }

  /** The peak month is the earliest month with the largest number of created issues. */
  lemma TemporalPeak(issues: seq<Issue>)
    requires AllValid(issues) && issues != []
    ensures var ps := TemporalPatterns(issues);
      ps != [] && var k := Peak(ps);
      && (forall j | 0 <= j < |ps| :: ps[j].created <= ps[k].created)
      && (forall j | 0 <= j < |ps| && ps[j].created == ps[k].created :: StrLe(ps[k].month, ps[j].month))
  {
    var ps := TemporalPatterns(issues);
    TemporalMonths(issues);
    assert CreatedMonths(issues)[0] in CreatedMonths(issues);
    var k := Peak(ps);
    forall j | 0 <= j < |ps| && ps[j].created == ps[k].created ensures StrLe(ps[k].month, ps[j].month) {
      if j == k {
        StrLeRefl(ps[k].month);
      } else {
        assert k < j;
        MonthsAscendingAll(ps, k, j);
      }
    }
  }

  lemma {:induction false} MonthsAscendingAll(ps: seq<MonthPattern>, i: nat, j: nat)
    requires forall k | 0 <= k < |ps| - 1 :: StrLt(ps[k].month, ps[k + 1].month)
    requires i <= j < |ps|
    ensures StrLe(ps[i].month, ps[j].month)
    decreases j - i
  {
    if i < j {
      MonthsAscendingAll(ps, i + 1, j);
      StrLeTrans(ps[i].month, ps[i + 1].month, ps[j].month);
    } else {
      StrLeRefl(ps[i].month);
    }
  }

  // ----- labels -----

  datatype LabelPattern =
    | SingleLabel(name: string, count: nat, percentage: real)
    | LabelCombination(labels: seq<string>, count: nat)

  datatype LabelAnalysis = LabelAnalysis(
    summary: string, insights: seq<string>, patterns: seq<LabelPattern>, uniqueLabels: nat)

  /** One single-label pattern: the label, its count and its share of the issues in percent. */
  function SingleOf(e: (string, nat), n: nat): (p: LabelPattern)
    requires n > 0
    ensures p.SingleLabel? && p.name == e.0 && p.count == e.1
  {
    SingleLabel(e.0, e.1, e.1 as real / n as real * 100.0)
  }

  function Singles(top: Counts<string>, n: nat): (ps: seq<LabelPattern>)
    requires top != [] ==> n > 0
    ensures |ps| == |top|
    ensures forall i | 0 <= i < |top| :: ps[i] == SingleOf(top[i], n)
  {
    if top == [] then []
    else [SingleOf(top[0], n)] + Singles(top[1..], n)
  }

  function CombosOf(top: Counts<seq<string>>): (ps: seq<LabelPattern>)
    ensures |ps| == |top|
    ensures forall i | 0 <= i < |top| :: ps[i] == LabelCombination(top[i].0, top[i].1)
  {
    if top == [] then [] else [LabelCombination(top[0].0, top[0].1)] + CombosOf(top[1..])
  }

  function LabelInsight(counts: Counts<string>): string {
    if counts != [] then "Most common label: " + MostCommon(counts, 1)[0].0 else "No labels found"
  }

  lemma NoIssuesNoLabels(issues: seq<Issue>)
    requires issues == []
    ensures Tally(AllLabels(issues)) == []
  {
  }

  /** analyze_labels */
  method AnalyzeLabels(issues: seq<Issue>) returns (result: LabelAnalysis)
    ensures var counts := Tally(AllLabels(issues));
      && result.patterns
        == Singles(MostCommon(counts, 10), |issues|) + CombosOf(MostCommon(Tally(ComboKeys(issues)), 5))
      && result.insights == [LabelInsight(counts)]
      && result.uniqueLabels == |counts|
      && result.summary == "Analyzed labels for " + NatToString(|issues|) + " issues"
  {
    var counts := CountLabels(issues);
    var combos := CountCombos(issues);
    if issues == [] {
      NoIssuesNoLabels(issues);
    }
    var singles := SinglePatterns(MostCommon(counts, 10), |issues|);
    var pairs := ComboPatterns(MostCommon(combos, 5));
    var insight := if counts != [] then "Most common label: " + MostCommon(counts, 1)[0].0 else "No labels found";
    result := LabelAnalysis(
      "Analyzed labels for " + NatToString(|issues|) + " issues",
      [insight], singles + pairs, |counts|);
  }

  /** The loop over most_common(10), appending a single_label pattern per entry. */
  method SinglePatterns(top: Counts<string>, n: nat) returns (patterns: seq<LabelPattern>)
    requires top != [] ==> n > 0
    ensures patterns == Singles(top, n)
  {
    patterns := [];
    for i := 0 to |top|
      invariant patterns == Singles(top[..i], n)
    {
      SinglesSnoc(top[..i], top[i], n);
      assert top[..i + 1] == top[..i] + [top[i]];
      patterns := patterns + [SingleOf(top[i], n)];
    }
    assert top[..|top|] == top;
  }

  /** The loop over most_common(5) of the combinations. */
  method ComboPatterns(top: Counts<seq<string>>) returns (patterns: seq<LabelPattern>)
    ensures patterns == CombosOf(top)
  {
    patterns := [];
    for i := 0 to |top|
      invariant patterns == CombosOf(top[..i])
    {
      CombosOfSnoc(top[..i], top[i]);
      assert top[..i + 1] == top[..i] + [top[i]];
      patterns := patterns + [LabelCombination(top[i].0, top[i].1)];
    }
    assert top[..|top|] == top;
  }

  lemma SinglesSnoc(top: Counts<string>, e: (string, nat), n: nat)
    requires n > 0
    ensures Singles(top + [e], n) == Singles(top, n) + [SingleOf(e, n)]
  {
    var l := Singles(top + [e], n);
    var r := Singles(top, n) + [SingleOf(e, n)];
    assert forall i | 0 <= i < |l| :: l[i] == r[i];
  }

  lemma CombosOfSnoc(top: Counts<seq<string>>, e: (seq<string>, nat))
    ensures CombosOf(top + [e]) == CombosOf(top) + [LabelCombination(e.0, e.1)]
  {
    var l := CombosOf(top + [e]);
    var r := CombosOf(top) + [LabelCombination(e.0, e.1)];
    assert forall i | 0 <= i < |l| :: l[i] == r[i];
  }

  /** Every label occurrence is counted, each distinct label once. */
  lemma LabelCounts(issues: seq<Issue>, name: string)
    ensures Count(Tally(AllLabels(issues)), name) == multiset(AllLabels(issues))[name]
    ensures DistinctKeys(Tally(AllLabels(issues)))
    ensures name in KeysOf(Tally(AllLabels(issues))) <==> name in AllLabels(issues)
  {
    TallyCount(AllLabels(issues), name);
    TallyKeys(AllLabels(issues));
  }

  lemma SinglesDescending(top: Counts<string>, n: nat)
    requires top != [] ==> n > 0
    requires Descending(top)
    ensures forall i | 0 <= i < |top| - 1 :: Singles(top, n)[i].count >= Singles(top, n)[i + 1].count
  {
  }

  lemma CombosDescending(top: Counts<seq<string>>)
    requires Descending(top)
    ensures forall i | 0 <= i < |top| - 1 :: CombosOf(top)[i].count >= CombosOf(top)[i + 1].count
  {
  }

  /** The patterns are at most ten single labels followed by at most five label combinations. */
  lemma LabelPatternsKinds(issues: seq<Issue>)
    requires issues != []
    ensures var counts := Tally(AllLabels(issues));
      var ps := Singles(MostCommon(counts, 10), |issues|) + CombosOf(MostCommon(Tally(ComboKeys(issues)), 5));
      var singles := if |counts| < 10 then |counts| else 10;
      && singles <= |ps| <= singles + 5
      && (forall i | 0 <= i < singles :: ps[i].SingleLabel?)
      && (forall i | singles <= i < |ps| :: ps[i].LabelCombination?)
  {
    var counts := Tally(AllLabels(issues));
    var combos := Tally(ComboKeys(issues));
    var a := Singles(MostCommon(counts, 10), |issues|);
    var b := CombosOf(MostCommon(combos, 5));
    MostCommonSpec(counts, 10);
    MostCommonSpec(combos, 5);
    KindsConcat(a, b);
  }

  /** Single labels followed by combinations: each position keeps its kind. */
  lemma KindsConcat(a: seq<LabelPattern>, b: seq<LabelPattern>)
    requires forall i | 0 <= i < |a| :: a[i].SingleLabel?
    requires forall i | 0 <= i < |b| :: b[i].LabelCombination?
    ensures forall i | 0 <= i < |a| :: (a + b)[i].SingleLabel?
    ensures forall i | |a| <= i < |a + b| :: (a + b)[i].LabelCombination?
  {
    var ps := a + b;
    forall i | |a| <= i < |ps|
      ensures ps[i].LabelCombination?
    {
      assert ps[i] == b[i - |a|];
    }
  }

  /** Within each kind the patterns come by descending count. */
  lemma LabelPatternsOrder(issues: seq<Issue>)
    requires issues != []
    ensures var counts := Tally(AllLabels(issues));
      var ps := Singles(MostCommon(counts, 10), |issues|) + CombosOf(MostCommon(Tally(ComboKeys(issues)), 5));
      var singles := |MostCommon(counts, 10)|;
      && (forall i | 0 <= i < singles - 1 :: ps[i].count >= ps[i + 1].count)
      && (forall i | singles <= i < |ps| - 1 :: ps[i].count >= ps[i + 1].count)
  {
    var counts := Tally(AllLabels(issues));
    var combos := Tally(ComboKeys(issues));
    MostCommonSpec(counts, 10);
    MostCommonSpec(combos, 5);
    var a := Singles(MostCommon(counts, 10), |issues|);
    var b := CombosOf(MostCommon(combos, 5));
    SinglesDescending(MostCommon(counts, 10), |issues|);
    CombosDescending(MostCommon(combos, 5));
    RunsConcat(a, b);
  }

  /** Two runs of non-increasing counts, one after the other, keep each run's order. */
  lemma RunsConcat(a: seq<LabelPattern>, b: seq<LabelPattern>)
    requires forall i | 0 <= i < |a| - 1 :: a[i].count >= a[i + 1].count
    requires forall i | 0 <= i < |b| - 1 :: b[i].count >= b[i + 1].count
    ensures forall i | 0 <= i < |a| - 1 :: (a + b)[i].count >= (a + b)[i + 1].count
    ensures forall i | |a| <= i < |a + b| - 1 :: (a + b)[i].count >= (a + b)[i + 1].count
  {
    var ps := a + b;
    forall i | |a| <= i < |ps| - 1
      ensures ps[i].count >= ps[i + 1].count
    {
      assert ps[i] == b[i - |a|] && ps[i + 1] == b[i - |a| + 1];
    }
  }

  /** "No labels found" exactly when no issue carries a label; otherwise a label no other outnumbers. */
  lemma LabelInsightSpec(issues: seq<Issue>)
    ensures var counts := Tally(AllLabels(issues));
      && (counts == [] <==> AllLabels(issues) == [])
      && (counts == [] ==> LabelInsight(counts) == "No labels found")
      && (counts != [] ==> exists e | e in counts ::
            LabelInsight(counts) == "Most common label: " + e.0
            && forall f | f in counts :: f.1 <= e.1)
  {
    var counts := Tally(AllLabels(issues));
    TallyTotal(AllLabels(issues));
    if counts != [] {
      MostCommonFirst(counts);
      MostCommonSpec(counts, 1);
      var e := MostCommon(counts, 1)[0];
      assert e in multiset(counts);
    }
  }

  /** _get_common_labels: the labels of most_common(top_n). */
  method CommonLabels(issues: seq<Issue>, topN: int) returns (labels: seq<string>)
    ensures labels == KeysOf(MostCommon(Tally(AllLabels(issues)), topN))
  {
    var counts := CountLabels(issues);
    labels := KeysOf(MostCommon(counts, topN));
  }

  /** At most top_n labels, each distinct and worn by some issue, by descending count. */
  lemma CommonLabelsSpec(issues: seq<Issue>, topN: int)
    ensures var counts := Tally(AllLabels(issues));
      var labels := KeysOf(MostCommon(counts, topN));
      && |labels| <= (if topN < 0 then 0 else topN)
      && (forall i, j | 0 <= i < j < |labels| :: labels[i] != labels[j])
      && (forall i | 0 <= i < |labels| :: labels[i] in AllLabels(issues))
      && (forall i | 0 <= i < |labels| - 1 ::
            Count(counts, labels[i]) >= Count(counts, labels[i + 1]))
  {
    var counts := Tally(AllLabels(issues));
    var top := MostCommon(counts, topN);
    var labels := KeysOf(top);
    TallyKeys(AllLabels(issues));
    MostCommonSpec(counts, topN);
    MostCommonEntries(counts, topN);
    forall i | 0 <= i < |top|
      ensures labels[i] == top[i].0 && Count(counts, labels[i]) == top[i].1 && labels[i] in AllLabels(issues)
    {
      assert top[i] in top;
    }
    forall i, j | 0 <= i < j < |labels|
      ensures labels[i] != labels[j]
    {
      assert top[i].0 != top[j].0;
    }
    forall i | 0 <= i < |labels| - 1
      ensures Count(counts, labels[i]) >= Count(counts, labels[i + 1])
    {
      assert top[i].1 >= top[i + 1].1;
    }
  }
}

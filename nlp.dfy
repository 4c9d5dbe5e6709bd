/**
 * The keyword sentiment analysis of the NLP analyzer: each issue is scored
 * by the distinct positive and negative keywords among the words of its
 * lowercased title and description, classified against a +/-0.2 threshold,
 * and the scores are averaged and tallied by category.
 */
module Nlp {
  import opened Wrappers
  import opened Text
  import opened Counters
  import opened AnalyticsModels
  import Parsers

  /** The two keyword sets an issue is scored against. */
  datatype Lexicon = Lexicon(positive: set<string>, negative: set<string>)

  /** The keywords the analyzer uses. */
  const Keywords: Lexicon := Lexicon(
    {"fix", "improve", "enhance", "upgrade", "optimize", "feature", "add", "implement", "success", "complete"},
    {"bug", "error", "fail", "crash", "broken", "issue", "problem", "regression", "critical", "urgent", "blocker"})

  /** f"{issue.title} {issue.description}".lower(); a missing title reads "None". */
  function IssueText(i: Issue): string {
    Lower(Parsers.PyStr(i.title) + " " + i.description)
  }

  /** set(text.split()): each word once, however often it occurs. */
  function WordSet(i: Issue): (ws: set<string>)
    ensures forall w :: w in ws <==> w in Words(IssueText(i))
    ensures forall w | w in ws :: IsWord(w)
  {
    set w | w in Words(IssueText(i))
  }

  /** len(words & positive_words) */
  function PositiveHits(lex: Lexicon, i: Issue): (n: nat)
    ensures n <= |lex.positive|
  {
    SubsetCard(WordSet(i) * lex.positive, lex.positive);
    |WordSet(i) * lex.positive|
  }

  /** len(words & negative_words) */
  function NegativeHits(lex: Lexicon, i: Issue): (n: nat)
    ensures n <= |lex.negative|
  {
    SubsetCard(WordSet(i) * lex.negative, lex.negative);
    |WordSet(i) * lex.negative|
  }

  lemma SubsetCard(a: set<string>, b: set<string>)
    requires a <= b
    ensures |a| <= |b|
  {
    assert b == a + (b - a);
  }

  /** (pos - neg) / (pos + neg) when any keyword is present, else 0. */
  function Sentiment(pos: nat, neg: nat): (s: real)
    ensures -1.0 <= s <= 1.0
    ensures s > 0.0 <==> pos > neg
    ensures s < 0.0 <==> neg > pos
  {
    if pos + neg > 0 then
      RatioBounds((pos - neg) as real, (pos + neg) as real);
      (pos - neg) as real / (pos + neg) as real
    else 0.0
  }

  /** A quotient whose numerator is at most its positive denominator in size lies in [-1, 1] and keeps the numerator's sign. */
  lemma RatioBounds(n: real, d: real)
    requires d > 0.0 && -d <= n <= d
    ensures -1.0 <= n / d <= 1.0
    ensures n / d > 0.0 <==> n > 0.0
    ensures n / d < 0.0 <==> n < 0.0
  {
    var q := n / d;
    assert q * d == n;
  }

  datatype Category = Positive | Negative | Neutral

  /** The category's name as the Counter and the patterns spell it. */
  function Name(c: Category): string {
    match c
    case Positive => "positive"
    case Negative => "negative"
    case Neutral => "neutral"
  }

  /** Positive above 0.2, negative below -0.2, neutral in between and on both bounds. */
  function Classify(s: real): (c: Category)
    ensures c == Positive <==> s > 0.2
    ensures c == Negative <==> s < -0.2
  {
    if s > 0.2 then Positive else if s < -0.2 then Negative else Neutral
  }

  /** The per-issue record: issue_id, sentiment, category. */
  datatype Scored = Scored(issueId: Option<string>, sentiment: real, category: Category)

  function Score(lex: Lexicon, i: Issue): Scored {
    var s := Sentiment(PositiveHits(lex, i), NegativeHits(lex, i));
    Scored(i.id, s, Classify(s))
  }

  /** The sentiments list the loop builds, one record per issue in order. */
  function Scores(lex: Lexicon, issues: seq<Issue>): (r: seq<Scored>)
    ensures |r| == |issues|
    ensures forall k | 0 <= k < |issues| :: r[k] == Score(lex, issues[k])
  {
    if issues == [] then [] else Scores(lex, issues[..|issues| - 1]) + [Score(lex, issues[|issues| - 1])]
  }

  function CategoriesOf(entries: seq<Scored>): (cs: seq<Category>)
    ensures |cs| == |entries|
    ensures forall k | 0 <= k < |entries| :: cs[k] == entries[k].category
  {
    if entries == [] then [] else CategoriesOf(entries[..|entries| - 1]) + [entries[|entries| - 1].category]
  }

  /** sum(s['sentiment'] for s in sentiments) */
  function SumOf(entries: seq<Scored>): real {
    if entries == [] then 0.0 else SumOf(entries[..|entries| - 1]) + entries[|entries| - 1].sentiment
  }

  datatype CategoryPattern = CategoryPattern(category: Category, count: nat, percentage: real)

  /** One pattern per Counter entry, in first-seen order, with its share of the n issues in percent. */
  function PatternsOf(cats: Counts<Category>, n: nat): (ps: seq<CategoryPattern>)
    requires n > 0
    ensures |ps| == |cats|
    ensures forall k | 0 <= k < |cats| :: ps[k].category == cats[k].0 && ps[k].count == cats[k].1
  {
    if cats == [] then []
    else
      var e := cats[|cats| - 1];
      PatternsOf(cats[..|cats| - 1], n) + [CategoryPattern(e.0, e.1, e.1 as real / n as real * 100.0)]
  }

  /** The word the overall insight uses: a zero average reads as negative. */
  function Tone(avg: real): string {
    if avg > 0.0 then "positive" else "negative"
  }

  function OverallInsight(avg: real, fmt: real -> string): string {
    "Overall sentiment: " + fmt(avg) + " (" + Tone(avg) + ")"
  }

  function DistributionInsight(cats: Counts<Category>): string {
    "Distribution: " + NatToString(Count(cats, Positive)) + " positive, "
    + NatToString(Count(cats, Neutral)) + " neutral, "
    + NatToString(Count(cats, Negative)) + " negative"
  }

  datatype SentimentAnalysis = SentimentAnalysis(
    summary: string, insights: seq<string>, patterns: seq<CategoryPattern>, avgSentiment: real)

  /**
   * analyze_sentiment(issues); fmt is the two-decimal float formatting of
   * the overall insight. An empty list fails when the average divides by zero.
   */
  method AnalyzeSentiment(issues: seq<Issue>, fmt: real -> string) returns (r: Result<SentimentAnalysis>)
    ensures r.Err? <==> issues == []
    ensures r.Err? ==> r.error.kind == ZeroDivisionError
    ensures r.Ok? ==>
      var avg := SumOf(Scores(Keywords, issues)) / |issues| as real;
      var cats := Tally(CategoriesOf(Scores(Keywords, issues)));
      && r.value.avgSentiment == avg
      && r.value.patterns == PatternsOf(cats, |issues|)
      && r.value.insights == [OverallInsight(avg, fmt), DistributionInsight(cats)]
      && r.value.summary == "Analyzed sentiment for " + NatToString(|issues|) + " issues"
  {
    var sentiments := ScoreAll(Keywords, issues);
    if |issues| == 0 {
      return Err(Error(ZeroDivisionError, "division by zero"));
    }
    var avg := SumOf(sentiments) / |issues| as real;
    var cats := Tally(CategoriesOf(sentiments));
    var patterns := BuildPatterns(cats, |issues|);
    r := Ok(SentimentAnalysis(
      "Analyzed sentiment for " + NatToString(|issues|) + " issues",
      [OverallInsight(avg, fmt), DistributionInsight(cats)], patterns, avg));
  }

  /** The loop over the issues, appending one scored record each. */
  method ScoreAll(lex: Lexicon, issues: seq<Issue>) returns (sentiments: seq<Scored>)
    ensures sentiments == Scores(lex, issues)
  {
    sentiments := [];
    for k := 0 to |issues|
      invariant sentiments == Scores(lex, issues[..k])
    {
      assert issues[..k + 1][..k] == issues[..k];
      sentiments := sentiments + [Score(lex, issues[k])];
    }
    assert issues[..|issues|] == issues;
  }

  /** The list comprehension over categories.items(). */
  method BuildPatterns(cats: Counts<Category>, n: nat) returns (patterns: seq<CategoryPattern>)
    requires n > 0
    ensures patterns == PatternsOf(cats, n)
  {
    patterns := [];
    for k := 0 to |cats|
      invariant patterns == PatternsOf(cats[..k], n)
    {
      assert cats[..k + 1][..k] == cats[..k];
      patterns := patterns + [CategoryPattern(cats[k].0, cats[k].1, cats[k].1 as real / n as real * 100.0)];
    }
    assert cats[..|cats|] == cats;
  }

  // ----- properties -----

  /** Comparing a ratio with 1/5 is comparing five times its numerator with its denominator. */
  lemma FifthThreshold(x: real, t: real)
    requires t > 0.0
    ensures x / t > 0.2 <==> 5.0 * x > t
    ensures x / t < -0.2 <==> 5.0 * x < -t
  {
    var q := x / t;
    assert q * t == x;
  }

  /** The category in whole numbers: positive iff 2*pos > 3*neg, negative iff 2*neg > 3*pos. */
  lemma ClassifyCounts(pos: nat, neg: nat)
    ensures Classify(Sentiment(pos, neg)) == Positive <==> 2 * pos > 3 * neg
    ensures Classify(Sentiment(pos, neg)) == Negative <==> 2 * neg > 3 * pos
    ensures Classify(Sentiment(pos, neg)) == Neutral <==> 2 * pos <= 3 * neg && 2 * neg <= 3 * pos
  {
    if pos + neg > 0 {
      FifthThreshold((pos - neg) as real, (pos + neg) as real);
    }
  }

  /** A score of exactly 1/5 either way, such as three positive keywords against two negative, is neutral. */
  lemma OneFifthNeutral(k: nat)
    requires k > 0
    ensures Sentiment(3 * k, 2 * k) == 0.2 && Classify(Sentiment(3 * k, 2 * k)) == Neutral
    ensures Sentiment(2 * k, 3 * k) == -0.2 && Classify(Sentiment(2 * k, 3 * k)) == Neutral
  {
    assert (3 * k - 2 * k) as real / (5 * k) as real == 0.2;
    assert (2 * k - 3 * k) as real / (5 * k) as real == -0.2;
  }

  /** Keywords count once however often they are repeated: the score depends only on the set of words. */
  lemma SameWordsSameScore(lex: Lexicon, a: Issue, b: Issue)
    requires a.id == b.id
    requires forall w :: w in Words(IssueText(a)) <==> w in Words(IssueText(b))
    ensures Score(lex, a) == Score(lex, b)
  {
    assert WordSet(a) == WordSet(b);
  }

  /** Without a keyword among its words an issue scores 0 and is neutral. */
  lemma NoKeywordNeutral(lex: Lexicon, i: Issue)
    requires WordSet(i) !! lex.positive && WordSet(i) !! lex.negative
    ensures Score(lex, i).sentiment == 0.0 && Score(lex, i).category == Neutral
  {
    assert WordSet(i) * lex.positive == {};
    assert WordSet(i) * lex.negative == {};
  }

  lemma {:induction false} SumBounds(entries: seq<Scored>)
    requires forall k | 0 <= k < |entries| :: -1.0 <= entries[k].sentiment <= 1.0
    ensures -(|entries| as real) <= SumOf(entries) <= |entries| as real
  {
    if entries != [] {
      SumBounds(entries[..|entries| - 1]);
    }
  }

  /** The average of sentiments that each lie in [-1, 1] lies in [-1, 1]. */
  lemma AverageBounds(entries: seq<Scored>)
    requires entries != []
    requires forall k | 0 <= k < |entries| :: -1.0 <= entries[k].sentiment <= 1.0
    ensures -1.0 <= SumOf(entries) / |entries| as real <= 1.0
  {
    SumBounds(entries);
    RatioBounds(SumOf(entries), |entries| as real);
  }

  /** Every issue's score lies in [-1, 1], so the analysis' average does too. */
  lemma ScoresBounded(lex: Lexicon, issues: seq<Issue>)
    ensures forall k | 0 <= k < |issues| :: -1.0 <= Scores(lex, issues)[k].sentiment <= 1.0
  {
  }

  lemma {:induction false} SumZero(entries: seq<Scored>)
    requires forall k | 0 <= k < |entries| :: entries[k].sentiment == 0.0
    ensures SumOf(entries) == 0.0
  {
    if entries != [] {
      SumZero(entries[..|entries| - 1]);
    }
  }

  /** Issues without any keyword average 0, which the overall insight calls negative. */
  lemma NoKeywordsReadNegative(lex: Lexicon, issues: seq<Issue>)
    requires issues != []
    requires forall k | 0 <= k < |issues| :: WordSet(issues[k]) !! lex.positive && WordSet(issues[k]) !! lex.negative
    ensures SumOf(Scores(lex, issues)) / |issues| as real == 0.0
    ensures Tone(SumOf(Scores(lex, issues)) / |issues| as real) == "negative"
  {
    var e := Scores(lex, issues);
    forall k | 0 <= k < |issues| ensures e[k].sentiment == 0.0 {
      NoKeywordNeutral(lex, issues[k]);
    }
    SumZero(e);
    ZeroRatio(|issues| as real);
  }

  lemma ZeroRatio(n: real)
    requires n > 0.0
    ensures 0.0 / n == 0.0
  {
  }

  /**
   * The Counter of categories: each category at most once, counts that add
   * up to the number of records, and each count the number of records
   * classified so.
   */
  lemma CategoryCounts(entries: seq<Scored>, c: Category)
    ensures DistinctKeys(Tally(CategoriesOf(entries)))
    ensures Total(Tally(CategoriesOf(entries))) == |entries|
    ensures Count(Tally(CategoriesOf(entries)), c) == |set k | 0 <= k < |entries| && entries[k].category == c|
  {
    var cs := CategoriesOf(entries);
    TallyKeys(cs);
    TallyTotal(cs);
    TallyCount(cs, c);
    MultisetIndices(cs, c);
    assert (set k | 0 <= k < |cs| && cs[k] == c) == (set k | 0 <= k < |entries| && entries[k].category == c);
  }

  lemma {:induction false} MultisetIndices(cs: seq<Category>, c: Category)
    ensures multiset(cs)[c] == |set k | 0 <= k < |cs| && cs[k] == c|
  {
    if cs != [] {
      var init := cs[..|cs| - 1];
      MultisetIndices(init, c);
      assert cs == init + [cs[|cs| - 1]];
      var a := set k | 0 <= k < |init| && init[k] == c;
      var b := set k | 0 <= k < |cs| && cs[k] == c;
      if cs[|cs| - 1] == c {
        assert b == a + {|cs| - 1};
      } else {
        assert b == a;
      }
    }
  }

  lemma {:induction false} PercentSum(cats: Counts<Category>, n: nat)
    requires n > 0
    ensures SumCount(PatternsOf(cats, n)) == Total(cats)
    ensures SumPercent(PatternsOf(cats, n)) == Total(cats) as real / n as real * 100.0
  {
    if cats != [] {
      var init := cats[..|cats| - 1];
      var e := cats[|cats| - 1];
      PercentSum(init, n);
      TotalSnoc(init, e);
      assert cats == init + [e];
      var ps := PatternsOf(cats, n);
      assert ps[..|cats| - 1] == PatternsOf(init, n);
      assert ps[|cats| - 1].percentage == e.1 as real / n as real * 100.0;
      ShareAdd(Total(init) as real, e.1 as real, n as real);
    }
  }

  lemma WholeShare(n: real)
    requires n > 0.0
    ensures n / n * 100.0 == 100.0
  {
  }

  lemma ShareAdd(a: real, b: real, n: real)
    requires n > 0.0
    ensures (a + b) / n * 100.0 == a / n * 100.0 + b / n * 100.0
  {
  }

  function SumCount(ps: seq<CategoryPattern>): nat {
    if ps == [] then 0 else SumCount(ps[..|ps| - 1]) + ps[|ps| - 1].count
  }

  function SumPercent(ps: seq<CategoryPattern>): real {
    if ps == [] then 0.0 else SumPercent(ps[..|ps| - 1]) + ps[|ps| - 1].percentage
  }

  /**
   * The patterns name each category once, their counts add up to the number
   * of issues, and their percentages add up to 100.
   */
  lemma PatternsSpec(entries: seq<Scored>)
    requires entries != []
    ensures var ps := PatternsOf(Tally(CategoriesOf(entries)), |entries|);
      && (forall a, b | 0 <= a < b < |ps| :: ps[a].category != ps[b].category)
      && SumCount(ps) == |entries|
      && SumPercent(ps) == 100.0
  {
    var cats := Tally(CategoriesOf(entries));
    CategoryCounts(entries, Neutral);
    PercentSum(cats, |entries|);
    WholeShare(|entries| as real);
  }
}

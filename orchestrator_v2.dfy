/**
 * The second orchestrator: agents are built from per-name configurations,
 * execute dispatches on single, multi and auto, the multi-agent results are
 * laid out side by side in boxes whose long lines are word-wrapped greedily,
 * and the primary agent can be replaced mid-session. Running the agents
 * (the fleet, the worktrees, the waiting) is an input: the routing plan and
 * the results are parameters.
 */
module OrchestratorV2 {
  import opened Wrappers
  import opened Values
  import opened Clock
  import opened Text
  import opened AgentBase
  import opened Sessions
  import opened Agents
  import Orchestrator

  // ---------------------------------------------------------------------------
  // Word wrapping of one long response line
  // ---------------------------------------------------------------------------

  /** The widest a wrapped line may grow before its closing " │". */
  const WrapWidth: int := 68

  /** The words of a group, each followed by one space. */
  function Spaced(g: seq<string>): (s: string)
    ensures |s| >= |g|
  {
    if g == [] then "" else g[0] + " " + Spaced(g[1..])
  }

  /** current_line for a group of words: "│ " then each word and a space. */
  function Piece(g: seq<string>): string {
    "│ " + Spaced(g)
  }

  /** Appending a word to the line under construction appends it to its group. */
  lemma {:induction false} SpacedSnoc(g: seq<string>, w: string)
    ensures Spaced(g + [w]) == Spaced(g) + w + " "
  {
    if g == [] {
      assert [w][1..] == [];
    } else {
      assert (g + [w])[1..] == g[1..] + [w];
      SpacedSnoc(g[1..], w);
    }
  }

  /** current_line after `current_line += word + " "`, and after it restarts with a word. */
  lemma PieceSnoc(g: seq<string>, w: string)
    ensures Piece(g + [w]) == Piece(g) + w + " "
    ensures Piece([w]) == "│ " + w + " "
  {
    SpacedSnoc(g, w);
    SpacedSnoc([], w);
    assert [] + [w] == [w];
  }

  /** f"{current_line:<68} │" */
  function Boxed(p: string): (b: string)
    ensures |b| == (if |p| < WrapWidth then WrapWidth else |p|) + 2
    ensures b[..|p|] == p
  {
    PadRight(p, WrapWidth) + " │"
  }

  /**
   * The groups the wrapping loop emits, given the group it is building (`cur`)
   * and the words still to come: a word joins the group while the line stays
   * within 68 characters, otherwise the group is emitted and the word starts
   * the next; the last group is emitted only when it holds a word.
   */
  function GroupsFrom(cur: seq<string>, rest: seq<string>): seq<seq<string>>
    decreases |rest|
  {
    if rest == [] then (if cur == [] then [] else [cur])
    else if |Piece(cur)| + |rest[0]| + 1 <= WrapWidth then GroupsFrom(cur + [rest[0]], rest[1..])
    else [cur] + GroupsFrom([rest[0]], rest[1..])
  }

  /** The groups of a long line. */
  function Groups(line: string): seq<seq<string>> {
    GroupsFrom([], Words(line))
  }

  /** One boxed line per group, in order. */
  function Boxes(gs: seq<seq<string>>): (bs: seq<string>)
    ensures |bs| == |gs|
  {
    if gs == [] then [] else Boxes(gs[..|gs| - 1]) + [Boxed(Piece(gs[|gs| - 1]))]
  }

  lemma {:induction false} BoxesAt(gs: seq<seq<string>>)
    ensures forall i | 0 <= i < |gs| :: Boxes(gs)[i] == Boxed(Piece(gs[i]))
  {
    if gs != [] {
      BoxesAt(gs[..|gs| - 1]);
    }
  }

  lemma BoxesSnoc(gs: seq<seq<string>>, g: seq<string>)
    ensures Boxes(gs + [g]) == Boxes(gs) + [Boxed(Piece(g))]
  {
    assert (gs + [g])[..|gs|] == gs;
  }

  /** The output lines of one long response line. */
  function Wrapped(line: string): seq<string> {
    Boxes(Groups(line))
  }

  /** The words of a sequence of groups, in order. */
  function Flatten(gs: seq<seq<string>>): seq<string> {
    if gs == [] then [] else gs[0] + Flatten(gs[1..])
  }

  lemma {:induction false} GroupsKeepWords(cur: seq<string>, rest: seq<string>)
    ensures Flatten(GroupsFrom(cur, rest)) == cur + rest
    decreases |rest|
  {
    if rest == [] {
      if cur != [] {
        assert Flatten([cur]) == cur + Flatten([]);
      }
    } else if |Piece(cur)| + |rest[0]| + 1 <= WrapWidth {
      GroupsKeepWords(cur + [rest[0]], rest[1..]);
      assert cur + [rest[0]] + rest[1..] == cur + rest;
    } else {
      GroupsKeepWords([rest[0]], rest[1..]);
      var gs := [cur] + GroupsFrom([rest[0]], rest[1..]);
      assert gs[1..] == GroupsFrom([rest[0]], rest[1..]);
      assert [rest[0]] + rest[1..] == rest;
    }
  }

  /** The wrapped groups hold exactly the words of line.split(), in order. */
  lemma WrapKeepsWords(line: string)
    ensures Flatten(Groups(line)) == Words(line)
  {
    GroupsKeepWords([], Words(line));
  }

  /** A group fits: its line is at most 68 characters, or it is one word alone. */
  predicate Fits(g: seq<string>) {
    |Piece(g)| <= WrapWidth || |g| == 1
  }

  lemma {:induction false} GroupsFit(cur: seq<string>, rest: seq<string>)
    requires Fits(cur)
    ensures forall i | 0 <= i < |GroupsFrom(cur, rest)| :: Fits(GroupsFrom(cur, rest)[i])
    decreases |rest|
  {
    if rest != [] {
      if |Piece(cur)| + |rest[0]| + 1 <= WrapWidth {
        SpacedSnoc(cur, rest[0]);
        GroupsFit(cur + [rest[0]], rest[1..]);
      } else {
        GroupsFit([rest[0]], rest[1..]);
      }
    }
  }

  /**
   * Every wrapped output line is exactly 70 characters (68 and " │"), unless
   * its group is a single word too long for the box.
   */
  lemma WrapWidths(line: string)
    ensures var gs := Groups(line);
      forall i | 0 <= i < |gs| :: |Wrapped(line)[i]| == WrapWidth + 2 || |gs[i]| == 1
  {
    GroupsFit([], Words(line));
    BoxesAt(Groups(line));
  }

  /** A group being built keeps its first word as the first word of what is emitted. */
  lemma {:induction false} FirstGroupStarts(cur: seq<string>, rest: seq<string>)
    requires cur != []
    ensures GroupsFrom(cur, rest) != [] && GroupsFrom(cur, rest)[0] != []
    ensures GroupsFrom(cur, rest)[0][0] == cur[0]
    decreases |rest|
  {
    if rest != [] && |Piece(cur)| + |rest[0]| + 1 <= WrapWidth {
      FirstGroupStarts(cur + [rest[0]], rest[1..]);
    }
  }

  /** Group b follows group a greedily: b holds a word, and its first word did not fit after a. */
  predicate Follows(a: seq<string>, b: seq<string>) {
    b != [] && |Piece(a)| + |b[0]| + 1 > WrapWidth
  }

  /** Every group after the first follows the one before it greedily. */
  predicate Greedy(gs: seq<seq<string>>) {
    forall i | 0 < i < |gs| :: Follows(gs[i - 1], gs[i])
  }

  lemma {:induction false} GroupsGreedy(cur: seq<string>, rest: seq<string>)
    ensures Greedy(GroupsFrom(cur, rest))
    decreases |rest|
  {
    if rest != [] {
      if |Piece(cur)| + |rest[0]| + 1 <= WrapWidth {
        GroupsGreedy(cur + [rest[0]], rest[1..]);
      } else {
        var tail := GroupsFrom([rest[0]], rest[1..]);
        var gs := [cur] + tail;
        assert GroupsFrom(cur, rest) == gs;
        GroupsGreedy([rest[0]], rest[1..]);
        FirstGroupStarts([rest[0]], rest[1..]);
        forall i | 0 < i < |gs|
          ensures Follows(gs[i - 1], gs[i])
        {
          if i > 1 {
            assert gs[i - 1] == tail[i - 2] && gs[i] == tail[i - 1];
          }
        }
      }
    }
  }

  /**
   * The wrapping is greedy: every box line after the first holds a word, and
   * that word would not have fitted on the line before it.
   */
  lemma WrapIsGreedy(line: string)
    ensures Greedy(Groups(line))
  {
    GroupsGreedy([], Words(line));
  }

  /**
   * A long line whose first word is longer than 65 characters starts with a
   * blank box line: the empty line under construction is emitted before the
   * word is placed. Otherwise the first box line holds a word.
   */
  lemma BlankFirstBox(line: string)
    requires Words(line) != []
    ensures Groups(line) != []
    ensures Groups(line)[0] == [] <==> |Words(line)[0]| > WrapWidth - 3
  {
    var ws := Words(line);
    assert |Piece([])| == 2;
    if |Piece([])| + |ws[0]| + 1 <= WrapWidth {
      assert [] + [ws[0]] == [ws[0]];
      assert Groups(line) == GroupsFrom([ws[0]], ws[1..]);
      FirstGroupStarts([ws[0]], ws[1..]);
    } else {
      assert Groups(line) == [[]] + GroupsFrom([ws[0]], ws[1..]);
    }
  }

  /** The line under construction strips to the bare "│" exactly when it holds no word. */
  lemma StripPiece(g: seq<string>)
    requires g != [] ==> IsWord(g[0])
    ensures Strip(Piece(g)) == "│" <==> g == []
  {
    var p := Piece(g);
    assert TrimLeft(p) == p;
    if g != [] {
      assert p[2] == g[0][0];
      assert !IsSpace(p[2]);
    }
  }

  /** One step of the grouping: how the next word is placed. */
  lemma GroupsStep(cur: seq<string>, words: seq<string>, k: nat)
    requires k < |words|
    ensures |Piece(cur)| + |words[k]| + 1 <= WrapWidth ==>
      GroupsFrom(cur, words[k..]) == GroupsFrom(cur + [words[k]], words[k + 1..])
    ensures |Piece(cur)| + |words[k]| + 1 > WrapWidth ==>
      GroupsFrom(cur, words[k..]) == [cur] + GroupsFrom([words[k]], words[k + 1..])
  {
    assert words[k..][0] == words[k] && words[k..][1..] == words[k + 1..];
  }

  /** One step of the wrapping loop keeps its invariant on the groups built so far. */
  lemma WrapStep(groups: seq<seq<string>>, cur: seq<string>, words: seq<string>, k: nat, all: seq<seq<string>>)
    requires k < |words| && IsWord(words[k])
    requires groups + GroupsFrom(cur, words[k..]) == all
    ensures |Piece(cur)| + |words[k]| + 1 <= WrapWidth ==>
      Piece(cur + [words[k]]) == Piece(cur) + words[k] + " " &&
      groups + GroupsFrom(cur + [words[k]], words[k + 1..]) == all
    ensures |Piece(cur)| + |words[k]| + 1 > WrapWidth ==>
      Piece([words[k]]) == "│ " + words[k] + " " &&
      Boxes(groups + [cur]) == Boxes(groups) + [Boxed(Piece(cur))] &&
      (groups + [cur]) + GroupsFrom([words[k]], words[k + 1..]) == all
  {
    GroupsStep(cur, words, k);
    PieceSnoc(cur, words[k]);
    BoxesSnoc(groups, cur);
    if |Piece(cur)| + |words[k]| + 1 > WrapWidth {
      assert (groups + [cur]) + GroupsFrom([words[k]], words[k + 1..]) == groups + ([cur] + GroupsFrom([words[k]], words[k + 1..]));
    }
  }

  /** The wrapping loop of _format_multi_results for one line longer than 66 characters. */
  method WrapLine(line: string) returns (out: seq<string>)
    ensures out == Wrapped(line)
  {
    var words := Words(line);
    var current := "│ ";
    ghost var cur: seq<string> := [];
    ghost var groups: seq<seq<string>> := [];
    out := [];
    var k := 0;
    ghost var all := GroupsFrom([], words);
    assert words[0..] == words;
    while k < |words|
      invariant 0 <= k <= |words|
      invariant current == Piece(cur)
      invariant cur != [] ==> IsWord(cur[0])
      invariant out == Boxes(groups)
      invariant groups + GroupsFrom(cur, words[k..]) == all
    {
      var word := words[k];
      WrapStep(groups, cur, words, k, all);
      if |current| + |word| + 1 <= WrapWidth {
        current := current + word + " ";
        cur := cur + [word];
      } else {
        out := out + [Boxed(current)];
        groups := groups + [cur];
        current := "│ " + word + " ";
        cur := [word];
      }
      k := k + 1;
    }
    assert words[k..] == [];
    StripPiece(cur);
    if Strip(current) != "│" {
      assert GroupsFrom(cur, []) == [cur];
      BoxesSnoc(groups, cur);
      out := out + [Boxed(current)];
      groups := groups + [cur];
    } else {
      assert GroupsFrom(cur, []) == [];
    }
    assert groups == all;
  }

  // ---------------------------------------------------------------------------
  // The side-by-side layout of several results
  // ---------------------------------------------------------------------------

  const NoResults: string := "❌ No results from agents"

  /** A horizontal rule of the box between two corner characters. */
  function Rule(left: char, right: char): (s: string)
    ensures |s| == WrapWidth + 2 && s[0] == left && s[|s| - 1] == right
  {
    [left] + Repeat('─', WrapWidth) + [right]
  }

  /** The header line of the i-th result's box. */
  function AgentHeader(i: int, name: string): (h: string)
    ensures IsAgentHeader(h)
  {
    "\n┌─ Agent " + IntToString(i) + ": " + name + " " + Repeat('─', 50 - |name|) + "┐"
  }

  /** A line that opens a result's box. */
  predicate IsAgentHeader(l: string) {
    |l| >= 2 && l[0] == '\n' && l[1] == '┌'
  }

  /** A response line of at most 66 characters, padded inside the box. */
  function ShortBox(line: string): (b: string)
    ensures |b| == (if |line| < WrapWidth - 2 then WrapWidth - 2 else |line|) + 4
    ensures |line| <= WrapWidth - 2 ==> |b| == WrapWidth + 2
    ensures b[..2] == "│ " && b[2..2 + |line|] == line && b[|b| - 2..] == " │"
    ensures forall i | 2 + |line| <= i < |b| - 2 :: b[i] == ' '
  {
    "│ " + PadRight(line, WrapWidth - 2) + " │"
  }

  /** The box lines of one response line: padded when short, wrapped when long. */
  function LineBoxes(line: string): (bs: seq<string>)
    ensures forall i | 0 <= i < |bs| :: bs[i] != [] && bs[i][0] == '│'
  {
    if |line| <= WrapWidth - 2 then [ShortBox(line)]
    else
      var gs := Groups(line);
      BoxesAt(gs);
      assert forall i | 0 <= i < |gs| :: Boxed(Piece(gs[i]))[0] == Piece(gs[i])[0];
      Wrapped(line)
  }

  /** The box lines of a sequence of response lines, in order. */
  function BodyLines(lines: seq<string>): (bs: seq<string>)
    ensures forall i | 0 <= i < |bs| :: bs[i] != [] && bs[i][0] == '│'
  {
    if lines == [] then [] else BodyLines(lines[..|lines| - 1]) + LineBoxes(lines[|lines| - 1])
  }

  /** The first four lines of the i-th result's box. */
  function BoxTop(i: int, r: AgentResult, fixed: (real, nat) -> string, show: Value -> string): (t: seq<string>)
    ensures |t| == 4 && t[0] == AgentHeader(i, r.agentName)
    ensures forall k | 1 <= k < |t| :: Plain(t[k])
  {
    [AgentHeader(i, r.agentName),
     "│ Time: " + fixed(r.timeTaken, 2) + "s | Tokens: " + IntToString(r.tokensUsed) + " | Cost: $" + fixed(r.cost, 4),
     "│ Tools used: " + show(Get(r.metadata, "num_tools_used", VInt(0))),
     Rule('├', '┤')]
  }

  /** The whole box of the i-th result. */
  function ResultBox(i: int, r: AgentResult, fixed: (real, nat) -> string, show: Value -> string): seq<string> {
    BoxTop(i, r, fixed, show) + BodyLines(Split(r.response, '\n')) + [Rule('└', '┘')]
  }

  /** The boxes of the results, numbered from 1 in order. */
  function ResultBoxes(rs: seq<AgentResult>, fixed: (real, nat) -> string, show: Value -> string): seq<string> {
    if rs == [] then [] else ResultBoxes(rs[..|rs| - 1], fixed, show) + ResultBox(|rs|, rs[|rs| - 1], fixed, show)
  }

  lemma ResultBoxesSnoc(rs: seq<AgentResult>, i: nat, fixed: (real, nat) -> string, show: Value -> string)
    requires i < |rs|
    ensures ResultBoxes(rs[..i + 1], fixed, show) == ResultBoxes(rs[..i], fixed, show) + ResultBox(i + 1, rs[i], fixed, show)
  {
    assert rs[..i + 1][..i] == rs[..i];
  }

  /** sum(r.tokens_used for r in results), added left to right. */
  function TotalTokens(rs: seq<AgentResult>): int {
    if rs == [] then 0 else TotalTokens(rs[..|rs| - 1]) + rs[|rs| - 1].tokensUsed
  }

  /** sum(r.cost for r in results) */
  function TotalCost(rs: seq<AgentResult>): real {
    if rs == [] then 0.0 else TotalCost(rs[..|rs| - 1]) + rs[|rs| - 1].cost
  }

  /** sum(r.time_taken for r in results) */
  function TotalTime(rs: seq<AgentResult>): real {
    if rs == [] then 0.0 else TotalTime(rs[..|rs| - 1]) + rs[|rs| - 1].timeTaken
  }

  /** The line carrying the totals. */
  function TotalsLine(rs: seq<AgentResult>, fixed: (real, nat) -> string): string {
    "💰 Total Cost: $" + fixed(TotalCost(rs), 4) + " | Total Tokens: " + IntToString(TotalTokens(rs))
  }

  /** The four lines before the boxes. */
  function Banner(n: int, task: string): (b: seq<string>)
    ensures |b| == 4 && forall k | 0 <= k < |b| :: Plain(b[k])
  {
    ["\n" + Repeat('=', 70), "📊 Results from " + IntToString(n) + " agents", "Task: " + task, Repeat('=', 70) + "\n"]
  }

  /** The four lines after the boxes. */
  function Summary(rs: seq<AgentResult>, fixed: (real, nat) -> string): (s: seq<string>)
    requires rs != []
    ensures |s| == 4 && s[1] == TotalsLine(rs, fixed) && forall k | 0 <= k < |s| :: Plain(s[k])
  {
    ["\n" + Repeat('=', 70), TotalsLine(rs, fixed),
     "⏱️  Average Time: " + fixed(TotalTime(rs) / |rs| as real, 2) + "s", Repeat('=', 70) + "\n"]
  }

  /** The output lines for two or more results. */
  function Layout(rs: seq<AgentResult>, task: string, fixed: (real, nat) -> string, show: Value -> string): seq<string>
    requires rs != []
  {
    Banner(|rs|, task) + ResultBoxes(rs, fixed, show) + Summary(rs, fixed)
  }

  /** The inner loop of _format_multi_results: the box lines of one response, line by line. */
  method BoxBody(response: string) returns (body: seq<string>)
    ensures body == BodyLines(Split(response, '\n'))
  {
    var lines := Split(response, '\n');
    body := [];
    var j := 0;
    while j < |lines|
      invariant 0 <= j <= |lines|
      invariant body == BodyLines(lines[..j])
    {
      var line := lines[j];
      assert lines[..j + 1][..j] == lines[..j];
      if |line| <= WrapWidth - 2 {
        body := body + [ShortBox(line)];
      } else {
        var wrapped := WrapLine(line);
        body := body + wrapped;
      }
      j := j + 1;
    }
    assert lines[..j] == lines;
  }

  /** One pass of the outer loop of _format_multi_results: the i-th result's box. */
  method BoxOf(i: int, result: AgentResult, fixed: (real, nat) -> string, show: Value -> string)
    returns (box: seq<string>)
    ensures box == ResultBox(i, result, fixed, show)
  {
    var body := BoxBody(result.response);
    box := BoxTop(i, result, fixed, show) + body + [Rule('└', '┘')];
  }

  /** The outer loop of _format_multi_results: one box per result, numbered from 1 in order. */
  method BoxesOf(results: seq<AgentResult>, fixed: (real, nat) -> string, show: Value -> string)
    returns (output: seq<string>)
    ensures output == ResultBoxes(results, fixed, show)
  {
    output := [];
    var i := 0;
    while i < |results|
      invariant 0 <= i <= |results|
      invariant output == ResultBoxes(results[..i], fixed, show)
    {
      var box := BoxOf(i + 1, results[i], fixed, show);
      ResultBoxesSnoc(results, i, fixed, show);
      output := output + box;
      i := i + 1;
    }
    assert results[..i] == results;
  }

  /**
   * _format_multi_results. `fixed(x, n)` is Python's fixed-point formatting of
   * x with n decimals and `show(v)` is str(v); both are inputs.
   */
  method FormatMultiResults(results: seq<AgentResult>, task: string, fixed: (real, nat) -> string,
                            show: Value -> string) returns (text: string)
    ensures results == [] ==> text == NoResults
    ensures |results| == 1 ==> text == results[0].response
    ensures |results| >= 2 ==> text == Join(Layout(results, task, fixed, show), "\n")
  {
    if results == [] {
      return NoResults;
    }
    if |results| == 1 {
      return results[0].response;
    }
    var boxes := BoxesOf(results, fixed, show);
    text := Join(Banner(|results|, task) + boxes + Summary(results, fixed), "\n");
  }

  /** The lines that open a result's box, in order. */
  function AgentHeaders(lines: seq<string>): seq<string> {
    if lines == [] then []
    else (if IsAgentHeader(lines[0]) then [lines[0]] else []) + AgentHeaders(lines[1..])
  }

  lemma {:induction false} HeadersAreLines(lines: seq<string>, h: string)
    requires h in AgentHeaders(lines)
    ensures h in lines
  {
    if lines != [] && h !in (if IsAgentHeader(lines[0]) then [lines[0]] else []) {
      HeadersAreLines(lines[1..], h);
    }
  }

  lemma {:induction false} AgentHeadersAppend(a: seq<string>, b: seq<string>)
    ensures AgentHeaders(a + b) == AgentHeaders(a) + AgentHeaders(b)
  {
    if a != [] {
      assert (a + b)[1..] == a[1..] + b;
      AgentHeadersAppend(a[1..], b);
    } else {
      assert a + b == b;
    }
  }

  lemma {:induction false} NoAgentHeaders(lines: seq<string>)
    requires forall i | 0 <= i < |lines| :: Plain(lines[i])
    ensures AgentHeaders(lines) == []
  {
    if lines != [] {
      NoAgentHeaders(lines[1..]);
    }
  }

  /** A line that does not open a box. */
  predicate Plain(l: string) {
    !IsAgentHeader(l)
  }

  /** A box whose first line is a header and whose other lines are plain has that one header. */
  lemma HeadersOfBox(top: seq<string>, body: seq<string>, bottom: seq<string>)
    requires top != [] && IsAgentHeader(top[0])
    requires forall k | 1 <= k < |top| :: Plain(top[k])
    requires forall k | 0 <= k < |body| :: Plain(body[k])
    requires forall k | 0 <= k < |bottom| :: Plain(bottom[k])
    ensures AgentHeaders(top + body + bottom) == [top[0]]
  {
    var t := top[1..];
    forall k | 0 <= k < |t| ensures Plain(t[k]) {
      assert t[k] == top[k + 1];
    }
    NoAgentHeaders(t);
    assert top == [top[0]] + t;
    assert AgentHeaders(top) == [top[0]] + AgentHeaders(t);
    NoAgentHeaders(body);
    NoAgentHeaders(bottom);
    AgentHeadersAppend(top, body);
    AgentHeadersAppend(top + body, bottom);
  }

  /** A result's box opens with its header line and no other line of it opens a box. */
  lemma BoxHeaders(i: int, r: AgentResult, fixed: (real, nat) -> string, show: Value -> string)
    ensures AgentHeaders(ResultBox(i, r, fixed, show)) == [AgentHeader(i, r.agentName)]
  {
    var top := BoxTop(i, r, fixed, show);
    var body := BodyLines(Split(r.response, '\n'));
    var bottom := [Rule('└', '┘')];
    assert forall k | 0 <= k < |body| :: Plain(body[k]);
    HeadersOfBox(top, body, bottom);
  }

  /** The header lines of the boxes: one per result, numbered from 1 in input order. */
  lemma {:induction false} BoxesHeaders(rs: seq<AgentResult>, fixed: (real, nat) -> string, show: Value -> string)
    ensures |AgentHeaders(ResultBoxes(rs, fixed, show))| == |rs|
    ensures forall k | 0 <= k < |rs| :: AgentHeaders(ResultBoxes(rs, fixed, show))[k] == AgentHeader(k + 1, rs[k].agentName)
  {
    if rs != [] {
      var n := |rs|;
      var front := rs[..n - 1];
      var boxes := ResultBoxes(front, fixed, show);
      var box := ResultBox(n, rs[n - 1], fixed, show);
      assert ResultBoxes(rs, fixed, show) == boxes + box;
      BoxesHeaders(front, fixed, show);
      BoxHeaders(n, rs[n - 1], fixed, show);
      AgentHeadersAppend(boxes, box);
      var hs := AgentHeaders(boxes) + [AgentHeader(n, rs[n - 1].agentName)];
      forall k | 0 <= k < n ensures hs[k] == AgentHeader(k + 1, rs[k].agentName) {
        if k < n - 1 {
          assert front[k] == rs[k];
        }
      }
    }
  }

  /** Plain lines around a block add no header to it. */
  lemma HeadersBetween(a: seq<string>, b: seq<string>, c: seq<string>)
    requires forall k | 0 <= k < |a| :: Plain(a[k])
    requires forall k | 0 <= k < |c| :: Plain(c[k])
    ensures AgentHeaders(a + b + c) == AgentHeaders(b)
  {
    NoAgentHeaders(a);
    NoAgentHeaders(c);
    AgentHeadersAppend(a, b);
    AgentHeadersAppend(a + b, c);
  }

  /**
   * With two or more results, the lines that open a box are exactly one
   * "Agent i: name" header per result, numbered 1 to n in input order.
   */
  lemma LayoutHeaders(rs: seq<AgentResult>, task: string, fixed: (real, nat) -> string, show: Value -> string)
    requires rs != []
    ensures |AgentHeaders(Layout(rs, task, fixed, show))| == |rs|
    ensures forall k | 0 <= k < |rs| :: AgentHeaders(Layout(rs, task, fixed, show))[k] == AgentHeader(k + 1, rs[k].agentName)
  {
    var boxes := ResultBoxes(rs, fixed, show);
    HeadersBetween(Banner(|rs|, task), boxes, Summary(rs, fixed));
    BoxesHeaders(rs, fixed, show);
  }

  /** A header line carries the agent's number and name. */
  lemma HeaderNamesAgent(i: int, name: string)
    ensures Contains(AgentHeader(i, name), "Agent " + IntToString(i) + ": " + name)
  {
    var tag := "Agent " + IntToString(i) + ": " + name;
    var rest := " " + Repeat('─', 50 - |name|) + "┐";
    assert AgentHeader(i, name) == "\n┌─ " + tag + rest;
    var h := AgentHeader(i, name);
    assert h[4..4 + |tag|] == tag;
    assert OccursAt(h, tag, 4);
  }

  /** The formatted text names every agent with its number, as "Agent i: name". */
  lemma LayoutNamesAgents(rs: seq<AgentResult>, task: string, fixed: (real, nat) -> string, show: Value -> string)
    requires rs != []
    ensures forall k | 0 <= k < |rs| ::
      Contains(Join(Layout(rs, task, fixed, show), "\n"), "Agent " + IntToString(k + 1) + ": " + rs[k].agentName)
  {
    var lines := Layout(rs, task, fixed, show);
    LayoutHeaders(rs, task, fixed, show);
    forall k | 0 <= k < |rs|
      ensures Contains(Join(lines, "\n"), "Agent " + IntToString(k + 1) + ": " + rs[k].agentName)
    {
      HeaderInJoin(lines, k, rs[k].agentName);
    }
  }

  /** The k-th agent header of the lines names its agent in the joined output. */
  lemma HeaderInJoin(lines: seq<string>, k: nat, name: string)
    requires k < |AgentHeaders(lines)| && AgentHeaders(lines)[k] == AgentHeader(k + 1, name)
    ensures Contains(Join(lines, "\n"), "Agent " + IntToString(k + 1) + ": " + name)
  {
    var h := AgentHeaders(lines)[k];
    HeadersAreLines(lines, h);
    HeaderNamesAgent(k + 1, name);
    LineInJoin(lines, h, "Agent " + IntToString(k + 1) + ": " + name);
  }

  /** What one of the lines contains, the joined output contains. */
  lemma LineInJoin(lines: seq<string>, h: string, tag: string)
    requires h in lines && Contains(h, tag)
    ensures Contains(Join(lines, "\n"), tag)
  {
    JoinContainsParts(lines, "\n");
    var j :| 0 <= j < |lines| && lines[j] == h;
    ContainsTrans(Join(lines, "\n"), h, tag);
  }

  /** The totals line is the third from the end of the output. */
  lemma LayoutTotals(rs: seq<AgentResult>, task: string, fixed: (real, nat) -> string, show: Value -> string)
    requires rs != []
    ensures var lines := Layout(rs, task, fixed, show);
      |lines| >= 8 && lines[|lines| - 3] == TotalsLine(rs, fixed)
  {
  }

  /** The token total is additive over the results: the figure is the sum of every result's tokens_used. */
  lemma {:induction false} TotalTokensAppend(a: seq<AgentResult>, b: seq<AgentResult>)
    ensures TotalTokens(a + b) == TotalTokens(a) + TotalTokens(b)
    decreases |b|
  {
    if b != [] {
      assert (a + b)[..|a + b| - 1] == a + b[..|b| - 1];
      TotalTokensAppend(a, b[..|b| - 1]);
    } else {
      assert a + b == a;
    }
  }

  // ---------------------------------------------------------------------------
  // Mode dispatch
  // ---------------------------------------------------------------------------

  /** What execute goes on to do: one agent, or `count` agents side by side. */
  datatype Route = RunSingle | RunMulti(count: int)

  /**
   * execute's dispatch on the mode. `suggestion` is what the primary agent's
   * create_routing_plan returned or raised; it is asked for only in "auto".
   */
  function Dispatch(mode: string, numAgents: Option<int>, suggestion: Result<RoutingPlan>): (r: Result<Route>)
    ensures mode == "single" ==> r == Ok(RunSingle)
    ensures mode == "multi" ==> (r.Ok? <==> numAgents.Some?)
    ensures mode == "multi" && numAgents.Some? ==> r == Ok(RunMulti(numAgents.value))
    ensures mode == "auto" ==> (r.Ok? <==> suggestion.Ok?)
    ensures mode == "auto" && suggestion.Err? ==> r == Err(suggestion.error)
    ensures r.Ok? && r.value.RunMulti? ==> mode == "multi"
    ensures r.Err? && mode != "auto" ==> r.error.kind == ValueError
    ensures mode != "single" && mode != "multi" && mode != "auto" ==> r.Err?
  {
    if mode == "single" then Ok(RunSingle)
    else if mode == "multi" then
      (if numAgents.None? then Err(Error(ValueError, "num_agents required for multi mode"))
       else Ok(RunMulti(numAgents.value)))
    else if mode == "auto" then
      (if suggestion.Err? then Err(suggestion.error) else Ok(RunSingle))
    else Err(Error(ValueError, "Unknown execution mode: " + mode))
  }

  /**
   * In "auto" the suggestion is only advisory: whatever plan comes back, and
   * whether or not it asks for several agents, one agent runs.
   */
  lemma AutoRunsSingle(numAgents: Option<int>, plan: RoutingPlan, other: RoutingPlan)
    ensures Dispatch("auto", numAgents, Ok(plan)) == Dispatch("auto", None, Ok(other)) == Ok(RunSingle)
  {
  }

  // ---------------------------------------------------------------------------
  // The orchestrator object
  // ---------------------------------------------------------------------------

  /** `workspace_path or os.getcwd()`: a missing or empty path means the current directory. */
  function Workspace(workspacePath: Option<string>, cwd: string): (w: string)
    ensures workspacePath.Some? && workspacePath.value != "" ==> w == workspacePath.value
    ensures workspacePath.None? || workspacePath.value == "" ==> w == cwd
  {
    if workspacePath.None? || workspacePath.value == "" then cwd else workspacePath.value
  }

  /** A configuration copied with its name and workspace entries overwritten. */
  function AgentConfig(config: Dict, name: string, workspace: Value): (c: Dict)
    ensures c.Keys == config.Keys + {"name", "workspace_path"}
    ensures ConfigName(c) == Some(name) && c["workspace_path"] == workspace
    ensures forall k | k in config && k != "name" && k != "workspace_path" :: c[k] == config[k]
  {
    config["name" := VStr(name)]["workspace_path" := workspace]
  }

  /** The constructor's primary configuration records the workspace argument as given, None included. */
  function RawWorkspace(workspacePath: Option<string>): Value {
    if workspacePath.None? then VNone else VStr(workspacePath.value)
  }

  /** AgnosticOrchestrator: the configurations by name, the primary agent built from one of them, and the session. */
  class AgnosticOrchestrator {
    var primaryName: string
    var primaryAgent: Agent
    const agentConfigs: map<string, Dict>
    const workspacePath: string
    const session: Session?

    ghost predicate Valid()
      reads this, primaryAgent, primaryAgent.context, session
    {
      && primaryName in agentConfigs
      && primaryAgent.Valid() && primaryAgent.kind == ClaudeCode && primaryAgent.name == primaryName
      && (session != null ==> session.Valid())
    }

    constructor(primary: string, configs: map<string, Dict>, workspacePath: string, rawWorkspace: Value, session: Session?)
      requires primary in configs
      requires session != null ==> session.Valid()
      ensures Valid() && fresh(primaryAgent) && fresh(primaryAgent.context)
      ensures primaryName == primary && agentConfigs == configs && this.workspacePath == workspacePath
      ensures this.session == session
      ensures primaryAgent.config == AgentConfig(configs[primary], primary, rawWorkspace)
      ensures primaryAgent.context.State() == EmptyContext
    {
      primaryName := primary;
      agentConfigs := configs;
      this.workspacePath := workspacePath;
      this.session := session;
      primaryAgent := new Agent(ClaudeCode, AgentConfig(configs[primary], primary, rawWorkspace));
    }

    /**
     * _build_context: without a session only an empty conversation; with one,
     * the last ten turns reduced to role, content and agent, one by one, then
     * the workspace and the session's context.
     */
    method BuildContext() returns (d: Dict)
      ensures d == Orchestrator.BuildContext(Orchestrator.View(session))
    {
      if session == null {
        return map["conversation" := VList([])];
      }
      var recent := LastN(session.conversation, 10);
      var conversation: seq<Value> := [];
      var i := 0;
      while i < |recent|
        invariant 0 <= i <= |recent|
        invariant |conversation| == i
        invariant forall k | 0 <= k < i :: conversation[k] == VDict(Orchestrator.BriefTurn(recent[k]))
      {
        var turn := recent[i];
        conversation := conversation + [VDict(map["role" := VStr(turn.role), "content" := VStr(turn.content),
                                                  "agent" := VStr(turn.agent)])];
        i := i + 1;
      }
      assert conversation == Orchestrator.Window(session.conversation);
      d := map["conversation" := VList(conversation), "workspace" := VStr(session.workspace),
               "session_context" := VDict(session.context)];
    }

    /** _update_session: nothing without a session; otherwise one assistant turn and the totals grow. */
    method UpdateSession(result: AgentResult, now: DateTime)
      requires Valid() && Clock.Valid(now)
      modifies session
      ensures Valid()
      ensures session != null ==> session.Record() == WithTurn(old(session.Record()), Orchestrator.AssistantTurn(result, now))
      ensures session != null && old(TotalsMatch(session.Record())) ==> TotalsMatch(session.Record())
    {
      Orchestrator.RecordResult(session, result, now);
    }

    /**
     * switch_orchestrator: an unknown name raises ValueError before anything
     * changes; otherwise a new primary agent is built from that name's
     * configuration with the orchestrator's workspace, imports the old
     * primary agent's export, and the session records the new name.
     */
    method SwitchOrchestrator(newName: string) returns (r: Result<()>)
      requires Valid()
      modifies this, session
      ensures Valid()
      ensures r.Ok? <==> newName in agentConfigs
      ensures r.Err? ==> (r.error.kind == ValueError && primaryName == old(primaryName)
        && primaryAgent == old(primaryAgent)
        && (session != null ==> session.Record() == old(session.Record())))
      ensures r.Ok? ==> (primaryName == newName && fresh(primaryAgent) && fresh(primaryAgent.context)
        && primaryAgent.config == AgentConfig(agentConfigs[newName], newName, VStr(workspacePath))
        && primaryAgent.context.State() == old(primaryAgent.context.State())
        && old(primaryAgent).context.State() == old(primaryAgent.context.State())
        && (session != null ==> session.Record() == old(session.Record()).(primaryAgent := newName)))
    {
      if newName !in agentConfigs {
        return Err(Error(ValueError, "Agent '" + newName + "' not found. Available: "));
      }
      var previous := primaryAgent;
      var agent := new Agent(ClaudeCode, AgentConfig(agentConfigs[newName], newName, VStr(workspacePath)));
      agent.ImportFromAgent(previous);
      primaryAgent := agent;
      primaryName := newName;
      if session != null {
        session.Assign(session.Record().(primaryAgent := newName));
      }
      r := Ok(());
    }

    /** Switching to another configuration and back restores the primary name and the conversation context. */
    method SwitchAwayAndBack(other: string) returns (r: Result<()>)
      requires Valid() && other in agentConfigs
      modifies this, session
      ensures Valid() && r.Ok?
      ensures primaryName == old(primaryName)
      ensures primaryAgent.context.State() == old(primaryAgent.context.State())
      ensures session != null ==> session.Record() == old(session.Record()).(primaryAgent := old(primaryName))
    {
      var home := primaryName;
      r := SwitchOrchestrator(other);
      r := SwitchOrchestrator(home);
    }
  }

  /**
   * AgnosticOrchestrator(...): ValueError when the primary name has no
   * configuration; the workspace defaults to `cwd`.
   */
  method NewAgnosticOrchestrator(primary: string, configs: map<string, Dict>, workspacePath: Option<string>,
                                 cwd: string, session: Session?) returns (r: Result<AgnosticOrchestrator>)
    requires session != null ==> session.Valid()
    ensures r.Ok? <==> primary in configs
    ensures r.Err? ==> r.error.kind == ValueError
    ensures r.Ok? ==> (fresh(r.value) && r.value.Valid() && r.value.primaryName == primary
      && r.value.agentConfigs == configs && r.value.session == session
      && r.value.workspacePath == Workspace(workspacePath, cwd)
      && r.value.primaryAgent.config == AgentConfig(configs[primary], primary, RawWorkspace(workspacePath))
      && r.value.primaryAgent.context.State() == EmptyContext)
  {
    if primary !in configs {
      return Err(Error(ValueError, "Primary agent '" + primary + "' not in configs"));
    }
    var o := new AgnosticOrchestrator(primary, configs, Workspace(workspacePath, cwd), RawWorkspace(workspacePath), session);
    r := Ok(o);
  }
}

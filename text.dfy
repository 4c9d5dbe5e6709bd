/**
 * The Python string operations the modelled code relies on: lower-casing,
 * substring tests, str.split / str.split() / str.split(maxsplit=1),
 * str.strip, str.replace, str.join and int(str).
 * Characters are Unicode code points; case mapping and whitespace are the
 * ASCII part of Python's tables.
 */
module Text {
  import opened Wrappers

  /** Python's str.isspace restricted to the ASCII range. */
  predicate IsSpace(c: char) {
    c == ' ' || c == '\t' || c == '\n' || c == '\r' || c == '\U{B}' || c == '\U{C}'
    || ('\U{1C}' <= c <= '\U{1F}')
  }

  predicate IsDigit(c: char) { '0' <= c <= '9' }

  predicate IsAsciiLetter(c: char) { ('a' <= c <= 'z') || ('A' <= c <= 'Z') }

  function LowerChar(c: char): char {
    if 'A' <= c <= 'Z' then (c as int + 32) as char else c
  }

  /** str.lower() on ASCII letters; every other character is kept. */
  function Lower(s: string): (r: string)
    ensures |r| == |s|
    ensures forall i | 0 <= i < |s| :: r[i] == LowerChar(s[i])
  {
    seq(|s|, i requires 0 <= i < |s| => LowerChar(s[i]))
  }

  predicate OccursAt(s: string, p: string, i: nat) {
    i + |p| <= |s| && s[i..i + |p|] == p
  }

  /** Python's `p in s` for strings. */
  predicate Contains(s: string, p: string) {
    exists i: nat | i <= |s| :: OccursAt(s, p, i)
  }

  predicate StartsWith(s: string, p: string) {
    |p| <= |s| && s[..|p|] == p
  }

  /** A character of p that s lacks rules out every occurrence of p in s. */
  lemma MissingCharExcludes(s: string, p: string, c: char)
    requires c in p && c !in s
    ensures !Contains(s, p)
  {
    var k := IndexOfChar(p, c);
    forall i: nat | i <= |s|
      ensures !OccursAt(s, p, i)
    {
      if i + |p| <= |s| {
        assert s[i..i + |p|][k] == s[i + k];
        assert s[i + k] in s;
      }
    }
  }

  /**
   * An occurrence of p in a + [sep] + b lies inside a or inside b when p does
   * not contain sep.
   */
  lemma SeparatedExcludes(a: string, sep: char, b: string, p: string)
    requires sep !in p && !Contains(a, p) && !Contains(b, p)
    ensures !Contains(a + [sep] + b, p)
  {
    var s := a + [sep] + b;
    forall i: nat | i <= |s|
      ensures !OccursAt(s, p, i)
    {
      if i + |p| <= |s| {
        var w := s[i..i + |p|];
        if i + |p| <= |a| {
          assert w == a[i..i + |p|];
          assert !OccursAt(a, p, i);
        } else if i > |a| {
          assert w == b[i - |a| - 1..i - |a| - 1 + |p|];
          assert !OccursAt(b, p, i - |a| - 1);
        } else {
          assert w[|a| - i] == sep;
        }
      }
    }
  }

  /** The first index at which p occurs in s at or after position `from`. */
  function FindFrom(s: string, p: string, from: nat): (r: Option<nat>)
    requires from <= |s|
    ensures r.Some? ==> from <= r.value <= |s| && OccursAt(s, p, r.value)
    ensures r.Some? ==> forall j | from <= j < r.value :: !OccursAt(s, p, j)
    ensures r.None? ==> forall j | from <= j <= |s| :: !OccursAt(s, p, j)
    decreases |s| - from
  {
    if OccursAt(s, p, from) then Some(from)
    else if from == |s| then None
    else FindFrom(s, p, from + 1)
  }

  /** s.split(p)[0]: the text before the first occurrence of p, or all of s. */
  function Before(s: string, p: string): (r: string)
    requires p != []
    ensures StartsWith(s, r)
    ensures !Contains(r, p)
    ensures Contains(s, p) ==> OccursAt(s, p, |r|)
    ensures forall j | 0 <= j < |r| :: !OccursAt(s, p, j)
    ensures !Contains(s, p) ==> r == s
  {
    match FindFrom(s, p, 0)
    case None => s
    case Some(k) =>
      var r := s[..k];
      forall j: nat | j <= |r| ensures !OccursAt(r, p, j) {
        if j + |p| <= |r| {
          assert r[j..j + |p|] == s[j..j + |p|];
          assert j < k;
          assert !OccursAt(s, p, j);
        }
      }
      r
  }

  /** The text after the first occurrence of p: s.split(p)[1:] joined back by p. */
  function After(s: string, p: string): (r: string)
    requires p != [] && Contains(s, p)
    ensures s == Before(s, p) + p + r
  {
    var b := Before(s, p);
    assert s == s[..|b|] + s[|b|..|b| + |p|] + s[|b| + |p|..];
    s[|b| + |p|..]
  }

  /** A substring of a substring is a substring. */
  lemma ContainsTrans(s: string, m: string, p: string)
    requires Contains(s, m) && Contains(m, p)
    ensures Contains(s, p)
  {
    var i: nat :| i <= |s| && OccursAt(s, m, i);
    var j: nat :| j <= |m| && OccursAt(m, p, j);
    assert forall t | 0 <= t < |p| :: s[i + j + t] == m[j + t] == p[t] by {
      assert s[i..i + |m|] == m && m[j..j + |p|] == p;
    }
    assert s[i + j..i + j + |p|] == p;
    assert OccursAt(s, p, i + j);
  }

  /** Python's s[-n:] for a positive n: the last n elements, or all of s when it is shorter. */
  function LastN<T>(s: seq<T>, n: nat): (r: seq<T>)
    requires n > 0
    ensures |r| == (if |s| <= n then |s| else n)
    ensures r == s[|s| - |r|..]
  {
    if |s| <= n then s else s[|s| - n..]
  }

  /** c * n: n copies of c, none for a count below one. */
  function Repeat(c: char, n: int): (s: string)
    ensures |s| == (if n < 0 then 0 else n)
    ensures forall i | 0 <= i < |s| :: s[i] == c
  {
    if n <= 0 then "" else [c] + Repeat(c, n - 1)
  }

  /** f"{s:<width}": s followed by spaces up to width characters; a longer s is kept whole. */
  function PadRight(s: string, width: int): (r: string)
    ensures |r| == (if |s| < width then width else |s|)
    ensures r[..|s|] == s
    ensures forall i | |s| <= i < |r| :: r[i] == ' '
  {
    s + Repeat(' ', width - |s|)
  }

  function IndexOfChar(s: string, c: char): (i: nat)
    requires c in s
    ensures i < |s| && s[i] == c && c !in s[..i]
  {
    if s[0] == c then 0 else 1 + IndexOfChar(s[1..], c)
  }

  /** sep.join(parts) */
  function Join(parts: seq<string>, sep: string): string {
    if |parts| == 0 then ""
    else if |parts| == 1 then parts[0]
    else parts[0] + sep + Join(parts[1..], sep)
  }

  /** A character absent from every part and from the separator is absent from the joined text. */
  lemma {:induction false} JoinAvoids(parts: seq<string>, sep: string, c: char)
    requires c !in sep && forall p | p in parts :: c !in p
    ensures c !in Join(parts, sep)
  {
    if |parts| > 1 {
      JoinAvoids(parts[1..], sep, c);
      assert parts[0] in parts;
    } else if |parts| == 1 {
      assert parts[0] in parts;
    }
  }

  /** Every part occurs in the joined text, and the first part begins it. */
  lemma {:induction false} JoinContainsParts(parts: seq<string>, sep: string)
    requires |parts| >= 1
    ensures forall i | 0 <= i < |parts| :: Contains(Join(parts, sep), parts[i])
    ensures StartsWith(Join(parts, sep), parts[0])
  {
    var s := Join(parts, sep);
    assert OccursAt(s, parts[0], 0);
    if |parts| > 1 {
      var rest := Join(parts[1..], sep);
      JoinContainsParts(parts[1..], sep);
      assert s == (parts[0] + sep) + rest;
      assert OccursAt(s, rest, |parts[0] + sep|);
      forall i | 1 <= i < |parts| ensures Contains(s, parts[i]) {
        assert parts[i] == parts[1..][i - 1];
        ContainsTrans(s, rest, parts[i]);
      }
    }
  }

  /** s.split(sep) for a one-character separator. */
  function Split(s: string, sep: char): (parts: seq<string>)
    ensures |parts| >= 1
    ensures forall k | 0 <= k < |parts| :: sep !in parts[k]
    ensures Join(parts, [sep]) == s
    decreases |s|
  {
    if sep !in s then [s]
    else
      var i := IndexOfChar(s, sep);
      var rest := Split(s[i + 1..], sep);
      assert s == s[..i] + [sep] + s[i + 1..];
      [s[..i]] + rest
  }

  lemma {:induction false} IndexOfCharAfter(a: string, b: string, c: char)
    requires c !in a
    ensures IndexOfChar(a + [c] + b, c) == |a|
  {
    if a != [] {
      assert (a + [c] + b)[1..] == a[1..] + [c] + b;
      IndexOfCharAfter(a[1..], b, c);
    }
  }

  /** Splitting undoes joining with a separator that no part contains. */
  lemma {:induction false} SplitJoin(parts: seq<string>, sep: char)
    requires |parts| >= 1
    requires forall k | 0 <= k < |parts| :: sep !in parts[k]
    ensures Split(Join(parts, [sep]), sep) == parts
  {
    if |parts| > 1 {
      var s := Join(parts, [sep]);
      var tail := Join(parts[1..], [sep]);
      assert s == parts[0] + [sep] + tail;
      assert s[|parts[0]|] == sep;
      assert s[..|parts[0]|] == parts[0];
      IndexOfCharAfter(parts[0], tail, sep);
      var i := IndexOfChar(s, sep);
      assert s[i + 1..] == tail;
      SplitJoin(parts[1..], sep);
    }
  }

  /** The longest suffix of s that does not start with whitespace. */
  function TrimLeft(s: string): (r: string)
    ensures |r| <= |s| && r == s[|s| - |r|..]
    ensures r == [] || !IsSpace(r[0])
    ensures forall i | 0 <= i < |s| - |r| :: IsSpace(s[i])
  {
    if s == [] || !IsSpace(s[0]) then s else TrimLeft(s[1..])
  }

  /** The longest prefix of s that does not end with whitespace. */
  function TrimRight(s: string): (r: string)
    ensures |r| <= |s| && r == s[..|r|]
    ensures r == [] || !IsSpace(r[|r| - 1])
    ensures forall i | |r| <= i < |s| :: IsSpace(s[i])
  {
    if s == [] || !IsSpace(s[|s| - 1]) then s else TrimRight(s[..|s| - 1])
  }

  /** Neither starts nor ends with whitespace. */
  predicate Unpadded(s: string) {
    s == [] || (!IsSpace(s[0]) && !IsSpace(s[|s| - 1]))
  }

  /** p occurs at index i of s with only whitespace before and after it. */
  predicate PaddedAt(s: string, p: string, i: nat) {
    && OccursAt(s, p, i)
    && (forall j | 0 <= j < i :: IsSpace(s[j]))
    && (forall j | i + |p| <= j < |s| :: IsSpace(s[j]))
  }

  /** str.strip() */
  function Strip(s: string): (r: string)
    ensures Unpadded(r)
    ensures Contains(s, r)
  {
    var l := TrimLeft(s);
    var r := TrimRight(l);
    TrimmedPadded(s, l, r);
    r
  }

  /** strip() gives a piece of s that only whitespace surrounds. */
  lemma StripPadded(s: string)
    ensures exists i: nat | i <= |s| :: PaddedAt(s, Strip(s), i)
  {
    var l := TrimLeft(s);
    TrimmedPadded(s, l, TrimRight(l));
    assert Strip(s) == TrimRight(l);
    assert PaddedAt(s, Strip(s), |s| - |l|);
  }

  /** The two trims leave a piece that only whitespace surrounds. */
  lemma TrimmedPadded(s: string, l: string, r: string)
    requires |l| <= |s| && l == s[|s| - |l|..] && forall j | 0 <= j < |s| - |l| :: IsSpace(s[j])
    requires |r| <= |l| && r == l[..|r|] && forall j | |r| <= j < |l| :: IsSpace(l[j])
    ensures OccursAt(s, r, |s| - |l|) && PaddedAt(s, r, |s| - |l|)
  {
    var i := |s| - |l|;
    assert s[i..] == l;
    assert s[i..i + |r|] == r;
    forall j | i + |r| <= j < |s|
      ensures IsSpace(s[j])
    {
      assert s[j] == l[j - i];
    }
  }

  /** Only one unpadded piece of s is surrounded by whitespace alone. */
  lemma PaddedUnique(s: string, p: string, i: nat, q: string, k: nat)
    requires Unpadded(p) && PaddedAt(s, p, i) && Unpadded(q) && PaddedAt(s, q, k)
    ensures p == q
  {
    if p != [] {
      assert s[i] == p[0] && s[i + |p| - 1] == p[|p| - 1];
    }
    if q != [] {
      assert s[k] == q[0] && s[k + |q| - 1] == q[|q| - 1];
    }
  }

  /** So strip() is fixed by its contract. */
  lemma StripUnique(s: string, p: string, i: nat)
    requires Unpadded(p) && PaddedAt(s, p, i)
    ensures Strip(s) == p
  {
    StripPadded(s);
    var k: nat :| k <= |s| && PaddedAt(s, Strip(s), k);
    PaddedUnique(s, p, i, Strip(s), k);
  }

  lemma StripUnpadded(s: string)
    requires Unpadded(s)
    ensures Strip(s) == s
  {
  }

  /** The index of the first whitespace character of s, or |s|. */
  function TokenEnd(s: string): (i: nat)
    ensures i <= |s| && (i < |s| ==> IsSpace(s[i]))
    ensures forall j | 0 <= j < i :: !IsSpace(s[j])
  {
    if s == [] || IsSpace(s[0]) then 0 else 1 + TokenEnd(s[1..])
  }

  /** A non-empty run of non-whitespace characters. */
  predicate IsWord(w: string) {
    w != [] && forall i | 0 <= i < |w| :: !IsSpace(w[i])
  }

  /** str.split() with no arguments: the maximal runs of non-whitespace. */
  function Words(s: string): (ws: seq<string>)
    ensures forall k | 0 <= k < |ws| :: IsWord(ws[k])
    decreases |s|
  {
    var t := TrimLeft(s);
    if t == [] then []
    else
      var i := TokenEnd(t);
      assert |t[i..]| < |s|;
      var rest := Words(t[i..]);
      FirstTokenIsWord(t);
      ConsWords(t[..i], rest);
      [t[..i]] + rest
  }

  lemma ConsWords(w: string, rest: seq<string>)
    requires IsWord(w) && forall k | 0 <= k < |rest| :: IsWord(rest[k])
    ensures forall k | 0 <= k < |[w] + rest| :: IsWord(([w] + rest)[k])
  {
    var ws := [w] + rest;
    forall k | 0 <= k < |ws|
      ensures IsWord(ws[k])
    {
      if k > 0 {
        assert ws[k] == rest[k - 1];
      }
    }
  }

  lemma FirstTokenIsWord(t: string)
    requires t != [] && !IsSpace(t[0])
    ensures 0 < TokenEnd(t) && IsWord(t[..TokenEnd(t)])
  {
    var w := t[..TokenEnd(t)];
    forall j | 0 <= j < |w| ensures !IsSpace(w[j]) { assert w[j] == t[j]; }
  }

  /** str.split(maxsplit=1): the first word, then the rest with its leading whitespace removed. */
  function SplitOnce(s: string): (parts: seq<string>)
    ensures |parts| <= 2
    ensures |parts| == 0 <==> Words(s) == []
    ensures |parts| >= 1 ==> parts[0] == Words(s)[0]
    ensures |parts| == 2 ==> parts[1] != [] && !IsSpace(parts[1][0])
  {
    var t := TrimLeft(s);
    if t == [] then []
    else
      var i := TokenEnd(t);
      var rest := TrimLeft(t[i..]);
      if rest == [] then [t[..i]] else [t[..i], rest]
  }

  /** s.replace(pat, rep) for a non-empty pattern, scanning left to right. */
  function ReplaceAll(s: string, pat: string, rep: string): (r: string)
    requires pat != []
    ensures !Contains(s, pat) ==> r == s
    decreases |s|
  {
    if s == [] then []
    else if StartsWith(s, pat) then
      assert OccursAt(s, pat, 0);
      rep + ReplaceAll(s[|pat|..], pat, rep)
    else
      assert forall i: nat | i <= |s[1..]| && OccursAt(s[1..], pat, i) :: OccursAt(s, pat, i + 1);
      [s[0]] + ReplaceAll(s[1..], pat, rep)
  }

  // ---- integers -------------------------------------------------------

  function DigitValue(c: char): nat
    requires IsDigit(c)
  {
    c as int - '0' as int
  }

  function DigitChar(d: nat): char
    requires d < 10
  {
    ('0' as int + d) as char
  }

  predicate AllDigits(s: string) { forall c | c in s :: IsDigit(c) }

  function DigitsValue(s: string): nat
    requires AllDigits(s)
  {
    if s == [] then 0 else DigitsValue(s[..|s| - 1]) * 10 + DigitValue(s[|s| - 1])
  }

  /** str(n) for a natural number. */
  function NatToString(n: nat): (s: string)
    ensures |s| >= 1 && AllDigits(s)
  {
    if n < 10 then [DigitChar(n)] else NatToString(n / 10) + [DigitChar(n % 10)]
  }

  /** str(n) */
  function IntToString(n: int): string {
    if n < 0 then "-" + NatToString(-n) else NatToString(n)
  }

  /** Digits where each underscore sits between two digits, as int() accepts them. */
  predicate WellGrouped(s: string) {
    && |s| > 0
    && IsDigit(s[0]) && IsDigit(s[|s| - 1])
    && forall i | 0 <= i < |s| :: IsDigit(s[i]) || (s[i] == '_' && 0 < i < |s| - 1 && IsDigit(s[i + 1]))
  }

  function DropUnderscores(s: string): (r: string)
    requires forall c | c in s :: IsDigit(c) || c == '_'
    ensures AllDigits(r)
  {
    if s == [] then []
    else if s[0] == '_' then DropUnderscores(s[1..])
    else [s[0]] + DropUnderscores(s[1..])
  }

  function ParseUnsigned(s: string): Option<nat> {
    if WellGrouped(s) then
      assert forall c | c in s :: IsDigit(c) || c == '_';
      Some(DigitsValue(DropUnderscores(s)))
    else None
  }

  /** int(s) for a str argument: None where Python raises ValueError. */
  function PyInt(s: string): Option<int> {
    SignedInt(Strip(s))
  }

  /** int() of text already stripped: an optional sign, then digits. */
  function SignedInt(t: string): Option<int> {
    if t == [] then None
    else if t[0] == '-' then
      match ParseUnsigned(t[1..])
      case Some(v) => Some(0 - v)
      case None => None
    else if t[0] == '+' then
      match ParseUnsigned(t[1..])
      case Some(v) => Some(v as int)
      case None => None
    else
      match ParseUnsigned(t)
      case Some(v) => Some(v as int)
      case None => None
  }

  lemma {:induction false} NatToStringValue(n: nat)
    ensures DigitsValue(NatToString(n)) == n
  {
    if n >= 10 {
      NatToStringValue(n / 10);
      var s := NatToString(n);
      assert s[..|s| - 1] == NatToString(n / 10);
    }
  }

  lemma {:induction false} DropUnderscoresOfDigits(s: string)
    requires AllDigits(s)
    ensures DropUnderscores(s) == s
  {
    if s != [] {
      assert s[0] in s;
      assert AllDigits(s[1..]);
      DropUnderscoresOfDigits(s[1..]);
    }
  }

  /** int() reads back the decimal string of a natural number. */
  lemma ParseUnsignedOfNat(n: nat)
    ensures ParseUnsigned(NatToString(n)) == Some(n)
  {
    var d := NatToString(n);
    assert WellGrouped(d) by {
      assert d[0] in d && d[|d| - 1] in d;
      forall i | 0 <= i < |d| ensures IsDigit(d[i]) { assert d[i] in d; }
    }
    NatToStringValue(n);
    DropUnderscoresOfDigits(d);
  }

  /** int(str(n)) == n */
  lemma PyIntRoundTrip(n: int)
    ensures PyInt(IntToString(n)) == Some(n)
  {
    var s := IntToString(n);
    IntStringUnpadded(n);
    StripUnpadded(s);
    SignedIntOfString(n);
  }

  lemma IntStringUnpadded(n: int)
    ensures Unpadded(IntToString(n))
  {
    var d := NatToString(if n < 0 then -n else n);
    assert d[0] in d && d[|d| - 1] in d;
  }

  lemma SignedIntOfString(n: int)
    ensures SignedInt(IntToString(n)) == Some(n)
  {
    var m: nat := if n < 0 then -n else n;
    var d := NatToString(m);
    ParseUnsignedOfNat(m);
    var s := IntToString(n);
    if n < 0 {
      assert s[0] == '-' && s[1..] == d;
    } else {
      assert d[0] in d;
      assert s[0] != '-' && s[0] != '+';
    }
  }

  /** The first whitespace of a word followed by text that starts with whitespace is where the word ends. */
  lemma {:induction false} TokenEndOfWord(w: string, rest: string)
    requires forall i | 0 <= i < |w| :: !IsSpace(w[i])
    requires rest == [] || IsSpace(rest[0])
    ensures TokenEnd(w + rest) == |w|
    decreases |w|
  {
    if w != [] {
      assert (w + rest)[1..] == w[1..] + rest;
      TokenEndOfWord(w[1..], rest);
    }
  }

  /** A single word splits into itself. */
  lemma SplitOnceWord(w: string)
    requires IsWord(w)
    ensures SplitOnce(w) == [w]
  {
    TokenEndOfWord(w, []);
    assert w + [] == w;
  }

  /** A word, one space and a text that starts with a non-space split into the word and the text. */
  lemma SplitOnceJoin(w: string, t: string)
    requires IsWord(w) && t != [] && !IsSpace(t[0])
    ensures SplitOnce(w + " " + t) == [w, t]
  {
    var s := w + " " + t;
    TokenEndOfWord(w, " " + t);
    assert s == w + (" " + t);
    assert TrimLeft(s) == s;
    assert s[|w|..] == " " + t;
    assert s[..|w|] == w;
    assert (" " + t)[1..] == t;
  }

  /** str.lower() leaves a string without upper-case ASCII letters as it is. */
  lemma LowerUnchanged(s: string)
    requires forall i | 0 <= i < |s| :: !('A' <= s[i] <= 'Z')
    ensures Lower(s) == s
  {
  }
}

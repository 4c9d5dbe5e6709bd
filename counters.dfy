/**
 * collections.Counter as the analytics code uses it: a dictionary from keys
 * to counts that remembers the order in which keys were first seen,
 * incremented one key at a time, and most_common(n), which lists the
 * entries by descending count, ties in first-seen order.
 */
module Counters {

  /** A Counter: its entries in first-seen order. */
  type Counts<K> = seq<(K, nat)>

  function KeysOf<K>(c: Counts<K>): (ks: seq<K>)
    ensures |ks| == |c|
    ensures forall i | 0 <= i < |c| :: ks[i] == c[i].0
  {
    if c == [] then [] else [c[0].0] + KeysOf(c[1..])
  }

  predicate DistinctKeys<K(==)>(c: Counts<K>) {
    forall i, j | 0 <= i < j < |c| :: c[i].0 != c[j].0
  }

  /** c[k]: the count of k, 0 when k was never seen. */
  function Count<K(==)>(c: Counts<K>, k: K): nat {
    if c == [] then 0 else if c[0].0 == k then c[0].1 else Count(c[1..], k)
  }

  /** sum(c.values()) */
  function Total<K>(c: Counts<K>): nat {
    if c == [] then 0 else c[0].1 + Total(c[1..])
  }

  /** c[k] += 1: the entry of k grows in place, a new key is appended with count 1. */
  function Inc<K(==)>(c: Counts<K>, k: K): Counts<K> {
    if c == [] then [(k, 1)]
    else if c[0].0 == k then [(k, c[0].1 + 1)] + c[1..]
    else [c[0]] + Inc(c[1..], k)
  }

  /** The Counter of xs, counted in order. */
  function Tally<K(==)>(xs: seq<K>): Counts<K> {
    if xs == [] then [] else Inc(Tally(xs[..|xs| - 1]), xs[|xs| - 1])
  }

  /** Counting one more item increments its key. */
  lemma TallySnoc<K>(xs: seq<K>, x: K)
    ensures Tally(xs + [x]) == Inc(Tally(xs), x)
  {
    assert (xs + [x])[..|xs|] == xs;
  }

  lemma {:induction false} IncCount<K>(c: Counts<K>, k: K, x: K)
    ensures Count(Inc(c, k), x) == Count(c, x) + (if x == k then 1 else 0)
  {
    if c != [] && c[0].0 != k {
      IncCount(c[1..], k, x);
    }
  }

  lemma {:induction false} IncTotal<K>(c: Counts<K>, k: K)
    ensures Total(Inc(c, k)) == Total(c) + 1
  {
    if c != [] && c[0].0 != k {
      IncTotal(c[1..], k);
    }
  }

  /** Incrementing adds k to the keys and nothing else, keeps keys distinct and counts positive. */
  lemma {:induction false} IncKeys<K>(c: Counts<K>, k: K)
    requires DistinctKeys(c) && forall i | 0 <= i < |c| :: c[i].1 > 0
    ensures DistinctKeys(Inc(c, k)) && forall i | 0 <= i < |Inc(c, k)| :: Inc(c, k)[i].1 > 0
    ensures forall x :: x in KeysOf(Inc(c, k)) <==> x in KeysOf(c) || x == k
  {
    if c != [] && c[0].0 != k {
      IncKeys(c[1..], k);
      assert KeysOf(c) == [c[0].0] + KeysOf(c[1..]);
      var r := Inc(c, k);
      assert r == [c[0]] + Inc(c[1..], k);
      assert KeysOf(r) == [c[0].0] + KeysOf(Inc(c[1..], k));
      forall i, j | 0 <= i < j < |r| ensures r[i].0 != r[j].0 {
        if i == 0 {
          assert r[j].0 in KeysOf(Inc(c[1..], k));
          assert r[j].0 in KeysOf(c[1..]) || r[j].0 == k;
        }
      }
    } else if c != [] {
      var r := Inc(c, k);
      forall i, j | 0 <= i < j < |r| ensures r[i].0 != r[j].0 {
        assert r[i].0 == c[i].0 && r[j].0 == c[j].0;
      }
      assert KeysOf(r) == [k] + KeysOf(c[1..]);
      assert KeysOf(c) == [k] + KeysOf(c[1..]);
    }
  }

  /** Each key's count is the number of its occurrences. */
  lemma {:induction false} TallyCount<K>(xs: seq<K>, k: K)
    ensures Count(Tally(xs), k) == multiset(xs)[k]
  {
    if xs != [] {
      var init := xs[..|xs| - 1];
      TallyCount(init, k);
      IncCount(Tally(init), xs[|xs| - 1], k);
      assert xs == init + [xs[|xs| - 1]];
    }
  }

  /** The counts add up to the number of items. */
  lemma {:induction false} TallyTotal<K>(xs: seq<K>)
    ensures Total(Tally(xs)) == |xs|
  {
    if xs != [] {
      TallyTotal(xs[..|xs| - 1]);
      IncTotal(Tally(xs[..|xs| - 1]), xs[|xs| - 1]);
    }
  }

  /** Appending an entry adds its count to the total. */
  lemma {:induction false} TotalSnoc<K>(c: Counts<K>, x: (K, nat))
    ensures Total(c + [x]) == Total(c) + x.1
  {
    if c != [] {
      assert (c + [x])[1..] == c[1..] + [x];
      TotalSnoc(c[1..], x);
    }
  }

  /** The keys are the distinct items, each once, each counted at least once. */
  lemma {:induction false} TallyKeys<K>(xs: seq<K>)
    ensures DistinctKeys(Tally(xs))
    ensures forall i | 0 <= i < |Tally(xs)| :: Tally(xs)[i].1 > 0
    ensures forall x :: x in KeysOf(Tally(xs)) <==> x in xs
  {
    if xs != [] {
      var init := xs[..|xs| - 1];
      TallyKeys(init);
      IncKeys(Tally(init), xs[|xs| - 1]);
      assert xs == init + [xs[|xs| - 1]];
    }
  }

  /** A key's count is the count stored in its entry. */
  lemma {:induction false} CountOfEntry<K>(c: Counts<K>, i: nat)
    requires DistinctKeys(c) && i < |c|
    ensures Count(c, c[i].0) == c[i].1
  {
    if i > 0 {
      assert c[0].0 != c[i].0;
      CountOfEntry(c[1..], i - 1);
    }
  }

  // ----- most_common -----

  /** Each entry counts at least as much as the next. */
  predicate Descending<K>(s: Counts<K>) {
    forall i | 0 <= i < |s| - 1 :: s[i].1 >= s[i + 1].1
  }

  lemma {:induction false} DescendingAll<K>(s: Counts<K>, i: nat, j: nat)
    requires Descending(s) && i <= j < |s|
    ensures s[i].1 >= s[j].1
    decreases j - i
  {
    if i < j {
      DescendingAll(s, i + 1, j);
    }
  }

  /** Insert x after every entry whose count is at least its own: a stable descending insertion. */
  function InsertDesc<K>(s: Counts<K>, x: (K, nat)): (r: Counts<K>)
    ensures |r| == |s| + 1
    ensures r[0] == (if s != [] && s[0].1 >= x.1 then s[0] else x)
  {
    if s == [] then [x]
    else if s[0].1 >= x.1 then [s[0]] + InsertDesc(s[1..], x)
    else [x] + s
  }

  /** sorted(c.items(), key=count, reverse=True), which keeps first-seen order among equal counts. */
  function SortDesc<K>(c: Counts<K>): (r: Counts<K>)
    ensures |r| == |c|
  {
    if c == [] then [] else InsertDesc(SortDesc(c[..|c| - 1]), c[|c| - 1])
  }

  lemma {:induction false} InsertDescSorted<K>(s: Counts<K>, x: (K, nat))
    requires Descending(s)
    ensures Descending(InsertDesc(s, x))
  {
    if s != [] && s[0].1 >= x.1 {
      InsertDescSorted(s[1..], x);
      var r := InsertDesc(s[1..], x);
      assert InsertDesc(s, x) == [s[0]] + r;
      if |s| > 1 {
        assert s[1] == s[1..][0];
      }
    }
  }

  lemma {:induction false} InsertDescPermutes<K>(s: Counts<K>, x: (K, nat))
    ensures multiset(InsertDesc(s, x)) == multiset(s) + multiset{x}
  {
    if s != [] {
      assert s == [s[0]] + s[1..];
      if s[0].1 >= x.1 {
        InsertDescPermutes(s[1..], x);
      }
    }
  }

  lemma {:induction false} SortDescKeeps<K>(c: Counts<K>)
    ensures Descending(SortDesc(c))
    ensures multiset(SortDesc(c)) == multiset(c)
    ensures |SortDesc(c)| == |c|
  {
    if c != [] {
      SortDescKeeps(c[..|c| - 1]);
      InsertDescSorted(SortDesc(c[..|c| - 1]), c[|c| - 1]);
      InsertDescPermutes(SortDesc(c[..|c| - 1]), c[|c| - 1]);
      assert c == c[..|c| - 1] + [c[|c| - 1]];
    }
  }

  /** The first n entries, none for n <= 0 (heapq.nlargest's rule). */
  function Take<T>(s: seq<T>, n: int): (r: seq<T>)
    ensures |r| == if n <= 0 then 0 else if n < |s| then n else |s|
    ensures r == s[..|r|]
  {
    if n <= 0 then [] else if n < |s| then s[..n] else s
  }

  /** c.most_common(n) */
  function MostCommon<K>(c: Counts<K>, n: int): Counts<K> {
    Take(SortDesc(c), n)
  }

  /** most_common(n) lists min(n, len(c)) of the Counter's entries, each at most once, by descending count. */
  lemma MostCommonSpec<K>(c: Counts<K>, n: int)
    ensures var r := MostCommon(c, n);
      && |r| == (if n <= 0 then 0 else if n < |c| then n else |c|)
      && Descending(r)
      && multiset(r) <= multiset(c)
  {
    var s := SortDesc(c);
    SortDescKeeps(c);
    var r := MostCommon(c, n);
    assert s == r + s[|r|..];
    assert multiset(s) == multiset(r) + multiset(s[|r|..]);
  }

  /** No entry left out of most_common(n) counts more than the last one listed. */
  lemma MostCommonCutoff<K>(c: Counts<K>, n: int, e: (K, nat))
    requires e in c && e !in MostCommon(c, n) && MostCommon(c, n) != []
    ensures e.1 <= MostCommon(c, n)[|MostCommon(c, n)| - 1].1
  {
    var s := SortDesc(c);
    SortDescKeeps(c);
    var r := MostCommon(c, n);
    assert e in multiset(s);
    var j :| 0 <= j < |s| && s[j] == e;
    assert j >= |r|;
    assert s[|r| - 1] == r[|r| - 1];
    DescendingAll(s, |r| - 1, j);
  }

  /** The first entry of most_common has the largest count of all. */
  lemma MostCommonFirst<K>(c: Counts<K>)
    requires c != []
    ensures MostCommon(c, 1) != [] && forall e | e in c :: e.1 <= MostCommon(c, 1)[0].1
  {
    SortDescKeeps(c);
    var s := SortDesc(c);
    forall e | e in c ensures e.1 <= s[0].1 {
      assert e in multiset(s);
      var j :| 0 <= j < |s| && s[j] == e;
      DescendingAll(s, 0, j);
    }
  }

  /** With distinct keys each entry occurs once. */
  lemma EntryOnce<K>(c: Counts<K>, a: nat)
    requires DistinctKeys(c) && a < |c|
    ensures multiset(c)[c[a]] == 1
  {
    var l := c[..a];
    var r := c[a + 1..];
    assert c == l + [c[a]] + r;
    assert c[a] !in l;
    assert c[a] !in r;
  }

  /** Reordering a Counter's entries keeps its keys distinct. */
  lemma PermutedDistinct<K>(c: Counts<K>, s: Counts<K>, i: nat, j: nat)
    requires DistinctKeys(c) && multiset(s) == multiset(c) && i < j < |s|
    ensures s[i].0 != s[j].0
  {
    assert s[i] in multiset(c) && s[j] in multiset(c);
    var a :| 0 <= a < |c| && c[a] == s[i];
    var b :| 0 <= b < |c| && c[b] == s[j];
    if s[i].0 == s[j].0 {
      assert a == b;
      assert s == s[..j] + s[j..];
      assert s[i] in multiset(s[..j]);
      assert s[j] in multiset(s[j..]);
      assert multiset(s)[s[i]] >= 2;
      EntryOnce(c, a);
    }
  }

  /** most_common(n) of a Counter lists each key at most once, with its count. */
  lemma MostCommonEntries<K>(c: Counts<K>, n: int)
    requires DistinctKeys(c)
    ensures DistinctKeys(MostCommon(c, n))
    ensures forall e | e in MostCommon(c, n) :: e.0 in KeysOf(c) && Count(c, e.0) == e.1
  {
    var s := SortDesc(c);
    var top := MostCommon(c, n);
    SortDescKeeps(c);
    forall i, j | 0 <= i < j < |top| ensures top[i].0 != top[j].0 {
      PermutedDistinct(c, s, i, j);
    }
    forall e | e in top ensures e.0 in KeysOf(c) && Count(c, e.0) == e.1 {
      assert e in multiset(c);
      var a :| 0 <= a < |c| && c[a] == e;
      CountOfEntry(c, a);
      assert KeysOf(c)[a] == e.0;
    }
  }
}

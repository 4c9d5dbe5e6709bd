/**
 * Python's ordering of str values (code point by code point, a proper
 * prefix first) and sorted() over strings and over Counter entries by key.
 */
module StrOrder {
  import opened Counters

  predicate StrLe(a: string, b: string) {
    a == [] || (b != [] && (a[0] < b[0] || (a[0] == b[0] && StrLe(a[1..], b[1..]))))
  }

  predicate StrLt(a: string, b: string) {
    StrLe(a, b) && a != b
  }

  lemma {:induction false} StrLeTotal(a: string, b: string)
    ensures StrLe(a, b) || StrLe(b, a)
  {
    if a != [] && b != [] && a[0] == b[0] {
      StrLeTotal(a[1..], b[1..]);
    }
  }

  lemma {:induction false} StrLeTrans(a: string, b: string, c: string)
    requires StrLe(a, b) && StrLe(b, c)
    ensures StrLe(a, c)
  {
    if a != [] && a[0] == b[0] && b[0] == c[0] {
      StrLeTrans(a[1..], b[1..], c[1..]);
    }
  }

  lemma {:induction false} StrLeAntisym(a: string, b: string)
    requires StrLe(a, b) && StrLe(b, a)
    ensures a == b
  {
    if a != [] {
      StrLeAntisym(a[1..], b[1..]);
      assert a == [a[0]] + a[1..] && b == [b[0]] + b[1..];
    }
  }

  lemma {:induction false} StrLeRefl(a: string)
    ensures StrLe(a, a)
  {
    if a != [] {
      StrLeRefl(a[1..]);
    }
  }

  // ----- sorted(list of str) -----

  predicate Sorted(s: seq<string>) {
    forall i | 0 <= i < |s| - 1 :: StrLe(s[i], s[i + 1])
  }

  lemma {:induction false} SortedAll(s: seq<string>, i: nat, j: nat)
    requires Sorted(s) && i <= j < |s|
    ensures StrLe(s[i], s[j])
    decreases j - i
  {
    if i < j {
      SortedAll(s, i + 1, j);
      StrLeTrans(s[i], s[i + 1], s[j]);
    } else {
      StrLeRefl(s[i]);
    }
  }

  /** Insert x after every element not greater than it. */
  function Insert(s: seq<string>, x: string): (r: seq<string>)
    ensures |r| == |s| + 1
    ensures r[0] == (if s != [] && StrLe(s[0], x) then s[0] else x)
  {
    if s == [] then [x]
    else if StrLe(s[0], x) then [s[0]] + Insert(s[1..], x)
    else [x] + s
  }

  /** sorted(s) */
  function Sort(s: seq<string>): seq<string> {
    if s == [] then [] else Insert(Sort(s[..|s| - 1]), s[|s| - 1])
  }

  lemma {:induction false} InsertSorted(s: seq<string>, x: string)
    requires Sorted(s)
    ensures Sorted(Insert(s, x))
  {
    if s != [] {
      if StrLe(s[0], x) {
        InsertSorted(s[1..], x);
        assert Insert(s, x) == [s[0]] + Insert(s[1..], x);
        if |s| > 1 {
          assert s[1] == s[1..][0];
        }
      } else {
        StrLeTotal(s[0], x);
      }
    }
  }

  lemma {:induction false} InsertPermutes(s: seq<string>, x: string)
    ensures multiset(Insert(s, x)) == multiset(s) + multiset{x}
  {
    if s != [] {
      assert s == [s[0]] + s[1..];
      if StrLe(s[0], x) {
        InsertPermutes(s[1..], x);
      }
    }
  }

  /** sorted() returns the same strings in ascending order. */
  lemma SortSpec(s: seq<string>)
    ensures Sorted(Sort(s)) && multiset(Sort(s)) == multiset(s)
  {
    SortSorted(s);
    SortPermutes(s);
  }

  lemma {:induction false} SortSorted(s: seq<string>)
    ensures Sorted(Sort(s))
  {
    if s != [] {
      SortSorted(s[..|s| - 1]);
      InsertSorted(Sort(s[..|s| - 1]), s[|s| - 1]);
    }
  }

  lemma {:induction false} SortPermutes(s: seq<string>)
    ensures multiset(Sort(s)) == multiset(s)
  {
    if s != [] {
      var init, last := s[..|s| - 1], s[|s| - 1];
      SortPermutes(init);
      InsertPermutes(Sort(init), last);
      assert s == init + [last];
    }
  }

  lemma SortedHeadLe(a: seq<string>, x: string)
    requires Sorted(a) && x in a
    ensures StrLe(a[0], x)
  {
    var i :| 0 <= i < |a| && a[i] == x;
    SortedAll(a, 0, i);
  }

  lemma TailMultiset(a: seq<string>)
    requires a != []
    ensures multiset(a[1..]) == multiset(a) - multiset{a[0]}
  {
    assert a == [a[0]] + a[1..];
  }

  /** Two ascending lists of the same strings are equal. */
  lemma {:induction false} SortedUnique(a: seq<string>, b: seq<string>)
    requires Sorted(a) && Sorted(b) && multiset(a) == multiset(b)
    ensures a == b
  {
    assert |a| == |multiset(a)| == |multiset(b)| == |b|;
    if a != [] {
      SortedHeads(a, b);
      TailMultiset(a);
      TailMultiset(b);
      SortedTail(a);
      SortedTail(b);
      SortedUnique(a[1..], b[1..]);
      assert a == [a[0]] + a[1..] && b == [b[0]] + b[1..];
    }
  }

  /** Two ascending lists of the same strings start alike. */
  lemma SortedHeads(a: seq<string>, b: seq<string>)
    requires Sorted(a) && Sorted(b) && multiset(a) == multiset(b) && a != [] && b != []
    ensures a[0] == b[0]
  {
    assert a[0] in multiset(b) && b[0] in multiset(a);
    SortedHeadLe(b, a[0]);
    SortedHeadLe(a, b[0]);
    StrLeAntisym(a[0], b[0]);
  }

  lemma SortedTail(a: seq<string>)
    requires Sorted(a) && a != []
    ensures Sorted(a[1..])
  {
    forall i | 0 <= i < |a[1..]| - 1
      ensures StrLe(a[1..][i], a[1..][i + 1])
    {
      assert a[1..][i] == a[i + 1] && a[1..][i + 1] == a[i + 2];
    }
  }

  /** sorted() forgets the order it was given: equal bags of strings sort alike. */
  lemma SortIgnoresOrder(a: seq<string>, b: seq<string>)
    requires multiset(a) == multiset(b)
    ensures Sort(a) == Sort(b)
  {
    SortSpec(a);
    SortSpec(b);
    SortedUnique(Sort(a), Sort(b));
  }

  // ----- sorted(counter) by key -----

  /** Keys strictly ascending, so each key once. */
  predicate KeysAscending(c: Counts<string>) {
    forall i | 0 <= i < |c| - 1 :: StrLt(c[i].0, c[i + 1].0)
  }

  /** Insert x after every entry whose key is not greater. */
  function InsertByKey(s: Counts<string>, x: (string, nat)): (r: Counts<string>)
    ensures |r| == |s| + 1
    ensures r[0] == (if s != [] && StrLe(s[0].0, x.0) then s[0] else x)
  {
    if s == [] then [x]
    else if StrLe(s[0].0, x.0) then [s[0]] + InsertByKey(s[1..], x)
    else [x] + s
  }

  /** The entries in key order: [(k, c[k]) for k in sorted(c)]. */
  function SortByKey(c: Counts<string>): Counts<string> {
    if c == [] then [] else InsertByKey(SortByKey(c[..|c| - 1]), c[|c| - 1])
  }

  lemma {:induction false} InsertByKeyKeeps(s: Counts<string>, x: (string, nat))
    ensures multiset(InsertByKey(s, x)) == multiset(s) + multiset{x}
    ensures Total(InsertByKey(s, x)) == Total(s) + x.1
  {
    if s != [] {
      assert s == [s[0]] + s[1..];
      if StrLe(s[0].0, x.0) {
        var r := InsertByKey(s, x);
        assert r == [s[0]] + InsertByKey(s[1..], x);
        assert r[1..] == InsertByKey(s[1..], x);
        InsertByKeyKeeps(s[1..], x);
      } else {
        assert InsertByKey(s, x) == [x] + s;
        assert ([x] + s)[1..] == s;
      }
    }
  }

  lemma {:induction false} InsertByKeyKeys(s: Counts<string>, x: (string, nat))
    ensures forall k :: k in KeysOf(InsertByKey(s, x)) <==> k in KeysOf(s) || k == x.0
  {
    if s != [] {
      assert KeysOf(s) == [s[0].0] + KeysOf(s[1..]);
      if StrLe(s[0].0, x.0) {
        InsertByKeyKeys(s[1..], x);
        assert KeysOf(InsertByKey(s, x)) == [s[0].0] + KeysOf(InsertByKey(s[1..], x));
      } else {
        assert KeysOf(InsertByKey(s, x)) == [x.0] + KeysOf(s);
      }
    }
  }

  lemma {:induction false} InsertByKeyAscending(s: Counts<string>, x: (string, nat))
    requires KeysAscending(s) && x.0 !in KeysOf(s)
    ensures KeysAscending(InsertByKey(s, x))
  {
    if s != [] {
      if StrLe(s[0].0, x.0) {
        assert KeysOf(s) == [s[0].0] + KeysOf(s[1..]);
        InsertByKeyAscending(s[1..], x);
        assert InsertByKey(s, x) == [s[0]] + InsertByKey(s[1..], x);
        if |s| > 1 {
          assert s[1] == s[1..][0];
        }
      } else {
        StrLeTotal(s[0].0, x.0);
      }
    }
  }

  /** Sorting by key keeps the entries. */
  lemma {:induction false} SortByKeyPermutes(c: Counts<string>)
    ensures multiset(SortByKey(c)) == multiset(c)
  {
    if c != [] {
      SortByKeyPermutes(c[..|c| - 1]);
      InsertByKeyKeeps(SortByKey(c[..|c| - 1]), c[|c| - 1]);
      assert c == c[..|c| - 1] + [c[|c| - 1]];
    }
  }

  /** Sorting by key keeps the total of the counts. */
  lemma {:induction false} SortByKeyTotal(c: Counts<string>)
    ensures Total(SortByKey(c)) == Total(c)
  {
    if c != [] {
      SortByKeyTotal(c[..|c| - 1]);
      InsertByKeyKeeps(SortByKey(c[..|c| - 1]), c[|c| - 1]);
      assert c == c[..|c| - 1] + [c[|c| - 1]];
      TotalSnoc(c[..|c| - 1], c[|c| - 1]);
    }
  }

  /** Sorting by key keeps the keys. */
  lemma {:induction false} SortByKeyKeys(c: Counts<string>)
    ensures forall k :: k in KeysOf(SortByKey(c)) <==> k in KeysOf(c)
  {
    if c != [] {
      SortByKeyKeys(c[..|c| - 1]);
      InsertByKeyKeys(SortByKey(c[..|c| - 1]), c[|c| - 1]);
      assert KeysOf(c) == KeysOf(c[..|c| - 1]) + [c[|c| - 1].0];
    }
  }

  /** Sorting a Counter's entries by key lists its keys in strictly ascending order. */
  lemma {:induction false} SortByKeyAscending(c: Counts<string>)
    requires DistinctKeys(c)
    ensures KeysAscending(SortByKey(c))
  {
    if c != [] {
      var init := c[..|c| - 1];
      var x := c[|c| - 1];
      assert DistinctKeys(init);
      SortByKeyAscending(init);
      SortByKeyKeys(init);
      assert x.0 !in KeysOf(init);
      InsertByKeyAscending(SortByKey(init), x);
    }
  }
}

/** pandas' `Series.value_counts()`: each distinct value with the number of times it
    occurs, most frequent first. Values of equal frequency keep the order of their
    first occurrence. */
module Counts {
  import opened Seqs

  datatype Entry<T> = Entry(key: T, count: nat)

  function Keys<T>(es: seq<Entry<T>>): (keys: seq<T>)
    ensures |keys| == |es|
    ensures forall i :: 0 <= i < |es| ==> keys[i] == es[i].key
  {
    seq(|es|, i requires 0 <= i < |es| => es[i].key)
  }

  /** The sum of the counts. */
  function Total<T>(es: seq<Entry<T>>): nat {
    if |es| == 0 then 0 else Total(es[..|es| - 1]) + es[|es| - 1].count
  }

  /** Counts never increase along `es`. */
  predicate Descending<T>(es: seq<Entry<T>>) {
    forall i, j :: 0 <= i < j < |es| ==> es[i].count >= es[j].count
  }

  /** The entry of each of `keys`, in order, counted in `s`. */
  function CountsOf<T(==)>(s: seq<T>, keys: seq<T>): (es: seq<Entry<T>>)
    ensures |es| == |keys|
    ensures forall i :: 0 <= i < |keys| ==> es[i] == Entry(keys[i], Count(s, keys[i]))
  {
    if |keys| == 0 then []
    else CountsOf(s, keys[..|keys| - 1]) + [Entry(keys[|keys| - 1], Count(s, keys[|keys| - 1]))]
  }

  /** Counting one more occurrence of `x` adds, over `keys`, the number of times `x`
      is one of them. */
  lemma {:induction false} CountsOfSnoc<T>(s: seq<T>, x: T, keys: seq<T>)
    ensures Total(CountsOf(s + [x], keys)) == Total(CountsOf(s, keys)) + Count(keys, x)
    decreases |keys|
  {
    if |keys| > 0 {
      var init := keys[..|keys| - 1];
      var k := keys[|keys| - 1];
      CountsOfSnoc(s, x, init);
      assert (s + [x])[..|s|] == s;
      assert Count(s + [x], k) == Count(s, k) + (if x == k then 1 else 0);
      assert CountsOf(s + [x], keys)[..|keys| - 1] == CountsOf(s + [x], init);
      assert CountsOf(s, keys)[..|keys| - 1] == CountsOf(s, init);
    }
  }

  lemma {:induction false} CountsOfEmpty<T>(keys: seq<T>)
    ensures Total(CountsOf([], keys)) == 0
    decreases |keys|
  {
    if |keys| > 0 {
      CountsOfEmpty(keys[..|keys| - 1]);
      assert CountsOf([], keys)[..|keys| - 1] == CountsOf([], keys[..|keys| - 1]);
    }
  }

  /** When `keys` lists each value of `s` exactly once, their counts add up to `|s|`. */
  lemma {:induction false} TotalOfCounts<T>(s: seq<T>, keys: seq<T>)
    requires Distinct(keys)
    requires forall i :: 0 <= i < |s| ==> s[i] in keys
    ensures Total(CountsOf(s, keys)) == |s|
    decreases |s|
  {
    if |s| == 0 {
      CountsOfEmpty(keys);
    } else {
      var init := s[..|s| - 1];
      var x := s[|s| - 1];
      assert s == init + [x];
      TotalOfCounts(init, keys);
      CountsOfSnoc(init, x, keys);
      CountOfDistinct(keys, x);
    }
  }

  /** One entry per distinct value, in order of first occurrence. */
  function Tally<T(==)>(s: seq<T>): (es: seq<Entry<T>>) {
    CountsOf(s, KeepFirst(s))
  }

  lemma {:induction false} TotalConcat<T>(a: seq<Entry<T>>, b: seq<Entry<T>>)
    ensures Total(a + b) == Total(a) + Total(b)
    decreases |b|
  {
    if |b| == 0 {
      assert a + b == a;
    } else {
      TotalConcat(a, b[..|b| - 1]);
      assert (a + b)[..|a + b| - 1] == a + b[..|b| - 1];
    }
  }

  /** The number of leading entries counted at least as often as `e`. */
  function Position<T>(e: Entry<T>, es: seq<Entry<T>>): (k: nat)
    ensures k <= |es|
    ensures forall i :: 0 <= i < k ==> es[i].count >= e.count
    ensures k < |es| ==> es[k].count < e.count
  {
    if |es| == 0 || es[0].count < e.count then 0 else 1 + Position(e, es[1..])
  }

  /** Place `e` after the leading entries counted at least as often, and before
      the rest. */
  function Insert<T(==)>(e: Entry<T>, es: seq<Entry<T>>): (r: seq<Entry<T>>) {
    var k := Position(e, es);
    es[..k] + [e] + es[k..]
  }

  /** Insertion adds `e` and loses nothing, so the counts grow by its count. */
  lemma InsertPermutes<T>(e: Entry<T>, es: seq<Entry<T>>)
    ensures |Insert(e, es)| == |es| + 1
    ensures multiset(Insert(e, es)) == multiset(es) + multiset{e}
    ensures Total(Insert(e, es)) == Total(es) + e.count
  {
    var k := Position(e, es);
    assert es == es[..k] + es[k..];
    TotalConcat(es[..k] + [e], es[k..]);
    TotalConcat(es[..k], [e]);
    TotalConcat(es[..k], es[k..]);
  }

  /** Insertion into entries in non-increasing order keeps that order. */
  lemma InsertDescending<T>(e: Entry<T>, es: seq<Entry<T>>)
    requires Descending(es)
    ensures Descending(Insert(e, es))
  {
    var k := Position(e, es);
    var r := Insert(e, es);
    assert |r| == |es| + 1;
    assert forall i :: 0 <= i < k ==> r[i] == es[i];
    assert r[k] == e;
    assert forall i :: k < i < |r| ==> r[i] == es[i - 1];
    forall i, j | 0 <= i < j < |r| ensures r[i].count >= r[j].count {
      if j < k {
        assert r[i] == es[i] && r[j] == es[j];
      } else if j == k {
        assert r[i] == es[i];
      } else if i < k {
        assert r[i] == es[i] && r[j] == es[j - 1];
      } else if i == k {
        assert r[j] == es[j - 1];
      } else {
        assert r[i] == es[i - 1] && r[j] == es[j - 1];
      }
    }
  }

  /** Stable sort by count, most frequent first. */
  function SortByCount<T(==)>(es: seq<Entry<T>>): (r: seq<Entry<T>>)
    ensures |r| == |es|
    ensures multiset(r) == multiset(es)
    ensures Total(r) == Total(es)
    ensures Descending(r)
  {
    if |es| == 0 then []
    else
      var init := es[..|es| - 1];
      assert es == init + [es[|es| - 1]];
      InsertDescending(es[|es| - 1], SortByCount(init));
      InsertPermutes(es[|es| - 1], SortByCount(init));
      Insert(es[|es| - 1], SortByCount(init))
  }

  /** `values.value_counts()`. */
  function ValueCounts<T(==)>(values: seq<T>): (r: seq<Entry<T>>)
    ensures multiset(r) == multiset(Tally(values))
    ensures Descending(r)
  {
    SortByCount(Tally(values))
  }

  /** Entries with distinct keys have distinct keys in any order. */
  lemma KeysDistinctPermutation<T>(a: seq<Entry<T>>, b: seq<Entry<T>>)
    requires multiset(a) == multiset(b)
    requires Distinct(Keys(b))
    ensures Distinct(Keys(a))
  {
    forall i, j | 0 <= i < j < |a| ensures a[i].key != a[j].key {
      assert a[i] in multiset(b) && a[j] in multiset(b);
      var m :| 0 <= m < |b| && b[m] == a[i];
      var n :| 0 <= n < |b| && b[n] == a[j];
      if a[i].key == a[j].key {
        assert m == n;
        assert a[i] == a[j];
        MultisetTwice(a, i, j);
        MultisetOnce(b, m);
      }
    }
  }

  /** A value at two positions occurs at least twice. */
  lemma MultisetTwice<T>(s: seq<T>, i: int, j: int)
    requires 0 <= i < j < |s| && s[i] == s[j]
    ensures multiset(s)[s[i]] >= 2
  {
    assert s == s[..i] + [s[i]] + s[i + 1..j] + [s[j]] + s[j + 1..];
  }

  /** In a sequence of distinct values each occurs once. */
  lemma MultisetOnce<T>(s: seq<Entry<T>>, m: int)
    requires Distinct(Keys(s)) && 0 <= m < |s|
    ensures multiset(s)[s[m]] == 1
  {
    assert s == s[..m] + [s[m]] + s[m + 1..];
    assert s[m] !in s[..m] by {
      forall i | 0 <= i < m ensures s[..m][i] != s[m] {
        assert Keys(s)[i] != Keys(s)[m];
      }
    }
    assert s[m] !in s[m + 1..] by {
      forall k | m < k < |s| ensures s[k] != s[m] {
        assert Keys(s)[m] != Keys(s)[k];
      }
    }
    assert multiset(s[..m])[s[m]] == 0;
    assert multiset(s[m + 1..])[s[m]] == 0;
  }

  /** Each entry of value_counts is a value of `values` with its number of occurrences. */
  lemma ValueCountsEntries<T>(values: seq<T>)
    ensures forall i :: 0 <= i < |ValueCounts(values)| ==>
              ValueCounts(values)[i].key in values &&
              ValueCounts(values)[i].count == Count(values, ValueCounts(values)[i].key) > 0
  {
    var tally := Tally(values);
    var r := ValueCounts(values);
    forall i | 0 <= i < |r|
      ensures r[i].key in values && r[i].count == Count(values, r[i].key) > 0
    {
      assert r[i] in multiset(tally);
      var m :| 0 <= m < |tally| && tally[m] == r[i];
    }
  }

  /** Every value of `values` has an entry in value_counts. */
  lemma ValueCountsCovers<T>(values: seq<T>)
    ensures forall i :: 0 <= i < |values| ==> values[i] in Keys(ValueCounts(values))
  {
    var tally := Tally(values);
    var r := ValueCounts(values);
    var keys := KeepFirst(values);
    forall i | 0 <= i < |values| ensures values[i] in Keys(r) {
      var m :| 0 <= m < |keys| && keys[m] == values[i];
      assert tally[m] in multiset(r);
      var n :| 0 <= n < |r| && r[n] == tally[m];
      assert Keys(r)[n] == values[i];
    }
  }

  /** What value_counts promises: every value of `values` is listed once, with the
      number of its occurrences; nothing else is listed; the counts add up to the
      number of values; and the most frequent come first. */
  lemma ValueCountsSpec<T>(values: seq<T>)
    ensures Descending(ValueCounts(values))
    ensures Distinct(Keys(ValueCounts(values)))
    ensures forall i :: 0 <= i < |ValueCounts(values)| ==>
              ValueCounts(values)[i].key in values &&
              ValueCounts(values)[i].count == Count(values, ValueCounts(values)[i].key) > 0
    ensures forall i :: 0 <= i < |values| ==> values[i] in Keys(ValueCounts(values))
    ensures Total(ValueCounts(values)) == |values|
  {
    var tally := Tally(values);
    assert Keys(tally) == KeepFirst(values);
    TotalOfCounts(values, KeepFirst(values));
    KeysDistinctPermutation(ValueCounts(values), tally);
    ValueCountsEntries(values);
    ValueCountsCovers(values);
  }
}

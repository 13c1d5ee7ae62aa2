/** Sequence vocabulary shared by the cleaning pipeline and the dashboard:
    first-occurrence search, order-preserving de-duplication (pandas'
    `drop_duplicates` and `unique`), order-preserving filtering (boolean
    masks) and occurrence counting. */
module Seqs {

  /** No value occurs twice in `s`. */
  predicate Distinct<T(==)>(s: seq<T>) {
    forall i, j :: 0 <= i < j < |s| ==> s[i] != s[j]
  }

  /** Position of the first occurrence of `x` in `s`, or -1 when `x` does not occur. */
  function IndexOf<T(==)>(s: seq<T>, x: T): (k: int)
    ensures -1 <= k < |s|
    ensures k == -1 <==> x !in s
    ensures 0 <= k ==> s[k] == x && x !in s[..k]
  {
    if |s| == 0 then -1
    else if s[0] == x then 0
    else
      var k := IndexOf(s[1..], x);
      assert k >= 0 ==> s[..k + 1] == [s[0]] + s[1..][..k];
      if k < 0 then -1 else k + 1
  }

  /** A position holding `x` with no earlier `x` is the one IndexOf reports. */
  lemma IndexOfUnique<T>(s: seq<T>, x: T, k: int)
    requires 0 <= k < |s| && s[k] == x && x !in s[..k]
    ensures IndexOf(s, x) == k
  {
    var m := IndexOf(s, x);
  }

  /** Appending a value does not move the first occurrence of a value already present,
      and a new value is first found at the end. */
  lemma IndexOfAppend<T>(s: seq<T>, y: T, x: T)
    ensures x in s ==> IndexOf(s + [y], x) == IndexOf(s, x)
    ensures x !in s && x == y ==> IndexOf(s + [y], x) == |s|
  {
    var t := s + [y];
    if x in s {
      var k := IndexOf(s, x);
      assert t[..k] == s[..k];
      IndexOfUnique(t, x, k);
    } else if x == y {
      assert t[..|s|] == s;
      IndexOfUnique(t, x, |s|);
    }
  }

  /** `a` can be obtained from `b` by deleting elements: the order of what is kept is
      the order in `b`. */
  predicate IsSubsequence<T(==)>(a: seq<T>, b: seq<T>)
    decreases |b|
  {
    |a| == 0 ||
    (|b| > 0 &&
     ((a[|a| - 1] == b[|b| - 1] && IsSubsequence(a[..|a| - 1], b[..|b| - 1])) ||
      IsSubsequence(a, b[..|b| - 1])))
  }

  lemma {:induction false} SubsequenceTransitive<T>(a: seq<T>, b: seq<T>, c: seq<T>)
    requires IsSubsequence(a, b) && IsSubsequence(b, c)
    ensures IsSubsequence(a, c)
    decreases |c|
  {
    if |a| == 0 {
    } else if IsSubsequence(b, c[..|c| - 1]) {
      SubsequenceTransitive(a, b, c[..|c| - 1]);
    } else if a[|a| - 1] == b[|b| - 1] && IsSubsequence(a[..|a| - 1], b[..|b| - 1]) {
      SubsequenceTransitive(a[..|a| - 1], b[..|b| - 1], c[..|c| - 1]);
    } else {
      SubsequenceTransitive(a, b[..|b| - 1], c[..|c| - 1]);
    }
  }

  lemma {:induction false} SubsequenceLength<T>(a: seq<T>, b: seq<T>)
    requires IsSubsequence(a, b)
    ensures |a| <= |b|
    decreases |b|
  {
    if |a| > 0 {
      if a[|a| - 1] == b[|b| - 1] && IsSubsequence(a[..|a| - 1], b[..|b| - 1]) {
        SubsequenceLength(a[..|a| - 1], b[..|b| - 1]);
      } else {
        SubsequenceLength(a, b[..|b| - 1]);
      }
    }
  }

  /** The elements of `s` for which `p` holds, in their order in `s`. */
  function Filter<T>(s: seq<T>, p: T -> bool): (r: seq<T>)
    ensures forall i :: 0 <= i < |r| ==> r[i] in s && p(r[i])
    ensures forall i :: 0 <= i < |s| && p(s[i]) ==> s[i] in r
    ensures IsSubsequence(r, s)
    ensures (forall i :: 0 <= i < |s| ==> p(s[i])) ==> r == s
  {
    if |s| == 0 then []
    else
      var init := s[..|s| - 1];
      var kept := Filter(init, p);
      assert s == init + [s[|s| - 1]];
      assert (kept + [s[|s| - 1]])[..|kept|] == kept;
      if p(s[|s| - 1]) then kept + [s[|s| - 1]] else kept
  }

  /** `s` with every value after its first occurrence removed (pandas' `drop_duplicates`
      with keep='first', and `unique`). */
  function KeepFirst<T(==)>(s: seq<T>): (r: seq<T>)
    ensures Distinct(r)
    ensures forall i :: 0 <= i < |r| ==> r[i] in s
    ensures forall i :: 0 <= i < |s| ==> s[i] in r
    ensures IsSubsequence(r, s)
  {
    if |s| == 0 then []
    else
      var init := s[..|s| - 1];
      var kept := KeepFirst(init);
      assert s == init + [s[|s| - 1]];
      assert (kept + [s[|s| - 1]])[..|kept|] == kept;
      if s[|s| - 1] in kept then kept else kept + [s[|s| - 1]]
  }

  /** KeepFirst lists values in the order of their first occurrence in the input. */
  lemma {:induction false} KeepFirstOrder<T>(s: seq<T>)
    ensures forall i, j :: 0 <= i < j < |KeepFirst(s)| ==>
              IndexOf(s, KeepFirst(s)[i]) < IndexOf(s, KeepFirst(s)[j])
  {
    if |s| > 0 {
      var init := s[..|s| - 1];
      var last := s[|s| - 1];
      assert s == init + [last];
      KeepFirstOrder(init);
      var kept := KeepFirst(init);
      forall x | x in kept ensures IndexOf(s, x) == IndexOf(init, x) {
        IndexOfAppend(init, last, x);
      }
      if last !in kept {
        IndexOfAppend(init, last, last);
      }
    }
  }

  /** Filtering keeps the relative order of first occurrences. */
  lemma {:induction false} FilterFirstOrder<T>(s: seq<T>, p: T -> bool, x: T, y: T)
    requires x in Filter(s, p) && y in Filter(s, p)
    requires IndexOf(Filter(s, p), x) < IndexOf(Filter(s, p), y)
    ensures IndexOf(s, x) < IndexOf(s, y)
    decreases |s|
  {
    var init := s[..|s| - 1];
    var z := s[|s| - 1];
    var f := Filter(init, p);
    assert s == init + [z];
    if x in f && y in f {
      if p(z) {
        IndexOfAppend(f, z, x);
        IndexOfAppend(f, z, y);
      }
      FilterFirstOrder(init, p, x, y);
      IndexOfAppend(init, z, x);
      IndexOfAppend(init, z, y);
    } else if x in f {
      IndexOfAppend(init, z, x);
      IndexOfAppend(init, z, y);
    } else {
      IndexOfAppend(f, z, x);
      IndexOfAppend(f, z, y);
    }
  }

  /** Number of occurrences of `x` in `s`. */
  function Count<T(==)>(s: seq<T>, x: T): (n: nat)
    ensures n > 0 <==> x in s
    ensures n <= |s|
  {
    if |s| == 0 then 0
    else
      var init := s[..|s| - 1];
      assert s == init + [s[|s| - 1]];
      Count(init, x) + (if s[|s| - 1] == x then 1 else 0)
  }

  /** Filtering keeps every occurrence of a value it accepts and none of one it rejects. */
  lemma {:induction false} FilterCount<T>(s: seq<T>, p: T -> bool, x: T)
    ensures Count(Filter(s, p), x) == if p(x) then Count(s, x) else 0
    decreases |s|
  {
    if |s| > 0 {
      var init := s[..|s| - 1];
      var z := s[|s| - 1];
      var f := Filter(init, p);
      assert s == init + [z];
      FilterCount(init, p, x);
      assert (f + [z])[..|f|] == f;
    }
  }

  /** `FilterCount` for every value at once. */
  lemma FilterCounts<T>(s: seq<T>, p: T -> bool)
    ensures forall x :: Count(Filter(s, p), x) == if p(x) then Count(s, x) else 0
  {
    forall x ensures Count(Filter(s, p), x) == if p(x) then Count(s, x) else 0 {
      FilterCount(s, p, x);
    }
  }

  /** Filtering out one value shortens a sequence by its number of occurrences. */
  lemma {:induction false} FilterOutLength<T>(s: seq<T>, p: T -> bool, x: T)
    requires forall v :: p(v) <==> v != x
    ensures |Filter(s, p)| == |s| - Count(s, x)
    decreases |s|
  {
    if |s| > 0 {
      var init := s[..|s| - 1];
      assert s == init + [s[|s| - 1]];
      FilterOutLength(init, p, x);
    }
  }

  /** A subsequence as long as the whole is the whole. */
  lemma {:induction false} SubsequenceSameLength<T>(a: seq<T>, b: seq<T>)
    requires IsSubsequence(a, b) && |a| == |b|
    ensures a == b
    decreases |b|
  {
    if |a| > 0 {
      if a[|a| - 1] == b[|b| - 1] && IsSubsequence(a[..|a| - 1], b[..|b| - 1]) {
        SubsequenceSameLength(a[..|a| - 1], b[..|b| - 1]);
        assert a == a[..|a| - 1] + [a[|a| - 1]];
        assert b == b[..|b| - 1] + [b[|b| - 1]];
      } else {
        SubsequenceLength(a, b[..|b| - 1]);
      }
    }
  }

  /** De-duplication shortens exactly the sequences that hold a repeated value. */
  lemma KeepFirstShorter<T>(s: seq<T>)
    ensures Distinct(s) <==> |KeepFirst(s)| == |s|
    ensures !Distinct(s) <==> |KeepFirst(s)| < |s|
  {
    SubsequenceLength(KeepFirst(s), s);
    if |KeepFirst(s)| == |s| {
      SubsequenceSameLength(KeepFirst(s), s);
    }
    if Distinct(s) && |KeepFirst(s)| < |s| {
      KeepFirstDistinct(s);
    }
  }

  /** De-duplication leaves a sequence without repeats unchanged. */
  lemma {:induction false} KeepFirstDistinct<T>(s: seq<T>)
    requires Distinct(s)
    ensures KeepFirst(s) == s
    decreases |s|
  {
    if |s| > 0 {
      var init := s[..|s| - 1];
      assert s == init + [s[|s| - 1]];
      KeepFirstDistinct(init);
      assert s[|s| - 1] !in init;
    }
  }

  /** A value at two positions is counted at least twice. */
  lemma {:induction false} CountTwice<T>(s: seq<T>, a: int, b: int)
    requires 0 <= a < b < |s| && s[a] == s[b]
    ensures Count(s, s[a]) >= 2
    decreases |s|
  {
    var init := s[..|s| - 1];
    assert s == init + [s[|s| - 1]];
    if b < |s| - 1 {
      CountTwice(init, a, b);
      assert init[a] == s[a];
    } else {
      assert init[a] == s[a];
    }
  }

  /** A sequence without repeats holds each value at most once. */
  lemma {:induction false} CountOfDistinct<T>(s: seq<T>, x: T)
    requires Distinct(s)
    ensures Count(s, x) == if x in s then 1 else 0
    decreases |s|
  {
    if |s| > 0 {
      var init := s[..|s| - 1];
      assert s == init + [s[|s| - 1]];
      CountOfDistinct(init, x);
    }
  }
}

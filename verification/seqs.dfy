/** Generic facts about sequences: filtering, subsequences and removing duplicates. */
module Seqs {

  // ---------------------------------------------------------------------
  // Filtering

  /** The elements of `s` that satisfy `p`, in their order. */
  function Filter<T>(s: seq<T>, p: T -> bool): (r: seq<T>)
    ensures |r| <= |s|
    ensures forall k :: 0 <= k < |r| ==> p(r[k]) && r[k] in s
  {
    if s == [] then [] else (if p(s[0]) then [s[0]] else []) + Filter(s[1..], p)
  }

  /** `r` is `s` with some elements dropped and the rest kept in order. */
  predicate IsSubsequence<T(==)>(r: seq<T>, s: seq<T>)
    decreases |s|
  {
    if r == [] then true
    else if s == [] then false
    else if r[0] == s[0] then IsSubsequence(r[1..], s[1..])
    else IsSubsequence(r, s[1..])
  }

  lemma {:induction false} FilterIsSubsequence<T>(s: seq<T>, p: T -> bool)
    ensures IsSubsequence(Filter(s, p), s)
  {
    if s != [] {
      var rest := Filter(s[1..], p);
      FilterIsSubsequence(s[1..], p);
      if p(s[0]) {
        assert Filter(s, p) == [s[0]] + rest;
        assert ([s[0]] + rest)[1..] == rest;
      } else {
        assert Filter(s, p) == rest;
        SubsequenceOfTail(rest, s);
      }
    }
  }

  /** Dropping the head of `s` keeps every subsequence of its tail a subsequence of `s`. */
  lemma {:induction false} SubsequenceOfTail<T>(r: seq<T>, s: seq<T>)
    requires |s| >= 1 && IsSubsequence(r, s[1..])
    ensures IsSubsequence(r, s)
    decreases |s|, |r|
  {
    if r != [] && r[0] == s[0] {
      // r[0] also opens the tail's match, so r[1..] fits into what follows it
      SubsequenceDropHead(r, s[1..]);
    }
  }

  lemma {:induction false} SubsequenceDropHead<T>(r: seq<T>, s: seq<T>)
    requires |r| >= 1 && IsSubsequence(r, s)
    ensures IsSubsequence(r[1..], s)
    decreases |s|, |r|
  {
    if r[0] == s[0] {
      if r[1..] != [] {
        SubsequenceOfTail(r[1..], s);
      }
    } else {
      SubsequenceDropHead(r, s[1..]);
      if r[1..] != [] {
        SubsequenceOfTail(r[1..], s);
      }
    }
  }

  /** Each element keeps all of its copies when it satisfies `p`, and none otherwise. */
  lemma {:induction false} FilterCounts<T>(s: seq<T>, p: T -> bool, x: T)
    ensures multiset(Filter(s, p))[x] == if p(x) then multiset(s)[x] else 0
  {
    if s != [] {
      FilterCounts(s[1..], p, x);
      assert s == [s[0]] + s[1..];
    }
  }

  /** Filtering twice is filtering once by both conditions. */
  lemma {:induction false} FilterFilter<T>(s: seq<T>, p: T -> bool, q: T -> bool, pq: T -> bool)
    requires forall x :: pq(x) == (p(x) && q(x))
    ensures Filter(Filter(s, p), q) == Filter(s, pq)
  {
    if s != [] {
      FilterFilter(s[1..], p, q, pq);
      var head := if p(s[0]) then [s[0]] else [];
      assert Filter(s, p) == head + Filter(s[1..], p);
      FilterAppend(head, Filter(s[1..], p), q);
    }
  }

  lemma {:induction false} FilterAppend<T>(a: seq<T>, b: seq<T>, p: T -> bool)
    ensures Filter(a + b, p) == Filter(a, p) + Filter(b, p)
  {
    if a != [] {
      FilterAppend(a[1..], b, p);
      assert (a + b)[0] == a[0];
      assert (a + b)[1..] == a[1..] + b;
    } else {
      assert a + b == b;
    }
  }

  /** Filtering by a condition every element meets changes nothing. */
  lemma {:induction false} FilterAll<T>(s: seq<T>, p: T -> bool)
    requires forall i :: 0 <= i < |s| ==> p(s[i])
    ensures Filter(s, p) == s
  {
    if s != [] {
      FilterAll(s[1..], p);
      assert s == [s[0]] + s[1..];
    }
  }

  // ---------------------------------------------------------------------
  // Distinct values

  /** The distinct values of `s`, each at the position of its first occurrence. */
  function Distinct<T(==)>(s: seq<T>): (r: seq<T>)
    decreases |s|
  {
    if s == [] then []
    else
      var d := Distinct(s[..|s| - 1]);
      if s[|s| - 1] in d then d else d + [s[|s| - 1]]
  }

  /** No value occurs twice. */
  predicate NoDuplicates<T(==)>(s: seq<T>)
  {
    forall i, j :: 0 <= i < j < |s| ==> s[i] != s[j]
  }

  /** Where `x` first occurs in `s`. */
  function FirstPos<T(==)>(s: seq<T>, x: T): (k: nat)
    requires x in s
    ensures k < |s| && s[k] == x
    ensures forall m :: 0 <= m < k ==> s[m] != x
  {
    if s[0] == x then 0
    else
      assert x in s[1..] by { var i :| 0 <= i < |s| && s[i] == x; assert s[1..][i - 1] == x; }
      1 + FirstPos(s[1..], x)
  }

  lemma FirstPosPrefix<T>(s: seq<T>, n: nat, x: T)
    requires n <= |s| && x in s[..n]
    ensures x in s && FirstPos(s[..n], x) == FirstPos(s, x)
  {
    var k := FirstPos(s[..n], x);
    assert s[k] == x;
    var j := FirstPos(s, x);
    assert j <= k;
    assert s[..n][j] == x;
  }

  /** The distinct values are exactly the values that occur. */
  lemma {:induction false} DistinctMembers<T>(s: seq<T>)
    ensures forall x :: x in Distinct(s) <==> x in s
    decreases |s|
  {
    if s != [] {
      var init := s[..|s| - 1];
      DistinctMembers(init);
      assert s == init + [s[|s| - 1]];
    }
  }

  /** No distinct value is listed twice. */
  lemma {:induction false} DistinctNoDuplicates<T>(s: seq<T>)
    ensures NoDuplicates(Distinct(s))
    decreases |s|
  {
    if s != [] {
      DistinctNoDuplicates(s[..|s| - 1]);
    }
  }

  /** Every value of `r` occurs in `s`, and `r` lists them in the order they first occur in `s`. */
  predicate InFirstOccurrenceOrder<T(==)>(r: seq<T>, s: seq<T>)
  {
    (forall x | x in r :: x in s) &&
    forall i, j | 0 <= i < j < |r| :: FirstPos(s, r[i]) < FirstPos(s, r[j])
  }

  /** An order by first occurrence in a prefix of `s` is one in `s` too. */
  lemma OrderPrefix<T>(r: seq<T>, s: seq<T>, n: nat)
    requires n <= |s| && InFirstOccurrenceOrder(r, s[..n])
    ensures InFirstOccurrenceOrder(r, s)
  {
    forall x | x in r
      ensures x in s && FirstPos(s, x) == FirstPos(s[..n], x)
    {
      FirstPosPrefix(s, n, x);
    }
  }

  /** A value first occurring after all values of `r` may follow them. */
  lemma OrderSnoc<T>(r: seq<T>, s: seq<T>, x: T)
    requires InFirstOccurrenceOrder(r, s) && x in s
    requires forall y | y in r :: FirstPos(s, y) < FirstPos(s, x)
    ensures InFirstOccurrenceOrder(r + [x], s)
  {
    var r' := r + [x];
    forall i, j | 0 <= i < j < |r'|
      ensures FirstPos(s, r'[i]) < FirstPos(s, r'[j])
    {
      assert r'[i] == r[i] && r[i] in r;
      if j < |r| {
        assert r'[j] == r[j];
      }
    }
  }

  /** The distinct values come in the order of their first occurrence. */
  lemma {:induction false} DistinctOrder<T>(s: seq<T>)
    ensures InFirstOccurrenceOrder(Distinct(s), s)
    decreases |s|
  {
    if s != [] {
      var n := |s| - 1;
      var init := s[..n];
      var last := s[n];
      var d := Distinct(init);
      DistinctOrder(init);
      DistinctMembers(init);
      OrderPrefix(d, s, n);
      if last !in d {
        assert last !in init;
        assert FirstPos(s, last) == n;
        forall y | y in d
          ensures FirstPos(s, y) < n
        {
          FirstPosPrefix(s, n, y);
        }
        OrderSnoc(d, s, last);
      }
    }
  }

  /**
   * The distinct values are free of duplicates, are exactly the values that
   * occur, and come in the order of their first occurrence.
   */
  lemma DistinctProps<T>(s: seq<T>)
    ensures var r := Distinct(s);
      NoDuplicates(r) && (forall x :: x in r <==> x in s) && InFirstOccurrenceOrder(r, s)
  {
    DistinctMembers(s);
    DistinctNoDuplicates(s);
    DistinctOrder(s);
  }
}

/**
 * An insertion-ordered table of counts: the JavaScript `Map<word, number>` of
 * the voice processor and the Python `defaultdict(int)` of the chatbot, both
 * of which keep keys in first-insertion order and update a count in place.
 * Also the stable descending sort by count and the "first n" cut that both
 * callers apply to such a table.
 */
module Tally {

  datatype Entry<K> = Entry(key: K, count: nat)

  /** The keys in table order. */
  function KeysOf<K>(t: seq<Entry<K>>): (ks: seq<K>)
    ensures |ks| == |t|
    ensures forall i :: 0 <= i < |t| ==> ks[i] == t[i].key
  {
    seq(|t|, i requires 0 <= i < |t| => t[i].key)
  }

  predicate DistinctKeys<K(==)>(t: seq<Entry<K>>)
  {
    forall i, j :: 0 <= i < j < |t| ==> t[i].key != t[j].key
  }

  /** `map.get(k) || 0`: the count stored for `k`, or 0 when `k` is absent. */
  function Lookup<K(==)>(t: seq<Entry<K>>, k: K): nat
  {
    if t == [] then 0
    else if t[0].key == k then t[0].count
    else Lookup(t[1..], k)
  }

  /** `map.set(k, (map.get(k) || 0) + 1)`: an existing key keeps its place, a new one goes last. */
  function Bump<K(==)>(t: seq<Entry<K>>, k: K): seq<Entry<K>>
  {
    if t == [] then [Entry(k, 1)]
    else if t[0].key == k then [Entry(k, t[0].count + 1)] + t[1..]
    else [t[0]] + Bump(t[1..], k)
  }

  /** Number of times `k` occurs in `ks`. */
  function Occurrences<K(==)>(ks: seq<K>, k: K): nat
  {
    multiset(ks)[k]
  }

  /** Bumps every key of `ks`, in order. */
  function BumpAll<K(==)>(t: seq<Entry<K>>, ks: seq<K>): seq<Entry<K>>
  {
    if ks == [] then t else Bump(BumpAll(t, ks[..|ks| - 1]), ks[|ks| - 1])
  }

  lemma BumpAllSnoc<K>(t: seq<Entry<K>>, ks: seq<K>, k: K)
    ensures BumpAll(t, ks + [k]) == Bump(BumpAll(t, ks), k)
  {
    assert (ks + [k])[..|ks|] == ks;
  }

  /** Bumping `k` adds exactly one to `k`'s count and changes no other count. */
  lemma {:induction false} BumpLookup<K>(t: seq<Entry<K>>, k: K, j: K)
    ensures Lookup(Bump(t, k), j) == Lookup(t, j) + (if j == k then 1 else 0)
  {
    if t != [] && t[0].key != k {
      BumpLookup(t[1..], k, j);
      assert Bump(t, k)[1..] == Bump(t[1..], k);
    }
  }

  /** Bumping keeps every existing key in its place and appends a new key at the end. */
  lemma {:induction false} BumpKeys<K>(t: seq<Entry<K>>, k: K)
    ensures KeysOf(Bump(t, k)) == if k in KeysOf(t) then KeysOf(t) else KeysOf(t) + [k]
  {
    if t != [] && t[0].key != k {
      BumpKeys(t[1..], k);
      assert Bump(t, k) == [t[0]] + Bump(t[1..], k);
      assert KeysOf(t) == [t[0].key] + KeysOf(t[1..]);
      assert KeysOf(Bump(t, k)) == [t[0].key] + KeysOf(Bump(t[1..], k));
    } else if t != [] {
      assert KeysOf(Bump(t, k)) == [k] + KeysOf(t[1..]);
      assert KeysOf(t) == [k] + KeysOf(t[1..]);
    }
  }

  /** Bumping keeps the keys distinct. */
  lemma BumpDistinct<K>(t: seq<Entry<K>>, k: K)
    requires DistinctKeys(t)
    ensures DistinctKeys(Bump(t, k))
  {
    var b := Bump(t, k);
    BumpKeys(t, k);
    var kt, kb := KeysOf(t), KeysOf(b);
    forall i, j | 0 <= i < j < |b| ensures b[i].key != b[j].key {
      assert b[i].key == kb[i] && b[j].key == kb[j];
      assert i < |t|;
      assert kb[i] == kt[i] == t[i].key;
      if j < |t| {
        assert kb[j] == kt[j] == t[j].key;
      } else {
        assert kb[j] == k && k !in kt;
      }
    }
  }

  /** After bumping all of `ks`, each count has grown by the number of times its key occurs in `ks`. */
  lemma {:induction false} BumpAllLookup<K>(t: seq<Entry<K>>, ks: seq<K>, j: K)
    ensures Lookup(BumpAll(t, ks), j) == Lookup(t, j) + Occurrences(ks, j)
  {
    if ks != [] {
      var init := ks[..|ks| - 1];
      var last := ks[|ks| - 1];
      BumpAllLookup(t, init, j);
      BumpLookup(BumpAll(t, init), last, j);
      OccurrencesLast(ks, j);
    }
  }

  /** The last key adds one occurrence of itself. */
  lemma OccurrencesLast<K>(ks: seq<K>, j: K)
    requires ks != []
    ensures Occurrences(ks, j) == Occurrences(ks[..|ks| - 1], j) + (if j == ks[|ks| - 1] then 1 else 0)
  {
    assert ks == ks[..|ks| - 1] + [ks[|ks| - 1]];
  }

  /** Bumping all of `ks` keeps the keys distinct. */
  lemma {:induction false} BumpAllDistinct<K>(t: seq<Entry<K>>, ks: seq<K>)
    requires DistinctKeys(t)
    ensures DistinctKeys(BumpAll(t, ks))
  {
    if ks != [] {
      BumpAllDistinct(t, ks[..|ks| - 1]);
      BumpDistinct(BumpAll(t, ks[..|ks| - 1]), ks[|ks| - 1]);
    }
  }

  /** The keys after bumping all of `ks` are the old keys followed by the new ones; none is lost. */
  lemma {:induction false} BumpAllKeys<K>(t: seq<Entry<K>>, ks: seq<K>)
    ensures KeysOf(t) <= KeysOf(BumpAll(t, ks))
    ensures forall k :: k in KeysOf(BumpAll(t, ks)) <==> k in KeysOf(t) || k in ks
  {
    if ks != [] {
      var init := ks[..|ks| - 1];
      BumpAllKeys(t, init);
      BumpKeys(BumpAll(t, init), ks[|ks| - 1]);
      assert ks == init + [ks[|ks| - 1]];
    }
  }

  /** Every count lies in a row of a table whose counts are all positive. */
  predicate Positive<K>(t: seq<Entry<K>>)
  {
    forall i :: 0 <= i < |t| ==> t[i].count >= 1
  }

  lemma {:induction false} BumpAllPositive<K>(t: seq<Entry<K>>, ks: seq<K>)
    requires Positive(t)
    ensures Positive(BumpAll(t, ks))
  {
    if ks != [] {
      BumpAllPositive(t, ks[..|ks| - 1]);
      BumpPositive(BumpAll(t, ks[..|ks| - 1]), ks[|ks| - 1]);
    }
  }

  lemma {:induction false} BumpPositive<K>(t: seq<Entry<K>>, k: K)
    requires Positive(t)
    ensures Positive(Bump(t, k))
  {
    if t != [] && t[0].key != k {
      BumpPositive(t[1..], k);
    }
  }

  /** In a table with distinct keys, the entry for key `t[i].key` is `t[i]`. */
  lemma {:induction false} LookupAt<K>(t: seq<Entry<K>>, i: nat)
    requires DistinctKeys(t) && i < |t|
    ensures Lookup(t, t[i].key) == t[i].count
  {
    if i > 0 {
      LookupAt(t[1..], i - 1);
    }
  }

  // ---------------------------------------------------------------------
  // Stable sort by descending count, and the first n entries of it.

  predicate NonIncreasing<K>(t: seq<Entry<K>>)
  {
    forall i, j :: 0 <= i < j < |t| ==> t[i].count >= t[j].count
  }

  /**
   * Places `e` after every entry with a larger count and before the rest,
   * so that among equal counts `e` comes first.
   */
  function Insert<K>(e: Entry<K>, l: seq<Entry<K>>): (r: seq<Entry<K>>)
    ensures |r| == |l| + 1
  {
    if l == [] || l[0].count <= e.count then [e] + l else [l[0]] + Insert(e, l[1..])
  }

  /** `entries.sort((a, b) => b.count - a.count)` with a stable sort. */
  function SortDesc<K>(t: seq<Entry<K>>): (r: seq<Entry<K>>)
    ensures |r| == |t|
  {
    if t == [] then [] else Insert(t[0], SortDesc(t[1..]))
  }

  /** The entries of `t` with count `c`, in their order in `t`. */
  function WithCount<K>(t: seq<Entry<K>>, c: nat): seq<Entry<K>>
  {
    if t == [] then []
    else (if t[0].count == c then [t[0]] else []) + WithCount(t[1..], c)
  }

  lemma {:induction false} InsertPerm<K>(e: Entry<K>, l: seq<Entry<K>>)
    ensures multiset(Insert(e, l)) == multiset([e]) + multiset(l)
  {
    if l != [] && l[0].count > e.count {
      InsertPerm(e, l[1..]);
      assert l == [l[0]] + l[1..];
    }
  }

  lemma {:induction false} InsertAtMost<K>(e: Entry<K>, l: seq<Entry<K>>, b: nat)
    requires e.count <= b
    requires forall i :: 0 <= i < |l| ==> l[i].count <= b
    ensures forall i :: 0 <= i < |Insert(e, l)| ==> Insert(e, l)[i].count <= b
  {
    if l != [] && l[0].count > e.count {
      InsertAtMost(e, l[1..], b);
    }
  }

  lemma {:induction false} InsertSorted<K>(e: Entry<K>, l: seq<Entry<K>>)
    requires NonIncreasing(l)
    ensures NonIncreasing(Insert(e, l))
  {
    if l != [] && l[0].count > e.count {
      InsertSorted(e, l[1..]);
      InsertAtMost(e, l[1..], l[0].count);
    }
  }

  lemma {:induction false} InsertWithCount<K>(e: Entry<K>, l: seq<Entry<K>>, c: nat)
    requires NonIncreasing(l)
    ensures WithCount(Insert(e, l), c) == (if e.count == c then [e] else []) + WithCount(l, c)
  {
    if l != [] && l[0].count > e.count {
      InsertWithCount(e, l[1..], c);
      assert Insert(e, l)[1..] == Insert(e, l[1..]);
    }
  }

  /**
   * The sort orders by non-increasing count, is a permutation, and is
   * stable: the entries of any one count keep their relative order.
   */
  lemma {:induction false} SortDescProps<K>(t: seq<Entry<K>>, c: nat)
    ensures NonIncreasing(SortDesc(t))
    ensures multiset(SortDesc(t)) == multiset(t)
    ensures WithCount(SortDesc(t), c) == WithCount(t, c)
  {
    if t != [] {
      SortDescProps(t[1..], c);
      InsertPerm(t[0], SortDesc(t[1..]));
      InsertSorted(t[0], SortDesc(t[1..]));
      InsertWithCount(t[0], SortDesc(t[1..]), c);
      assert t == [t[0]] + t[1..];
    }
  }

  /** The `n` entries with the largest counts, ties in table order. */
  function Top<K>(t: seq<Entry<K>>, n: nat): (r: seq<Entry<K>>)
    ensures |r| == if |t| < n then |t| else n
  {
    SortDesc(t)[..if |t| < n then |t| else n]
  }

  /**
   * `Top(t, n)` holds at most `n` entries of `t`, in non-increasing count
   * order; nothing left out has a larger count than anything kept; and ties
   * keep table order.
   */
  lemma TopProps<K>(t: seq<Entry<K>>, n: nat)
    ensures |Top(t, n)| <= n
    ensures NonIncreasing(Top(t, n))
    ensures multiset(Top(t, n)) <= multiset(t)
    ensures forall e, i | e in multiset(t) - multiset(Top(t, n)) && 0 <= i < |Top(t, n)| ::
      Top(t, n)[i].count >= e.count
    ensures forall c: nat :: WithCount(Top(t, n), c) <= WithCount(t, c)
  {
    TopSplit(t, n);
    forall e, i | e in multiset(t) - multiset(Top(t, n)) && 0 <= i < |Top(t, n)|
      ensures Top(t, n)[i].count >= e.count
    {
      TopDominates(t, n, e, i);
    }
    forall c: nat
      ensures WithCount(Top(t, n), c) <= WithCount(t, c)
    {
      TopStable(t, n, c);
    }
  }

  /**
   * Every entry among the first `n` of a table counted from `ks` carries the
   * true number of occurrences of its key in `ks`, which is at least one.
   */
  lemma TopOfTallyCounts<K>(ks: seq<K>, n: nat)
    ensures forall e | e in Top(BumpAll([], ks), n) :: e.count == Occurrences(ks, e.key) && e.count >= 1
  {
    var t := BumpAll([], ks);
    TopProps(t, n);
    BumpAllDistinct([], ks);
    BumpAllPositive([], ks);
    forall e | e in Top(t, n)
      ensures e.count == Occurrences(ks, e.key) && e.count >= 1
    {
      assert e in multiset(t);
      var i :| 0 <= i < |t| && t[i] == e;
      LookupAt(t, i);
      BumpAllLookup([], ks, e.key);
    }
  }

  /** The sorted table is the top part followed by the rest. */
  lemma TopSplit<K>(t: seq<Entry<K>>, n: nat)
    ensures NonIncreasing(SortDesc(t))
    ensures SortDesc(t) == Top(t, n) + SortDesc(t)[|Top(t, n)|..]
    ensures multiset(t) == multiset(Top(t, n)) + multiset(SortDesc(t)[|Top(t, n)|..])
  {
    var s := SortDesc(t);
    SortDescProps(t, 0);
    var m := |Top(t, n)|;
    assert Top(t, n) == s[..m];
    assert s == s[..m] + s[m..];
    assert multiset(s) == multiset(s[..m]) + multiset(s[m..]);
  }

  lemma TopDominates<K>(t: seq<Entry<K>>, n: nat, e: Entry<K>, i: nat)
    requires e in multiset(t) - multiset(Top(t, n)) && i < |Top(t, n)|
    ensures Top(t, n)[i].count >= e.count
  {
    TopSplit(t, n);
    var s := SortDesc(t);
    var m := |Top(t, n)|;
    var rest := s[m..];
    assert e in multiset(rest);
    var j :| 0 <= j < |rest| && rest[j] == e;
    assert s[m + j] == e && s[i] == Top(t, n)[i];
  }

  lemma TopStable<K>(t: seq<Entry<K>>, n: nat, c: nat)
    ensures WithCount(Top(t, n), c) <= WithCount(t, c)
  {
    TopSplit(t, n);
    SortDescProps(t, c);
    WithCountAppend(Top(t, n), SortDesc(t)[|Top(t, n)|..], c);
  }

  lemma {:induction false} WithCountAppend<K>(a: seq<Entry<K>>, b: seq<Entry<K>>, c: nat)
    ensures WithCount(a + b, c) == WithCount(a, c) + WithCount(b, c)
  {
    if a != [] {
      WithCountAppend(a[1..], b, c);
      assert (a + b)[1..] == a[1..] + b;
    } else {
      assert a + b == b;
    }
  }
}

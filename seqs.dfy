/** Sequence operations standing in for the SQL the handlers run: `WHERE` (Keep),
    `SUM` (SumOf) and `ORDER BY key DESC` (SortDesc). */
module Seqs {

  /** The rows of `s` satisfying `p`, in table order. */
  function Keep<T>(s: seq<T>, p: T -> bool): (r: seq<T>)
    ensures |r| <= |s|
  {
    if s == [] then []
    else if p(s[0]) then [s[0]] + Keep(s[1..], p)
    else Keep(s[1..], p)
  }

  /** The rows kept are rows of `s` that satisfy `p`, and every such row is kept. (A lemma
      rather than a postcondition of Keep, so that the solver meets these quantifiers only
      where a proof asks for them.) */
  lemma {:induction false} KeepMembers<T>(s: seq<T>, p: T -> bool)
    ensures forall i :: 0 <= i < |Keep(s, p)| ==> Keep(s, p)[i] in s && p(Keep(s, p)[i])
    ensures forall i :: 0 <= i < |s| && p(s[i]) ==> s[i] in Keep(s, p)
  {
    if s != [] {
      KeepMembers(s[1..], p);
      assert s == [s[0]] + s[1..];
    }
  }

  lemma {:induction false} KeepAppend<T>(a: seq<T>, b: seq<T>, p: T -> bool)
    ensures Keep(a + b, p) == Keep(a, p) + Keep(b, p)
  {
    if a == [] {
      assert a + b == b;
    } else {
      assert (a + b)[1..] == a[1..] + b;
      KeepAppend(a[1..], b, p);
    }
  }

  /** A WHERE that drops no row keeps the whole table. */
  lemma {:induction false} KeepNothingRemoved<T>(s: seq<T>, p: T -> bool)
    requires |Keep(s, p)| == |s|
    ensures Keep(s, p) == s
  {
    if s != [] {
      KeepNothingRemoved(s[1..], p);
    }
  }

  /** A WHERE that every row satisfies keeps the whole table. */
  lemma {:induction false} KeepEverything<T>(s: seq<T>, p: T -> bool)
    requires forall i :: 0 <= i < |s| ==> p(s[i])
    ensures Keep(s, p) == s
  {
    if s != [] {
      KeepEverything(s[1..], p);
    }
  }

  /** A WHERE that no row satisfies selects nothing. */
  lemma KeepNothing<T>(s: seq<T>, p: T -> bool)
    requires forall i :: 0 <= i < |s| ==> !p(s[i])
    ensures Keep(s, p) == []
  {
  }

  /** A WHERE that every row of a slice satisfies keeps the whole slice. */
  lemma {:induction false} KeepWholeSlice<T>(s: seq<T>, p: T -> bool, lo: int, hi: int)
    requires 0 <= lo <= hi <= |s|
    requires forall j :: lo <= j < hi ==> p(s[j])
    ensures Keep(s[lo..hi], p) == s[lo..hi]
  {
    var slice := s[lo..hi];
    assert forall j :: 0 <= j < |slice| ==> slice[j] == s[lo + j];
    KeepEverything(slice, p);
  }

  /** Filtering out exactly one element removes that element and keeps the rest in order. */
  lemma {:induction false} KeepAllBut<T>(s: seq<T>, p: T -> bool, i: int)
    requires 0 <= i < |s| && !p(s[i])
    requires forall j :: 0 <= j < |s| && j != i ==> p(s[j])
    ensures Keep(s, p) == s[..i] + s[i + 1..]
  {
    KeepWholeSlice(s, p, 0, i);
    KeepWholeSlice(s, p, i + 1, |s|);
    var before, after := s[0..i], s[i + 1..|s|];
    assert s == (before + [s[i]]) + after;
    KeepAppend(before + [s[i]], after, p);
    KeepAppend(before, [s[i]], p);
    assert Keep([s[i]], p) == [];
  }

  /** Where a kept row came from: the j-th row kept is a row of `s` satisfying `p`. */
  lemma {:induction false} KeptFrom<T>(s: seq<T>, p: T -> bool, j: int) returns (k: int)
    requires 0 <= j < |Keep(s, p)|
    ensures 0 <= k < |s| && s[k] == Keep(s, p)[j] && p(s[k])
  {
    var rest := s[1..];
    if p(s[0]) && j == 0 {
      k := 0;
    } else {
      var k' := KeptFrom(rest, p, if p(s[0]) then j - 1 else j);
      assert s[k' + 1] == rest[k'];
      k := k' + 1;
    }
  }

  /** Every pair of rows, taken in table order, is related by `ok`. */
  ghost predicate Pairwise<T>(s: seq<T>, ok: (T, T) -> bool)
  {
    forall i, j :: 0 <= i < j < |s| ==> ok(s[i], s[j])
  }

  /** Deleting rows keeps every pairwise property (uniqueness of a key, say). */
  lemma {:induction false} KeepPairwise<T>(s: seq<T>, p: T -> bool, ok: (T, T) -> bool)
    requires Pairwise(s, ok)
    ensures Pairwise(Keep(s, p), ok)
  {
    if s != [] {
      assert Pairwise(s[1..], ok) by {
        forall i, j | 0 <= i < j < |s[1..]| ensures ok(s[1..][i], s[1..][j]) {
          assert s[1..][i] == s[i + 1] && s[1..][j] == s[j + 1];
        }
      }
      KeepPairwise(s[1..], p, ok);
      if p(s[0]) {
        var r := Keep(s, p);
        var t := Keep(s[1..], p);
        assert r == [s[0]] + t;
        forall i, j | 0 <= i < j < |r| ensures ok(r[i], r[j]) {
          if i == 0 {
            var k := KeptFrom(s[1..], p, j - 1);
            assert s[k + 1] == r[j];
          } else {
            assert r[i] == t[i - 1] && r[j] == t[j - 1];
          }
        }
      }
    }
  }

  /** Σ f(x) over the rows of `s`; 0 for no rows. */
  function SumOf<T>(s: seq<T>, f: T -> int): int
  {
    if s == [] then 0 else f(s[0]) + SumOf(s[1..], f)
  }

  lemma {:induction false} SumOfAppend<T>(a: seq<T>, b: seq<T>, f: T -> int)
    ensures SumOf(a + b, f) == SumOf(a, f) + SumOf(b, f)
  {
    if a == [] {
      assert a + b == b;
    } else {
      assert (a + b)[1..] == a[1..] + b;
      SumOfAppend(a[1..], b, f);
    }
  }

  /** Keys never increase from left to right: the order of `ORDER BY key DESC`. */
  ghost predicate NonIncreasing<T>(s: seq<T>, key: T -> int)
  {
    forall i, j :: 0 <= i < j < |s| ==> key(s[i]) >= key(s[j])
  }

  function InsertDesc<T>(x: T, s: seq<T>, key: T -> int): (r: seq<T>)
    requires NonIncreasing(s, key)
    ensures NonIncreasing(r, key)
    ensures |r| == |s| + 1
    ensures r[0] == x || (s != [] && r[0] == s[0])
  {
    if s == [] || key(x) >= key(s[0]) then [x] + s
    else
      var rest := InsertDesc(x, s[1..], key);
      assert key(rest[0]) <= key(s[0]);
      assert forall k :: 0 <= k < |rest| ==> key(rest[k]) <= key(rest[0]);
      [s[0]] + rest
  }

  /** Inserting adds exactly the one element. */
  lemma {:induction false} InsertDescPermutes<T>(x: T, s: seq<T>, key: T -> int)
    requires NonIncreasing(s, key)
    ensures multiset(InsertDesc(x, s, key)) == multiset(s) + multiset{x}
  {
    if s != [] && key(x) < key(s[0]) {
      InsertDescPermutes(x, s[1..], key);
      assert s == [s[0]] + s[1..];
    }
  }

  /** `ORDER BY key DESC`: a permutation of `s` whose keys never increase. SQL leaves the
      order of rows with equal keys unspecified; this function fixes one such order. */
  function SortDesc<T>(s: seq<T>, key: T -> int): (r: seq<T>)
    ensures NonIncreasing(r, key)
    ensures multiset(r) == multiset(s)
    ensures |r| == |s|
  {
    if s == [] then []
    else
      assert s == [s[0]] + s[1..];
      var r := InsertDesc(s[0], SortDesc(s[1..], key), key);
      InsertDescPermutes(s[0], SortDesc(s[1..], key), key);
      assert |multiset(r)| == |s|;
      r
  }

  /** No two elements share a key (a primary key, say). */
  ghost predicate DistinctKeys<T>(s: seq<T>, key: T -> int)
  {
    forall i, j :: 0 <= i < j < |s| ==> key(s[i]) != key(s[j])
  }

  /** With distinct keys, no element occurs twice. */
  lemma {:induction false} DistinctKeysOnce<T>(s: seq<T>, key: T -> int, x: T)
    requires DistinctKeys(s, key)
    ensures multiset(s)[x] <= 1
  {
    if s != [] {
      assert s == [s[0]] + s[1..];
      assert DistinctKeys(s[1..], key) by {
        forall i, j | 0 <= i < j < |s[1..]| ensures key(s[1..][i]) != key(s[1..][j]) {
          assert s[1..][i] == s[i + 1] && s[1..][j] == s[j + 1];
        }
      }
      DistinctKeysOnce(s[1..], key, x);
      assert forall k :: 0 <= k < |s[1..]| ==> s[1..][k] != s[0] by {
        forall k | 0 <= k < |s[1..]| ensures s[1..][k] != s[0] {
          assert key(s[0]) != key(s[k + 1]);
        }
      }
      assert multiset(s[1..])[s[0]] == 0;
    }
  }

  /** An element at two positions occurs at least twice. */
  lemma CountOfPair<T>(t: seq<T>, i: int, j: int)
    requires 0 <= i < j < |t|
    ensures multiset(t)[t[i]] >= if t[i] == t[j] then 2 else 1
  {
    assert t == t[..j] + [t[j]] + t[j + 1..];
    assert t[i] == t[..j][i];
    assert multiset(t[..j])[t[i]] >= 1;
  }

  /** Reordering keeps keys distinct. */
  lemma PermutationKeepsDistinctKeys<T>(s: seq<T>, t: seq<T>, key: T -> int)
    requires multiset(s) == multiset(t) && DistinctKeys(s, key)
    ensures DistinctKeys(t, key)
  {
    forall i, j | 0 <= i < j < |t| ensures key(t[i]) != key(t[j]) {
      DistinctKeysOnce(s, key, t[i]);
      CountOfPair(t, i, j);
      assert t[i] in multiset(s) && t[j] in multiset(s);
      var a :| 0 <= a < |s| && s[a] == t[i];
      var b :| 0 <= b < |s| && s[b] == t[j];
      assert a != b;
      // DistinctKeys speaks of ordered pairs, so take a and b in either order
      assert key(s[a]) != key(s[b]) by {
        if a < b { } else { }
      }
    }
  }

  /** Sorting neither loses nor invents elements. */
  lemma SortDescSameElements<T>(s: seq<T>, key: T -> int)
    ensures forall i :: 0 <= i < |SortDesc(s, key)| ==> SortDesc(s, key)[i] in s
    ensures forall i :: 0 <= i < |s| ==> s[i] in SortDesc(s, key)
  {
    var r := SortDesc(s, key);
    forall i | 0 <= i < |r| ensures r[i] in s {
      assert r[i] in multiset(s);
    }
    forall i | 0 <= i < |s| ensures s[i] in r {
      assert s[i] in multiset(r);
    }
  }

  /** `LIMIT n`: the first n elements, or all of them when there are fewer. */
  function Take<T>(s: seq<T>, n: nat): (r: seq<T>)
    ensures |r| <= n && |r| <= |s|
    ensures |r| == n || r == s
    ensures forall i :: 0 <= i < |r| ==> r[i] == s[i]
  {
    if |s| <= n then s else s[..n]
  }

  /** An element of a sorted sequence that `LIMIT n` cuts off ranks no higher than any
      element kept, and is cut off only when n elements are kept. */
  lemma TopOfSorted<T>(s: seq<T>, key: T -> int, n: nat, j: int)
    requires NonIncreasing(s, key) && 0 <= j < |s|
    requires forall i :: 0 <= i < |Take(s, n)| ==> Take(s, n)[i] != s[j]
    ensures |Take(s, n)| == n
    ensures forall i :: 0 <= i < n ==> key(s[j]) <= key(Take(s, n)[i])
  {
    if |Take(s, n)| != n {
      TakeAll(s, n, j);
      assert false;
    }
  }

  /** A `LIMIT` that keeps fewer than n rows keeps all of them. */
  lemma TakeAll<T>(s: seq<T>, n: nat, j: int)
    requires 0 <= j < |s| && |Take(s, n)| != n
    ensures Take(s, n)[j] == s[j]
  {
  }
}

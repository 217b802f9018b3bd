/** The JavaScript array operations the core is built from (`filter`, `map`,
    `find`, `includes`), with the facts about them that the stores rely on. */
module Seqs {
  import opened Wrappers

  /** `r` is an order-preserving subsequence of `s`: `s` with some elements dropped. */
  ghost predicate IsSubsequence<T>(r: seq<T>, s: seq<T>)
    decreases |s|
  {
    r == [] || (|s| > 0 && ((r[0] == s[0] && IsSubsequence(r[1..], s[1..])) || IsSubsequence(r, s[1..])))
  }

  /** No element occurs twice. */
  ghost predicate NoDuplicates<T>(s: seq<T>) {
    forall i, j :: 0 <= i < j < |s| ==> s[i] != s[j]
  }

  /** `Array.prototype.filter`: the elements satisfying `p`, in their original order. */
  function Filter<T>(p: T -> bool, s: seq<T>): (r: seq<T>)
    ensures |r| <= |s|
    ensures forall k :: 0 <= k < |r| ==> r[k] in s && p(r[k])
    ensures forall k :: 0 <= k < |s| && p(s[k]) ==> s[k] in r
    ensures (forall k :: 0 <= k < |s| ==> p(s[k])) ==> r == s
    ensures IsSubsequence(r, s)
  {
    if |s| == 0 then []
    else if p(s[0]) then [s[0]] + Filter(p, s[1..])
    else Filter(p, s[1..])
  }

  /** `filter` keeps every copy of a passing element and no copy of a failing one:
      with `IsSubsequence`, this pins the result down to the JavaScript `filter`. */
  lemma {:induction false} FilterMultiset<T>(p: T -> bool, s: seq<T>)
    ensures forall x :: x in s ==> multiset(Filter(p, s))[x] == if p(x) then multiset(s)[x] else 0
  {
    if |s| > 0 {
      FilterMultiset(p, s[1..]);
      assert s == [s[0]] + s[1..];
      forall x | x in s ensures multiset(Filter(p, s))[x] == if p(x) then multiset(s)[x] else 0 {
        if x !in s[1..] {
          assert x !in Filter(p, s[1..]);
        }
      }
    }
  }

  /** Whatever holds of every element holds of every element `filter` keeps. */
  lemma FilterKeepsAll<T>(p: T -> bool, q: T -> bool, s: seq<T>)
    requires forall k :: 0 <= k < |s| ==> q(s[k])
    ensures forall k :: 0 <= k < |Filter(p, s)| ==> q(Filter(p, s)[k])
  {
    var r := Filter(p, s);
    forall k | 0 <= k < |r| ensures q(r[k]) {
      var m :| 0 <= m < |s| && s[m] == r[k];
    }
  }

  /** `Array.prototype.map`. */
  function Map<T, U>(f: T -> U, s: seq<T>): (r: seq<U>)
    ensures |r| == |s|
    ensures forall k :: 0 <= k < |s| ==> r[k] == f(s[k])
  {
    if |s| == 0 then [] else [f(s[0])] + Map(f, s[1..])
  }

  /** `k` is the position of the first element of `s` that satisfies `p`. */
  ghost predicate IsFirstWhere<T>(p: T -> bool, s: seq<T>, k: int) {
    0 <= k < |s| && p(s[k]) && forall j :: 0 <= j < k ==> !p(s[j])
  }

  /** `Array.prototype.find`: the first element satisfying `p`, or `undefined`. */
  function FirstWhere<T>(p: T -> bool, s: seq<T>): (r: Option<T>)
    ensures r.None? <==> forall k :: 0 <= k < |s| ==> !p(s[k])
    ensures r.Some? ==> exists k :: IsFirstWhere(p, s, k) && s[k] == r.value
  {
    if |s| == 0 then None
    else if p(s[0]) then Some(s[0])
    else
      var r := FirstWhere(p, s[1..]);
      assert r.Some? ==> exists k :: IsFirstWhere(p, s, k) && s[k] == r.value by {
        if r.Some? {
          var k :| IsFirstWhere(p, s[1..], k) && s[1..][k] == r.value;
          assert IsFirstWhere(p, s, k + 1);
        }
      }
      r
  }

  /** `Array.prototype.some`. */
  function AnyWhere<T>(p: T -> bool, s: seq<T>): (r: bool)
    ensures r <==> exists k :: 0 <= k < |s| && p(s[k])
  {
    if |s| == 0 then false
    else if p(s[0]) then true
    else
      var r := AnyWhere(p, s[1..]);
      assert r ==> exists k :: 0 <= k < |s| && p(s[k]) by {
        if r {
          var k :| 0 <= k < |s[1..]| && p(s[1..][k]);
          assert p(s[k + 1]);
        }
      }
      r
  }

  /** `Array.prototype.includes`, a linear scan. */
  function Includes<T(==)>(s: seq<T>, x: T): (r: bool)
    ensures r <==> x in s
  {
    if |s| == 0 then false
    else if s[0] == x then true
    else Includes(s[1..], x)
  }

  /** The test `y => y !== x`. */
  function DiffersFrom<T(==)>(x: T): T -> bool {
    (y: T) => y != x
  }

  /** `s.filter(y => y !== x)`: every occurrence of `x` removed. */
  function Without<T(==)>(s: seq<T>, x: T): (r: seq<T>)
    ensures x !in r
    ensures forall k :: 0 <= k < |r| ==> r[k] in s
    ensures forall k :: 0 <= k < |s| && s[k] != x ==> s[k] in r
    ensures x !in s ==> r == s
    ensures IsSubsequence(r, s)
    ensures forall y :: y in s ==> multiset(r)[y] == if y != x then multiset(s)[y] else 0
  {
    FilterMultiset(DiffersFrom(x), s);
    Filter(DiffersFrom(x), s)
  }

  /** Removing an element just appended to a list that lacked it gives the list back. */
  lemma WithoutAppended<T>(s: seq<T>, x: T)
    requires x !in s
    ensures Without(s + [x], x) == s
  {
    FilterAppend(DiffersFrom(x), s, [x]);
    assert Filter(DiffersFrom(x), [x]) == [];
  }

  lemma {:induction false} FilterAppend<T>(p: T -> bool, a: seq<T>, b: seq<T>)
    ensures Filter(p, a + b) == Filter(p, a) + Filter(p, b)
  {
    if |a| == 0 {
      assert a + b == b;
    } else {
      assert (a + b)[1..] == a[1..] + b;
      FilterAppend(p, a[1..], b);
    }
  }

  /** Filtering twice by the same predicate is filtering once. */
  lemma FilterIdempotent<T>(p: T -> bool, s: seq<T>)
    ensures Filter(p, Filter(p, s)) == Filter(p, s)
  {
  }

  /** A subsequence of a list without duplicates has none either. */
  lemma {:induction false} SubsequenceNoDuplicates<T>(r: seq<T>, s: seq<T>)
    requires IsSubsequence(r, s) && NoDuplicates(s)
    ensures NoDuplicates(r)
    decreases |s|
  {
    if r != [] {
      assert NoDuplicates(s[1..]) by {
        forall i, j | 0 <= i < j < |s| - 1 ensures s[1..][i] != s[1..][j] {
          assert s[i + 1] != s[j + 1];
        }
      }
      if r[0] == s[0] && IsSubsequence(r[1..], s[1..]) {
        SubsequenceNoDuplicates(r[1..], s[1..]);
        SubsequenceElements(r[1..], s[1..]);
        forall i, j | 0 <= i < j < |r| ensures r[i] != r[j] {
          if i == 0 {
            assert r[j] == r[1..][j - 1] && r[j] in s[1..];
            var m :| 0 <= m < |s| - 1 && s[1..][m] == r[j];
            assert s[0] != s[m + 1];
          } else {
            assert r[i] == r[1..][i - 1] && r[j] == r[1..][j - 1];
          }
        }
      } else {
        SubsequenceNoDuplicates(r, s[1..]);
      }
    }
  }

  /** Every element of a subsequence is an element of the sequence. */
  lemma {:induction false} SubsequenceElements<T>(r: seq<T>, s: seq<T>)
    requires IsSubsequence(r, s)
    ensures forall x :: x in r ==> x in s
    decreases |s|
  {
    if r != [] {
      if r[0] == s[0] && IsSubsequence(r[1..], s[1..]) {
        SubsequenceElements(r[1..], s[1..]);
        assert r == [r[0]] + r[1..];
        assert s == [s[0]] + s[1..];
      } else {
        SubsequenceElements(r, s[1..]);
        assert s == [s[0]] + s[1..];
      }
    }
  }

  /** Appending an element that is not yet present keeps a list duplicate-free. */
  lemma AppendFreshNoDuplicates<T>(s: seq<T>, x: T)
    requires NoDuplicates(s) && x !in s
    ensures NoDuplicates(s + [x])
  {
    forall i, j | 0 <= i < j < |s| + 1 ensures (s + [x])[i] != (s + [x])[j] {
      if j == |s| {
        assert (s + [x])[i] == s[i];
      }
    }
  }

  /** A prefix is a subsequence. */
  lemma {:induction false} PrefixIsSubsequence<T>(r: seq<T>, s: seq<T>)
    requires r <= s
    ensures IsSubsequence(r, s)
    decreases |s|
  {
    if r != [] {
      assert r[1..] <= s[1..];
      PrefixIsSubsequence(r[1..], s[1..]);
    }
  }

  /** Being a subsequence is transitive. */
  lemma {:induction false} SubsequenceTransitive<T>(a: seq<T>, b: seq<T>, c: seq<T>)
    requires IsSubsequence(a, b) && IsSubsequence(b, c)
    ensures IsSubsequence(a, c)
    decreases |c|
  {
    if a != [] {
      assert |c| > 0;
      if b[0] == c[0] && IsSubsequence(b[1..], c[1..]) {
        if a[0] == b[0] && IsSubsequence(a[1..], b[1..]) {
          SubsequenceTransitive(a[1..], b[1..], c[1..]);
        } else {
          SubsequenceTransitive(a, b[1..], c[1..]);
        }
      } else {
        SubsequenceTransitive(a, b, c[1..]);
      }
    }
  }

  /** A subsequence that misses an element of `s` is shorter than `s`. */
  lemma {:induction false} SubsequenceShorter<T>(r: seq<T>, s: seq<T>, k: int)
    requires IsSubsequence(r, s) && 0 <= k < |s| && s[k] !in r
    ensures |r| < |s|
    decreases |s|
  {
    if r == [] {
    } else if r[0] == s[0] && IsSubsequence(r[1..], s[1..]) {
      assert k != 0;
      assert s[1..][k - 1] == s[k];
      assert s[k] !in r[1..];
      SubsequenceShorter(r[1..], s[1..], k - 1);
    } else {
      SubsequenceLength(r, s[1..]);
    }
  }

  /** A subsequence is no longer than its sequence. */
  lemma {:induction false} SubsequenceLength<T>(r: seq<T>, s: seq<T>)
    requires IsSubsequence(r, s)
    ensures |r| <= |s|
    decreases |s|
  {
    if r != [] {
      if r[0] == s[0] && IsSubsequence(r[1..], s[1..]) {
        SubsequenceLength(r[1..], s[1..]);
      } else {
        SubsequenceLength(r, s[1..]);
      }
    }
  }
}

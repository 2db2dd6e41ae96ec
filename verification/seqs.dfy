/** Sequence helpers shared by the storage, query and dashboard layers:
    order-preserving filtering, element-wise mapping, occurrence counting and
    the subsequence relation every filter result stands in to its input. */
module Seqs {

  /** `a` is obtained from `b` by deleting zero or more elements; the
      survivors keep their relative order. */
  predicate IsSubsequence<T(==)>(a: seq<T>, b: seq<T>)
    decreases |b|
  {
    if |a| == 0 then true
    else if |b| == 0 then false
    else (a[0] == b[0] && IsSubsequence(a[1..], b[1..])) || IsSubsequence(a, b[1..])
  }

  lemma {:induction false} SubsequenceRefl<T>(s: seq<T>)
    ensures IsSubsequence(s, s)
  {
    if |s| > 0 {
      SubsequenceRefl(s[1..]);
    }
  }

  /** Deleting from a subsequence again still gives a subsequence. */
  lemma {:induction false} SubsequenceTrans<T>(a: seq<T>, b: seq<T>, c: seq<T>)
    requires IsSubsequence(a, b)
    requires IsSubsequence(b, c)
    ensures IsSubsequence(a, c)
    decreases |c|
  {
    if |a| > 0 {
      if b[0] == c[0] && IsSubsequence(b[1..], c[1..]) {
        if a[0] == b[0] && IsSubsequence(a[1..], b[1..]) {
          SubsequenceTrans(a[1..], b[1..], c[1..]);
        } else {
          SubsequenceTrans(a, b[1..], c[1..]);
        }
      } else {
        SubsequenceTrans(a, b, c[1..]);
      }
    }
  }

  /** Every element of a subsequence is an element of the original. */
  lemma {:induction false} SubsequenceMembers<T>(a: seq<T>, b: seq<T>)
    requires IsSubsequence(a, b)
    ensures forall x :: x in a ==> x in b
    decreases |b|
  {
    if |a| > 0 {
      if a[0] == b[0] && IsSubsequence(a[1..], b[1..]) {
        SubsequenceMembers(a[1..], b[1..]);
        assert forall x :: x in a ==> x == a[0] || x in a[1..];
      } else {
        SubsequenceMembers(a, b[1..]);
      }
    }
  }

  /** `rel` holds of every pair of elements, taken in sequence order. */
  ghost predicate Pairwise<T>(s: seq<T>, rel: (T, T) -> bool)
  {
    forall i, j :: 0 <= i < j < |s| ==> rel(s[i], s[j])
  }

  /** Deleting elements cannot break a relation that held between every
      ordered pair: distinct keys stay distinct, ascending keys stay ascending. */
  lemma {:induction false} SubsequencePairwise<T>(a: seq<T>, b: seq<T>, rel: (T, T) -> bool)
    requires IsSubsequence(a, b)
    requires Pairwise(b, rel)
    ensures Pairwise(a, rel)
    decreases |b|
  {
    if |a| > 0 {
      assert Pairwise(b[1..], rel) by {
        forall i, j | 0 <= i < j < |b| - 1 ensures rel(b[1..][i], b[1..][j]) {
          assert b[1..][i] == b[i + 1] && b[1..][j] == b[j + 1];
        }
      }
      if a[0] == b[0] && IsSubsequence(a[1..], b[1..]) {
        SubsequencePairwise(a[1..], b[1..], rel);
        SubsequenceMembers(a[1..], b[1..]);
        forall i, j | 0 <= i < j < |a| ensures rel(a[i], a[j]) {
          if i == 0 {
            assert a[j] == a[1..][j - 1];
            assert a[j] in b[1..];
            var k :| 0 <= k < |b[1..]| && b[1..][k] == a[j];
            assert b[k + 1] == a[j];
          } else {
            assert a[i] == a[1..][i - 1] && a[j] == a[1..][j - 1];
          }
        }
      } else {
        SubsequencePairwise(a, b[1..], rel);
      }
    }
  }

  /** Keeps, in order, exactly the elements satisfying `p`. */
  function Filter<T(==)>(s: seq<T>, p: T -> bool): (r: seq<T>)
    ensures |r| <= |s|
    ensures forall i :: 0 <= i < |r| ==> p(r[i])
    ensures forall i :: 0 <= i < |r| ==> r[i] in s
    ensures forall i :: 0 <= i < |s| && p(s[i]) ==> s[i] in r
    ensures IsSubsequence(r, s)
  {
    if |s| == 0 then []
    else if p(s[0]) then
      var rest := Filter(s[1..], p);
      assert ([s[0]] + rest)[1..] == rest;
      [s[0]] + rest
    else Filter(s[1..], p)
  }

  /** A filter that keeps everything returns its input unchanged. */
  lemma {:induction false} FilterAll<T>(s: seq<T>, p: T -> bool)
    requires forall x :: x in s ==> p(x)
    ensures Filter(s, p) == s
  {
    if |s| > 0 {
      assert forall x :: x in s[1..] ==> x in s;
      FilterAll(s[1..], p);
    }
  }

  /** Applies `f` to every element. */
  function Map<T, U>(s: seq<T>, f: T -> U): (r: seq<U>)
    ensures |r| == |s|
    ensures forall i :: 0 <= i < |s| ==> r[i] == f(s[i])
  {
    seq(|s|, i requires 0 <= i < |s| => f(s[i]))
  }

  /** Number of occurrences of `x` in `s`. */
  function Count<T(==)>(s: seq<T>, x: T): nat
  {
    if |s| == 0 then 0
    else Count(s[..|s| - 1], x) + (if s[|s| - 1] == x then 1 else 0)
  }

  /** Occurrences in a concatenation add up. */
  lemma {:induction false} CountConcat<T>(a: seq<T>, b: seq<T>, x: T)
    ensures Count(a + b, x) == Count(a, x) + Count(b, x)
    decreases |b|
  {
    if |b| > 0 {
      var n := |b| - 1;
      CountConcat(a, b[..n], x);
      assert (a + b)[..|a + b| - 1] == a + b[..n];
      assert (a + b)[|a + b| - 1] == b[n];
    } else {
      assert a + b == a;
    }
  }

  /** A filter keeps every occurrence of an element it accepts and none of
      one it rejects. */
  lemma {:induction false} FilterCount<T>(s: seq<T>, p: T -> bool, x: T)
    ensures Count(Filter(s, p), x) == if p(x) then Count(s, x) else 0
  {
    if |s| > 0 {
      var rest := Filter(s[1..], p);
      FilterCount(s[1..], p, x);
      var head := if s[0] == x then 1 else 0;
      assert Count([s[0]], x) == head by {
        assert [s[0]][..0] == [];
      }
      assert Count(s, x) == head + Count(s[1..], x) by {
        assert s == [s[0]] + s[1..];
        CountConcat([s[0]], s[1..], x);
      }
      if p(s[0]) {
        assert Filter(s, p) == [s[0]] + rest;
        CountConcat([s[0]], rest, x);
      } else {
        assert Filter(s, p) == rest;
      }
    }
  }

  /** `x` is counted zero times exactly when it does not occur. */
  lemma {:induction false} CountZero<T>(s: seq<T>, x: T)
    ensures Count(s, x) == 0 <==> forall i :: 0 <= i < |s| ==> s[i] != x
  {
    if |s| > 0 {
      var n := |s| - 1;
      CountZero(s[..n], x);
      assert forall i :: 0 <= i < n ==> s[..n][i] == s[i];
    }
  }

  /** Mapping preserves the subsequence relation: deleting elements and then
      mapping gives a subsequence of the mapped original. */
  lemma {:induction false} MapSubsequence<T, U>(a: seq<T>, b: seq<T>, f: T -> U)
    requires IsSubsequence(a, b)
    ensures IsSubsequence(Map(a, f), Map(b, f))
    decreases |b|
  {
    if |a| > 0 {
      assert Map(b, f)[1..] == Map(b[1..], f);
      if a[0] == b[0] && IsSubsequence(a[1..], b[1..]) {
        MapSubsequence(a[1..], b[1..], f);
        assert Map(a, f)[1..] == Map(a[1..], f);
      } else {
        MapSubsequence(a, b[1..], f);
      }
    }
  }
}

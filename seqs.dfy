/**
 * Generic sequence vocabulary shared by the store and the pages: the
 * order-preserving `filter` of JavaScript arrays, `filter(...).length`,
 * and `reduce((sum, x) => sum + m(x), 0)`.
 */
module Seqs {

  /** Array.prototype.filter: the elements satisfying `p`, in their original order. */
  function Filter<T>(s: seq<T>, p: T -> bool): (r: seq<T>)
    ensures |r| <= |s|
  {
    if s == [] then []
    else if p(s[0]) then [s[0]] + Filter(s[1..], p)
    else Filter(s[1..], p)
  }

  /** `a` is obtained from `b` by dropping elements, keeping the order of the rest. */
  predicate IsSubsequence<T(==)>(a: seq<T>, b: seq<T>)
    decreases |b|
  {
    if a == [] then true
    else if b == [] then false
    else (a[0] == b[0] && IsSubsequence(a[1..], b[1..])) || IsSubsequence(a, b[1..])
  }

  /** The number of elements satisfying `p`: `s.filter(p).length`. */
  function CountWhere<T>(s: seq<T>, p: T -> bool): nat
  {
    if s == [] then 0
    else (if p(s[0]) then 1 else 0) + CountWhere(s[1..], p)
  }

  /**
   * `findIndex(p)`: -1 when no element satisfies `p`, otherwise the first
   * position whose element does.
   */
  function FirstIndex<T>(s: seq<T>, p: T -> bool): (i: int)
    ensures -1 <= i < |s|
    ensures i == -1 <==> forall j | 0 <= j < |s| :: !p(s[j])
    ensures i >= 0 ==> p(s[i]) && forall j | 0 <= j < i :: !p(s[j])
  {
    if s == [] then -1
    else if p(s[0]) then 0
    else
      var k := FirstIndex(s[1..], p);
      if k == -1 then -1 else k + 1
  }

  /** `s.reduce((sum, x) => sum + m(x), 0)`. */
  function Sum<T>(s: seq<T>, m: T -> int): int
  {
    if s == [] then 0 else m(s[0]) + Sum(s[1..], m)
  }

  /**
   * `r` is exactly what filtering `s` by `p` keeps: an order-preserving
   * subsequence, every element of which satisfies `p`, as long as the number
   * of elements of `s` that satisfy `p`.
   */
  predicate IsFilterOf<T(==)>(r: seq<T>, s: seq<T>, p: T -> bool)
  {
    && IsSubsequence(r, s)
    && (forall i | 0 <= i < |r| :: p(r[i]))
    && |r| == CountWhere(s, p)
  }

  /** A subsequence whose every element satisfies `p` is no longer than the count of such elements. */
  lemma {:induction false} SubsequenceCount<T>(r: seq<T>, s: seq<T>, p: T -> bool)
    requires IsSubsequence(r, s)
    requires forall i | 0 <= i < |r| :: p(r[i])
    ensures |r| <= CountWhere(s, p)
    decreases |s|
  {
    if r != [] {
      if r[0] == s[0] && IsSubsequence(r[1..], s[1..]) {
        SubsequenceCount(r[1..], s[1..], p);
      } else {
        SubsequenceCount(r, s[1..], p);
      }
    }
  }

  /** `IsFilterOf` pins the result down: only the filter itself meets it, multiplicities included. */
  lemma {:induction false} FilterOfIsFilter<T>(r: seq<T>, s: seq<T>, p: T -> bool)
    requires IsFilterOf(r, s, p)
    ensures r == Filter(s, p)
    decreases |s|
  {
    if s != [] {
      if r != [] && r[0] == s[0] && IsSubsequence(r[1..], s[1..]) {
        assert p(s[0]);
        FilterOfIsFilter(r[1..], s[1..], p);
        assert r == [r[0]] + r[1..];
      } else if r != [] {
        assert IsSubsequence(r, s[1..]);
        SubsequenceCount(r, s[1..], p);
        if p(s[0]) {
          assert false;
        }
        FilterOfIsFilter(r, s[1..], p);
      } else {
        if p(s[0]) {
          assert false;
        }
        FilterOfIsFilter(r, s[1..], p);
      }
    }
  }

  /** What `filter` returns, stated without `filter`: see `IsFilterOf`, plus membership both ways. */
  lemma {:induction false} FilterSpec<T>(s: seq<T>, p: T -> bool)
    ensures IsFilterOf(Filter(s, p), s, p)
    ensures forall x :: x in Filter(s, p) <==> x in s && p(x)
  {
    if s != [] {
      FilterSpec(s[1..], p);
      var rest := Filter(s[1..], p);
      assert s == [s[0]] + s[1..];
      if p(s[0]) {
        var r := [s[0]] + rest;
        assert r[1..] == rest;
        assert IsSubsequence(r, s);
      } else {
        assert IsSubsequence(rest, s) by {
          if rest != [] {
            assert IsSubsequence(rest, s[1..]);
          }
        }
      }
    }
  }

  /** Filtering by a predicate every element satisfies returns the sequence itself. */
  lemma {:induction false} FilterKeepsAll<T>(s: seq<T>, p: T -> bool)
    requires forall i | 0 <= i < |s| :: p(s[i])
    ensures Filter(s, p) == s
  {
    if s != [] {
      FilterKeepsAll(s[1..], p);
      assert s == [s[0]] + s[1..];
    }
  }

  /** Filtering by a predicate no element satisfies returns the empty sequence. */
  lemma {:induction false} FilterKeepsNone<T>(s: seq<T>, p: T -> bool)
    requires forall i | 0 <= i < |s| :: !p(s[i])
    ensures Filter(s, p) == []
  {
    if s != [] {
      FilterKeepsNone(s[1..], p);
    }
  }

  /** Filtering twice by the same predicate is filtering once. */
  lemma {:induction false} FilterIdempotent<T>(s: seq<T>, p: T -> bool)
    ensures Filter(Filter(s, p), p) == Filter(s, p)
  {
    FilterSpec(s, p);
    var r := Filter(s, p);
    FilterKeepsAll(r, p);
  }

  /** Filter distributes over concatenation. */
  lemma {:induction false} FilterAppend<T>(s: seq<T>, t: seq<T>, p: T -> bool)
    ensures Filter(s + t, p) == Filter(s, p) + Filter(t, p)
  {
    if s != [] {
      assert (s + t)[1..] == s[1..] + t;
      FilterAppend(s[1..], t, p);
    } else {
      assert s + t == t;
    }
  }

  /** Two predicates that agree on every element of `s` filter it alike. */
  lemma {:induction false} FilterCongruent<T>(s: seq<T>, p: T -> bool, q: T -> bool)
    requires forall i | 0 <= i < |s| :: p(s[i]) == q(s[i])
    ensures Filter(s, p) == Filter(s, q)
    ensures CountWhere(s, p) == CountWhere(s, q)
  {
    if s != [] {
      FilterCongruent(s[1..], p, q);
    }
  }

  /**
   * Counting the elements that satisfy one of two predicates no element
   * satisfies together is adding the two counts; so the two counts together
   * never exceed the length.
   */
  lemma {:induction false} CountDisjoint<T>(s: seq<T>, p: T -> bool, q: T -> bool, either: T -> bool)
    requires forall i | 0 <= i < |s| :: !(p(s[i]) && q(s[i]))
    requires forall i | 0 <= i < |s| :: either(s[i]) == (p(s[i]) || q(s[i]))
    ensures CountWhere(s, p) + CountWhere(s, q) == CountWhere(s, either) <= |s|
  {
    if s != [] {
      CountDisjoint(s[1..], p, q, either);
    }
  }

  /** A count is 0 exactly when no element satisfies the predicate. */
  lemma {:induction false} CountZero<T>(s: seq<T>, p: T -> bool)
    ensures CountWhere(s, p) == 0 <==> forall i | 0 <= i < |s| :: !p(s[i])
  {
    if s != [] {
      CountZero(s[1..], p);
      if !p(s[0]) {
        forall i | 0 < i < |s| && !p(s[i])
          ensures !p(s[1..][i - 1])
        {
        }
        if CountWhere(s[1..], p) != 0 {
          var i :| 0 <= i < |s[1..]| && p(s[1..][i]);
          assert p(s[i + 1]);
        }
      }
    }
  }

  /** A predicate implied by another counts at least as many elements. */
  lemma {:induction false} CountMonotone<T>(s: seq<T>, p: T -> bool, q: T -> bool)
    requires forall i | 0 <= i < |s| :: p(s[i]) ==> q(s[i])
    ensures CountWhere(s, p) <= CountWhere(s, q) <= |s|
  {
    if s != [] {
      CountMonotone(s[1..], p, q);
    }
  }

  /** The count over a concatenation is the sum of the counts. */
  lemma {:induction false} CountAppend<T>(s: seq<T>, t: seq<T>, p: T -> bool)
    ensures CountWhere(s + t, p) == CountWhere(s, p) + CountWhere(t, p)
  {
    if s != [] {
      assert (s + t)[1..] == s[1..] + t;
      CountAppend(s[1..], t, p);
    } else {
      assert s + t == t;
    }
  }

  /** The sum over a concatenation is the sum of the sums. */
  lemma {:induction false} SumAppend<T>(s: seq<T>, t: seq<T>, m: T -> int)
    ensures Sum(s + t, m) == Sum(s, m) + Sum(t, m)
  {
    if s != [] {
      assert (s + t)[1..] == s[1..] + t;
      SumAppend(s[1..], t, m);
    } else {
      assert s + t == t;
    }
  }

  /**
   * Summing over the elements that satisfy either of two predicates no
   * element satisfies together is adding the sums over each: the two
   * filtered sums cover disjoint elements.
   */
  lemma {:induction false} SumDisjoint<T>(s: seq<T>, p: T -> bool, q: T -> bool, either: T -> bool, m: T -> int)
    requires forall i | 0 <= i < |s| :: !(p(s[i]) && q(s[i]))
    requires forall i | 0 <= i < |s| :: either(s[i]) == (p(s[i]) || q(s[i]))
    ensures Sum(Filter(s, p), m) + Sum(Filter(s, q), m) == Sum(Filter(s, either), m)
  {
    if s != [] {
      SumDisjoint(s[1..], p, q, either, m);
      var fp, fq, fe := Filter(s[1..], p), Filter(s[1..], q), Filter(s[1..], either);
      if p(s[0]) {
        assert Sum([s[0]] + fp, m) == m(s[0]) + Sum(fp, m);
        assert Sum([s[0]] + fe, m) == m(s[0]) + Sum(fe, m);
      } else if q(s[0]) {
        assert Sum([s[0]] + fq, m) == m(s[0]) + Sum(fq, m);
        assert Sum([s[0]] + fe, m) == m(s[0]) + Sum(fe, m);
      }
    }
  }

  /** An element satisfies `p` or `q` and never both: the two counts add up to the length. */
  lemma {:induction false} CountComplement<T>(s: seq<T>, p: T -> bool, q: T -> bool)
    requires forall i | 0 <= i < |s| :: q(s[i]) == !p(s[i])
    ensures CountWhere(s, p) + CountWhere(s, q) == |s|
  {
    if s != [] {
      CountComplement(s[1..], p, q);
    }
  }
}

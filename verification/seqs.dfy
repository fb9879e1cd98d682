/** Order-preserving filtering of sequences (`Array.prototype.filter`) and its characterisation. */
module Seqs {

  /** `r` can be obtained from `s` by deleting elements, keeping the order of the rest. */
  ghost predicate SubsequenceOf<T>(r: seq<T>, s: seq<T>)
    decreases |s|
  {
    if r == [] then true
    else if s == [] then false
    else (r[0] == s[0] && SubsequenceOf(r[1..], s[1..])) || SubsequenceOf(r, s[1..])
  }

  /** The elements of `s` satisfying `p`, in their original order. */
  function Filter<T>(s: seq<T>, p: T -> bool): (r: seq<T>)
    ensures |r| <= |s|
    ensures forall i :: 0 <= i < |r| ==> p(r[i]) && r[i] in s
    ensures forall i :: 0 <= i < |s| && p(s[i]) ==> s[i] in r
  {
    if s == [] then [] else (if p(s[0]) then [s[0]] else []) + Filter(s[1..], p)
  }

  /** Filtering distributes over concatenation. */
  lemma {:induction false} FilterAppend<T>(s: seq<T>, t: seq<T>, p: T -> bool)
    ensures Filter(s + t, p) == Filter(s, p) + Filter(t, p)
  {
    if s == [] {
      assert s + t == t;
    } else {
      assert (s + t)[1..] == s[1..] + t;
      FilterAppend(s[1..], t, p);
    }
  }

  /** The filtered sequence keeps every satisfying element as often as it occurs, and nothing else. */
  lemma {:induction false} FilterMultiset<T>(s: seq<T>, p: T -> bool)
    ensures forall x :: multiset(Filter(s, p))[x] == if p(x) then multiset(s)[x] else 0
  {
    if s != [] {
      FilterMultiset(s[1..], p);
      assert s == [s[0]] + s[1..];
      assert multiset(s) == multiset([s[0]]) + multiset(s[1..]);
    }
  }

  /** The filtered sequence is an order-preserving subsequence of the original. */
  lemma {:induction false} FilterIsSubsequence<T>(s: seq<T>, p: T -> bool)
    ensures SubsequenceOf(Filter(s, p), s)
  {
    if s != [] {
      FilterIsSubsequence(s[1..], p);
      var r := Filter(s, p);
      if p(s[0]) {
        assert r == [s[0]] + Filter(s[1..], p);
        assert r[1..] == Filter(s[1..], p);
      } else {
        assert r == Filter(s[1..], p);
      }
    }
  }

  /** Filtering a sequence whose elements all satisfy `p` returns it unchanged. */
  lemma {:induction false} FilterAll<T>(s: seq<T>, p: T -> bool)
    requires forall i :: 0 <= i < |s| ==> p(s[i])
    ensures Filter(s, p) == s
  {
    if s != [] {
      FilterAll(s[1..], p);
    }
  }

  /** Filtering out exactly the element at `k` deletes it and keeps the rest in order. */
  lemma {:induction false} FilterDropsOne<T>(s: seq<T>, p: T -> bool, k: nat)
    requires k < |s| && !p(s[k])
    requires forall j :: 0 <= j < |s| && j != k ==> p(s[j])
    ensures Filter(s, p) == s[..k] + s[k + 1..]
  {
    if k == 0 {
      assert forall j :: 0 <= j < |s[1..]| ==> p(s[1..][j]) by {
        forall j | 0 <= j < |s[1..]|
          ensures p(s[1..][j])
        {
          assert s[1..][j] == s[j + 1];
        }
      }
      FilterAll(s[1..], p);
      assert s[..0] + s[1..] == s[1..];
    } else {
      forall j | 0 <= j < |s[1..]| && j != k - 1
        ensures p(s[1..][j])
      {
        assert s[1..][j] == s[j + 1];
      }
      FilterDropsOne(s[1..], p, k - 1);
      assert s[..k] + s[k + 1..] == [s[0]] + (s[1..][..k - 1] + s[1..][k..]);
    }
  }

  /** Every element of the filtered sequence keeps any property all elements of the original have. */
  lemma {:induction false} FilterKeepsAll<T>(s: seq<T>, p: T -> bool, q: T -> bool)
    requires forall i :: 0 <= i < |s| ==> q(s[i])
    ensures forall i :: 0 <= i < |Filter(s, p)| ==> q(Filter(s, p)[i])
  {
    if s != [] {
      assert forall i :: 0 <= i < |s[1..]| ==> q(s[1..][i]) by {
        forall i | 0 <= i < |s[1..]|
          ensures q(s[1..][i])
        {
          assert s[1..][i] == s[i + 1];
        }
      }
      FilterKeepsAll(s[1..], p, q);
    }
  }

  /** The first element the filter keeps is the first element of `s` that satisfies `p`. */
  lemma {:induction false} FilterFirst<T>(s: seq<T>, p: T -> bool, k: nat)
    requires k < |s| && p(s[k])
    requires forall j :: 0 <= j < k ==> !p(s[j])
    ensures |Filter(s, p)| > 0 && Filter(s, p)[0] == s[k]
  {
    if k > 0 {
      assert !p(s[0]);
      forall j | 0 <= j < k - 1
        ensures !p(s[1..][j])
      {
        assert s[1..][j] == s[j + 1];
      }
      FilterFirst(s[1..], p, k - 1);
    }
  }

  /** Nothing is kept when no element satisfies `p`. */
  lemma FilterNone<T>(s: seq<T>, p: T -> bool)
    requires forall j :: 0 <= j < |s| ==> !p(s[j])
    ensures Filter(s, p) == []
  {
  }

  /** Filtering twice with the same predicate is filtering once. */
  lemma FilterIdempotent<T>(s: seq<T>, p: T -> bool)
    ensures Filter(Filter(s, p), p) == Filter(s, p)
  {
    FilterAll(Filter(s, p), p);
  }

  // ---- Sums ----

  /** The sum of `f` over the elements, from the front: `reduce((t, x) => t + f(x), 0)` on exact numbers. */
  function Sum<T>(s: seq<T>, f: T -> real): real {
    if s == [] then 0.0 else f(s[0]) + Sum(s[1..], f)
  }

  lemma {:induction false} SumNonNegative<T>(s: seq<T>, f: T -> real)
    requires forall i :: 0 <= i < |s| ==> f(s[i]) >= 0.0
    ensures Sum(s, f) >= 0.0
  {
    if s != [] {
      assert forall i :: 0 <= i < |s[1..]| ==> s[1..][i] == s[i + 1];
      SumNonNegative(s[1..], f);
    }
  }

  lemma SumSingleton<T>(x: T, f: T -> real)
    ensures Sum([x], f) == f(x)
  {
    assert [x][1..] == [];
  }

  /** The sum over a concatenation is the sum of the sums. */
  lemma {:induction false} SumAppend<T>(a: seq<T>, b: seq<T>, f: T -> real)
    ensures Sum(a + b, f) == Sum(a, f) + Sum(b, f)
  {
    if a == [] {
      assert a + b == b;
    } else {
      assert (a + b)[1..] == a[1..] + b;
      SumAppend(a[1..], b, f);
    }
  }

  /** Replacing one element changes the sum by exactly the difference of the two values. */
  lemma {:induction false} SumReplace<T>(s: seq<T>, i: nat, x: T, f: T -> real)
    requires i < |s|
    ensures Sum(s[i := x], f) == Sum(s, f) - f(s[i]) + f(x)
  {
    if i > 0 {
      assert s[i := x][1..] == s[1..][i - 1 := x];
      SumReplace(s[1..], i - 1, x, f);
    }
  }

  /** With non-negative values, each value is at most the sum. */
  lemma {:induction false} SumAtLeastEach<T>(s: seq<T>, f: T -> real, i: nat)
    requires i < |s|
    requires forall j :: 0 <= j < |s| ==> f(s[j]) >= 0.0
    ensures f(s[i]) <= Sum(s, f)
  {
    assert forall j :: 0 <= j < |s[1..]| ==> s[1..][j] == s[j + 1];
    SumNonNegative(s[1..], f);
    if i > 0 {
      SumAtLeastEach(s[1..], f, i - 1);
    }
  }

  /** Sequences with the same values position by position have the same sum. */
  lemma {:induction false} SumSameValues<T>(a: seq<T>, b: seq<T>, f: T -> real)
    requires |a| == |b|
    requires forall i :: 0 <= i < |a| ==> f(a[i]) == f(b[i])
    ensures Sum(a, f) == Sum(b, f)
  {
    if a != [] {
      assert forall i :: 0 <= i < |a[1..]| ==> a[1..][i] == a[i + 1] && b[1..][i] == b[i + 1];
      SumSameValues(a[1..], b[1..], f);
    }
  }

  /** The negation of a predicate. */
  function Not<T>(p: T -> bool): T -> bool {
    (x: T) => !p(x)
  }

  /** The sum over the kept elements plus the sum over the dropped ones is the whole sum. */
  lemma {:induction false} SumPartition<T>(s: seq<T>, p: T -> bool, f: T -> real)
    ensures Sum(Filter(s, p), f) + Sum(Filter(s, Not(p)), f) == Sum(s, f)
  {
    if s != [] {
      SumPartition(s[1..], p, f);
      var keep := if p(s[0]) then [s[0]] else [];
      var drop := if !p(s[0]) then [s[0]] else [];
      SumAppend(keep, Filter(s[1..], p), f);
      SumAppend(drop, Filter(s[1..], Not(p)), f);
    }
  }
}

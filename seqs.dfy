/**
 * List operations the application uses everywhere: `Array.prototype.filter`,
 * a `reduce` that adds up a numeric field, and "first element satisfying"
 * (`find` / `findIndex`).
 */
module Seqs {

  import opened Wrappers

  /** The elements of `xs` that satisfy `p`, in their original order. */
  function Filter<T>(xs: seq<T>, p: T -> bool): (r: seq<T>)
    ensures |r| <= |xs|
    ensures forall i :: 0 <= i < |r| ==> r[i] in xs && p(r[i])
    ensures forall i :: 0 <= i < |xs| && p(xs[i]) ==> xs[i] in r
  {
    if |xs| == 0 then []
    else (if p(xs[0]) then [xs[0]] else []) + Filter(xs[1..], p)
  }

  /** Filtering distributes over concatenation (it keeps the relative order). */
  lemma {:induction false} FilterAppend<T>(a: seq<T>, b: seq<T>, p: T -> bool)
    ensures Filter(a + b, p) == Filter(a, p) + Filter(b, p)
  {
    if |a| == 0 {
      assert a + b == b;
    } else {
      assert (a + b)[1..] == a[1..] + b;
      FilterAppend(a[1..], b, p);
    }
  }

  /** Filtering a sequence whose every element passes changes nothing. */
  lemma {:induction false} FilterAll<T>(xs: seq<T>, p: T -> bool)
    requires forall i :: 0 <= i < |xs| ==> p(xs[i])
    ensures Filter(xs, p) == xs
  {
    if |xs| > 0 {
      FilterAll(xs[1..], p);
    }
  }

  /** Overwriting an element that fails `p` with another that fails `p` leaves the filtered sequence alone. */
  lemma {:induction false} FilterUpdateRejected<T>(xs: seq<T>, k: nat, y: T, p: T -> bool)
    requires k < |xs| && !p(xs[k]) && !p(y)
    ensures Filter(xs[k := y], p) == Filter(xs, p)
  {
    if k == 0 {
      assert xs[k := y][1..] == xs[1..];
    } else {
      assert xs[k := y][1..] == xs[1..][k - 1 := y];
      FilterUpdateRejected(xs[1..], k - 1, y, p);
    }
  }

  /** Filtering a sequence whose every element fails gives the empty sequence. */
  lemma {:induction false} FilterNone<T>(xs: seq<T>, p: T -> bool)
    requires forall i :: 0 <= i < |xs| ==> !p(xs[i])
    ensures Filter(xs, p) == []
  {
    if |xs| > 0 {
      FilterNone(xs[1..], p);
    }
  }

  /** Filtering twice by the same predicate is filtering once. */
  lemma {:induction false} FilterIdempotent<T>(xs: seq<T>, p: T -> bool)
    ensures Filter(Filter(xs, p), p) == Filter(xs, p)
  {
    FilterAll(Filter(xs, p), p);
  }

  /** The conjunction of two predicates. */
  function And<T>(p: T -> bool, q: T -> bool): T -> bool {
    x => p(x) && q(x)
  }

  /** Filtering by `p` then by `q` is filtering by their conjunction. */
  lemma {:induction false} FilterFilter<T>(xs: seq<T>, p: T -> bool, q: T -> bool)
    ensures Filter(Filter(xs, p), q) == Filter(xs, And(p, q))
  {
    if |xs| > 0 {
      FilterFilter(xs[1..], p, q);
      if p(xs[0]) {
        assert Filter(xs, p) == [xs[0]] + Filter(xs[1..], p);
        FilterAppend([xs[0]], Filter(xs[1..], p), q);
        assert [xs[0]][1..] == [];
        assert Filter([xs[0]], q) == (if q(xs[0]) then [xs[0]] else []) + Filter([], q);
      } else {
        assert Filter(xs, p) == Filter(xs[1..], p);
      }
      assert And(p, q)(xs[0]) == (p(xs[0]) && q(xs[0]));
    }
  }

  /** Two predicates that agree on every element select the same elements. */
  lemma {:induction false} FilterEquivalent<T>(xs: seq<T>, p: T -> bool, q: T -> bool)
    requires forall i :: 0 <= i < |xs| ==> p(xs[i]) == q(xs[i])
    ensures Filter(xs, p) == Filter(xs, q)
  {
    if |xs| > 0 {
      FilterEquivalent(xs[1..], p, q);
    }
  }

  /** The negation of a predicate. */
  function Not<T>(p: T -> bool): T -> bool {
    x => !p(x)
  }

  /** A predicate and its negation split a sequence into two parts that together hold every element. */
  lemma {:induction false} FilterPartition<T>(xs: seq<T>, p: T -> bool)
    ensures multiset(Filter(xs, p)) + multiset(Filter(xs, Not(p))) == multiset(xs)
    ensures |Filter(xs, p)| + |Filter(xs, Not(p))| == |xs|
  {
    if |xs| > 0 {
      FilterPartition(xs[1..], p);
      FilterPartitionStep(xs, p);
    }
  }

  /** The inductive step of FilterPartition: the first element goes to exactly one side. */
  lemma FilterPartitionStep<T>(xs: seq<T>, p: T -> bool)
    requires |xs| > 0
    requires multiset(Filter(xs[1..], p)) + multiset(Filter(xs[1..], Not(p))) == multiset(xs[1..])
    requires |Filter(xs[1..], p)| + |Filter(xs[1..], Not(p))| == |xs[1..]|
    ensures multiset(Filter(xs, p)) + multiset(Filter(xs, Not(p))) == multiset(xs)
    ensures |Filter(xs, p)| + |Filter(xs, Not(p))| == |xs|
  {
    var x := xs[0];
    assert Not(p)(x) == !p(x);
    assert xs == [x] + xs[1..];
    PartitionCons(x, Filter(xs[1..], p), Filter(xs[1..], Not(p)), xs[1..], Filter(xs, p), Filter(xs, Not(p)), p(x));
  }

  /** Putting one more element on exactly one side of a partition keeps it a partition. */
  lemma PartitionCons<T>(x: T, yes: seq<T>, no: seq<T>, rest: seq<T>, yes': seq<T>, no': seq<T>, side: bool)
    requires multiset(yes) + multiset(no) == multiset(rest) && |yes| + |no| == |rest|
    requires yes' == if side then [x] + yes else yes
    requires no' == if side then no else [x] + no
    ensures multiset(yes') + multiset(no') == multiset([x] + rest)
    ensures |yes'| + |no'| == |[x] + rest|
  {
  }

  /** Two predicates that never hold together select at most |xs| elements between them. */
  lemma {:induction false} FilterDisjointCount<T>(xs: seq<T>, p: T -> bool, q: T -> bool)
    requires forall i :: 0 <= i < |xs| ==> !(p(xs[i]) && q(xs[i]))
    ensures |Filter(xs, p)| + |Filter(xs, q)| <= |xs|
  {
    if |xs| > 0 {
      FilterDisjointCount(xs[1..], p, q);
    }
  }

  /** Filtering by a predicate that implies another keeps at most as many elements. */
  lemma {:induction false} FilterMonotone<T>(xs: seq<T>, p: T -> bool, q: T -> bool)
    requires forall i :: 0 <= i < |xs| ==> p(xs[i]) ==> q(xs[i])
    ensures |Filter(xs, p)| <= |Filter(xs, q)|
  {
    if |xs| > 0 {
      FilterMonotone(xs[1..], p, q);
    }
  }

  /** Each element's image under `f`, in order (`Array.prototype.map`). */
  function Map<T, U>(xs: seq<T>, f: T -> U): (r: seq<U>)
    ensures |r| == |xs|
    ensures forall i :: 0 <= i < |xs| ==> r[i] == f(xs[i])
  {
    seq(|xs|, i requires 0 <= i < |xs| => f(xs[i]))
  }

  /**
   * Mapping by `f` does not change what `p` selects when `f` keeps the value of
   * `p` on every element and leaves the elements `p` selects as they are.
   */
  lemma {:induction false} FilterMapFixed<T>(xs: seq<T>, f: T -> T, p: T -> bool)
    requires forall i :: 0 <= i < |xs| ==> p(f(xs[i])) == p(xs[i])
    requires forall i :: 0 <= i < |xs| && p(xs[i]) ==> f(xs[i]) == xs[i]
    ensures Filter(Map(xs, f), p) == Filter(xs, p)
  {
    if |xs| > 0 {
      assert Map(xs, f)[1..] == Map(xs[1..], f);
      FilterMapFixed(xs[1..], f, p);
    }
  }

  /** The sum of `f` over `xs`, added from left to right (`reduce((s, x) => s + f(x), 0)`). */
  function Sum<T>(xs: seq<T>, f: T -> real): real
  {
    if |xs| == 0 then 0.0 else Sum(xs[..|xs| - 1], f) + f(xs[|xs| - 1])
  }

  /** The sum of a concatenation is the sum of the parts. */
  lemma {:induction false} SumAppend<T>(a: seq<T>, b: seq<T>, f: T -> real)
    ensures Sum(a + b, f) == Sum(a, f) + Sum(b, f)
  {
    if |b| == 0 {
      assert a + b == a;
    } else {
      assert (a + b)[..|a + b| - 1] == a + b[..|b| - 1];
      SumAppend(a, b[..|b| - 1], f);
    }
  }

  /** A sum of non-negative terms is non-negative. */
  lemma {:induction false} SumNonNegative<T>(xs: seq<T>, f: T -> real)
    requires forall i :: 0 <= i < |xs| ==> f(xs[i]) >= 0.0
    ensures Sum(xs, f) >= 0.0
  {
    if |xs| > 0 {
      SumNonNegative(xs[..|xs| - 1], f);
    }
  }

  /** Bounds of a sum from bounds of its terms: n * lo <= sum <= n * hi. */
  lemma {:induction false} SumBounds<T>(xs: seq<T>, f: T -> real, lo: real, hi: real)
    requires forall i :: 0 <= i < |xs| ==> lo <= f(xs[i]) <= hi
    ensures |xs| as real * lo <= Sum(xs, f) <= |xs| as real * hi
  {
    if |xs| > 0 {
      SumBounds(xs[..|xs| - 1], f, lo, hi);
    }
  }

  /** The index of the first element satisfying `p` (`findIndex`), or None (-1 in the source). */
  function FirstIndex<T>(xs: seq<T>, p: T -> bool): (r: Option<nat>)
    ensures r.Some? ==> r.value < |xs| && p(xs[r.value])
    ensures r.Some? ==> forall i :: 0 <= i < r.value ==> !p(xs[i])
    ensures r.None? <==> forall i :: 0 <= i < |xs| ==> !p(xs[i])
  {
    if |xs| == 0 then None
    else if p(xs[0]) then Some(0)
    else match FirstIndex(xs[1..], p)
      case None => None
      case Some(k) => Some(k + 1)
  }

  /** The first element satisfying `p` (`Array.prototype.find`). */
  function Find<T>(xs: seq<T>, p: T -> bool): (r: Option<T>)
    ensures r.Some? <==> exists i :: 0 <= i < |xs| && p(xs[i])
    ensures r.Some? ==> r.value in xs && p(r.value)
  {
    match FirstIndex(xs, p)
    case None => None
    case Some(k) => Some(xs[k])
  }

  /** Find returns the element at the first index satisfying the predicate. */
  lemma FindIsFirst<T>(xs: seq<T>, p: T -> bool, k: nat)
    requires k < |xs| && p(xs[k])
    requires forall i :: 0 <= i < k ==> !p(xs[i])
    ensures Find(xs, p) == Some(xs[k])
  {
  }

  /** No element occurs twice. */
  predicate NoDuplicates<T(==)>(xs: seq<T>) {
    forall i, j :: 0 <= i < j < |xs| ==> xs[i] != xs[j]
  }

  /** Two sequences that share no element. */
  predicate Disjoint<T(==)>(a: seq<T>, b: seq<T>) {
    forall i, j :: 0 <= i < |a| && 0 <= j < |b| ==> a[i] != b[j]
  }

  /** Joining two duplicate-free sequences that share nothing gives a duplicate-free sequence. */
  lemma NoDuplicatesAppend<T>(a: seq<T>, b: seq<T>)
    requires NoDuplicates(a) && NoDuplicates(b) && Disjoint(a, b)
    ensures NoDuplicates(a + b)
  {
    var ab := a + b;
    forall i, j | 0 <= i < j < |ab| ensures ab[i] != ab[j] {
      if j < |a| {
        assert ab[i] == a[i] && ab[j] == a[j];
      } else if i < |a| {
        assert ab[i] == a[i] && ab[j] == b[j - |a|];
      } else {
        assert ab[i] == b[i - |a|] && ab[j] == b[j - |a|];
      }
    }
  }

  /** The number of occurrences of `x` in `xs`. */
  function Occurrences<T(==)>(xs: seq<T>, x: T): nat {
    multiset(xs)[x]
  }
}

/**
 * A stable insertion sort by a comparator. It stands for `Array.prototype.sort`
 * (stable since ES2019) and for SQL `ORDER BY`; `le(a, b)` means "a may come
 * before b".
 */
module Sorting {

  import Strings
  import Seqs

  /** `le` is total and transitive, so sorting by it is meaningful. */
  ghost predicate TotalPreorder<T(!new)>(le: (T, T) -> bool) {
    && (forall a, b :: le(a, b) || le(b, a))
    && (forall a, b, c :: le(a, b) && le(b, c) ==> le(a, c))
  }

  /** Every element may come before every later one. */
  ghost predicate SortedBy<T>(xs: seq<T>, le: (T, T) -> bool) {
    forall i, j :: 0 <= i < j < |xs| ==> le(xs[i], xs[j])
  }

  /** Inserts `x` before the first element it may precede. */
  function Insert<T>(x: T, xs: seq<T>, le: (T, T) -> bool): (r: seq<T>)
    ensures multiset(r) == multiset(xs) + multiset{x}
    ensures |r| == |xs| + 1
  {
    if |xs| == 0 then [x]
    else if le(x, xs[0]) then [x] + xs
    else
      assert xs == [xs[0]] + xs[1..];
      [xs[0]] + Insert(x, xs[1..], le)
  }

  lemma {:induction false} InsertSorted<T(!new)>(x: T, xs: seq<T>, le: (T, T) -> bool)
    requires TotalPreorder(le)
    requires SortedBy(xs, le)
    ensures SortedBy(Insert(x, xs, le), le)
  {
    if |xs| > 0 && !le(x, xs[0]) {
      var tail := Insert(x, xs[1..], le);
      InsertSorted(x, xs[1..], le);
      assert le(xs[0], x);
      forall k | 0 <= k < |tail| ensures le(xs[0], tail[k]) {
        assert tail[k] in multiset(tail);
        if tail[k] != x {
          assert tail[k] in multiset(xs[1..]);
          var j :| 0 <= j < |xs[1..]| && xs[1..][j] == tail[k];
          assert xs[j + 1] == tail[k];
        }
      }
      assert Insert(x, xs, le) == [xs[0]] + tail;
    }
  }

  /** The elements of `xs` in `le` order; equal elements keep their input order. */
  function Sort<T>(xs: seq<T>, le: (T, T) -> bool): (r: seq<T>)
    ensures multiset(r) == multiset(xs)
    ensures |r| == |xs|
  {
    if |xs| == 0 then []
    else
      assert xs == [xs[0]] + xs[1..];
      Insert(xs[0], Sort(xs[1..], le), le)
  }

  /** Sorting by a total preorder yields a sorted permutation of the input. */
  lemma {:induction false} SortSorted<T(!new)>(xs: seq<T>, le: (T, T) -> bool)
    requires TotalPreorder(le)
    ensures SortedBy(Sort(xs, le), le)
  {
    if |xs| > 0 {
      SortSorted(xs[1..], le);
      InsertSorted(xs[0], Sort(xs[1..], le), le);
    }
  }

  /** Any two elements `c` selects may come before each other: `c` selects ties only. */
  ghost predicate TiesOnly<T(!new)>(le: (T, T) -> bool, c: T -> bool) {
    forall y, z :: c(y) && c(z) ==> le(y, z)
  }

  /** Filtering a sequence with a first element keeps that element exactly when it is selected. */
  lemma FilterCons<T>(x: T, xs: seq<T>, c: T -> bool)
    ensures Seqs.Filter([x] + xs, c) == (if c(x) then [x] else []) + Seqs.Filter(xs, c)
  {
    assert ([x] + xs)[1..] == xs;
  }

  /**
   * The concatenations behind a stable insertion step: with `full = first + rest`,
   * `rest = mine + tail` and `whole = first + tail`, where one of `first` and
   * `mine` is empty, `full = mine + whole`.
   */
  lemma ReorderEmpty<T>(full: seq<T>, rest: seq<T>, whole: seq<T>, tail: seq<T>, first: seq<T>, mine: seq<T>)
    requires first == [] || mine == []
    requires full == first + rest && rest == mine + tail && whole == first + tail
    ensures full == mine + whole
  {
    if first == [] {
      assert full == rest && whole == tail;
    } else {
      assert rest == tail;
    }
  }

  /** `y` goes past a first element it does not come before. */
  lemma InsertPast<T>(y: T, ys: seq<T>, le: (T, T) -> bool)
    requires |ys| > 0 && !le(y, ys[0])
    ensures Insert(y, ys, le) == [ys[0]] + Insert(y, ys[1..], le)
  {
  }

  /** Inserting `y` puts it before every element already present that ties with it. */
  lemma {:induction false} InsertTied<T(!new)>(y: T, ys: seq<T>, le: (T, T) -> bool, c: T -> bool)
    requires TiesOnly(le, c)
    ensures Seqs.Filter(Insert(y, ys, le), c) == (if c(y) then [y] else []) + Seqs.Filter(ys, c)
  {
    if |ys| == 0 || le(y, ys[0]) {
      FilterCons(y, ys, c);
    } else {
      InsertTied(y, ys[1..], le, c);
      assert !(c(y) && c(ys[0]));
      InsertTiedPast(y, ys, le, c);
    }
  }

  /** When `y` goes past a first element that does not tie with it, that element keeps its place. */
  lemma InsertTiedPast<T>(y: T, ys: seq<T>, le: (T, T) -> bool, c: T -> bool)
    requires |ys| > 0 && !le(y, ys[0]) && !(c(y) && c(ys[0]))
    requires Seqs.Filter(Insert(y, ys[1..], le), c) == (if c(y) then [y] else []) + Seqs.Filter(ys[1..], c)
    ensures Seqs.Filter(Insert(y, ys, le), c) == (if c(y) then [y] else []) + Seqs.Filter(ys, c)
  {
    var ins := Insert(y, ys[1..], le);
    InsertPast(y, ys, le);
    FilterCons(ys[0], ins, c);
    FilterCons(ys[0], ys[1..], c);
    assert [ys[0]] + ys[1..] == ys;
    ReorderEmpty(Seqs.Filter(Insert(y, ys, le), c), Seqs.Filter(ins, c), Seqs.Filter(ys, c), Seqs.Filter(ys[1..], c),
                 if c(ys[0]) then [ys[0]] else [], if c(y) then [y] else []);
  }

  /** The sort is stable: elements that tie with each other keep their input order. */
  lemma {:induction false} SortStable<T(!new)>(xs: seq<T>, le: (T, T) -> bool, c: T -> bool)
    requires TiesOnly(le, c)
    ensures Seqs.Filter(Sort(xs, le), c) == Seqs.Filter(xs, c)
  {
    if |xs| > 0 {
      SortStable(xs[1..], le, c);
      InsertTied(xs[0], Sort(xs[1..], le), le, c);
    }
  }

  /** The elements whose integer key is `k`. */
  function KeyIs<T>(key: T -> int, k: int): T -> bool {
    (y: T) => key(y) == k
  }

  /** The elements whose text key is `t`. */
  function TextIs<T>(key: T -> string, t: string): T -> bool {
    (y: T) => key(y) == t
  }

  /** The elements whose integer key is `k` and whose text key is `t`. */
  function KeyAndTextAre<T>(k1: T -> int, k2: T -> string, k: int, t: string): T -> bool {
    (y: T) => k1(y) == k && k2(y) == t
  }

  /** Sorting by an ascending integer key keeps the order of equal keys. */
  lemma SortStableByKeyAscending<T(!new)>(xs: seq<T>, key: T -> int)
    ensures forall k :: Seqs.Filter(Sort(xs, ByKeyAscending(key)), KeyIs(key, k)) == Seqs.Filter(xs, KeyIs(key, k))
  {
    forall k ensures Seqs.Filter(Sort(xs, ByKeyAscending(key)), KeyIs(key, k)) == Seqs.Filter(xs, KeyIs(key, k)) {
      SortStable(xs, ByKeyAscending(key), KeyIs(key, k));
    }
  }

  /** Sorting by a descending integer key keeps the order of equal keys. */
  lemma SortStableByKeyDescending<T(!new)>(xs: seq<T>, key: T -> int)
    ensures forall k :: Seqs.Filter(Sort(xs, ByKeyDescending(key)), KeyIs(key, k)) == Seqs.Filter(xs, KeyIs(key, k))
  {
    forall k ensures Seqs.Filter(Sort(xs, ByKeyDescending(key)), KeyIs(key, k)) == Seqs.Filter(xs, KeyIs(key, k)) {
      SortStable(xs, ByKeyDescending(key), KeyIs(key, k));
    }
  }

  /** Sorting by an ascending text key keeps the order of equal keys. */
  lemma SortStableByTextAscending<T(!new)>(xs: seq<T>, key: T -> string)
    ensures forall t :: Seqs.Filter(Sort(xs, ByTextAscending(key)), TextIs(key, t)) == Seqs.Filter(xs, TextIs(key, t))
  {
    ByTextAscendingIsTotalPreorder(key);
    forall t ensures Seqs.Filter(Sort(xs, ByTextAscending(key)), TextIs(key, t)) == Seqs.Filter(xs, TextIs(key, t)) {
      assert forall y :: ByTextAscending(key)(y, y);
      SortStable(xs, ByTextAscending(key), TextIs(key, t));
    }
  }

  /** Sorting by a descending text key keeps the order of equal keys. */
  lemma SortStableByTextDescending<T(!new)>(xs: seq<T>, key: T -> string)
    ensures forall t :: Seqs.Filter(Sort(xs, ByTextDescending(key)), TextIs(key, t)) == Seqs.Filter(xs, TextIs(key, t))
  {
    ByTextDescendingIsTotalPreorder(key);
    forall t ensures Seqs.Filter(Sort(xs, ByTextDescending(key)), TextIs(key, t)) == Seqs.Filter(xs, TextIs(key, t)) {
      assert forall y :: ByTextDescending(key)(y, y);
      SortStable(xs, ByTextDescending(key), TextIs(key, t));
    }
  }

  /** Sorting by an integer key, then a text key, keeps the order of rows equal in both. */
  lemma SortStableByKeyThenText<T(!new)>(xs: seq<T>, k1: T -> int, k2: T -> string)
    ensures forall k, t ::
              Seqs.Filter(Sort(xs, ByKeyThenText(k1, k2)), KeyAndTextAre(k1, k2, k, t))
              == Seqs.Filter(xs, KeyAndTextAre(k1, k2, k, t))
  {
    ByKeyThenTextIsTotalPreorder(k1, k2);
    forall k, t ensures Seqs.Filter(Sort(xs, ByKeyThenText(k1, k2)), KeyAndTextAre(k1, k2, k, t))
      == Seqs.Filter(xs, KeyAndTextAre(k1, k2, k, t)) {
      assert forall y :: ByKeyThenText(k1, k2)(y, y);
      SortStable(xs, ByKeyThenText(k1, k2), KeyAndTextAre(k1, k2, k, t));
    }
  }

  /** An element is in the sorted sequence exactly when it is in the input. */
  lemma SortMembers<T>(xs: seq<T>, le: (T, T) -> bool)
    ensures forall i :: 0 <= i < |xs| ==> xs[i] in Sort(xs, le)
    ensures forall i :: 0 <= i < |xs| ==> Sort(xs, le)[i] in xs
  {
    var r := Sort(xs, le);
    forall i | 0 <= i < |xs| ensures xs[i] in r && r[i] in xs {
      assert xs[i] in multiset(xs);
      assert r[i] in multiset(r);
    }
  }

  /** Non-increasing order of an integer key (`sort((a, b) => key(b) - key(a))`). */
  function ByKeyDescending<T>(key: T -> int): (T, T) -> bool {
    (a, b) => key(a) >= key(b)
  }

  lemma ByKeyDescendingIsTotalPreorder<T(!new)>(key: T -> int)
    ensures TotalPreorder(ByKeyDescending(key))
  {
  }

  /** Non-decreasing order of an integer key (`ORDER BY key`). */
  function ByKeyAscending<T>(key: T -> int): (T, T) -> bool {
    (a, b) => key(a) <= key(b)
  }

  lemma ByKeyAscendingIsTotalPreorder<T(!new)>(key: T -> int)
    ensures TotalPreorder(ByKeyAscending(key))
  {
  }

  /** Sorting by a descending key leaves the keys non-increasing. */
  lemma SortByKeyDescending<T(!new)>(xs: seq<T>, key: T -> int)
    ensures var r := Sort(xs, ByKeyDescending(key));
      forall i, j :: 0 <= i < j < |r| ==> key(r[i]) >= key(r[j])
  {
    ByKeyDescendingIsTotalPreorder(key);
    SortSorted(xs, ByKeyDescending(key));
    var r := Sort(xs, ByKeyDescending(key));
    forall i, j | 0 <= i < j < |r| ensures key(r[i]) >= key(r[j]) {
      assert ByKeyDescending(key)(r[i], r[j]);
    }
  }

  /** Sorting by an ascending key leaves the keys non-decreasing. */
  lemma SortByKeyAscending<T(!new)>(xs: seq<T>, key: T -> int)
    ensures var r := Sort(xs, ByKeyAscending(key));
      forall i, j :: 0 <= i < j < |r| ==> key(r[i]) <= key(r[j])
  {
    ByKeyAscendingIsTotalPreorder(key);
    SortSorted(xs, ByKeyAscending(key));
    var r := Sort(xs, ByKeyAscending(key));
    forall i, j | 0 <= i < j < |r| ensures key(r[i]) <= key(r[j]) {
      assert ByKeyAscending(key)(r[i], r[j]);
    }
  }

  /** Text order of a key, as SQLite compares text (`ORDER BY key`). */
  function ByTextAscending<T>(key: T -> string): (T, T) -> bool {
    (a, b) => Strings.StrLe(key(a), key(b))
  }

  lemma ByTextAscendingIsTotalPreorder<T(!new)>(key: T -> string)
    ensures TotalPreorder(ByTextAscending(key))
  {
    forall a, b ensures ByTextAscending(key)(a, b) || ByTextAscending(key)(b, a) {
      Strings.StrLeTotal(key(a), key(b));
    }
    forall a, b, c | ByTextAscending(key)(a, b) && ByTextAscending(key)(b, c) ensures ByTextAscending(key)(a, c) {
      Strings.StrLeTransitive(key(a), key(b), key(c));
    }
  }

  /** Reverse text order of a key (`ORDER BY key DESC`). */
  function ByTextDescending<T>(key: T -> string): (T, T) -> bool {
    (a, b) => Strings.StrLe(key(b), key(a))
  }

  lemma ByTextDescendingIsTotalPreorder<T(!new)>(key: T -> string)
    ensures TotalPreorder(ByTextDescending(key))
  {
    forall a, b ensures ByTextDescending(key)(a, b) || ByTextDescending(key)(b, a) {
      Strings.StrLeTotal(key(a), key(b));
    }
    forall a, b, c | ByTextDescending(key)(a, b) && ByTextDescending(key)(b, c) ensures ByTextDescending(key)(a, c) {
      Strings.StrLeTransitive(key(c), key(b), key(a));
    }
  }

  /** Sorting by text leaves the keys in text order. */
  lemma SortByTextAscending<T(!new)>(xs: seq<T>, key: T -> string)
    ensures var r := Sort(xs, ByTextAscending(key));
      forall i, j :: 0 <= i < j < |r| ==> Strings.StrLe(key(r[i]), key(r[j]))
  {
    ByTextAscendingIsTotalPreorder(key);
    SortSorted(xs, ByTextAscending(key));
    var r := Sort(xs, ByTextAscending(key));
    forall i, j | 0 <= i < j < |r| ensures Strings.StrLe(key(r[i]), key(r[j])) {
      assert ByTextAscending(key)(r[i], r[j]);
    }
  }

  /**
   * `ORDER BY` a text column: the elements ascending by `key`, a permutation
   * of the input, elements with equal keys in their input order.
   */
  function SortedByText<T(!new)>(xs: seq<T>, key: T -> string): (r: seq<T>)
    ensures |r| == |xs|
    ensures forall i, j :: 0 <= i < j < |r| ==> Strings.StrLe(key(r[i]), key(r[j]))
    ensures forall i :: 0 <= i < |xs| ==> xs[i] in r
    ensures forall i :: 0 <= i < |r| ==> r[i] in xs
    ensures multiset(r) == multiset(xs)
    ensures forall t :: Seqs.Filter(r, TextIs(key, t)) == Seqs.Filter(xs, TextIs(key, t))
  {
    SortByTextAscending(xs, key);
    SortStableByTextAscending(xs, key);
    SortMembers(xs, ByTextAscending(key));
    assert var r := Sort(xs, ByTextAscending(key));
      forall i, j :: 0 <= i < j < |r| ==> Strings.StrLe(key(r[i]), key(r[j]));
    Sort(xs, ByTextAscending(key))
  }

  /** Sorting by descending text leaves the keys in reverse text order. */
  lemma SortByTextDescending<T(!new)>(xs: seq<T>, key: T -> string)
    ensures var r := Sort(xs, ByTextDescending(key));
      forall i, j :: 0 <= i < j < |r| ==> Strings.StrLe(key(r[j]), key(r[i]))
  {
    ByTextDescendingIsTotalPreorder(key);
    SortSorted(xs, ByTextDescending(key));
    var r := Sort(xs, ByTextDescending(key));
    forall i, j | 0 <= i < j < |r| ensures Strings.StrLe(key(r[j]), key(r[i])) {
      assert ByTextDescending(key)(r[i], r[j]);
    }
  }

  /** Order by an integer key, ties broken by a text key (`ORDER BY k1, k2`). */
  function ByKeyThenText<T>(k1: T -> int, k2: T -> string): (T, T) -> bool {
    (a, b) => k1(a) < k1(b) || (k1(a) == k1(b) && Strings.StrLe(k2(a), k2(b)))
  }

  lemma ByKeyThenTextIsTotalPreorder<T(!new)>(k1: T -> int, k2: T -> string)
    ensures TotalPreorder(ByKeyThenText(k1, k2))
  {
    var le := ByKeyThenText(k1, k2);
    forall a, b ensures le(a, b) || le(b, a) {
      Strings.StrLeTotal(k2(a), k2(b));
    }
    forall a, b, c | le(a, b) && le(b, c) ensures le(a, c) {
      if k1(a) == k1(b) == k1(c) {
        Strings.StrLeTransitive(k2(a), k2(b), k2(c));
      }
    }
  }

  /** Sorting by (k1, k2) orders by k1 and, within equal k1, by k2. */
  lemma SortByKeyThenText<T(!new)>(xs: seq<T>, k1: T -> int, k2: T -> string)
    ensures var r := Sort(xs, ByKeyThenText(k1, k2));
      forall i, j :: 0 <= i < j < |r| ==> k1(r[i]) < k1(r[j]) || (k1(r[i]) == k1(r[j]) && Strings.StrLe(k2(r[i]), k2(r[j])))
  {
    ByKeyThenTextIsTotalPreorder(k1, k2);
    SortSorted(xs, ByKeyThenText(k1, k2));
    var r := Sort(xs, ByKeyThenText(k1, k2));
    forall i, j | 0 <= i < j < |r| ensures k1(r[i]) < k1(r[j]) || (k1(r[i]) == k1(r[j]) && Strings.StrLe(k2(r[i]), k2(r[j]))) {
      assert ByKeyThenText(k1, k2)(r[i], r[j]);
    }
  }
}

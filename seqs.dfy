/** Sequence operations shared by the whole model: JavaScript's
    `Array.prototype.filter`, a `reduce` that sums a projection, and a
    stable sort by an integer key (the `Array.prototype.sort` the views use
    with a comparator of the form `key(a) - key(b)`). */
module Seqs {

  /** The elements of `s` that satisfy `p`, in their original order. */
  function Filter<T(==)>(s: seq<T>, p: T -> bool): (r: seq<T>)
    ensures |r| <= |s|
    ensures forall i :: 0 <= i < |r| ==> r[i] in s && p(r[i])
    ensures forall i :: 0 <= i < |s| && p(s[i]) ==> s[i] in r
  {
    if s == [] then []
    else
      var init := Filter(s[..|s| - 1], p);
      if p(s[|s| - 1]) then init + [s[|s| - 1]] else init
  }

  /** Filtering distributes over concatenation: what is kept of `s + t` is
      what is kept of `s` followed by what is kept of `t`, so the order of the
      survivors is the order they had. */
  lemma {:induction false} FilterAppend<T>(s: seq<T>, t: seq<T>, p: T -> bool)
    ensures Filter(s + t, p) == Filter(s, p) + Filter(t, p)
    decreases |t|
  {
    if t == [] {
      assert s + t == s;
    } else {
      var t' := t[..|t| - 1];
      assert (s + t)[..|s + t| - 1] == s + t';
      assert (s + t)[|s + t| - 1] == t[|t| - 1];
      FilterAppend(s, t', p);
    }
  }

  /** A filter whose predicate every element meets keeps the whole sequence. */
  lemma {:induction false} FilterKeepsAll<T>(s: seq<T>, p: T -> bool)
    requires forall i :: 0 <= i < |s| ==> p(s[i])
    ensures Filter(s, p) == s
  {
    if s != [] {
      FilterKeepsAll(s[..|s| - 1], p);
      assert s[..|s| - 1] + [s[|s| - 1]] == s;
    }
  }

  /** The sum of `f` over `s`: `s.reduce((sum, x) => sum + f(x), 0)`. */
  function SumOf<T>(s: seq<T>, f: T -> int): int
  {
    if s == [] then 0 else SumOf(s[..|s| - 1], f) + f(s[|s| - 1])
  }

  /** Extending a sequence by one element adds that element's value to the
      sum over the kept elements exactly when it is kept. */
  lemma SumOfFilterLast<T>(s: seq<T>, p: T -> bool, f: T -> int)
    requires s != []
    ensures SumOf(Filter(s, p), f)
         == SumOf(Filter(s[..|s| - 1], p), f) + (if p(s[|s| - 1]) then f(s[|s| - 1]) else 0)
  {
    var init := Filter(s[..|s| - 1], p);
    if p(s[|s| - 1]) {
      assert (init + [s[|s| - 1]])[..|init|] == init;
    }
  }

  lemma {:induction false} SumOfAppend<T>(s: seq<T>, t: seq<T>, f: T -> int)
    ensures SumOf(s + t, f) == SumOf(s, f) + SumOf(t, f)
    decreases |t|
  {
    if t == [] {
      assert s + t == s;
    } else {
      var t' := t[..|t| - 1];
      assert (s + t)[..|s + t| - 1] == s + t';
      assert (s + t)[|s + t| - 1] == t[|t| - 1];
      SumOfAppend(s, t', f);
    }
  }

  /** Replacing one element changes the sum by exactly the difference. */
  lemma {:induction false} SumOfUpdate<T>(s: seq<T>, i: nat, x: T, f: T -> int)
    requires i < |s|
    ensures SumOf(s[i := x], f) == SumOf(s, f) - f(s[i]) + f(x)
    decreases |s|
  {
    var n := |s| - 1;
    if i == n {
      assert s[i := x][..n] == s[..n];
    } else {
      assert s[i := x][..n] == s[..n][i := x];
      SumOfUpdate(s[..n], i, x, f);
    }
  }

  /** The first index at which `x` occurs in `xs`, or `|xs|` when it does not
      occur: the lookup `acc[key]` performs on an object used as a map. */
  function IndexOf<T(==)>(xs: seq<T>, x: T): (i: nat)
    ensures i <= |xs|
    ensures i < |xs| ==> xs[i] == x
    ensures forall j :: 0 <= j < i ==> xs[j] != x
  {
    if xs == [] then 0
    else if xs[0] == x then 0
    else 1 + IndexOf(xs[1..], x)
  }

  /** No value occurs twice: the keys of a JavaScript object. */
  ghost predicate Distinct<T>(xs: seq<T>)
  {
    forall i, j :: 0 <= i < j < |xs| ==> xs[i] != xs[j]
  }

  /** Ascending by `key`: what a comparator `key(a) - key(b)` sorts into. */
  ghost predicate SortedBy<T>(s: seq<T>, key: T -> int)
  {
    forall i, j :: 0 <= i < j < |s| ==> key(s[i]) <= key(s[j])
  }

  /** Places `x` before the first element whose key is not smaller. */
  function Insert<T>(x: T, s: seq<T>, key: T -> int): seq<T>
  {
    if s == [] || key(x) <= key(s[0]) then [x] + s
    else [s[0]] + Insert(x, s[1..], key)
  }

  /** A stable sort of `s`, ascending by `key`. */
  function SortBy<T>(s: seq<T>, key: T -> int): seq<T>
  {
    if s == [] then [] else Insert(s[0], SortBy(s[1..], key), key)
  }

  /** The elements whose key is `v`; stability means sorting leaves this
      subsequence as it was, for every `v`. */
  function HasKey<T>(key: T -> int, v: int): T -> bool
  {
    (x: T) => key(x) == v
  }

  lemma {:induction false} InsertPermutes<T>(x: T, s: seq<T>, key: T -> int)
    ensures multiset(Insert(x, s, key)) == multiset(s) + multiset{x}
    ensures |Insert(x, s, key)| == |s| + 1
    decreases |s|
  {
    if s != [] && key(x) > key(s[0]) {
      InsertPermutes(x, s[1..], key);
      assert s == [s[0]] + s[1..];
    }
  }

  /** A lower bound on every key of `s` and on `key(x)` bounds the result. */
  lemma {:induction false} InsertBound<T>(x: T, s: seq<T>, key: T -> int, b: int)
    requires b <= key(x)
    requires forall i :: 0 <= i < |s| ==> b <= key(s[i])
    ensures forall i :: 0 <= i < |Insert(x, s, key)| ==> b <= key(Insert(x, s, key)[i])
    decreases |s|
  {
    if s != [] && key(x) > key(s[0]) {
      InsertBound(x, s[1..], key, b);
    }
  }

  lemma {:induction false} InsertSorted<T>(x: T, s: seq<T>, key: T -> int)
    requires SortedBy(s, key)
    ensures SortedBy(Insert(x, s, key), key)
    decreases |s|
  {
    if s != [] && key(x) > key(s[0]) {
      InsertSorted(x, s[1..], key);
      InsertBound(x, s[1..], key, key(s[0]));
    }
  }

  /** `SortBy` is a sorted permutation of its input. */
  lemma {:induction false} SortByFacts<T>(s: seq<T>, key: T -> int)
    ensures SortedBy(SortBy(s, key), key)
    ensures multiset(SortBy(s, key)) == multiset(s)
    ensures |SortBy(s, key)| == |s|
    decreases |s|
  {
    if s != [] {
      SortByFacts(s[1..], key);
      InsertPermutes(s[0], SortBy(s[1..], key), key);
      InsertSorted(s[0], SortBy(s[1..], key), key);
      assert s == [s[0]] + s[1..];
    }
  }

  lemma {:induction false} FilterCons<T>(x: T, s: seq<T>, p: T -> bool)
    ensures Filter([x] + s, p) == (if p(x) then [x] else []) + Filter(s, p)
  {
    FilterAppend([x], s, p);
    assert [x][..0] == [];
  }

  /** Inserting `x` adds it to its own key class, in front, and to no other:
      every element it passes has a strictly smaller key. */
  lemma {:induction false} InsertStable<T>(x: T, s: seq<T>, key: T -> int, v: int)
    ensures Filter(Insert(x, s, key), HasKey(key, v))
         == (if key(x) == v then [x] else []) + Filter(s, HasKey(key, v))
    decreases |s|
  {
    var p := HasKey(key, v);
    if s == [] || key(x) <= key(s[0]) {
      FilterCons(x, s, p);
    } else {
      var rest := Insert(x, s[1..], key);
      var tail := Filter(s[1..], p);
      assert Insert(x, s, key) == [s[0]] + rest;
      assert s == [s[0]] + s[1..];
      InsertStable(x, s[1..], key, v);
      FilterCons(s[0], rest, p);
      FilterCons(s[0], s[1..], p);
      if key(x) == v {
        assert !p(s[0]);
        assert Filter(rest, p) == [x] + tail;
      } else if p(s[0]) {
        assert Filter(rest, p) == tail;
      } else {
        assert Filter(rest, p) == tail;
      }
    }
  }

  /** `SortBy` is stable: for each key value, the elements carrying it come
      out in the order they went in. */
  lemma {:induction false} SortByStable<T>(s: seq<T>, key: T -> int, v: int)
    ensures Filter(SortBy(s, key), HasKey(key, v)) == Filter(s, HasKey(key, v))
    decreases |s|
  {
    if s != [] {
      SortByStable(s[1..], key, v);
      InsertStable(s[0], SortBy(s[1..], key), key, v);
      FilterCons(s[0], s[1..], HasKey(key, v));
      assert s == [s[0]] + s[1..];
    }
  }

  /** Sorting does not change a sum. */
  lemma {:induction false} SortBySum<T>(s: seq<T>, key: T -> int, f: T -> int)
    ensures SumOf(SortBy(s, key), f) == SumOf(s, f)
    decreases |s|
  {
    if s != [] {
      SortBySum(s[1..], key, f);
      InsertSum(s[0], SortBy(s[1..], key), key, f);
      SumOfAppend([s[0]], s[1..], f);
      assert s == [s[0]] + s[1..];
      assert [s[0]][..0] == [];
    }
  }

  lemma {:induction false} InsertSum<T>(x: T, s: seq<T>, key: T -> int, f: T -> int)
    ensures SumOf(Insert(x, s, key), f) == f(x) + SumOf(s, f)
    decreases |s|
  {
    assert [x][..0] == [];
    if s == [] || key(x) <= key(s[0]) {
      SumOfAppend([x], s, f);
    } else {
      InsertSum(x, s[1..], key, f);
      SumOfAppend([s[0]], Insert(x, s[1..], key), f);
      SumOfAppend([s[0]], s[1..], f);
      assert [s[0]][..0] == [];
      assert s == [s[0]] + s[1..];
    }
  }

  /** Two positions holding the same value make it occur twice. */
  lemma DuplicateCount<T>(s: seq<T>, i: nat, j: nat)
    requires i < j < |s| && s[i] == s[j]
    ensures multiset(s)[s[i]] >= 2
  {
    assert s == s[..j] + s[j..];
    assert s[i] in s[..j];
    assert s[j] in s[j..];
  }

  /** No two elements share an image under `f`: the keys of an object. */
  ghost predicate DistinctBy<T, K>(r: seq<T>, f: T -> K)
  {
    forall i, j :: 0 <= i < j < |r| ==> f(r[i]) != f(r[j])
  }

  /** Distinct images make every element occur at most once. */
  lemma {:induction false} DistinctByCount<T, K>(r: seq<T>, f: T -> K, x: T)
    requires DistinctBy(r, f)
    ensures multiset(r)[x] <= 1
  {
    if r != [] {
      var n := |r| - 1;
      DistinctByCount(r[..n], f, x);
      assert r == r[..n] + [r[n]];
      if r[n] == x {
        forall k | 0 <= k < n
          ensures r[..n][k] != x
        {
          assert f(r[k]) != f(r[n]);
        }
      }
    }
  }

  /** Reordering keeps images distinct. */
  lemma PermutationKeepsDistinctBy<T, K>(a: seq<T>, b: seq<T>, f: T -> K)
    requires multiset(a) == multiset(b)
    requires DistinctBy(b, f)
    ensures DistinctBy(a, f)
  {
    forall i, j | 0 <= i < j < |a|
      ensures f(a[i]) != f(a[j])
    {
      if f(a[i]) == f(a[j]) {
        assert a[i] in multiset(b) && a[j] in multiset(b);
        var p :| 0 <= p < |b| && b[p] == a[i];
        var q :| 0 <= q < |b| && b[q] == a[j];
        assert p == q;
        DuplicateCount(a, i, j);
        DistinctByCount(b, f, a[i]);
      }
    }
  }
}

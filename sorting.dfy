/** The two collection built-ins the application leans on: the stable
    `Array.prototype.sort` with a comparator, and `[...new Set(xs)]`, which
    removes duplicates keeping first occurrences. */
module Sorting {

  ghost predicate Total<T(!new)>(le: (T, T) -> bool) {
    forall a, b :: le(a, b) || le(b, a)
  }

  ghost predicate Transitive<T(!new)>(le: (T, T) -> bool) {
    forall a, b, c :: le(a, b) && le(b, c) ==> le(a, c)
  }

  ghost predicate SortedBy<T>(s: seq<T>, le: (T, T) -> bool) {
    forall i, j :: 0 <= i < j < |s| ==> le(s[i], s[j])
  }

  /** `x` placed before the first element it may precede. */
  function Insert<T>(x: T, s: seq<T>, le: (T, T) -> bool): (r: seq<T>)
    ensures multiset(r) == multiset(s) + multiset{x}
    ensures |r| == |s| + 1
  {
    if s == [] then [x]
    else if le(x, s[0]) then [x] + s
    else
      assert s == [s[0]] + s[1..];
      [s[0]] + Insert(x, s[1..], le)
  }

  /** A stable sort: elements that compare equal keep their input order. */
  function SortBy<T>(s: seq<T>, le: (T, T) -> bool): (r: seq<T>)
    ensures multiset(r) == multiset(s)
    ensures |r| == |s|
  {
    if s == [] then []
    else
      assert s == [s[0]] + s[1..];
      Insert(s[0], SortBy(s[1..], le), le)
  }

  lemma {:induction false} InsertSorted<T(!new)>(x: T, s: seq<T>, le: (T, T) -> bool)
    requires Total(le) && Transitive(le)
    requires SortedBy(s, le)
    ensures SortedBy(Insert(x, s, le), le)
    decreases |s|
  {
    if s != [] && !le(x, s[0]) {
      InsertSorted(x, s[1..], le);
      var r := Insert(x, s[1..], le);
      assert le(s[0], x);
      forall k | 0 <= k < |r| ensures le(s[0], r[k]) {
        assert r[k] in multiset(r);
        assert r[k] in multiset(s[1..]) + multiset{x};
        if r[k] in multiset(s[1..]) {
          var m :| 0 <= m < |s[1..]| && s[1..][m] == r[k];
          assert s[1..][m] == s[m + 1];
        }
      }
    }
  }

  /** The sort's result is ordered by `le` (and, by the contract of `SortBy`,
      a permutation of its input). */
  lemma {:induction false} SortBySorted<T(!new)>(s: seq<T>, le: (T, T) -> bool)
    requires Total(le) && Transitive(le)
    ensures SortedBy(SortBy(s, le), le)
    decreases |s|
  {
    if s != [] {
      SortBySorted(s[1..], le);
      InsertSorted(s[0], SortBy(s[1..], le), le);
    }
  }

  // ---- [...new Set(xs)] ----

  /** The distinct elements of `xs` in order of first occurrence. */
  function Dedup<T(==,!new)>(xs: seq<T>): (r: seq<T>)
    ensures forall y :: y in r <==> y in xs
    ensures |r| <= |xs|
  {
    if xs == [] then []
    else
      var p := xs[..|xs| - 1];
      var prev := Dedup(p);
      var x := xs[|xs| - 1];
      assert xs == p + [x];
      assert forall y :: y in xs <==> y in p || y == x;
      if x in p then prev else prev + [x]
  }

  ghost predicate NoDuplicates<T>(r: seq<T>) {
    forall i, j :: 0 <= i < j < |r| ==> r[i] != r[j]
  }

  /** Index of the first occurrence of `x` in `xs`. */
  function FirstIndex<T(==)>(xs: seq<T>, x: T): (k: nat)
    requires x in xs
    ensures k < |xs| && xs[k] == x
    ensures forall i :: 0 <= i < k ==> xs[i] != x
  {
    if xs[0] == x then 0 else 1 + FirstIndex(xs[1..], x)
  }

  /** Index of the last occurrence of `x` in `xs`. */
  function LastIndex<T(==)>(xs: seq<T>, x: T): (k: nat)
    requires x in xs
    ensures k < |xs| && xs[k] == x
    ensures forall i :: k < i < |xs| ==> xs[i] != x
  {
    if xs[|xs| - 1] == x then |xs| - 1
    else
      assert x in xs[..|xs| - 1] by {
        var j :| 0 <= j < |xs| && xs[j] == x;
        assert xs[..|xs| - 1][j] == x;
      }
      LastIndex(xs[..|xs| - 1], x)
  }

  lemma FirstIndexPrefix<T>(xs: seq<T>, n: nat, x: T)
    requires n <= |xs| && x in xs[..n]
    ensures FirstIndex(xs[..n], x) == FirstIndex(xs, x)
  {
    var k := FirstIndex(xs[..n], x);
    assert xs[k] == xs[..n][k];
    var k' := FirstIndex(xs, x);
    assert k' <= k;
    assert xs[..n][k'] == xs[k'];
  }

  /** `Dedup` keeps every distinct element once, in the order of first
      occurrences in its input. */
  lemma {:induction false} DedupSpec<T(!new)>(xs: seq<T>)
    ensures NoDuplicates(Dedup(xs))
    ensures forall i, j :: 0 <= i < j < |Dedup(xs)| ==>
      FirstIndex(xs, Dedup(xs)[i]) < FirstIndex(xs, Dedup(xs)[j])
    decreases |xs|
  {
    if xs != [] {
      var p := xs[..|xs| - 1];
      var x := xs[|xs| - 1];
      DedupSpec(p);
      var r := Dedup(xs);
      var prev := Dedup(p);
      assert xs == p + [x];
      forall y | y in prev ensures FirstIndex(xs, y) == FirstIndex(p, y) {
        assert y in p;
        FirstIndexPrefix(xs, |xs| - 1, y);
      }
      if x !in p {
        assert r == prev + [x];
        assert FirstIndex(xs, x) == |xs| - 1 by {
          assert forall i :: 0 <= i < |p| ==> xs[i] == p[i] != x;
        }
        forall i, j | 0 <= i < j < |r| ensures FirstIndex(xs, r[i]) < FirstIndex(xs, r[j]) {
          if j < |prev| {
            assert r[i] == prev[i] && r[j] == prev[j];
          } else {
            assert r[i] == prev[i];
          }
        }
      }
    }
  }

  // ---- sums over a sequence ----

  function SumOf<T>(s: seq<T>, f: T -> int): int {
    if s == [] then 0 else f(s[0]) + SumOf(s[1..], f)
  }

  lemma {:induction false} SumOfConcat<T>(a: seq<T>, b: seq<T>, f: T -> int)
    ensures SumOf(a + b, f) == SumOf(a, f) + SumOf(b, f)
    decreases |a|
  {
    if a == [] {
      assert a + b == b;
    } else {
      assert (a + b)[1..] == a[1..] + b;
      SumOfConcat(a[1..], b, f);
    }
  }

  /** The sum by its last term. */
  lemma SumOfSnoc<T>(s: seq<T>, f: T -> int)
    requires s != []
    ensures SumOf(s, f) == SumOf(s[..|s| - 1], f) + f(s[|s| - 1])
  {
    var n := |s| - 1;
    assert s == s[..n] + [s[n]];
    SumOfConcat(s[..n], [s[n]], f);
    assert SumOf([s[n]], f) == f(s[n]) by { assert [s[n]][1..] == []; }
  }

  lemma SumOfRemove<T>(b: seq<T>, j: nat, f: T -> int)
    requires j < |b|
    ensures SumOf(b, f) == f(b[j]) + SumOf(b[..j] + b[j + 1..], f)
  {
    var l, x, r := b[..j], b[j], b[j + 1..];
    assert b == (l + [x]) + r;
    SumOfConcat(l + [x], r, f);
    SumOfConcat(l, [x], f);
    SumOfConcat(l, r, f);
    SumOfSingle(x, f);
  }

  lemma SumOfSingle<T>(x: T, f: T -> int)
    ensures SumOf([x], f) == f(x)
  {
    assert [x][1..] == [];
  }

  lemma MultisetRemove<T>(b: seq<T>, j: nat)
    requires j < |b|
    ensures multiset(b[..j] + b[j + 1..]) == multiset(b) - multiset{b[j]}
  {
    assert b == b[..j] + [b[j]] + b[j + 1..];
  }

  /** A sum does not depend on the order of its terms. */
  lemma {:induction false} SumOfPermutation<T>(a: seq<T>, b: seq<T>, f: T -> int)
    requires multiset(a) == multiset(b)
    ensures SumOf(a, f) == SumOf(b, f)
    decreases |a|
  {
    if a == [] {
      assert |b| == |multiset(b)| == 0;
    } else {
      var x := a[0];
      assert x in multiset(b);
      var j :| 0 <= j < |b| && b[j] == x;
      MultisetRemove(b, j);
      assert a == [x] + a[1..];
      assert multiset(a[1..]) == multiset(a) - multiset{x};
      SumOfPermutation(a[1..], b[..j] + b[j + 1..], f);
      SumOfRemove(b, j, f);
    }
  }

  /** Raising one term by one raises the sum by the number of times the term
      occurs. */
  lemma {:induction false} SumOfBump<T>(d: seq<T>, f: T -> int, g: T -> int, x: T)
    requires forall k :: k != x ==> g(k) == f(k)
    requires g(x) == f(x) + 1
    ensures SumOf(d, g) == SumOf(d, f) + multiset(d)[x]
    decreases |d|
  {
    if d != [] {
      assert d == [d[0]] + d[1..];
      SumOfBump(d[1..], f, g, x);
    }
  }

  lemma {:induction false} SumOfPointwise<T>(d: seq<T>, f: T -> int, g: T -> int)
    requires forall k :: k in d ==> f(k) == g(k)
    ensures SumOf(d, f) == SumOf(d, g)
    decreases |d|
  {
    if d != [] {
      assert forall k :: k in d[1..] ==> k in d;
      SumOfPointwise(d[1..], f, g);
    }
  }

  lemma {:induction false} SumOfAdd<T>(d: seq<T>, f: T -> int, g: T -> int, h: T -> int)
    requires forall k :: h(k) == f(k) + g(k)
    ensures SumOf(d, h) == SumOf(d, f) + SumOf(d, g)
    decreases |d|
  {
    if d != [] {
      SumOfAdd(d[1..], f, g, h);
    }
  }

  /** Number of elements of `d` satisfying `m`. */
  function CountWhere<T>(d: seq<T>, m: T -> bool): nat {
    if d == [] then 0 else (if m(d[0]) then 1 else 0) + CountWhere(d[1..], m)
  }

  /** Summing a constant over the elements that satisfy `m`. */
  lemma {:induction false} SumOfIndicator<T>(d: seq<T>, m: T -> bool, c: int, h: T -> int)
    requires forall k :: h(k) == if m(k) then c else 0
    ensures SumOf(d, h) == c * CountWhere(d, m)
    decreases |d|
  {
    if d != [] {
      SumOfIndicator(d[1..], m, c, h);
    }
  }

  lemma {:induction false} NoDuplicatesCount<T>(d: seq<T>, x: T)
    requires NoDuplicates(d)
    ensures multiset(d)[x] == if x in d then 1 else 0
    decreases |d|
  {
    if d != [] {
      assert d == [d[0]] + d[1..];
      NoDuplicatesCount(d[1..], x);
      if x == d[0] {
        assert x !in d[1..] by {
          forall j | 0 <= j < |d[1..]| ensures d[1..][j] != x {
            assert d[j + 1] != d[0];
          }
        }
      }
    }
  }

  lemma {:induction false} CountWhereNone<T>(d: seq<T>, m: T -> bool)
    requires forall y :: y in d ==> !m(y)
    ensures CountWhere(d, m) == 0
    decreases |d|
  {
    if d != [] {
      assert forall y :: y in d[1..] ==> y in d;
      CountWhereNone(d[1..], m);
    }
  }

  /** Without duplicates, an element that is the only one satisfying `m` is
      counted once. */
  lemma {:induction false} CountWhereUnique<T>(d: seq<T>, m: T -> bool, x: T)
    requires NoDuplicates(d) && x in d && m(x)
    requires forall y :: y in d && m(y) ==> y == x
    ensures CountWhere(d, m) == 1
    decreases |d|
  {
    assert forall y :: y in d[1..] ==> y in d;
    assert NoDuplicates(d[1..]) by {
      forall i, j | 0 <= i < j < |d[1..]| ensures d[1..][i] != d[1..][j] {
        assert d[i + 1] != d[j + 1];
      }
    }
    if d[0] == x {
      assert x !in d[1..] by {
        forall j | 0 <= j < |d[1..]| ensures d[1..][j] != x {
          assert d[j + 1] != d[0];
        }
      }
      CountWhereNone(d[1..], m);
    } else {
      CountWhereUnique(d[1..], m, x);
    }
  }
}

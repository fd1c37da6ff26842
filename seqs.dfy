/** List operations the TypeScript code takes from `Array.prototype`:
    `filter`, `find`, `flatMap`-by-`concat`, distinct values through a `Set`,
    and a stable `sort` by a numeric key. */
module Seqs {
  import opened Wrappers

  /** `xs.filter(p)`. */
  function Filter<T>(xs: seq<T>, p: T -> bool): (r: seq<T>)
    ensures |r| <= |xs|
    ensures forall i :: 0 <= i < |r| ==> r[i] in xs && p(r[i])
    ensures forall i :: 0 <= i < |xs| && p(xs[i]) ==> xs[i] in r
  {
    if xs == [] then []
    else if p(xs[0]) then [xs[0]] + Filter(xs[1..], p)
    else Filter(xs[1..], p)
  }

  /** a is an order-preserving subsequence of b. */
  predicate IsSubsequence<T(==)>(a: seq<T>, b: seq<T>)
    decreases |b|
  {
    if a == [] then true
    else if b == [] then false
    else if a[0] == b[0] then IsSubsequence(a[1..], b[1..])
    else IsSubsequence(a, b[1..])
  }

  lemma {:induction false} IsSubsequenceOfTail<T>(a: seq<T>, b: seq<T>)
    requires b != [] && IsSubsequence(a, b[1..])
    ensures IsSubsequence(a, b)
    decreases |a| + |b|
  {
    if a != [] && a[0] == b[0] {
      // a[0] matches b[0]: a[1..] must then be a subsequence of b[1..]
      IsSubsequenceDropHead(a, b[1..]);
    }
  }

  lemma {:induction false} IsSubsequenceDropHead<T>(a: seq<T>, b: seq<T>)
    requires a != [] && IsSubsequence(a, b)
    ensures IsSubsequence(a[1..], b)
    decreases |a| + |b|
  {
    if a[0] == b[0] {
      IsSubsequenceOfTail(a[1..], b);
    } else {
      IsSubsequenceDropHead(a, b[1..]);
      IsSubsequenceOfTail(a[1..], b);
    }
  }

  lemma {:induction false} SubsequenceRefl<T>(xs: seq<T>)
    ensures IsSubsequence(xs, xs)
  {
    if xs != [] {
      SubsequenceRefl(xs[1..]);
    }
  }

  lemma {:induction false} SubsequenceTrans<T>(a: seq<T>, b: seq<T>, c: seq<T>)
    requires IsSubsequence(a, b) && IsSubsequence(b, c)
    ensures IsSubsequence(a, c)
    decreases |c|
  {
    if a != [] && c != [] {
      if b[0] == c[0] {
        if a[0] == b[0] {
          SubsequenceTrans(a[1..], b[1..], c[1..]);
        } else {
          SubsequenceTrans(a, b[1..], c[1..]);
          IsSubsequenceOfTail(a, c);
        }
      } else {
        SubsequenceTrans(a, b, c[1..]);
        IsSubsequenceOfTail(a, c);
      }
    }
  }

  lemma {:induction false} FilterIsSubsequence<T>(xs: seq<T>, p: T -> bool)
    ensures IsSubsequence(Filter(xs, p), xs)
  {
    if xs != [] {
      FilterIsSubsequence(xs[1..], p);
      if !p(xs[0]) {
        IsSubsequenceOfTail(Filter(xs, p), xs);
      }
    }
  }

  /** The filter keeps every element satisfying the predicate, so only those
      elements' count changes. */
  lemma {:induction false} FilterCounts<T>(xs: seq<T>, p: T -> bool)
    ensures forall x :: multiset(Filter(xs, p))[x] == if p(x) then multiset(xs)[x] else 0
  {
    if xs != [] {
      FilterCounts(xs[1..], p);
      assert xs == [xs[0]] + xs[1..];
    }
  }

  /** `xs.find(p)`: the first element satisfying p, or undefined. */
  function FindFirst<T>(xs: seq<T>, p: T -> bool): (r: Option<T>)
    ensures r.Some? ==> r.value in xs && p(r.value)
    ensures r.None? <==> forall i :: 0 <= i < |xs| ==> !p(xs[i])
  {
    if xs == [] then None
    else if p(xs[0]) then Some(xs[0])
    else FindFirst(xs[1..], p)
  }

  lemma {:induction false} FindFirstIsFirst<T>(xs: seq<T>, p: T -> bool, k: nat)
    requires k < |xs| && p(xs[k])
    requires forall j :: 0 <= j < k ==> !p(xs[j])
    ensures FindFirst(xs, p) == Some(xs[k])
  {
    if k > 0 {
      FindFirstIsFirst(xs[1..], p, k - 1);
    }
  }

  /** `Array.from(new Set(xs))`: first occurrences, in order. */
  function Distinct<T(==)>(xs: seq<T>): seq<T> {
    DistinctAfter(xs, [])
  }

  function DistinctAfter<T(==)>(xs: seq<T>, seen: seq<T>): (r: seq<T>)
    ensures forall i :: 0 <= i < |r| ==> r[i] in xs && r[i] !in seen
  {
    if xs == [] then []
    else if xs[0] in seen then DistinctAfter(xs[1..], seen)
    else [xs[0]] + DistinctAfter(xs[1..], seen + [xs[0]])
  }

  predicate NoDuplicates<T(==)>(xs: seq<T>) {
    forall i, j :: 0 <= i < j < |xs| ==> xs[i] != xs[j]
  }

  lemma {:induction false} DistinctAfterProperties<T>(xs: seq<T>, seen: seq<T>)
    ensures NoDuplicates(DistinctAfter(xs, seen))
    ensures forall x :: x in xs && x !in seen ==> x in DistinctAfter(xs, seen)
    ensures IsSubsequence(DistinctAfter(xs, seen), xs)
  {
    if xs != [] {
      if xs[0] in seen {
        DistinctAfterProperties(xs[1..], seen);
        IsSubsequenceOfTail(DistinctAfter(xs, seen), xs);
      } else {
        DistinctAfterProperties(xs[1..], seen + [xs[0]]);
        var rest := DistinctAfter(xs[1..], seen + [xs[0]]);
        assert xs[0] !in rest;
        assert DistinctAfter(xs, seen) == [xs[0]] + rest;
        assert forall x :: x in xs && x !in seen ==> x == xs[0] || x in xs[1..];
      }
    }
  }

  /** The distinct values hold each value of xs exactly once, in the order of
      their first occurrence. */
  lemma DistinctProperties<T>(xs: seq<T>)
    ensures NoDuplicates(Distinct(xs))
    ensures forall x :: x in Distinct(xs) <==> x in xs
    ensures IsSubsequence(Distinct(xs), xs)
  {
    DistinctAfterProperties(xs, []);
  }

  lemma {:induction false} DistinctAfterPrefix<T>(xs: seq<T>, seen: seq<T>, k: nat)
    requires k <= |xs|
    ensures DistinctAfter(xs[..k], seen) <= DistinctAfter(xs, seen)
  {
    if k > 0 {
      assert xs[..k][0] == xs[0] && xs[..k][1..] == xs[1..][..k - 1];
      if xs[0] in seen {
        DistinctAfterPrefix(xs[1..], seen, k - 1);
      } else {
        DistinctAfterPrefix(xs[1..], seen + [xs[0]], k - 1);
      }
    }
  }

  /** First-occurrence order: the distinct values of a prefix of xs are a
      prefix of the distinct values of xs, so a value that occurs earlier in
      xs comes earlier in Distinct(xs). */
  lemma DistinctPrefix<T>(xs: seq<T>, k: nat)
    requires k <= |xs|
    ensures Distinct(xs[..k]) <= Distinct(xs)
  {
    DistinctAfterPrefix(xs, [], k);
  }

  /** `xs.reduce((acc, x) => acc.concat(f(x)), [])`. */
  function FlatMap<T, U>(xs: seq<T>, f: T -> seq<U>): seq<U> {
    if xs == [] then [] else f(xs[0]) + FlatMap(xs[1..], f)
  }

  /** Left fold with concat, as the source's reduce computes it. */
  function ConcatFold<T, U>(xs: seq<T>, f: T -> seq<U>, acc: seq<U>): (r: seq<U>)
    ensures r == acc + FlatMap(xs, f)
  {
    if xs == [] then acc else ConcatFold(xs[1..], f, acc + f(xs[0]))
  }

  /** The total length of the pieces f(x). */
  function SumLengths<T, U>(xs: seq<T>, f: T -> seq<U>): nat {
    if xs == [] then 0 else |f(xs[0])| + SumLengths(xs[1..], f)
  }

  lemma {:induction false} FlatMapLength<T, U>(xs: seq<T>, f: T -> seq<U>)
    ensures |FlatMap(xs, f)| == SumLengths(xs, f)
  {
    if xs != [] {
      FlatMapLength(xs[1..], f);
    }
  }

  /** Element j of piece i sits after the pieces of the first i elements. */
  lemma {:induction false} FlatMapAt<T, U>(xs: seq<T>, f: T -> seq<U>, i: nat, j: nat)
    requires i < |xs| && j < |f(xs[i])|
    ensures SumLengths(xs[..i], f) + j < |FlatMap(xs, f)|
    ensures FlatMap(xs, f)[SumLengths(xs[..i], f) + j] == f(xs[i])[j]
  {
    FlatMapLength(xs, f);
    FlatMapLength(xs[1..], f);
    if i > 0 {
      FlatMapAt(xs[1..], f, i - 1, j);
      assert xs[..i][1..] == xs[1..][..i - 1];
      assert SumLengths(xs[..i], f) == |f(xs[0])| + SumLengths(xs[1..][..i - 1], f);
    }
  }

  predicate SortedBy<T>(xs: seq<T>, key: T -> int) {
    forall i, j :: 0 <= i < j < |xs| ==> key(xs[i]) <= key(xs[j])
  }

  /** Insert x after every element whose key is at most key(x). */
  function Insert<T>(x: T, s: seq<T>, key: T -> int): (r: seq<T>)
    ensures multiset(r) == multiset(s) + multiset{x}
    ensures |r| == |s| + 1
  {
    if s == [] then [x]
    else if key(s[0]) > key(x) then [x] + s
    else
      assert s == [s[0]] + s[1..];
      [s[0]] + Insert(x, s[1..], key)
  }

  /** Array.prototype.sort with `(a, b) => key(a) - key(b)`: a stable sort. */
  function SortBy<T>(xs: seq<T>, key: T -> int): (r: seq<T>)
    ensures multiset(r) == multiset(xs)
    ensures |r| == |xs|
  {
    if xs == [] then []
    else
      assert xs == xs[..|xs| - 1] + [xs[|xs| - 1]];
      Insert(xs[|xs| - 1], SortBy(xs[..|xs| - 1], key), key)
  }

  lemma {:induction false} InsertSorted<T>(x: T, s: seq<T>, key: T -> int)
    requires SortedBy(s, key)
    ensures SortedBy(Insert(x, s, key), key)
  {
    if s != [] && key(s[0]) <= key(x) {
      InsertSorted(x, s[1..], key);
      var r := Insert(x, s[1..], key);
      forall j | 0 <= j < |r| ensures key(s[0]) <= key(r[j]) {
        assert r[j] in multiset(r);
        assert r[j] == x || r[j] in multiset(s[1..]);
        if r[j] != x {
          var k :| 0 <= k < |s[1..]| && s[1..][k] == r[j];
          assert s[k + 1] == r[j];
        }
      }
      assert Insert(x, s, key) == [s[0]] + r;
    }
  }

  /** The sort leaves its input's keys non-decreasing. */
  lemma {:induction false} SortBySorted<T>(xs: seq<T>, key: T -> int)
    ensures SortedBy(SortBy(xs, key), key)
  {
    if xs != [] {
      SortBySorted(xs[..|xs| - 1], key);
      InsertSorted(xs[|xs| - 1], SortBy(xs[..|xs| - 1], key), key);
    }
  }

  function Sum(xs: seq<int>): int {
    if xs == [] then 0 else xs[0] + Sum(xs[1..])
  }
}

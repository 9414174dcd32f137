/** Array operations the pages use: `filter`, a summing `reduce` and `slice`,
    with the facts about them that the page-level proofs rely on. */
module Seqs {

  /** `s.filter(f)`. */
  function Filter<T>(f: T -> bool, s: seq<T>): (r: seq<T>)
    ensures |r| <= |s|
    ensures forall i :: 0 <= i < |r| ==> r[i] in s && f(r[i])
  {
    if s == [] then [] else (if f(s[0]) then [s[0]] else []) + Filter(f, s[1..])
  }

  /** Every element that passes the filter is kept. */
  lemma {:induction false} FilterKeepsPassing<T>(f: T -> bool, s: seq<T>)
    ensures forall i :: 0 <= i < |s| && f(s[i]) ==> s[i] in Filter(f, s)
    decreases |s|
  {
    if s != [] {
      FilterKeepsPassing(f, s[1..]);
      assert forall i :: 1 <= i < |s| ==> s[i] == s[1..][i - 1];
    }
  }

  /** An element of the list is in the filtered list exactly when it passes the filter. */
  lemma {:induction false} FilterMembership<T>(f: T -> bool, s: seq<T>)
    ensures forall i :: 0 <= i < |s| ==> (s[i] in Filter(f, s) <==> f(s[i]))
  {
    var r := Filter(f, s);
    FilterKeepsPassing(f, s);
    forall i | 0 <= i < |s| && s[i] in r
      ensures f(s[i])
    {
      var k :| 0 <= k < |r| && r[k] == s[i];
    }
  }

  /** The filtered list holds every passing element as many times as the list does,
      and no other element. */
  lemma {:induction false} FilterMultiplicity<T>(f: T -> bool, s: seq<T>)
    ensures forall x :: multiset(Filter(f, s))[x] == if f(x) then multiset(s)[x] else 0
    decreases |s|
  {
    if s != [] {
      FilterMultiplicity(f, s[1..]);
      var head := if f(s[0]) then [s[0]] else [];
      assert s == [s[0]] + s[1..];
      assert multiset(s) == multiset([s[0]]) + multiset(s[1..]);
      assert Filter(f, s) == head + Filter(f, s[1..]);
      assert multiset(Filter(f, s)) == multiset(head) + multiset(Filter(f, s[1..]));
    }
  }

  /** The complement of a predicate. */
  function Not<T>(f: T -> bool): T -> bool {
    x => !f(x)
  }

  /** `r` is an order-preserving sub-list of `s`. */
  predicate IsSubsequence<T(==)>(r: seq<T>, s: seq<T>)
    decreases |s|
  {
    if r == [] then true
    else if s == [] then false
    else if r[0] == s[0] then IsSubsequence(r[1..], s[1..])
    else IsSubsequence(r, s[1..])
  }

  lemma {:induction false} SubsequenceOfSelf<T>(s: seq<T>)
    ensures IsSubsequence(s, s)
    decreases |s|
  {
    if s != [] {
      SubsequenceOfSelf(s[1..]);
    }
  }

  lemma {:induction false} FilterIsSubsequence<T>(f: T -> bool, s: seq<T>)
    ensures IsSubsequence(Filter(f, s), s)
    decreases |s|
  {
    if s != [] {
      FilterIsSubsequence(f, s[1..]);
      var rest := Filter(f, s[1..]);
      if f(s[0]) {
        assert Filter(f, s) == [s[0]] + rest;
        assert ([s[0]] + rest)[1..] == rest;
      } else {
        assert Filter(f, s) == rest;
      }
    }
  }

  /** Filtering distributes over concatenation: the kept elements stay in their order. */
  lemma {:induction false} FilterConcat<T>(f: T -> bool, a: seq<T>, b: seq<T>)
    ensures Filter(f, a + b) == Filter(f, a) + Filter(f, b)
    decreases |a|
  {
    if a != [] {
      assert (a + b)[0] == a[0];
      assert (a + b)[1..] == a[1..] + b;
      FilterConcat(f, a[1..], b);
    } else {
      assert a + b == b;
    }
  }

  /** A filter that every element passes changes nothing. */
  lemma {:induction false} FilterKeepsAll<T>(f: T -> bool, s: seq<T>)
    requires forall i :: 0 <= i < |s| ==> f(s[i])
    ensures Filter(f, s) == s
    decreases |s|
  {
    if s != [] {
      assert forall i :: 0 <= i < |s[1..]| ==> s[1..][i] == s[i + 1];
      FilterKeepsAll(f, s[1..]);
    }
  }

  /** A filter that no element passes yields the empty list. */
  lemma {:induction false} FilterKeepsNone<T>(f: T -> bool, s: seq<T>)
    requires forall i :: 0 <= i < |s| ==> !f(s[i])
    ensures Filter(f, s) == []
    decreases |s|
  {
    if s != [] {
      assert forall i :: 0 <= i < |s[1..]| ==> s[1..][i] == s[i + 1];
      FilterKeepsNone(f, s[1..]);
    }
  }

  /** Filtering by two predicates that agree everywhere gives the same list. */
  lemma {:induction false} FilterExt<T>(f: T -> bool, g: T -> bool, s: seq<T>)
    requires forall x :: f(x) == g(x)
    ensures Filter(f, s) == Filter(g, s)
    decreases |s|
  {
    if s != [] {
      FilterExt(f, g, s[1..]);
    }
  }

  /** Two disjoint filters together keep at most the whole list, and exactly the whole
      list when every element passes one of them. */
  lemma {:induction false} FilterDisjointCount<T>(f: T -> bool, g: T -> bool, s: seq<T>)
    requires forall x :: !(f(x) && g(x))
    ensures |Filter(f, s)| + |Filter(g, s)| <= |s|
    ensures |Filter(f, s)| + |Filter(g, s)| == |s| <==> forall x :: x in s ==> f(x) || g(x)
    decreases |s|
  {
    if s != [] {
      FilterDisjointCount(f, g, s[1..]);
      assert forall x :: x in s <==> x == s[0] || x in s[1..];
    }
  }

  /** `s.reduce((sum, x) => sum + f(x), 0)`; integer addition makes the fold order irrelevant. */
  function SumOf<T>(f: T -> int, s: seq<T>): int
    decreases |s|
  {
    if s == [] then 0 else f(s[0]) + SumOf(f, s[1..])
  }

  lemma {:induction false} SumConcat<T>(f: T -> int, a: seq<T>, b: seq<T>)
    ensures SumOf(f, a + b) == SumOf(f, a) + SumOf(f, b)
    decreases |a|
  {
    if a != [] {
      assert (a + b)[0] == a[0];
      assert (a + b)[1..] == a[1..] + b;
      SumConcat(f, a[1..], b);
    } else {
      assert a + b == b;
    }
  }

  /** Summing over a filtered list is summing, over the whole list, a term that is zero
      on the elements the filter drops. */
  lemma {:induction false} SumFilter<T>(f: T -> int, p: T -> bool, g: T -> int, s: seq<T>)
    requires forall x :: g(x) == if p(x) then f(x) else 0
    ensures SumOf(f, Filter(p, s)) == SumOf(g, s)
    decreases |s|
  {
    if s != [] {
      SumFilter(f, p, g, s[1..]);
      var rest := Filter(p, s[1..]);
      if p(s[0]) {
        assert Filter(p, s) == [s[0]] + rest;
        assert ([s[0]] + rest)[1..] == rest;
      } else {
        assert Filter(p, s) == rest;
      }
    }
  }

  /** A term that is the sum of two terms sums to the sum of their sums. */
  lemma {:induction false} SumAdd<T>(f: T -> int, g: T -> int, h: T -> int, s: seq<T>)
    requires forall x :: h(x) == f(x) + g(x)
    ensures SumOf(h, s) == SumOf(f, s) + SumOf(g, s)
    decreases |s|
  {
    if s != [] {
      SumAdd(f, g, h, s[1..]);
    }
  }

  /** Equal terms position by position give equal sums. */
  lemma {:induction false} SumPointwise<T>(f: T -> int, a: seq<T>, b: seq<T>)
    requires |a| == |b|
    requires forall i :: 0 <= i < |a| ==> f(a[i]) == f(b[i])
    ensures SumOf(f, a) == SumOf(f, b)
    decreases |a|
  {
    if a != [] {
      SumPointwise(f, a[1..], b[1..]);
    }
  }

  /** A sum whose only nonzero term can be at position k is that term. */
  lemma {:induction false} SumSingle<T>(f: T -> int, s: seq<T>, k: nat)
    requires k < |s|
    requires forall i :: 0 <= i < |s| && i != k ==> f(s[i]) == 0
    ensures SumOf(f, s) == f(s[k])
    decreases |s|
  {
    if k == 0 {
      SumZero(f, s[1..]);
    } else {
      SumSingle(f, s[1..], k - 1);
    }
  }

  lemma {:induction false} SumOfPair<T>(f: T -> int, a: T, b: T)
    ensures SumOf(f, [a, b]) == f(a) + f(b)
  {
    assert [a, b][1..] == [b];
    assert [b][1..] == [];
    assert SumOf(f, [b]) == f(b) + SumOf(f, []);
  }

  lemma {:induction false} SumZero<T>(f: T -> int, s: seq<T>)
    requires forall i :: 0 <= i < |s| ==> f(s[i]) == 0
    ensures SumOf(f, s) == 0
    decreases |s|
  {
    if s != [] {
      SumZero(f, s[1..]);
    }
  }

  /** An index of `Array.prototype.slice`: a negative index counts from the end,
      and the result is clamped to `[0, len]`. */
  function SliceIndex(i: int, len: nat): (r: nat)
    ensures r <= len
    ensures 0 <= i <= len ==> r == i
    ensures i > len ==> r == len
  {
    if i < 0 then (if len + i < 0 then 0 else len + i) else if i > len then len else i
  }

  /** `s.slice(start, end)`. */
  function Slice<T>(s: seq<T>, start: int, end: int): (r: seq<T>)
    ensures |r| <= |s|
    ensures SliceIndex(start, |s|) < SliceIndex(end, |s|) ==>
              r == s[SliceIndex(start, |s|)..SliceIndex(end, |s|)]
    ensures SliceIndex(end, |s|) <= SliceIndex(start, |s|) ==> r == []
  {
    var a, b := SliceIndex(start, |s|), SliceIndex(end, |s|);
    if a < b then s[a..b] else []
  }

  /** `list.slice((page - 1) * size, page * size)`: the items shown on a 1-based page. */
  function Page<T>(s: seq<T>, page: int, size: int): seq<T> {
    Slice(s, (page - 1) * size, page * size)
  }

  /** A page holds at most `size` items: the ones from index `(page - 1) * size` on,
      as many as remain. */
  lemma {:induction false} PageContents<T>(s: seq<T>, page: int, size: int)
    requires page >= 1 && size > 0
    ensures var start := (page - 1) * size;
      && |Page(s, page, size)| == (if start >= |s| then 0 else if |s| - start < size then |s| - start else size)
      && forall i :: 0 <= i < |Page(s, page, size)| ==> Page(s, page, size)[i] == s[start + i]
  {
    var start := (page - 1) * size;
    assert page * size == start + size;
    assert start >= 0;
  }

  /** Every item is shown on exactly one page: item `i` is at position `i % size` of page
      `i / size + 1`, and on no other page. */
  lemma {:induction false} PageLocates<T>(s: seq<T>, size: int, i: nat)
    requires size > 0 && i < |s|
    ensures var p := i / size + 1;
      && i % size < |Page(s, p, size)|
      && Page(s, p, size)[i % size] == s[i]
    ensures forall q :: q >= 1 && q != i / size + 1 ==> !((q - 1) * size <= i < q * size)
  {
    var p := i / size + 1;
    assert (p - 1) * size + i % size == i;
    PageContents(s, p, size);
    forall q | q >= 1 && q != p
      ensures !((q - 1) * size <= i < q * size)
    {
      if (q - 1) * size <= i < q * size {
        DivUnique(i, size, q - 1);
      }
    }
  }

  lemma {:induction false} DivUnique(i: nat, size: int, k: int)
    requires size > 0 && k >= 0 && k * size <= i < (k + 1) * size
    ensures i / size == k
  {
    var d, m := i / size, i % size;
    assert i == d * size + m && 0 <= m < size;
    if d < k {
      MulMonotonic(d + 1, k, size);
      assert false;
    } else if d > k {
      MulMonotonic(k + 1, d, size);
      assert false;
    }
  }

  lemma {:induction false} MulMonotonic(a: int, b: int, c: int)
    requires a <= b && c >= 0
    ensures a * c <= b * c
  {
    assert b * c - a * c == (b - a) * c;
  }
}

/** Order-preserving views of sequences: the `filter` and `slice` of JavaScript arrays and of query sets. */
module Seqs {

  function Min(a: int, b: int): int { if a <= b then a else b }

  /** `r` can be obtained from `s` by deleting elements, without reordering the rest. */
  ghost predicate IsSubsequence<T>(r: seq<T>, s: seq<T>)
    decreases |s|
  {
    r == [] || (s != [] && ((r[0] == s[0] && IsSubsequence(r[1..], s[1..])) || IsSubsequence(r, s[1..])))
  }

  /** Every sequence is a subsequence of itself. */
  lemma {:induction false} SubsequenceOfItself<T>(s: seq<T>)
    ensures IsSubsequence(s, s)
    decreases |s|
  {
    if s != [] {
      SubsequenceOfItself(s[1..]);
    }
  }

  /** The elements of `s` that satisfy `p`, in their original order. */
  function Filter<T(!new)>(s: seq<T>, p: T -> bool): (r: seq<T>)
    ensures |r| <= |s|
    ensures forall x :: x in r <==> x in s && p(x)
    ensures IsSubsequence(r, s)
  {
    if s == [] then []
    else
      var rest := Filter(s[1..], p);
      assert s == [s[0]] + s[1..];
      if p(s[0]) then [s[0]] + rest else rest
  }

  /** Filtering keeps every occurrence of a satisfying value and none of the others. */
  lemma {:induction false} FilterCounts<T(!new)>(s: seq<T>, p: T -> bool)
    ensures forall x :: multiset(Filter(s, p))[x] == if p(x) then multiset(s)[x] else 0
  {
    if s != [] {
      FilterCounts(s[1..], p);
      assert s == [s[0]] + s[1..];
    }
  }

  /** Filtering by a predicate no element satisfies gives the empty sequence. */
  lemma {:induction false} FilterKeepsNone<T(!new)>(s: seq<T>, p: T -> bool)
    requires forall x :: x in s ==> !p(x)
    ensures Filter(s, p) == []
  {
    if s != [] {
      assert s[0] in s;
      FilterKeepsNone(s[1..], p);
    }
  }

  /** Filtering by a predicate every element satisfies gives back the whole sequence. */
  lemma {:induction false} FilterKeepsAll<T(!new)>(s: seq<T>, p: T -> bool)
    requires forall x :: x in s ==> p(x)
    ensures Filter(s, p) == s
  {
    if s != [] {
      FilterKeepsAll(s[1..], p);
    }
  }

  /** Filtering drops the first element when it alone fails the predicate. */
  lemma FilterDropsHead<T(!new)>(s: seq<T>, p: T -> bool)
    requires s != [] && !p(s[0])
    requires forall j :: 1 <= j < |s| ==> p(s[j])
    ensures Filter(s, p) == s[1..]
  {
    var tail := s[1..];
    assert Filter(s, p) == Filter(tail, p);
    forall x | x in tail ensures p(x) {
      var j :| 0 <= j < |tail| && tail[j] == x;
      assert s[j + 1] == x;
    }
    FilterKeepsAll(tail, p);
  }

  /** When exactly one position fails the predicate, filtering is the same as cutting that position out. */
  lemma {:induction false} FilterRemovesAt<T(!new)>(s: seq<T>, p: T -> bool, i: nat)
    requires i < |s| && !p(s[i])
    requires forall j :: 0 <= j < |s| && j != i ==> p(s[j])
    ensures Filter(s, p) == s[..i] + s[i + 1..]
  {
    if i == 0 {
      FilterDropsHead(s, p);
      assert s[..i] + s[i + 1..] == s[1..];
    } else {
      var tail := s[1..];
      assert Filter(s, p) == [s[0]] + Filter(tail, p) by {
        assert p(s[0]);
      }
      assert forall j :: 0 <= j < |tail| && j != i - 1 ==> p(tail[j]) by {
        forall j | 0 <= j < |tail| && j != i - 1 ensures p(tail[j]) {
          assert tail[j] == s[j + 1];
        }
      }
      FilterRemovesAt(tail, p, i - 1);
      CutBehindHead(s, i);
    }
  }

  /** Cutting position `i > 0` out of `s` keeps the head and cuts position `i - 1` out of the tail. */
  lemma CutBehindHead<T>(s: seq<T>, i: nat)
    requires 0 < i < |s|
    ensures s[..i] + s[i + 1..] == [s[0]] + (s[1..][..i - 1] + s[1..][i..])
  {
    var l, r := s[..i] + s[i + 1..], [s[0]] + (s[1..][..i - 1] + s[1..][i..]);
    assert |l| == |r|;
    forall k | 0 <= k < |l| ensures l[k] == r[k] {
      if k == 0 {
      } else if k < i {
        assert l[k] == s[k] && r[k] == s[1..][k - 1];
      } else {
        assert l[k] == s[k + 1] && r[k] == s[1..][k];
      }
    }
  }

  /** Cutting position `i` out of `s` shifts every later element down by one. */
  lemma CutAt<T>(s: seq<T>, i: nat)
    requires i < |s|
    ensures |s[..i] + s[i + 1..]| == |s| - 1
    ensures forall k :: 0 <= k < i ==> (s[..i] + s[i + 1..])[k] == s[k]
    ensures forall k :: i < k < |s| ==> (s[..i] + s[i + 1..])[k - 1] == s[k]
  {
  }

  /** Filtering removes an element exactly when some element fails the predicate. */
  lemma {:induction false} FilterShrinks<T(!new)>(s: seq<T>, p: T -> bool)
    requires exists x :: x in s && !p(x)
    ensures |Filter(s, p)| < |s|
  {
    var x :| x in s && !p(x);
    if p(s[0]) {
      assert x in s[1..];
      FilterShrinks(s[1..], p);
    }
  }

  /** JavaScript's `s.slice(start, end)` and Python's `s[start:end]` on non-negative bounds: out-of-range
      bounds are clamped to the length, and an end before the start gives the empty sequence. */
  function Slice<T>(s: seq<T>, start: nat, end: nat): (r: seq<T>)
    ensures |r| == if start < end && start < |s| then Min(end, |s|) - start else 0
    ensures forall i :: 0 <= i < |r| ==> r[i] == s[start + i]
  {
    if start < end && start < |s| then s[start..Min(end, |s|)] else []
  }

  /** `s.slice(0, n)` and `s[:n]`: the first `n` elements, or all of them when there are fewer. */
  function Take<T>(s: seq<T>, n: nat): (r: seq<T>)
    ensures |r| == Min(n, |s|)
    ensures r == s[..|r|]
  {
    Slice(s, 0, n)
  }

  /** The first `a` elements followed by the window of `n` after them are the first `a + n` elements. */
  lemma TakeThenSlice<T>(s: seq<T>, a: nat, n: nat)
    ensures Take(s, a) + Slice(s, a, a + n) == Take(s, a + n)
  {
    if a < |s| && n > 0 {
      assert Take(s, a) == s[..a] && Slice(s, a, a + n) == s[a..Min(a + n, |s|)];
      assert s[..a] + s[a..Min(a + n, |s|)] == s[..Min(a + n, |s|)];
    }
  }

  /** A window is a contiguous piece of the sequence, hence an order-preserving subsequence of it. */
  lemma {:induction false} SliceIsSubsequence<T>(s: seq<T>, start: nat, end: nat)
    ensures IsSubsequence(Slice(s, start, end), s)
  {
    var r := Slice(s, start, end);
    if r != [] {
      if start == 0 {
        assert r[0] == s[0];
        SliceIsSubsequence(s[1..], 0, end - 1);
        assert Slice(s[1..], 0, end - 1) == r[1..];
      } else {
        SliceIsSubsequence(s[1..], start - 1, end - 1);
        assert Slice(s[1..], start - 1, end - 1) == r;
      }
    }
  }
}

/** Generic facts about sequences: order-preserving filtering and the
    (not necessarily contiguous) subsequence relation. */
module Sequences {

  /** `a` occurs in `b` in order, not necessarily contiguously. */
  predicate IsSubseq<T(==)>(a: seq<T>, b: seq<T>)
    decreases |b|
  {
    a == [] || (b != [] && ((a[0] == b[0] && IsSubseq(a[1..], b[1..])) || IsSubseq(a, b[1..])))
  }

  /** Dropping the head of the haystack keeps a subsequence one of the whole. */
  lemma SubseqOfTail<T>(a: seq<T>, b: seq<T>)
    requires b != [] && IsSubseq(a, b[1..])
    ensures IsSubseq(a, b)
  {
  }

  /** Dropping the head of the needle keeps it a subsequence. */
  lemma {:induction false} SubseqDropHead<T>(a: seq<T>, b: seq<T>)
    requires a != [] && IsSubseq(a, b)
    ensures IsSubseq(a[1..], b)
  {
    if a[0] == b[0] && IsSubseq(a[1..], b[1..]) {
      SubseqOfTail(a[1..], b);
    } else {
      if a[1..] != [] {
        SubseqDropHead(a, b[1..]);
      }
      SubseqOfTail(a[1..], b);
    }
  }

  /** Greedy matching: when `b[j]` is the first occurrence of `x` in `b`,
      `[x] + q` is a subsequence of `b` exactly when `q` is one of `b[j+1..]`. */
  lemma {:induction false} SubseqFirstOccurrence<T>(x: T, q: seq<T>, b: seq<T>, j: nat)
    requires j < |b| && b[j] == x
    requires forall m :: 0 <= m < j ==> b[m] != x
    ensures IsSubseq([x] + q, b) <==> IsSubseq(q, b[j + 1..])
  {
    var a := [x] + q;
    assert a[0] == x && a[1..] == q;
    if j == 0 {
      if IsSubseq(a, b[1..]) {
        SubseqDropHead(a, b[1..]);
      }
    } else {
      assert b[1..][j - 1] == x;
      assert b[1..][j..] == b[j + 1..];
      SubseqFirstOccurrence(x, q, b[1..], j - 1);
    }
  }

  /** A needle whose head never occurs in the haystack is no subsequence of it. */
  lemma {:induction false} SubseqAbsentHead<T>(x: T, q: seq<T>, b: seq<T>)
    requires forall m :: 0 <= m < |b| ==> b[m] != x
    ensures !IsSubseq([x] + q, b)
  {
    var a := [x] + q;
    assert a[0] == x;
    if b != [] {
      SubseqAbsentHead(x, q, b[1..]);
    }
  }

  /** The elements of `s` that satisfy `p`, in their original order. */
  function Filter<T(!new)>(s: seq<T>, p: T -> bool): (r: seq<T>)
    ensures IsSubseq(r, s)
    ensures forall x :: multiset(r)[x] == if p(x) then multiset(s)[x] else 0
    ensures forall x :: x in r <==> x in s && p(x)
    ensures |r| <= |s|
  {
    if s == [] then []
    else
      assert s == [s[0]] + s[1..];
      var rest := Filter(s[1..], p);
      SubseqOfTail(rest, s);
      if p(s[0]) then
        assert ([s[0]] + rest)[1..] == rest;
        [s[0]] + rest
      else rest
  }

  /** Greedy matching of `prefix` in `b` stopped before `b[from..]`: any
      continuation `q` matches after `prefix` exactly when it matches there. */
  ghost predicate GreedyState<T(!new)>(prefix: seq<T>, b: seq<T>, from: nat)
    requires from <= |b|
  {
    forall q :: IsSubseq(prefix + q, b) <==> IsSubseq(q, b[from..])
  }

  lemma GreedyStart<T(!new)>(b: seq<T>)
    ensures GreedyState([], b, 0)
  {
    assert b[0..] == b;
    forall q
      ensures IsSubseq([] + q, b) <==> IsSubseq(q, b[0..])
    {
      assert [] + q == q;
    }
  }

  /** A greedy match that got through the whole needle found it. */
  lemma GreedyMatched<T(!new)>(prefix: seq<T>, b: seq<T>, from: nat)
    requires from <= |b| && GreedyState(prefix, b, from)
    ensures IsSubseq(prefix, b)
  {
    assert prefix + [] == prefix;
    assert IsSubseq([], b[from..]);
  }

  /** One greedy step: if matching `prefix` left `b[from..]` to search and the
      first `x` there is at `idx`, matching `prefix + [x]` leaves `b[idx + 1..]`. */
  lemma GreedyAdvance<T(!new)>(prefix: seq<T>, x: T, b: seq<T>, from: nat, idx: nat)
    requires from <= idx < |b| && b[idx] == x
    requires forall m :: from <= m < idx ==> b[m] != x
    requires GreedyState(prefix, b, from)
    ensures GreedyState(prefix + [x], b, idx + 1)
  {
    var rest := b[from..];
    var j := idx - from;
    forall q
      ensures IsSubseq((prefix + [x]) + q, b) <==> IsSubseq(q, b[idx + 1..])
    {
      assert (prefix + [x]) + q == prefix + ([x] + q);
      assert rest[j] == x && rest[j + 1..] == b[idx + 1..];
      SubseqFirstOccurrence(x, q, rest, j);
    }
  }

  /** A greedy miss: if matching `prefix` left `b[from..]` to search and `x`
      does not occur there, `prefix` matches but no extension by `x` does. */
  lemma GreedyMiss<T(!new)>(prefix: seq<T>, x: T, suffix: seq<T>, b: seq<T>, from: nat)
    requires from <= |b|
    requires forall m :: from <= m < |b| ==> b[m] != x
    requires GreedyState(prefix, b, from)
    ensures IsSubseq(prefix, b)
    ensures !IsSubseq(prefix + [x], b)
    ensures !IsSubseq(prefix + [x] + suffix, b)
  {
    var rest := b[from..];
    SubseqAbsentHead(x, [], rest);
    SubseqAbsentHead(x, suffix, rest);
    assert prefix + [] == prefix;
    assert prefix + ([x] + []) == prefix + [x];
    assert prefix + ([x] + suffix) == prefix + [x] + suffix;
    assert IsSubseq([], rest);
  }

  /** Taking one more element of `s` appends `s[k]`. */
  lemma TakeSnoc<T>(s: seq<T>, k: nat)
    requires k < |s|
    ensures s[..k] + [s[k]] == s[..k + 1]
    ensures s[..k] + [s[k]] + s[k + 1..] == s
  {
  }

  /** The position of the first occurrence of `x` in `s`. */
  function IndexOf<T(==)>(s: seq<T>, x: T): (i: nat)
    requires x in s
    ensures i < |s| && s[i] == x
    ensures forall p :: 0 <= p < i ==> s[p] != x
  {
    if s[0] == x then 0 else 1 + IndexOf(s[1..], x)
  }

  /** A first occurrence is the first occurrence. */
  lemma IndexOfUnique<T>(s: seq<T>, x: T, k: nat)
    requires k < |s| && s[k] == x
    requires forall p :: 0 <= p < k ==> s[p] != x
    ensures IndexOf(s, x) == k
  {
  }

  /** Appending leaves the first occurrence of an element already present. */
  lemma IndexOfAppend<T>(s: seq<T>, t: seq<T>, x: T)
    requires x in s
    ensures IndexOf(s + t, x) == IndexOf(s, x)
  {
    var k := IndexOf(s, x);
    assert (s + t)[k] == x;
    forall p | 0 <= p < k
      ensures (s + t)[p] != x
    {
      assert (s + t)[p] == s[p];
    }
    IndexOfUnique(s + t, x, k);
  }
}

/** The array operations the query engine is built from: `filter`, `slice`
    and concatenation, with the order-preserving subsequence relation that
    describes what a filter keeps. */
module Seqs {

  /** `a` can be obtained from `b` by deleting elements, keeping order. */
  predicate IsSubseq<T(==)>(a: seq<T>, b: seq<T>)
    decreases |b|
  {
    |a| == 0 || (|b| > 0 && ((a[0] == b[0] && IsSubseq(a[1..], b[1..])) || IsSubseq(a, b[1..])))
  }

  lemma {:induction false} SubseqRefl<T>(s: seq<T>)
    ensures IsSubseq(s, s)
    decreases |s|
  {
    if |s| > 0 {
      SubseqRefl(s[1..]);
    }
  }

  /** Every element of a subsequence comes from the larger sequence. */
  lemma {:induction false} SubseqMembers<T>(a: seq<T>, b: seq<T>)
    requires IsSubseq(a, b)
    ensures forall x :: x in a ==> x in b
    decreases |b|
  {
    if |a| > 0 {
      if a[0] == b[0] && IsSubseq(a[1..], b[1..]) {
        SubseqMembers(a[1..], b[1..]);
        assert a == [a[0]] + a[1..];
      } else {
        SubseqMembers(a, b[1..]);
      }
    }
  }

  /** A subsequence of a subsequence is a subsequence. */
  lemma {:induction false} SubseqTrans<T>(a: seq<T>, b: seq<T>, c: seq<T>)
    requires IsSubseq(a, b) && IsSubseq(b, c)
    ensures IsSubseq(a, c)
    decreases |c|
  {
    if |a| > 0 {
      if b[0] == c[0] && IsSubseq(b[1..], c[1..]) {
        if a[0] == b[0] && IsSubseq(a[1..], b[1..]) {
          SubseqTrans(a[1..], b[1..], c[1..]);
        } else {
          SubseqTrans(a, b[1..], c[1..]);
        }
      } else {
        SubseqTrans(a, b, c[1..]);
      }
    }
  }

  /** A contiguous run is a subsequence. */
  lemma {:induction false} SliceIsSubseq<T>(s: seq<T>, lo: int, hi: int)
    requires 0 <= lo <= hi <= |s|
    ensures IsSubseq(s[lo..hi], s)
    decreases |s|
  {
    if lo > 0 {
      SliceIsSubseq(s[1..], lo - 1, hi - 1);
      assert s[1..][lo - 1..hi - 1] == s[lo..hi];
    } else if hi > 0 {
      SliceIsSubseq(s[1..], 0, hi - 1);
      assert s[1..][0..hi - 1] == s[lo..hi][1..];
    }
  }

  /** `s.filter(f)`: the elements satisfying `f`, in their original order,
      each kept as often as it occurs. */
  function Filter<T(==,!new)>(s: seq<T>, f: T -> bool): (r: seq<T>)
    ensures IsSubseq(r, s)
    ensures forall x :: x in r <==> x in s && f(x)
    ensures |r| <= |s|
  {
    if |s| == 0 then []
    else
      var rest := Filter(s[1..], f);
      if f(s[0]) then
        assert ([s[0]] + rest)[1..] == rest;
        [s[0]] + rest
      else rest
  }

  /** A filter keeps every occurrence of a satisfying element and no
      occurrence of any other: together with `IsSubseq` this determines
      the result completely. */
  lemma {:induction false} FilterCounts<T(!new)>(s: seq<T>, f: T -> bool)
    ensures forall x :: multiset(Filter(s, f))[x] == if f(x) then multiset(s)[x] else 0
    decreases |s|
  {
    if |s| > 0 {
      FilterCounts(s[1..], f);
      assert s == [s[0]] + s[1..];
      assert multiset(s) == multiset{s[0]} + multiset(s[1..]);
    }
  }

  /** A sequence with no members is empty. */
  lemma NoMemberEmpty<T>(s: seq<T>)
    ensures (forall x :: x !in s) ==> s == []
  {
    if |s| > 0 {
      assert s[0] in s;
    }
  }

  /** Two sequences with the same elements, counted, have the same members. */
  lemma PermutationMembers<T>(a: seq<T>, b: seq<T>)
    requires multiset(a) == multiset(b)
    ensures forall x :: x in a <==> x in b
  {
    forall x ensures x in a <==> x in b {
      assert x in a <==> x in multiset(a);
      assert x in b <==> x in multiset(b);
    }
  }

  /** Filtering distributes over concatenation. */
  lemma {:induction false} FilterConcat<T(!new)>(a: seq<T>, b: seq<T>, f: T -> bool)
    ensures Filter(a + b, f) == Filter(a, f) + Filter(b, f)
    decreases |a|
  {
    if |a| == 0 {
      assert a + b == b;
    } else {
      var ab := a + b;
      assert ab[1..] == a[1..] + b;
      FilterConcat(a[1..], b, f);
      if f(a[0]) {
        calc {
          Filter(ab, f);
          [a[0]] + Filter(a[1..] + b, f);
          [a[0]] + (Filter(a[1..], f) + Filter(b, f));
          ([a[0]] + Filter(a[1..], f)) + Filter(b, f);
        }
      }
    }
  }

  /** A weaker condition keeps at least what a stronger one keeps, in the
      same order. */
  lemma {:induction false} FilterMono<T(!new)>(s: seq<T>, f: T -> bool, g: T -> bool)
    requires forall x :: f(x) ==> g(x)
    ensures IsSubseq(Filter(s, f), Filter(s, g))
    decreases |s|
  {
    if |s| > 0 {
      FilterMono(s[1..], f, g);
      var a := Filter(s[1..], f);
      var b := Filter(s[1..], g);
      if f(s[0]) {
        assert ([s[0]] + a)[1..] == a;
        assert ([s[0]] + b)[1..] == b;
      } else if g(s[0]) {
        assert ([s[0]] + b)[1..] == b;
      }
    }
  }

  /** Conditions that agree on every element filter alike. */
  lemma {:induction false} FilterExt<T(!new)>(s: seq<T>, f: T -> bool, g: T -> bool)
    requires forall x :: f(x) == g(x)
    ensures Filter(s, f) == Filter(s, g)
    decreases |s|
  {
    if |s| > 0 {
      FilterExt(s[1..], f, g);
    }
  }

  /** Filtering by a condition every element meets keeps everything. */
  lemma {:induction false} FilterAll<T(!new)>(s: seq<T>, f: T -> bool)
    requires forall i :: 0 <= i < |s| ==> f(s[i])
    ensures Filter(s, f) == s
    decreases |s|
  {
    if |s| > 0 {
      FilterAll(s[1..], f);
      assert s == [s[0]] + s[1..];
    }
  }

  /** How `Array.prototype.slice` (ECMAScript 2019, section 22.1.3.25)
      resolves a relative index against a length: negative values count
      from the end, and the result is clamped into `0..n`. */
  function ResolveIndex(i: int, n: nat): (k: nat)
    ensures k <= n
    ensures 0 <= i ==> k == if i < n then i else n
    ensures i < 0 ==> k == if n + i < 0 then 0 else n + i
  {
    if i < 0 then (if n + i < 0 then 0 else n + i)
    else if i < n then i else n
  }

  /** `s.slice(start, end)`. */
  function JsSlice<T>(s: seq<T>, start: int, end: int): (r: seq<T>)
    ensures var a, b := ResolveIndex(start, |s|), ResolveIndex(end, |s|);
            |r| == (if a < b then b - a else 0) && forall i :: 0 <= i < |r| ==> r[i] == s[a + i]
  {
    var a, b := ResolveIndex(start, |s|), ResolveIndex(end, |s|);
    if a < b then s[a..b] else []
  }

  /** A slice keeps a contiguous run, so it is a subsequence. */
  lemma JsSliceIsSubseq<T>(s: seq<T>, start: int, end: int)
    ensures IsSubseq(JsSlice(s, start, end), s)
  {
    var lo, e := ResolveIndex(start, |s|), ResolveIndex(end, |s|);
    var hi := if lo < e then e else lo;
    assert JsSlice(s, start, end) == s[lo..hi];
    SliceIsSubseq(s, lo, hi);
  }

  /** With non-negative bounds `slice` is an ordinary clamped slice. */
  lemma JsSliceNonNegative<T>(s: seq<T>, start: int, end: int)
    requires 0 <= start <= end
    ensures var a := if start < |s| then start else |s|;
            var b := if end < |s| then end else |s|;
            JsSlice(s, start, end) == s[a..b]
  {
  }
}

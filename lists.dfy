/** Order-preserving filtering of lists, as `Array.prototype.filter` and Python
    comprehensions with an `if` do it. */
module Lists {
  /** `r` is `s` with some elements removed and the rest kept in order. */
  predicate IsSubsequence<T(==)>(r: seq<T>, s: seq<T>)
    decreases |s|
  {
    if r == [] then true
    else if s == [] then false
    else if r[0] == s[0] then IsSubsequence(r[1..], s[1..])
    else IsSubsequence(r, s[1..])
  }

  /** `s.filter(p)`. */
  function Filter<T(==)>(s: seq<T>, p: T -> bool): (r: seq<T>)
    ensures |r| <= |s|
    ensures forall i :: 0 <= i < |r| ==> r[i] in s && p(r[i])
    ensures forall i :: 0 <= i < |s| && p(s[i]) ==> s[i] in r
  {
    if s == [] then []
    else if p(s[0]) then [s[0]] + Filter(s[1..], p)
    else Filter(s[1..], p)
  }

  /** The filter keeps the order of the elements it keeps. */
  lemma {:induction false} FilterIsSubsequence<T>(s: seq<T>, p: T -> bool)
    ensures IsSubsequence(Filter(s, p), s)
  {
    if s != [] {
      FilterIsSubsequence(s[1..], p);
      if !p(s[0]) {
        SkipHead(Filter(s[1..], p), s);
      }
    }
  }

  /** A subsequence of the tail of `s` is a subsequence of `s`. */
  lemma {:induction false} SkipHead<T>(r: seq<T>, s: seq<T>)
    requires s != [] && IsSubsequence(r, s[1..])
    ensures IsSubsequence(r, s)
    decreases |s|, 1
  {
    if r != [] && r[0] == s[0] {
      Drop(r, s[1..]);
    }
  }

  /** Dropping the head of a subsequence leaves a subsequence. */
  lemma {:induction false} Drop<T>(r: seq<T>, s: seq<T>)
    requires r != [] && IsSubsequence(r, s)
    ensures IsSubsequence(r[1..], s)
    decreases |s|, 2
  {
    if r[0] == s[0] {
      SkipHead(r[1..], s);
    } else {
      Drop(r, s[1..]);
      SkipHead(r[1..], s);
    }
  }

  /** Every prefix of a subsequence is a subsequence. */
  lemma {:induction false} PrefixIsSubsequence<T>(r: seq<T>, s: seq<T>, k: nat)
    requires IsSubsequence(r, s) && k <= |r|
    ensures IsSubsequence(r[..k], s)
    decreases |s|
  {
    if k > 0 {
      if r[0] == s[0] {
        PrefixIsSubsequence(r[1..], s[1..], k - 1);
        assert r[..k][1..] == r[1..][..k - 1];
      } else {
        PrefixIsSubsequence(r, s[1..], k);
      }
    }
  }

  /** A filter whose test holds everywhere keeps the whole list. */
  lemma {:induction false} FilterKeepsAll<T>(s: seq<T>, p: T -> bool)
    requires forall i :: 0 <= i < |s| ==> p(s[i])
    ensures Filter(s, p) == s
  {
    if s != [] {
      FilterKeepsAll(s[1..], p);
    }
  }

  /** An element the test rejects, appended at the end, is filtered out again. */
  lemma {:induction false} FilterDropsLast<T>(s: seq<T>, x: T, p: T -> bool)
    requires !p(x)
    ensures Filter(s + [x], p) == Filter(s, p)
  {
    if s == [] {
      assert Filter([x], p) == Filter([x][1..], p);
    } else {
      assert (s + [x])[1..] == s[1..] + [x];
      FilterDropsLast(s[1..], x, p);
    }
  }

  /** How many elements of `s` pass `p`. */
  function Count<T>(s: seq<T>, p: T -> bool): nat {
    if s == [] then 0 else (if p(s[0]) then 1 else 0) + Count(s[1..], p)
  }

  /** The filter holds the passing elements in order: as many as pass, and an
      element that passes sits at the position given by how many passed before it. */
  lemma FilterPositions<T>(s: seq<T>, p: T -> bool)
    ensures |Filter(s, p)| == Count(s, p)
    ensures forall i :: 0 <= i < |s| && p(s[i]) ==> Count(s[..i], p) < |Filter(s, p)| && Filter(s, p)[Count(s[..i], p)] == s[i]
  {
    FilterLength(s, p);
    forall i | 0 <= i < |s| && p(s[i])
      ensures Count(s[..i], p) < |Filter(s, p)| && Filter(s, p)[Count(s[..i], p)] == s[i]
    {
      FilterAt(s, p, i);
    }
  }

  /** The filter keeps as many elements as pass. */
  lemma {:induction false} FilterLength<T>(s: seq<T>, p: T -> bool)
    ensures |Filter(s, p)| == Count(s, p)
  {
    if s != [] {
      FilterLength(s[1..], p);
    }
  }

  /** Where one passing element lands in the filter. */
  lemma {:induction false} FilterAt<T>(s: seq<T>, p: T -> bool, i: nat)
    requires i < |s| && p(s[i])
    ensures Count(s[..i], p) < |Filter(s, p)| && Filter(s, p)[Count(s[..i], p)] == s[i]
  {
    if i > 0 {
      FilterAt(s[1..], p, i - 1);
      assert s[..i][1..] == s[1..][..i - 1];
    }
  }

  /** Filtering two runs one after the other is filtering them together. */
  lemma {:induction false} FilterAppend<T>(a: seq<T>, b: seq<T>, p: T -> bool)
    ensures Filter(a + b, p) == Filter(a, p) + Filter(b, p)
  {
    if a == [] {
      assert a + b == b;
    } else {
      assert (a + b)[1..] == a[1..] + b;
      FilterAppend(a[1..], b, p);
    }
  }
}

/** `Array.prototype.filter` and the order-preserving subsequence relation it establishes. */
module Seqs {

  /** `s.filter(keep)`: the elements of s that satisfy keep, in their original order. */
  function Filter<T(==,!new)>(s: seq<T>, keep: T -> bool): (r: seq<T>)
    ensures |r| <= |s|
    ensures forall x :: x in r <==> x in s && keep(x)
    decreases |s|
  {
    if |s| == 0 then []
    else if keep(s[0]) then [s[0]] + Filter(s[1..], keep)
    else Filter(s[1..], keep)
  }

  /** `a` is obtained from `b` by deleting elements, keeping the order of the rest. */
  predicate IsSubsequence<T(==)>(a: seq<T>, b: seq<T>)
    decreases |b|
  {
    if |b| == 0 then |a| == 0
    else IsSubsequence(a, b[1..]) || (|a| > 0 && a[0] == b[0] && IsSubsequence(a[1..], b[1..]))
  }

  /** A filter result is an order-preserving subsequence of its input. */
  lemma {:induction false} FilterIsSubsequence<T(!new)>(s: seq<T>, keep: T -> bool)
    ensures IsSubsequence(Filter(s, keep), s)
    decreases |s|
  {
    if |s| > 0 {
      FilterIsSubsequence(s[1..], keep);
      if keep(s[0]) {
        assert Filter(s, keep)[1..] == Filter(s[1..], keep);
      }
    }
  }

  /** Being a subsequence is transitive. */
  lemma {:induction false} SubsequenceTransitive<T>(a: seq<T>, b: seq<T>, c: seq<T>)
    requires IsSubsequence(a, b) && IsSubsequence(b, c)
    ensures IsSubsequence(a, c)
    decreases |c|
  {
    if |c| == 0 {
    } else if IsSubsequence(b, c[1..]) {
      SubsequenceTransitive(a, b, c[1..]);
    } else {
      assert |b| > 0 && b[0] == c[0] && IsSubsequence(b[1..], c[1..]);
      if IsSubsequence(a, b[1..]) {
        SubsequenceTransitive(a, b[1..], c[1..]);
      } else {
        assert |a| > 0 && a[0] == b[0] && IsSubsequence(a[1..], b[1..]);
        SubsequenceTransitive(a[1..], b[1..], c[1..]);
      }
    }
  }

  /** Keeping every element keeps the sequence as it is. */
  lemma {:induction false} FilterKeepsAll<T(!new)>(s: seq<T>, keep: T -> bool)
    requires forall i :: 0 <= i < |s| ==> keep(s[i])
    ensures Filter(s, keep) == s
    decreases |s|
  {
    if |s| > 0 {
      FilterKeepsAll(s[1..], keep);
      assert [s[0]] + s[1..] == s;
    }
  }

  /** Filtering distributes over concatenation. */
  lemma {:induction false} FilterAppend<T(!new)>(a: seq<T>, b: seq<T>, keep: T -> bool)
    ensures Filter(a + b, keep) == Filter(a, keep) + Filter(b, keep)
    decreases |a|
  {
    if |a| > 0 {
      FilterAppend(a[1..], b, keep);
      assert (a + b)[1..] == a[1..] + b;
    } else {
      assert a + b == b;
    }
  }

  /** Filtering out exactly the element at k deletes that position and keeps the rest in order. */
  lemma {:induction false} FilterDropsOne<T(!new)>(s: seq<T>, keep: T -> bool, k: int)
    requires 0 <= k < |s| && !keep(s[k])
    requires forall i :: 0 <= i < |s| && i != k ==> keep(s[i])
    ensures Filter(s, keep) == s[..k] + s[k + 1..]
    decreases |s|
  {
    var tail := s[1..];
    forall i | 0 <= i < |tail| && i != k - 1
      ensures keep(tail[i])
    {
      assert tail[i] == s[i + 1];
    }
    if k == 0 {
      FilterKeepsAll(tail, keep);
      assert s[..0] + s[1..] == tail;
    } else {
      FilterDropsOne(tail, keep, k - 1);
      FilterCons(s, keep);
      assert [s[0]] + (tail[..k - 1] + tail[k..]) == s[..k] + s[k + 1..];
    }
  }

  /** A kept head stays in front of the filtered tail. */
  lemma FilterCons<T(!new)>(s: seq<T>, keep: T -> bool)
    requires |s| > 0 && keep(s[0])
    ensures Filter(s, keep) == [s[0]] + Filter(s[1..], keep)
  {
  }

  /** Two filters with disjoint conditions select at most |s| elements together. */
  lemma {:induction false} FilterDisjointLengths<T(!new)>(s: seq<T>, f: T -> bool, g: T -> bool)
    requires forall i :: 0 <= i < |s| ==> !(f(s[i]) && g(s[i]))
    ensures |Filter(s, f)| + |Filter(s, g)| <= |s|
    decreases |s|
  {
    if |s| > 0 {
      FilterDisjointLengths(s[1..], f, g);
    }
  }
}

/** "a is a subsequence of b", witnessed by the strictly increasing positions in b of a's elements. */
module Subsequences {

  ghost predicate SubseqVia<T>(a: seq<T>, b: seq<T>, idx: seq<nat>) {
    && |idx| == |a|
    && (forall k :: 0 <= k < |idx| ==> idx[k] < |b| && a[k] == b[idx[k]])
    && (forall k, l :: 0 <= k < l < |idx| ==> idx[k] < idx[l])
  }

  ghost predicate IsSubsequence<T>(a: seq<T>, b: seq<T>) {
    exists idx :: SubseqVia(a, b, idx)
  }

  function Shift(idx: seq<nat>, d: nat): (r: seq<nat>)
    ensures |r| == |idx| && forall k :: 0 <= k < |idx| ==> r[k] == idx[k] + d
  {
    seq(|idx|, k requires 0 <= k < |idx| => idx[k] + d)
  }

  lemma EmptySubsequence<T>(b: seq<T>)
    ensures IsSubsequence([], b)
  {
    assert SubseqVia([], b, []);
  }

  /** Subsequences of the parts give a subsequence of the whole: order within and across parts is kept. */
  lemma SubsequenceConcat<T>(a1: seq<T>, b1: seq<T>, a2: seq<T>, b2: seq<T>)
    requires IsSubsequence(a1, b1) && IsSubsequence(a2, b2)
    ensures IsSubsequence(a1 + a2, b1 + b2)
  {
    var i1 :| SubseqVia(a1, b1, i1);
    var i2 :| SubseqVia(a2, b2, i2);
    var idx := i1 + Shift(i2, |b1|);
    forall k | 0 <= k < |idx| ensures idx[k] < |b1 + b2| && (a1 + a2)[k] == (b1 + b2)[idx[k]] {
      if k >= |i1| {
        assert idx[k] == i2[k - |i1|] + |b1|;
      }
    }
    assert SubseqVia(a1 + a2, b1 + b2, idx);
  }

  /** Appending the same element to both sides keeps a subsequence. */
  lemma SubsequenceKeepLast<T>(a: seq<T>, b: seq<T>, x: T)
    requires IsSubsequence(a, b)
    ensures IsSubsequence(a + [x], b + [x])
  {
    var idx :| SubseqVia(a, b, idx);
    var last: nat := |b|;
    var idx' := idx + [last];
    forall k | 0 <= k < |idx'| ensures idx'[k] < |b + [x]| && (a + [x])[k] == (b + [x])[idx'[k]] {
      if k < |idx| { assert idx'[k] == idx[k]; }
    }
    assert SubseqVia(a + [x], b + [x], idx');
  }

  /** Appending an element to the larger side only keeps a subsequence. */
  lemma SubsequenceSkipLast<T>(a: seq<T>, b: seq<T>, x: T)
    requires IsSubsequence(a, b)
    ensures IsSubsequence(a, b + [x])
  {
    var idx :| SubseqVia(a, b, idx);
    assert SubseqVia(a, b + [x], idx);
  }

  /** Prepending the same element to both sides keeps a subsequence. */
  lemma SubsequenceKeepFirst<T>(a: seq<T>, b: seq<T>, x: T)
    requires IsSubsequence(a, b)
    ensures IsSubsequence([x] + a, [x] + b)
  {
    var idx :| SubseqVia(a, b, idx);
    var first: nat := 0;
    var idx' := [first] + Shift(idx, 1);
    forall k | 0 <= k < |idx'| ensures idx'[k] < |[x] + b| && ([x] + a)[k] == ([x] + b)[idx'[k]] {
      if 0 < k { assert idx'[k] == idx[k - 1] + 1; }
    }
    assert SubseqVia([x] + a, [x] + b, idx');
  }

  /** Prepending an element to the larger side only keeps a subsequence. */
  lemma SubsequenceSkipFirst<T>(a: seq<T>, b: seq<T>, x: T)
    requires IsSubsequence(a, b)
    ensures IsSubsequence(a, [x] + b)
  {
    var idx :| SubseqVia(a, b, idx);
    var idx' := Shift(idx, 1);
    forall k | 0 <= k < |idx'| ensures idx'[k] < |[x] + b| && a[k] == ([x] + b)[idx'[k]] {
      assert idx'[k] == idx[k] + 1;
    }
    assert SubseqVia(a, [x] + b, idx');
  }

  lemma SubsequenceTrans<T>(a: seq<T>, b: seq<T>, c: seq<T>)
    requires IsSubsequence(a, b) && IsSubsequence(b, c)
    ensures IsSubsequence(a, c)
  {
    var i1 :| SubseqVia(a, b, i1);
    var i2 :| SubseqVia(b, c, i2);
    var idx := seq(|i1|, k requires 0 <= k < |i1| => i2[i1[k]]);
    assert SubseqVia(a, c, idx);
  }
}

/**
 * Facts about sequences of any element type, proved once so that the
 * proofs about records and paragraphs never compare elements field by field.
 */
module Seqs {

  lemma AppendAssoc<T>(a: seq<T>, b: seq<T>, c: seq<T>)
    ensures a + b + c == a + (b + c)
  {
  }

  lemma AppendEmpty<T>(s: seq<T>)
    ensures s + [] == s
  {
  }

  /** A sequence is its part before `j`, the element at `j`, and the rest. */
  lemma SplitAt<T>(s: seq<T>, j: int)
    requires 0 <= j < |s|
    ensures s == s[..j] + s[j..]
    ensures s[j..] == [s[j]] + s[j + 1..]
  {
  }

  /** A non-empty sequence is its first element and the rest. */
  lemma Uncons<T>(s: seq<T>)
    requires s != []
    ensures s == [s[0]] + s[1..]
  {
  }

  /** A sequence is its part before the last element and that element. */
  lemma SplitLast<T>(s: seq<T>)
    requires s != []
    ensures s == s[..|s| - 1] + [s[|s| - 1]]
  {
  }

  /** Indexing into a concatenation. */
  lemma IndexAppend<T>(a: seq<T>, b: seq<T>, i: int)
    requires 0 <= i < |a| + |b|
    ensures (a + b)[i] == if i < |a| then a[i] else b[i - |a|]
  {
  }

  /** `s.filter(p)`: the elements satisfying `p`, in their order, repeats kept. */
  function Filter<T(!new)>(s: seq<T>, p: T -> bool): (r: seq<T>)
    ensures |r| <= |s|
    ensures forall x :: x in r <==> x in s && p(x)
  {
    if s == [] then []
    else (if p(s[0]) then [s[0]] else []) + Filter(s[1..], p)
  }

  /** A strictly increasing list of positions. */
  predicate Increasing(positions: seq<nat>) {
    forall j, k :: 0 <= j < k < |positions| ==> positions[j] < positions[k]
  }

  /** Every position one further on; with `0` in front when `first` holds. */
  function Shifted(positions: seq<nat>, first: bool): (r: seq<nat>)
    ensures |r| == |positions| + (if first then 1 else 0)
    ensures first ==> r[0] == 0
    ensures forall k :: (if first then 1 else 0) <= k < |r| ==> r[k] == positions[k - (if first then 1 else 0)] + 1
  {
    (if first then [0] else []) + seq(|positions|, k requires 0 <= k < |positions| => positions[k] + 1)
  }

  lemma ShiftedIncreasing(positions: seq<nat>, first: bool)
    requires Increasing(positions)
    ensures Increasing(Shifted(positions, first))
    ensures forall i :: i in positions ==> i + 1 in Shifted(positions, first)
  {
    var r := Shifted(positions, first);
    var d := if first then 1 else 0;
    forall j, k | 0 <= j < k < |r| ensures r[j] < r[k] {
      if j >= d {
        assert r[j] == positions[j - d] + 1 && r[k] == positions[k - d] + 1;
      } else {
        assert r[k] == positions[k - d] + 1;
      }
    }
    forall i | i in positions ensures i + 1 in r {
      var k :| 0 <= k < |positions| && positions[k] == i;
      assert r[k + d] == i + 1;
    }
  }

  /**
   * A filter keeps order: the result is read off a strictly increasing
   * choice of positions of `s`, and every position whose element satisfies
   * `p` is among them.
   */
  lemma {:induction false} FilterPositions<T(!new)>(s: seq<T>, p: T -> bool) returns (positions: seq<nat>)
    ensures |positions| == |Filter(s, p)|
    ensures forall k :: 0 <= k < |positions| ==> positions[k] < |s| && Filter(s, p)[k] == s[positions[k]]
    ensures Increasing(positions)
    ensures forall i :: 0 <= i < |s| && p(s[i]) ==> i in positions
  {
    if s == [] {
      return [];
    }
    var rest := FilterPositions(s[1..], p);
    var tail := Filter(s[1..], p);
    var first := p(s[0]);
    var d := if first then 1 else 0;
    positions := Shifted(rest, first);
    ShiftedIncreasing(rest, first);
    var r := Filter(s, p);
    assert r == (if first then [s[0]] else []) + tail;
    forall k | 0 <= k < |positions| ensures positions[k] < |s| && r[k] == s[positions[k]] {
      if k >= d {
        assert positions[k] == rest[k - d] + 1 && r[k] == tail[k - d];
        assert tail[k - d] == s[1..][rest[k - d]];
      }
    }
    forall i | 0 <= i < |s| && p(s[i]) ensures i in positions {
      if i > 0 {
        assert s[1..][i - 1] == s[i];
        assert i - 1 in rest;
      }
    }
  }

  /** Filters by two predicates that agree everywhere are the same. */
  lemma {:induction false} FilterAgreeing<T(!new)>(s: seq<T>, p: T -> bool, q: T -> bool)
    requires forall x :: p(x) == q(x)
    ensures Filter(s, p) == Filter(s, q)
  {
    if s != [] {
      FilterAgreeing(s[1..], p, q);
    }
  }
}

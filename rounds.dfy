/** Ranges of weeks and the extremes of collections of ids. */
module Rounds {

  predicate Increasing(s: seq<int>)
  {
    forall i, j :: 0 <= i < j < |s| ==> s[i] < s[j]
  }

  /**
   * The weeks `lo..hi` that are not in `present`, ascending: the list the
   * source builds as `set(range(lo, hi + 1)) - present`.
   */
  function WeeksOutside(present: set<int>, lo: int, hi: int): seq<int>
    decreases hi - lo + 1
  {
    if lo > hi then [] else (if lo in present then [] else [lo]) + WeeksOutside(present, lo + 1, hi)
  }

  lemma {:induction false} WeeksOutsideSpec(present: set<int>, lo: int, hi: int)
    ensures forall w :: w in WeeksOutside(present, lo, hi) <==> lo <= w <= hi && w !in present
    ensures Increasing(WeeksOutside(present, lo, hi))
  {
    WeeksOutsideMembers(present, lo, hi);
    WeeksOutsideIncreasing(present, lo, hi);
  }

  /** The weeks listed are exactly those of the range that are not present. */
  lemma {:induction false} WeeksOutsideMembers(present: set<int>, lo: int, hi: int)
    ensures forall w :: w in WeeksOutside(present, lo, hi) <==> lo <= w <= hi && w !in present
    decreases hi - lo + 1
  {
    if lo <= hi {
      WeeksOutsideMembers(present, lo + 1, hi);
      var rest := WeeksOutside(present, lo + 1, hi);
      assert WeeksOutside(present, lo, hi) == (if lo in present then [] else [lo]) + rest;
      forall w ensures w in WeeksOutside(present, lo, hi) <==> w in rest || (w == lo && lo !in present) {
      }
    }
  }

  /** They come in ascending order. */
  lemma {:induction false} WeeksOutsideIncreasing(present: set<int>, lo: int, hi: int)
    ensures Increasing(WeeksOutside(present, lo, hi))
    decreases hi - lo + 1
  {
    if lo <= hi {
      WeeksOutsideIncreasing(present, lo + 1, hi);
      WeeksOutsideMembers(present, lo + 1, hi);
      var rest := WeeksOutside(present, lo + 1, hi);
      forall k | 0 <= k < |rest| ensures lo < rest[k] {
        assert rest[k] in rest;
      }
    }
  }

  /** Nothing is outside `present` exactly when every week of the range is in it. */
  lemma WeeksOutsideEmpty(present: set<int>, lo: int, hi: int)
    ensures WeeksOutside(present, lo, hi) == [] <==> forall w :: lo <= w <= hi ==> w in present
  {
    WeeksOutsideSpec(present, lo, hi);
    if WeeksOutside(present, lo, hi) != [] {
      assert WeeksOutside(present, lo, hi)[0] in WeeksOutside(present, lo, hi);
    }
  }

  /** Python's `max` of a non-empty list. */
  function SeqMax(s: seq<int>): (m: int)
    requires |s| > 0
    ensures m in s && forall i :: 0 <= i < |s| ==> s[i] <= m
  {
    if |s| == 1 then s[0]
    else
      var rest := SeqMax(s[1..]);
      assert forall i :: 1 <= i < |s| ==> s[i] == s[1..][i - 1];
      if s[0] >= rest then s[0] else rest
  }

  lemma NonEmptyHasElement(s: set<int>)
    requires s != {}
    ensures exists x :: x in s
  {
    if forall x :: x !in s {
      assert false;
    }
  }

  lemma MaxExists(s: set<int>)
    requires s != {}
    ensures exists m :: m in s && forall y :: y in s ==> y <= m
    decreases |s|
  {
    NonEmptyHasElement(s);
    var x :| x in s;
    if s != {x} {
      MaxExists(s - {x});
      var m :| m in s - {x} && forall y :: y in s - {x} ==> y <= m;
      assert forall y :: y in s ==> y == x || y in s - {x};
      if x > m {
        assert x in s && forall y :: y in s ==> y <= x;
      } else {
        assert m in s && forall y :: y in s ==> y <= m;
      }
    } else {
      assert x in s && forall y :: y in s ==> y <= x;
    }
  }

  lemma MinExists(s: set<int>)
    requires s != {}
    ensures exists m :: m in s && forall y :: y in s ==> m <= y
    decreases |s|
  {
    NonEmptyHasElement(s);
    var x :| x in s;
    if s != {x} {
      MinExists(s - {x});
      var m :| m in s - {x} && forall y :: y in s - {x} ==> m <= y;
      assert forall y :: y in s ==> y == x || y in s - {x};
      if x < m {
        assert x in s && forall y :: y in s ==> x <= y;
      } else {
        assert m in s && forall y :: y in s ==> m <= y;
      }
    } else {
      assert x in s && forall y :: y in s ==> x <= y;
    }
  }

  /** Python's `max` of a non-empty set. */
  function SetMax(s: set<int>): (m: int)
    requires s != {}
    ensures m in s && forall y :: y in s ==> y <= m
  {
    MaxExists(s);
    var m :| m in s && forall y :: y in s ==> y <= m;
    m
  }

  /** The least element of a non-empty set. */
  function SetMin(s: set<int>): (m: int)
    requires s != {}
    ensures m in s && forall y :: y in s ==> m <= y
  {
    MinExists(s);
    var m :| m in s && forall y :: y in s ==> m <= y;
    m
  }
}

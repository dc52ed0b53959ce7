/** The ascending order of a finite set of integer keys, as `sorted(...)`
    gives it for the keys of a dictionary. */
module SortedKeys {

  /** `m` is the least element of `s`. */
  predicate IsLeast(m: int, s: set<int>)
  {
    m in s && forall y :: y in s ==> m <= y
  }

  /** An element of a non-empty set. */
  lemma Pick(s: set<int>) returns (x: int)
    requires s != {}
    ensures x in s
  {
    if forall y :: y !in s {
      assert false;
    }
    x :| x in s;
  }

  /** Every non-empty finite set has a least element. */
  lemma {:induction false} LeastExists(s: set<int>)
    requires s != {}
    ensures exists m :: IsLeast(m, s)
  {
    var x := Pick(s);
    var rest := s - {x};
    if rest == {} {
      forall y | y in s ensures x <= y { assert y !in rest; }
      assert IsLeast(x, s);
    } else {
      LeastExists(rest);
      var m :| IsLeast(m, rest);
      var least := if x < m then x else m;
      forall y | y in s ensures least <= y { if y != x { assert y in rest; } }
      assert IsLeast(least, s);
    }
  }

  /** The elements of `s` in ascending order: the order of `sorted(...)`. */
  ghost function SortedIds(s: set<int>): (ids: seq<int>)
    ensures |ids| == |s|
    ensures forall id :: id in ids <==> id in s
    ensures forall k :: 0 <= k < |ids| ==> ids[k] in s
    ensures forall i, j :: 0 <= i < j < |ids| ==> ids[i] < ids[j]
  {
    if s == {} then []
    else
      LeastExists(s);
      var m :| IsLeast(m, s);
      var rest := SortedIds(s - {m});
      PrependLeast(m, s, rest);
      [m] + rest
  }

  /** Putting the least element of `s` in front of the ascending order of the
      others gives the ascending order of `s`. */
  lemma PrependLeast(m: int, s: set<int>, rest: seq<int>)
    requires IsLeast(m, s)
    requires |rest| == |s - {m}|
    requires forall id :: id in rest <==> id in s - {m}
    requires forall k :: 0 <= k < |rest| ==> rest[k] in s - {m}
    requires forall i, j :: 0 <= i < j < |rest| ==> rest[i] < rest[j]
    ensures |[m] + rest| == |s|
    ensures forall id :: id in [m] + rest <==> id in s
    ensures forall k :: 0 <= k < |[m] + rest| ==> ([m] + rest)[k] in s
    ensures forall i, j :: 0 <= i < j < |[m] + rest| ==> ([m] + rest)[i] < ([m] + rest)[j]
  {
    var ids := [m] + rest;
    forall i, j | 0 <= i < j < |ids| ensures ids[i] < ids[j] {
      if i == 0 {
        assert ids[j] == rest[j - 1] && rest[j - 1] in s - {m};
      } else {
        assert ids[i] == rest[i - 1] && ids[j] == rest[j - 1];
      }
    }
    forall k | 0 <= k < |ids| ensures ids[k] in s {
      if k > 0 { assert ids[k] == rest[k - 1]; }
    }
  }

  /** The ascending order starts with the least element. */
  lemma SortedIdsUnfold(s: set<int>, m: int)
    requires IsLeast(m, s)
    ensures SortedIds(s) == [m] + SortedIds(s - {m})
  {
    var ids := SortedIds(s);
    assert m in ids;
    assert ids[0] in s;
  }
}

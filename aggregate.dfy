/** The summing loop at the end of main: count and distance of the "Desk Treadmill" activities. */
module Aggregate {
  import opened Fetcher
  import opened DeskLabel

  /** The activities that keep accepts, in their original order. */
  function Filter(acts: seq<Activity>, keep: Activity -> bool): (m: seq<Activity>)
    ensures |m| <= |acts|
    ensures forall i :: 0 <= i < |m| ==> keep(m[i])
  {
    if acts == [] then []
    else Filter(acts[..|acts| - 1], keep) + (if keep(acts[|acts| - 1]) then [acts[|acts| - 1]] else [])
  }

  function TotalDistance(acts: seq<Activity>): real {
    if acts == [] then 0.0 else TotalDistance(acts[..|acts| - 1]) + acts[|acts| - 1].distance
  }

  /** The positions of acts that hold an activity keep accepts. */
  function Positions(acts: seq<Activity>, keep: Activity -> bool): set<int> {
    set i | 0 <= i < |acts| && keep(acts[i])
  }

  /** The loop of main.go that accumulates deskCount and totalMeters. */
  method Aggregate(all: seq<Activity>) returns (deskCount: nat, totalMeters: real)
    ensures deskCount == |Filter(all, IsDeskTreadmill)| <= |all|
    ensures totalMeters == TotalDistance(Filter(all, IsDeskTreadmill))
  {
    deskCount, totalMeters := 0, 0.0;
    for i := 0 to |all|
      invariant deskCount == |Filter(all[..i], IsDeskTreadmill)|
      invariant totalMeters == TotalDistance(Filter(all[..i], IsDeskTreadmill))
    {
      var a := all[i];
      ghost var m := Filter(all[..i], IsDeskTreadmill);
      assert all[..i + 1][..i] == all[..i];
      if IsDeskTreadmill(a) {
        assert Filter(all[..i + 1], IsDeskTreadmill) == m + [a];
        assert (m + [a])[..|m|] == m;
        deskCount := deskCount + 1;
        totalMeters := totalMeters + a.distance;
      } else {
        assert Filter(all[..i + 1], IsDeskTreadmill) == m;
      }
    }
    assert all[..|all|] == all;
  }

  /** The count is exactly the number of positions whose activity matches. */
  lemma {:induction false} FilterCountsPositions(acts: seq<Activity>, keep: Activity -> bool)
    ensures |Filter(acts, keep)| == |Positions(acts, keep)|
  {
    if acts != [] {
      var n := |acts| - 1;
      var init := acts[..n];
      FilterCountsPositions(init, keep);
      var before, after := Positions(init, keep), Positions(acts, keep);
      var last := if keep(acts[n]) then {n} else {};
      forall i | i in after ensures i in before + last {
        if i < n { assert acts[i] == init[i]; }
      }
      forall i | i in before + last ensures i in after {
        if i < n { assert acts[i] == init[i]; }
      }
      assert after == before + last;
      assert n !in before;
    }
  }

  /** Filtering the concatenated pages is filtering page by page. */
  lemma {:induction false} FilterConcat(a: seq<Activity>, b: seq<Activity>, keep: Activity -> bool)
    ensures Filter(a + b, keep) == Filter(a, keep) + Filter(b, keep)
  {
    if b != [] {
      var n := |b| - 1;
      assert (a + b)[..|a + b| - 1] == a + b[..n];
      FilterConcat(a, b[..n], keep);
    } else {
      assert a + b == a;
    }
  }

  /** Distances add up page by page. */
  lemma {:induction false} TotalDistanceConcat(a: seq<Activity>, b: seq<Activity>)
    ensures TotalDistance(a + b) == TotalDistance(a) + TotalDistance(b)
  {
    if b != [] {
      var n := |b| - 1;
      assert (a + b)[..|a + b| - 1] == a + b[..n];
      TotalDistanceConcat(a, b[..n]);
    } else {
      assert a + b == a;
    }
  }

  /** With no negative distance the total is not negative either. */
  lemma {:induction false} TotalDistanceNonNegative(acts: seq<Activity>)
    requires forall i :: 0 <= i < |acts| ==> acts[i].distance >= 0.0
    ensures TotalDistance(acts) >= 0.0
  {
    if acts != [] {
      TotalDistanceNonNegative(acts[..|acts| - 1]);
    }
  }

  /** Two of these three activities count, for 1500 meters. */
  lemma ThreeActivitiesExample()
    ensures var acts := [Activity(1, "Desk Treadmill", 1000.0), Activity(2, "desk treadmill ", 500.0), Activity(3, "Run", 5000.0)];
            |Filter(acts, IsDeskTreadmill)| == 2 && TotalDistance(Filter(acts, IsDeskTreadmill)) == 1500.0
  {
    var a1, a2, a3 := Activity(1, "Desk Treadmill", 1000.0), Activity(2, "desk treadmill ", 500.0), Activity(3, "Run", 5000.0);
    LabelMatchesItself();
    LabelMatchesTrimmedLowerCase();
    LabelRejectsOtherName();
    var acts := [a1, a2, a3];
    assert acts[..2] == [a1, a2];
    assert [a1, a2][..1] == [a1];
    assert [a1][..0] == [];
    assert Filter([a1], IsDeskTreadmill) == [a1];
    assert Filter([a1, a2], IsDeskTreadmill) == [a1, a2];
    assert Filter(acts, IsDeskTreadmill) == [a1, a2];
    assert TotalDistance([a1]) == 1000.0;
  }
}

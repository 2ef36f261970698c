/**
 * The collision sweep: one pass over the world list that erases every point
 * it examines within the capture radius of the eye. The pass advances its
 * index after erasing, so the point that slides into the erased slot is not
 * examined in that pass.
 *
 * `Erased` gives, per entry of the list, whether the pass erases it;
 * `Survivors` and `Captured` split the list by that mask, each keeping the
 * original order.
 */
module Capture {
  import opened Geometry

  /** The capture radius. */
  const CAPTURE_RADIUS: real := 1.5

  function SquaredDistance(a: Point3D, b: Point3D): real
  {
    (a.x - b.x) * (a.x - b.x) + (a.y - b.y) * (a.y - b.y) + (a.z - b.z) * (a.z - b.z)
  }

  /** `item` is close enough to `player` to be captured. */
  predicate InReach(player: Point3D, item: Point3D)
  {
    SquaredDistance(player, item) < CAPTURE_RADIUS * CAPTURE_RADIUS
  }

  /** The pass's decision for each entry of `s`: true where it erases. */
  function Erased(s: seq<Point3D>, player: Point3D): (m: seq<bool>)
    ensures |m| == |s|
    decreases |s|
  {
    if s == [] then []
    else if !InReach(player, s[0]) then [false] + Erased(s[1..], player)
    else if |s| == 1 then [true]
    else [true, false] + Erased(s[2..], player)
  }

  /** The entries of `s` whose mask bit is `b`, in order. */
  function Select(s: seq<Point3D>, m: seq<bool>, b: bool): seq<Point3D>
    requires |m| == |s|
    decreases |s|
  {
    if s == [] then [] else (if m[0] == b then [s[0]] else []) + Select(s[1..], m[1..], b)
  }

  /** What the pass leaves in the world. */
  function Survivors(s: seq<Point3D>, player: Point3D): seq<Point3D>
  {
    Select(s, Erased(s, player), false)
  }

  /** What the pass erases; its length is the number of captures. */
  function Captured(s: seq<Point3D>, player: Point3D): seq<Point3D>
  {
    Select(s, Erased(s, player), true)
  }

  /**
   * One step of the pass at the head of `s`: a point out of reach is kept, a
   * point in reach is erased and the point after it is kept unexamined.
   */
  lemma SweepStep(s: seq<Point3D>, player: Point3D)
    requires s != []
    ensures !InReach(player, s[0]) ==>
              Survivors(s, player) == [s[0]] + Survivors(s[1..], player) &&
              Captured(s, player) == Captured(s[1..], player)
    ensures InReach(player, s[0]) && |s| == 1 ==>
              Survivors(s, player) == [] && Captured(s, player) == [s[0]]
    ensures InReach(player, s[0]) && |s| >= 2 ==>
              Survivors(s, player) == [s[1]] + Survivors(s[2..], player) &&
              Captured(s, player) == [s[0]] + Captured(s[2..], player)
  {
    var m := Erased(s, player);
    if !InReach(player, s[0]) {
      assert m[1..] == Erased(s[1..], player);
    } else if |s| == 1 {
      assert Select(s, m, false) == [] + Select(s[1..], m[1..], false);
      assert Select(s, m, true) == [s[0]] + Select(s[1..], m[1..], true);
    } else {
      assert m[1..][1..] == Erased(s[2..], player);
      assert s[1..][1..] == s[2..];
      assert Select(s, m, false) == [] + Select(s[1..], m[1..], false);
      assert Select(s[1..], m[1..], false) == [s[1]] + Select(s[2..], m[1..][1..], false);
      assert Select(s, m, true) == [s[0]] + Select(s[1..], m[1..], true);
      assert Select(s[1..], m[1..], true) == [] + Select(s[2..], m[1..][1..], true);
    }
  }

  /**
   * The sweep's bookkeeping after examining an entry out of reach: with
   * `kept` the survivors so far and `s[j..]` still to come, the entry moves
   * to `kept`.
   */
  lemma SweepKeeps(s: seq<Point3D>, kept: seq<Point3D>, j: nat, player: Point3D)
    requires j < |s| && !InReach(player, s[j])
    requires kept + Survivors(s[j..], player) == Survivors(s, player)
    ensures (kept + [s[j]]) + Survivors(s[j + 1..], player) == Survivors(s, player)
    ensures kept + s[j..] == (kept + [s[j]]) + s[j + 1..]
    ensures |Captured(s[j..], player)| == |Captured(s[j + 1..], player)|
  {
    SweepStep(s[j..], player);
    assert s[j..][1..] == s[j + 1..];
    assert s[j..] == [s[j]] + s[j + 1..];
  }

  /**
   * The sweep's bookkeeping after erasing an entry: the entry after it, if
   * any, moves to `kept` unexamined, and the erased entry is counted.
   */
  lemma SweepErases(s: seq<Point3D>, kept: seq<Point3D>, j: nat, player: Point3D)
    requires j < |s| && InReach(player, s[j])
    requires kept + Survivors(s[j..], player) == Survivors(s, player)
    ensures j + 1 < |s| ==>
              (kept + [s[j + 1]]) + Survivors(s[j + 2..], player) == Survivors(s, player) &&
              kept + s[j + 1..] == (kept + [s[j + 1]]) + s[j + 2..] &&
              |Captured(s[j..], player)| == 1 + |Captured(s[j + 2..], player)|
    ensures j + 1 == |s| ==>
              kept == Survivors(s, player) && kept + s[j + 1..] == kept &&
              |Captured(s[j..], player)| == 1
  {
    SweepStep(s[j..], player);
    if j + 1 < |s| {
      assert s[j..][1] == s[j + 1] && s[j..][2..] == s[j + 2..];
      assert s[j + 1..] == [s[j + 1]] + s[j + 2..];
    }
  }

  /**
   * The mask entry by entry: an entry is erased exactly when it is examined
   * (it is the first, or the entry before it was not erased) and in reach.
   */
  lemma {:induction false} ErasedExactly(s: seq<Point3D>, player: Point3D, i: nat)
    requires i < |s|
    ensures Erased(s, player)[i] <==> (i == 0 || !Erased(s, player)[i - 1]) && InReach(player, s[i])
    decreases |s|
  {
    var m := Erased(s, player);
    if !InReach(player, s[0]) {
      if i > 0 {
        ErasedExactly(s[1..], player, i - 1);
      }
    } else if |s| >= 2 && i >= 2 {
      ErasedExactly(s[2..], player, i - 2);
    }
  }

  /** A point in reach survives the pass only directly behind a captured point. */
  lemma InReachSurvivorFollowsCapture(s: seq<Point3D>, player: Point3D, i: nat)
    requires i < |s| && InReach(player, s[i]) && !Erased(s, player)[i]
    ensures i > 0 && Erased(s, player)[i - 1]
  {
    ErasedExactly(s, player, i);
  }

  /** Splitting by a mask loses nothing: the two parts together are a permutation of the whole. */
  lemma {:induction false} SelectSplits(s: seq<Point3D>, m: seq<bool>)
    requires |m| == |s|
    ensures |Select(s, m, false)| + |Select(s, m, true)| == |s|
    ensures multiset(Select(s, m, false)) + multiset(Select(s, m, true)) == multiset(s)
    decreases |s|
  {
    if s != [] {
      SelectSplits(s[1..], m[1..]);
      assert s == [s[0]] + s[1..];
    }
  }

  /** Every point of the selection is an entry of `s` whose mask bit is `b`. */
  lemma {:induction false} SelectFrom(s: seq<Point3D>, m: seq<bool>, b: bool, x: Point3D)
    requires |m| == |s| && x in Select(s, m, b)
    ensures exists i :: 0 <= i < |s| && m[i] == b && s[i] == x
    decreases |s|
  {
    if s[0] != x || m[0] != b {
      SelectFrom(s[1..], m[1..], b, x);
      var i :| 0 <= i < |s| - 1 && m[1..][i] == b && s[1..][i] == x;
      assert m[i + 1] == b && s[i + 1] == x;
    }
  }

  /** An empty selection means no entry carries the bit. */
  lemma {:induction false} SelectEmpty(s: seq<Point3D>, m: seq<bool>, b: bool, i: nat)
    requires |m| == |s| && Select(s, m, b) == [] && i < |s|
    ensures m[i] != b
    decreases |s|
  {
    if i > 0 {
      SelectEmpty(s[1..], m[1..], b, i - 1);
    }
  }

  /** The pass removes points, never adds or duplicates any, and counts one capture per removal. */
  lemma SweepConserves(s: seq<Point3D>, player: Point3D)
    ensures |Survivors(s, player)| + |Captured(s, player)| == |s|
    ensures multiset(Survivors(s, player)) + multiset(Captured(s, player)) == multiset(s)
  {
    SelectSplits(s, Erased(s, player));
  }

  /** Only points within the capture radius are removed. */
  lemma CapturedInReach(s: seq<Point3D>, player: Point3D, x: Point3D)
    requires x in Captured(s, player)
    ensures InReach(player, x)
  {
    SelectFrom(s, Erased(s, player), true, x);
    var i :| 0 <= i < |s| && Erased(s, player)[i] && s[i] == x;
    ErasedExactly(s, player, i);
  }

  /** The pass captures nothing exactly when no point of the world is in reach. */
  lemma {:induction false} NothingCapturedIff(s: seq<Point3D>, player: Point3D)
    ensures Captured(s, player) == [] <==> forall i :: 0 <= i < |s| ==> !InReach(player, s[i])
    decreases |s|
  {
    if Captured(s, player) == [] {
      forall i | 0 <= i < |s|
        ensures !InReach(player, s[i])
      {
        SelectEmpty(s, Erased(s, player), true, i);
        if i > 0 {
          SelectEmpty(s, Erased(s, player), true, i - 1);
        }
        ErasedExactly(s, player, i);
      }
    } else if s != [] {
      SweepStep(s, player);
      if !InReach(player, s[0]) {
        NothingCapturedIff(s[1..], player);
        var k :| 0 <= k < |s| - 1 && InReach(player, s[1..][k]);
        assert InReach(player, s[k + 1]);
      }
    }
  }

  /**
   * The point that slides into an erased slot survives the pass even when it
   * is in reach: wherever the eye `e` is, in the world [e, e + (1, 0, 0)] the
   * second point is in reach and still survives.
   */
  lemma SkippedPointSurvives(e: Point3D)
    ensures var next := Point3D(e.x + 1.0, e.y, e.z);
            InReach(e, next) && Survivors([e, next], e) == [next]
  {
    var next := Point3D(e.x + 1.0, e.y, e.z);
    SweepStep([e, next], e);
    assert [e, next][2..] == [];
  }

  /** From the origin, a point at distance 1 is captured and one at distance 2 is not. */
  lemma CaptureRadiusExample()
    ensures Survivors([Point3D(1.0, 0.0, 0.0)], Point3D(0.0, 0.0, 0.0)) == []
    ensures Survivors([Point3D(2.0, 0.0, 0.0)], Point3D(0.0, 0.0, 0.0)) == [Point3D(2.0, 0.0, 0.0)]
  {
    SweepStep([Point3D(1.0, 0.0, 0.0)], Point3D(0.0, 0.0, 0.0));
    SweepStep([Point3D(2.0, 0.0, 0.0)], Point3D(0.0, 0.0, 0.0));
  }
}

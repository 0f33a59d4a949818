/**
 * Track generation: the random walk of `createStage` that lays out the
 * waypoints of a stage and, every fourth iteration, may insert a branch
 * waypoint in front of the main one. The smooth curve through the
 * waypoints is built by the rendering library and is not modelled; the
 * waypoint list is.
 */
module Track {
  import opened Basics

  /** A waypoint in the ground plane; every waypoint of the track has y = 0. */
  datatype Point = Point(x: real, z: real)

  /** The random numbers that one iteration of the generation loop uses:
      the lateral step, the depth step, the branch chance and the branch side. */
  datatype SegmentDraw = SegmentDraw(lateral: real, depth: real, branchChance: real, branchSide: real)

  predicate ValidDraw(d: SegmentDraw) {
    IsRandom(d.lateral) && IsRandom(d.depth) && IsRandom(d.branchChance) && IsRandom(d.branchSide)
  }

  predicate ValidDraws(ds: seq<SegmentDraw>) {
    forall i :: 0 <= i < |ds| ==> ValidDraw(ds[i])
  }

  /** Number of main waypoints of stage `stage`: every stage is two segments longer. */
  function Segments(stage: nat): nat {
    12 + 2 * stage
  }

  /** Lateral move of one iteration, `(Math.random() - 0.5) * 30`. */
  function LateralStep(d: SegmentDraw): (r: real)
    requires IsRandom(d.lateral)
    ensures -15.0 <= r < 15.0
  {
    (d.lateral - 0.5) * 30.0
  }

  /** Forward (decreasing z) move of one iteration, `20 + Math.random() * 20`. */
  function DepthStep(d: SegmentDraw): (r: real)
    requires IsRandom(d.depth)
    ensures 20.0 <= r < 40.0
  {
    20.0 + d.depth * 20.0
  }

  /** Iteration `i` inserts a branch waypoint: only every fourth iteration, with chance 0.3. */
  predicate HasBranch(i: nat, d: SegmentDraw) {
    i % 4 == 0 && d.branchChance < 0.3
  }

  /** Lateral offset of a branch waypoint from its main waypoint. */
  function BranchSide(d: SegmentDraw): real {
    if d.branchSide < 0.5 then -15.0 else 15.0
  }

  /** The running x after `n` iterations. */
  function MainX(ds: seq<SegmentDraw>, n: nat): real
    requires ValidDraws(ds) && n <= |ds|
  {
    if n == 0 then 0.0 else MainX(ds, n - 1) + LateralStep(ds[n - 1])
  }

  /** The running z after `n` iterations. */
  function MainZ(ds: seq<SegmentDraw>, n: nat): real
    requires ValidDraws(ds) && n <= |ds|
  {
    if n == 0 then 0.0 else MainZ(ds, n - 1) - DepthStep(ds[n - 1])
  }

  /** The main waypoint that iteration `i` pushes. */
  function MainPoint(ds: seq<SegmentDraw>, i: nat): Point
    requires ValidDraws(ds) && i < |ds|
  {
    Point(MainX(ds, i + 1), MainZ(ds, i + 1))
  }

  /** The branch waypoint that iteration `i` pushes when it branches. */
  function BranchPoint(ds: seq<SegmentDraw>, i: nat): Point
    requires ValidDraws(ds) && i < |ds|
  {
    Point(MainX(ds, i + 1) + BranchSide(ds[i]), MainZ(ds, i + 1) - 15.0)
  }

  /** The waypoints pushed by iteration `i`, in order. */
  function IterationPoints(ds: seq<SegmentDraw>, i: nat): seq<Point>
    requires ValidDraws(ds) && i < |ds|
  {
    (if HasBranch(i, ds[i]) then [BranchPoint(ds, i)] else []) + [MainPoint(ds, i)]
  }

  /** The waypoint list after `n` iterations of the generation loop. */
  function Waypoints(ds: seq<SegmentDraw>, n: nat): seq<Point>
    requires ValidDraws(ds) && n <= |ds|
  {
    if n == 0 then [] else Waypoints(ds, n - 1) + IterationPoints(ds, n - 1)
  }

  /** How many of the first `n` iterations inserted a branch waypoint. */
  function BranchCount(ds: seq<SegmentDraw>, n: nat): nat
    requires n <= |ds|
  {
    if n == 0 then 0 else BranchCount(ds, n - 1) + (if HasBranch(n - 1, ds[n - 1]) then 1 else 0)
  }

  /** Index in the waypoint list of the main waypoint of iteration `i`. */
  function MainIndex(ds: seq<SegmentDraw>, i: nat): nat
    requires i < |ds|
  {
    i + BranchCount(ds, i + 1)
  }

  /** Generation loop of `createStage` (running accumulators `x` and `z`). */
  method GenerateWaypoints(ds: seq<SegmentDraw>, segments: nat) returns (points: seq<Point>)
    requires ValidDraws(ds) && segments <= |ds|
    ensures points == Waypoints(ds, segments)
  {
    points := [];
    var z := 0.0;
    var x := 0.0;
    var i := 0;
    while i < segments
      invariant 0 <= i <= segments
      invariant x == MainX(ds, i) && z == MainZ(ds, i)
      invariant points == Waypoints(ds, i)
    {
      x := x + (ds[i].lateral - 0.5) * 30.0;
      z := z - (20.0 + ds[i].depth * 20.0);
      if i % 4 == 0 && ds[i].branchChance < 0.3 {
        var branchX := x + (if ds[i].branchSide < 0.5 then -15.0 else 15.0);
        var branchZ := z - 15.0;
        points := points + [Point(branchX, branchZ)];
      }
      points := points + [Point(x, z)];
      i := i + 1;
    }
  }

  /** At most one branch waypoint in every four iterations, counting from iteration 0. */
  lemma {:induction false} BranchCountBound(ds: seq<SegmentDraw>, n: nat)
    requires n <= |ds|
    ensures BranchCount(ds, n) <= (n + 3) / 4
  {
    if n > 0 {
      BranchCountBound(ds, n - 1);
      if (n - 1) % 4 == 0 {
        assert (n + 3) / 4 == (n + 2) / 4 + 1;
      } else {
        assert (n + 2) / 4 <= (n + 3) / 4;
      }
    }
  }

  /** Exactly one main waypoint per iteration plus the branch waypoints, so the
      list holds between `n` and `n + ceil(n / 4)` points. */
  lemma {:induction false} WaypointCount(ds: seq<SegmentDraw>, n: nat)
    requires ValidDraws(ds) && n <= |ds|
    ensures |Waypoints(ds, n)| == n + BranchCount(ds, n)
    ensures n <= |Waypoints(ds, n)| <= n + (n + 3) / 4
  {
    if n > 0 {
      WaypointCount(ds, n - 1);
    }
    BranchCountBound(ds, n);
  }

  /** Every iteration moves forward by at least 20 and less than 40. */
  lemma {:induction false} DepthDescends(ds: seq<SegmentDraw>, i: nat, j: nat)
    requires ValidDraws(ds) && i <= j <= |ds|
    ensures MainZ(ds, j) <= MainZ(ds, i) - 20.0 * (j - i) as real
    ensures i < j ==> MainZ(ds, i) - 40.0 * (j - i) as real < MainZ(ds, j)
  {
    if i < j {
      DepthDescends(ds, i, j - 1);
    }
  }

  /** Every iteration moves sideways by at least -15 and less than 15. */
  lemma {:induction false} LateralDrift(ds: seq<SegmentDraw>, n: nat)
    requires ValidDraws(ds) && n <= |ds|
    ensures -15.0 * n as real <= MainX(ds, n)
    ensures 0 < n ==> MainX(ds, n) < 15.0 * n as real
  {
    if n > 0 {
      LateralDrift(ds, n - 1);
    }
  }

  /** The generation loop only appends: an earlier waypoint list is a prefix of a later one. */
  lemma {:induction false} WaypointsPrefix(ds: seq<SegmentDraw>, m: nat, n: nat)
    requires ValidDraws(ds) && m <= n <= |ds|
    ensures Waypoints(ds, m) <= Waypoints(ds, n)
  {
    if m < n {
      WaypointsPrefix(ds, m, n - 1);
    }
  }

  /** No waypoint pushed in the first `m` iterations lies more than 15 beyond the running z. */
  lemma {:induction false} AboveRunningDepth(ds: seq<SegmentDraw>, m: nat)
    requires ValidDraws(ds) && m <= |ds|
    ensures forall k :: 0 <= k < |Waypoints(ds, m)| ==> MainZ(ds, m) - 15.0 <= Waypoints(ds, m)[k].z
  {
    if m > 0 {
      AboveRunningDepth(ds, m - 1);
      var before := Waypoints(ds, m - 1);
      assert Waypoints(ds, m) == before + IterationPoints(ds, m - 1);
      assert DepthStep(ds[m - 1]) >= 20.0;
      forall k | 0 <= k < |Waypoints(ds, m)|
        ensures MainZ(ds, m) - 15.0 <= Waypoints(ds, m)[k].z
      {
        if k < |before| {
          assert Waypoints(ds, m)[k] == before[k];
        }
      }
    }
  }

  /** Where the main waypoint of iteration `i` sits in the list: at `MainIndex`,
      right after its own branch waypoint when the iteration branched (which only
      an iteration with `i % 4 == 0` does), and otherwise right after the
      previous iteration's main waypoint. */
  lemma {:induction false} MainWaypointPlacement(ds: seq<SegmentDraw>, n: nat, i: nat)
    requires ValidDraws(ds) && i < n <= |ds|
    ensures MainIndex(ds, i) < |Waypoints(ds, n)|
    ensures Waypoints(ds, n)[MainIndex(ds, i)] == MainPoint(ds, i)
    ensures HasBranch(i, ds[i]) ==>
              && i % 4 == 0
              && 1 <= MainIndex(ds, i)
              && Waypoints(ds, n)[MainIndex(ds, i) - 1] == BranchPoint(ds, i)
    ensures !HasBranch(i, ds[i]) && 0 < i ==>
              && 1 <= MainIndex(ds, i)
              && Waypoints(ds, n)[MainIndex(ds, i) - 1] == MainPoint(ds, i - 1)
    ensures HasBranch(i, ds[i]) && 0 < i ==>
              && 2 <= MainIndex(ds, i)
              && Waypoints(ds, n)[MainIndex(ds, i) - 2] == MainPoint(ds, i - 1)
  {
    WaypointsPrefix(ds, i + 1, n);
    WaypointCount(ds, i + 1);
    WaypointCount(ds, i);
    var before := Waypoints(ds, i);
    var upTo := Waypoints(ds, i + 1);
    assert upTo == before + IterationPoints(ds, i);
    assert upTo == Waypoints(ds, n)[..|upTo|];
    if 0 < i {
      WaypointCount(ds, i - 1);
      assert before == Waypoints(ds, i - 1) + IterationPoints(ds, i - 1);
      assert before[|before| - 1] == MainPoint(ds, i - 1);
    }
  }

  /** Every waypoint comes from some iteration `i`: it is that iteration's main
      waypoint at `MainIndex(ds, i)`, or its branch waypoint just in front of it. */
  lemma {:induction false} WaypointOrigin(ds: seq<SegmentDraw>, n: nat, k: nat) returns (i: nat)
    requires ValidDraws(ds) && n <= |ds| && k < |Waypoints(ds, n)|
    ensures i < n
    ensures || (k == MainIndex(ds, i) && Waypoints(ds, n)[k] == MainPoint(ds, i))
            || (HasBranch(i, ds[i]) && k + 1 == MainIndex(ds, i) && Waypoints(ds, n)[k] == BranchPoint(ds, i))
  {
    var before := Waypoints(ds, n - 1);
    assert Waypoints(ds, n) == before + IterationPoints(ds, n - 1);
    WaypointCount(ds, n - 1);
    if k < |before| {
      i := WaypointOrigin(ds, n - 1, k);
      WaypointsPrefix(ds, n - 1, n);
      assert Waypoints(ds, n)[k] == before[k];
    } else {
      i := n - 1;
    }
  }

  /** Every iteration pushes its main waypoint after its branch waypoint, so
      after at least one iteration the last waypoint is the final main waypoint. */
  lemma LastWaypointIsMain(ds: seq<SegmentDraw>, n: nat)
    requires ValidDraws(ds) && 1 <= n <= |ds|
    ensures |Waypoints(ds, n)| >= 1
    ensures Waypoints(ds, n)[|Waypoints(ds, n)| - 1] == MainPoint(ds, n - 1)
  {
  }

  /** The last waypoint is the final main waypoint (for any n >= 1). When the
      last iteration does not branch, which an even number of iterations
      guarantees, it also lies strictly beyond (at lower z than) every other
      waypoint: a branch waypoint of the last iteration would lie 15 beyond it. */
  lemma {:induction false} FinishIsDeepest(ds: seq<SegmentDraw>, n: nat)
    requires ValidDraws(ds) && 2 <= n <= |ds| && n % 2 == 0
    ensures |Waypoints(ds, n)| >= 2
    ensures Waypoints(ds, n)[|Waypoints(ds, n)| - 1] == MainPoint(ds, n - 1)
    ensures forall k :: 0 <= k < |Waypoints(ds, n)| - 1 ==>
              MainZ(ds, n) < Waypoints(ds, n)[k].z
  {
    WaypointCount(ds, n);
    var before := Waypoints(ds, n - 1);
    assert !HasBranch(n - 1, ds[n - 1]);
    assert Waypoints(ds, n) == before + [MainPoint(ds, n - 1)];
    AboveRunningDepth(ds, n - 1);
    DepthDescends(ds, n - 1, n);
    forall k | 0 <= k < |Waypoints(ds, n)| - 1
      ensures MainZ(ds, n) < Waypoints(ds, n)[k].z
    {
      assert Waypoints(ds, n)[k] == before[k];
    }
  }

  /** What `createStage` relies on for the track of stage `stage`: between
      `segments` and `segments + ceil(segments / 4)` waypoints, the finish line
      (the z of the last waypoint) is the final main waypoint's z, lies at least
      20 per segment ahead of the start, and is strictly deeper than every other
      waypoint. */
  lemma StageTrack(ds: seq<SegmentDraw>, stage: nat)
    requires ValidDraws(ds) && |ds| == Segments(stage)
    ensures var w := Waypoints(ds, Segments(stage));
      && Segments(stage) <= |w| <= Segments(stage) + (Segments(stage) + 3) / 4
      && w[|w| - 1] == MainPoint(ds, Segments(stage) - 1)
      && w[|w| - 1].z <= -20.0 * Segments(stage) as real
      && -40.0 * Segments(stage) as real < w[|w| - 1].z
      && forall k :: 0 <= k < |w| - 1 ==> w[|w| - 1].z < w[k].z
  {
    var n := Segments(stage);
    WaypointCount(ds, n);
    FinishIsDeepest(ds, n);
    DepthDescends(ds, 0, n);
  }
}

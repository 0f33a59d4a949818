/**
 * Wall building: `createStage` samples the track curve at 200 evenly spaced
 * fractions and puts one wall on each side of every sample. Where a wall
 * stands (the curve point plus seven units along the curve normal) is
 * computed by the rendering library; the model keeps each wall's sample
 * fraction and side, which determine that position.
 */
module Walls {

  /** Number of curve samples. */
  const SampleCount: nat := 200

  /** The sides a wall is placed on, in the order they are visited. */
  const Sides: seq<int> := [-1, 1]

  /** A wall at curve fraction `t`, on side `side` of the track. */
  datatype Wall = Wall(t: real, side: int)

  /** The `k`-th wall pushed by the building loop. */
  function WallAt(k: nat): Wall {
    Wall((k / 2) as real / SampleCount as real, Sides[k % 2])
  }

  /** The complete wall list of a stage. */
  predicate IsWallLayout(ws: seq<Wall>) {
    |ws| == |Sides| * SampleCount &&
    forall k :: 0 <= k < |ws| ==> ws[k] == WallAt(k)
  }

  /** Wall loop of `createStage`: for every sample, one wall per side. */
  method BuildWalls() returns (walls: seq<Wall>)
    ensures IsWallLayout(walls)
  {
    walls := [];
    for i := 0 to SampleCount
      invariant |walls| == |Sides| * i
      invariant forall k :: 0 <= k < |walls| ==> walls[k] == WallAt(k)
    {
      var t := i as real / SampleCount as real;
      for j := 0 to |Sides|
        invariant |walls| == |Sides| * i + j
        invariant forall k :: 0 <= k < |walls| ==> walls[k] == WallAt(k)
      {
        assert (|Sides| * i + j) / 2 == i && (|Sides| * i + j) % 2 == j;
        walls := walls + [Wall(t, Sides[j])];
      }
    }
  }

  /** A stage has exactly 400 walls, every one at a sample fraction in [0, 1)
      and on side -1 or 1; walls come in pairs, left then right, at the same
      sample, and the samples advance by 1/200 from pair to pair. */
  lemma WallLayoutFacts(ws: seq<Wall>)
    requires IsWallLayout(ws)
    ensures |ws| == 400
    ensures forall k :: 0 <= k < |ws| ==> 0.0 <= ws[k].t < 1.0 && (ws[k].side == -1 || ws[k].side == 1)
    ensures forall k :: 0 <= k < |ws| && k % 2 == 0 ==>
              ws[k].side == -1 && ws[k + 1].side == 1 && ws[k + 1].t == ws[k].t
    ensures forall k :: 0 <= k < |ws| - 2 && k % 2 == 0 ==> ws[k + 2].t == ws[k].t + 1.0 / 200.0
  {
  }
}

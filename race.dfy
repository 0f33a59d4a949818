/**
 * The race world: the mutable state that the game loop of `game.js`
 * keeps in globals (stage index, track, walls, AI pool, player pose and
 * speed), with `createStage`, `resetCars`, `movePlayer`, `moveAI` and
 * `checkFinish` as methods that update it in place.
 */
module Race {
  import opened Basics
  import opened Track
  import opened Walls
  import opened Vehicles

  /** Background colours, one per stage, cycling. */
  const StageBackgrounds: seq<int> := [0x87ceeb, 0xffcc99, 0x99ccff, 0xff9999, 0x88ff88]

  /** Size of every AI pool. */
  const AICount: nat := 6

  /** Where a reset puts the player. */
  const StartPosition: Vec3 := Vec3(0.0, 1.0, 0.0)

  /** The background of stage `stage`: its index modulo the palette size is in range. */
  function BackgroundColor(stage: nat): (c: int)
    ensures c in StageBackgrounds
  {
    StageBackgrounds[stage % |StageBackgrounds|]
  }

  class RaceWorld {
    var stageIndex: nat
    var background: int
    /** The waypoints the track curve is drawn through. */
    var points: seq<Point>
    var finishZ: real
    var walls: seq<Wall>
    var aiCars: array<AICar>
    var position: Vec3
    var yaw: real
    var speed: real

    /** What holds between frames. */
    ghost predicate Valid()
      reads this, aiCars
    {
      && background == BackgroundColor(stageIndex)
      && Segments(stageIndex) <= |points|
      && finishZ == points[|points| - 1].z
      && finishZ <= -20.0 * Segments(stageIndex) as real
      && (forall k :: 0 <= k < |points| - 1 ==> finishZ < points[k].z)
      && IsWallLayout(walls)
      && aiCars.Length == AICount
      && (forall k :: 0 <= k < aiCars.Length ==> WellFormedCar(aiCars[k]))
      && 0.0 <= speed <= MaxSpeed
    }

    /** Some AI car has reached the end of the track. */
    predicate AnyFinished()
      reads this, aiCars
    {
      exists k :: 0 <= k < aiCars.Length && 1.0 <= aiCars[k].progress
    }

    /** The start of the game: empty world, then stage 0. */
    constructor (draws: seq<SegmentDraw>, speedDraws: seq<real>)
      requires ValidDraws(draws) && |draws| == Segments(0)
      requires AllRandom(speedDraws) && |speedDraws| == AICount
      ensures Valid()
      ensures stageIndex == 0
      ensures points == Waypoints(draws, Segments(0))
      ensures forall k :: 0 <= k < AICount ==> aiCars[k] == SpawnCar(speedDraws[k])
      ensures position == StartPosition && yaw == 0.0 && speed == 0.0
    {
      stageIndex := 0;
      background := 0;
      points := [];
      finishZ := 0.0;
      walls := [];
      aiCars := new AICar[0];
      position := Vec3(0.0, 0.0, 0.0);
      yaw := 0.0;
      speed := 0.0;
      new;
      CreateStage(draws, speedDraws);
    }

    /** `createStage`: a new track, 400 new walls and a new pool of AI cars for
        the current stage index, then a reset. */
    method CreateStage(draws: seq<SegmentDraw>, speedDraws: seq<real>)
      requires ValidDraws(draws) && |draws| == Segments(stageIndex)
      requires AllRandom(speedDraws) && |speedDraws| == AICount
      modifies this
      ensures Valid()
      ensures stageIndex == old(stageIndex)
      ensures background == BackgroundColor(stageIndex)
      ensures points == Waypoints(draws, Segments(stageIndex))
      ensures finishZ == MainZ(draws, Segments(stageIndex))
      ensures IsWallLayout(walls)
      ensures fresh(aiCars) && aiCars.Length == AICount
      ensures forall k :: 0 <= k < AICount ==> aiCars[k] == SpawnCar(speedDraws[k])
      ensures position == StartPosition && yaw == 0.0 && speed == 0.0
    {
      background := BackgroundColor(stageIndex);
      var segments := Segments(stageIndex);
      points := GenerateWaypoints(draws, segments);
      walls := BuildWalls();
      StageTrack(draws, stageIndex);
      finishZ := points[|points| - 1].z;
      var cars := new AICar[AICount];
      for i := 0 to AICount
        modifies cars
        invariant forall k :: 0 <= k < i ==> cars[k] == SpawnCar(speedDraws[k])
      {
        cars[i] := SpawnCar(speedDraws[i]);
      }
      aiCars := cars;
      ResetCars();
    }

    /** `resetCars`: the player back at the start, standing still and facing
        forward; every AI car back at progress 0 and otherwise unchanged. */
    method ResetCars()
      modifies this`position, this`yaw, this`speed, aiCars
      ensures position == StartPosition && yaw == 0.0 && speed == 0.0
      ensures forall k :: 0 <= k < aiCars.Length ==> aiCars[k] == old(aiCars[k]).(progress := 0.0)
    {
      position := StartPosition;
      yaw := 0.0;
      speed := 0.0;
      for k := 0 to aiCars.Length
        modifies aiCars
        invariant forall j :: 0 <= j < k ==> aiCars[j] == old(aiCars[j]).(progress := 0.0)
        invariant forall j :: k <= j < aiCars.Length ==> aiCars[j] == old(aiCars[j])
      {
        aiCars[k] := aiCars[k].(progress := 0.0);
      }
    }

    /** `movePlayer`: speed and yaw rules, the move along the heading (whose
        sine and cosine at the new yaw are given), then one push and one
        damping per wall in contact, in wall order. */
    method MovePlayer(keys: Keys, sinYaw: real, cosYaw: real, contacts: seq<Contact>)
      requires Valid()
      requires |contacts| == |walls|
      modifies this`position, this`yaw, this`speed
      ensures Valid()
      ensures yaw == Steered(old(yaw), keys)
      ensures speed == Damped(ThrottledSpeed(old(speed), keys), contacts)
      ensures speed <= ThrottledSpeed(old(speed), keys)
      ensures position == Pushed(Advanced(old(position), sinYaw, cosYaw, ThrottledSpeed(old(speed), keys)), contacts)
    {
      if keys.forward { speed := speed + 0.02; }
      if keys.brake { speed := speed * 0.95; }
      speed := Clamp(speed, 0.0, MaxSpeed);

      if keys.left { yaw := yaw + 0.04; }
      if keys.right { yaw := yaw - 0.04; }

      assert speed == ThrottledSpeed(old(speed), keys);
      Drive(sinYaw, cosYaw);
      DampedBounds(speed, contacts);
      ResolveWalls(contacts);
    }

    /** The move of `movePlayer` along the heading: `x -= sin(yaw) * speed`,
        `z -= cos(yaw) * speed`. */
    method Drive(sinYaw: real, cosYaw: real)
      modifies this`position
      ensures position == Advanced(old(position), sinYaw, cosYaw, speed)
    {
      position := position.(x := position.x - sinYaw * speed);
      position := position.(z := position.z - cosYaw * speed);
    }

    /** The wall loop of `movePlayer`: for every wall in contact, in wall order,
        push the player and damp the speed. */
    method ResolveWalls(contacts: seq<Contact>)
      requires |contacts| == |walls|
      modifies this`position, this`speed
      ensures speed == Damped(old(speed), contacts)
      ensures position == Pushed(old(position), contacts)
    {
      var i := 0;
      while i < |walls|
        invariant 0 <= i <= |contacts|
        invariant speed == Damped(old(speed), contacts[..i])
        invariant position == Pushed(old(position), contacts[..i])
      {
        assert contacts[..i + 1][..i] == contacts[..i];
        match contacts[i] {
          case Hit(push) =>
            position := Add(position, push);
            speed := speed * 0.9;
          case Clear =>
        }
        i := i + 1;
      }
      assert contacts[..|contacts|] == contacts;
    }

    /** `moveAI`: every car takes one step (see StepCar), in pool order. */
    method MoveAI(draws: seq<AIDraw>)
      requires Valid()
      requires ValidAIDraws(draws) && |draws| == aiCars.Length
      modifies aiCars
      ensures Valid()
      ensures forall k :: 0 <= k < aiCars.Length ==> aiCars[k] == StepCar(old(aiCars[k]), draws[k])
    {
      for k := 0 to aiCars.Length
        invariant forall j :: 0 <= j < k ==> aiCars[j] == StepCar(old(aiCars[j]), draws[j])
        invariant forall j :: k <= j < aiCars.Length ==> aiCars[j] == old(aiCars[j])
      {
        var ai := aiCars[k];
        if draws[k].branchChance < 0.005 {
          ai := ai.(branch := Some(if draws[k].branchSide < 0.5 then -1 else 1));
        }
        ai := ai.(progress := ai.progress + ai.speed);
        var fraction := Min(ai.progress, 1.0);
        var offset := 0.0;
        if ai.branch.Some? {
          offset := ai.branch.value as real * 2.0;
        }
        ai := ai.(mesh := OnTrack(fraction, offset));
        aiCars[k] := ai;
      }
    }

    /** `aiCars.some(ai => ai.progress >= 1)`. */
    method SomeCarFinished() returns (finished: bool)
      ensures finished <==> AnyFinished()
    {
      finished := false;
      var k := 0;
      while k < aiCars.Length && !finished
        invariant 0 <= k <= aiCars.Length
        invariant finished <==> exists j :: 0 <= j < k && 1.0 <= aiCars[j].progress
      {
        finished := 1.0 <= aiCars[k].progress;
        k := k + 1;
      }
    }

    /** The player passed the finish line before any AI car finished. */
    predicate StageWon()
      reads this, aiCars
    {
      position.z < finishZ && !AnyFinished()
    }

    /** The race restarts this frame: the player passed the finish line, or an
        AI car finished. */
    predicate RaceOver()
      reads this, aiCars
    {
      position.z < finishZ || AnyFinished()
    }

    /** `checkFinish`: a won stage moves to the next stage and regenerates it; a
        lost stage, or any AI car at the end, resets the cars on the same track.
        Afterwards no AI car is at the end and the player is not past the line. */
    method CheckFinish(draws: seq<SegmentDraw>, speedDraws: seq<real>)
      requires Valid()
      requires ValidDraws(draws) && |draws| == Segments(stageIndex + 1)
      requires AllRandom(speedDraws) && |speedDraws| == AICount
      modifies this, aiCars
      ensures Valid()
      ensures !AnyFinished()
      ensures finishZ <= position.z
      ensures stageIndex == if old(StageWon()) then old(stageIndex) + 1 else old(stageIndex)
      ensures old(StageWon()) ==>
                && points == Waypoints(draws, Segments(stageIndex))
                && fresh(aiCars)
                && (forall k :: 0 <= k < AICount ==> aiCars[k] == SpawnCar(speedDraws[k]))
                && position == StartPosition && yaw == 0.0 && speed == 0.0
      ensures !old(StageWon()) ==>
                && points == old(points) && finishZ == old(finishZ) && walls == old(walls)
                && background == old(background) && aiCars == old(aiCars)
      ensures !old(StageWon()) && old(RaceOver()) ==>
                && position == StartPosition && yaw == 0.0 && speed == 0.0
                && forall k :: 0 <= k < aiCars.Length ==> aiCars[k] == old(aiCars[k]).(progress := 0.0)
      ensures !old(RaceOver()) ==>
                && position == old(position) && yaw == old(yaw) && speed == old(speed)
                && forall k :: 0 <= k < aiCars.Length ==> aiCars[k] == old(aiCars[k])
    {
      if position.z < finishZ {
        var aiWon := SomeCarFinished();
        if !aiWon {
          stageIndex := stageIndex + 1;
          CreateStage(draws, speedDraws);
        } else {
          ResetCars();
        }
      }

      ghost var entry := aiCars[..];
      ghost var position0, yaw0, speed0 := position, yaw, speed;
      for k := 0 to aiCars.Length
        modifies this`position, this`yaw, this`speed, aiCars
        invariant
          || (&& position == position0 && yaw == yaw0 && speed == speed0 && aiCars[..] == entry
              && forall j :: 0 <= j < k ==> aiCars[j].progress < 1.0)
          || (&& position == StartPosition && yaw == 0.0 && speed == 0.0
              && forall j :: 0 <= j < aiCars.Length ==> aiCars[j] == entry[j].(progress := 0.0))
        invariant (forall j :: 0 <= j < |entry| ==> entry[j].progress < 1.0) ==>
                    position == position0 && yaw == yaw0 && speed == speed0 && aiCars[..] == entry
      {
        if 1.0 <= aiCars[k].progress {
          ResetCars();
        }
      }
    }

    /** One animation frame: player, AI cars, finish check. */
    method Frame(keys: Keys, sinYaw: real, cosYaw: real, contacts: seq<Contact>,
                 aiDraws: seq<AIDraw>, draws: seq<SegmentDraw>, speedDraws: seq<real>)
      requires Valid()
      requires |contacts| == |walls|
      requires ValidAIDraws(aiDraws) && |aiDraws| == aiCars.Length
      requires ValidDraws(draws) && |draws| == Segments(stageIndex + 1)
      requires AllRandom(speedDraws) && |speedDraws| == AICount
      modifies this, aiCars
      ensures Valid()
      ensures !AnyFinished()
      ensures finishZ <= position.z
      ensures stageIndex == old(stageIndex) || stageIndex == old(stageIndex) + 1
    {
      MovePlayer(keys, sinYaw, cosYaw, contacts);
      MoveAI(aiDraws);
      CheckFinish(draws, speedDraws);
    }
  }
}

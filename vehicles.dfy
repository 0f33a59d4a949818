/**
 * Vehicle rules: how `movePlayer` changes the player's speed and yaw and
 * reacts to walls in contact, and how `moveAI` advances one AI car.
 * Geometry that the rendering library computes (sine and cosine, the
 * distance test, the normalised push direction, curve sampling) enters
 * as input values.
 */
module Vehicles {
  import opened Basics

  datatype Vec3 = Vec3(x: real, y: real, z: real)

  function Add(a: Vec3, b: Vec3): Vec3 {
    Vec3(a.x + b.x, a.y + b.y, a.z + b.z)
  }

  // ----- player -----

  /** The held state of the four driving keys: forward `w`, brake `s`, left `a`, right `d`. */
  datatype Keys = Keys(forward: bool, brake: bool, left: bool, right: bool)

  const Acceleration: real := 0.02
  const BrakeFactor: real := 0.95
  const MaxSpeed: real := 0.6
  const TurnRate: real := 0.04
  const ContactDamping: real := 0.9

  /** The speed rule: accelerate, then brake, then clamp to [0, MaxSpeed]. */
  function ThrottledSpeed(speed: real, keys: Keys): (r: real)
    ensures 0.0 <= r <= MaxSpeed
    ensures 0.0 <= speed <= MaxSpeed && !keys.forward && !keys.brake ==> r == speed
    ensures 0.0 <= speed <= MaxSpeed && keys.forward && !keys.brake ==> speed <= r
    ensures 0.0 <= speed <= MaxSpeed && !keys.forward && keys.brake ==> r <= speed
    ensures 0.0 <= speed && keys.forward && !keys.brake ==> (r == MaxSpeed <==> MaxSpeed <= speed + Acceleration)
  {
    var accelerated := if keys.forward then speed + Acceleration else speed;
    var braked := if keys.brake then accelerated * BrakeFactor else accelerated;
    Clamp(braked, 0.0, MaxSpeed)
  }

  /** The yaw rule: plus TurnRate for `a`, minus TurnRate for `d`. */
  function Steered(yaw: real, keys: Keys): (r: real)
    ensures r == yaw <==> keys.left == keys.right
    ensures yaw < r <==> keys.left && !keys.right
    ensures r < yaw <==> keys.right && !keys.left
  {
    var turned := if keys.left then yaw + TurnRate else yaw;
    if keys.right then turned - TurnRate else turned
  }

  /** The player moved `speed` along the heading whose sine and cosine are given. */
  function Advanced(pos: Vec3, sinYaw: real, cosYaw: real, speed: real): Vec3 {
    Vec3(pos.x - sinYaw * speed, pos.y, pos.z - cosYaw * speed)
  }

  /** Outcome of the distance test against one wall: not within 2.5, or within
      it with the push displacement (0.3 along the normalised direction from
      the wall to the player). */
  datatype Contact = Clear | Hit(push: Vec3)

  function HitCount(cs: seq<Contact>): nat {
    if cs == [] then 0 else HitCount(cs[..|cs| - 1]) + (if cs[|cs| - 1].Hit? then 1 else 0)
  }

  /** Speed after the wall loop: every wall in contact multiplies it by ContactDamping. */
  function Damped(speed: real, cs: seq<Contact>): real {
    if cs == [] then speed
    else
      var before := Damped(speed, cs[..|cs| - 1]);
      if cs[|cs| - 1].Hit? then before * ContactDamping else before
  }

  /** Position after the wall loop: every wall in contact adds its push. */
  function Pushed(pos: Vec3, cs: seq<Contact>): Vec3 {
    if cs == [] then pos
    else
      var before := Pushed(pos, cs[..|cs| - 1]);
      match cs[|cs| - 1]
      case Hit(push) => Add(before, push)
      case Clear => before
  }

  function Power(b: real, n: nat): real {
    if n == 0 then 1.0 else b * Power(b, n - 1)
  }

  /** The wall loop scales the speed by 0.9 to the number of contacts. */
  lemma {:induction false} DampedIsPower(speed: real, cs: seq<Contact>)
    ensures Damped(speed, cs) == speed * Power(ContactDamping, HitCount(cs))
  {
    if cs != [] {
      var init := cs[..|cs| - 1];
      DampedIsPower(speed, init);
      if cs[|cs| - 1].Hit? {
        calc {
          Damped(speed, cs);
          Damped(speed, init) * ContactDamping;
          speed * Power(ContactDamping, HitCount(init)) * ContactDamping;
          speed * (ContactDamping * Power(ContactDamping, HitCount(init)));
          speed * Power(ContactDamping, HitCount(cs));
        }
      }
    }
  }

  /** Contacts never raise the speed and never make it negative, and they
      lower it exactly when it is positive and some wall is in contact. */
  lemma {:induction false} DampedBounds(speed: real, cs: seq<Contact>)
    requires 0.0 <= speed
    ensures 0.0 <= Damped(speed, cs) <= speed
    ensures Damped(speed, cs) < speed <==> 0.0 < speed && 0 < HitCount(cs)
  {
    if cs != [] {
      DampedBounds(speed, cs[..|cs| - 1]);
    }
  }

  /** The speed after `frames` frames with only the forward key held. */
  function HoldForward(speed: real, frames: nat): real {
    if frames == 0 then speed
    else ThrottledSpeed(HoldForward(speed, frames - 1), Keys(true, false, false, false))
  }

  /** Holding forward from a speed in range gains Acceleration per frame until
      the speed saturates at MaxSpeed. */
  lemma {:induction false} ForwardSaturates(speed: real, frames: nat)
    requires 0.0 <= speed <= MaxSpeed
    ensures HoldForward(speed, frames) == Min(speed + Acceleration * frames as real, MaxSpeed)
  {
    if frames > 0 {
      ForwardSaturates(speed, frames - 1);
    }
  }

  // ----- AI cars -----

  const MinAISpeed: real := 0.0015
  const AISpeedRange: real := 0.0015
  const BranchProbability: real := 0.005

  /** Where the car's mesh was last put: not yet (a fresh car), or at curve
      fraction `fraction` shifted by `lateral` along x. */
  datatype Placement = Unplaced | OnTrack(fraction: real, lateral: real)

  /** An AI car: progress along the track, its fixed speed, its optional
      lateral branch direction and its mesh placement. */
  datatype AICar = AICar(progress: real, speed: real, branch: Option<int>, mesh: Placement)

  /** The random numbers one car uses in one `moveAI` step. */
  datatype AIDraw = AIDraw(branchChance: real, branchSide: real)

  predicate ValidAIDraws(ds: seq<AIDraw>) {
    forall k :: 0 <= k < |ds| ==> IsRandom(ds[k].branchChance) && IsRandom(ds[k].branchSide)
  }

  predicate ValidBranch(b: Option<int>) {
    b.Some? ==> b.value == -1 || b.value == 1
  }

  /** What holds of every AI car of a stage. */
  predicate WellFormedCar(c: AICar) {
    && 0.0 <= c.progress
    && MinAISpeed <= c.speed < MinAISpeed + AISpeedRange
    && ValidBranch(c.branch)
  }

  /** A car of a fresh AI pool, with speed `0.0015 + Math.random() * 0.0015`. */
  function SpawnCar(r: real): (c: AICar)
    requires IsRandom(r)
    ensures WellFormedCar(c)
    ensures c.progress == 0.0 && c.branch == None && c.mesh == Unplaced
    ensures 0.0015 <= c.speed < 0.003
  {
    AICar(0.0, MinAISpeed + r * AISpeedRange, None, Unplaced)
  }

  /** Curve fraction a car is drawn at: its progress, stopped at 1. */
  function SampleFraction(progress: real): (f: real)
    ensures f <= 1.0
    ensures 0.0 <= progress ==> 0.0 <= f
    ensures f == 1.0 <==> 1.0 <= progress
    ensures progress <= 1.0 ==> f == progress
  {
    Min(progress, 1.0)
  }

  /** Lateral shift of a car: twice its branch direction, or none. */
  function LateralOffset(b: Option<int>): (o: real)
    requires ValidBranch(b)
    ensures o == -2.0 || o == 0.0 || o == 2.0
    ensures o == 0.0 <==> b.None?
  {
    if b.Some? then b.value as real * 2.0 else 0.0
  }

  /** One `moveAI` step of one car: maybe (re)draw a branch, advance progress
      by the car's own speed, place the mesh. */
  function StepCar(c: AICar, d: AIDraw): (c': AICar)
    requires WellFormedCar(c) && IsRandom(d.branchChance) && IsRandom(d.branchSide)
    ensures WellFormedCar(c')
    ensures c'.progress == c.progress + c.speed && c.progress < c'.progress
    ensures c'.speed == c.speed
    ensures c.branch.Some? ==> c'.branch.Some?
    ensures c'.branch != c.branch ==> d.branchChance < BranchProbability
    ensures d.branchChance < BranchProbability ==> c'.branch.Some? && (c'.branch.value == -1 <==> d.branchSide < 0.5)
    ensures c'.mesh == OnTrack(SampleFraction(c'.progress), LateralOffset(c'.branch))
    ensures c'.mesh.OnTrack? && c'.mesh.fraction <= 1.0
    ensures c'.mesh.fraction == 1.0 <==> 1.0 <= c'.progress
    ensures c'.mesh.lateral == -2.0 || c'.mesh.lateral == 0.0 || c'.mesh.lateral == 2.0
  {
    var branch := if d.branchChance < BranchProbability then Some(if d.branchSide < 0.5 then -1 else 1) else c.branch;
    var progress := c.progress + c.speed;
    AICar(progress, c.speed, branch, OnTrack(SampleFraction(progress), LateralOffset(branch)))
  }
}

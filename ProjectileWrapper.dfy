/**
 * The threat wrapper (Wrappers/ProjectileWrapper.cs): a reference to one host
 * projectile, with its box size copied at construction, bound to the Physics
 * functions. The wrapper's methods read the projectile's position and
 * velocities through the reference at every call; the functions here take
 * the wrapper as it reads at the moment of the call, with the projectile's
 * current fields. The NPC model keeps the reference itself (NPCs.ThreatRef)
 * and builds this view again on every tick.
 */
module Wrappers {
  import opened Physics

  /** The host projectile fields the AI reads. */
  datatype Projectile = Projectile(
    position: Vec2, velocity: Vec2, oldVelocity: Vec2,
    width: int, height: int,
    damage: int, npcProj: bool, kind: int, active: bool)

  /** The host NPC fields the wrapper reads. */
  datatype Npc = Npc(position: Vec2, velocity: Vec2, oldVelocity: Vec2, width: int, height: int)

  /** The wrapper at one moment: the referenced projectile's current fields and the copied box size. */
  datatype ProjectileWrapper = ProjectileWrapper(projectile: Projectile, height: int, width: int)

  /** `new ProjectileWrapper(projectile)` */
  function Wrap(projectile: Projectile): (w: ProjectileWrapper)
    ensures w.projectile == projectile
    ensures w.width == projectile.width && w.height == projectile.height
  {
    ProjectileWrapper(projectile, projectile.height, projectile.width)
  }

  /** The projectile's acceleration: the last velocity change, or zero while oldVelocity is zero. */
  function GetAcceleration(w: ProjectileWrapper): (acc: Vec2)
    ensures w.projectile.oldVelocity == Zero ==> acc == Zero
    ensures w.projectile.oldVelocity != Zero ==> Add(w.projectile.oldVelocity, acc) == w.projectile.velocity
  {
    if w.projectile.oldVelocity == Zero then Zero
    else Sub(w.projectile.velocity, w.projectile.oldVelocity)
  }

  /** The projectile as body A of Collision; its acceleration is always velocity - oldVelocity. */
  function AsBody(w: ProjectileWrapper): Body
  {
    Body(w.projectile.position, w.projectile.velocity,
         Sub(w.projectile.velocity, w.projectile.oldVelocity),
         w.width as real, w.height as real)
  }

  /** Hit(position, velocity, acceleration, w, h): the projectile is body A, the target body B. */
  function HitBody(sqrt: real -> real, w: ProjectileWrapper, position: Vec2, velocity: Vec2, acceleration: Vec2,
                   width: real, height: real): (r: HitResult)
    ensures r.time > 0.0
    ensures r.side == NONE <==> r.time == MaxValue
  {
    CollisionSide(sqrt, AsBody(w), Body(position, velocity, acceleration, width, height));
    Collision(sqrt, AsBody(w), Body(position, velocity, acceleration, width, height))
  }

  /**
   * Hit(npc): the NPC is given zero acceleration; the acceleration the code
   * computes from npc.oldVelocity is never used.
   */
  function Hit(sqrt: real -> real, w: ProjectileWrapper, npc: Npc): HitResult
  {
    HitBody(sqrt, w, npc.position, npc.velocity, Zero, npc.width as real, npc.height as real)
  }

  /**
   * Hit and the wrapper's own kinematics disagree on a projectile whose
   * oldVelocity is zero: Hit treats its whole velocity as acceleration,
   * GetAcceleration reports none.
   */
  lemma HitAccelerationIgnoresZeroGuard(sqrt: real -> real, w: ProjectileWrapper, npc: Npc)
    requires w.projectile.oldVelocity == Zero
    ensures GetAcceleration(w) == Zero
    ensures Hit(sqrt, w, npc) == Collision(sqrt,
              Body(w.projectile.position, w.projectile.velocity, w.projectile.velocity, w.width as real, w.height as real),
              Body(npc.position, npc.velocity, Zero, npc.width as real, npc.height as real))
  {
  }

  function InstantaneousVelocity(w: ProjectileWrapper, time: real): (v: Vec2)
    ensures w.projectile.oldVelocity == Zero ==> v == w.projectile.velocity
  {
    Physics.InstantaneousVelocity(w.projectile.velocity, GetAcceleration(w), time)
  }

  function InstantaneousPosition(w: ProjectileWrapper, time: real): (p: Vec2)
    ensures time == 0.0 ==> p == w.projectile.position
    ensures p == Vec2(LocationXAtTime(w, time), LocationYAtTime(w, time))
  {
    Physics.InstantaneousPosition(w.projectile.position, w.projectile.velocity, GetAcceleration(w), time)
  }

  function LocationXAtTime(w: ProjectileWrapper, time: real): real
  {
    Physics.LocationXAtTime(w.projectile.position, w.projectile.velocity, GetAcceleration(w), time)
  }

  function LocationYAtTime(w: ProjectileWrapper, time: real): real
  {
    Physics.LocationYAtTime(w.projectile.position, w.projectile.velocity, GetAcceleration(w), time)
  }

  function LocationXGivenY(sqrt: real -> real, w: ProjectileWrapper, y: real): Float
  {
    Physics.LocationXGivenY(sqrt, w.projectile.position, w.projectile.velocity, GetAcceleration(w), y)
  }

  function LocationYGivenX(sqrt: real -> real, w: ProjectileWrapper, x: real): Float
  {
    Physics.LocationYGivenX(sqrt, w.projectile.position, w.projectile.velocity, GetAcceleration(w), x)
  }

  /**
   * LocationXGivenY(y) is the projectile's X when its Y has moved BY y from
   * its current position; when that never happens and the projectile has no
   * horizontal acceleration, it is NaN.
   */
  lemma LocationXGivenYIsAtDisplacement(sqrt: real -> real, w: ProjectileWrapper, y: real)
    requires IsSqrt(sqrt)
    ensures var acc := GetAcceleration(w);
            var t := SolveForTime(sqrt, w.projectile.velocity.y, acc.y, y);
            && (t != MaxValue ==> LocationXGivenY(sqrt, w, y) == Num(LocationXAtTime(w, t))
                                  && LocationYAtTime(w, t) == w.projectile.position.y + y)
            && (t == MaxValue && acc.x == 0.0 ==> LocationXGivenY(sqrt, w, y) == NaN)
  {
    LocationXGivenYReachesDisplacement(sqrt, w.projectile.position, w.projectile.velocity, GetAcceleration(w), y);
  }

  /** Sampled confirmation: the projectile's box at time +- 0.1 against the target box. */
  predicate WillCollide(w: ProjectileWrapper, targetPosition: Vec2, targetWidth: int, targetHeight: int, time: real)
  {
    || Intersects(InstantaneousPosition(w, time + 0.1), w.width as real, w.height as real,
                  targetPosition, targetWidth as real, targetHeight as real)
    || Intersects(InstantaneousPosition(w, time - 0.1), w.width as real, w.height as real,
                  targetPosition, targetWidth as real, targetHeight as real)
  }

  /** A confirmed sample means the two boxes really overlap at one of the two sampled instants. */
  lemma WillCollideMeansOverlapAtSample(w: ProjectileWrapper, targetPosition: Vec2, targetWidth: int, targetHeight: int, time: real)
    requires w.width >= 0 && w.height >= 0
    ensures WillCollide(w, targetPosition, targetWidth, targetHeight, time) ==>
            || BoxesOverlap(InstantaneousPosition(w, time + 0.1), w.width as real, w.height as real,
                            targetPosition, targetWidth as real, targetHeight as real)
            || BoxesOverlap(InstantaneousPosition(w, time - 0.1), w.width as real, w.height as real,
                            targetPosition, targetWidth as real, targetHeight as real)
  {
    IntersectsImpliesOverlap(InstantaneousPosition(w, time + 0.1), w.width as real, w.height as real,
                             targetPosition, targetWidth as real, targetHeight as real);
    IntersectsImpliesOverlap(InstantaneousPosition(w, time - 0.1), w.width as real, w.height as real,
                             targetPosition, targetWidth as real, targetHeight as real);
  }

  /**
   * WillCollideWithNPC(npc, time): the NPC moves on at its current velocity,
   * whatever its oldVelocity. At the sentinel time the NPC's future position
   * is NaN (its zero acceleration times the overflowed square of
   * float.MaxValue), every Between test on it fails, and the answer is false.
   */
  predicate WillCollideWithNPC(w: ProjectileWrapper, npc: Npc, time: real)
  {
    if time == MaxValue then false
    else
      var npcFuturePosition := Physics.InstantaneousPosition(npc.position, npc.velocity, Zero, time);
      WillCollide(w, npcFuturePosition, npc.width, npc.height, time)
  }

  /**
   * The NPC is placed at position + velocity * time: no acceleration, and
   * oldVelocity is not read; the "never" time never confirms a hit.
   */
  lemma WillCollideWithNPCAtConstantVelocity(w: ProjectileWrapper, npc: Npc, time: real, oldVelocity: Vec2)
    ensures WillCollideWithNPC(w, npc, time)
            == (time != MaxValue &&
                WillCollide(w, Vec2(npc.position.x + npc.velocity.x * time, npc.position.y + npc.velocity.y * time),
                            npc.width, npc.height, time))
    ensures WillCollideWithNPC(w, npc.(oldVelocity := oldVelocity), time) == WillCollideWithNPC(w, npc, time)
  {
    var p := Physics.InstantaneousPosition(npc.position, npc.velocity, Zero, time);
    assert p.x == npc.position.x + npc.velocity.x * time + 0.5 * 0.0 * (time * time);
    assert p.y == npc.position.y + npc.velocity.y * time + 0.5 * 0.0 * (time * time);
  }

  /** Hit(npc) does not read npc.oldVelocity. */
  lemma HitIgnoresNpcOldVelocity(sqrt: real -> real, w: ProjectileWrapper, npc: Npc, oldVelocity: Vec2)
    ensures Hit(sqrt, w, npc.(oldVelocity := oldVelocity)) == Hit(sqrt, w, npc)
  {
  }

  /**
   * WillCollideWithNPC(npc, acceleration, time): the NPC moves with the given
   * acceleration. At the sentinel time a zero component of it makes that
   * coordinate NaN, and the answer is false.
   */
  predicate WillCollideWithNPCAccelerating(w: ProjectileWrapper, npc: Npc, acceleration: Vec2, time: real)
    ensures acceleration == Zero ==>
            WillCollideWithNPCAccelerating(w, npc, acceleration, time) == WillCollideWithNPC(w, npc, time)
  {
    if time == MaxValue && (acceleration.x == 0.0 || acceleration.y == 0.0) then false
    else
      var npcFuturePosition := Physics.InstantaneousPosition(npc.position, npc.velocity, acceleration, time);
      WillCollide(w, npcFuturePosition, npc.width, npc.height, time)
  }

  /** Scenario: a 10x10 projectile 100 to the right of a 20x20 NPC, flying left at 10 per tick. */
  lemma HitFromTheRight(sqrt: real -> real)
    ensures var p := Projectile(Vec2(100.0, 0.0), Vec2(-10.0, 0.0), Vec2(-10.0, 0.0), 10, 10, 5, false, 1, true);
            var npc := Npc(Vec2(0.0, 0.0), Zero, Zero, 20, 20);
            Hit(sqrt, Wrap(p), npc) == HitResult(8.5, LEFT)
  {
  }

  /** Scenario: the same projectile falling onto the NPC from 100 above. */
  lemma HitFromAbove(sqrt: real -> real)
    ensures var p := Projectile(Vec2(0.0, -100.0), Vec2(0.0, 10.0), Vec2(0.0, 10.0), 10, 10, 5, false, 1, true);
            var npc := Npc(Vec2(0.0, 0.0), Zero, Zero, 20, 20);
            Hit(sqrt, Wrap(p), npc) == HitResult(8.5, TOP)
  {
  }

  /**
   * Scenario: the shot of HitFromTheRight, but speeding up by 1 per tick
   * (oldVelocity -9, velocity -10). Its left edge reaches the NPC's right edge
   * at a positive time (t = -10 + sqrt(270), about 6.43), yet Hit predicts no
   * hit at all: the left-face time is the "+" root, which is negative here.
   */
  lemma AcceleratingShotIsNeverPredicted(sqrt: real -> real)
    requires IsSqrt(sqrt)
    ensures var p := Projectile(Vec2(100.0, 0.0), Vec2(-10.0, 0.0), Vec2(-9.0, 0.0), 10, 10, 5, false, 1, true);
            var npc := Npc(Vec2(0.0, 0.0), Zero, Zero, 20, 20);
            && Hit(sqrt, Wrap(p), npc) == HitResult(MaxValue, NONE)
            && exists t :: t > 0.0 && LocationXAtTime(Wrap(p), t) - 5.0 == npc.position.x + 10.0
  {
    var p := Projectile(Vec2(100.0, 0.0), Vec2(-10.0, 0.0), Vec2(-9.0, 0.0), 10, 10, 5, false, 1, true);
    // left face: the gap is (0 + 10) - (100 - 5) = -85
    NegativeAccelerationMissesTarget(sqrt, -10.0, -1.0, -85.0);
    // right face: the gap is (100 + 5) - (0 - 10) = 115, and the discriminant 100 - 230 is negative
    assert QuadraticFormula(sqrt, -1.0 / 2.0, -10.0, -115.0) == NaN;
    var f := FaceTimesOf(sqrt, AsBody(Wrap(p)), Body(Vec2(0.0, 0.0), Zero, Zero, 20.0, 20.0));
    assert f == FaceTimes(MaxValue, MaxValue, MaxValue, MaxValue);
    var t :| t > 0.0 && Displacement(-10.0, -1.0, t) == -85.0;
    assert LocationXAtTime(Wrap(p), t) == 100.0 + Displacement(-10.0, -1.0, t);
  }

  /** Scenario: a projectile that does not move relative to the NPC never hits. */
  lemma NoRelativeMotionNeverHits(sqrt: real -> real, p: Projectile, npc: Npc)
    requires p.velocity == p.oldVelocity && p.velocity == npc.velocity
    ensures Hit(sqrt, Wrap(p), npc) == HitResult(MaxValue, NONE)
  {
    var f := FaceTimesOf(sqrt, AsBody(Wrap(p)), Body(npc.position, npc.velocity, Zero, npc.width as real, npc.height as real));
    assert f == FaceTimes(MaxValue, MaxValue, MaxValue, MaxValue);
  }

  /**
   * Scenario: flying right towards the NPC from 100 to the left, the
   * projectile is reported as LEFT at 11.5 ticks, once it has passed through
   * (see HitFromTheLeftOverlapsBefore).
   */
  lemma HitFromTheLeftIsLate(sqrt: real -> real)
    ensures var p := Projectile(Vec2(-100.0, 0.0), Vec2(10.0, 0.0), Vec2(10.0, 0.0), 10, 10, 5, false, 1, true);
            var npc := Npc(Vec2(0.0, 0.0), Zero, Zero, 20, 20);
            Hit(sqrt, Wrap(p), npc) == HitResult(11.5, LEFT)
  {
    var a := Body(Vec2(-100.0, 0.0), Vec2(10.0, 0.0), Zero, 10.0, 10.0);
    var b := Body(Vec2(0.0, 0.0), Zero, Zero, 20.0, 20.0);
    assert FaceTimesOf(sqrt, a, b) == FaceTimes(MaxValue, MaxValue, 11.5, MaxValue);
  }

  /** In the same scenario the projectile's box already intersects the NPC's at 9 ticks. */
  lemma HitFromTheLeftOverlapsBefore()
    ensures var w := Wrap(Projectile(Vec2(-100.0, 0.0), Vec2(10.0, 0.0), Vec2(10.0, 0.0), 10, 10, 5, false, 1, true));
            Intersects(InstantaneousPosition(w, 9.0), 10.0, 10.0, Vec2(0.0, 0.0), 20.0, 20.0)
  {
    var w := Wrap(Projectile(Vec2(-100.0, 0.0), Vec2(10.0, 0.0), Vec2(10.0, 0.0), 10, 10, 5, false, 1, true));
    UniformMotion(w, 9.0);
    var pos := InstantaneousPosition(w, 9.0);
    assert pos == Vec2(-10.0, 0.0);
    CornerInsideNpcBox(pos);
  }

  /** Proof step: a 10x10 box centred at (-10, 0) has its right and top edges inside a 20x20 box at the origin. */
  lemma CornerInsideNpcBox(pos: Vec2)
    requires pos == Vec2(-10.0, 0.0)
    ensures Intersects(pos, 10.0, 10.0, Vec2(0.0, 0.0), 20.0, 20.0)
  {
  }

  /** A projectile whose velocity did not change moves in a straight line at that velocity. */
  lemma UniformMotion(w: ProjectileWrapper, time: real)
    requires w.projectile.velocity == w.projectile.oldVelocity
    ensures InstantaneousPosition(w, time)
            == Vec2(w.projectile.position.x + w.projectile.velocity.x * time,
                    w.projectile.position.y + w.projectile.velocity.y * time)
  {
  }
}

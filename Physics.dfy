/**
 * Closed-form kinematics and the collision solver of the dodging AI
 * (Physics.cs). Single-precision floats are modelled as mathematical reals;
 * the two float values the code relies on are explicit: NaN (only produced by
 * the root finder) and the `float.MaxValue` "never" sentinel.
 */
module Physics {

  /** Microsoft.Xna.Framework.Vector2 */
  datatype Vec2 = Vec2(x: real, y: real)

  const Zero: Vec2 := Vec2(0.0, 0.0)

  function Add(u: Vec2, v: Vec2): Vec2 { Vec2(u.x + v.x, u.y + v.y) }

  function Sub(u: Vec2, v: Vec2): Vec2 { Vec2(u.x - v.x, u.y - v.y) }

  /** A float that may be NaN. */
  datatype Float = NaN | Num(value: real)

  /** float.MaxValue, used by the solver as the "never" time. */
  const MaxValue: real := 340282346638528859811704183484516925440.0

  /** Math.Sign on a (non-NaN) float. */
  function Sign(x: real): (s: int)
    ensures -1 <= s <= 1
    ensures s > 0 <==> x > 0.0
    ensures s < 0 <==> x < 0.0
  {
    if x > 0.0 then 1 else if x < 0.0 then -1 else 0
  }

  /** Math.Abs */
  function Abs(x: real): real { if x < 0.0 then -x else x }

  /** Math.Min on non-NaN floats. */
  function Min(a: real, b: real): real { if a <= b then a else b }

  /**
   * Math.Sqrt is host library code: the model takes it as a parameter, and
   * the lemmas that need the root to be exact assume it is the non-negative
   * square root on non-negative arguments.
   */
  ghost predicate IsSqrt(sqrt: real -> real)
  {
    forall x :: 0.0 <= x ==> sqrt(x) >= 0.0 && sqrt(x) * sqrt(x) == x
  }

  /** `result >= 0 ? result : float.NaN` */
  function NonNegativeOrNaN(r: real): Float
  {
    if r >= 0.0 then Num(r) else NaN
  }

  /**
   * Root of a*t^2 + b*t + c: the linear root when a == 0 and b != 0, else the
   * "+" root of the quadratic formula; negative roots become NaN. When a and
   * b are both zero the code divides 0 by 0, which is NaN.
   */
  function QuadraticFormula(sqrt: real -> real, a: real, b: real, c: real): (r: Float)
    ensures r.Num? ==> r.value >= 0.0
    ensures a == 0.0 && b == 0.0 ==> r == NaN
    ensures a == 0.0 && b != 0.0 ==> r == NonNegativeOrNaN(-c / b)
    ensures a != 0.0 && b * b - 4.0 * a * c < 0.0 ==> r == NaN
  {
    if a == 0.0 && b != 0.0 then
      NonNegativeOrNaN(-c / b)
    else
      var partial := b * b - 4.0 * a * c;
      if partial >= 0.0 then
        if a == 0.0 then NaN  // here b == 0 and partial == 0: (-0 + sqrt(0)) / 0
        else NonNegativeOrNaN((-b + sqrt(partial)) / (2.0 * a))
      else NaN
  }

  /** Any number QuadraticFormula returns for a proper quadratic is a root. */
  lemma QuadraticFormulaIsRoot(sqrt: real -> real, a: real, b: real, c: real)
    requires IsSqrt(sqrt)
    ensures var r := QuadraticFormula(sqrt, a, b, c);
            r.Num? ==> a * r.value * r.value + b * r.value + c == 0.0
  {
  }

  /**
   * Time t > 0 at which 1/2 * deltaVelocity * t^2 + velocity * t == x, or
   * MaxValue when the root finder gives none.
   */
  function SolveForTime(sqrt: real -> real, velocity: real, deltaVelocity: real, x: real): (t: real)
    ensures t > 0.0
    ensures velocity == 0.0 && deltaVelocity == 0.0 ==> t == MaxValue
  {
    var time := QuadraticFormula(sqrt, deltaVelocity / 2.0, velocity, -x);
    if time.Num? && time.value > 0.0 then time.value else MaxValue
  }

  /** Distance covered in time t from initial velocity v under constant acceleration acc. */
  function Displacement(v: real, acc: real, t: real): real
  {
    v * t + 0.5 * acc * (t * t)
  }

  /** Any time other than the sentinel solves the displacement equation. */
  lemma SolveForTimeSolves(sqrt: real -> real, velocity: real, deltaVelocity: real, x: real)
    requires IsSqrt(sqrt)
    ensures var t := SolveForTime(sqrt, velocity, deltaVelocity, x);
            t != MaxValue ==> Displacement(velocity, deltaVelocity, t) == x
  {
  }

  /**
   * The solver only returns the "+" root: with two positive roots the earlier
   * one is not reported (t^2 - 3t + 2 = 0 has roots 1 and 2; 2 is returned).
   */
  lemma SolveForTimeTakesPlusRoot(sqrt: real -> real)
    requires IsSqrt(sqrt)
    ensures SolveForTime(sqrt, -3.0, 2.0, -2.0) == 2.0
    ensures Displacement(-3.0, 2.0, 1.0) == -2.0
  {
    var s := sqrt(1.0);
    assert s >= 0.0 && s * s == 1.0;
    assert (s - 1.0) * (s + 1.0) == 0.0;
    assert s + 1.0 > 0.0;
    assert s - 1.0 == 0.0;
    assert QuadraticFormula(sqrt, 1.0, -3.0, 2.0) == Num(2.0);
  }

  /**
   * The solver can miss a target altogether: with a negative acceleration
   * and a negative target, the "+" root is negative, so the answer is the
   * "never" sentinel, yet the target is reached at a positive time (the "-"
   * root).
   */
  lemma NegativeAccelerationMissesTarget(sqrt: real -> real, velocity: real, deltaVelocity: real, x: real)
    requires IsSqrt(sqrt)
    requires deltaVelocity < 0.0 && x < 0.0
    ensures SolveForTime(sqrt, velocity, deltaVelocity, x) == MaxValue
    ensures exists t :: t > 0.0 && Displacement(velocity, deltaVelocity, t) == x
  {
    var s := NegativeAccelerationRoots(sqrt, velocity, deltaVelocity, x);
    var t := MinusRootReachesTarget(velocity, deltaVelocity, x, s);
  }

  /**
   * Proof step: the discriminant's root s exceeds |velocity|, so the "+" root
   * (s - velocity) / deltaVelocity is negative and the formula gives NaN.
   */
  lemma NegativeAccelerationRoots(sqrt: real -> real, velocity: real, deltaVelocity: real, x: real) returns (s: real)
    requires IsSqrt(sqrt)
    requires deltaVelocity < 0.0 && x < 0.0
    ensures s >= 0.0 && s * s == velocity * velocity + 2.0 * deltaVelocity * x
    ensures s > velocity && s > -velocity
    ensures QuadraticFormula(sqrt, deltaVelocity / 2.0, velocity, -x) == NaN
  {
    var partial := velocity * velocity - 4.0 * (deltaVelocity / 2.0) * -x;
    assert deltaVelocity * x > 0.0;
    s := sqrt(partial);
    RootExceedsMagnitude(s, velocity);
    assert (-velocity + s) / (2.0 * (deltaVelocity / 2.0)) < 0.0;
  }

  /** Proof step: the "-" root (-velocity - s) / deltaVelocity is positive and reaches x. */
  lemma MinusRootReachesTarget(velocity: real, deltaVelocity: real, x: real, s: real) returns (t: real)
    requires deltaVelocity < 0.0
    requires s * s == velocity * velocity + 2.0 * deltaVelocity * x && s > -velocity
    ensures t > 0.0 && Displacement(velocity, deltaVelocity, t) == x
  {
    t := (-velocity - s) / deltaVelocity;
    assert deltaVelocity * t == -velocity - s;
    assert velocity * t + 0.5 * deltaVelocity * (t * t) == 0.5 * t * (velocity - s);
    assert 0.5 * t * (velocity - s) * deltaVelocity == 0.5 * (s * s - velocity * velocity);
  }

  /** Proof step: a non-negative number whose square exceeds v*v exceeds |v|. */
  lemma RootExceedsMagnitude(s: real, v: real)
    requires s >= 0.0 && s * s > v * v
    ensures s > v && s > -v
  {
  }

  /**
   * Without a negative acceleration no target is missed: if some positive
   * time reaches x, the solver returns a time that really reaches x, no
   * earlier than that one (with zero acceleration, exactly that one).
   */
  lemma NonNegativeAccelerationFindsTarget(sqrt: real -> real, velocity: real, deltaVelocity: real, x: real, t: real)
    requires IsSqrt(sqrt)
    requires deltaVelocity >= 0.0 && !(velocity == 0.0 && deltaVelocity == 0.0)
    requires t > 0.0 && Displacement(velocity, deltaVelocity, t) == x
    ensures var time := SolveForTime(sqrt, velocity, deltaVelocity, x);
            time >= t && Displacement(velocity, deltaVelocity, time) == x
    ensures deltaVelocity == 0.0 ==> SolveForTime(sqrt, velocity, deltaVelocity, x) == t
  {
    if deltaVelocity == 0.0 {
      assert velocity * t == x;
      assert -(-x) / velocity == t;
    } else {
      var r := PositiveAccelerationRoot(sqrt, velocity, deltaVelocity, x, t);
    }
  }

  /** Proof step: with a positive acceleration the "+" root is the later root, so it is no earlier than t. */
  lemma PositiveAccelerationRoot(sqrt: real -> real, velocity: real, deltaVelocity: real, x: real, t: real)
    returns (r: real)
    requires IsSqrt(sqrt)
    requires deltaVelocity > 0.0 && t > 0.0 && Displacement(velocity, deltaVelocity, t) == x
    ensures r >= t && QuadraticFormula(sqrt, deltaVelocity / 2.0, velocity, -x) == Num(r)
    ensures Displacement(velocity, deltaVelocity, r) == x
  {
    var u := deltaVelocity * t + velocity;
    var partial := velocity * velocity - 4.0 * (deltaVelocity / 2.0) * -x;
    assert partial == u * u by {
      assert x == velocity * t + 0.5 * deltaVelocity * (t * t);
    }
    var s := sqrt(partial);
    NonNegativeRootAtLeast(s, u);
    r := (-velocity + s) / (2.0 * (deltaVelocity / 2.0));
    assert -velocity + s >= deltaVelocity * t;
    QuadraticFormulaIsRoot(sqrt, deltaVelocity / 2.0, velocity, -x);
    assert deltaVelocity / 2.0 * r * r + velocity * r + -x == 0.0;
  }

  /** Proof step: a non-negative number whose square is u*u is at least u. */
  lemma NonNegativeRootAtLeast(s: real, u: real)
    requires s >= 0.0 && s * s == u * u
    ensures s >= u
  {
    assert (s - u) * (s + u) == 0.0;
    assert s - u == 0.0 || s + u == 0.0;
  }

  function InstantaneousVelocity(velocity: Vec2, acceleration: Vec2, time: real): (v: Vec2)
    ensures time == 0.0 ==> v == velocity
    ensures acceleration == Zero ==> v == velocity
  {
    Vec2(velocity.x + acceleration.x * time, velocity.y + acceleration.y * time)
  }

  /**
   * InstantaneousVelocity is the rate of change of the predicted position:
   * over any interval centred on t, the position moves by the interval's
   * length times the velocity at t.
   */
  lemma VelocityIsRateOfPosition(position: Vec2, velocity: Vec2, acceleration: Vec2, t: real, h: real)
    ensures var v := InstantaneousVelocity(velocity, acceleration, t);
            && LocationXAtTime(position, velocity, acceleration, t + h)
               - LocationXAtTime(position, velocity, acceleration, t - h) == 2.0 * h * v.x
            && LocationYAtTime(position, velocity, acceleration, t + h)
               - LocationYAtTime(position, velocity, acceleration, t - h) == 2.0 * h * v.y
  {
    VelocityIsRateOfX(position, velocity, acceleration, t, h);
    VelocityIsRateOfY(position, velocity, acceleration, t, h);
  }

  /** Proof step: the x coordinate of VelocityIsRateOfPosition. */
  lemma VelocityIsRateOfX(position: Vec2, velocity: Vec2, acceleration: Vec2, t: real, h: real)
    ensures LocationXAtTime(position, velocity, acceleration, t + h)
            - LocationXAtTime(position, velocity, acceleration, t - h)
            == 2.0 * h * InstantaneousVelocity(velocity, acceleration, t).x
  {
    CentralDifference(position.x, velocity.x, acceleration.x, t, h);
  }

  /** Proof step: the y coordinate of VelocityIsRateOfPosition. */
  lemma VelocityIsRateOfY(position: Vec2, velocity: Vec2, acceleration: Vec2, t: real, h: real)
    ensures LocationYAtTime(position, velocity, acceleration, t + h)
            - LocationYAtTime(position, velocity, acceleration, t - h)
            == 2.0 * h * InstantaneousVelocity(velocity, acceleration, t).y
  {
    CentralDifference(position.y, velocity.y, acceleration.y, t, h);
  }

  /** Proof step: the central difference of one coordinate. */
  lemma CentralDifference(p: real, v: real, a: real, t: real, h: real)
    ensures (p + v * (t + h) + 0.5 * a * ((t + h) * (t + h)))
            - (p + v * (t - h) + 0.5 * a * ((t - h) * (t - h))) == 2.0 * h * (v + a * t)
  {
  }

  function LocationXAtTime(position: Vec2, velocity: Vec2, acceleration: Vec2, time: real): (x: real)
    ensures time == 0.0 ==> x == position.x
  {
    position.x + velocity.x * time + 0.5 * acceleration.x * (time * time)
  }

  function LocationYAtTime(position: Vec2, velocity: Vec2, acceleration: Vec2, time: real): (y: real)
    ensures time == 0.0 ==> y == position.y
  {
    position.y + velocity.y * time + 0.5 * acceleration.y * (time * time)
  }

  function InstantaneousPosition(position: Vec2, velocity: Vec2, acceleration: Vec2, time: real): (p: Vec2)
    ensures time == 0.0 ==> p == position
    ensures p.x == LocationXAtTime(position, velocity, acceleration, time)
    ensures p.y == LocationYAtTime(position, velocity, acceleration, time)
  {
    Vec2(LocationXAtTime(position, velocity, acceleration, time),
         LocationYAtTime(position, velocity, acceleration, time))
  }

  /**
   * A coordinate at a time SolveForTime returned. At the sentinel time the C#
   * expression squares float.MaxValue, which overflows to infinity, and with
   * no acceleration on that axis 0 * infinity makes the coordinate NaN.
   */
  function CoordinateAtSolvedTime(position: real, velocity: real, acceleration: real, time: real): (c: Float)
    ensures c.NaN? <==> time == MaxValue && acceleration == 0.0
    ensures c.Num? ==> c.value == LocationXAtTime(Vec2(position, 0.0), Vec2(velocity, 0.0), Vec2(acceleration, 0.0), time)
  {
    if time == MaxValue && acceleration == 0.0 then NaN
    else Num(position + Displacement(velocity, acceleration, time))
  }

  /**
   * X at the time the body's Y has been displaced by `y` (SolveForTime starts
   * from displacement 0, so `y` is not an absolute coordinate).
   */
  function LocationXGivenY(sqrt: real -> real, position: Vec2, velocity: Vec2, acceleration: Vec2, y: real): Float
  {
    var time := SolveForTime(sqrt, velocity.y, acceleration.y, y);
    CoordinateAtSolvedTime(position.x, velocity.x, acceleration.x, time)
  }

  /** As written, the time is solved with position.X as the velocity and velocity.X as the acceleration. */
  function LocationYGivenX(sqrt: real -> real, position: Vec2, velocity: Vec2, acceleration: Vec2, x: real): Float
  {
    var time := SolveForTime(sqrt, position.x, velocity.x, x);
    CoordinateAtSolvedTime(position.y, velocity.y, acceleration.y, time)
  }

  /**
   * LocationXGivenY is the X at the time Y has moved by exactly y; when Y
   * never moves by y and there is no horizontal acceleration, it is NaN.
   */
  lemma LocationXGivenYReachesDisplacement(sqrt: real -> real, position: Vec2, velocity: Vec2, acceleration: Vec2, y: real)
    requires IsSqrt(sqrt)
    ensures var t := SolveForTime(sqrt, velocity.y, acceleration.y, y);
            var x := LocationXGivenY(sqrt, position, velocity, acceleration, y);
            && (t != MaxValue ==> x == Num(LocationXAtTime(position, velocity, acceleration, t))
                                  && LocationYAtTime(position, velocity, acceleration, t) == position.y + y)
            && (t == MaxValue && acceleration.x == 0.0 ==> x == NaN)
            && (velocity.y == 0.0 && acceleration.y == 0.0 && acceleration.x == 0.0 ==> x == NaN)
  {
    var t := SolveForTime(sqrt, velocity.y, acceleration.y, y);
    if t != MaxValue {
      SolveForTimeSolves(sqrt, velocity.y, acceleration.y, y);
      assert LocationXAtTime(position, velocity, acceleration, t) == position.x + Displacement(velocity.x, acceleration.x, t);
    }
  }

  /**
   * LocationYGivenX solves with position.X as the velocity and velocity.X as
   * the acceleration, and is NaN at the sentinel time with no vertical acceleration.
   */
  lemma LocationYGivenXUsesPositionAsVelocity(sqrt: real -> real, position: Vec2, velocity: Vec2, acceleration: Vec2, x: real)
    requires IsSqrt(sqrt)
    ensures var t := SolveForTime(sqrt, position.x, velocity.x, x);
            var y := LocationYGivenX(sqrt, position, velocity, acceleration, x);
            && (t != MaxValue ==> y == Num(LocationYAtTime(position, velocity, acceleration, t))
                                  && Displacement(position.x, velocity.x, t) == x)
            && (t == MaxValue && acceleration.y == 0.0 ==> y == NaN)
  {
    var t := SolveForTime(sqrt, position.x, velocity.x, x);
    if t != MaxValue {
      SolveForTimeSolves(sqrt, position.x, velocity.x, x);
      assert LocationYAtTime(position, velocity, acceleration, t) == position.y + Displacement(velocity.y, acceleration.y, t);
    }
  }

  predicate Between(x: real, s1: real, s2: real)
  {
    x >= s1 && x <= s2
  }

  /** Does an edge of box A (each axis) lie inside box B? */
  predicate Intersects(centerA: Vec2, widthA: real, heightA: real, centerB: Vec2, widthB: real, heightB: real)
  {
    var leftIntersects := Between(centerA.x - widthA / 2.0, centerB.x - widthB / 2.0, centerB.x + widthB / 2.0);
    var rightIntersects := Between(centerA.x + widthA / 2.0, centerB.x - widthB / 2.0, centerB.x + widthB / 2.0);
    var topIntersects := Between(centerA.y - heightA / 2.0, centerB.y - heightB / 2.0, centerB.y + heightB / 2.0);
    var bottomIntersects := Between(centerA.y + heightA / 2.0, centerB.y - heightB / 2.0, centerB.y + heightB / 2.0);
    (leftIntersects || rightIntersects) && (topIntersects || bottomIntersects)
  }

  /** Does box A straddle one of B's edges on each axis? */
  predicate WillCollide(positionA: Vec2, widthA: real, heightA: real, positionB: Vec2, widthB: real, heightB: real)
  {
    var leftBeforeLeft := positionA.x - widthA / 2.0 <= positionB.x - widthB / 2.0;
    var rightPastRight := positionA.x + widthA / 2.0 >= positionB.x + widthB / 2.0;
    var rightPastLeft := positionA.x + widthA / 2.0 >= positionB.x - widthB / 2.0;
    var leftBeforeRight := positionA.x - widthA / 2.0 <= positionB.x + widthB / 2.0;

    var bottomPastBottom := positionA.y + heightA / 2.0 >= positionB.y + heightB / 2.0;
    var topBeforeTop := positionA.y - heightA / 2.0 <= positionB.y - heightB / 2.0;
    var bottomPastTop := positionA.y + heightA / 2.0 >= positionB.y - heightB / 2.0;
    var topBeforeBottom := positionA.y - heightA / 2.0 <= positionB.y + heightB / 2.0;

    var xCollision := (rightPastLeft && leftBeforeLeft) || (leftBeforeRight && rightPastRight);
    var yCollision := (bottomPastTop && topBeforeTop) || (topBeforeBottom && bottomPastBottom);
    xCollision && yCollision
  }

  /** Reference notion: the closed x-ranges and the closed y-ranges of the two boxes overlap. */
  predicate BoxesOverlap(centerA: Vec2, widthA: real, heightA: real, centerB: Vec2, widthB: real, heightB: real)
  {
    && centerA.x - widthA / 2.0 <= centerB.x + widthB / 2.0
    && centerB.x - widthB / 2.0 <= centerA.x + widthA / 2.0
    && centerA.y - heightA / 2.0 <= centerB.y + heightB / 2.0
    && centerB.y - heightB / 2.0 <= centerA.y + heightA / 2.0
  }

  lemma IntersectsImpliesOverlap(centerA: Vec2, widthA: real, heightA: real, centerB: Vec2, widthB: real, heightB: real)
    requires widthA >= 0.0 && heightA >= 0.0
    ensures Intersects(centerA, widthA, heightA, centerB, widthB, heightB) ==>
            BoxesOverlap(centerA, widthA, heightA, centerB, widthB, heightB)
  {
  }

  /** For a box no larger than the other, the edge test is exactly overlap. */
  lemma IntersectsIffOverlapWhenSmaller(centerA: Vec2, widthA: real, heightA: real, centerB: Vec2, widthB: real, heightB: real)
    requires 0.0 <= widthA <= widthB && 0.0 <= heightA <= heightB
    ensures Intersects(centerA, widthA, heightA, centerB, widthB, heightB) <==>
            BoxesOverlap(centerA, widthA, heightA, centerB, widthB, heightB)
  {
  }

  /** A box strictly inside a larger one intersects it, but not the other way round. */
  lemma IntersectsNotSymmetric(inner: Vec2, innerWidth: real, innerHeight: real, outer: Vec2, outerWidth: real, outerHeight: real)
    requires outer.x - outerWidth / 2.0 < inner.x - innerWidth / 2.0
    requires inner.x + innerWidth / 2.0 < outer.x + outerWidth / 2.0
    requires outer.y - outerHeight / 2.0 < inner.y - innerHeight / 2.0
    requires inner.y + innerHeight / 2.0 < outer.y + outerHeight / 2.0
    requires innerWidth >= 0.0 && innerHeight >= 0.0
    ensures Intersects(inner, innerWidth, innerHeight, outer, outerWidth, outerHeight)
    ensures !Intersects(outer, outerWidth, outerHeight, inner, innerWidth, innerHeight)
    ensures !WillCollide(inner, innerWidth, innerHeight, outer, outerWidth, outerHeight)
  {
  }

  lemma WillCollideImpliesOverlap(positionA: Vec2, widthA: real, heightA: real, positionB: Vec2, widthB: real, heightB: real)
    requires widthB >= 0.0 && heightB >= 0.0
    ensures WillCollide(positionA, widthA, heightA, positionB, widthB, heightB) ==>
            BoxesOverlap(positionA, widthA, heightA, positionB, widthB, heightB)
  {
  }

  /** Physics.side: which face of body A is struck. */
  datatype Side = LEFT | TOP | RIGHT | BOTTOM | NONE

  datatype HitResult = HitResult(time: real, side: Side)

  /** A body as Collision sees it: centre, velocity, constant acceleration and box. */
  datatype Body = Body(position: Vec2, velocity: Vec2, acceleration: Vec2, width: real, height: real)

  /** The four face times of Collision, in the code's order. */
  datatype FaceTimes = FaceTimes(y1: real, y2: real, x1: real, x2: real)

  function FaceTimesOf(sqrt: real -> real, a: Body, b: Body): (f: FaceTimes)
    ensures f.y1 > 0.0 && f.y2 > 0.0 && f.x1 > 0.0 && f.x2 > 0.0
  {
    var vy := a.velocity.y - b.velocity.y;
    var ay := a.acceleration.y - b.acceleration.y;
    var vx := a.velocity.x - b.velocity.x;
    var ax := a.acceleration.x - b.acceleration.x;
    FaceTimes(
      // bottom of A hitting top of B
      SolveForTime(sqrt, vy, ay, (b.position.y - b.height / 2.0) - (a.position.y + a.height / 2.0)),
      // top of A hitting bottom of B
      SolveForTime(sqrt, vy, ay, (a.position.y - a.height / 2.0) - (b.position.y + b.height / 2.0)),
      // left of A hitting right of B
      SolveForTime(sqrt, vx, ax, (b.position.x + b.width / 2.0) - (a.position.x - a.width / 2.0)),
      // right of A hitting left of B
      SolveForTime(sqrt, vx, ax, (a.position.x + a.width / 2.0) - (b.position.x - b.width / 2.0)))
  }

  /** Earliest face time and the side of A it belongs to. */
  function Collision(sqrt: real -> real, a: Body, b: Body): (r: HitResult)
    ensures var f := FaceTimesOf(sqrt, a, b);
            && (r.time == f.y1 || r.time == f.y2 || r.time == f.x1 || r.time == f.x2)
            && r.time <= f.y1 && r.time <= f.y2 && r.time <= f.x1 && r.time <= f.x2
    ensures r.time > 0.0
  {
    var f := FaceTimesOf(sqrt, a, b);
    var time := Min(Min(f.y1, f.y2), Min(f.x1, f.x2));
    var side :=
      if time == MaxValue then NONE
      else if time == f.x1 then LEFT
      else if time == f.y1 then TOP
      else if time == f.x2 then RIGHT
      else BOTTOM;
    HitResult(time, side)
  }

  /** Side selection: NONE for the sentinel, else first face in LEFT, TOP, RIGHT, BOTTOM order at the minimum. */
  lemma CollisionSide(sqrt: real -> real, a: Body, b: Body)
    ensures var f := FaceTimesOf(sqrt, a, b);
            var r := Collision(sqrt, a, b);
            && (r.side == NONE <==> r.time == MaxValue)
            && (f.y1 == MaxValue && f.y2 == MaxValue && f.x1 == MaxValue && f.x2 == MaxValue ==> r.side == NONE)
            && (r.side == NONE ==> f.y1 >= MaxValue && f.y2 >= MaxValue && f.x1 >= MaxValue && f.x2 >= MaxValue)
            && (r.side == LEFT <==> r.time != MaxValue && r.time == f.x1)
            && (r.side == TOP <==> r.time != MaxValue && r.time != f.x1 && r.time == f.y1)
            && (r.side == RIGHT <==> r.time != MaxValue && r.time != f.x1 && r.time != f.y1 && r.time == f.x2)
            && (r.side == BOTTOM ==> r.time == f.y2 && r.time != f.x1 && r.time != f.y1 && r.time != f.x2)
  {
  }

  /** Along x, the separation of the two centres changes by the relative kinematics. */
  lemma RelativeX(a: Body, b: Body, t: real)
    ensures LocationXAtTime(a.position, a.velocity, a.acceleration, t)
            - LocationXAtTime(b.position, b.velocity, b.acceleration, t)
            == (a.position.x - b.position.x)
               + Displacement(a.velocity.x - b.velocity.x, a.acceleration.x - b.acceleration.x, t)
  {
  }

  /** The LEFT face time is the time A's left edge reaches B's right edge. */
  lemma LeftFaceTimeIsContact(sqrt: real -> real, a: Body, b: Body)
    requires IsSqrt(sqrt)
    ensures var t := FaceTimesOf(sqrt, a, b).x1;
            t != MaxValue ==>
              LocationXAtTime(a.position, a.velocity, a.acceleration, t) - a.width / 2.0
              == LocationXAtTime(b.position, b.velocity, b.acceleration, t) + b.width / 2.0
  {
    var vx := a.velocity.x - b.velocity.x;
    var ax := a.acceleration.x - b.acceleration.x;
    var gap := (b.position.x + b.width / 2.0) - (a.position.x - a.width / 2.0);
    var t := SolveForTime(sqrt, vx, ax, gap);
    SolveForTimeSolves(sqrt, vx, ax, gap);
    RelativeX(a, b, t);
  }

  /**
   * The RIGHT face time solves with the gap's sign reversed: it is the time at
   * which A's right edge is twice as far past B's left edge as at time 0, not
   * the time the two edges meet.
   */
  lemma RightFaceTimeDoublesGap(sqrt: real -> real, a: Body, b: Body)
    requires IsSqrt(sqrt)
    ensures var t := FaceTimesOf(sqrt, a, b).x2;
            t != MaxValue ==>
              (LocationXAtTime(a.position, a.velocity, a.acceleration, t) + a.width / 2.0)
              - (LocationXAtTime(b.position, b.velocity, b.acceleration, t) - b.width / 2.0)
              == 2.0 * ((a.position.x + a.width / 2.0) - (b.position.x - b.width / 2.0))
  {
    var vx := a.velocity.x - b.velocity.x;
    var ax := a.acceleration.x - b.acceleration.x;
    var gap := (a.position.x + a.width / 2.0) - (b.position.x - b.width / 2.0);
    var t := SolveForTime(sqrt, vx, ax, gap);
    SolveForTimeSolves(sqrt, vx, ax, gap);
    RelativeX(a, b, t);
  }

  /** Along y, the separation of the two centres changes by the relative kinematics. */
  lemma RelativeY(a: Body, b: Body, t: real)
    ensures LocationYAtTime(a.position, a.velocity, a.acceleration, t)
            - LocationYAtTime(b.position, b.velocity, b.acceleration, t)
            == (a.position.y - b.position.y)
               + Displacement(a.velocity.y - b.velocity.y, a.acceleration.y - b.acceleration.y, t)
  {
  }

  /** The TOP face time (y1) is the time A's bottom edge reaches B's top edge. */
  lemma TopFaceTimeIsContact(sqrt: real -> real, a: Body, b: Body)
    requires IsSqrt(sqrt)
    ensures var t := FaceTimesOf(sqrt, a, b).y1;
            t != MaxValue ==>
              LocationYAtTime(a.position, a.velocity, a.acceleration, t) + a.height / 2.0
              == LocationYAtTime(b.position, b.velocity, b.acceleration, t) - b.height / 2.0
  {
    var vy := a.velocity.y - b.velocity.y;
    var ay := a.acceleration.y - b.acceleration.y;
    var gap := (b.position.y - b.height / 2.0) - (a.position.y + a.height / 2.0);
    var t := SolveForTime(sqrt, vy, ay, gap);
    SolveForTimeSolves(sqrt, vy, ay, gap);
    RelativeY(a, b, t);
  }

  /**
   * Like RIGHT, the BOTTOM face time (y2) solves with the gap's sign reversed:
   * A's top edge is then twice as far from B's bottom edge as at time 0.
   */
  lemma BottomFaceTimeDoublesGap(sqrt: real -> real, a: Body, b: Body)
    requires IsSqrt(sqrt)
    ensures var t := FaceTimesOf(sqrt, a, b).y2;
            t != MaxValue ==>
              (LocationYAtTime(a.position, a.velocity, a.acceleration, t) - a.height / 2.0)
              - (LocationYAtTime(b.position, b.velocity, b.acceleration, t) + b.height / 2.0)
              == 2.0 * ((a.position.y - a.height / 2.0) - (b.position.y + b.height / 2.0))
  {
    var vy := a.velocity.y - b.velocity.y;
    var ay := a.acceleration.y - b.acceleration.y;
    var gap := (a.position.y - a.height / 2.0) - (b.position.y + b.height / 2.0);
    var t := SolveForTime(sqrt, vy, ay, gap);
    SolveForTimeSolves(sqrt, vy, ay, gap);
    RelativeY(a, b, t);
  }

  function Translate(body: Body, offset: Vec2, drift: Vec2): Body
  {
    body.(position := Add(body.position, offset), velocity := Add(body.velocity, drift))
  }

  /** Only B - A position differences and A - B velocity differences matter. */
  lemma CollisionFrameInvariant(sqrt: real -> real, a: Body, b: Body, offset: Vec2, drift: Vec2)
    ensures Collision(sqrt, Translate(a, offset, drift), Translate(b, offset, drift)) == Collision(sqrt, a, b)
  {
  }
}

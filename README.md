# terrariaAI dodging NPC, modelled in Dafny

terrariaAI is a tModLoader mod whose ranged NPC predicts when a projectile
will strike it and dodges. It jumps over shots that come from the side and
steps sideways from shots that come from above or below. The model covers
three C# files:

- `Physics.cs` (module `Physics`, file `Physics.dfy`): the closed-form
  kinematics, the root finder, the two box tests and the collision solver
  `Collision`. These are pure functions, so they become Dafny functions and
  lemmas.
- `Wrappers/ProjectileWrapper.cs` (module `Wrappers`, file
  `ProjectileWrapper.dfy`): a reference to one host projectile, with the
  projectile's box size copied when the wrapper is made. Its methods read the
  projectile's position and velocities through the reference on every call
  and change nothing. They are functions of the wrapper as it reads at the
  moment of the call (the datatype `ProjectileWrapper`).
- `NPCs/RangedNPC.cs` (module `NPCs`, file `RangedNPC.dfy`): the per-tick
  controller, modelled as the class `RangedNPC`.
  - Its fields are the NPC fields the AI reads or touches (position,
    velocity, oldVelocity, width, height, stepSpeed, `ai[0]`, `ai[1]`,
    justHit) and the controller's own fields
    (jump, threat, inDanger, wasInDanger, jumpSpeed, jumpHeight).
  - The `threat` field is the wrapper's reference: the projectile's slot in
    the host's projectile array (`Main.projectile`) plus the copied box size
    (`ThreatRef`). On every tick the controller reads the projectile in that
    slot as it is then (`Seen`). A threat picked on the ground is therefore
    judged on later, airborne ticks by the projectile's current motion.
  - Each state-changing method is proved against a pure function of the
    state before the call. `AttemptToMoveToPositionX` is proved against
    `MoveToX`, and `AI` against `Tick`, which is built from the stages
    Scan, Evade, Recoil, Pursue, JumpCountdown and Counters.
  - The properties of the controller are lemmas about those functions.
  - `LargestThreat` keeps its `foreach` loop with the early return, proved
    against the recursive `FirstThreatFrom`.

Single-precision floats are mathematical reals. Two float values are made
explicit:

- `NaN` (`datatype Float`): it comes from the root finder and is the
  target guard of `AttemptToMoveToPositionX`.
- The `float.MaxValue` "never" sentinel (`MaxValue`). Where the code
  squares it, C# gets infinity, and with a zero acceleration 0 times
  infinity is NaN. The model makes that explicit where it decides
  something:
  - `WillCollideWithNPC` is false at the sentinel, because the NPC's
    predicted position is NaN. So `WillHitNPC` never confirms a "never" hit.
  - `LocationXGivenY` and `LocationYGivenX` are NaN at the sentinel when
    the axis of the coordinate they return has no acceleration. `NearestSafeX` is then NaN, and the
    NaN guard of `AttemptToMoveToPositionX` rejects the move.

`Math.Sign`, `Math.Abs` and `Math.Min` are written out. C# `int / 2` is
truncating division (`Half`).

`Math.Sqrt` is host code, so the model takes it as a parameter
`sqrt: real -> real`. The lemmas that need an exact root require
`IsSqrt(sqrt)`: the result is non-negative and squares back to its
argument.

The host's projectile array (`Main.projectile`), the player's X
(`Main.player[Main.myPlayer].position.X`) and the threat score are
parameters of `AI`. The score is a parameter because it calls the host's
`Projectile.Distance`.

Some things the code does differ from what its comments and names suggest.
The model follows the code, and lemmas make each one explicit:

- Three of them are in the solver.
  - The RIGHT and BOTTOM face times of `Collision` solve with the gap's
    sign reversed. They are the times at which the gap has doubled, not
    closed (`RightFaceTimeDoublesGap`, `BottomFaceTimeDoublesGap`).
  - `SolveForTime` reports only the "+" root of the quadratic
    (`SolveForTimeTakesPlusRoot`). With a negative acceleration and a
    negative target that root is negative, so the solver reports "never"
    although the target is reached at a positive time
    (`NegativeAccelerationMissesTarget`). Without a negative acceleration
    no reachable target is missed (`NonNegativeAccelerationFindsTarget`).
    As a result `Hit` predicts no hit for a shot that speeds up into the
    NPC (`AcceleratingShotIsNeverPredicted`).
  - `LocationXGivenY` treats its argument as a displacement from the
    projectile's current position (`LocationXGivenYIsAtDisplacement`).
    `NearestSafeX` passes it an absolute coordinate.
- `NearestSafeX` offsets in the direction the projectile is moving; a zero
  horizontal velocity counts as moving right.
- `WillHitNPCOnBottomHalf` keeps the NPC's centre and halves its height, so it tests the middle band of the NPC, not its bottom half (`BottomHalfTestsMiddleBand`, `LowerHalfShotMissesBottomHalfTest`).
- The `hitTime != -1` guard of `AI` never filters, because the solver's
  times are always positive (`HitTimeIsNeverMinusOne`).
- `LargestThreat` returns the first qualifying projectile with a positive
  score, not the largest (`FirstThreatIsNotTheLargest`). With the score
  `AI` uses, that is the first active, non-NPC projectile of a real type
  that does damage (`InverseDistanceSelectsDamaging`).
- `AI` has no time-to-jump check: a side hit is dodged by jumping at once,
  however far away it is.

## Model

| Physics.Sign | NPCs/RangedNPC.cs:65 | Math.Sign: -1, 0 or 1, positive exactly for positive input and negative exactly for negative input |
| Physics.QuadraticFormula | Physics.cs:7-20 | the result is NaN or a number >= 0; with a = 0 and b != 0 it is -c/b when that is >= 0, else NaN; with a = b = 0 it is NaN; with a negative discriminant it is NaN |
| Physics.QuadraticFormulaIsRoot | Physics.cs:10-16 | any number returned satisfies a*r*r + b*r + c = 0 (exact square root) |
| Physics.SolveForTime | Physics.cs:22-25 | the time is strictly positive (a real time or the MaxValue sentinel); zero velocity with zero acceleration gives the sentinel |
| Physics.SolveForTimeSolves | Physics.cs:22-25 | a non-sentinel time t satisfies v*t + 1/2*acc*t^2 = x |
| Physics.SolveForTimeTakesPlusRoot | Physics.cs:15 | only the "+" root is used: for t^2 - 3t + 2 = 0 the solver gives 2 although 1 is an earlier positive root |
| Physics.NegativeAccelerationMissesTarget | Physics.cs:7-25 | with acceleration < 0 and target x < 0 the solver gives the MaxValue sentinel, although some t > 0 has v*t + 1/2*acc*t^2 = x |
| Physics.NonNegativeAccelerationFindsTarget | Physics.cs:7-25 | with acceleration >= 0 (not both it and the velocity zero), if some t > 0 reaches x then the solver gives a time no earlier than t that also reaches x, and exactly t when the acceleration is zero |
| Physics.InstantaneousVelocity | Physics.cs:27-31 | at time 0, or with zero acceleration, the velocity is unchanged |
| Physics.VelocityIsRateOfPosition | Physics.cs:27-45 | the velocity at t is the rate of change of the predicted position: over any interval [t-h, t+h] the X and Y move by 2h times its components |
| Physics.LocationXAtTime | Physics.cs:39-41 | at time 0 the X is position.X |
| Physics.LocationYAtTime | Physics.cs:43-45 | at time 0 the Y is position.Y |
| Physics.InstantaneousPosition | Physics.cs:33-37 | the components are LocationXAtTime and LocationYAtTime; at time 0 it is the position |
| Physics.LocationXGivenY | Physics.cs:47-50 | the X at the time SolveForTime gives for a Y displacement of y (see LocationXGivenYReachesDisplacement) |
| Physics.LocationYGivenX | Physics.cs:52-55 | the Y at the time SolveForTime gives with the swapped arguments (see LocationYGivenXUsesPositionAsVelocity) |
| Physics.LocationXGivenYReachesDisplacement | Physics.cs:47-50 | at a real solved time the result is the X then, and Y has moved by exactly y from position.Y (y is a displacement, not a coordinate); at the sentinel with no X acceleration, in particular for a body with no vertical motion, the result is NaN |
| Physics.LocationYGivenXUsesPositionAsVelocity | Physics.cs:52-55 | the time is solved with position.X as the velocity and velocity.X as the acceleration, and the result is the Y at that time; at the sentinel with no Y acceleration it is NaN |
| Physics.Between | Physics.cs:57-59 | s1 <= x <= s2 |
| Physics.Intersects | Physics.cs:61-69 | an edge of A in each axis lies within B's range (see IntersectsImpliesOverlap, IntersectsIffOverlapWhenSmaller) |
| Physics.WillCollide | Physics.cs:71-88 | in each axis A straddles one of B's edges (see WillCollideImpliesOverlap) |
| Physics.IntersectsImpliesOverlap | Physics.cs:61-69 | when Intersects holds, the closed x-ranges and y-ranges of the two boxes overlap |
| Physics.IntersectsIffOverlapWhenSmaller | Physics.cs:61-69 | for A no wider and no taller than B, Intersects(A, B) holds exactly when the boxes overlap |
| Physics.IntersectsNotSymmetric | Physics.cs:61-88 | a box strictly inside a larger one intersects it, the larger one does not intersect it, and WillCollide is false for the inner box |
| Physics.WillCollideImpliesOverlap | Physics.cs:71-88 | when WillCollide holds, the two boxes overlap |
| Physics.FaceTimesOf | Physics.cs:93-106 | the four face times are all strictly positive |
| Physics.Collision | Physics.cs:90-122 | the time is one of the four face times, no larger than any of them, and positive |
| Physics.CollisionSide | Physics.cs:108-120 | NONE exactly when the time is the sentinel; otherwise the first of LEFT (X1), TOP (Y1), RIGHT (X2) whose time is the minimum, and BOTTOM only when the minimum is Y2 and none of the others |
| Physics.RelativeX | Physics.cs:102-106 | the x-separation of two bodies changes by the displacement of their relative velocity and acceleration |
| Physics.RelativeY | Physics.cs:96-100 | the y-separation of two bodies changes by the displacement of their relative velocity and acceleration |
| Physics.LeftFaceTimeIsContact | Physics.cs:101-103 | at a non-sentinel LEFT time, A's left edge meets B's right edge |
| Physics.RightFaceTimeDoublesGap | Physics.cs:104-106 | at a non-sentinel RIGHT time, A's right edge is twice as far past B's left edge as at time 0: the edges do not meet |
| Physics.TopFaceTimeIsContact | Physics.cs:95-97 | at a non-sentinel TOP time, A's bottom edge meets B's top edge |
| Physics.BottomFaceTimeDoublesGap | Physics.cs:98-100 | at a non-sentinel BOTTOM time, A's top edge is twice as far from B's bottom edge as at time 0 |
| Physics.CollisionFrameInvariant | Physics.cs:96-106 | moving both bodies by a common offset and a common velocity leaves the result unchanged |
| Wrappers.Wrap | Wrappers/ProjectileWrapper.cs:12-16 | the constructor keeps the projectile and copies its width and height |
| Wrappers.GetAcceleration | Wrappers/ProjectileWrapper.cs:71-77 | zero while oldVelocity is zero, otherwise the velocity change: oldVelocity + acceleration = velocity |
| Wrappers.HitBody | Wrappers/ProjectileWrapper.cs:24-28 | the hit time is positive, and the side is NONE exactly when the time is the sentinel |
| Wrappers.Hit | Wrappers/ProjectileWrapper.cs:19-22 | HitBody with the NPC's position, velocity and box and zero acceleration (see HitIgnoresNpcOldVelocity, HitAccelerationIgnoresZeroGuard) |
| Wrappers.HitAccelerationIgnoresZeroGuard | Wrappers/ProjectileWrapper.cs:26 | with oldVelocity zero, getAcceleration is zero, yet Hit solves with the whole velocity as the projectile's acceleration |
| Wrappers.HitIgnoresNpcOldVelocity | Wrappers/ProjectileWrapper.cs:19-22 | Hit(npc) does not depend on npc.oldVelocity: the NPC acceleration computed there is discarded |
| Wrappers.InstantaneousVelocity | Wrappers/ProjectileWrapper.cs:30-32 | with oldVelocity zero, the predicted velocity is the current velocity at every time |
| Wrappers.InstantaneousPosition | Wrappers/ProjectileWrapper.cs:34-36 | at time 0 it is the projectile's position, and its components are the wrapper's LocationXAtTime and LocationYAtTime |
| Wrappers.UniformMotion | Wrappers/ProjectileWrapper.cs:34-36 | a projectile whose velocity did not change is predicted to move in a straight line at that velocity |
| Wrappers.LocationXAtTime | Wrappers/ProjectileWrapper.cs:38-40 | Physics.LocationXAtTime of the projectile's current motion with getAcceleration (see InstantaneousPosition) |
| Wrappers.LocationYAtTime | Wrappers/ProjectileWrapper.cs:42-44 | Physics.LocationYAtTime of the projectile's current motion with getAcceleration (see InstantaneousPosition) |
| Wrappers.LocationXGivenY | Wrappers/ProjectileWrapper.cs:46-48 | Physics.LocationXGivenY of the projectile's current motion (see LocationXGivenYIsAtDisplacement) |
| Wrappers.LocationYGivenX | Wrappers/ProjectileWrapper.cs:50-52 | Physics.LocationYGivenX of the projectile's current motion |
| Wrappers.LocationXGivenYIsAtDisplacement | Wrappers/ProjectileWrapper.cs:46-48 | the result is the projectile's X when its Y has moved by y from its current Y; NaN when that never happens and the projectile has no horizontal acceleration |
| Wrappers.WillCollide | Wrappers/ProjectileWrapper.cs:65-69 | the projectile's box at time+0.1 or at time-0.1 intersects the target box (see WillCollideMeansOverlapAtSample) |
| Wrappers.WillCollideWithNPC | Wrappers/ProjectileWrapper.cs:54-58 | WillCollide against the NPC moved on at constant velocity; false at the sentinel (see WillCollideWithNPCAtConstantVelocity) |
| Wrappers.WillCollideMeansOverlapAtSample | Wrappers/ProjectileWrapper.cs:65-69 | a positive sample means the projectile's box overlaps the target box at time t+0.1 or at time t-0.1 |
| Wrappers.WillCollideWithNPCAtConstantVelocity | Wrappers/ProjectileWrapper.cs:54-58 | false at the sentinel time; otherwise the sampled test with the NPC at position + velocity*t (zero acceleration); the result does not depend on npc.oldVelocity |
| Wrappers.WillCollideWithNPCAccelerating | Wrappers/ProjectileWrapper.cs:60-63 | with zero acceleration it agrees with the two-argument overload, sentinel included |
| Wrappers.HitFromTheRight | Wrappers/ProjectileWrapper.cs:19-28 | a 10x10 shot 100 to the right of a 20x20 NPC, flying left at 10 per tick, hits its LEFT face at 8.5 ticks |
| Wrappers.HitFromAbove | Wrappers/ProjectileWrapper.cs:19-28 | the same shot falling from 100 above hits the TOP at 8.5 ticks |
| Wrappers.AcceleratingShotIsNeverPredicted | Physics.cs:90-122 | a 10x10 shot at (100,0) with velocity -10 and oldVelocity -9 against a 20x20 NPC at the origin: Hit gives (MaxValue, NONE), yet the shot's left edge reaches the NPC's right edge at some t > 0 |
| Wrappers.NoRelativeMotionNeverHits | Wrappers/ProjectileWrapper.cs:19-28 | a shot that keeps pace with the NPC gives the sentinel and NONE |
| Wrappers.HitFromTheLeftIsLate | Wrappers/ProjectileWrapper.cs:19-28 | a shot from 100 to the left, flying right, is reported as LEFT at 11.5 ticks |
| Wrappers.HitFromTheLeftOverlapsBefore | Wrappers/ProjectileWrapper.cs:65-69 | in that scenario the boxes already intersect at 9 ticks, before the reported time |
| NPCs.Half | NPCs/RangedNPC.cs:118 | C# int / 2: 2h <= n <= 2h+1 for n >= 0, truncation towards zero for n < 0 |
| NPCs.WrapSlot | NPCs/RangedNPC.cs:102 | the wrapper made from a slot refers to that slot and, read on the same tick, is the constructor's wrapper of its projectile |
| NPCs.ThreatReadsCurrentProjectile | Wrappers/ProjectileWrapper.cs:8-15 | read on a later tick, a wrapper sees the slot's projectile as it is then and keeps only the box size copied at construction |
| NPCs.InverseProjectileDistance | NPCs/RangedNPC.cs:88-90 | the score is positive exactly when the damage is, and score * distance = damage |
| NPCs.WillHitNPC | NPCs/RangedNPC.cs:109-114 | a null projectile never hits, and neither does the float.MaxValue "never" time |
| NPCs.WillHitNPCOnBottomHalf | NPCs/RangedNPC.cs:121-126 | a null projectile never hits |
| NPCs.BottomHalfTestsMiddleBand | NPCs/RangedNPC.cs:121-126 | a confirmed bottom-half hit overlaps, at time+0.1 or time-0.1, the box of the NPC's width and half its height about the NPC's centre: the middle band, not the lower half |
| NPCs.LowerHalfShotMissesBottomHalfTest | NPCs/RangedNPC.cs:121-126 | a resting 4x4 shot in the lower half of a 20x40 NPC collides with the whole NPC, yet the bottom-half test is false |
| NPCs.HitY | NPCs/RangedNPC.cs:135-140 | the NPC's Y plus height/2 when the projectile will hit its bottom half, otherwise minus height/2 |
| NPCs.NearestSafeX | NPCs/RangedNPC.cs:132-142 | the projectile's X at hitY moved by the clearance in its direction of travel (see NearestSafeXFollowsProjectile, NearestSafeXClearsProjectile) |
| NPCs.NearestSafeXFollowsProjectile | NPCs/RangedNPC.cs:132-142 | NaN exactly when the projectile's X at hitY is NaN; otherwise that X plus (width/2 + wrapper.width/2 + 1), signed by the projectile's vx with 0 counted as positive |
| NPCs.NearestSafeXClearsProjectile | NPCs/RangedNPC.cs:132-142 | the safe X is at least half of both widths past the crossing, on the side the projectile moves to |
| NPCs.IsThreat | NPCs/RangedNPC.cs:97-99 | not an NPC projectile, a nonzero type, active, and a score above the initial best of 0 |
| NPCs.InverseDistanceSelectsDamaging | NPCs/RangedNPC.cs:88-99 | with damage over a positive distance as the score, a projectile qualifies exactly when it is not an NPC projectile, has a nonzero type, is active and does damage |
| NPCs.FirstThreatFrom | NPCs/RangedNPC.cs:96-106 | a slot it returns lies in the array at or after the start and holds a qualifying projectile |
| NPCs.FirstThreatIsFirst | NPCs/RangedNPC.cs:92-107 | the scan from a slot finds nothing exactly when no later slot qualifies; otherwise no slot before the one found qualifies |
| NPCs.FirstThreatIsNotTheLargest | NPCs/RangedNPC.cs:99-102 | of two qualifying projectiles the first slot is returned even when the second scores higher |
| NPCs.SelectThreat | NPCs/RangedNPC.cs:92-107 | the wrapper of the first qualifying slot, or null; its slot always lies in the array |
| NPCs.LargestThreat | NPCs/RangedNPC.cs:92-107 | the loop returns a wrapper of the first slot whose projectile is not an NPC projectile, has a nonzero type, is active and scores above 0, or null |
| NPCs.HitTimeIsNeverMinusOne | NPCs/RangedNPC.cs:163 | threat.Hit(npc) never returns time -1 (its time is positive), so the guard never filters |
| NPCs.ThreatWillHit | NPCs/RangedNPC.cs:57 | `threat != null && WillHitNPC(threat, threat.Hit(npc).Item1)`, with the threat's projectile as it is on this tick |
| NPCs.MoveDecision | NPCs/RangedNPC.cs:47-86 | NaN target or airborne: no move; within a step and safe with velocity 0: arrive; otherwise the stepping decision (see the Move lemmas below) |
| NPCs.StepDecision | NPCs/RangedNPC.cs:65-85 | slow a knockback to a fifth, step towards the target unless the threat would then hit, or keep the old velocity |
| NPCs.MoveToX | NPCs/RangedNPC.cs:47-86 | MoveDecision with the threat re-checked at each tentative velocity.X |
| NPCs.MoveRejectsNaNAndAirborne | NPCs/RangedNPC.cs:49-51 | with a NaN target or a nonzero velocity.Y, the result is false and velocity.X is unchanged |
| NPCs.MoveSpeedBound | NPCs/RangedNPC.cs:52-84 | the new abs(velocity.X) is at most the old one or at most stepSpeed |
| NPCs.MoveToXArrives | NPCs/RangedNPC.cs:54-61 | with no threat, on the ground and within one step of the target: velocity.X becomes 0 and the result is true |
| NPCs.MoveReachedOnlyAtTwoPlaces | NPCs/RangedNPC.cs:52-85 | true only from the last step (vx 0) or from a fresh step of -stepSpeed*Sign(dist) at line 75; walking on towards a target more than a step away never returns true |
| NPCs.MoveStepsTowardsTarget | NPCs/RangedNPC.cs:69-76 | a step that returns true with nonzero velocity heads towards the target |
| NPCs.Jumped | NPCs/RangedNPC.cs:116-119 | vy = -jumpSpeed and jump = jumpHeight/2 |
| NPCs.Scan | NPCs/RangedNPC.cs:146-155 | on the ground the threat is re-selected, so its slot lies in the array; in the air the state is left unchanged, so a threat that lies in the array is kept |
| NPCs.Sidestep | NPCs/RangedNPC.cs:175-180 | the threat is kept or dropped, never replaced |
| NPCs.Dodge | NPCs/RangedNPC.cs:168-181 | the threat is kept or dropped, never replaced |
| NPCs.Evade | NPCs/RangedNPC.cs:156-185 | the threat is kept or dropped, never replaced; the hit is predicted from the slot's current projectile |
| NPCs.Recoil | NPCs/RangedNPC.cs:187-190 | a hit NPC drops the threat and is not in danger (see TickAfterBeingHit) |
| NPCs.Pursue | NPCs/RangedNPC.cs:192-194 | when safe, settled and more than 1 from the player, velocity.X becomes the move towards the player's (see PursueKeepsBody) |
| NPCs.JumpCountdown | NPCs/RangedNPC.cs:196-203 | the ascent counter (see JumpCountdownSteps) |
| NPCs.Counters | NPCs/RangedNPC.cs:204-209 | ai[0] counts grounded ticks and ai[1] goes from 1 to 2 (see TickLeavesAi1OffOne) |
| NPCs.Tick | NPCs/RangedNPC.cs:144-210 | the stages Scan, Evade, Recoil, Pursue, JumpCountdown and Counters in the source's order (see the Tick lemmas below) |
| NPCs.PursueKeepsBody | NPCs/RangedNPC.cs:192-194 | the pursuit stage changes velocity.X only |
| NPCs.NoEvasionOnFirstSighting | NPCs/RangedNPC.cs:146-185 | a tick that starts with ai[1] = 0 never dodges |
| NPCs.TickLeavesAi1OffOne | NPCs/RangedNPC.cs:207-209 | after a tick ai[1] is never 1 |
| NPCs.EvadeJumpsFromSideHit | NPCs/RangedNPC.cs:168-173 | a confirmed LEFT or RIGHT hit: vy = -jumpSpeed, jump = jumpHeight/2, no threat, ai[1] = 0, not in danger, wasInDanger, vx and ai[0] unchanged |
| NPCs.EvadeSidestepsVerticalHit | NPCs/RangedNPC.cs:174-181 | a confirmed TOP or BOTTOM hit moves towards NearestSafeX; on arrival the threat is dropped and ai[0] = -hitTime, otherwise the NPC stays in danger |
| NPCs.EvadeIgnoresMissedHit | NPCs/RangedNPC.cs:159-167 | a predicted "never" hit (the sentinel time) only clears inDanger: nothing else changes |
| NPCs.AirborneTickJudgesCurrentProjectile | NPCs/RangedNPC.cs:146-166 | in the air the threat is not re-selected, and when the projectile now in its slot will not hit, the NPC is not in danger, whatever that projectile did when it was selected |
| NPCs.SidestepFromLevelProjectileStaysPut | NPCs/RangedNPC.cs:132-142 | for a threat with no vertical motion and no velocity change, NearestSafeX is NaN and the sidestep changes nothing |
| NPCs.TickAfterBeingHit | NPCs/RangedNPC.cs:187-190 | a tick on which the NPC was hit ends with no threat and not in danger |
| NPCs.JumpCountdownSteps | NPCs/RangedNPC.cs:196-203 | a running ascent counter becomes 0 on the ground, otherwise drops by exactly 1 and forces vy = -jumpSpeed |
| NPCs.DodgeKeepsBody | NPCs/RangedNPC.cs:167-182 | a dodge changes only the velocity and controller fields; jump is kept or set to jumpHeight/2 |
| NPCs.EvadeKeepsBody | NPCs/RangedNPC.cs:156-185 | the evasion stage changes only the velocity and controller fields; jump is kept or set to jumpHeight/2 |
| NPCs.TickKeepsJumpNonNegative | NPCs/RangedNPC.cs:196-203 | the ascent counter never goes negative |
| NPCs.TickKeepsBody | NPCs/RangedNPC.cs:144-210 | a tick changes the NPC's velocity but never its position, box, stepSpeed, hit flag or jump constants |
| NPCs.RangedNPC.constructor | NPCs/RangedNPC.cs:15-23 | the field initialisers: jump 0, no threat, not in danger, jumpSpeed and jumpHeight from Player |
| NPCs.RangedNPC.ThreatHits | NPCs/RangedNPC.cs:57 | the re-check of the threat with the fields as they are now |
| NPCs.RangedNPC.AttemptToMoveToPositionX | NPCs/RangedNPC.cs:47-86 | the result and the new velocity.X are those of MoveToX on this tick's projectiles; nothing else changes |
| NPCs.RangedNPC.StepTowards | NPCs/RangedNPC.cs:65-85 | the result and the new velocity.X are those of the stepping decision, re-checked with the tentative velocity in place |
| NPCs.RangedNPC.Jump | NPCs/RangedNPC.cs:116-119 | vy = -jumpSpeed and jump = jumpHeight/2, truncating |
| NPCs.RangedNPC.ScanForThreat | NPCs/RangedNPC.cs:146-155 | on the ground the threat is re-selected and ai[1] counts a tick with a threat |
| NPCs.RangedNPC.SidestepHit | NPCs/RangedNPC.cs:174-181 | move towards NearestSafeX of the threat's current projectile (a NaN safe X is rejected); on arrival reset ai[1], set ai[0] = -hitTime and drop the threat |
| NPCs.RangedNPC.DodgeHit | NPCs/RangedNPC.cs:167-182 | jump for a side hit, sidestep for a vertical hit, nothing for NONE |
| NPCs.RangedNPC.EvadeThreat | NPCs/RangedNPC.cs:156-185 | from ai[1] > 1 with a threat, the projectile now in the threat's slot is read, inDanger is re-evaluated at its hit time and a confirmed hit is dodged; the new state is Evade of the old |
| NPCs.RangedNPC.RecoverAndPursue | NPCs/RangedNPC.cs:187-194 | being hit drops the threat; when safe and settled the NPC walks towards the player |
| NPCs.RangedNPC.UpdateCounters | NPCs/RangedNPC.cs:196-209 | the ascent counter, the ground-tick counter ai[0] and the promotion of ai[1] from 1 to 2 |
| NPCs.RangedNPC.AI | NPCs/RangedNPC.cs:144-210 | the new state is Tick of the old state on this tick's projectile array, with threat.Hit(npc) as Wrappers.Hit, and the threat still names a slot of that array; the lemmas about Tick above apply to every call |

## Left out

- `SetDefaults` (NPCs/RangedNPC.cs:27-40) is not modelled. It holds host defaults, animation frame counts and cloning. The constructor takes stepSpeed (2 there) as a parameter instead.
- The commented-out `PreAI` is not modelled.
- Dead state is left out: `lastPosition`, `atLastPosition`, `timeUntilProjectileCollides`, and the `velocityOnHit` computed at line 164. No decision reads any of them. The `hit` field is only used within one call of `AI`, so it is a local value.
- Float behaviour beyond NaN and the sentinel is left out: rounding, NaN propagation in general and overflow. The sentinel is followed where it reaches a decision: `WillCollideWithNPC` is false at it and `LocationXGivenY`/`LocationYGivenX` give NaN at it when the axis of the coordinate they return has no acceleration.
- LocationXGivenY: at the sentinel with a nonzero X acceleration, the model gives the large real the formula yields. C# gives plus or minus infinity, or NaN when the overflowed velocity term and the acceleration term have opposite signs (infinity minus infinity); which one depends on the platform's intermediate precision. In the NaN case `NearestSafeX` is NaN and `AttemptToMoveToPositionX` rejects the sidestep (NPCs/RangedNPC.cs:49-51), while the model walks towards a far finite target. LocationYGivenX is the same on the Y axis.
- WillCollideWithNPCAccelerating: at the sentinel with both acceleration components nonzero, C# compares infinite or NaN coordinates; the model compares large reals. `AI` never calls this overload.
- `Wrappers.WillCollide` and `LocationXAtTime` at the sentinel (the projectile's own predicted position) are large reals, not infinities. The only caller that passes the sentinel, `WillCollideWithNPC`, is already false there.
- The factor `0.1f` is the exact real 0.1.
- `Math.Sqrt` is a parameter. Only lemmas that need an exact root assume `IsSqrt`.
- `Projectile.Distance` (host library code) is left out. The threat score is a parameter of `AI` and `LargestThreat`.
- InverseProjectileDistance: requires a positive distance. The C# float division by zero would give infinity or NaN, and that case is not modelled.
- `Main.projectile`, `Main.player` and `Main.myPlayer` are parameters. `Main.projectile` is a fixed-length host array, so a slot held as the threat stays a valid slot: `AI` requires and keeps that (`Tracks`). Whether the slot still holds the same projectile is not tracked; the wrapper reads whatever the slot holds, like the reference does when the host reuses its `Projectile` object.
- The host's update of `npc.position` from `npc.velocity` between ticks is not in these files.
- Line 200 forces the vertical speed to `Player.jumpSpeed`. The model uses the `jumpSpeed` field, which line 16 initialises from `Player.jumpSpeed`; the host value is assumed constant between the two reads.
- `AI` is written as stage methods (ScanForThreat, EvadeThreat with DodgeHit and SidestepHit, RecoverAndPursue, UpdateCounters), called in the source's order. Within a stage the statements are in the source's order.
- Inside the controller's helper functions the collision predictor is a parameter (`Predictor`). `AI` instantiates it with `Wrappers.Hit`.
- `AttemptToMoveToPositionX` is split at line 64: its second half is `StepTowards`.
- Wrappers.Hit: no contract of its own. Its meaning is stated by `HitBody`, `HitIgnoresNpcOldVelocity`, `HitAccelerationIgnoresZeroGuard` and the scenario lemmas. The same holds for the other functions whose rows above point to a lemma (`Intersects`, `WillCollide`, `LocationXGivenY`, `NearestSafeX`, `MoveDecision`, `Tick` and its stages).

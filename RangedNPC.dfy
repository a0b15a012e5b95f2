/**
 * The dodging controller of one ranged NPC (NPCs/RangedNPC.cs). The NPC is a
 * class whose fields the per-tick AI updates in place; each state-changing
 * method is proved against a pure function of the state before the call,
 * and the properties of the controller are proved about those functions.
 * The host's projectile array, the player's X, the threat score (it uses the
 * host's Projectile.Distance) and Math.Sqrt are passed in. The controller's
 * threat is a reference into the projectile array, read again on every tick.
 */
module NPCs {
  import opened Physics
  import opened Wrappers

  /** A nullable reference. */
  datatype Option<T> = None | Some(value: T)

  /** C# `n / 2` on an int: truncates towards zero. */
  function Half(n: int): (h: int)
    ensures n >= 0 ==> 0 <= h && h + h <= n <= h + h + 1
    ensures n < 0 ==> h <= 0 && h + h - 1 <= n <= h + h
  {
    if n >= 0 then n / 2 else -((-n) / 2)
  }

  /**
   * The controller's `threat`: a ProjectileWrapper holds a reference to a host
   * projectile, modelled as the projectile's slot in the host's projectile
   * array (Main.projectile), together with the box size the wrapper copied
   * when it was made.
   */
  datatype ThreatRef = ThreatRef(slot: nat, height: int, width: int)

  /** The threat's slot lies in this tick's projectile array. */
  predicate Tracks(threat: Option<ThreatRef>, projectiles: seq<Projectile>)
  {
    threat.Some? ==> threat.value.slot < |projectiles|
  }

  /** The wrapper as its methods read it now: the slot's projectile as the host holds it on this tick. */
  function Seen(t: ThreatRef, projectiles: seq<Projectile>): ProjectileWrapper
    requires t.slot < |projectiles|
  {
    ProjectileWrapper(projectiles[t.slot], t.height, t.width)
  }

  /** `new ProjectileWrapper(Main.projectile[slot])` */
  function WrapSlot(projectiles: seq<Projectile>, slot: nat): (t: ThreatRef)
    requires slot < |projectiles|
    ensures t.slot == slot
    ensures Seen(t, projectiles) == Wrap(projectiles[slot])
  {
    ThreatRef(slot, projectiles[slot].height, projectiles[slot].width)
  }

  /**
   * On a later tick the wrapper reads its slot's projectile as it is then;
   * only the box size stays as it was when the wrapper was made.
   */
  lemma ThreatReadsCurrentProjectile(earlier: seq<Projectile>, later: seq<Projectile>, slot: nat)
    requires slot < |earlier| && slot < |later|
    ensures var w := Seen(WrapSlot(earlier, slot), later);
            && w.projectile == later[slot]
            && w.width == earlier[slot].width && w.height == earlier[slot].height
            && (later[slot] == earlier[slot] ==> w == Wrap(earlier[slot]))
  {
  }

  /** Everything one tick of the controller reads or writes. */
  datatype RangedState = RangedState(
    npc: Npc,
    stepSpeed: real,
    ai0: real,        // npc.ai[0]: ticks on the ground; set to -hitTime after a sideways dodge
    ai1: real,        // npc.ai[1]: grounded ticks with a threat in sight
    jump: int,        // ascent ticks left
    threat: Option<ThreatRef>,
    inDanger: bool,
    wasInDanger: bool,
    justHit: bool,
    jumpSpeed: real,
    jumpHeight: int)

  /** The state with the NPC's horizontal velocity replaced. */
  function WithVx(s: RangedState, vx: real): RangedState
  {
    s.(npc := s.npc.(velocity := s.npc.velocity.(x := vx)))
  }

  // ---------------------------------------------------------------------
  // Pure reads

  /** damage / distance, for a distance the host computes (Projectile.Distance). */
  function InverseProjectileDistance(damage: int, distance: real): (score: real)
    requires distance > 0.0
    ensures score > 0.0 <==> damage > 0
    ensures score * distance == damage as real
  {
    damage as real / distance
  }

  /** A null threat never hits, and neither does the "never" time. */
  predicate WillHitNPC(npc: Npc, projectile: Option<ProjectileWrapper>, frames: real): (b: bool)
    ensures projectile.None? ==> !b
    ensures frames == MaxValue ==> !b
  {
    projectile.Some? && WillCollideWithNPC(projectile.value, npc, frames)
  }

  /** The NPC's box with half its height, at the same centre. */
  predicate WillHitNPCOnBottomHalf(npc: Npc, projectile: Option<ProjectileWrapper>, frames: real): (b: bool)
    ensures projectile.None? ==> !b
  {
    projectile.Some? && Wrappers.WillCollide(projectile.value, npc.position, npc.width, Half(npc.height), frames)
  }

  /**
   * Position is the NPC's centre (Intersects reads it so), so the box
   * WillHitNPCOnBottomHalf tests is the middle band of the NPC, half its
   * height about the centre: a confirmed hit overlaps that band at one of
   * the two sampled instants.
   */
  lemma BottomHalfTestsMiddleBand(npc: Npc, w: ProjectileWrapper, frames: real)
    requires w.width >= 0 && w.height >= 0
    ensures WillHitNPCOnBottomHalf(npc, Some(w), frames) ==>
            || BoxesOverlap(Wrappers.InstantaneousPosition(w, frames + 0.1), w.width as real, w.height as real,
                            npc.position, npc.width as real, Half(npc.height) as real)
            || BoxesOverlap(Wrappers.InstantaneousPosition(w, frames - 0.1), w.width as real, w.height as real,
                            npc.position, npc.width as real, Half(npc.height) as real)
  {
    WillCollideMeansOverlapAtSample(w, npc.position, npc.width, Half(npc.height), frames);
  }

  /**
   * A resting 4x4 shot inside the lower half of a 20x40 NPC (y 14..18 below
   * the centre at 0) collides with the whole NPC, yet the bottom-half test
   * misses it: the band it tests is y -10..10.
   */
  lemma LowerHalfShotMissesBottomHalfTest()
    ensures var p := Projectile(Vec2(0.0, 16.0), Zero, Zero, 4, 4, 1, false, 1, true);
            var npc := Npc(Vec2(0.0, 0.0), Zero, Zero, 20, 40);
            && Wrappers.WillCollide(Wrap(p), npc.position, npc.width, npc.height, 1.0)
            && !WillHitNPCOnBottomHalf(npc, Some(Wrap(p)), 1.0)
  {
  }

  /** The height at which NearestSafeX looks up the projectile's X: the NPC's bottom or top edge. */
  function HitY(npc: Npc, wrapper: ProjectileWrapper, frames: real): real
  {
    if WillHitNPCOnBottomHalf(npc, Some(wrapper), frames) then npc.position.y + Half(npc.height) as real
    else npc.position.y - Half(npc.height) as real
  }

  /**
   * The X to move to: the projectile's X at hitY, moved by half of both
   * widths plus one in the direction of the projectile's horizontal velocity
   * (to the right when it is zero). NaN when that X is NaN.
   */
  function NearestSafeX(sqrt: real -> real, npc: Npc, wrapper: ProjectileWrapper, frames: real): Float
  {
    var direction := if Sign(wrapper.projectile.velocity.x) >= 0 then 1 else -1;
    var offset := (Half(npc.width) + Half(wrapper.width) + 1) * direction;
    var hitY := HitY(npc, wrapper, frames);
    match Wrappers.LocationXGivenY(sqrt, wrapper, hitY)
    case NaN => NaN
    case Num(x) => Num(x + offset as real)
  }

  /** The safe X lies past the projectile's crossing, on the side its horizontal velocity points to. */
  lemma NearestSafeXFollowsProjectile(sqrt: real -> real, npc: Npc, wrapper: ProjectileWrapper, frames: real)
    ensures var crossing := Wrappers.LocationXGivenY(sqrt, wrapper, HitY(npc, wrapper, frames));
            var clearance := (Half(npc.width) + Half(wrapper.width) + 1) as real;
            var x := NearestSafeX(sqrt, npc, wrapper, frames);
            && (crossing.NaN? <==> x.NaN?)
            && (crossing.Num? && wrapper.projectile.velocity.x >= 0.0 ==> x == Num(crossing.value + clearance))
            && (crossing.Num? && wrapper.projectile.velocity.x < 0.0 ==> x == Num(crossing.value - clearance))
  {
  }

  /** The safe X is at least half of both widths away from the crossing: the two boxes at most touch. */
  lemma NearestSafeXClearsProjectile(sqrt: real -> real, npc: Npc, wrapper: ProjectileWrapper, frames: real)
    requires npc.width >= 0 && wrapper.width >= 0
    ensures var crossing := Wrappers.LocationXGivenY(sqrt, wrapper, HitY(npc, wrapper, frames));
            var x := NearestSafeX(sqrt, npc, wrapper, frames);
            var halfWidths := (npc.width + wrapper.width) as real / 2.0;
            crossing.Num? ==>
              && (wrapper.projectile.velocity.x >= 0.0 ==> x.value - crossing.value >= halfWidths && x.value > crossing.value)
              && (wrapper.projectile.velocity.x < 0.0 ==> crossing.value - x.value >= halfWidths && x.value < crossing.value)
  {
  }

  // ---------------------------------------------------------------------
  // Threat selection

  /** Line 97 and the score test of line 99 (the best score so far is always 0). */
  predicate IsThreat(p: Projectile, threatFunction: Projectile -> real)
  {
    !p.npcProj && p.kind != 0 && p.active && threatFunction(p) > 0.0
  }

  /**
   * With the score AI() passes, damage over the projectile's (positive)
   * distance, a projectile is a threat exactly when it is active, not an
   * NPC's, of a real type and does damage.
   */
  lemma InverseDistanceSelectsDamaging(p: Projectile, distance: Projectile -> real)
    requires forall q :: distance(q) > 0.0
    ensures IsThreat(p, (q: Projectile) => InverseProjectileDistance(q.damage, distance(q))) <==>
            !p.npcProj && p.kind != 0 && p.active && p.damage > 0
  {
  }

  /** The first slot from `from` on that holds a threat. */
  function FirstThreatFrom(projectiles: seq<Projectile>, from: nat, threatFunction: Projectile -> real): (r: Option<nat>)
    requires from <= |projectiles|
    ensures r.Some? ==> from <= r.value < |projectiles| && IsThreat(projectiles[r.value], threatFunction)
    decreases |projectiles| - from
  {
    if from == |projectiles| then None
    else if IsThreat(projectiles[from], threatFunction) then Some(from)
    else FirstThreatFrom(projectiles, from + 1, threatFunction)
  }

  /** FirstThreatFrom finds a threat exactly when there is one, and no slot before it holds one. */
  lemma {:induction false} FirstThreatIsFirst(projectiles: seq<Projectile>, from: nat, threatFunction: Projectile -> real)
    requires from <= |projectiles|
    ensures var r := FirstThreatFrom(projectiles, from, threatFunction);
            && (r.None? <==> forall i :: from <= i < |projectiles| ==> !IsThreat(projectiles[i], threatFunction))
            && (r.Some? ==> forall j :: from <= j < r.value ==> !IsThreat(projectiles[j], threatFunction))
    decreases |projectiles| - from
  {
    if from < |projectiles| && !IsThreat(projectiles[from], threatFunction) {
      FirstThreatIsFirst(projectiles, from + 1, threatFunction);
    }
  }

  /** The first threat wins even when a later one scores higher. */
  lemma FirstThreatIsNotTheLargest(a: Projectile, b: Projectile, threatFunction: Projectile -> real)
    requires IsThreat(a, threatFunction) && IsThreat(b, threatFunction)
    requires threatFunction(a) < threatFunction(b)
    ensures FirstThreatFrom([a, b], 0, threatFunction) == Some(0)
  {
  }

  /** What LargestThreat returns: a wrapper of the first threat in the array, or null. */
  function SelectThreat(projectiles: seq<Projectile>, threatFunction: Projectile -> real): (t: Option<ThreatRef>)
    ensures Tracks(t, projectiles)
  {
    match FirstThreatFrom(projectiles, 0, threatFunction)
    case None => None
    case Some(slot) => Some(WrapSlot(projectiles, slot))
  }

  /** LargestThreat: scan the projectiles and wrap the first qualifying one with a positive score. */
  method LargestThreat(projectiles: seq<Projectile>, threatFunction: Projectile -> real)
    returns (threat: Option<ThreatRef>)
    ensures threat == SelectThreat(projectiles, threatFunction)
  {
    var biggestThreatScore := 0.0;
    var i := 0;
    while i < |projectiles|
      invariant 0 <= i <= |projectiles|
      invariant FirstThreatFrom(projectiles, i, threatFunction) == FirstThreatFrom(projectiles, 0, threatFunction)
    {
      var projectile := projectiles[i];
      if !projectile.npcProj && projectile.kind != 0 && projectile.active {
        var threatFunctionResult := threatFunction(projectile);
        if threatFunctionResult > biggestThreatScore {
          return Some(WrapSlot(projectiles, i));
        }
      }
      i := i + 1;
    }
    return None;
  }

  // ---------------------------------------------------------------------
  // Horizontal movement

  /**
   * The collision predictor the controller consults: `threat.Hit(npc)`. The
   * helpers below take it as a parameter; AI() instantiates it with
   * Wrappers.Hit (see HitPredictor).
   */
  type Predictor = (ProjectileWrapper, Npc) -> HitResult

  function HitPredictor(sqrt: real -> real): Predictor
  {
    (w: ProjectileWrapper, npc: Npc) => Hit(sqrt, w, npc)
  }

  /** The guard `hitTime != -1` in AI() never filters: the solver's times are positive. */
  lemma HitTimeIsNeverMinusOne(sqrt: real -> real, w: ProjectileWrapper, npc: Npc)
    ensures HitPredictor(sqrt)(w, npc).time != -1.0
    ensures HitPredictor(sqrt)(w, npc).time > 0.0
  {
  }

  /** The outcome of AttemptToMoveToPositionX: its result and the new velocity.X. */
  datatype Move = Move(reached: bool, vx: real)

  /** `threat != null && WillHitNPC(threat, threat.Hit(npc).Item1)`, evaluated in state s on this tick. */
  predicate ThreatWillHit(hit: Predictor, s: RangedState, projectiles: seq<Projectile>)
    requires Tracks(s.threat, projectiles)
  {
    s.threat.Some? &&
    var w := Seen(s.threat.value, projectiles);
    WillHitNPC(s.npc, Some(w), hit(w, s.npc).time)
  }

  /** The threat re-check of AttemptToMoveToPositionX, as a function of the tentative velocity.X. */
  function ThreatCheck(hit: Predictor, s: RangedState, projectiles: seq<Projectile>): real -> bool
    requires Tracks(s.threat, projectiles)
  {
    vx => ThreatWillHit(hit, WithVx(s, vx), projectiles)
  }

  /**
   * The decision AttemptToMoveToPositionX takes in state s, where
   * threatened(v) says whether the threat re-check fails with velocity.X = v.
   */
  function MoveDecision(s: RangedState, target: Float, threatened: real -> bool): Move
  {
    if target.NaN? || s.npc.velocity.y != 0.0 then Move(false, s.npc.velocity.x)
    else
      var dist := s.npc.position.x - target.value;
      var step := -s.stepSpeed * Sign(dist) as real;
      if Abs(dist) <= s.stepSpeed && !threatened(0.0) then Move(true, 0.0)
      else StepDecision(s, dist, step, threatened)
  }

  /**
   * Lines 65-85: the decision once the last-step branch has been passed over,
   * for the distance to the target and the step the code computes.
   */
  function StepDecision(s: RangedState, dist: real, step: real, threatened: real -> bool): Move
  {
    var vx := s.npc.velocity.x;
    if Sign(dist) + Sign(vx) != 0 then
      if Abs(vx) > s.stepSpeed then Move(false, vx / 5.0)
      else if !s.inDanger && threatened(step) then Move(false, 0.0)
      else Move(true, step)
    else if threatened(step) then Move(false, vx)
    else Move(false, step)
  }

  /** Proof step: past the last-step branch, the decision is the stepping decision for dist and step as the code computes them. */
  lemma MoveDecisionPastLastStep(s: RangedState, target: Float, threatened: real -> bool, dist: real, step: real)
    requires target.Num? && s.npc.velocity.y == 0.0
    requires dist == s.npc.position.x - target.value && step == -s.stepSpeed * Sign(dist) as real
    requires !(Abs(dist) <= s.stepSpeed && !threatened(0.0))
    ensures MoveDecision(s, target, threatened) == StepDecision(s, dist, step, threatened)
  {
  }

  /** AttemptToMoveToPositionX: every re-check is made with the tentative velocity.X already in place. */
  function MoveToX(hit: Predictor, s: RangedState, projectiles: seq<Projectile>, target: Float): Move
    requires Tracks(s.threat, projectiles)
  {
    MoveDecision(s, target, ThreatCheck(hit, s, projectiles))
  }

  lemma MoveRejectsNaNAndAirborne(s: RangedState, target: Float, threatened: real -> bool)
    requires target.NaN? || s.npc.velocity.y != 0.0
    ensures MoveDecision(s, target, threatened) == Move(false, s.npc.velocity.x)
  {
  }

  /** The new speed never exceeds the old speed or the step speed. */
  lemma MoveSpeedBound(s: RangedState, target: Float, threatened: real -> bool)
    requires s.stepSpeed >= 0.0
    ensures var m := MoveDecision(s, target, threatened);
            Abs(m.vx) <= Abs(s.npc.velocity.x) || Abs(m.vx) <= s.stepSpeed
  {
  }

  /** With no threat, an NPC within one step of the target stops there. */
  lemma MoveToXArrives(hit: Predictor, s: RangedState, projectiles: seq<Projectile>, target: real)
    requires s.threat.None? && s.npc.velocity.y == 0.0
    requires Abs(s.npc.position.x - target) <= s.stepSpeed
    ensures MoveToX(hit, s, projectiles, Num(target)) == Move(true, 0.0)
  {
    assert !ThreatCheck(hit, s, projectiles)(0.0);
  }

  /**
   * true is only returned from the last step (velocity 0) or when starting a
   * step from rest or against the current motion (velocity one step towards the
   * target); walking on towards the target never returns true.
   */
  lemma MoveReachedOnlyAtTwoPlaces(s: RangedState, target: real, threatened: real -> bool)
    ensures var m := MoveDecision(s, Num(target), threatened);
            var dist := s.npc.position.x - target;
            var vx := s.npc.velocity.x;
            && (m.reached ==>
                 || (m.vx == 0.0 && Abs(dist) <= s.stepSpeed)
                 || (m.vx == -s.stepSpeed * Sign(dist) as real && Sign(dist) + Sign(vx) != 0 && Abs(vx) <= s.stepSpeed))
            && (Sign(dist) + Sign(vx) == 0 && Abs(dist) > s.stepSpeed ==> !m.reached)
  {
  }

  /** A fresh step always heads towards the target. */
  lemma MoveStepsTowardsTarget(s: RangedState, target: real, threatened: real -> bool)
    requires s.stepSpeed > 0.0
    ensures var m := MoveDecision(s, Num(target), threatened);
            var dist := s.npc.position.x - target;
            m.reached && m.vx != 0.0 ==> m.vx * dist < 0.0
  {
  }

  // ---------------------------------------------------------------------
  // One tick of AI()

  /** Jump(): take off and arm the ascent counter. */
  function Jumped(s: RangedState): RangedState
  {
    s.(npc := s.npc.(velocity := s.npc.velocity.(y := -s.jumpSpeed)), jump := Half(s.jumpHeight))
  }

  /**
   * Lines 146-155: on the ground, re-select the threat, and count the tick if
   * there is one; in the air, keep the reference.
   */
  function Scan(s: RangedState, projectiles: seq<Projectile>, threatFunction: Projectile -> real): (r: RangedState)
    ensures s.npc.velocity.y == 0.0 || Tracks(s.threat, projectiles) ==> Tracks(r.threat, projectiles)
    ensures s.npc.velocity.y != 0.0 ==> r == s
  {
    if s.npc.velocity.y == 0.0 then
      var threat := SelectThreat(projectiles, threatFunction);
      s.(threat := threat, ai1 := if threat.Some? then s.ai1 + 1.0 else s.ai1)
    else s
  }

  /**
   * Lines 175-180: step to the nearest safe X; on arrival, stand down and
   * restart ai[0] at -hitTime. The threat is never replaced, only dropped.
   */
  function Sidestep(sqrt: real -> real, hit: Predictor, s: RangedState, projectiles: seq<Projectile>, h: HitResult): (r: RangedState)
    requires s.threat.Some? && Tracks(s.threat, projectiles)
    ensures r.threat == s.threat || r.threat.None?
  {
    var m := MoveToX(hit, s, projectiles, NearestSafeX(sqrt, s.npc, Seen(s.threat.value, projectiles), h.time));
    var s1 := WithVx(s, m.vx);
    if m.reached then s1.(ai1 := 0.0, ai0 := -h.time, threat := None, inDanger := false)
    else s1
  }

  /** Lines 168-181: the dodge for a confirmed hit h, in a state where inDanger holds. */
  function Dodge(sqrt: real -> real, hit: Predictor, s: RangedState, projectiles: seq<Projectile>, h: HitResult): (r: RangedState)
    requires s.threat.Some? && Tracks(s.threat, projectiles)
    ensures r.threat == s.threat || r.threat.None?
  {
    if h.side == LEFT || h.side == RIGHT then
      Jumped(s).(threat := None, ai1 := 0.0, inDanger := false, wasInDanger := true)
    else if h.side == TOP || h.side == BOTTOM then Sidestep(sqrt, hit, s, projectiles, h)
    else s
  }

  /**
   * Lines 156-185: from the second counted tick, dodge a confirmed hit. The
   * hit is predicted from the threat's projectile as it is on this tick.
   */
  function Evade(sqrt: real -> real, hit: Predictor, s: RangedState, projectiles: seq<Projectile>): (r: RangedState)
    requires Tracks(s.threat, projectiles)
    ensures r.threat == s.threat || r.threat.None?
  {
    if s.ai1 > 1.0 && s.threat.Some? then
      var w := Seen(s.threat.value, projectiles);
      var h := hit(w, s.npc);
      if h.time != -1.0 then
        var s1 := s.(inDanger := WillHitNPC(s.npc, Some(w), h.time));
        if s1.inDanger then Dodge(sqrt, hit, s1, projectiles, h) else s1
      else s
    else s
  }

  /** Lines 187-190: being hit drops the threat. */
  function Recoil(s: RangedState): RangedState
  {
    if s.justHit then s.(threat := None, inDanger := false) else s
  }

  /** Lines 192-194: when safe and settled, walk towards the player. */
  function Pursue(hit: Predictor, s: RangedState, projectiles: seq<Projectile>, playerX: real): RangedState
    requires Tracks(s.threat, projectiles)
  {
    if !s.inDanger && s.ai0 > 1.0 && Abs(playerX - s.npc.position.x) > 1.0 then
      WithVx(s, MoveToX(hit, s, projectiles, Num(playerX)).vx)
    else s
  }

  /** Proof step: Pursue for the move m computed beforehand. */
  lemma PursueMoves(hit: Predictor, s: RangedState, projectiles: seq<Projectile>, playerX: real, m: Move)
    requires Tracks(s.threat, projectiles)
    requires m == MoveToX(hit, s, projectiles, Num(playerX))
    ensures Pursue(hit, s, projectiles, playerX) ==
            if !s.inDanger && s.ai0 > 1.0 && Abs(playerX - s.npc.position.x) > 1.0 then WithVx(s, m.vx) else s
  {
  }

  /** Pursue changes velocity.X only. */
  lemma PursueKeepsBody(hit: Predictor, s: RangedState, projectiles: seq<Projectile>, playerX: real)
    requires Tracks(s.threat, projectiles)
    ensures var p := Pursue(hit, s, projectiles, playerX);
            p == s.(npc := s.npc.(velocity := s.npc.velocity.(x := p.npc.velocity.x)))
  {
  }

  /** Lines 196-203: the ascent counter. */
  function JumpCountdown(s: RangedState): RangedState
  {
    if s.jump > 0 then
      if s.npc.velocity.y == 0.0 then s.(jump := 0)
      else s.(npc := s.npc.(velocity := s.npc.velocity.(y := -s.jumpSpeed)), jump := s.jump - 1)
    else s
  }

  /** Lines 204-209: the tick counters. */
  function Counters(s: RangedState): RangedState
  {
    var s1 := if s.npc.velocity.y == 0.0 then s.(ai0 := s.ai0 + 1.0) else s;
    if s1.ai1 == 1.0 then s1.(ai1 := s1.ai1 + 1.0) else s1
  }

  /** One call of AI(), with the collision predictor hit, on this tick's projectile array. */
  function Tick(sqrt: real -> real, hit: Predictor, s: RangedState, projectiles: seq<Projectile>,
                threatFunction: Projectile -> real, playerX: real): RangedState
    requires Tracks(s.threat, projectiles)
  {
    Counters(JumpCountdown(Pursue(hit, Recoil(Evade(sqrt, hit, Scan(s, projectiles, threatFunction), projectiles)),
                                  projectiles, playerX)))
  }

  /** Proof step: a tick is its stages in order. */
  lemma TickStages(sqrt: real -> real, hit: Predictor, s: RangedState, projectiles: seq<Projectile>,
                   threatFunction: Projectile -> real, playerX: real,
                   s1: RangedState, s2: RangedState, s4: RangedState)
    requires Tracks(s.threat, projectiles)
    requires s1 == Scan(s, projectiles, threatFunction) && s2 == Evade(sqrt, hit, s1, projectiles)
    requires s4 == Pursue(hit, Recoil(s2), projectiles, playerX)
    ensures Tick(sqrt, hit, s, projectiles, threatFunction, playerX) == Counters(JumpCountdown(s4))
  {
  }

  /** No dodge on a tick that starts with ai[1] == 0: a threat must be seen on two ticks first. */
  lemma NoEvasionOnFirstSighting(sqrt: real -> real, hit: Predictor, s: RangedState, projectiles: seq<Projectile>,
                                 threatFunction: Projectile -> real)
    requires s.ai1 == 0.0 && Tracks(s.threat, projectiles)
    ensures var s1 := Scan(s, projectiles, threatFunction);
            Evade(sqrt, hit, s1, projectiles) == s1
  {
  }

  /** At the end of a tick ai[1] is never 1. */
  lemma TickLeavesAi1OffOne(sqrt: real -> real, hit: Predictor, s: RangedState, projectiles: seq<Projectile>,
                            threatFunction: Projectile -> real, playerX: real)
    requires Tracks(s.threat, projectiles)
    ensures Tick(sqrt, hit, s, projectiles, threatFunction, playerX).ai1 != 1.0
  {
  }

  /** A confirmed hit on the left or right side of the threat's current motion is dodged by jumping. */
  lemma EvadeJumpsFromSideHit(sqrt: real -> real, hit: Predictor, s: RangedState, projectiles: seq<Projectile>)
    requires s.ai1 > 1.0 && s.threat.Some? && Tracks(s.threat, projectiles)
    requires var w := Seen(s.threat.value, projectiles);
             var h := hit(w, s.npc);
             h.time != -1.0 && (h.side == LEFT || h.side == RIGHT) && WillHitNPC(s.npc, Some(w), h.time)
    ensures var e := Evade(sqrt, hit, s, projectiles);
            && e.npc.velocity.y == -s.jumpSpeed && e.jump == Half(s.jumpHeight)
            && e.threat.None? && e.ai1 == 0.0 && !e.inDanger && e.wasInDanger
            && e.npc.velocity.x == s.npc.velocity.x && e.ai0 == s.ai0
  {
  }

  /** A confirmed hit on the top or bottom is dodged sideways; arriving resets ai[0] to -hitTime. */
  lemma EvadeSidestepsVerticalHit(sqrt: real -> real, hit: Predictor, s: RangedState, projectiles: seq<Projectile>)
    requires s.ai1 > 1.0 && s.threat.Some? && Tracks(s.threat, projectiles)
    requires var w := Seen(s.threat.value, projectiles);
             var h := hit(w, s.npc);
             h.time != -1.0 && (h.side == TOP || h.side == BOTTOM) && WillHitNPC(s.npc, Some(w), h.time)
    ensures var w := Seen(s.threat.value, projectiles);
            var h := hit(w, s.npc);
            var m := MoveToX(hit, s.(inDanger := true), projectiles, NearestSafeX(sqrt, s.npc, w, h.time));
            var e := Evade(sqrt, hit, s, projectiles);
            && e.npc.velocity == s.npc.velocity.(x := m.vx)
            && e.jump == s.jump
            && (m.reached ==> e.threat.None? && e.ai1 == 0.0 && e.ai0 == -h.time && !e.inDanger)
            && (!m.reached ==> e.threat == s.threat && e.ai1 == s.ai1 && e.inDanger)
  {
  }

  /**
   * A predicted "never" (the sentinel time, side NONE for Wrappers.Hit) is no
   * danger: the evasion stage only clears inDanger.
   */
  lemma EvadeIgnoresMissedHit(sqrt: real -> real, hit: Predictor, s: RangedState, projectiles: seq<Projectile>)
    requires s.ai1 > 1.0 && s.threat.Some? && Tracks(s.threat, projectiles)
    requires hit(Seen(s.threat.value, projectiles), s.npc).time == MaxValue
    ensures Evade(sqrt, hit, s, projectiles) == s.(inDanger := false)
  {
  }

  /**
   * In the air the threat is not re-selected, and the evasion judges the
   * projectile now in the threat's slot: when that projectile will not hit,
   * the NPC is not in danger, whatever the projectile did when it was selected.
   */
  lemma AirborneTickJudgesCurrentProjectile(sqrt: real -> real, hit: Predictor, s: RangedState,
                                            projectiles: seq<Projectile>, threatFunction: Projectile -> real,
                                            earlier: seq<Projectile>, slot: nat)
    requires s.npc.velocity.y != 0.0 && s.ai1 > 1.0
    requires slot < |earlier| && slot < |projectiles| && s.threat == Some(WrapSlot(earlier, slot))
    requires var w := ProjectileWrapper(projectiles[slot], earlier[slot].height, earlier[slot].width);
             var h := hit(w, s.npc);
             h.time != -1.0 && !WillHitNPC(s.npc, Some(w), h.time)
    ensures Scan(s, projectiles, threatFunction) == s
    ensures Evade(sqrt, hit, s, projectiles) == s.(inDanger := false)
  {
  }

  /**
   * A projectile with no vertical motion never reaches the height NearestSafeX
   * asks about: the safe X is NaN, the move is rejected, and the sidestep
   * leaves the state as it is.
   */
  lemma SidestepFromLevelProjectileStaysPut(sqrt: real -> real, hit: Predictor, s: RangedState,
                                            projectiles: seq<Projectile>, h: HitResult)
    requires s.threat.Some? && Tracks(s.threat, projectiles)
    requires var p := projectiles[s.threat.value.slot];
             p.velocity.y == 0.0 && p.velocity == p.oldVelocity
    ensures NearestSafeX(sqrt, s.npc, Seen(s.threat.value, projectiles), h.time) == NaN
    ensures Sidestep(sqrt, hit, s, projectiles, h) == s
  {
    var w := Seen(s.threat.value, projectiles);
    assert GetAcceleration(w) == Zero;
    var x := NearestSafeX(sqrt, s.npc, w, h.time);
    assert x == NaN;
    MoveRejectsNaNAndAirborne(s, x, ThreatCheck(hit, s, projectiles));
  }

  /** Being hit always ends the tick with no threat and not in danger. */
  lemma TickAfterBeingHit(sqrt: real -> real, hit: Predictor, s: RangedState, projectiles: seq<Projectile>,
                          threatFunction: Projectile -> real, playerX: real)
    requires s.justHit && Tracks(s.threat, projectiles)
    ensures var t := Tick(sqrt, hit, s, projectiles, threatFunction, playerX);
            t.threat.None? && !t.inDanger
  {
    var s1 := Scan(s, projectiles, threatFunction);
    var s2 := Evade(sqrt, hit, s1, projectiles);
    EvadeKeepsBody(sqrt, hit, s1, projectiles);
    LaterStagesAfterBeingHit(hit, s2, projectiles, playerX);
  }

  /** Proof step: from a state that was hit, the stages after the evasion end with no threat. */
  lemma LaterStagesAfterBeingHit(hit: Predictor, s2: RangedState, projectiles: seq<Projectile>, playerX: real)
    requires s2.justHit && Tracks(s2.threat, projectiles)
    ensures var t := Counters(JumpCountdown(Pursue(hit, Recoil(s2), projectiles, playerX)));
            t.threat.None? && !t.inDanger
  {
    PursueKeepsBody(hit, Recoil(s2), projectiles, playerX);
  }

  /** The ascent counter: zero on the ground, otherwise one less while holding the jump speed. */
  lemma JumpCountdownSteps(s: RangedState)
    requires s.jump > 0
    ensures var c := JumpCountdown(s);
            && (s.npc.velocity.y == 0.0 ==> c.jump == 0 && c.npc == s.npc)
            && (s.npc.velocity.y != 0.0 ==> c.jump == s.jump - 1 && c.npc.velocity.y == -s.jumpSpeed)
  {
  }

  /** t differs from s at most in the NPC's velocity and the controller's fields. */
  predicate SameBody(s: RangedState, t: RangedState)
  {
    && t.npc == s.npc.(velocity := t.npc.velocity)
    && t.stepSpeed == s.stepSpeed && t.justHit == s.justHit
    && t.jumpSpeed == s.jumpSpeed && t.jumpHeight == s.jumpHeight
  }

  /** A dodge keeps the body and either keeps the ascent counter or arms it by a jump. */
  lemma DodgeKeepsBody(sqrt: real -> real, hit: Predictor, s: RangedState, projectiles: seq<Projectile>, h: HitResult)
    requires s.threat.Some? && Tracks(s.threat, projectiles)
    ensures var d := Dodge(sqrt, hit, s, projectiles, h);
            SameBody(s, d) && (d.jump == s.jump || d.jump == Half(s.jumpHeight))
  {
    if h.side != LEFT && h.side != RIGHT && (h.side == TOP || h.side == BOTTOM) {
      var m := MoveToX(hit, s, projectiles, NearestSafeX(sqrt, s.npc, Seen(s.threat.value, projectiles), h.time));
      assert SameBody(s, WithVx(s, m.vx));
    }
  }

  /** Evade keeps the body and either keeps the ascent counter or arms it by a jump. */
  lemma EvadeKeepsBody(sqrt: real -> real, hit: Predictor, s: RangedState, projectiles: seq<Projectile>)
    requires Tracks(s.threat, projectiles)
    ensures var e := Evade(sqrt, hit, s, projectiles);
            SameBody(s, e) && (e.jump == s.jump || e.jump == Half(s.jumpHeight))
  {
    if s.ai1 > 1.0 && s.threat.Some? {
      var h := hit(Seen(s.threat.value, projectiles), s.npc);
      DodgeKeepsBody(sqrt, hit, s.(inDanger := true), projectiles, h);
    }
  }

  /** The ascent counter never goes negative. */
  lemma TickKeepsJumpNonNegative(sqrt: real -> real, hit: Predictor, s: RangedState, projectiles: seq<Projectile>,
                                 threatFunction: Projectile -> real, playerX: real)
    requires s.jump >= 0 && s.jumpHeight >= 0 && Tracks(s.threat, projectiles)
    ensures Tick(sqrt, hit, s, projectiles, threatFunction, playerX).jump >= 0
  {
    var s1 := Scan(s, projectiles, threatFunction);
    var s2 := Evade(sqrt, hit, s1, projectiles);
    EvadeKeepsBody(sqrt, hit, s1, projectiles);
    var s4 := Pursue(hit, Recoil(s2), projectiles, playerX);
    LaterStagesKeepBody(hit, s, s2, projectiles, playerX);
    CountdownKeepsBody(s, s4);
  }

  /**
   * A tick changes the NPC's velocity, never its position or box, and never
   * the step speed, the hit flag or the jump constants.
   */
  lemma TickKeepsBody(sqrt: real -> real, hit: Predictor, s: RangedState, projectiles: seq<Projectile>,
                      threatFunction: Projectile -> real, playerX: real)
    requires Tracks(s.threat, projectiles)
    ensures SameBody(s, Tick(sqrt, hit, s, projectiles, threatFunction, playerX))
  {
    var s1 := Scan(s, projectiles, threatFunction);
    var s2 := Evade(sqrt, hit, s1, projectiles);
    EvadeKeepsBody(sqrt, hit, s1, projectiles);
    var s4 := Pursue(hit, Recoil(s2), projectiles, playerX);
    LaterStagesKeepBody(hit, s, s2, projectiles, playerX);
    CountdownKeepsBody(s, s4);
  }

  /** Proof step: being hit and the pursuit keep the body and the ascent counter. */
  lemma LaterStagesKeepBody(hit: Predictor, s: RangedState, s2: RangedState, projectiles: seq<Projectile>, playerX: real)
    requires SameBody(s, s2) && Tracks(s2.threat, projectiles)
    ensures var s4 := Pursue(hit, Recoil(s2), projectiles, playerX);
            SameBody(s, s4) && s4.jump == s2.jump
  {
    PursueKeepsBody(hit, Recoil(s2), projectiles, playerX);
  }

  /** Proof step: the counters keep the body, and a non-negative ascent counter. */
  lemma CountdownKeepsBody(s: RangedState, s4: RangedState)
    requires SameBody(s, s4)
    ensures var t := Counters(JumpCountdown(s4));
            SameBody(s, t) && (s4.jump >= 0 ==> t.jump >= 0)
  {
  }

  // ---------------------------------------------------------------------
  // The NPC object

  class RangedNPC {
    // host NPC fields
    var position: Vec2
    var velocity: Vec2
    var oldVelocity: Vec2
    var width: int
    var height: int
    var stepSpeed: real
    var ai0: real
    var ai1: real
    var justHit: bool
    // the controller's own fields
    var jump: int
    var threat: Option<ThreatRef>
    var inDanger: bool
    var wasInDanger: bool
    const jumpSpeed: real
    const jumpHeight: int

    ghost predicate Valid()
      reads this
    {
      stepSpeed >= 0.0 && jump >= 0 && jumpHeight >= 0
    }

    function Snapshot(): Npc
      reads this
    {
      Npc(position, velocity, oldVelocity, width, height)
    }

    function State(): RangedState
      reads this
    {
      RangedState(Snapshot(), stepSpeed, ai0, ai1, jump, threat, inDanger, wasInDanger, justHit,
                  jumpSpeed, jumpHeight)
    }

    /** The field initialisers, over the host's NPC fields; Player.jumpSpeed and Player.jumpHeight are passed in. */
    constructor (npc: Npc, stepSpeed: real, ai0: real, ai1: real, playerJumpSpeed: real, playerJumpHeight: int)
      requires stepSpeed >= 0.0 && playerJumpHeight >= 0
      ensures Valid()
      ensures State() == RangedState(npc, stepSpeed, ai0, ai1, 0, None, false, false, false,
                                     playerJumpSpeed, playerJumpHeight)
    {
      position, velocity, oldVelocity := npc.position, npc.velocity, npc.oldVelocity;
      width, height := npc.width, npc.height;
      this.stepSpeed, this.ai0, this.ai1 := stepSpeed, ai0, ai1;
      justHit := false;
      jump := 0;
      jumpSpeed, jumpHeight := playerJumpSpeed, playerJumpHeight;
      threat := None;
      inDanger, wasInDanger := false, false;
    }

    /** `threat != null && WillHitNPC(threat, threat.Hit(npc).Item1)` with the fields as they are now. */
    method ThreatHits(hit: Predictor, projectiles: seq<Projectile>) returns (hits: bool)
      requires Tracks(threat, projectiles)
      ensures hits == ThreatWillHit(hit, State(), projectiles)
    {
      if threat.Some? {
        var w := Seen(threat.value, projectiles);
        hits := WillHitNPC(Snapshot(), Some(w), hit(w, Snapshot()).time);
      } else {
        hits := false;
      }
    }

    /** Lines 47-86: move one step towards positionX unless the threat would then hit. */
    method AttemptToMoveToPositionX(hit: Predictor, projectiles: seq<Projectile>, positionX: Float) returns (reached: bool)
      requires Tracks(threat, projectiles)
      modifies this`velocity
      ensures var m := MoveToX(hit, old(State()), projectiles, positionX);
              reached == m.reached && State() == WithVx(old(State()), m.vx)
    {
      ghost var s := State();
      ghost var threatened := ThreatCheck(hit, s, projectiles);
      if positionX.NaN? || velocity.y != 0.0 {
        assert MoveDecision(s, positionX, threatened) == Move(false, s.npc.velocity.x);
        return false;
      }
      var dist := position.x - positionX.value;
      var step := -stepSpeed * Sign(dist) as real;
      assert dist == s.npc.position.x - positionX.value;
      assert step == -s.stepSpeed * Sign(dist) as real;
      if Abs(dist) <= stepSpeed {
        var currentVelocityX := velocity.x;
        velocity := velocity.(x := 0.0);
        var hits := ThreatHits(hit, projectiles);
        assert hits == threatened(0.0);
        if hits {
          velocity := velocity.(x := currentVelocityX);
        } else {
          assert MoveDecision(s, positionX, threatened) == Move(true, 0.0);
          return true;
        }
      }
      assert State() == s;
      assert !(Abs(dist) <= s.stepSpeed && !threatened(0.0));
      MoveDecisionPastLastStep(s, positionX, threatened, dist, step);
      reached := StepTowards(hit, projectiles, dist, step);
    }

    /** Lines 65-85 of AttemptToMoveToPositionX: head for the target, re-checking the threat. */
    method StepTowards(hit: Predictor, projectiles: seq<Projectile>, dist: real, step: real) returns (reached: bool)
      requires Tracks(threat, projectiles)
      modifies this`velocity
      ensures var m := StepDecision(old(State()), dist, step, ThreatCheck(hit, old(State()), projectiles));
              reached == m.reached && State() == WithVx(old(State()), m.vx)
    {
      ghost var s := State();
      ghost var threatened := ThreatCheck(hit, s, projectiles);
      if Sign(dist) + Sign(velocity.x) != 0 {
        if Abs(velocity.x) > stepSpeed {
          velocity := velocity.(x := velocity.x / 5.0);
        } else {
          velocity := velocity.(x := step);
          var hits := ThreatHits(hit, projectiles);
          assert hits == threatened(step);
          if !inDanger && hits {
            velocity := velocity.(x := 0.0);
          } else {
            return true;
          }
        }
      } else {
        var currentVelocityX := velocity.x;
        velocity := velocity.(x := step);
        var hits := ThreatHits(hit, projectiles);
        assert hits == threatened(step);
        if hits {
          velocity := velocity.(x := currentVelocityX);
        }
      }
      return false;
    }

    /** Jump(): take off and arm the ascent counter. */
    method Jump()
      requires Valid()
      modifies this`velocity, this`jump
      ensures Valid()
      ensures State() == Jumped(old(State()))
    {
      velocity := velocity.(y := -jumpSpeed);
      jump := Half(jumpHeight);
    }

    /** Lines 146-155 of AI(): on the ground, re-select the threat and count the tick if there is one. */
    method ScanForThreat(projectiles: seq<Projectile>, threatFunction: Projectile -> real)
      requires Valid()
      modifies this`threat, this`ai1
      ensures Valid()
      ensures State() == Scan(old(State()), projectiles, threatFunction)
    {
      if velocity.y == 0.0 {
        threat := LargestThreat(projectiles, threatFunction);
        if threat.Some? {
          ai1 := ai1 + 1.0;
        }
      }
    }

    /** Lines 175-180 of AI(): step away from a hit from above or below. */
    method SidestepHit(sqrt: real -> real, hit: Predictor, projectiles: seq<Projectile>, h: HitResult)
      requires threat.Some? && Tracks(threat, projectiles)
      modifies this`velocity, this`ai0, this`ai1, this`threat, this`inDanger
      ensures State() == Sidestep(sqrt, hit, old(State()), projectiles, h)
    {
      var safeX := NearestSafeX(sqrt, Snapshot(), Seen(threat.value, projectiles), h.time);
      var reached := AttemptToMoveToPositionX(hit, projectiles, safeX);
      if reached {
        ai1 := 0.0;
        ai0 := -h.time;
        threat := None;
        inDanger := false;
      }
    }

    /** Lines 168-181 of AI(): jump over a hit from the side, step away from a hit from above or below. */
    method DodgeHit(sqrt: real -> real, hit: Predictor, projectiles: seq<Projectile>, h: HitResult)
      requires Valid() && threat.Some? && Tracks(threat, projectiles)
      modifies this`velocity, this`jump, this`ai0, this`ai1, this`threat, this`inDanger, this`wasInDanger
      ensures Valid()
      ensures State() == Dodge(sqrt, hit, old(State()), projectiles, h)
    {
      if h.side == LEFT || h.side == RIGHT {
        Jump();
        threat := None;
        ai1 := 0.0;
        inDanger := false;
        wasInDanger := true;
      } else if h.side == TOP || h.side == BOTTOM {
        SidestepHit(sqrt, hit, projectiles, h);
      }
    }

    /**
     * Lines 156-185 of AI(): dodge the threat once it has been seen on two
     * ticks, judging the projectile as it is on this tick.
     */
    method EvadeThreat(sqrt: real -> real, hit: Predictor, projectiles: seq<Projectile>)
      requires Valid() && Tracks(threat, projectiles)
      modifies this`velocity, this`jump, this`ai0, this`ai1, this`threat, this`inDanger, this`wasInDanger
      ensures Valid()
      ensures State() == Evade(sqrt, hit, old(State()), projectiles)
    {
      if ai1 > 1.0 {
        if threat.Some? {
          var w := Seen(threat.value, projectiles);
          var h := hit(w, Snapshot());
          var hitTime := h.time;
          if hitTime != -1.0 {
            inDanger := WillHitNPC(Snapshot(), Some(w), hitTime);
            if inDanger {
              DodgeHit(sqrt, hit, projectiles, h);
            }
          }
        }
      }
    }

    /** Lines 187-194 of AI(): drop the threat when hit; when safe and settled, walk towards the player. */
    method RecoverAndPursue(hit: Predictor, projectiles: seq<Projectile>, playerX: real)
      requires Valid() && Tracks(threat, projectiles)
      modifies this`threat, this`inDanger, this`velocity
      ensures Valid()
      ensures State() == Pursue(hit, Recoil(old(State())), projectiles, playerX)
    {
      if justHit {
        threat := None;
        inDanger := false;
      }
      ghost var s := State();
      ghost var toPlayer := MoveToX(hit, s, projectiles, Num(playerX));
      PursueMoves(hit, s, projectiles, playerX, toPlayer);
      if !inDanger && ai0 > 1.0 && Abs(playerX - position.x) > 1.0 {
        var reachedPlayer := AttemptToMoveToPositionX(hit, projectiles, Num(playerX));
      }
    }

    /** Lines 196-209 of AI(): the ascent counter and the tick counters. */
    method UpdateCounters()
      requires Valid()
      modifies this`velocity, this`jump, this`ai0, this`ai1
      ensures Valid()
      ensures State() == Counters(JumpCountdown(old(State())))
    {
      if jump > 0 {
        if velocity.y == 0.0 {
          jump := 0;
        } else {
          velocity := velocity.(y := -jumpSpeed);
          jump := jump - 1;
        }
      }
      if velocity.y == 0.0 {
        ai0 := ai0 + 1.0;
      }
      if ai1 == 1.0 {
        ai1 := ai1 + 1.0;
      }
    }

    /**
     * One tick of the controller, stage by stage, with threat.Hit(npc) as
     * Wrappers.Hit. The threat kept from an earlier tick must still name a
     * slot of the host's projectile array.
     */
    method AI(sqrt: real -> real, projectiles: seq<Projectile>, threatFunction: Projectile -> real, playerX: real)
      requires Valid() && Tracks(threat, projectiles)
      modifies this
      ensures Valid() && Tracks(threat, projectiles)
      ensures State() == Tick(sqrt, HitPredictor(sqrt), old(State()), projectiles, threatFunction, playerX)
    {
      var hit := HitPredictor(sqrt);
      ghost var s0 := State();
      ScanForThreat(projectiles, threatFunction);
      ghost var s1 := State();
      EvadeThreat(sqrt, hit, projectiles);
      ghost var s2 := State();
      RecoverAndPursue(hit, projectiles, playerX);
      ghost var s4 := State();
      UpdateCounters();
      TickStages(sqrt, hit, s0, projectiles, threatFunction, playerX, s1, s2, s4);
    }
  }
}

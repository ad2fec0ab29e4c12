// The player controller: one call per frame reads the keys, the camera's
// direction vectors, the world's platforms and the frame time, and updates
// the player in place: input targets, smoothing, horizontal movement, the
// falling / free-fly toggle, gravity, landing on platforms, the checkpoint
// counter and the two respawn rules.
//
// `PlayerState` is the value of all of a Player's fields and `Frame` is the
// whole update as a function of it; `Player.UpdatePlayer` is proved to
// perform exactly `Frame`, and the lemmas state what a frame promises.

module PlayerModel {
  import opened Geometry
  import opened Numerics
  import opened WorldModel

  /** The keys the update polls; true means pressed. */
  datatype Keys = Keys(w: bool, s: bool, a: bool, d: bool, q: bool,
                       space: bool, f: bool, leftShift: bool)

  /** Speeds and lean angles, front-back (FB) and right-left (RL); used for values and for targets. */
  datatype Motion = Motion(speedFB: real, speedRL: real, angleFB: real, angleRL: real)

  /** The value of every field of a Player. */
  datatype PlayerState = PlayerState(
    pos: Vec3,
    size: Vec3,
    velocityUp: real,
    current: Motion,
    target: Motion,
    direction: Vec3,
    right: Vec3,
    isFalling: bool,
    canToggle: bool,
    numOfJumps: int,
    savedPosition: Vec3)

  /**
    * Smoothing bases (the player's `anglePower` and `speedPower`, never changed):
    * pow(base, delta) is the fraction of the gap kept per frame.
    */
  const AnglePower: real := 0.0001
  const SpeedPower: real := 0.00001

  /** Landings between two checkpoints. */
  const JumpsPerCheckpoint: int := 20

  /** Where the player starts and where SPACE puts it back. */
  const SpawnPoint: Vec3 := Vec3(0.0, 0.25, 0.0)

  /** How far above a checkpoint a respawn places the player. */
  const Lift: Vec3 := Vec3(0.0, 0.25, 0.0)

  /** Below this height the player has fallen off the level. */
  const FallLimit: real := -0.2

  /**
    * A freshly constructed player: at (0, 0.25, 0), half-size 0.05, falling,
    * toggle armed, no jumps, checkpoint at the origin. The fields the source
    * leaves uninitialised are parameters.
    */
  function Spawned(velocityUp: real, current: Motion, target: Motion, direction: Vec3, right: Vec3): PlayerState {
    PlayerState(SpawnPoint, Vec3(0.05, 0.05, 0.05), velocityUp, current, target, direction, right,
                true, true, 0, Zero)
  }

  /**
    * Speed and lean targets from the movement keys: W forward, S back, D right,
    * A left, at speed 2; opposite keys cancel. Leaning forward/back follows the
    * speed (+0.2 with +2), leaning right/left opposes it (A leans +0.2).
    */
  function TargetsFor(keys: Keys): (t: Motion)
    ensures t.speedFB == (if keys.w == keys.s then 0.0 else if keys.w then 2.0 else -2.0)
    ensures t.speedRL == (if keys.a == keys.d then 0.0 else if keys.d then 2.0 else -2.0)
    ensures t.angleFB == t.speedFB / 10.0
    ensures t.angleRL == -t.speedRL / 10.0
  {
    Motion((if keys.w then 2.0 else 0.0) - (if keys.s then 2.0 else 0.0),
           (if keys.d then 2.0 else 0.0) - (if keys.a then 2.0 else 0.0),
           (if keys.w then 0.2 else 0.0) - (if keys.s then 0.2 else 0.0),
           (if keys.a then 0.2 else 0.0) - (if keys.d then 0.2 else 0.0))
  }

  /** Moving along a unit heading at a speed for a time; no move at zero speed. */
  function Glide(pos: Vec3, heading: Vec3, speed: real, delta: real): Vec3 {
    if speed != 0.0 then Add(pos, Scale(Scale(heading, speed), delta)) else pos
  }

  /** The new camera vectors are taken over and the targets are set from the keys. */
  function Retargeted(s: PlayerState, keys: Keys, direction: Vec3, right: Vec3): PlayerState {
    s.(direction := direction, right := right, target := TargetsFor(keys))
  }

  /** Both speeds move toward their targets by the factor pow(0.00001, delta). */
  function SpeedsSmoothed(s: PlayerState, delta: real, lib: Library): PlayerState {
    var k := lib.pow(SpeedPower, delta);
    s.(current := s.current.(speedFB := Smooth(s.current.speedFB, s.target.speedFB, k),
                             speedRL := Smooth(s.current.speedRL, s.target.speedRL, k)))
  }

  /** Movement along the level forward heading, then along the level right heading, at the current speeds. */
  function MovedLevel(s: PlayerState, delta: real, lib: Library): PlayerState {
    s.(pos := Glide(Glide(s.pos, lib.normalize(Level(s.direction)), s.current.speedFB, delta),
                    lib.normalize(Level(s.right)), s.current.speedRL, delta))
  }

  /** Both lean angles move toward their targets by the factor pow(0.0001, delta). */
  function AnglesSmoothed(s: PlayerState, delta: real, lib: Library): PlayerState {
    var k := lib.pow(AnglePower, delta);
    s.(current := s.current.(angleFB := Smooth(s.current.angleFB, s.target.angleFB, k),
                             angleRL := Smooth(s.current.angleRL, s.target.angleRL, k)))
  }

  /** Targets, smoothing of speeds, horizontal movement, smoothing of angles. */
  function Steer(s: PlayerState, keys: Keys, direction: Vec3, right: Vec3, delta: real, lib: Library): PlayerState {
    AnglesSmoothed(MovedLevel(SpeedsSmoothed(Retargeted(s, keys, direction, right), delta, lib), delta, lib), delta, lib)
  }

  /** The Q key: a press flips the mode only while armed, and disarms; a release re-arms. */
  function ToggleMode(s: PlayerState, q: bool): (r: PlayerState)
    ensures r.isFalling == FallsThisFrame(s, q) && r.canToggle == !q
    ensures r.velocityUp == (if r.isFalling != s.isFalling then 2.0 else s.velocityUp)
    ensures r == s.(isFalling := r.isFalling, canToggle := r.canToggle, velocityUp := r.velocityUp)
  {
    if q then
      if s.canToggle then s.(isFalling := !s.isFalling, velocityUp := 2.0, canToggle := false)
      else s.(canToggle := false)
    else s.(canToggle := true)
  }

  /** Whether the falling branch runs this frame: the mode after the Q toggle. */
  predicate FallsThisFrame(s: PlayerState, q: bool) {
    s.isFalling != (q && s.canToggle)
  }

  /**
    * The vertical motion of one frame, with the old velocity; then gravity.
    * Stepping back by the new velocity lands 4 * delta^2 above the old height.
    */
  function Gravity(s: PlayerState, delta: real): (r: PlayerState)
    ensures r.pos.y - s.pos.y == s.velocityUp * delta && s.velocityUp - r.velocityUp == 4.0 * delta
    ensures r.pos.y - r.velocityUp * delta == s.pos.y + 4.0 * delta * delta
    ensures r == s.(pos := s.pos.(y := r.pos.y), velocityUp := r.velocityUp)
  {
    s.(pos := s.pos.(y := s.pos.y + s.velocityUp * delta), velocityUp := s.velocityUp - 4.0 * delta)
  }

  function Top(p: Platform): real {
    p.pos.y + p.size.y
  }

  /** Strict overlap of the player's and the platform's boxes on X and on Z. */
  predicate OverlapsXZ(pos: Vec3, size: Vec3, p: Platform) {
    pos.x - size.x < p.pos.x + p.size.x && pos.x + size.x > p.pos.x - p.size.x &&
    pos.z - size.z < p.pos.z + p.size.z && pos.z + size.z > p.pos.z - p.size.z
  }

  /** The player's bottom is below the top now and was above it one velocity-step earlier. */
  predicate CrossesTop(pos: Vec3, size: Vec3, velocityUp: real, delta: real, p: Platform) {
    pos.y - size.y < Top(p) && pos.y - size.y - velocityUp * delta > Top(p)
  }

  predicate LandsOn(s: PlayerState, delta: real, p: Platform) {
    OverlapsXZ(s.pos, s.size, p) && CrossesTop(s.pos, s.size, s.velocityUp, delta, p)
  }

  /** The first platform at or after `from`, in sequence order, that the player lands on. */
  function FirstLandingFrom(ps: seq<Platform>, from: nat, s: PlayerState, delta: real): (r: Option<nat>)
    requires from <= |ps|
    ensures r.Some? ==> from <= r.value < |ps| && LandsOn(s, delta, ps[r.value])
    ensures r.Some? ==> forall j :: from <= j < r.value ==> !LandsOn(s, delta, ps[j])
    ensures r.None? ==> forall j :: from <= j < |ps| ==> !LandsOn(s, delta, ps[j])
    decreases |ps| - from
  {
    if from == |ps| then None
    else if LandsOn(s, delta, ps[from]) then Some(from)
    else FirstLandingFrom(ps, from + 1, s, delta)
  }

  /**
    * Landing on a platform: the bottom is snapped onto its top, the velocity
    * bounces to -v/1.7 but never below 2, and the jump counter advances; the
    * 20th landing resets it and makes the landing position the checkpoint.
    */
  function Land(s: PlayerState, p: Platform): (r: PlayerState)
    ensures r.pos.y - r.size.y == Top(p) && r.pos.x == s.pos.x && r.pos.z == s.pos.z
    ensures r.velocityUp >= 2.0 && r.velocityUp >= -s.velocityUp / 1.7
    ensures r.velocityUp == 2.0 || r.velocityUp == -s.velocityUp / 1.7
    ensures s.numOfJumps + 1 == JumpsPerCheckpoint ==> r.numOfJumps == 0 && r.savedPosition == r.pos
    ensures s.numOfJumps + 1 != JumpsPerCheckpoint ==>
              r.numOfJumps == s.numOfJumps + 1 && r.savedPosition == s.savedPosition
    ensures r.(pos := s.pos, velocityUp := s.velocityUp, numOfJumps := s.numOfJumps,
               savedPosition := s.savedPosition) == s
  {
    var pos := s.pos.(y := Top(p) + s.size.y);
    var bounce := -s.velocityUp / 1.7;
    var velocityUp := if bounce < 2.0 then 2.0 else bounce;
    var jumps := s.numOfJumps + 1;
    if jumps == JumpsPerCheckpoint then
      s.(pos := pos, velocityUp := velocityUp, numOfJumps := 0, savedPosition := pos)
    else
      s.(pos := pos, velocityUp := velocityUp, numOfJumps := jumps)
  }

  /**
    * Collision: only while moving down, and only with the first platform in
    * sequence order that the player lands on. The state changes exactly when
    * there is such a platform.
    */
  function Collide(s: PlayerState, ps: seq<Platform>, delta: real): (r: PlayerState)
    ensures s.velocityUp < 0.0 ==>
              forall k :: (0 <= k < |ps| && LandsOn(s, delta, ps[k]) &&
                           forall j :: 0 <= j < k ==> !LandsOn(s, delta, ps[j])) ==>
                r == Land(s, ps[k])
    ensures r == s <==> s.velocityUp >= 0.0 || forall j :: 0 <= j < |ps| ==> !LandsOn(s, delta, ps[j])
  {
    if s.velocityUp < 0.0 then
      match FirstLandingFrom(ps, 0, s, delta)
      case Some(k) => Land(s, ps[k])
      case None => s
    else s
  }

  /** SPACE resets to the spawn point and makes it the checkpoint; F or a fall respawns above the checkpoint. */
  function Respawns(s: PlayerState, keys: Keys): (r: PlayerState)
    ensures r.savedPosition == (if keys.space then SpawnPoint else s.savedPosition)
    ensures keys.space && !keys.f ==> r.pos == SpawnPoint && r.velocityUp == 0.0 && r.numOfJumps == 0
    ensures keys.f || (!keys.space && s.pos.y < FallLimit) ==>
              r.pos == Add(r.savedPosition, Lift) && r.velocityUp == 0.0 && r.numOfJumps == 0
    ensures !keys.space && !keys.f && s.pos.y >= FallLimit ==> r == s
    ensures r == s.(pos := r.pos, velocityUp := r.velocityUp, numOfJumps := r.numOfJumps,
                    savedPosition := r.savedPosition)
  {
    var reset := if keys.space
      then s.(pos := SpawnPoint, velocityUp := 0.0, numOfJumps := 0, savedPosition := SpawnPoint)
      else s;
    if keys.f || reset.pos.y < FallLimit then
      reset.(numOfJumps := 0, pos := Add(reset.savedPosition, Lift), velocityUp := 0.0)
    else reset
  }

  /** Free-fly: SPACE rises and Left Shift sinks, at speed 2. */
  function FreeFly(s: PlayerState, keys: Keys, delta: real): (r: PlayerState)
    ensures r.pos.y == s.pos.y + (if keys.space then 2.0 * delta else 0.0)
                               - (if keys.leftShift then 2.0 * delta else 0.0)
    ensures keys.space == keys.leftShift ==> r == s
    ensures r == s.(pos := s.pos.(y := r.pos.y))
  {
    var up := if keys.space then s.pos.y + 2.0 * delta else s.pos.y;
    var down := if keys.leftShift then up - 2.0 * delta else up;
    s.(pos := s.pos.(y := down))
  }

  /**
    * One whole frame of the player update. Whatever branch runs, the player
    * takes over the camera's vectors and the key targets, and keeps its size.
    */
  function Frame(s: PlayerState, keys: Keys, direction: Vec3, right: Vec3, ps: seq<Platform>,
                 delta: real, lib: Library): (r: PlayerState)
    ensures r.direction == direction && r.right == right && r.target == TargetsFor(keys) && r.size == s.size
  {
    var toggled := ToggleMode(Steer(s, keys, direction, right, delta, lib), keys.q);
    if toggled.isFalling then Respawns(Collide(Gravity(toggled, delta), ps, delta), keys)
    else FreeFly(toggled, keys, delta)
  }

  // ---------------------------------------------------------------------------
  // What a frame promises.

  /** The mode after a frame is the mode after the Q toggle, whatever else happens. */
  lemma FrameMode(s: PlayerState, keys: Keys, direction: Vec3, right: Vec3, ps: seq<Platform>,
                  delta: real, lib: Library)
    ensures var r := Frame(s, keys, direction, right, ps, delta, lib);
            r.isFalling == FallsThisFrame(s, keys.q) && r.canToggle == !keys.q
  {
  }

  /**
    * Holding Q over any number of frames flips the mode at most once: only if
    * it was armed. This is about the toggle alone, repeated; `FrameMode` says
    * that a whole frame's mode and arming are the toggle's, which carries it
    * over to frames.
    */
  lemma {:induction false} HeldToggleFlipsOnce(s: PlayerState, frames: nat)
    requires frames >= 1
    ensures var r := HoldQ(s, frames);
            r.isFalling == (s.isFalling != s.canToggle) && !r.canToggle
  {
    if frames > 1 {
      HeldToggleFlipsOnce(s, frames - 1);
    }
  }

  /** The Q toggle applied over consecutive frames with Q held. */
  function HoldQ(s: PlayerState, frames: nat): PlayerState {
    if frames == 0 then s else ToggleMode(HoldQ(s, frames - 1), true)
  }

  /** Between frames the jump counter stays in [0, 20). */
  lemma FrameKeepsJumpCount(s: PlayerState, keys: Keys, direction: Vec3, right: Vec3,
                            ps: seq<Platform>, delta: real, lib: Library)
    requires 0 <= s.numOfJumps < JumpsPerCheckpoint
    ensures var r := Frame(s, keys, direction, right, ps, delta, lib);
            0 <= r.numOfJumps < JumpsPerCheckpoint
  {
  }

  /**
    * While moving down, collision acts on the first platform in sequence order
    * that the player lands on and on no other: the bottom ends exactly on its
    * top, the player did not move down, and the bounce is at least 2. With no
    * such platform nothing changes.
    */
  lemma CollisionActsOnFirstHit(s: PlayerState, ps: seq<Platform>, delta: real)
    requires s.velocityUp < 0.0
    ensures match FirstLandingFrom(ps, 0, s, delta)
            case None => Collide(s, ps, delta) == s
            case Some(k) =>
              var r := Collide(s, ps, delta);
              r == Land(s, ps[k]) && r.pos.y - r.size.y == Top(ps[k]) &&
              r.pos.y > s.pos.y && r.velocityUp >= 2.0 &&
              forall j :: 0 <= j < k ==> !LandsOn(s, delta, ps[j])
  {
  }

  /**
    * The crossing test runs after gravity, with the new velocity. In terms of
    * the bottom before the frame, it asks that the old bottom plus 4 * delta^2
    * be above the top, not the old bottom itself.
    */
  lemma CrossingAfterGravity(s: PlayerState, delta: real, p: Platform)
    ensures var g := Gravity(s, delta);
            CrossesTop(g.pos, g.size, g.velocityUp, delta, p) <==>
              g.pos.y - g.size.y < Top(p) && s.pos.y - s.size.y + 4.0 * delta * delta > Top(p)
  {
    var g := Gravity(s, delta);
    assert g.pos.y - g.size.y - g.velocityUp * delta == s.pos.y - s.size.y + 4.0 * delta * delta;
  }

  /** Landings one after another, with nothing in between. */
  function LandAll(s: PlayerState, ps: seq<Platform>): PlayerState
    decreases |ps|
  {
    if ps == [] then s else LandAll(Land(s, ps[0]), ps[1..])
  }

  /** Fewer than 20 landings from a fresh count only count; the checkpoint stays. */
  lemma {:induction false} LandingsBelowCheckpoint(s: PlayerState, ps: seq<Platform>)
    requires 0 <= s.numOfJumps && s.numOfJumps + |ps| < JumpsPerCheckpoint
    ensures LandAll(s, ps).numOfJumps == s.numOfJumps + |ps|
    ensures LandAll(s, ps).savedPosition == s.savedPosition
    decreases |ps|
  {
    if ps != [] {
      LandingsBelowCheckpoint(Land(s, ps[0]), ps[1..]);
    }
  }

  /** The 20th landing from a fresh count resets the count and checkpoints where it landed. */
  lemma {:induction false} TwentiethLandingCheckpoints(s: PlayerState, ps: seq<Platform>)
    requires s.numOfJumps == 0 && |ps| == JumpsPerCheckpoint
    ensures LandAll(s, ps).numOfJumps == 0
    ensures LandAll(s, ps).savedPosition == LandAll(s, ps).pos
    ensures LandAll(s, ps).pos.y - LandAll(s, ps).size.y == Top(ps[|ps| - 1])
  {
    var front := ps[..|ps| - 1];
    LandingsBelowCheckpoint(s, front);
    LandAllSplit(s, front, ps[|ps| - 1]);
    assert front + [ps[|ps| - 1]] == ps;
  }

  lemma {:induction false} LandAllSplit(s: PlayerState, ps: seq<Platform>, p: Platform)
    ensures LandAll(s, ps + [p]) == Land(LandAll(s, ps), p)
    decreases |ps|
  {
    if ps != [] {
      assert (ps + [p])[1..] == ps[1..] + [p];
      LandAllSplit(Land(s, ps[0]), ps[1..], p);
    }
  }

  /**
    * The checkpoint moves only on a SPACE reset to the spawn point or on a
    * 20th landing, in this frame, and then to where the player landed.
    */
  lemma CheckpointMovesOnlyOnCycleOrReset(s: PlayerState, keys: Keys, direction: Vec3, right: Vec3,
                                          ps: seq<Platform>, delta: real, lib: Library)
    ensures var r := Frame(s, keys, direction, right, ps, delta, lib);
            var g := Gravity(ToggleMode(Steer(s, keys, direction, right, delta, lib), keys.q), delta);
            var hit := FirstLandingFrom(ps, 0, g, delta);
            r.savedPosition != s.savedPosition ==>
              FallsThisFrame(s, keys.q) &&
              ((keys.space && r.savedPosition == SpawnPoint) ||
               (!keys.space && g.velocityUp < 0.0 && hit.Some? &&
                s.numOfJumps + 1 == JumpsPerCheckpoint && r.savedPosition == Land(g, ps[hit.value]).pos))
  {
  }

  /** Strict overlap on X and Z: on each axis the centres are closer than the two half-extents together. */
  lemma OverlapIsCentreDistance(pos: Vec3, size: Vec3, p: Platform)
    ensures OverlapsXZ(pos, size, p) <==>
              Abs(pos.x - p.pos.x) < size.x + p.size.x && Abs(pos.z - p.pos.z) < size.z + p.size.z
  {
  }

  function Abs(x: real): real {
    if x < 0.0 then -x else x
  }

  /** A crossing of a platform's top happens only while moving down over a positive time. */
  lemma CrossingOnlyDownward(pos: Vec3, size: Vec3, velocityUp: real, delta: real, p: Platform)
    requires CrossesTop(pos, size, velocityUp, delta, p)
    ensures velocityUp * delta < 0.0
  {
  }

  /** SPACE while falling (and no F) resets to the spawn point, which becomes the checkpoint. */
  lemma SpaceResets(s: PlayerState, keys: Keys, direction: Vec3, right: Vec3,
                    ps: seq<Platform>, delta: real, lib: Library)
    requires FallsThisFrame(s, keys.q) && keys.space && !keys.f
    ensures var r := Frame(s, keys, direction, right, ps, delta, lib);
            r.pos == SpawnPoint && r.savedPosition == SpawnPoint &&
            r.velocityUp == 0.0 && r.numOfJumps == 0
  {
  }

  /**
    * F, or ending below -0.2, while falling (and no SPACE) respawns 0.25 above
    * the checkpoint with no velocity and no jumps; below a 20th landing the
    * checkpoint is the one from before the frame.
    */
  lemma RespawnAtCheckpoint(s: PlayerState, keys: Keys, direction: Vec3, right: Vec3,
                            ps: seq<Platform>, delta: real, lib: Library)
    requires FallsThisFrame(s, keys.q) && !keys.space
    requires keys.f ||
             Collide(Gravity(ToggleMode(Steer(s, keys, direction, right, delta, lib), keys.q), delta),
                     ps, delta).pos.y < FallLimit
    ensures var r := Frame(s, keys, direction, right, ps, delta, lib);
            r.pos == Add(r.savedPosition, Lift) && r.velocityUp == 0.0 && r.numOfJumps == 0 &&
            (s.numOfJumps + 1 != JumpsPerCheckpoint ==> r.savedPosition == s.savedPosition)
  {
  }

  /** Pressing F in the first frame of a fresh player puts it back at (0, 0.25, 0). */
  lemma FreshRespawnAtStart(velocityUp: real, current: Motion, target: Motion, dir: Vec3, rgt: Vec3,
                            keys: Keys, direction: Vec3, right: Vec3, ps: seq<Platform>,
                            delta: real, lib: Library)
    requires keys.f && !keys.q && !keys.space
    ensures Frame(Spawned(velocityUp, current, target, dir, rgt), keys, direction, right, ps, delta, lib).pos
            == SpawnPoint
  {
    var s := Spawned(velocityUp, current, target, dir, rgt);
    var toggled := ToggleMode(Steer(s, keys, direction, right, delta, lib), keys.q);
    assert toggled.isFalling && toggled.numOfJumps == 0 && toggled.savedPosition == Zero;
    var g := Gravity(toggled, delta);
    assert g.numOfJumps == 0 && g.savedPosition == Zero;
    var c := Collide(g, ps, delta);
    assert c.savedPosition == Zero;
  }

  /**
    * Steering moves the player only horizontally (normalising a non-zero
    * level vector keeps it level; the camera's headings are never vertical)
    * and touches neither the vertical state, the mode, the jump counter nor
    * the checkpoint.
    */
  lemma SteerIsHorizontal(s: PlayerState, keys: Keys, direction: Vec3, right: Vec3, delta: real, lib: Library)
    requires NormalizeKeepsLevel(lib.normalize) && Level(direction) != Zero && Level(right) != Zero
    ensures var r := Steer(s, keys, direction, right, delta, lib);
            r.pos.y == s.pos.y && r.size == s.size && r.velocityUp == s.velocityUp &&
            r.isFalling == s.isFalling && r.canToggle == s.canToggle &&
            r.numOfJumps == s.numOfJumps && r.savedPosition == s.savedPosition
  {
    var m := SpeedsSmoothed(Retargeted(s, keys, direction, right), delta, lib);
    assert lib.normalize(Level(direction)).y == 0.0 && lib.normalize(Level(right)).y == 0.0;
    assert MovedLevel(m, delta, lib).pos.y == s.pos.y;
  }

  /**
    * A falling frame without contact, respawn or reset integrates gravity:
    * y moves by the old velocity times delta, then the velocity drops by 4 * delta.
    */
  lemma FallingFrame(s: PlayerState, keys: Keys, direction: Vec3, right: Vec3,
                     ps: seq<Platform>, delta: real, lib: Library)
    requires NormalizeKeepsLevel(lib.normalize) && Level(direction) != Zero && Level(right) != Zero
    requires FallsThisFrame(s, keys.q) && !keys.space && !keys.f
    requires var g := Gravity(ToggleMode(Steer(s, keys, direction, right, delta, lib), keys.q), delta);
             (g.velocityUp >= 0.0 || FirstLandingFrom(ps, 0, g, delta).None?) && g.pos.y >= FallLimit
    ensures var v := if keys.q && s.canToggle then 2.0 else s.velocityUp;
            var r := Frame(s, keys, direction, right, ps, delta, lib);
            r.pos.y == s.pos.y + v * delta && r.velocityUp == v - 4.0 * delta &&
            r.numOfJumps == s.numOfJumps && r.savedPosition == s.savedPosition
  {
    SteerIsHorizontal(s, keys, direction, right, delta, lib);
    var toggled := ToggleMode(Steer(s, keys, direction, right, delta, lib), keys.q);
    var g := Gravity(toggled, delta);
    assert Collide(g, ps, delta) == g;
  }

  /**
    * Free-fly leaves velocity, jump count and checkpoint alone; y moves by
    * +2 * delta for SPACE and -2 * delta for Left Shift, cancelling when both are held.
    */
  lemma FreeFlyFrame(s: PlayerState, keys: Keys, direction: Vec3, right: Vec3,
                     ps: seq<Platform>, delta: real, lib: Library)
    requires NormalizeKeepsLevel(lib.normalize) && Level(direction) != Zero && Level(right) != Zero
    requires !FallsThisFrame(s, keys.q)
    ensures var v := if keys.q && s.canToggle then 2.0 else s.velocityUp;
            var r := Frame(s, keys, direction, right, ps, delta, lib);
            r.velocityUp == v && r.numOfJumps == s.numOfJumps && r.savedPosition == s.savedPosition &&
            r.pos.y == s.pos.y + (if keys.space then 2.0 * delta else 0.0)
                               - (if keys.leftShift then 2.0 * delta else 0.0)
  {
    SteerIsHorizontal(s, keys, direction, right, delta, lib);
  }

  /**
    * Speeds and angles move from their old values toward the key targets and
    * stay between the two; with no time passed they do not change.
    */
  lemma FrameSmoothsTowardTargets(s: PlayerState, keys: Keys, direction: Vec3, right: Vec3,
                                  ps: seq<Platform>, delta: real, lib: Library)
    requires PowDecays(lib.pow) && delta >= 0.0
    ensures var r := Frame(s, keys, direction, right, ps, delta, lib);
            var t := TargetsFor(keys);
            r.target == t &&
            Between(s.current.speedFB, r.current.speedFB, t.speedFB) &&
            Between(s.current.speedRL, r.current.speedRL, t.speedRL) &&
            Between(s.current.angleFB, r.current.angleFB, t.angleFB) &&
            Between(s.current.angleRL, r.current.angleRL, t.angleRL)
    ensures PowZeroIsOne(lib.pow) && delta == 0.0 ==>
              Frame(s, keys, direction, right, ps, delta, lib).current == s.current
  {
    var speedK := lib.pow(SpeedPower, delta);
    var angleK := lib.pow(AnglePower, delta);
    assert 0.0 <= speedK <= 1.0 && 0.0 <= angleK <= 1.0;
  }


  // ---------------------------------------------------------------------------
  // The player object.

  class Player {
    var velocityUp: real

    var angleRL: real
    var angleFB: real
    var angleRLtarget: real
    var angleFBtarget: real

    var speedFB: real
    var speedRL: real
    var speedFBtarget: real
    var speedRLtarget: real

    var direction: Vec3
    var right: Vec3

    /** True while physics drives the player, false in free-fly ("god") mode. */
    var isFalling: bool
    /** Armed while Q is up, so that a held Q toggles once. */
    var canToggle: bool
    /** Landings since the last checkpoint. */
    var numOfJumps: int
    /** The checkpoint. */
    var savedPosition: Vec3

    var pos: Vec3
    var size: Vec3

    ghost predicate Valid()
      reads this
    {
      0 <= numOfJumps < JumpsPerCheckpoint
    }

    /** All fields, as a value. */
    function State(): PlayerState
      reads this
    {
      PlayerState(pos, size, velocityUp,
                  Motion(speedFB, speedRL, angleFB, angleRL),
                  Motion(speedFBtarget, speedRLtarget, angleFBtarget, angleRLtarget),
                  direction, right, isFalling, canToggle, numOfJumps, savedPosition)
    }

    constructor (velocityUp0: real, current0: Motion, target0: Motion, direction0: Vec3, right0: Vec3)
      ensures Valid()
      ensures State() == Spawned(velocityUp0, current0, target0, direction0, right0)
    {
      velocityUp := velocityUp0;
      speedFB, speedRL, angleFB, angleRL := current0.speedFB, current0.speedRL, current0.angleFB, current0.angleRL;
      speedFBtarget, speedRLtarget := target0.speedFB, target0.speedRL;
      angleFBtarget, angleRLtarget := target0.angleFB, target0.angleRL;
      direction, right := direction0, right0;
      isFalling := true;
      canToggle := true;
      numOfJumps := 0;
      savedPosition := Zero;
      pos := SpawnPoint;
      size := Vec3(0.05, 0.05, 0.05);
    }

    /** One frame of the player update; it performs exactly `Frame` and keeps the jump count in [0, 20). */
    method UpdatePlayer(keys: Keys, direction': Vec3, right': Vec3, world: World, delta: real, lib: Library)
      requires Valid()
      modifies this
      ensures Valid()
      ensures State() == Frame(old(State()), keys, direction', right', world.platforms, delta, lib)
    {
      ghost var s0 := State();
      SteerBy(keys, direction', right', delta, lib);
      ToggleOnQ(keys.q);
      ghost var toggled := State();
      assert toggled == ToggleMode(Steer(s0, keys, direction', right', delta, lib), keys.q);
      assert Valid();
      if isFalling {
        Fall(keys, world.platforms, delta);
      } else {
        if keys.space {
          pos := pos.(y := pos.y + 2.0 * delta);
        }
        if keys.leftShift {
          pos := pos.(y := pos.y - 2.0 * delta);
        }
        assert State() == FreeFly(toggled, keys, delta);
      }
    }

    /** The falling branch: gravity, collision while moving down, SPACE reset, F or fall respawn. */
    method Fall(keys: Keys, platforms: seq<Platform>, delta: real)
      requires Valid()
      modifies this
      ensures Valid()
      ensures State() == Respawns(Collide(Gravity(old(State()), delta), platforms, delta), keys)
    {
      ApplyGravity(delta);
      if velocityUp < 0.0 {
        CollideWith(platforms, delta);
      }
      RespawnOn(keys);
    }

    /** y moves by the velocity of the frame start; then gravity lowers the velocity by 4 * delta. */
    method ApplyGravity(delta: real)
      requires Valid()
      modifies this
      ensures Valid()
      ensures State() == Gravity(old(State()), delta)
    {
      pos := pos.(y := pos.y + velocityUp * delta);
      velocityUp := velocityUp - 4.0 * delta;
    }

    /** SPACE resets to the spawn point; then F or a fall below -0.2 respawns above the checkpoint. */
    method RespawnOn(keys: Keys)
      requires Valid()
      modifies this
      ensures Valid()
      ensures State() == Respawns(old(State()), keys)
    {
      if keys.space {
        pos := SpawnPoint;
        velocityUp := 0.0;
        numOfJumps := 0;
        savedPosition := pos;
      }
      if keys.f || pos.y < FallLimit {
        numOfJumps := 0;
        pos := Add(savedPosition, Lift);
        velocityUp := 0.0;
      }
    }

    /** Targets from the keys, smoothing of speeds, horizontal movement, smoothing of angles. */
    method SteerBy(keys: Keys, direction': Vec3, right': Vec3, delta: real, lib: Library)
      modifies this
      ensures State() == Steer(old(State()), keys, direction', right', delta, lib)
    {
      Retarget(keys, direction', right');
      SmoothSpeeds(delta, lib);
      MoveHorizontally(delta, lib);
      SmoothAngles(delta, lib);
    }

    /** Takes over the camera vectors and sets the targets from the keys. */
    method Retarget(keys: Keys, direction': Vec3, right': Vec3)
      modifies this
      ensures State() == Retargeted(old(State()), keys, direction', right')
    {
      direction := direction';
      right := right';
      SetTargets(keys);
    }

    /** Speed and lean targets, accumulated key by key from zero. */
    method SetTargets(keys: Keys)
      modifies this`speedFBtarget, this`speedRLtarget, this`angleFBtarget, this`angleRLtarget
      ensures Motion(speedFBtarget, speedRLtarget, angleFBtarget, angleRLtarget) == TargetsFor(keys)
    {
      speedFBtarget := 0.0;
      speedRLtarget := 0.0;
      angleFBtarget := 0.0;
      angleRLtarget := 0.0;

      if keys.w {
        speedFBtarget := speedFBtarget + 2.0;
        angleFBtarget := angleFBtarget + 0.2;
      }
      if keys.s {
        speedFBtarget := speedFBtarget - 2.0;
        angleFBtarget := angleFBtarget - 0.2;
      }
      if keys.a {
        speedRLtarget := speedRLtarget - 2.0;
        angleRLtarget := angleRLtarget + 0.2;
      }
      if keys.d {
        speedRLtarget := speedRLtarget + 2.0;
        angleRLtarget := angleRLtarget - 0.2;
      }
    }

    /** Both speeds move toward their targets. */
    method SmoothSpeeds(delta: real, lib: Library)
      modifies this
      ensures State() == SpeedsSmoothed(old(State()), delta, lib)
    {
      speedFB := Smooth(speedFB, speedFBtarget, lib.pow(SpeedPower, delta));
      speedRL := Smooth(speedRL, speedRLtarget, lib.pow(SpeedPower, delta));
    }

    /** The horizontal move, along the level forward and right headings. */
    method MoveHorizontally(delta: real, lib: Library)
      modifies this
      ensures State() == MovedLevel(old(State()), delta, lib)
    {
      if speedFB != 0.0 {
        pos := Add(pos, Scale(Scale(lib.normalize(Mul(direction, Vec3(1.0, 0.0, 1.0))), speedFB), delta));
      }
      if speedRL != 0.0 {
        pos := Add(pos, Scale(Scale(lib.normalize(Mul(right, Vec3(1.0, 0.0, 1.0))), speedRL), delta));
      }
    }

    /** Both lean angles move toward their targets. */
    method SmoothAngles(delta: real, lib: Library)
      modifies this
      ensures State() == AnglesSmoothed(old(State()), delta, lib)
    {
      angleFB := Smooth(angleFB, angleFBtarget, lib.pow(AnglePower, delta));
      angleRL := Smooth(angleRL, angleRLtarget, lib.pow(AnglePower, delta));
    }

    /** The debounced Q toggle between falling and free-fly. */
    method ToggleOnQ(q: bool)
      modifies this
      ensures State() == ToggleMode(old(State()), q)
    {
      if q {
        if canToggle {
          isFalling := !isFalling;
          velocityUp := 2.0;
        }
        canToggle := false;
      }
      if !q {
        canToggle := true;
      }
    }

    /** The collision scan: the first platform, in sequence order, that the player lands on. */
    method CollideWith(platforms: seq<Platform>, delta: real)
      requires Valid() && velocityUp < 0.0
      modifies this
      ensures Valid()
      ensures State() == Collide(old(State()), platforms, delta)
    {
      ghost var fallen := State();
      for i := 0 to |platforms|
        invariant State() == fallen
        invariant FirstLandingFrom(platforms, i, fallen, delta) == FirstLandingFrom(platforms, 0, fallen, delta)
      {
        var p := platforms[i];
        var upperX := p.pos.x + p.size.x;
        var lowerX := p.pos.x - p.size.x;
        var upperZ := p.pos.z + p.size.z;
        var lowerZ := p.pos.z - p.size.z;
        var upperY := p.pos.y + p.size.y;
        if pos.x - size.x < upperX && pos.x + size.x > lowerX && pos.z - size.z < upperZ &&
           pos.z + size.z > lowerZ {
          if pos.y - size.y < upperY && pos.y - size.y - velocityUp * delta > upperY {
            assert LandsOn(fallen, delta, p);
            LandOn(p);
            break;
          }
        }
      }
    }

    /** Landing: snap onto the top, bounce, count the jump, checkpoint on the 20th. */
    method LandOn(p: Platform)
      requires Valid()
      modifies this
      ensures Valid()
      ensures State() == Land(old(State()), p)
    {
      var upperY := p.pos.y + p.size.y;
      pos := pos.(y := upperY + size.y);
      velocityUp := -velocityUp / 1.7;
      if velocityUp < 2.0 {
        velocityUp := 2.0;
      }
      numOfJumps := numOfJumps + 1;
      if numOfJumps == JumpsPerCheckpoint {
        numOfJumps := 0;
        savedPosition := pos;
      }
    }
  }
}

// The game world: an ordered sequence of axis-aligned platforms, rebuilt as a
// random walk of 200 steps from a fixed origin platform. The random source is
// a sequence of draws, each in [0, 100), consumed five per step.

module WorldModel {
  import opened Geometry

  /** A platform: its centre and its half-extent on each axis. */
  datatype Platform = Platform(pos: Vec3, size: Vec3)

  /** One value of `rand() % 100`. */
  type Draw = d: int | 0 <= d < 100

  /** Platforms generated after the origin platform. */
  const NumOfPlatforms: nat := 200

  /** Draws consumed per generated platform: y offset, x and z half-extents, x and z offsets. */
  const DrawsPerStep: nat := 5

  /** Half-height of every platform. */
  const SY: real := 0.02

  /** The fixed first platform: centred at the origin, half-extent (0.5, 0.02, 0.5). */
  const Origin: Platform := Platform(Zero, Vec3(0.5, SY, 0.5))

  /** The walk's running values: the accumulated position and the last x/z half-extents. */
  datatype Walk = Walk(pos: Vec3, sx: real, sz: real)

  const Start: Walk := Walk(Zero, 0.5, 0.5)

  function PlatformAt(w: Walk): Platform {
    Platform(w.pos, Vec3(w.sx, SY, w.sz))
  }

  function Fraction(d: Draw): real {
    d as real / 100.0
  }

  /** The vertical step: always upward, in [0.1, 0.496]. */
  function YOffset(d: Draw): (r: real)
    ensures 0.1 <= r <= 0.496
  {
    Fraction(d) * 0.4 + 0.1
  }

  /** A new x or z half-extent, in [0.1, 0.793]. */
  function HalfExtent(d: Draw): (r: real)
    ensures 0.1 <= r <= 0.793
  {
    Fraction(d) * 0.7 + 0.1
  }

  /** The horizontal envelope from the previous and the new half-extent on one axis. */
  function Envelope(previous: real, next: real): real {
    0.8 + previous + next
  }

  /** A horizontal step inside the envelope m: in [-m, 0.98 * m]. */
  function Offset(d: Draw, m: real): (r: real)
    requires m >= 0.0
    ensures -m <= r <= 0.98 * m
  {
    OffsetWithin(Fraction(d), m);
    Fraction(d) * 2.0 * m - m
  }

  lemma OffsetWithin(f: real, m: real)
    requires 0.0 <= f <= 0.99 && m >= 0.0
    ensures -m <= f * 2.0 * m - m <= 0.98 * m
  {
    assert f * m <= 0.99 * m;
  }

  /**
    * One step of the walk, from the five draws of that step in the order they
    * are taken: it rises by 0.1 to 0.496, takes new half-extents in [0.1, 0.793],
    * and moves horizontally inside the envelope of the old and new half-extents.
    */
  function Advance(w: Walk, dy: Draw, dsx: Draw, dsz: Draw, dx: Draw, dz: Draw): (r: Walk)
    requires w.sx >= 0.0 && w.sz >= 0.0
    ensures w.pos.y + 0.1 <= r.pos.y <= w.pos.y + 0.496
    ensures 0.1 <= r.sx <= 0.793 && 0.1 <= r.sz <= 0.793
    ensures -Envelope(w.sx, r.sx) <= r.pos.x - w.pos.x <= 0.98 * Envelope(w.sx, r.sx)
    ensures -Envelope(w.sz, r.sz) <= r.pos.z - w.pos.z <= 0.98 * Envelope(w.sz, r.sz)
  {
    var yOffset := YOffset(dy);
    var newXs := HalfExtent(dsx);
    var newZs := HalfExtent(dsz);
    var xOffset := Offset(dx, Envelope(w.sx, newXs));
    var zOffset := Offset(dz, Envelope(w.sz, newZs));
    Walk(Add(w.pos, Vec3(xOffset, yOffset, zOffset)), newXs, newZs)
  }

  /** The walk after k steps; its half-extents stay positive. */
  function WalkAfter(draws: seq<Draw>, k: nat): (w: Walk)
    requires DrawsPerStep * k <= |draws|
    ensures w.sx > 0.0 && w.sz > 0.0
  {
    if k == 0 then Start
    else
      var b := DrawsPerStep * (k - 1);
      Advance(WalkAfter(draws, k - 1), draws[b], draws[b + 1], draws[b + 2], draws[b + 3], draws[b + 4])
  }

  /**
    * The platforms of a world generated with n steps: the origin platform,
    * then one platform per step, at the walk's position after that step.
    */
  function Generated(draws: seq<Draw>, n: nat): (ps: seq<Platform>)
    requires DrawsPerStep * n <= |draws|
    ensures |ps| == n + 1
    ensures ps[0] == Origin
    ensures forall i :: 0 <= i <= n ==> ps[i] == PlatformAt(WalkAfter(draws, i))
  {
    if n == 0 then [Origin]
    else Generated(draws, n - 1) + [PlatformAt(WalkAfter(draws, n))]
  }

  /**
    * Platform i + 1 is platform i moved by that step's offsets, and its
    * half-extents are the step's new ones; the envelope uses platform i's
    * half-extents as the previous ones.
    */
  lemma {:induction false} StepRecurrence(draws: seq<Draw>, n: nat, i: nat)
    requires DrawsPerStep * n <= |draws| && i < n
    ensures var ps := Generated(draws, n);
            var b := DrawsPerStep * i;
            ps[i + 1].size == Vec3(HalfExtent(draws[b + 1]), SY, HalfExtent(draws[b + 2])) &&
            ps[i + 1].pos == Add(ps[i].pos, Vec3(
              Offset(draws[b + 3], Envelope(ps[i].size.x, ps[i + 1].size.x)),
              YOffset(draws[b]),
              Offset(draws[b + 4], Envelope(ps[i].size.z, ps[i + 1].size.z))))
  {
    var ps := Generated(draws, n);
    assert ps[i] == PlatformAt(WalkAfter(draws, i));
    assert ps[i + 1] == PlatformAt(WalkAfter(draws, i + 1));
  }

  /** Every generated platform is 0.02 high, and its x/z half-extents lie in [0.1, 0.793]. */
  lemma {:induction false} SizesBounded(draws: seq<Draw>, n: nat, i: nat)
    requires DrawsPerStep * n <= |draws| && 1 <= i <= n
    ensures var p := Generated(draws, n)[i];
            p.size.y == 0.02 && 0.1 <= p.size.x <= 0.793 && 0.1 <= p.size.z <= 0.793
  {
    StepRecurrence(draws, n, i - 1);
  }

  /**
    * Each horizontal step stays inside the envelope built from the previous
    * and the new half-extents: in [-m, 0.98 * m], m = 0.8 + previous + new.
    */
  lemma {:induction false} OffsetsBounded(draws: seq<Draw>, n: nat, i: nat)
    requires DrawsPerStep * n <= |draws| && i < n
    ensures var ps := Generated(draws, n);
            var mx := Envelope(ps[i].size.x, ps[i + 1].size.x);
            var mz := Envelope(ps[i].size.z, ps[i + 1].size.z);
            -mx <= ps[i + 1].pos.x - ps[i].pos.x <= 0.98 * mx &&
            -mz <= ps[i + 1].pos.z - ps[i].pos.z <= 0.98 * mz
  {
    StepRecurrence(draws, n, i);
  }

  /** Each platform is between 0.1 and 0.496 higher than the one before it. */
  lemma {:induction false} RisesEachStep(draws: seq<Draw>, n: nat, i: nat)
    requires DrawsPerStep * n <= |draws| && i < n
    ensures var ps := Generated(draws, n);
            ps[i].pos.y + 0.1 <= ps[i + 1].pos.y <= ps[i].pos.y + 0.496
  {
    StepRecurrence(draws, n, i);
  }

  /** Heights strictly increase along the whole sequence, at least 0.1 per step. */
  lemma {:induction false} HeightsIncrease(draws: seq<Draw>, n: nat, i: nat, j: nat)
    requires DrawsPerStep * n <= |draws| && i < j <= n
    ensures var ps := Generated(draws, n);
            ps[i].pos.y + 0.1 * (j - i) as real <= ps[j].pos.y
    decreases j - i
  {
    RisesEachStep(draws, n, j - 1);
    if i < j - 1 {
      HeightsIncrease(draws, n, i, j - 1);
    }
  }

  /** The world. `platforms` is public and its order is the collision tie-break. */
  class World {
    var platforms: seq<Platform>

    /** A world holds no platforms until it is initialised. */
    constructor ()
      ensures platforms == []
    {
      platforms := [];
    }

    /** The world's model matrix is the identity: platform coordinates are world coordinates. */
    static function ModelMatrix(): (m: seq<seq<real>>)
      ensures IsMat4(m)
      ensures forall p :: TransformPoint(m, p) == p
    {
      Diagonal(1.0)
    }

    /**
      * Fills the world with new platforms: whatever it held is replaced by the
      * origin platform followed by the 200 platforms of the random walk.
      */
    method Initialize(draws: seq<Draw>)
      requires DrawsPerStep * NumOfPlatforms <= |draws|
      modifies this
      ensures platforms == Generated(draws, NumOfPlatforms)
      ensures |platforms| == NumOfPlatforms + 1 && platforms[0] == Origin
    {
      var x, y, z := 0.0, 0.0, 0.0;
      var sx, sy, sz := 0.5, SY, 0.5;
      platforms := [Platform(Vec3(x, y, z), Vec3(sx, sy, sz))];
      var next := 0;
      for i := 0 to NumOfPlatforms
        invariant next == DrawsPerStep * i
        invariant sy == SY
        invariant Walk(Vec3(x, y, z), sx, sz) == WalkAfter(draws, i)
        invariant platforms == Generated(draws, i)
      {
        var yOffset := YOffset(draws[next]);
        var newXs := HalfExtent(draws[next + 1]);
        var newZs := HalfExtent(draws[next + 2]);
        var xOffset := Offset(draws[next + 3], Envelope(sx, newXs));
        var zOffset := Offset(draws[next + 4], Envelope(sz, newZs));
        next := next + DrawsPerStep;

        x := x + xOffset;
        y := y + yOffset;
        z := z + zOffset;
        sx := newXs;
        sz := newZs;

        platforms := platforms + [Platform(Vec3(x, y, z), Vec3(sx, sy, sz))];
      }
    }
  }
}

/** Platforms of the game scene: how one is created, the generator that stacks
    new ones above the camera, the bounce of moving platforms and the cleanup of
    platforms far below the camera. */
module Platforms {
  import opened Difficulty
  import opened Motion

  /** A platform either stays put or patrols between two x bounds. */
  datatype Patrol = Fixed | Oscillating(left: int, right: int)

  /** A platform's centre, width, horizontal velocity and patrol. Its y never
      changes (platforms ignore gravity and are immovable); its x is moved by
      the physics engine. */
  datatype Platform = Platform(x: int, y: int, width: int, vx: real, patrol: Patrol)

  /** A moving platform's bounds lie this far either side of where it was created. */
  const PatrolReach: int := 120
  /** Range of the speed a moving platform is given. */
  const MinPatrolSpeed: int := 100
  const MaxPatrolSpeed: int := 200
  /** Range of the x position a generated platform is given. */
  const MinSpawnX: int := 160
  const MaxSpawnX: int := 640

  /** The random values one generated platform consumes: the gap below it,
      its x, the roll deciding whether it moves, its patrol speed and the roll
      deciding the direction of that speed. */
  datatype PlatformDraw = PlatformDraw(gap: int, x: int, movingRoll: real, speed: int, signRoll: real)

  /** The ranges the random sources guarantee: integer draws are inclusive at
      both ends, rolls lie in [0, 1). */
  predicate DrawInRange(d: PlatformDraw, s: Settings)
    ensures DrawInRange(d, s) ==> MinPatrolSpeed <= d.speed <= MaxPatrolSpeed
    ensures DrawInRange(d, s) && s.gap > GapJitter ==> d.gap > 0
  {
    && s.gap - GapJitter <= d.gap <= s.gap + GapJitter
    && MinSpawnX <= d.x <= MaxSpawnX
    && 0.0 <= d.movingRoll < 1.0
    && MinPatrolSpeed <= d.speed <= MaxPatrolSpeed
    && 0.0 <= d.signRoll < 1.0
  }

  /** What holds of every platform the scene creates: a fixed platform does not
      move, a moving one patrols a window twice the reach wide at a patrol speed. */
  predicate WellFormed(p: Platform)
  {
    match p.patrol
    case Fixed => p.vx == 0.0
    case Oscillating(left, right) =>
      right == left + 2 * PatrolReach && MinPatrolSpeed as real <= Abs(p.vx) <= MaxPatrolSpeed as real
  }

  /** A platform created at (x, y); a moving one gets `speed`, pointing right
      when the sign roll exceeds one half, and bounds the reach either side of x. */
  function CreatePlatform(x: int, y: int, width: int, moving: bool, speed: int, signRoll: real): (p: Platform)
    requires moving ==> MinPatrolSpeed <= speed <= MaxPatrolSpeed
    ensures p.x == x && p.y == y && p.width == width
    ensures WellFormed(p)
    ensures p.patrol.Oscillating? <==> moving
    ensures moving ==> p.patrol == Oscillating(x - PatrolReach, x + PatrolReach)
    ensures moving ==> Abs(p.vx) == speed as real && (0.0 < p.vx <==> signRoll > 0.5)
  {
    if moving then
      Platform(x, y, width, speed as real * (if signRoll > 0.5 then 1.0 else -1.0),
               Oscillating(x - PatrolReach, x + PatrolReach))
    else
      Platform(x, y, width, 0.0, Fixed)
  }

  /** The ground every session starts on. */
  const Ground: Platform := CreatePlatform(400, 1120, 400, false, 0, 0.0)
  /** The y from which the first platforms are stacked, and how many. */
  const FirstRowY: int := 920
  const InitialRows: nat := 10

  /** `p` sits a legal gap above the height `below`, at a spawn x, with the
      level's width, and is well formed. */
  predicate Stacked(below: int, p: Platform, s: Settings)
  {
    && s.gap - GapJitter <= below - p.y <= s.gap + GapJitter
    && MinSpawnX <= p.x <= MaxSpawnX
    && p.width == s.width
    && WellFormed(p)
  }

  /** The platform one generation step creates above `top`. */
  function Spawn(top: int, s: Settings, d: PlatformDraw): (p: Platform)
    requires DrawInRange(d, s)
    ensures Stacked(top, p, s)
    ensures p.y == top - d.gap
    ensures p.patrol.Oscillating? <==> d.movingRoll < s.moving
  {
    CreatePlatform(d.x, top - d.gap, s.width, d.movingRoll < s.moving, d.speed, d.signRoll)
  }

  /** The highest y after `n` stacking steps from `from` on draws 0 to n - 1. */
  function ColumnTop(from: int, n: nat, draws: nat -> PlatformDraw): int
    decreases n
  {
    if n == 0 then from else ColumnTop(from, n - 1, draws) - draws(n - 1).gap
  }

  /** The platforms `n` stacking steps from `from` create, in order: step j
      spawns a platform one drawn gap above the top left by step j - 1. Both the
      initial layout and the generator of each frame build columns. */
  function Column(from: int, n: nat, s: Settings, draws: nat -> PlatformDraw): (ps: seq<Platform>)
    requires forall i: nat :: DrawInRange(draws(i), s)
    ensures |ps| == n
    decreases n
  {
    if n == 0 then []
    else Column(from, n - 1, s, draws) + [Spawn(ColumnTop(from, n - 1, draws), s, draws(n - 1))]
  }

  /** Each stacking step lowers the top: a later top is never above an earlier one. */
  lemma {:induction false} ColumnTopFalls(from: int, j: nat, n: nat, s: Settings, draws: nat -> PlatformDraw)
    requires s.gap > GapJitter
    requires forall i: nat :: DrawInRange(draws(i), s)
    requires j <= n
    ensures ColumnTop(from, n, draws) <= ColumnTop(from, j, draws)
    ensures j < n ==> ColumnTop(from, n, draws) < ColumnTop(from, j, draws)
    decreases n
  {
    if j < n {
      ColumnTopFalls(from, j, n - 1, s, draws);
      assert DrawInRange(draws(n - 1), s);
    }
  }

  /** Platform j of a column is the one step j spawns on the top left by the
      steps before it, however long the column grows. */
  lemma {:induction false} ColumnAt(from: int, n: nat, s: Settings, draws: nat -> PlatformDraw, j: nat)
    requires forall i: nat :: DrawInRange(draws(i), s)
    requires j < n
    ensures Column(from, n, s, draws)[j] == Spawn(ColumnTop(from, j, draws), s, draws(j))
    decreases n
  {
    if j < n - 1 {
      ColumnAt(from, n - 1, s, draws, j);
      assert Column(from, n, s, draws)[j] == Column(from, n - 1, s, draws)[j];
    }
  }

  /** Each platform of a column sits one legal gap above the previous top, at
      the new top; so all are well formed and lie between the column's top and
      `from`. */
  lemma ColumnStacks(from: int, n: nat, s: Settings, draws: nat -> PlatformDraw)
    requires s.gap > GapJitter
    requires forall i: nat :: DrawInRange(draws(i), s)
    ensures ColumnTop(from, n, draws) <= from
    ensures forall j :: 0 <= j < n ==>
              && Stacked(ColumnTop(from, j, draws), Column(from, n, s, draws)[j], s)
              && Column(from, n, s, draws)[j].y == ColumnTop(from, j + 1, draws)
    ensures forall p :: p in Column(from, n, s, draws) ==>
              WellFormed(p) && ColumnTop(from, n, draws) <= p.y < from
  {
    var ps := Column(from, n, s, draws);
    forall j | 0 <= j < n
      ensures Stacked(ColumnTop(from, j, draws), ps[j], s) && ps[j].y == ColumnTop(from, j + 1, draws)
    {
      ColumnAt(from, n, s, draws, j);
    }
    forall p | p in ps
      ensures WellFormed(p) && ColumnTop(from, n, draws) <= p.y < from
    {
      var j :| 0 <= j < n && ps[j] == p;
      ColumnAt(from, n, s, draws, j);
      ColumnTopFalls(from, j + 1, n, s, draws);
      ColumnTopFalls(from, 0, j, s, draws);
    }
    ColumnTopFalls(from, 0, n, s, draws);
  }

  /** Appending a column stacked from `from` to platforms that are well formed
      and at or below `from` keeps them all well formed and at or below the
      column's top. */
  lemma AppendColumn(ps: seq<Platform>, from: int, n: nat, s: Settings, draws: nat -> PlatformDraw)
    requires s.gap > GapJitter
    requires forall i: nat :: DrawInRange(draws(i), s)
    requires forall p :: p in ps ==> WellFormed(p) && from <= p.y
    ensures ColumnTop(from, n, draws) <= from
    ensures forall p :: p in ps + Column(from, n, s, draws) ==> WellFormed(p) && ColumnTop(from, n, draws) <= p.y
  {
    ColumnStacks(from, n, s, draws);
  }

  /** The number of stacking steps the generator takes from `from` once it has
      taken `k`: it goes on while the top is above `limit`, so it stops at the
      first top at or below `limit` and every top before that is above it. */
  function StepsLeft(from: int, limit: int, s: Settings, draws: nat -> PlatformDraw, k: nat): (r: nat)
    requires s.gap > GapJitter
    requires forall i: nat :: DrawInRange(draws(i), s)
    ensures ColumnTop(from, k + r, draws) <= limit
    ensures forall j :: k <= j < k + r ==> ColumnTop(from, j, draws) > limit
    decreases ColumnTop(from, k, draws) - limit
  {
    if ColumnTop(from, k, draws) <= limit then 0
    else 1 + StepsLeft(from, limit, s, draws, k + 1)
  }

  /** How many platforms one run of the generator creates from the top `from`:
      afterwards the top is at or below `limit`, no earlier top was, and none
      is created exactly when the top already was at or below `limit`. */
  function GenerateCount(from: int, limit: int, s: Settings, draws: nat -> PlatformDraw): (n: nat)
    requires s.gap > GapJitter
    requires forall i: nat :: DrawInRange(draws(i), s)
    ensures ColumnTop(from, n, draws) <= limit
    ensures forall j :: 0 <= j < n ==> ColumnTop(from, j, draws) > limit
    ensures n == 0 <==> from <= limit
  {
    StepsLeft(from, limit, s, draws, 0)
  }

  /** A moving platform at or beyond one of its bounds. */
  predicate AtBound(p: Platform)
    ensures AtBound(p) ==> p.patrol.Oscillating?
    ensures p.patrol.Oscillating? && p.patrol.left < p.x < p.patrol.right ==> !AtBound(p)
  {
    p.patrol.Oscillating? && (p.x <= p.patrol.left || p.x >= p.patrol.right)
  }

  /** One platform after the bounce step: only a moving platform at a bound
      changes, and it only has its velocity reversed. */
  function Bounce(p: Platform): (q: Platform)
    ensures AtBound(p) ==> q == p.(vx := -p.vx)
    ensures !AtBound(p) ==> q == p
    ensures WellFormed(p) ==> WellFormed(q)
    ensures Abs(q.vx) == Abs(p.vx)
  {
    if AtBound(p) then p.(vx := -p.vx) else p
  }

  /** Every platform after the bounce step, in place. */
  function BounceAll(ps: seq<Platform>): (r: seq<Platform>)
    ensures |r| == |ps|
    ensures forall i :: 0 <= i < |ps| ==> r[i] == Bounce(ps[i])
  {
    seq(|ps|, i requires 0 <= i < |ps| => Bounce(ps[i]))
  }

  /** The platforms the cleanup keeps, in their old order. */
  function Survivors(ps: seq<Platform>, bottomY: int): (r: seq<Platform>)
    ensures |r| <= |ps|
    decreases |ps|
  {
    if |ps| == 0 then []
    else
      var last := ps[|ps| - 1];
      Survivors(ps[..|ps| - 1], bottomY) + (if last.y <= bottomY then [last] else [])
  }

  /** The cleanup removes exactly the platforms more than `bottomY` down and
      keeps every other one, as often as it occurred. */
  lemma {:induction false} SurvivorsExactly(ps: seq<Platform>, bottomY: int)
    ensures forall p :: p in Survivors(ps, bottomY) <==> p in ps && p.y <= bottomY
    ensures forall p :: multiset(Survivors(ps, bottomY))[p] == if p.y <= bottomY then multiset(ps)[p] else 0
    decreases |ps|
  {
    if |ps| > 0 {
      var init := ps[..|ps| - 1];
      var last := ps[|ps| - 1];
      assert ps == init + [last];
      SurvivorsExactly(init, bottomY);
    }
  }

  /** Cleaning up one more platform keeps the old survivors and adds that
      platform exactly when it is not too far down. */
  lemma SurvivorsSnoc(ps: seq<Platform>, p: Platform, bottomY: int)
    ensures Survivors(ps + [p], bottomY) == Survivors(ps, bottomY) + (if p.y <= bottomY then [p] else [])
  {
    assert (ps + [p])[..|ps|] == ps;
  }
}

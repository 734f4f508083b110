/** The game scene as one session: the scene fields its handlers and its
    per-frame update change, and the player body the physics engine moves.
    The engine writes the player's `x`, `y`, `vx`, `vy` and `rotation` and the
    platforms' x between calls; everything else changes only through the
    methods below. */
module Game {
  import opened Difficulty
  import opened Motion
  import opened Charge
  import opened Scoring
  import opened Platforms

  /** Where the player starts. */
  const PlayerStartX: int := 400
  const PlayerStartY: int := 1000
  /** Platforms are generated until the top one is this far above the camera. */
  const SpawnMargin: int := 400
  /** Platforms more than this far below the camera's top are destroyed. */
  const CleanupMargin: int := 1400
  /** The game ends once the player is more than this far below the camera's top. */
  const DeathMargin: int := 1300

  class GameScene {
    const level: Level
    const settings: Settings

    var score: int
    var maxHeight: int
    var gameOver: bool
    var jumpCount: nat

    var isCharging: bool
    var chargeStartTime: int
    var airJumpsUsed: nat

    /** The live platforms, in creation order, and the y of the highest one generated. */
    var platforms: seq<Platform>
    var topPlatformY: int

    /** The player's body. */
    var x: int
    var y: int
    var vx: real
    var vy: real
    var angularVelocity: real
    var rotation: real

    /** The scene's invariant: the air-jump budget is never overspent, the score
        is the score of the height record, and every live platform is well
        formed and at or below the highest generated y. */
    ghost predicate Valid()
      reads this
    {
      && settings == SettingsFor(level)
      && airJumpsUsed <= MaxAirJumps
      && maxHeight <= StartHeight
      && score == Score(maxHeight)
      && (forall p :: p in platforms ==> WellFormed(p) && topPlatformY <= p.y)
    }

    /** A new session on `level`: the ground, ten platforms stacked from y 920
        on the draws 0 to 9, and the player standing at the start moving right. */
    constructor (level: Level, draws: nat -> PlatformDraw)
      requires forall i: nat :: DrawInRange(draws(i), SettingsFor(level))
      ensures Valid()
      ensures this.level == level
      ensures score == 0 && maxHeight == StartHeight && !gameOver && jumpCount == 0
      ensures !isCharging && chargeStartTime == 0 && airJumpsUsed == 0
      ensures platforms == [Ground] + Column(FirstRowY, InitialRows, settings, draws)
      ensures topPlatformY == ColumnTop(FirstRowY, InitialRows, draws)
      ensures x == PlayerStartX && y == PlayerStartY && vx == settings.speed as real && vy == 0.0
      ensures angularVelocity == 0.0 && rotation == 0.0
    {
      var s := SettingsFor(level);
      var column, top := StackPlatforms(s, draws, FirstRowY, InitialRows);
      var ps := [Ground] + column;
      this.level := level;
      settings := s;
      score, maxHeight, gameOver, jumpCount := 0, StartHeight, false, 0;
      isCharging, chargeStartTime, airJumpsUsed := false, 0, 0;
      platforms, topPlatformY := ps, top;
      x, y, vx, vy := PlayerStartX, PlayerStartY, s.speed as real, 0.0;
      angularVelocity, rotation := 0.0, 0.0;
    }

    /** The loop of create() that stacks `rows` platforms one drawn gap above
        the other, starting from `fromY`; `top` is the y of the last one. */
    static method StackPlatforms(s: Settings, draws: nat -> PlatformDraw, fromY: int, rows: nat)
      returns (ps: seq<Platform>, top: int)
      requires s.gap > GapJitter
      requires forall i: nat :: DrawInRange(draws(i), s)
      ensures ps == Column(fromY, rows, s, draws)
      ensures top == ColumnTop(fromY, rows, draws)
      ensures top <= fromY && forall p :: p in ps ==> WellFormed(p) && top <= p.y
    {
      ps := [];
      top := fromY;
      for i := 0 to rows
        invariant ps == Column(fromY, i, s, draws)
        invariant top == ColumnTop(fromY, i, draws)
      {
        var d := draws(i);
        var p := CreatePlatform(d.x, top - d.gap, s.width, d.movingRoll < s.moving, d.speed, d.signRoll);
        top := top - d.gap;
        ps := ps + [p];
      }
      ColumnStacks(fromY, rows, s, draws);
    }

    /** Press: unless the game is over, start (or restart) a charge at `now`. */
    method PointerDown(now: int)
      modifies this`isCharging, this`chargeStartTime
      ensures old(gameOver) ==> unchanged(this)
      ensures !old(gameOver) ==> isCharging && chargeStartTime == now
    {
      if gameOver { return; }
      isCharging := true;
      chargeStartTime := now;
    }

    /** Release at `now`, with `onGround` the engine's report that the player
        stands on something. Unless the game is over or no charge is under way,
        the charge ends; the jump is refused in the air once the air jumps are
        used up, and otherwise launches with the charge's power. */
    method PointerUp(now: int, onGround: bool) returns (outcome: ReleaseOutcome)
      requires Valid()
      modifies this`isCharging, this`airJumpsUsed, this`vy, this`jumpCount, this`angularVelocity
      ensures Valid()
      ensures old(gameOver) || !old(isCharging) ==> outcome == Ignored && unchanged(this)
      ensures !old(gameOver) && old(isCharging) ==> !isCharging && outcome != Ignored
      ensures outcome == Denied <==>
                !old(gameOver) && old(isCharging) && !onGround && old(airJumpsUsed) >= MaxAirJumps
      ensures outcome == Denied ==>
                vy == old(vy) && jumpCount == old(jumpCount) && airJumpsUsed == old(airJumpsUsed)
                && angularVelocity == old(angularVelocity)
      ensures outcome.Jumped? ==>
                && outcome.power == ChargePower(now, chargeStartTime)
                && vy == JumpVelocity(outcome.power)
                && jumpCount == old(jumpCount) + 1
                && airJumpsUsed == (if onGround then old(airJumpsUsed) else old(airJumpsUsed) + 1)
                && angularVelocity == SpinVelocity(outcome.power, vx)
    {
      if gameOver { return Ignored; }
      if !isCharging { return Ignored; }
      var power := ChargePower(now, chargeStartTime);
      isCharging := false;
      if !onGround {
        if airJumpsUsed >= MaxAirJumps {
          return Denied;
        }
        airJumpsUsed := airJumpsUsed + 1;
      }
      vy := JumpVelocity(power);
      jumpCount := jumpCount + 1;
      angularVelocity := SpinVelocity(power, vx);
      outcome := Jumped(power);
    }

    /** The collider: a contact between the player's bottom edge and a
        platform's top edge that qualifies as a landing resets the air jumps and
        the spin; any other contact changes nothing. The physics engine keeps
        running after the game ends, so this has no game-over guard. */
    method Land(playerBottom: int, platformTop: int) returns (landed: bool)
      requires Valid()
      modifies this`airJumpsUsed, this`angularVelocity, this`rotation
      ensures Valid()
      ensures landed == LandingQualifies(vy, playerBottom, platformTop)
      ensures landed ==> airJumpsUsed == 0 && angularVelocity == 0.0 && rotation == 0.0
      ensures !landed ==> unchanged(this)
    {
      landed := LandingQualifies(vy, playerBottom, platformTop);
      if landed {
        airJumpsUsed := 0;
        angularVelocity := 0.0;
        rotation := 0.0;
      }
    }

    /** One frame with the camera's top at `scrollY`, `draws` the random values
        for the platforms generated this frame and `stored` the high-score entry.
        Returns the high-score entry afterwards. */
    method Update(scrollY: int, draws: nat -> PlatformDraw, stored: StoredBest) returns (stored': StoredBest)
      requires Valid()
      requires forall i: nat :: DrawInRange(draws(i), settings)
      modifies this`x, this`vx, this`platforms, this`topPlatformY, this`maxHeight, this`score, this`gameOver
      ensures Valid()
      ensures old(gameOver) ==> unchanged(this) && stored' == stored
      ensures !old(gameOver) ==>
                var n := GenerateCount(old(topPlatformY), scrollY - SpawnMargin, settings, draws);
                && (x, vx) == WallBounce(old(x), old(vx))
                && topPlatformY == ColumnTop(old(topPlatformY), n, draws)
                && platforms == Survivors(BounceAll(old(platforms)) + Column(old(topPlatformY), n, settings, draws),
                                          scrollY + CleanupMargin)
                && maxHeight == NextMaxHeight(old(maxHeight), y)
                && old(score) <= score
                && gameOver == (y > scrollY + DeathMargin)
                && stored' == (if gameOver then HighScoreAfter(score, stored) else stored)
    {
      if gameOver { return stored; }
      WallStep();
      AdvancePlatforms(scrollY, draws);
      RecordHeight();
      stored' := stored;
      if y > scrollY + DeathMargin {
        stored' := EndGame(stored);
      }
    }

    /** The platform steps of a frame with the camera's top at `scrollY`:
        bounce the moving platforms, generate above the camera, clean up below it. */
    method AdvancePlatforms(scrollY: int, draws: nat -> PlatformDraw)
      requires Valid()
      requires forall i: nat :: DrawInRange(draws(i), settings)
      modifies this`platforms, this`topPlatformY
      ensures Valid()
      ensures var n := GenerateCount(old(topPlatformY), scrollY - SpawnMargin, settings, draws);
              && topPlatformY == ColumnTop(old(topPlatformY), n, draws)
              && platforms == Survivors(BounceAll(old(platforms)) + Column(old(topPlatformY), n, settings, draws),
                                        scrollY + CleanupMargin)
    {
      BounceMovingPlatforms();
      GeneratePlatforms(scrollY - SpawnMargin, draws);
      RemovePlatformsBelow(scrollY + CleanupMargin);
    }

    /** Clamp the player into the walls and point it back inwards. */
    method WallStep()
      modifies this`x, this`vx
      ensures (x, vx) == WallBounce(old(x), old(vx))
    {
      if x < WallLeft {
        x := WallLeft;
        vx := Abs(vx);
      } else if x > WallRight {
        x := WallRight;
        vx := -Abs(vx);
      }
    }

    /** Reverse every moving platform at or beyond one of its bounds, in place. */
    method BounceMovingPlatforms()
      requires Valid()
      modifies this`platforms
      ensures Valid()
      ensures platforms == BounceAll(old(platforms))
    {
      var i := 0;
      while i < |platforms|
        invariant 0 <= i <= |platforms| == |old(platforms)|
        invariant forall j :: 0 <= j < i ==> platforms[j] == Bounce(old(platforms)[j])
        invariant forall j :: i <= j < |platforms| ==> platforms[j] == old(platforms)[j]
      {
        var p := platforms[i];
        if p.patrol.Oscillating? && (p.x <= p.patrol.left || p.x >= p.patrol.right) {
          platforms := platforms[i := p.(vx := -p.vx)];
        }
        i := i + 1;
      }
      forall p | p in platforms
        ensures WellFormed(p) && topPlatformY <= p.y
      {
        var j :| 0 <= j < |platforms| && platforms[j] == p;
        assert old(platforms)[j] in old(platforms);
      }
    }

    /** Create platforms above the highest one while it is below `limit`. */
    method GeneratePlatforms(limit: int, draws: nat -> PlatformDraw)
      requires Valid()
      requires forall i: nat :: DrawInRange(draws(i), settings)
      modifies this`topPlatformY, this`platforms
      ensures Valid()
      ensures var n := GenerateCount(old(topPlatformY), limit, settings, draws);
              && topPlatformY == ColumnTop(old(topPlatformY), n, draws)
              && platforms == old(platforms) + Column(old(topPlatformY), n, settings, draws)
    {
      var top, ps := topPlatformY, platforms;
      ghost var n := GenerateCount(top, limit, settings, draws);
      var k: nat := 0;
      while top > limit
        invariant top == ColumnTop(topPlatformY, k, draws)
        invariant ps == platforms + Column(topPlatformY, k, settings, draws)
        invariant k <= n
        decreases top - limit
      {
        var d := draws(k);
        var p := CreatePlatform(d.x, top - d.gap, settings.width, d.movingRoll < settings.moving, d.speed, d.signRoll);
        assert Column(topPlatformY, k + 1, settings, draws) == Column(topPlatformY, k, settings, draws) + [p];
        assert ps + [p] == platforms + Column(topPlatformY, k + 1, settings, draws);
        top := top - d.gap;
        ps := ps + [p];
        k := k + 1;
      }
      AppendColumn(platforms, topPlatformY, n, settings, draws);
      topPlatformY, platforms := top, ps;
    }

    /** Destroy every platform more than `bottomY` down. */
    method RemovePlatformsBelow(bottomY: int)
      requires Valid()
      modifies this`platforms
      ensures Valid()
      ensures platforms == Survivors(old(platforms), bottomY)
    {
      var kept := KeepAtOrAbove(platforms, bottomY);
      SurvivorsExactly(platforms, bottomY);
      platforms := kept;
    }

    /** The cleanup loop: walk the platforms in order and keep those not more
        than `bottomY` down. */
    static method KeepAtOrAbove(ps: seq<Platform>, bottomY: int) returns (kept: seq<Platform>)
      ensures kept == Survivors(ps, bottomY)
    {
      kept := [];
      var i := 0;
      while i < |ps|
        invariant 0 <= i <= |ps|
        invariant kept == Survivors(ps[..i], bottomY)
      {
        var p := ps[i];
        if !(p.y > bottomY) {
          kept := kept + [p];
        }
        assert ps[..i + 1] == ps[..i] + [p];
        SurvivorsSnoc(ps[..i], p, bottomY);
        i := i + 1;
      }
      assert ps[..i] == ps;
    }

    /** Raise the height record to the player's y when the player is higher,
        and rescore. */
    method RecordHeight()
      requires Valid()
      modifies this`maxHeight, this`score
      ensures Valid()
      ensures maxHeight == NextMaxHeight(old(maxHeight), y)
      ensures old(score) <= score
    {
      if y < maxHeight {
        ScoreMonotone(y, maxHeight);
        maxHeight := y;
        score := Score(maxHeight);
      }
    }

    /** End the session once: the first call sets the game over flag and
        writes the score to the store if it beats the stored best; any later
        call changes nothing. */
    method EndGame(stored: StoredBest) returns (stored': StoredBest)
      modifies this`gameOver
      ensures gameOver
      ensures old(gameOver) ==> stored' == stored
      ensures !old(gameOver) ==> stored' == HighScoreAfter(score, stored)
    {
      if gameOver { return stored; }
      gameOver := true;
      stored' := HighScoreAfter(score, stored);
    }
  }
}

/** The rules the game scene applies to bodies the physics engine moves: the
    wall bounce of the player and the one-way landing test. */
module Motion {

  /** The player is kept between these two x positions. */
  const WallLeft: int := 50
  const WallRight: int := 750

  /** How far below a platform's top edge the player's bottom edge may be for a
      contact to count as a landing. */
  const LandingTolerance: int := 10

  function Abs(v: real): (a: real)
    ensures 0.0 <= a && (a == v || a == -v)
  {
    if v < 0.0 then -v else v
  }

  /** The player's position and horizontal velocity after the wall step: the
      position is clamped into the walls, the speed is kept, and a player
      beyond a wall is sent back in. */
  function WallBounce(x: int, vx: real): (r: (int, real))
    ensures WallLeft <= r.0 <= WallRight
    ensures Abs(r.1) == Abs(vx)
    ensures x < WallLeft ==> r.0 == WallLeft && 0.0 <= r.1
    ensures x > WallRight ==> r.0 == WallRight && r.1 <= 0.0
    ensures WallLeft <= x <= WallRight ==> r == (x, vx)
  {
    if x < WallLeft then (WallLeft, Abs(vx))
    else if x > WallRight then (WallRight, -Abs(vx))
    else (x, vx)
  }

  /** The collider's process test: a contact is a landing only while the player
      falls and its bottom edge is at most the tolerance below the platform's top. */
  predicate LandingQualifies(vy: real, playerBottom: int, platformTop: int)
    ensures 0.0 < vy && playerBottom <= platformTop ==> LandingQualifies(vy, playerBottom, platformTop)
    ensures playerBottom > platformTop + LandingTolerance ==> !LandingQualifies(vy, playerBottom, platformTop)
  {
    vy > 0.0 && playerBottom <= platformTop + LandingTolerance
  }

  /** A player moving up, or standing still, passes through a platform. */
  lemma RisingPassesThrough(vy: real, playerBottom: int, platformTop: int)
    requires vy <= 0.0
    ensures !LandingQualifies(vy, playerBottom, platformTop)
  {
  }
}

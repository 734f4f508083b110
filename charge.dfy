/** Charging a jump and launching it: the arithmetic of the press and release
    handlers of the game scene. */
module Charge {
  import opened Motion

  /** Holding this long (milliseconds) gives full power. */
  const ChargeWindowMs: int := 1000
  /** The launch velocity is -(BaseImpulse + power * ImpulseRange). */
  const BaseImpulse: real := 1200.0
  const ImpulseRange: real := 1200.0
  /** Jumps allowed between two landings while not on the ground. */
  const MaxAirJumps: nat := 1
  /** Spin speed is BaseSpin + power * SpinRange degrees per second. */
  const BaseSpin: real := 300.0
  const SpinRange: real := 400.0

  /** What a release did: nothing (game over, or no charge under way), a
      refused air jump, or a jump with the given power. */
  datatype ReleaseOutcome = Ignored | Denied | Jumped(power: real)

  /** The power of a charge started at `start` and released at `now`: the held
      fraction of the charge window, saturating at 1. */
  function ChargePower(now: int, start: int): (p: real)
    ensures p <= 1.0
    ensures start <= now ==> 0.0 <= p
    ensures now - start >= ChargeWindowMs ==> p == 1.0
    ensures now - start <= ChargeWindowMs ==> p * ChargeWindowMs as real == (now - start) as real
  {
    var held := (now - start) as real / ChargeWindowMs as real;
    if held < 1.0 then held else 1.0
  }

  /** Holding longer never gives less power. */
  lemma LongerChargeIsStronger(start: int, t1: int, t2: int)
    requires t1 <= t2
    ensures ChargePower(t1, start) <= ChargePower(t2, start)
  {
  }

  /** The vertical launch velocity (negative is up) for a power. */
  function JumpVelocity(power: real): (v: real)
    ensures 0.0 <= power <= 1.0 ==> -BaseImpulse - ImpulseRange <= v <= -BaseImpulse
    ensures power == 0.0 ==> v == -BaseImpulse
    ensures power == 1.0 ==> v == -BaseImpulse - ImpulseRange
  {
    -BaseImpulse - power * ImpulseRange
  }

  /** More power gives a stronger upward launch. */
  lemma StrongerChargeJumpsHigher(p: real, q: real)
    requires p <= q
    ensures JumpVelocity(q) <= JumpVelocity(p)
  {
  }

  /** The cosmetic spin given at launch: its speed grows with power and it
      turns the way the player is moving (clockwise when moving right). */
  function SpinVelocity(power: real, vx: real): (w: real)
    ensures 0.0 <= power <= 1.0 ==> BaseSpin <= Abs(w) <= BaseSpin + SpinRange
    ensures 0.0 <= power ==> (0.0 < w <==> 0.0 < vx)
  {
    (BaseSpin + power * SpinRange) * (if vx > 0.0 then 1.0 else -1.0)
  }

  /** A full charge held past the window (1200 ms) launches at the strongest velocity. */
  lemma FullChargeScenario()
    ensures ChargePower(1200, 0) == 1.0
    ensures JumpVelocity(ChargePower(1200, 0)) == -2400.0
  {
  }
}

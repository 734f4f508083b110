/** The difficulty table of the game scene and how a scene picks its row. */
module Difficulty {
  import opened Wrappers

  datatype Level = Easy | Medium | Hard

  /** One row of the table: the nominal vertical gap between platforms, the
      platform width, the probability that a new platform moves and the player's
      horizontal speed (pixels and pixels per second). */
  datatype Settings = Settings(gap: int, width: int, moving: real, speed: int)

  /** A drawn gap lies within this distance of the nominal gap. */
  const GapJitter: int := 40

  /** The row for each level. Every gap the generator can draw is at least 160
      pixels, which is what makes generation terminate. */
  function SettingsFor(level: Level): (s: Settings)
    ensures s.gap - GapJitter >= 160
    ensures 0 < s.width && 0 < s.speed
    ensures 0.0 < s.moving < 1.0
  {
    match level
    case Easy => Settings(200, 220, 0.1, 180)
    case Medium => Settings(240, 180, 0.25, 220)
    case Hard => Settings(280, 140, 0.4, 260)
  }

  function Rank(level: Level): nat
  {
    match level
    case Easy => 0
    case Medium => 1
    case Hard => 2
  }

  /** A harder level never has smaller gaps, wider platforms, fewer moving
      platforms or a slower player. */
  lemma HarderLevelsAreHarder(a: Level, b: Level)
    requires Rank(a) <= Rank(b)
    ensures SettingsFor(a).gap <= SettingsFor(b).gap
    ensures SettingsFor(a).width >= SettingsFor(b).width
    ensures SettingsFor(a).moving <= SettingsFor(b).moving
    ensures SettingsFor(a).speed <= SettingsFor(b).speed
  {
  }

  /** The key of a level in the table, as the menu passes it to the scene. */
  function LevelName(level: Level): string
  {
    match level
    case Easy => "easy"
    case Medium => "medium"
    case Hard => "hard"
  }

  /** The level a scene runs, from the difficulty value handed to its init
      (None when that value is missing). A missing or empty value falls back to
      easy; any other name has no row in the table. */
  function ResolveLevel(name: Option<string>): (r: Option<Level>)
    ensures name.None? ==> r == Some(Easy)
    ensures name.Some? && name.value == "" ==> r == Some(Easy)
    ensures name.Some? && name.value != "" ==>
              (r.Some? <==> exists level: Level :: LevelName(level) == name.value)
    ensures name.Some? && name.value != "" && r.Some? ==> LevelName(r.value) == name.value
  {
    var key := if name.None? || name.value == "" then "easy" else name.value;
    if key == LevelName(Easy) then Some(Easy)
    else if key == LevelName(Medium) then Some(Medium)
    else if key == LevelName(Hard) then Some(Hard)
    else None
  }

  /** Every level the menu starts survives the trip through the scene's init. */
  lemma ResolveLevelName(level: Level)
    ensures ResolveLevel(Some(LevelName(level))) == Some(level)
  {
  }
}

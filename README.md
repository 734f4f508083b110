# Jumpy Friend: the gameplay rules of the game scene

Jumpy Friend is an endless climber. The friend runs sideways on its own and
bounces off the walls. The player holds a pointer to charge a jump and
releases it to launch upward, landing on platforms that are generated above
the camera and destroyed once they fall far below it. The score is the
height climbed.

This project models the rules of `GameScene` in `game.js` as one session
object, `Game.GameScene`. Its fields are the ones the scene's handlers
change: the score, the height record, the game-over flag, the jump count,
the charge, the air-jump budget, the platforms and the highest generated y.
The player's body fields are also included. The pure rules are small
functions in modules of their own:

- Difficulty: the difficulty table and how a level name chooses its row.
- Motion: the wall bounce and the one-way landing test.
- Charge: charge power, jump velocity and spin.
- Scoring: the score formula, the height record and the stored best score.
- Platforms: creating platforms, the generation column, the bounce of moving platforms and the cleanup.

Values supplied by the engine or the environment are parameters:

- the clock time at press and release;
- whether the body stands on something;
- the camera's top edge (`scrollY`);
- the contact edges of the collider;
- the random draws, an oracle `draws: nat -> PlatformDraw` constrained to the ranges the random sources guarantee;
- the high-score entry of the key-value store, as a `StoredBest` value.

A frame (`Update`) is the code's order of steps:

1. the wall step;
2. the bounce of moving platforms;
3. generation above the camera;
4. cleanup below it;
5. the height record and score;
6. the death check, which calls `EndGame`.

Two behaviours of the code shape the model:

- A press while a charge is already under way is not ignored. It restarts
  the charge timer (`game.js:281-282`).
- A stored best that is not a number is not read as 0. `parseInt` then
  gives NaN, `score > NaN` is false, and the entry is never overwritten
  (`game.js:457-459`). A missing or empty entry reads as 0 because of
  `|| '0'`. `StoredBest` separates these three cases.

## Model

| member | source | states |
|---|---|---|
| Difficulty.SettingsFor | game.js:136-141 | the gap/width/moving/speed row of each level; every drawable gap is at least 160, moving probability is in (0,1), widths and speeds are positive |
| Difficulty.HarderLevelsAreHarder | game.js:137-139 | a harder level never has a smaller gap, a wider platform, fewer moving platforms or a slower player |
| Difficulty.ResolveLevel | game.js:112-141 | a missing or empty difficulty falls back to easy; a non-empty name gets a row exactly when it is one of the table's keys, and then the row named by it |
| Difficulty.ResolveLevelName | game.js:112-141 | each level the menu passes in resolves to itself |
| Motion.WallBounce | game.js:393-399 | after the wall step x is within [50, 750]; beyond the left wall x is 50 and vx is at least 0, beyond the right wall x is 750 and vx is at most 0, otherwise x and vx are unchanged; the speed is kept |
| Motion.LandingQualifies | game.js:182-184 | the collider's process test: a falling player whose bottom edge has not passed the platform's top lands, and one whose bottom edge is more than 10 below the top passes through |
| Motion.RisingPassesThrough | game.js:182-184 | a rising or still player never lands, whatever the edges |
| Charge.ChargePower | game.js:300-301 | power is the held fraction of 1000 ms below the window and exactly 1 from the window on; it lies in [0,1] when released after the press |
| Charge.LongerChargeIsStronger | game.js:300-301 | releasing later never gives less power |
| Charge.JumpVelocity | game.js:333-334 | the launch velocity lies in [-2400, -1200] for power in [0,1], is -1200 at power 0 and -2400 at power 1 |
| Charge.StrongerChargeJumpsHigher | game.js:333 | more power gives an equal or stronger upward launch |
| Charge.SpinVelocity | game.js:338-340 | the spin speed lies in [300, 700] for power in [0,1] and the spin is positive exactly when the player moves right |
| Charge.FullChargeScenario | game.js:300-334 | a charge held 1200 ms has power 1 and launches at -2400 |
| Scoring.Score | game.js:427 | the score is the number of whole 20-pixel steps climbed above 1200 (floor division), 0 at the start and never negative below the start |
| Scoring.ScoreMonotone | game.js:425-427 | a higher record never scores less |
| Scoring.NextMaxHeight | game.js:425-426 | the record never rises and becomes the player's y exactly when that is higher up |
| Scoring.ScoreNeverDecreases | game.js:425-429 | along any sequence of observed positions the record is the old record or one of them, is at or above all of them, and the score never decreases |
| Scoring.BestOf | game.js:457 | the stored best as `parseInt` of the entry, or of `'0'` when the entry is missing or empty, reads it: a missing or empty entry is 0, a numeric one its number, and only unparsable text gives no number |
| Scoring.HighScoreAfter | game.js:457-460 | the entry is either kept or replaced by the score; it changes exactly when the best is readable and the score beats it; a readable best becomes the larger of the two; an unreadable one is kept |
| Scoring.HighScoreScenarios | game.js:457-460 | 150 replaces a stored 100 and leaves a stored 200 |
| Platforms.DrawInRange | game.js:155-160 | the ranges the random sources guarantee for one platform (gap within 40 of the nominal gap, x in [160, 640], rolls in [0, 1), patrol speed in [100, 200], as at game.js:270 and 411-416); so a drawn speed suits a moving platform and every drawn gap lowers the top |
| Platforms.CreatePlatform | game.js:262-274 | a platform at the given place and width; a moving one patrols x-120..x+120 at the drawn speed, pointing right exactly when the sign roll exceeds 0.5; a fixed one has velocity 0 |
| Platforms.Spawn | game.js:411-417 | a generated platform is one drawn gap above the previous top, at a spawn x in [160, 640], with the level's width, moving exactly when the roll is below the moving probability |
| Platforms.Column | game.js:153-162 | n stacking steps create n platforms |
| Platforms.ColumnTopFalls | game.js:155 | each stacking step strictly lowers the top, so a later top is never above an earlier one |
| Platforms.ColumnAt | game.js:154-162 | platform j of a column is the one step j spawns on the top left by the earlier steps |
| Platforms.ColumnStacks | game.js:153-163 | each platform of a column is one legal gap below the previous top, at a spawn x and at the new top; all are well formed and lie between the final top and the starting y |
| Platforms.AppendColumn | game.js:409-418 | appending a generated column keeps every platform well formed and at or below the new top |
| Platforms.ColumnTop | game.js:155 | the top after n stacking steps: the start lowered by each of the first n drawn gaps in turn (the same step as game.js:411) |
| Platforms.StepsLeft | game.js:410-411 | the generation loop, once k steps are taken, stops at the first top at or below the limit; every top before that is still above it |
| Platforms.GenerateCount | game.js:409-418 | after one run of generation the top is at or below the limit, no earlier top was, and nothing is generated exactly when the top already was at or below the limit |
| Platforms.AtBound | game.js:403-404 | only a moving platform can be at a bound, and one strictly between its bounds is not |
| Platforms.Bounce | game.js:403-406 | a moving platform at or beyond a bound has its velocity negated, any other platform is untouched, and well-formedness and speed are kept |
| Platforms.BounceAll | game.js:402-407 | the bounce applies to every platform in place and keeps their number and order |
| Platforms.Survivors | game.js:421-422 | the cleanup never adds platforms |
| Platforms.SurvivorsExactly | game.js:421-422 | the cleanup removes exactly the platforms whose y is greater than the limit and keeps every other one as often as it occurred |
| Game.GameScene.constructor | game.js:121-174 | a fresh session: score 0, record 1200, not over, no jumps, no charge, no air jumps used, the ground plus ten platforms stacked from 920 on the draws, the top at the last one, the player at (400, 1000) with the level's speed |
| Game.GameScene.StackPlatforms | game.js:153-163 | the initial loop builds exactly the column of the draws, its top is the column's top, and every platform is well formed and at or below it |
| Game.GameScene.PointerDown | game.js:277-282 | nothing changes once the game is over; otherwise a charge starts at the press time, also when one is already under way |
| Game.GameScene.PointerUp | game.js:295-340 | nothing changes when the game is over or nothing is charging; otherwise the charge ends; the jump is denied exactly when airborne with the air jump used, and then nothing else changes; otherwise vy is the velocity of the charge's power, the jump count goes up by one, the air-jump count goes up only in the air, the spin follows the power and direction, and the air-jump budget is never overspent |
| Game.GameScene.Land | game.js:177-184 | a contact lands exactly when the landing test holds, and then resets the air jumps, spin and rotation to 0; any other contact changes nothing |
| Game.GameScene.Update | game.js:355-438 | nothing changes once the game is over; otherwise the frame applies the wall step, bounces, generates up to 400 above the camera, cleans up 1400 below it, updates the record without lowering the score, ends the game exactly when the player is more than 1300 below the camera, and writes the high score through the game-over rule |
| Game.GameScene.AdvancePlatforms | game.js:401-422 | the platforms after a frame are the survivors of the bounced old platforms followed by the generated column, and the top is that column's top |
| Game.GameScene.WallStep | game.js:392-399 | the player's x and vx become the wall bounce of the old ones |
| Game.GameScene.BounceMovingPlatforms | game.js:401-407 | each platform is replaced in place by its bounce; the scene's invariant is kept |
| Game.GameScene.GeneratePlatforms | game.js:409-418 | the loop appends exactly the generated column of the draws to the platforms and leaves the top at its end |
| Game.GameScene.RemovePlatformsBelow | game.js:420-422 | the platforms become the cleanup survivors of the old ones |
| Game.GameScene.KeepAtOrAbove | game.js:420-422 | the cleanup loop keeps exactly the survivors, in order |
| Game.GameScene.RecordHeight | game.js:424-429 | the record becomes the better of the old record and the player's y, the score is rescored and never decreases |
| Game.GameScene.EndGame | game.js:453-460 | the game is over afterwards; a first call applies the high-score rule to the store, any later call leaves it alone |

## Left out

- Drawing and presentation are not modelled: the menu scene, the player and platform textures, the charge meter and its labels, the background, the game-over overlay and its buttons, tweens and delayed label resets. They change no game state.
- The physics engine is not modelled: gravity, moving bodies by their velocities, camera follow, and computing `touching.down` / `blocked.down` and the contact edges. Their results are parameters. Between calls the engine may write the public body fields and the platforms' x.
- Random draws (`Phaser.Math.Between`, `Math.random`) are an oracle of values within their ranges, and every platform consumes one `PlatformDraw`. An unused speed or sign roll of a fixed platform is simply ignored. The order in which the draws are consumed is therefore not modelled.
- `localStorage` is the `StoredBest` parameter and result of `Update` and `EndGame`. A numeric prefix that `parseInt` accepts (such as `"12abc"`) is subsumed by `Numeric`.
- Positions are whole numbers. The engine's fractional positions are not modelled.
- Time is whole milliseconds, while the engine's clock (`this.time.now`) is fractional. Power, velocities and spin are exact reals, while the code computes them in double-precision floating point. No proved property depends on rounding.
- Difficulty.ResolveLevel: only a missing value or the empty string falls back to easy. JavaScript's fallback also applies to other falsy values, and names inherited from `Object.prototype` look up a non-row. A scene is only ever constructed with a resolved `Level`, so the crash of the source on an unknown name appears as `None`.
- Game.GameScene.RemovePlatformsBelow: removes, in one frame, every platform more than the limit down. The code destroys platforms while `children.iterate` walks the group. Each `destroy()` removes that entry from the list being walked, so the entry right after a destroyed platform is skipped that frame; the `p &&` guard at game.js:422 is there for the slots this empties. A run of adjacent platforms below the limit is therefore only partly removed in one frame, and the rest goes in later frames.
- `wasOnGround` (game.js:133) is written and never read, so it is not a field.
- A restart is a new session, i.e. a new constructor call. The menu's scene switching is not modelled.

# Tank duel — a verified model of the simulation core

`game.js` is a two-player artillery game drawn on an HTML canvas. A red tank at
x = 50 and a blue tank at x = 730 take turns firing shells over destructible
ground. Blue can be played by a simple AI. This project models the part of the
game that decides what happens, and leaves out the part that only draws it.
The modelled part has four pieces:

- **Terrain** (`terrain.dfy`, module `Terrain`). The ground is a list of
  `{x, height}` samples every 5 pixels, plus 20 rocks.
  - `Tank.getTerrainHeight` and the global `getTerrainHeight` are modelled as
    written.
  - `destroyTerrain` lowers the samples near an impact in place, on an
    `array`, and then filters the rocks.
- **Projectile** (`ballistics.dfy`, module `Ballistics`). A class with the
  shell's position and clock. Its trail of at most 20 positions is a bounded
  first-in-first-out buffer.
- **Game state** (`game.dfy`, module `GameState`). The global state of
  game.js is a `Game` class: `gameOver`, `winner`, `currentTank`,
  `projectile`, `isAIMode`, the terrain, the rocks and the wind. Each `Tank`
  is a class of its own. The steps that change this state are methods:
  - `takeDamage`;
  - the impact block of `gameLoop`;
  - the fire button;
  - `AITurn` and the AI checkbox;
  - `resetGame` and the click that triggers it.
- **Colours** (`colors.dfy`, module `Colors`). `lightenColor`, `darkenColor`
  and `interpolateColor` work on `#rrggbb` strings. The model parses and
  prints hexadecimal digits exactly as `parseInt(_, 16)`, `toString(16)` and
  `padStart` do.

`util.dfy` (module `Util`) holds `Option`, `Math.min`, `Math.max`, `Math.abs`
and the clamp.

The model deliberately keeps several behaviours of the code as they are:

- `getTerrainHeight` finds its left point with `terrain.find(p => p.x <= x)`.
  For any x at or right of 0, that is the first sample. So the height is
  interpolated between the first sample and the first sample right of x, not
  between neighbours. Past the last sample the line is extended, not clamped.
  Left of 0, both ends are the first sample and the result is NaN, modelled as
  `None`.
- The AI clamps its angle to [1, 89] and its power to [200, 1000] *before*
  adding random jitter, so the final values can leave those ranges.
- `AITurn` does not check for a shell in flight. If one is in flight, it is
  replaced.
- A rock at exactly the blast radius is removed, because only rocks strictly
  farther away are kept.
- When one blast kills both tanks, blue is processed last and red is declared
  the winner, although red has no health left either.

Square roots, `Math.cos`/`Math.sin` and `Math.random()` are parameters.
`hypot` stands for `Math.sqrt(dx*dx + dy*dy)`, and `Terrain.IsHypot` states
what a true square root satisfies. Positions, heights, health, wind and the
random draws are real numbers; the colour channels are integers.

## Model

| member | source | states |
|---|---|---|
| Colors.ParseHex | game.js:89-90 | `parseInt(s, 16)` of n digits is below 16^n |
| Colors.ToHex | game.js:92 | `toString(16)` prints non-empty lower-case hex digits, one digit exactly for values below 16 |
| Colors.ToHexRoundTrip | game.js:92 | parsing what `toString(16)` printed gives the number back |
| Colors.PaddedChannel | game.js:92 | `toString(16).padStart(2, '0')` of a channel is its two-digit spelling |
| Colors.TwoDigitsRoundTrip | game.js:92 | the two-digit spelling of a channel parses back to the channel |
| Colors.PackedChannels | game.js:98-102 | `parseInt(color.slice(1), 16)` packs R, G, B, and `>> 16`, `>> 8 & 0xFF` and `& 0xFF` take them apart again |
| Colors.ToHexPacked | game.js:103 | the packed number 2^24 + R·2^16 + G·2^8 + B prints in hex as "1" followed by the six channel digits |
| Colors.Encode | game.js:103 | the returned string is `#` plus six lower-case hex digits whose channels read back as R, G, B |
| Colors.LightenColor | game.js:97-104 | the result is a colour whose every channel is the input channel plus `amt`, capped at 255 |
| Colors.DarkenColor | game.js:106-113 | the result is a colour whose every channel is the input channel minus `amt`, floored at 0 |
| Colors.LightenDarkenMonotone | game.js:97-113 | lightening never lowers a channel, darkening never raises one |
| Colors.DarkenUndoesLighten | game.js:97-113 | darkening by `amt` restores the channels lightened by `amt` when none was capped |
| Colors.LightenByZeroIsIdempotent | game.js:97-104 | re-encoding an already encoded colour changes nothing |
| Colors.Round | game.js:91 | `Math.round(v)` is within one half of v |
| Colors.Mix | game.js:91 | a mixed channel lies between the two input channels, equals the first at factor 0 and the second at factor 1 |
| Colors.InterpolateColor | game.js:86-95 | the loop builds a lower-case `#rrggbb` colour whose every channel is the rounded mix of the two input channels |
| Terrain.SampleCount | game.js:124 | the count is the number of multiples of 5 below the canvas width (ceil(width / 5)), and at least one for a non-empty canvas |
| Terrain.LaidOutTerrain | game.js:120-136 | sample i sits at x = 5·i with the i-th given height, so the terrain starts at x = 0 and is strictly ascending |
| Terrain.PlacedRock | game.js:140-145 | a rock lies on the canvas with size in [2, 6) |
| Terrain.PlacedRocks | game.js:139-145 | one rock is placed per pair of draws, in draw order, and every rock placed from draws in [0, 1) lies on the canvas with size in [2, 6) |
| Terrain.FindFirst | game.js:313 | `find` returns the first sample passing the test, or none |
| Terrain.TankHeight | game.js:312-315 | left of the first sample the tank reads the first sample's height, and the answer is always the height of some sample |
| Terrain.TankHeightFinds | game.js:312-315 | the height of the first sample at or right of x, or of the last sample if there is none |
| Terrain.TankHeightAt | game.js:312-315 | on ascending terrain, x in `(t[k-1].x, t[k].x]` reads `t[k]` |
| Terrain.InterpolatedHeight | game.js:376-381 | the lookup is NaN left of the first sample and on a one-sample terrain |
| Terrain.InterpolatedHeightDefined | game.js:376-381 | the lookup is NaN exactly left of the first sample or on a one-sample terrain |
| Terrain.InterpolatesFromFirstSample | game.js:376-381 | the lookup is the line from the first sample to the sample right of x, extended past the last sample |
| Terrain.InterpolationIgnoresLeftNeighbour | game.js:376-381 | between two samples of height 0 the lookup can answer 25 |
| Terrain.CarveSample | game.js:184-189 | a sample keeps its x and is unchanged beyond the radius; inside it, it loses `(radius - distance)/2` when it has that much height and ends at exactly 0 when it has less, so it is never below 0 afterwards. A non-negative height never rises; a negative height inside the radius is raised to 0 |
| Terrain.CarvedTerrain | game.js:183-190 | the carve keeps the number of samples |
| Terrain.CarvedTerrainProperties | game.js:183-190 | the carve keeps the sample count and every x, never raises a non-negative height, leaves samples beyond the radius unchanged, and leaves every sample within it at 0 or above (so a negative height there is raised to 0) |
| Terrain.CarvedTerrainKeepsLayout | game.js:183-190 | a carved terrain still starts at x = 0 and is ascending |
| Terrain.CarveInPlace | game.js:183-190 | the in-place loop leaves the array equal to the carved terrain |
| Terrain.RockSurvives | game.js:194-197 | a rock survives only where the ground height under it is a number, and then exactly when its distance to the impact is strictly greater than the radius |
| Terrain.KeptRocks | game.js:193-198 | the filter never lengthens the list of rocks |
| Terrain.KeptRocksExactly | game.js:193-198 | the kept rocks are exactly the surviving rocks, each as many times as it occurs, in their original order |
| Terrain.KeptRocksCounted | game.js:193-198 | each surviving rock is kept as many times as it occurs, and every other rock is dropped entirely |
| Terrain.RockAtRadiusRemoved | game.js:193-198 | a rock at exactly the radius is removed |
| Ballistics.PushTrail | game.js:347-348 | the trail stays within 20 and ends with the new point; below 20 the point is appended, at 20 the oldest point is also dropped |
| Ballistics.PushTrailKeepsLastPositions | game.js:347-348 | pushing onto the last 20 positions of a flight gives the last 20 positions of the longer flight |
| Ballistics.TrailHoldsLastPositions | game.js:341-349 | after any number of frames the trail holds exactly the last 20 positions, oldest first |
| Ballistics.Projectile.constructor | game.js:332-340 | a new shell has speed power/20, gravity 9.8, clock 0 and an empty trail |
| Ballistics.FlightStep | game.js:342-345 | one frame advances the clock by 0.1; with no wind, a vertical shot keeps its x; a level shot under non-negative gravity never rises on screen |
| Ballistics.Projectile.Update | game.js:341-349 | the clock, position and trail after one frame, with the trail within 20; the new position and clock are the `FlightStep` of the old ones |
| GameState.SplashDamage | game.js:442-443 | the damage at distance below 70 is exactly `70 - distance`: positive, and at most 70 for a distance of 0 or more |
| GameState.SplashDamageDecreases | game.js:443 | a nearer tank takes at least as much damage |
| GameState.TankDistance | game.js:441 | with a true square root, the distance from the tank on its ground to the impact is never negative |
| GameState.HealthLoss | game.js:440-447 | below 70 the loss is `70 - distance`, at 70 or more it is 0; there is a loss exactly when the distance is below 70, and from a distance of 0 or more it lies in [0, 70] |
| GameState.HealthLossBounded | game.js:441-444 | with a true square root, the loss lies in [0, 70] and is positive exactly when the tank is nearer than 70 |
| GameState.Wind | game.js:205-206 | the wind lies in [-5, 5) |
| GameState.CannonAngle | game.js:319 | the launch angle is the tank's angle or its mirror `180 - angle`; it is the tank's own angle exactly left of the centre or at 90; an angle in [0, 180] stays in [0, 180] |
| GameState.CannonAnglesMirror | game.js:319 | a tank left of the centre fires at its angle, and one right of it at the mirror image |
| GameState.AIBaseAngle | game.js:507-511 | the clamped angle lies in [1, 89]: it is `45 + heightDifference / distance * 45` when that is in range, and 89 or 1 where the clamp saturates; at distance 0 it is 89, 1, or NaN when there is no height difference |
| GameState.AIBasePower | game.js:514 | the clamped power lies in [200, 1000]: twice the distance when that is in range, 1000 above and 200 below |
| GameState.Jitter | game.js:517-518 | for a draw in [0, 1) and a positive spread, the jittered value lies in [value − spread/2, value + spread/2) |
| GameState.AIAimRange | game.js:511-518 | the final AI angle lies in [-4, 94) and its power in [150, 1050) |
| GameState.AIJitterLeavesRange | game.js:511-518 | draws of 0.9 take the AI to angle 93 and power 1040, outside the clamps |
| GameState.IsImpact | game.js:435 | a shell off the canvas has landed, and a shell on the canvas has landed only below a defined ground height |
| GameState.ImpactCases | game.js:434-435 | a shell off the canvas has landed; on it, the ground height is defined and the shell has landed exactly when it is below the ground |
| GameState.Tank.constructor | game.js:248-254 | a new tank has angle 45, power 500 and health 100 |
| GameState.Tank.Fire | game.js:316-321 | the shell starts 20 above the ground under the tank, at the cannon angle, with the tank's power |
| GameState.Game.constructor | game.js:371-372 | the game starts with red to move, both tanks at full health, no shell, a laid-out terrain and the state invariants |
| GameState.Game.TakeDamage | game.js:322-328 | health drops by exactly the amount; `gameOver` latches and the opponent wins exactly when health reaches 0 or below, otherwise neither changes |
| GameState.Game.DestroyTerrain | game.js:182-199 | the terrain is carved in place and the rocks are filtered on the carved ground |
| GameState.Game.DamageTanks | game.js:440-447 | each tank loses `HealthLoss` of its distance; the game is over iff a tank has no health left, and red wins when blue died, even if red died too |
| GameState.Game.Explode | game.js:437-447 | the blast carves the terrain and the rocks, then each tank loses `HealthLoss` of its distance to the shell on the carved ground; the health and winner rules still hold |
| GameState.Game.EndShot | game.js:450-459 | the shell is gone; the turn passes to the opponent and the wind changes iff the game is not over; the AI is due iff the game goes on, AI mode is on and blue is to move; the terrain is untouched and the state invariants hold |
| GameState.Game.ResolveImpact | game.js:434-460 | the carve, the damage and the winner as above; the shell is gone; the turn passes and the wind changes iff the game is not over; the state invariants are kept |
| GameState.Game.Tick | game.js:430-461 | a frame advances the shell's clock, moves it by its velocity, gravity and the wind, and pushes the new position onto its trail; a shell that has not landed leaves the rest of the game unchanged; a landed shell is resolved: the shell is gone, the terrain is carved, and the turn passes exactly when the game goes on |
| GameState.Game.FireButton | game.js:535-540 | a shot is fired iff no shell is in flight, the game runs, and it is red's turn or the AI is off; otherwise nothing changes |
| GameState.Game.AITurn | game.js:504-522 | on blue's turn in a running game, blue aims by the clamped-then-jittered formula and fires, even over a shell in flight; otherwise nothing changes |
| GameState.Game.SetAIMode | game.js:548-553 | the AI's turn becomes due iff the AI is switched on during blue's turn |
| GameState.Game.ResetGame | game.js:490-498 | full health, no winner, red to move, no shell, new terrain, rocks and wind; angles, powers and the AI setting are kept |
| GameState.Game.CanvasClick | game.js:542-546 | a click on a finished game has the full effect of `resetGame` (full health, no winner, red to move, no shell, new terrain, rocks and wind, AI setting kept); during a running game it changes nothing |

## Left out

- Drawing is not modelled: sky, stars, mountains, terrain texture, tanks,
  shell, explosion, power meter and the game-over overlay. It has no effect on
  the state.
- Audio, the `log` debug output, `updateControls`, `updateTurnIndicator` and
  `updateWindIndicator` are left out. They are output only.
- The angle and power sliders (`parseInt` of the slider value) are left out.
  They are input plumbing; the model's tanks keep whatever angle and power
  they hold.
- `requestAnimationFrame` and `setTimeout(AITurn, 1000)` are not modelled.
  The steps that schedule the AI return `scheduleAI` instead, and the caller
  runs `AITurn` and `Tick`.
- The random walk of `initializeTerrain` (game.js:122-134) is not modelled.
  Its heights are a parameter; the spacing of the samples and the rock
  placement are modelled.
- `Math.sqrt`, `Math.cos` and `Math.sin` are parameters, and positions and
  heights are real numbers. Floating-point rounding and overflow are not modelled, and
  NaN appears only where the code divides by zero.
- `amt` is taken as a given natural number. The source computes it as
  `Math.round(2.55 * percent)`.
- Colors.InterpolateColor: requires a factor in [0, 1], as the sky-cycle
  callers pass. Outside that range a channel can leave [0, 255], where
  `toString(16)` would print a sign or a third digit; that case is not
  modelled.
- Colors.LightenColor, Colors.DarkenColor and Colors.InterpolateColor: require
  a well-formed `#rrggbb` colour. `parseInt` on other strings is not modelled.
- GameState.Game.Tick: on a landing it states only the main effects (no
  shell, the carved terrain, the turn). The full effect of a landing, with
  rocks, damage, winner and wind, is stated by GameState.Game.ResolveImpact,
  which Tick calls.
- GameState.Game.DamageTanks: requires a running game with both tanks alive.
  The impact block always has one, because a finished game has no shell in
  flight.

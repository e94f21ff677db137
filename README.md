# Spaceshooter: bullet resolution and frame bookkeeping in Dafny

This project models the core simulation of a small top-down space shooter
written in Rust on raylib. It covers:

- the game's records (player, parts, enemies, bullets, particles, emitters,
  damage links, power-ups, waves);
- the shared helpers `get_2_mut`, `colorlerp`, `particalexplosion` and
  `enemy_dies`;
- the per-frame bullet step `update_bullets`;
- the end-of-frame bookkeeping of the main loop: the game clock, the
  `playing` flag, Escape, the two `retain` passes and the game-over test.

`f32` values are Dafny reals. Colour channels are bytes (`U8`).

Modules, one per part of the program:

- **`Raylib`** (raylib.dfy): `Vector2`, `Color`, and the strict distance
  test `a.distance_to(b) < r`. The test is written without a square root
  as `0 < r && |a − b|² < r²`, and `CloserThanIsDistanceTest` proves this
  agrees with the real distance, with no precondition on `r`.
- **`Entities`** (entities.dfy): one datatype per struct and enum of
  src/main.rs:28-169.
- **`Helpers`** (helpers.dfy): the free helper functions of src/main.rs.
- **`Bullets`** (bullets.dfy): `update_bullets` as nested loops over value
  sequences. A `&mut Vec` argument is an exclusive borrow, so passing the
  sequence in and the new sequence out is exact. Each loop is proved
  against specification functions:
  - `AdvanceAll`: the moved bullets;
  - `EnemiesAfter` and `PartsAfter`: health less the summed faded damage of
    the bullets that hit;
  - `Sparks`: the explosions, in loop order.
- **`Game`** (game.dfy): the main loop's local variables as the fields of
  a class `Game`. `Frame` is one iteration of the loop.

Randomness is an input. An explosion's `k`-th particle uses draw `k`, a
`Roll` of a heading vector (standing for `angletovector(θ)`) and a force.
The heading is required to be a unit vector, as `(cos θ, sin θ)` is. The
force is required to lie in the range `gen_range` draws from. The hit
of bullet `i` on target `j` in `update_bullets` uses the draws `rng(i, j)`.

The source divides by a bullet's `duration`. The model therefore requires
every bullet to have a nonzero duration (`Timed`).

Two behaviours of the code are worth knowing:

- Game over is not terminal. When a part is dead and the game has
  stopped, releasing Escape sets `playing` again. That frame's updates then
  run, and the end-of-frame test stops the game again unless that frame
  raised every part above zero health. `Frame`'s contract states this.
- Health is never clamped. A hit can drive a part's health below zero
  (`Bullets.PartHealthGoesNegative`). A bullet that is past its duration
  after this frame's move still hits, with negative damage, and so heals
  its target (`Bullets.FadedDamage`). In this model such a bullet is only
  removed by the `retain` pass at the end of the frame.

## Model

| member | source | states |
|---|---|---|
| Raylib.CloserThan | src/bullets.rs:11 | the distance test `a.distance_to(b) < r` without a square root: false for every `r <= 0`, otherwise `\|a − b\|² < r²`; `CloserThanIsDistanceTest` ties it to the distance |
| Raylib.UnitKick | src/main.rs:311-313 | a unit heading such as `angletovector(θ)`, scaled by `f` and added to a base vector, lands at distance exactly `\|f\|` from it |
| Raylib.CloserThanIsDistanceTest | src/bullets.rs:11 | for any non-negative `d` with `d² = \|a − b\|²`, the squared test holds exactly when `d < r`, for every `r` |
| Helpers.Get2Mut | src/main.rs:290-296 | `None` exactly when `a == b` or either index is out of bounds; otherwise the pair `(a, b)`, both in bounds and distinct |
| Helpers.Get2MutWritesAreIndependent | src/main.rs:294-295 | the two references do not alias: writing through both keeps both writes and changes no other element |
| Helpers.ToU8 | src/main.rs:300-303 | `f32 as u8` saturates and truncates: 0 below zero, 255 from 255 up, and in between the byte is at most the value and more than the value minus one |
| Helpers.LerpChannel | src/main.rs:300-303 | one channel `(s + (e − s)·t) as u8`: the start channel at `t = 0` and the end channel at `t = 1` |
| Helpers.ColorLerp | src/main.rs:298-305 | `colorlerp` applies the channel interpolation to r, g, b and a; its properties are `ColorLerpEnds` and `ColorLerpBetween` |
| Helpers.LerpChannelBetween | src/main.rs:300 | for `t` in [0, 1] one interpolated channel lies between the start and end channel |
| Helpers.ColorLerpEnds | src/main.rs:298-305 | `colorlerp(s, e, 0) == s` and `colorlerp(s, e, 1) == e` |
| Helpers.ColorLerpBetween | src/main.rs:298-305 | for `t` in [0, 1] each of the four channels lies between the start and end channel |
| Helpers.ExplosionParticles | src/main.rs:357-371 | an explosion has exactly `amount` particles; each is at `pos`, size 5, `Square`, has the given colours and duration and `time == 0`, and moves at `vel` plus its own draw's heading scaled by its force |
| Helpers.ExplosionKicks | src/main.rs:359-363 | given unit headings, every particle moves away from the base velocity `vel` at exactly its draw's force |
| Helpers.ParticleExplosion | src/main.rs:346-372 | the pool afterwards is the old pool, unchanged and in place, followed by the explosion's particles in push order |
| Helpers.EnemyDies | src/main.rs:322-344 | appends exactly 500 particles after the unchanged pool; each has duration 0.3, time 0, the yellow-to-red death colours, position `pos`, and velocity `vel` plus a kick of speed less than 300 |
| Bullets.Advance | src/bullets.rs:7-8 | a bullet's move changes only its position and its age, and the age grows by exactly `dt` |
| Bullets.AdvanceAll | src/bullets.rs:6-8 | the moved list has the same length, and every duration stays nonzero |
| Bullets.Hits | src/bullets.rs:11 | a bullet hits a target when its centre is strictly inside `2·bullet.size + target.size` (the same test at src/bullets.rs:40) |
| Bullets.Faded | src/bullets.rs:12-13 | the damage a bullet deals at its age, `damage − time/duration·damage` (also at src/bullets.rs:41-42); its properties are `FadedDamage` |
| Bullets.HitEnemy | src/bullets.rs:11-35 | one friendly bullet against one enemy: the enemy loses the faded damage exactly when hit, and a hit appends the red/yellow 50-particle explosion |
| Bullets.DamageEnemies | src/bullets.rs:10-36 | the inner loop leaves every enemy struck by the bullet (only health changes) and appends one explosion per hit enemy, in enemy order |
| Bullets.HitPart | src/bullets.rs:40-64 | one hostile bullet against one part: the part loses the faded damage exactly when hit, and a hit appends the cyan/red 50-particle explosion |
| Bullets.DamageParts | src/bullets.rs:39-65 | the inner loop leaves every part struck by the bullet and appends one explosion per hit part, in part order |
| Bullets.Strike | src/bullets.rs:9-66 | a friendly bullet changes only enemies and a hostile one only the player's parts; the rest of the player is untouched |
| Bullets.UpdateBullets | src/bullets.rs:5-68 | the bullet list keeps length and order and every bullet is moved by `vel·dt` and aged by `dt`; each enemy and part ends at its health less the summed faded damage of the moved bullets that hit it, with every other field unchanged; the rest of the player is unchanged; the pool gains the explosions of all hits in loop order, riding on `player.vel` |
| Bullets.TargetsAfter | src/bullets.rs:10-13 | hits never move an enemy or change its radius, so later hit tests see the same targets |
| Bullets.PartTargetsAfter | src/bullets.rs:39-42 | hits never move a part or change its radius |
| Bullets.ObliviousParts | src/bullets.rs:9-37 | a friendly bullet leaves every part unchanged |
| Bullets.ObliviousEnemies | src/bullets.rs:38-66 | a hostile bullet leaves every enemy unchanged |
| Bullets.FadedDamage | src/bullets.rs:12-13 | the faded damage is `damage·(1 − time/duration)`: full damage at age 0, zero at age `duration`, negative (a heal) past the duration for positive damage |
| Bullets.DamageTakenAppend | src/bullets.rs:6-13 | the damage taken from a concatenation of bullet runs is the sum of the damage taken from each run |
| Bullets.Unhit | src/bullets.rs:9-13 | a target that no bullet of the right side hits takes no damage |
| Bullets.UnhitEnemy | src/bullets.rs:9-37 | an enemy that no friendly moved bullet hits comes out exactly as it went in |
| Bullets.UnhitPart | src/bullets.rs:38-66 | a part that no hostile moved bullet hits comes out exactly as it went in |
| Bullets.PartHealthGoesNegative | src/bullets.rs:41-42 | part health is not clamped: a fresh hostile bullet of damage 10 on a part of health 1 leaves it at −9 |
| Bullets.AgedHitExample | src/bullets.rs:12-13 | a friendly bullet of damage 2 and duration 2, aged 1.5, leaves an enemy of health 2 at 1.5 |
| Bullets.TargetSparksCount | src/bullets.rs:10-36 | one bullet's pass pushes exactly 50 particles per target it hits |
| Bullets.SparksCount | src/bullets.rs:6-67 | a frame pushes exactly 50 particles per (bullet, target) hit |
| Bullets.HitExplosionSparks | src/bullets.rs:14-34 | every particle of a hit explosion is at the bullet's moved position, size 5, square, lasting 0.1, in its side's colours, moving at `player.vel` plus a kick of speed less than 600 |
| Bullets.TargetSparksAreSparks | src/bullets.rs:39-64 | every particle one bullet's pass pushes is a spark of that bullet |
| Bullets.SparksAreSparks | src/bullets.rs:6-67 | every particle a frame pushes is a spark of one of the moved bullets |
| Game.Retain | src/main.rs:240-241 | `retain` never lengthens a list |
| Game.RetainMembers | src/main.rs:240-241 | an element survives `retain` exactly when it was in the list and passes the test |
| Game.RetainCounts | src/main.rs:240-241 | with multiplicity: a passing element survives as often as it occurred, and a failing one not at all |
| Game.RetainAppend | src/main.rs:240-241 | `retain` keeps relative order: filtering a concatenation concatenates the filtered parts |
| Game.RetainIdempotent | src/main.rs:240-241 | a second `retain` with the same test changes nothing |
| Game.EnemyAlive | src/main.rs:240 | the test of the enemy `retain`: health above zero |
| Game.BulletLive | src/main.rs:241 | the test of the bullet `retain`: age below duration |
| Game.AllPartsAlive | src/main.rs:282-286 | no part of the ship has health 0 or less |
| Game.RetainTimed | src/main.rs:241 | the surviving bullets still all have nonzero durations |
| Game.Game.constructor | src/main.rs:182-203 | the initial state: playing, clock 0, no enemies, bullets or particles, one repair power-up at the ship |
| Game.Game.Frame | src/main.rs:204-287 | the clock advances by `dt` exactly when the frame began playing; Escape toggles the flag; the bullets are updated exactly when the toggled flag is set; both `retain` passes run in every frame and leave only living enemies and live bullets; at the end the flag is set exactly when it was set after the toggle and every part has positive health |
| Game.Game.Update | src/main.rs:227-239 | the update made while playing is `update_bullets` |
| Game.Game.Cull | src/main.rs:240-241 | enemies with `health > 0` and bullets with `time < duration` are kept, in order; nothing else survives |
| Game.Game.StopIfDamaged | src/main.rs:282-286 | the flag ends set exactly when it was set and no part has health ≤ 0; nothing else changes |

## Left out

- Windowing, input polling, fullscreen, textures, fonts and all drawing are not modelled. This includes `draw_bullets` and the debug overlay. Escape arrives at `Frame` as a boolean, and the frame time `dt` as a real.
- F3 (debug toggle) and F11 (fullscreen) are left out. They change only what is drawn.
- Random numbers are not modelled: explosion headings and forces are caller-supplied draws. The trig helpers `vectortoangle`, `angletovector` and `rotatevector` are not modelled either, since they need `atan2`, `sin` and `cos`. A draw's heading stands for `angletovector(θ)`.
- The `gen_range` panic on an empty force range (`force_min >= force_max`) is not modelled: the draws predicate `DrawsIn` requires forces inside a non-empty range. Every call in the source passes a non-empty range.
- IEEE `f32` rounding, infinities and NaN are not modelled; arithmetic is exact on reals. A bullet of duration 0 is therefore excluded by precondition, where the source would divide by zero and produce ±inf or NaN.
- `get_2_mut`: the result is modelled as a pair of indices. The unsafe raw-pointer references themselves are not modelled.
- `update_waves`, `update_player`, `update_enemies`, `update_particals` and `power_ups_update` are not modelled, because their modules' source is not part of this model. `Game.Game.Frame` and `Game.Game.Update` therefore run only `update_bullets` between the clock/flag logic and the `retain` passes. The wave list and texture table are not fields of `Game`. `update_player` and `update_enemies` also take the bullet list (src/main.rs:229-239), so in the source they may add or remove bullets as well.
- `power_ups_update` runs in every frame, outside the `if playing` block (src/main.rs:251-257), and can change the player and the power-up list. `Game.Game.Frame`'s `powerUps == old(powerUps)`, and its `player == old(player)` in a paused frame, hold only because this call is left out.

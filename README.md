# Dafny model of the dafeiji shooter's gameplay core

A vertical-scrolling browser shooter. The player's aircraft fires volleys
upward. It dodges enemy aircraft and their bullets, and it collects falling
power-ups. Score and difficulty rise over time. This project models the rules
the game runs once per frame and proves properties of them:

- the player's state machine: lives, firepower tier, invincibility, shield
  charges, and keyboard or pointer control;
- the enemy stat tables, the enemies' damage, firing and edge clamping, and
  their random spawning;
- the power-ups, their effects and their weighted random choice;
- the projectiles, including the speed cap of homing bullets;
- the sprite primitives: motion, animation and the overlap test;
- the `Game` object, which advances every list, keeps score and combo, and
  resolves collisions in a fixed order.

The files follow the JavaScript sources one to one:

| file | module | models |
|---|---|---|
| `utils.dfy` | `Utils` | `js/utils.js`, plus the parts of `Math` the game uses |
| `sprite.dfy` | `Sprites` | `js/sprite.js` |
| `bullet.dfy` | `Bullets` | `js/bullet.js` |
| `enemy.dfy` | `Enemies` | `js/enemy.js` |
| `player.dfy` | `Players` | `js/player.js` |
| `powerup.dfy` | `PowerUps` | `js/powerup.js` |
| `game_rules.dfy` | `GameRules` | the rules of `js/game.js`, stated on values |
| `game.dfy` | `Games` | the `Game` class of `js/game.js` |

How the model is built:

- **Classes for what is updated in place.** `Player` and `Game` are classes
  whose fields are updated in place, as in the JavaScript. Each method names
  exactly the fields it may change.
- **Values for what is owned by one list.** Sprites, bullets, enemies,
  power-ups, explosions and messages are values. Each enemy, bullet and
  power-up carries its `Sprite` as `body`. An entity belongs to exactly one
  list of the game, so updating it in place becomes replacing it in that
  list.
- **Loops as in the source.** The entity lists are `seq` fields. `Game`'s
  methods walk them with the same reverse `while` loops as the JavaScript,
  remove with `splice`, and stop at the same `break`.
- **Rules as the specification.** Each method is proved to equal a pure rule
  in `GameRules`. The rule for a whole pass applies the step for one index
  from the last index down to the first. What a pass keeps true is proved
  by lemmas about the rules: what it removes, what it keeps, and that the
  world stays well formed.
- **Randomness as a stream.** `Math.random()` is a stream `random: nat ->
  real` of draws in [0, 1). `drawn` counts the draws used so far, and every
  random choice reads the next draw. Pure functions that draw take the draw
  as a parameter, in the order the JavaScript makes its calls.
- **`Math` as an opaque library.** `sin`, `cos`, `atan2` and `sqrt` come as
  a `MathLib` value. Only `sqrt` is constrained: it returns the
  non-negative square root. The homing speed cap relies on that.
- **Numbers.** Positions, speeds, `dt` and the timers are `real`. Counters
  are `int`.

What is proved about the whole frame:

- `Game.Update` does nothing while the game is stopped or paused.
- Otherwise it keeps `Game.Valid`:
  - the difficulty equals `min(1, gameTime * 0.0001)`;
  - every enemy is alive and well formed;
  - every bullet's damage matches its flag;
  - every homing bullet is under the speed cap;
  - every explosion is still visible, and every message is still due;
  - a running combo has a running timer;
  - the player is valid, and has a life left while active.
- The player loses at most one life per frame. A lost life always leaves the
  player invincible, and `InvincibilityRunsOut` shows that this lasts exactly
  the 120 frames set.
- A running `Update` ends in the state of one composed rule on the state at
  its start. The rule is `Frame`: the combo step, the due volley appended to
  the bullets, the enemy phase, then the bullet, power-up, explosion and
  message updates. `Collide` follows when the moved player is still active.
  The player's own move is `Flown`, and its invincibility runs down by
  `Cooldown`. Each step method in between (`Advance`, `Prepare`,
  `AdvanceClock`, `UpdatePlayer`, `UpdateEntities`, `UpdateEnemies`,
  `UpdateLists` and the passes) is proved equal to its part of the rule.
  A field outside its part is either stated unchanged or kept out of its
  `modifies` clause.

## Model

| member | source | states |
|---|---|---|
| Utils.Clamp | js/utils.js:91-93 | For lo <= hi the result lies in [lo, hi]. A value already inside comes back unchanged, one below gives lo and one above gives hi. With hi < lo the outer `Math.min` wins and the result is hi. |
| Utils.Lerp | js/utils.js:102-104 | t = 0 gives a, t = 1 gives b, and for t in [0, 1] the result lies between a and b. |
| Utils.BetweenEnds | js/utils.js:102-104 | `a + (b - a) * t` lies between a and b whenever t is in [0, 1], whichever of a and b is larger. |
| Utils.CheckCollision | js/utils.js:12-17 | Two rectangles collide only when their widths sum to more than 0 and so do their heights: an overlap needs room on both axes. |
| Utils.CollisionIsSymmetric | js/utils.js:12-17 | The overlap test gives the same answer with its two rectangles swapped. |
| Utils.TouchingRectsDoNotCollide | js/utils.js:13-16 | Rectangles that only share an edge do not collide, because all four comparisons are strict. |
| Utils.CollisionIsSharedInterior | js/utils.js:12-17 | For rectangles of positive size, the test holds exactly when some point lies strictly inside both. |
| Utils.FloorOfScaledDraw | js/utils.js:25-27 | `Math.floor(r * k)` of a draw r in [0, 1) is an integer in [0, k). |
| Utils.RandomInt | js/utils.js:25-27 | For lo <= hi and a draw in [0, 1), the result is an integer in [lo, hi]. |
| Utils.RandomChoice | js/utils.js:44-46 | The result is an element of the non-empty list. |
| Utils.JsRem | js/sprite.js:119 | The remainder truncates toward zero, as JavaScript's `%` does. It agrees with the Euclidean remainder for a non-negative dividend and lies in (-n, 0] for a negative one. |
| Sprites.NewSprite | js/sprite.js:12-31 | A new sprite has the given bounds, is at rest, active, opaque, unscaled and unrotated, and plays no animation. |
| Sprites.Sprite.Bounds | js/sprite.js:37-44 | The bounding box overlaps itself exactly when the sprite has positive width and height. |
| Sprites.Sprite.CollidesWith | js/sprite.js:51-53 | The answer equals the overlap test with the two bounding boxes in the other order, so it does not depend on which sprite asks. |
| Sprites.Sprite.PlayAnimation | js/sprite.js:100-107 | A name that is already current, or not registered, changes nothing. Otherwise the named animation becomes current with frame index and counter reset to 0 and its frame delay taken, and nothing else changes. |
| Sprites.Sprite.UpdateAnimation | js/sprite.js:112-124 | It acts only while a registered, named animation plays. The counter resets to 0 exactly when it reaches the delay; otherwise it counts up and nothing else changes. On a reset the index steps to the next frame, wrapping around, and the frame count becomes that frame. An index in range stays in range. |
| Sprites.Sprite.Update | js/sprite.js:130-134 | The sprite moves by speed times dt on each axis, keeps its speed, size, flags and transform, and then takes one animation tick. |
| Sprites.CollidesWithIsSymmetric | js/sprite.js:51-53 | `collidesWith` does not depend on which sprite asks. |
| Sprites.PlayAnimationIsIdempotent | js/sprite.js:100-107 | Playing the same animation twice is the same as playing it once. |
| Sprites.AnimationStaysInRange | js/sprite.js:112-124 | From a valid frame and counter, any number of ticks keeps the animation playing, the frame index inside the frame list and the counter below the delay. |
| Bullets.NewBullet | js/bullet.js:17-27 | There are two damage values: 2 exactly when the bullet is powered, 1 exactly when it is not. The homing strength is 0.2, and the owner and flags are stored as given. The bounds and speed are as given, and the bullet is active. |
| Bullets.Bullet.Update | js/bullet.js:103-127 | An update keeps the owner, damage, flags, homing strength and `active`. It keeps a well-formed bullet well formed. |
| Bullets.Bullet.IsOutOfBounds | js/bullet.js:135-140 | A bullet reported out of bounds does not overlap the canvas rectangle at all. |
| Bullets.Bullet.Aimed | js/bullet.js:105-123 | Steering leaves the position and size alone. A bullet that does not steer is untouched: it is not homing, or there is no active target. One that steers, with a correct square root, comes out no faster than 6. |
| Bullets.Bullet.Steered | js/bullet.js:107-120 | With a correct square root, the steered and capped velocity has magnitude at most 6. |
| Bullets.UpdateMoves | js/bullet.js:103-127 | Every bullet moves by its (possibly steered) velocity times dt. A bullet that does not steer keeps its velocity and moves exactly as a plain sprite does. |
| Bullets.UpdateKeepsCap | js/bullet.js:103-127 | With a correct square root, a bullet that steered is no faster than 6 after the update. A homing bullet under the cap stays under it whether or not it steered. |
| Bullets.CapSpeed | js/bullet.js:116-120 | The capped velocity is parallel to the one given (their cross product is 0), and a speed at or below 6 leaves it unchanged. |
| Bullets.CapSpeedBounds | js/bullet.js:116-120 | When `speed` is the magnitude of the velocity, the capped velocity has magnitude at most 6. A rescaled velocity has magnitude exactly 6 and the same direction. A velocity at or below 6 is unchanged. |
| Bullets.Rescaled | js/bullet.js:117-119 | Dividing by a speed above 6 and multiplying by 6 gives a velocity of magnitude exactly 6, parallel to the original. |
| Bullets.CapWithSqrt | js/bullet.js:116-120 | The cap holds with the speed computed by a correct `Math.sqrt`. |
| Enemies.InitialHealth | js/enemy.js:29-36 | Every kind starts with at least one point of health. |
| Enemies.ScoreValue | js/enemy.js:42-49 | Every kind is worth exactly 100 points per point of initial health. |
| Enemies.ShootRate | js/enemy.js:55-62 | Every kind waits between 60 and 120 frames between volleys. |
| Enemies.StatTable | js/enemy.js:29-62 | An unknown kind gets the basic kind's health, score and rate. Health grows from basic to advanced to elite, and the wait between volleys shrinks in the same order. |
| Enemies.PatternFor | js/enemy.js:68-75 | Basic and unknown kinds fly straight. An advanced enemy zigzags or sways, and an elite never flies straight. |
| Enemies.NewEnemy | js/enemy.js:13-23 | A new enemy is well formed, with full health for its kind, cooldown drawn in [0, rate], movement clock at 0, pattern from its draw, the given bounds, at rest, active. |
| Enemies.Enemy.TakeDamage | js/enemy.js:179-182 | Health drops by exactly the damage and nothing else changes. The enemy is reported dead exactly when the damage reaches its health. Non-negative damage keeps it well formed. |
| Enemies.Enemy.Update | js/enemy.js:271-317 | Kind, health, score, rate and pattern are untouched. The cooldown drops by one frame only while positive, so it never goes negative from a start at or above 0. The movement clock grows by dt, and the enemy falls by its speed. After the clamp it lies inside the canvas. At the left edge the horizontal speed is at least 0, at the right edge at most 0. A straight flyer inside the canvas keeps its horizontal speed. Well-formedness is kept. |
| Enemies.Spread | js/enemy.js:206-233 | The spread from lo to hi has hi - lo + 1 bullets, and the k-th is `SpreadBullet` number lo + k. |
| Enemies.SpreadBullet | js/enemy.js:197-203 | A spread bullet leaves from the enemy's muzzle. It is enemy-owned, well formed and active, centred on the enemy's vertical centre line, with its top on the enemy's bottom edge. It is 4 by 10 and flies at (2i, 5), with damage 1, neither powered nor homing. |
| Enemies.Laser | js/enemy.js:236-243 | The laser leaves from the enemy's muzzle. It is 8 by 20 and flies straight down at 8. It is powered, with damage 2, and does not home. |
| Enemies.Missile | js/enemy.js:246-254 | The missile leaves from the enemy's muzzle. It is 6 by 12 and flies straight down at 3. It has damage 1, homes, and is not powered. |
| Enemies.Muzzle | js/enemy.js:197-249 | Where an enemy's bullet of half-width h starts. It has no contract of its own: `SpreadBullet`, `Laser` and `Missile` state through `FiredFrom` that each bullet is centred on the enemy's vertical centre line with its top on the enemy's bottom edge. |
| Enemies.Volley | js/enemy.js:188-263 | Every bullet is enemy-owned, well formed, under the speed cap, and leaves from the enemy's muzzle. Basic: one straight bullet of damage 1 falling at 5. Advanced: three bullets falling at 5 and flying sideways at -2, 0 and 2. Elite, depending on its draw: five plain bullets falling at 5 and flying sideways at -4, -2, 0, 2 and 4; one powered bolt of damage 2 falling at 8; or one homing missile falling at 3. Unknown kinds fire nothing. |
| Enemies.ShotDraws | js/enemy.js:219-221 | A shot uses a random draw exactly when an elite fires. |
| Enemies.Shoot | js/enemy.js:188-263 | While the cooldown runs, nothing is fired and nothing changes. Otherwise the cooldown restarts at the rate and the kind's volley is built bullet by bullet. Well-formedness is kept. |
| Enemies.KindFor | js/enemy.js:356-364 | A draw below 0.1d gives an elite, one in [0.1d, 0.3d) an advanced enemy, and anything else a basic one. Difficulty 0 always gives a basic enemy. |
| Enemies.KindForIsMonotone | js/enemy.js:356-364 | Raising the difficulty never turns a draw that gave an elite into another kind, nor one that gave a non-basic enemy into a basic one. |
| Enemies.SizeOf | js/enemy.js:368-384 | Every hull side is a multiple of 10 between 30 and 50 pixels. |
| Enemies.SpeedFactor | js/enemy.js:394-395 | The factor that multiplies `1 + difficulty` into the falling speed lies between 0.7 and 1.5. |
| Enemies.KindsAreGraded | js/enemy.js:368-395 | The stronger the kind, the larger its hull: 30 < 40 < 50 for basic, advanced and elite. It also falls more slowly: 1.5 > 1 > 0.7 times `1 + difficulty`. An unknown kind gets the basic hull from the `default` branch but the elite speed from the last arm of the speed conditional. |
| Enemies.CreateRandomEnemy | js/enemy.js:353-398 | The enemy is well formed and active, of the kind its draw selects, with full health of at least 1. Its size is the kind's size. It starts just above the top edge, at a whole-pixel column inside the canvas. It has no sideways speed and falls at (1 + d) times 1.5, 1 or 0.7. |
| Players.KeyDirection | js/player.js:87-114 | Each direction is bound to exactly its arrow key and WASD letter in either case. |
| Players.Shot | js/player.js:120-209 | A bullet of the player's volley is 4 by 10 at the given position and velocity. It is player-owned, well formed and not homing, and it hits for 2 exactly when powered and 1 otherwise. |
| Players.Volley | js/player.js:120-209 | Tiers 1, 2 and 3 fire 1, 2 and 3 bullets, and every other tier fires 3. All are player-owned, well formed, not homing and flying upward. In tiers 1 and 2 every bullet flies straight up at 10. In the higher tiers the centre bullet does so, and the outer two fly up at 9 and sideways at -1 and 1 in tier 3, or at -1.5 and 1.5 beyond. Only the centre bullet of the default tier is powered. The two bullets of tier 2 are side by side. |
| Players.Steer | js/player.js:283-301 | Under keyboard control each axis moves by -5, 0 or 5, and opposite keys cancel. Under pointer control y stays put. Without a pointer position nothing moves. With one, x moves toward the point that centres the aircraft under it, without overshooting. |
| Players.SteerStep | js/player.js:283-301 | The key-by-key movement step computes exactly `Steer`. |
| Players.Damage | js/player.js:215-233 | Invincibility absorbs a hit before the shield does, leaving everything unchanged. A shield without invincibility loses one charge and drops at none left, with no life lost. Otherwise exactly one life is lost, invincibility starts for 120 frames, and the player is dead exactly at no lives left. Valid vitals stay valid. |
| Players.Cooldown | js/player.js:275-280 | While invincible, the counter drops by one and invincibility holds exactly while it stays above 0. A player who is not invincible is unchanged. Only those two fields change, and valid vitals stay valid. |
| Players.InvincibilityRunsOut | js/player.js:275-280 | A counter at t >= 1 keeps the player invincible for every n < t frames of `Cooldown` and ends it after exactly t, with t - n left on the counter. So a lost life, which sets 120 frames, protects the player for 120 frames. |
| Players.Flown | js/player.js:266-306 | The aircraft takes the sprite's own `update`, then the `Steer` step from there, then the clamp into the canvas. Apart from the position it is the sprite after its `update`: same size and `active`. The position lies inside the canvas whenever the canvas is large enough. |
| Players.AtMostOneLifePerBurst | js/player.js:215-233 | Any number of hits in a row costs at most one life, and a lost life leaves the player invincible. |
| Players.Player.constructor | js/player.js:12-35 | A new player has three lives, tier 1, no cooldown, no invincibility or shield, no pointer position and no keys held. It is shooting and not under keyboard control. |
| Players.Player.HandleInput | js/player.js:75-80 | The pointer position is recorded and pointer control takes over; `isShooting` is left alone. |
| Players.Player.HandleKeyInput | js/player.js:87-114 | Keyboard control takes over for every key, bound or not. A bound key sets only its own direction flag, to whether it is held. |
| Players.Player.Shoot | js/player.js:120-209 | While the cooldown runs, nothing is fired. Otherwise the cooldown restarts at 10 and the tier's volley is returned. |
| Players.Player.TakeDamage | js/player.js:215-233 | The fields change exactly as `Damage` says, and the result is its death flag. A valid player stays valid. |
| Players.Player.IncreasePower | js/player.js:239-241 | The tier rises by the amount but never beyond 4, and stays at 4 once there. A valid player stays valid. |
| Players.Player.AddShield | js/player.js:247-250 | The shield is up with exactly the given charges. |
| Players.Player.AddLife | js/player.js:256-258 | Lives grow by exactly the amount. |
| Players.Player.TickTimers | js/player.js:270-280 | The cooldown drops by one only while positive. The invincibility fields change exactly as `Cooldown` says, and nothing else changes. |
| Players.Player.Update | js/player.js:266-306 | The timers tick as in `TickTimers`, the invincibility by `Cooldown`. The aircraft ends at `Flown` under its controls: the sprite motion, then the `Steer` step, then the clamp into the canvas. A valid player stays valid. |
| PowerUps.NewPowerUp | js/powerup.js:11-17 | A new power-up is a 20 by 20 pickup of the given kind at the given position. It is active and well formed: falling at 2 and spinning at 0.02. |
| PowerUps.PowerUp.Update | js/powerup.js:214-219 | It moves by its speed times dt and turns by a fixed 0.02 per call, not scaled by dt. For a well-formed power-up that means falling by 2 * dt. Kind, size and `active` are kept, and so is well-formedness. |
| PowerUps.OutOfBoundsIsFinal | js/powerup.js:226-228 | A well-formed power-up below the canvas stays below it for dt >= 0. |
| PowerUps.Boost | js/powerup.js:179-208 | Power raises the tier by one, capped at 4. Shield sets a three-charge shield, and life adds one life. A bomb leaves the player alone. No other field changes, and valid vitals stay valid. |
| PowerUps.ApplyEffect | js/powerup.js:179-208 | The player's fields change exactly as `Boost` says, by the player's own methods, and the message lasts 2000 ms. |
| PowerUps.Min4 | js/player.js:239-241 | The result is the argument or 4, and never above 4. |
| PowerUps.Cumulative | js/powerup.js:247-253 | The running total of the weights grows strictly with each weight. |
| PowerUps.Sum | js/powerup.js:242 | The `reduce` sum of the weights. It has no contract of its own; `SumIsCumulative` gives its value. |
| PowerUps.SumIsCumulative | js/powerup.js:242-253 | The left-to-right `reduce` sum of the first i weights equals the running total the selection loop builds, so `totalWeight` is the loop's final total, 100. |
| PowerUps.KindForRollIsWeighted | js/powerup.js:238-253 | A roll in the stretch of the i-th kind's weight selects the i-th kind: power below 40, shield below 70, life below 80, bomb otherwise. |
| PowerUps.KindForRoll | js/powerup.js:238-253 | A roll below the first running total (40), negative ones included, selects the first kind. One at or above the last running total but one (80) selects the last kind. |
| PowerUps.PowerUp.IsOutOfBounds | js/powerup.js:226-228 | A power-up reported out of bounds overlaps no canvas of that height, whatever the canvas width: only the bottom edge counts. |
| PowerUps.CreateRandomPowerUp | js/powerup.js:237-256 | The cumulative-weight loop selects the kind by the weighted intervals for the scaled draw, with the loop invariants proved. The kind is always one of the four. |
| GameRules.Difficulty | js/game.js:186-188 | The difficulty never exceeds the maximum 1. It is either the maximum or gameTime * 0.0001, and the latter whenever that is below the maximum. It is non-negative for non-negative time. |
| GameRules.DifficultyIsMonotone | js/game.js:186-188 | Difficulty never falls as game time grows, and it is at the maximum from 10000 frames on. |
| GameRules.SpawnInterval | js/game.js:243-244 | The enemy spawn interval is `max(20, 100 - d * 80)`, always at least 20, and within [20, 100] for d in [0, 1]. |
| GameRules.SpawnCount | js/game.js:247 | The wave size is `floor(1 + d * 2)`: between 1 and 3 for d in [0, 1]. |
| GameRules.PowerUpInterval | js/game.js:302-303 | The power-up interval is `max(300, 600 - d * 300)`, within [300, 600] for d in [0, 1]. |
| GameRules.ScoreGain | js/game.js:546-547 | The gain is the points times `1 + combo * 0.1`, rounded down. At combo 0 it is the points rounded down, and it never falls below that for non-negative points and combo. |
| GameRules.NewMessage | js/game.js:622-630 | A message sits at the given place, fully opaque, with a timer in frames equal to the duration divided by 16.67 ms. |
| GameRules.TickMessage | js/game.js:352-353 | A message's timer runs down by dt and it rises by 0.5 * dt; nothing else changes. |
| GameRules.TickMessages | js/game.js:347-360 | The pass never adds a message, and none it leaves has run out. |
| GameRules.TickMessagesFilters | js/game.js:347-360 | After `updateMessages` no message has run out, every ticked message still due is kept, and nothing new appears. |
| GameRules.Boom | js/game.js:575-580 | An explosion covers the given bounds and is active, opaque and unscaled. |
| GameRules.Fade | js/game.js:603-610 | An explosion's alpha falls, and its scale grows, by 0.05 * dt. It goes inactive exactly once alpha is at or below 0, and it does not move. |
| GameRules.FadeExplosions | js/game.js:329-341 | The pass never adds an explosion, and every one it leaves is active and visible. |
| GameRules.FadeExplosionsFilters | js/game.js:329-341 | After `updateExplosions` every explosion is active and visible, and every one still active after fading is kept. |
| GameRules.MoveBullets | js/game.js:279-291 | The pass never adds a bullet, and none it leaves is off the canvas. |
| GameRules.MovePowerUps | js/game.js:312-322 | The sweep never adds a power-up, and none it leaves is below the canvas. |
| GameRules.MoveBulletsFilters | js/game.js:279-291 | After `updateBullets` no bullet is off the canvas, and every moved bullet still on it is kept. Bullets stay well formed and homing ones under the speed cap. |
| GameRules.MovePowerUpsFilters | js/game.js:312-322 | After the sweep of `updatePowerUps`, no power-up is below the canvas and every one still above it is kept. Power-ups stay well formed. |
| GameRules.DropIn | js/game.js:299-309 | The spawned power-up is well formed and active, 20 pixels above the top edge. Its column lies in [20, width - 40], and its kind is chosen by weight from the second draw. |
| GameRules.IncreaseScore | js/game.js:544-566 | The score grows by the combo-multiplied gain and a score message goes up 30 pixels above the player. The combo and its timer are untouched, and nothing else changes. |
| GameRules.IncreaseScoreKeeps | js/game.js:544-566 | Scoring keeps the world well formed. |
| GameRules.SpawnOne | js/game.js:249-252 | One enemy is appended after the existing ones. Only the enemies and the draw cursor change, and the cursor advances by the new enemy's draws. |
| GameRules.Recruit | js/game.js:250 | The enemy `createRandomEnemy` makes from the draws at the cursor is of the kind its first draw selects, well formed and alive. |
| GameRules.Spawned | js/game.js:249-252 | n spawns append exactly n enemies after the existing ones. They change nothing but the enemies and the cursor, which never moves back. |
| GameRules.SpawnOneKeeps | js/game.js:249-252 | A spawned enemy keeps every enemy alive and well formed. |
| GameRules.SpawnedKeepsEnemies | js/game.js:249-252 | A whole wave keeps every enemy alive and well formed. |
| GameRules.SpawnedKeeps | js/game.js:240-252 | A whole wave keeps the world well formed. |
| GameRules.Remove | js/game.js:270 | `splice(i, 1)` shortens the list by exactly one and adds nothing that was not already there. |
| GameRules.DropChance | js/game.js:415 | Over the difficulty's range [0, 1] the drop chance lies in [0.1, 0.2]; a negative difficulty gives less than 0.1. |
| GameRules.EnemyTurn | js/game.js:256-272 | One enemy's turn removes it or keeps it, so the list shrinks by at most one. |
| GameRules.EnemyStep | js/game.js:259-266 | The stepped enemy has the position of its update and keeps its kind, health and score. Its cooldown is either still running or restarted at its fire rate. |
| GameRules.EnemyTurnEffect | js/game.js:256-272 | One enemy's turn splices that enemy out exactly when its updated position is below the bottom edge (`y > height`); otherwise the stepped enemy replaces it in place. Its volley is appended after the existing bullets when the update left its cooldown at or below 0, and no bullet is added otherwise. |
| GameRules.EnemyTurnKeeps | js/game.js:256-272 | One enemy's turn appends only enemy-owned bullets after the existing ones and uses at most one draw. It leaves power-ups, explosions, messages, score and combo alone, and keeps the world well formed. |
| GameRules.EnemiesFrom | js/game.js:256-272 | The enemy pass never adds an enemy. |
| GameRules.Survivors | js/game.js:256-272 | The enemies the pass keeps: no more than it started with, and every one within the bottom edge. |
| GameRules.SurvivorsKeep | js/game.js:256-272 | Every enemy whose step leaves it at or above the bottom edge is among the survivors. |
| GameRules.EnemiesFromSurvivors | js/game.js:256-272 | The reverse loop down from index i leaves the enemies from i on untouched and replaces those below i by their survivors, in order. |
| GameRules.EnemiesFromFilters | js/game.js:256-272 | After the whole enemy pass every enemy left is within the bottom edge, and every stepped enemy within it is kept. |
| GameRules.EnemiesFromKeeps | js/game.js:256-272 | The whole enemy pass appends bullets without touching the existing ones and never moves the cursor back. It leaves power-ups, explosions, messages, score and combo alone, and keeps the world well formed. |
| GameRules.FollowsIsTransitive | js/game.js:383-538 | The "at most one life lost" relation between rounds of one `checkCollisions` chains across steps. |
| GameRules.HitPlayer | js/game.js:446-463 | A hit applies `Damage` to the player. On death an explosion goes up at the player and the player is deactivated. Nothing else changes. |
| GameRules.HitPlayerKeeps | js/game.js:446-463 | A hit keeps the round well formed and costs at most one life. |
| GameRules.LastHit | js/game.js:392-434 | The inner reverse loop with `break` finds the highest-indexed enemy the shot overlaps; no enemy is found exactly when none overlaps. |
| GameRules.LastHitIsLast | js/game.js:392-434 | An enemy that overlaps the shot, with no later one overlapping, is the one found. |
| GameRules.Kill | js/game.js:403-427 | A kill scores at the current combo and only then grows the combo by one and restarts its timer at 120. It adds an explosion at the enemy and removes the enemy. It drops a power-up exactly when the first draw is below `0.1 + d * 0.1`, using two draws then and one otherwise. |
| GameRules.Credit | js/game.js:405-412 | What a kill earns before the drop: the score at the current combo, the combo grown with its timer at 120, and an explosion at the enemy. Nothing else changes but the score message. |
| GameRules.Loot | js/game.js:415-421 | The drop appears exactly when the first draw is below the chance. The existing power-ups are kept, and only the power-ups and the cursor change. |
| GameRules.KillKeeps | js/game.js:403-427 | A kill keeps the world well formed. |
| GameRules.Strike | js/game.js:387-437 | A bullet's turn in the first pass either leaves the bullets alone or removes exactly that bullet. It never adds an enemy. |
| GameRules.StrikeEffect | js/game.js:387-437 | Exactly a player bullet overlapping an enemy is used up, and any other bullet changes nothing. It damages only the last enemy it overlaps. That enemy is removed exactly when the hit killed it; otherwise it loses exactly the bullet's damage. |
| GameRules.StrikeKeeps | js/game.js:387-437 | A bullet's turn keeps the world well formed. |
| GameRules.StrikeFrom | js/game.js:387-437 | The whole first pass never adds an enemy or a bullet. |
| GameRules.StrikeFromKeeps | js/game.js:387-437 | The whole first pass keeps the world well formed. |
| GameRules.EnemyFire | js/game.js:440-468 | A bullet's turn in the second pass either leaves the bullets alone or removes exactly that bullet. |
| GameRules.EnemyFireEffect | js/game.js:440-468 | Bullet i is used up exactly when it is an enemy bullet overlapping the player (js/game.js:444-450). Then the player's vitals become `Damage` of the old ones, the player is deactivated exactly when that hit was fatal, and an explosion at the player is added only then. Any other bullet changes nothing. |
| GameRules.EnemyFireKeeps | js/game.js:440-468 | An enemy bullet hit keeps the round well formed and costs at most one life. It changes only the bullets, the explosions and the player. |
| GameRules.FireFrom | js/game.js:440-468 | The whole second pass leaves the enemies alone and never adds a bullet. |
| GameRules.FireFromKeeps | js/game.js:440-468 | The whole second pass keeps the round well formed and costs at most one life. It changes only the bullets, the explosions and the player. |
| GameRules.Ram | js/game.js:471-499 | An enemy's turn in the third pass either leaves the enemies alone or removes exactly that enemy. |
| GameRules.RamEffect | js/game.js:471-499 | Enemy i is destroyed exactly when it overlaps the player (js/game.js:474-480). Then an explosion over the enemy is added, the player's vitals become `Damage` of the old ones, and on a fatal hit a second explosion at the player follows and the player is deactivated. An enemy that does not overlap changes nothing. |
| GameRules.RamKeeps | js/game.js:471-499 | A ramming keeps the round well formed and costs at most one life. It changes only the enemies, the explosions and the player. |
| GameRules.RamFrom | js/game.js:471-499 | The whole third pass leaves the bullets alone and never adds an enemy. |
| GameRules.RamFromKeeps | js/game.js:471-499 | The whole third pass keeps the round well formed and costs at most one life. It changes only the enemies, the explosions and the player. |
| GameRules.PlayerBullets | js/game.js:520 | The filter keeps exactly the player-owned bullets. |
| GameRules.PlayerBulletsKeepsOrder | js/game.js:520 | The filter of a concatenation is the concatenation of the filters, so relative order is kept. |
| GameRules.Blast | js/game.js:513-515 | The bomb's turn for one enemy adds an explosion over it. It leaves the enemies, bullets and power-ups alone. |
| GameRules.BlastFrom | js/game.js:512-516 | The bomb loop over the enemies. It has no contract of its own; `BlastFromEffect` states its effect. |
| GameRules.BlastFromEffect | js/game.js:512-516 | The bomb loop adds, for each enemy, half its score at the unchanged combo, one explosion and one message. Nothing else changes, and the world stays well formed. |
| GameRules.Detonate | js/game.js:510-521 | A bomb leaves no enemy and never adds a bullet. |
| GameRules.DetonateEffect | js/game.js:510-521 | A bomb empties the enemies and leaves exactly the player's bullets. It adds half of every enemy's score at the unchanged combo and one explosion per enemy. It leaves combo, timer, power-ups and cursor alone, and keeps the world well formed. |
| GameRules.Pickup | js/game.js:502-537 | A power-up's turn in the fourth pass either leaves the power-ups alone or removes exactly that one. It never adds an enemy or a bullet. |
| GameRules.PickupKeeps | js/game.js:502-537 | An overlapping power-up applies `Boost` and is used up. It clears the field exactly when it is a bomb; otherwise enemies, bullets and score are untouched. A power-up that does not overlap changes nothing. The combo and cursor are untouched, no life is lost, and the round stays well formed. |
| GameRules.PickupFrom | js/game.js:502-537 | The whole fourth pass never adds an enemy, a bullet or a power-up. |
| GameRules.PickupFromKeeps | js/game.js:502-537 | The whole fourth pass keeps the round well formed, costs no life, and leaves the combo and cursor alone. |
| GameRules.Collide | js/game.js:383-538 | The four collision passes together never add an enemy or a bullet. |
| GameRules.CollideKeeps | js/game.js:383-538 | All four passes together keep the world and the player well formed. They cost at most one life, and a lost life leaves the player invincible. |
| GameRules.ComboStep | js/game.js:191-196 | While a combo runs, its timer drops by dt and the combo becomes exactly 0 once the timer is at or below 0, and stays otherwise. Without a combo nothing changes. Only the combo and its timer change, and the world stays well formed. |
| GameRules.EnemyPhase | js/game.js:238-273 | The enemy phase: the wave when it is due, then the reverse pass. It has no contract of its own; `EnemyPhaseKeeps` states what it keeps and `Games.Game.UpdateEnemies` that the method equals it. |
| GameRules.EnemyPhaseKeeps | js/game.js:238-273 | The enemy phase, spawning included, keeps the world well formed and never moves the cursor back. It leaves the score, the combo and its timer alone. |
| GameRules.ListPhases | js/game.js:277-360 | The bullet, power-up, explosion and message updates in that order. It has no contract of its own; `ListPhasesKeep` states what they keep and `Games.Game.UpdateLists` that the method equals them. |
| GameRules.ListPhasesKeep | js/game.js:277-360 | The bullet, power-up, explosion and message updates leave the enemies, the score, the combo and its timer alone. They draw twice exactly when a power-up drops, and with a correct square root they keep the world well formed. |
| GameRules.Primed | js/game.js:186-210 | The combo step followed by the volley due this frame. It has no contract of its own; `ComboStep` states the combo step and `Games.Game.Prepare` that the method equals it. |
| GameRules.EntityPass | js/game.js:213-225 | The enemy phase followed by the list phases. It has no contract of its own; `Games.Game.UpdateEntities` states that the method equals it. |
| GameRules.Frame | js/game.js:185-225 | Everything `update` does before the collisions, as one rule on the world. It has no contract of its own; `FrameKeeps` states what it keeps and `Games.Game.Step` that a running frame equals it followed by `Collide`. |
| GameRules.FrameKeeps | js/game.js:185-225 | Everything `update` does before the collisions, with a well-formed volley and a correct square root, keeps the world well formed. It leaves the score alone and never moves the cursor back. |
| Games.Game.constructor | js/game.js:9-86 | Construction runs `init`. The game is valid and reset, stopped and unpaused, with a fresh player at the bottom centre with three lives and tier 1. |
| Games.Game.Init | js/game.js:53-86 | `init` resets the canvas size, flags, clock, score, combo, difficulty, lists and spawn timers (60 and 600). It creates a fresh player and leaves the game valid. |
| Games.Game.ResetState | js/game.js:55-82 | The resetting part of `init` sets every counter and flag it names to its initial value. |
| Games.Game.ClearLists | js/game.js:74-79 | Every entity list is empty. |
| Games.Game.Start | js/game.js:136-142 | A running game is untouched. A stopped one is reset by `init`, set running and unpaused, and stays valid. |
| Games.Game.Pause | js/game.js:147-151 | Pausing toggles only while the game is running. |
| Games.Game.HandleInput | js/game.js:172-175 | The input reaches the player only while the game is running and not paused; otherwise the player is untouched. |
| Games.Game.Update | js/game.js:182-232 | A stopped or paused game is untouched. Otherwise the clock advances by dt and the difficulty follows it, the running flags and canvas size are kept, and the world and the player are those of the frame rule. The rule is the combo step, the due volley appended to the bullets, the enemy phase and the list phases, all from the start of the frame. The player moves by `Flown` and its invincibility runs down by `Cooldown`, and if it is still active the four collision passes `Collide` follow, against the moved aircraft. The cooldown restarts at 10 when a volley is due and otherwise runs down as in `TickTimers`. Each spawn timer runs down by dt, and on lapsing restarts at its interval for the new difficulty. The game stays valid, the player loses at most one life and a lost life leaves it invincible. |
| Games.Game.Advance | js/game.js:185-225 | The clock advances by dt and the difficulty follows it. The player's cooldown, invincibility and position change as in `UpdatePlayer`, and each spawn timer runs down or restarts at its interval. The world is the entity pass `EntityPass`, with homing bullets aimed at the moved player, of the start world after the combo step with the due volley appended. The game stays valid. |
| Games.Game.AdvanceClock | js/game.js:186-196 | Game time grows by dt and the difficulty follows it. The world changes only by `ComboStep`. The player, the spawn timers and the volley due this frame are untouched, and the game stays valid. |
| Games.Game.UpdateCombo | js/game.js:191-196 | While a combo runs, its timer drops by dt and the combo is reset to exactly 0 (not decreased by one) once the timer is at or below 0. Without a combo nothing changes. |
| Games.Game.UpdatePlayer | js/game.js:199-210 | The player moves to `Flown` under its controls and its invincibility runs down by `Cooldown`. When it is shooting with a cooldown of at most 1 at the start, so that the move ends it, the moved player's volley is appended to the bullets and the cooldown restarts at 10. Otherwise the cooldown drops by one while positive. Nothing else changes, and the game stays valid. |
| Games.Game.UpdateEntities | js/game.js:213-225 | The world becomes the entity pass `EntityPass`: the enemy phase, then the bullets, power-ups, explosions and messages in that order, with homing bullets aimed at the player. Each spawn timer runs down by dt or restarts at its interval. The clock, the player and the flags are untouched, and the game stays valid. |
| Games.Game.Step | js/game.js:185-231 | A running frame from the clock to the collisions: the clock advances by dt and the difficulty follows it, and the world and the player are those of the frame rule. The rule is the combo step, the due volley appended to the bullets, the enemy phase and the list phases, all from the start of the frame. The player moves by `Flown` and its invincibility runs down by `Cooldown`, and if it is still active the four collision passes `Collide` follow, against the moved aircraft. The cooldown restarts at 10 when a volley is due and otherwise runs down as in `TickTimers`. Each spawn timer runs down by dt, and on lapsing restarts at its interval for the new difficulty. The game stays valid, the player loses at most one life and a lost life leaves it invincible. |
| Games.Game.Prepare | js/game.js:185-210 | The clock advances and the difficulty follows it. The world becomes the start world after the combo step with the due volley appended. The player's cooldown, invincibility and position change as in `UpdatePlayer`, and the spawn timers are untouched. |
| Games.Game.FireVolley | js/game.js:203-209 | A shooting player whose cooldown is over appends the tier's volley from its current position and restarts the cooldown at 10. Otherwise nothing changes. Only the bullets and the cooldown change, and well-formed bullets stay well formed. |
| Games.Game.UpdateEnemies | js/game.js:238-273 | When the spawn timer lapses, it restarts at the difficulty's interval. The world becomes `EnemyPhase`: exactly `SpawnCount(d)` enemies spawned in that case, then the reverse pass over all enemies. The power-up timer, the clock and the player are untouched, and the game stays valid. |
| Games.Game.SpawnWave | js/game.js:240-252 | The spawn timer runs down by dt. On lapsing it restarts at the interval, and the enemies follow `Spawned`. |
| Games.Game.SpawnEnemies | js/game.js:249-252 | The spawning loop equals `Spawned` for its count. |
| Games.Game.SpawnEnemy | js/game.js:250-251 | One `createRandomEnemy` equals `SpawnOne`. |
| Games.Game.MoveEnemies | js/game.js:256-272 | The reverse loop equals the enemy pass `EnemiesFrom`. |
| Games.Game.MoveEnemy | js/game.js:257-271 | One iteration equals `EnemyTurn` and leaves exactly the rest of the pass to do. |
| Games.Game.UpdateLists | js/game.js:216-225 | The world becomes `ListPhases`: bullets, power-ups, explosions and messages in that order, with homing bullets aimed at the player. The power-up timer runs down or restarts at its interval. The enemies, the enemy timer, the clock and the player are untouched, and the game stays valid. |
| Games.Game.UpdateMovers | js/game.js:216-219 | The bullets become `MoveBullets`, steered toward the player. The power-ups become `MovePowerUps` of the list with `DropIn` appended when the timer lapses, which uses two draws. The power-up timer runs down or restarts. The game stays valid. |
| Games.Game.UpdateFading | js/game.js:222-225 | The explosions become `FadeExplosions` and the messages `TickMessages`. Nothing else changes, and the game stays valid. |
| Games.Game.UpdateBullets | js/game.js:279-291 | The reverse loop equals `MoveBullets`, steering homing bullets toward the player, and keeps the game valid. |
| Games.Game.MoveBullet | js/game.js:281-289 | One iteration extends the processed suffix by one bullet. |
| Games.Game.UpdatePowerUps | js/game.js:297-323 | When the power-up timer lapses, it restarts and one power-up spawns. Then the reverse sweep runs, and the game stays valid. |
| Games.Game.DropWave | js/game.js:299-309 | The power-up timer runs down by dt. On lapsing it restarts at the interval, and exactly `DropIn` is appended using two draws. |
| Games.Game.SpawnPowerUp | js/game.js:305-308 | The spawned power-up is `DropIn` at the cursor, and two draws are used. |
| Games.Game.SweepPowerUps | js/game.js:312-322 | The reverse loop equals `MovePowerUps`. |
| Games.Game.MovePowerUp | js/game.js:313-321 | One iteration extends the processed suffix by one power-up. |
| Games.Game.UpdateExplosions | js/game.js:329-341 | The reverse loop equals `FadeExplosions` and keeps the game valid. |
| Games.Game.FadeExplosion | js/game.js:330-339 | One iteration extends the processed suffix by one explosion. |
| Games.Game.UpdateMessages | js/game.js:347-360 | The reverse loop equals `TickMessages` and keeps the game valid. |
| Games.Game.TickMessageAt | js/game.js:348-358 | One iteration extends the processed suffix by one message. |
| Games.Game.CheckCollisions | js/game.js:383-538 | With the player inactive nothing changes. Otherwise the world and the player end as `Collide` says. The player does not move, and the clock, the spawn timers, the flags, the canvas size and the cooldown are untouched. The game stays valid, and at most one life is lost, leaving the player invincible. |
| Games.Game.Resolve | js/game.js:386-537 | The four passes in order equal `Collide`. |
| Games.Game.StrikePass | js/game.js:387-437 | The first pass equals `StrikeFrom`. |
| Games.Game.StrikeBullet | js/game.js:388-436 | One bullet's turn, inner loop and `break` included, equals `Strike`. |
| Games.Game.KillEnemy | js/game.js:403-427 | A kill equals `Kill`. |
| Games.Game.Reward | js/game.js:405-412 | The scoring part of a kill equals `Credit`. |
| Games.Game.DropLoot | js/game.js:415-421 | The drop equals `Loot`. |
| Games.Game.FirePass | js/game.js:440-468 | The second pass equals `FireFrom`. |
| Games.Game.EnemyFireAt | js/game.js:441-467 | One bullet's turn equals `EnemyFire`. |
| Games.Game.KillPlayer | js/game.js:452-460 | A fatal hit adds an explosion over the player and deactivates it. |
| Games.Game.RamPass | js/game.js:471-499 | The third pass equals `RamFrom`. |
| Games.Game.RamAt | js/game.js:472-498 | One enemy's turn equals `Ram`. |
| Games.Game.PickupPass | js/game.js:502-537 | The fourth pass equals `PickupFrom`. |
| Games.Game.PickupAt | js/game.js:503-536 | One power-up's turn equals `Pickup`. |
| Games.Game.Detonate | js/game.js:510-521 | The bomb branch equals `GameRules.Detonate`. |
| Games.Game.BlastEnemy | js/game.js:513-515 | One turn of the bomb loop equals `Blast`. |
| Games.Game.IncreaseScore | js/game.js:544-566 | `increaseScore` equals `GameRules.IncreaseScore`. |
| Games.Game.CreateExplosion | js/game.js:575-613 | One new explosion over the given bounds is appended. |
| Games.Game.AddMessage | js/game.js:622-630 | One new message is appended. |

## Behaviour worth noting

The model follows the code in each case.

- **Damage order.** `takeDamage` tests invincibility before the shield
  (js/player.js:216-226). A player that is both invincible and shielded
  loses nothing and keeps its shield charges.
- **`increaseScore` and the combo timer.** `increaseScore` does not touch
  the combo or its timer. A kill scores at the current combo, and only then
  grows the combo and restarts its timer at 120 (js/game.js:405-409).
- **Which enemy a bullet hits.** The inner loop runs from the last enemy
  down and stops at the first overlap, so a bullet hits the highest-indexed
  enemy it overlaps (js/game.js:392-434).
- **Bomb score.** The bomb calls `increaseScore` once per enemy, so each
  halved score is multiplied by the combo and rounded down on its own
  (js/game.js:512-516).
- **Movement mode.** The player moves by keyboard or pointer according to
  the `keyboardControl` flag, which the latest input of either kind sets
  (js/player.js:283-301).
- **Enemy health.** `takeDamage` subtracts the damage without clamping, so
  an overkill leaves the health negative (js/enemy.js:179-182).
- **Unknown enemy kinds.** A kind outside the three gets the basic hull but
  the elite falling speed (js/enemy.js:368-395).

## Left out

- Drawing, images and the DOM are not modelled: every `draw` method,
  `createPixelImage`, the `create*Image` methods, `setImage`, the score text
  written by `increaseScore`, and the game-over screen.
- The text of score and effect messages is not modelled. A message keeps
  only its position, timer and alpha.
- Player-side and frame-loop parts that are not modelled:
  - `resizeCanvas`: the window size is a parameter of `Init` and `Start`.
  - `createStars` and `updateBackground`: they are cosmetic, and
    `updateBackground`'s draws of `Math.random()` only interleave with the
    gameplay's own. The stream `random` is the sequence of draws the gameplay
    sees.
  - The sound hooks.
  - `js/main.js`, including the timing that computes dt.
- `gameOver` and the one-second `setTimeout` before it are not modelled. A
  fatal hit only deactivates the player, and the game keeps running until
  the caller stops it.
- Sprite methods not used by the core are left out: `setPosition`,
  `setSpeed` and `addAnimation`. A sprite's animations map is a value, and
  every registered frame list is non-empty.
- The Utils helpers the core does not call are left out: `randomFloat`,
  `distance`, `angle` and `angleToVector`.
- The `this.player` null checks of `game.js` are left out: the player always
  exists once the game is constructed.
- The unused `Player.score` field is left out. `touchY` is recorded but, as
  in the code, never read.
- Arithmetic is exact real arithmetic, not IEEE doubles. `Math.sin`,
  `Math.cos` and `Math.atan2` are unconstrained functions. `Math.sqrt` is
  assumed to be the exact non-negative square root.
- Entities are values inside the game's lists, so the model has no aliasing
  between entities. The source never shares an entity between two lists.
- Init: creates the player after resetting the counters, while the source
  creates it first. The fields involved are disjoint, so the order does not
  matter.
- Enemies.Enemy.Update: the zigzag, sine and circle speed formulas use the
  unconstrained `sin` and `cos`. For those patterns the contract states only
  the clamp and the sign of the speed at the edges, not the speed itself.
- Bullets.Bullet.Steered: the steering direction uses the unconstrained
  `atan2`, `cos` and `sin`. Its contract states only the speed cap, not the
  heading.
- Bullets.Bullet.Update: its own contract keeps only the flags; how the
  bullet moves is stated by `UpdateMoves` and the speed cap by
  `UpdateKeepsCap`.
- PowerUps.KindForRoll: a roll of 100 or more selects the last kind, where the
  source's loop would fall back to the first. Such a roll needs a draw of at
  least 1, which `Math.random` never returns, and `CreateRandomPowerUp`
  requires a draw in [0, 1).
- GameRules.TickMessages, GameRules.FadeExplosions, GameRules.MoveBullets and
  GameRules.MovePowerUps: their own contracts state only what survives a pass
  and that the list never grows. That every element still due is kept is
  stated by `TickMessagesFilters`, `FadeExplosionsFilters`,
  `MoveBulletsFilters` and `MovePowerUpsFilters`.
- `dt` is not required to be non-negative, as in the source. Properties that
  need it, such as `OutOfBoundsIsFinal`, assume it.

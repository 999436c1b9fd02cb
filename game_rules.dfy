/** The rules of js/game.js, stated on values: the formulas of the frame
    update, the filtering passes over the entity lists, and the collision
    passes. The `Game` class in module `Games` is proved to follow them.

    The passes are written the way the source runs them: a step for one
    index, and a function that applies the steps from the last index down
    to the first. What the passes keep true is proved in the lemmas beside
    them. */
module GameRules {
  import opened Utils
  import opened Sprites
  import opened Bullets
  import opened Enemies
  import opened Players
  import opened PowerUps

  /** `comboTimeout`, in frames. */
  const ComboTimeout: real := 120.0
  /** `maxDifficulty` and `difficultyIncreaseRate`. */
  const MaxDifficulty: real := 1.0
  const DifficultyRate: real := 0.0001
  /** The length of a frame in milliseconds, for converting message durations. */
  const FrameMillis: real := 16.67
  /** How long a score message stays, in milliseconds. */
  const ScoreMessageMillis: real := 1000.0
  /** Per-frame fading and growth of an explosion. */
  const FadeRate: real := 0.05
  /** Per-frame rise of a message. */
  const MessageRise: real := 0.5

  // ---------------------------------------------------------------------
  // Formulas of the frame update

  /** `Math.min(maxDifficulty, gameTime * difficultyIncreaseRate)`. */
  function Difficulty(gameTime: real): (d: real)
    ensures d <= MaxDifficulty
    ensures d == MaxDifficulty || d == gameTime * DifficultyRate
    ensures gameTime * DifficultyRate <= MaxDifficulty ==> d == gameTime * DifficultyRate
    ensures gameTime >= 0.0 ==> d >= 0.0
  {
    Min(MaxDifficulty, gameTime * DifficultyRate)
  }

  /** Difficulty never falls as game time grows, and it is at its maximum
      from 10000 frames on. */
  lemma DifficultyIsMonotone(t1: real, t2: real)
    requires t1 <= t2
    ensures Difficulty(t1) <= Difficulty(t2)
    ensures t1 >= 10000.0 ==> Difficulty(t1) == MaxDifficulty
  {
  }

  /** The enemy spawn interval `Math.max(20, 100 - difficulty * 80)`. */
  function SpawnInterval(d: real): (t: real)
    ensures t >= 20.0
    ensures t == 20.0 || t == 100.0 - d * 80.0
    ensures 0.0 <= d <= MaxDifficulty ==> 20.0 <= t <= 100.0
  {
    Max(20.0, 100.0 - d * 80.0)
  }

  /** The number of enemies per spawn, `Math.floor(1 + difficulty * 2)`. */
  function SpawnCount(d: real): (n: int)
    ensures n as real <= 1.0 + d * 2.0 < n as real + 1.0
    ensures 0.0 <= d ==> n >= 1
    ensures d <= MaxDifficulty ==> n <= 3
  {
    (1.0 + d * 2.0).Floor
  }

  /** How many times `for (let i = 0; i < n; i++)` runs. */
  function Repeats(n: int): nat {
    if n < 0 then 0 else n
  }

  /** The power-up spawn interval `Math.max(300, 600 - difficulty * 300)`. */
  function PowerUpInterval(d: real): (t: real)
    ensures t >= 300.0
    ensures t == 300.0 || t == 600.0 - d * 300.0
    ensures 0.0 <= d <= MaxDifficulty ==> 300.0 <= t <= 600.0
  {
    Max(300.0, 600.0 - d * 300.0)
  }

  /** The points `increaseScore(points)` adds: the points times the combo
      multiplier `1 + combo * 0.1`, rounded down. */
  function ScoreGain(points: real, combo: int): (g: int)
    ensures g as real <= points * (1.0 + combo as real * 0.1) < g as real + 1.0
    ensures combo == 0 ==> g == points.Floor
    ensures 0.0 <= points && 0 <= combo ==> 0 <= points.Floor <= g
  {
    var m := 1.0 + combo as real * 0.1;
    if 0.0 <= points && 0 <= combo then
      assert points <= points * m by { assert points * (m - 1.0) >= 0.0; }
      (points * m).Floor
    else
      (points * m).Floor
  }

  /** The chance `0.1 + difficulty * 0.1` that a killed enemy drops a power-up. */
  function DropChance(d: real): (c: real)
    ensures 0.0 <= d <= MaxDifficulty ==> 0.1 <= c <= 0.2
    ensures d < 0.0 ==> c < 0.1
  {
    0.1 + d * 0.1
  }

  /** `array.splice(i, 1)`. */
  function Remove<T>(s: seq<T>, i: nat): (r: seq<T>)
    requires i < |s|
    ensures |r| == |s| - 1
    ensures forall x :: x in r ==> x in s
  {
    s[..i] + s[i + 1..]
  }

  // ---------------------------------------------------------------------
  // Messages and explosions

  /** An entry of `messages`; the text is not modelled. */
  datatype Message = Message(x: real, y: real, timer: real, alpha: real)

  /** `addMessage(text, x, y, duration)`: the duration in milliseconds becomes
      a timer in frames. */
  function NewMessage(x: real, y: real, duration: real): (m: Message)
    ensures m.x == x && m.y == y && m.alpha == 1.0
    ensures m.timer * FrameMillis == duration
    ensures duration > 0.0 ==> m.timer > 0.0
  {
    Message(x, y, duration / FrameMillis, 1.0)
  }

  /** One frame of a message: its timer runs down and it drifts up. */
  function TickMessage(m: Message, dt: real): (r: Message)
    ensures r.timer == m.timer - dt && r.y == m.y - MessageRise * dt
    ensures r.x == m.x && r.alpha == m.alpha
  {
    m.(timer := m.timer - dt, y := m.y - MessageRise * dt)
  }

  /** `updateMessages`: tick every message and drop the expired ones. */
  function TickMessages(ms: seq<Message>, dt: real): (r: seq<Message>)
    ensures |r| <= |ms|
    ensures forall m :: m in r ==> m.timer > 0.0
  {
    if ms == [] then []
    else
      var m := TickMessage(ms[0], dt);
      if m.timer <= 0.0 then TickMessages(ms[1..], dt) else [m] + TickMessages(ms[1..], dt)
  }

  /** `updateMessages` leaves exactly the ticked messages still due: none
      expired, none due lost, nothing new. */
  lemma {:induction false} TickMessagesFilters(ms: seq<Message>, dt: real)
    ensures var r := TickMessages(ms, dt);
      && |r| <= |ms|
      && (forall m :: m in r ==> m.timer > 0.0)
      && (forall k :: 0 <= k < |ms| && ms[k].timer - dt > 0.0 ==> TickMessage(ms[k], dt) in r)
      && (forall m :: m in r ==> exists k :: 0 <= k < |ms| && m == TickMessage(ms[k], dt))
  {
    if ms != [] {
      TickMessagesFilters(ms[1..], dt);
      assert forall k :: 1 <= k < |ms| ==> ms[k] == ms[1..][k - 1];
    }
  }

  /** `createExplosion(x, y, width, height)`: a fresh, fully opaque sprite. */
  function Boom(s: Sprite): (e: Sprite)
    ensures e.Bounds() == s.Bounds() && e.active && e.alpha == 1.0 && e.scale == 1.0
  {
    NewSprite(s.x, s.y, s.width, s.height)
  }

  /** The `update` an explosion is given: fade and grow, and go inactive once
      fully faded. It does not move. */
  function Fade(e: Sprite, dt: real): (r: Sprite)
    ensures r.alpha == e.alpha - FadeRate * dt && r.scale == e.scale + FadeRate * dt
    ensures r.active <==> e.active && r.alpha > 0.0
    ensures r.Bounds() == e.Bounds()
  {
    var faded := e.(alpha := e.alpha - FadeRate * dt, scale := e.scale + FadeRate * dt);
    if faded.alpha <= 0.0 then faded.(active := false) else faded
  }

  /** `updateExplosions`: fade every explosion and drop the finished ones. */
  function FadeExplosions(xs: seq<Sprite>, dt: real): (r: seq<Sprite>)
    ensures |r| <= |xs|
    ensures forall e :: e in r ==> e.active && e.alpha > 0.0
  {
    if xs == [] then []
    else
      var e := Fade(xs[0], dt);
      if !e.active then FadeExplosions(xs[1..], dt) else [e] + FadeExplosions(xs[1..], dt)
  }

  /** `updateExplosions` leaves only active, visible explosions, and every
      explosion still active after fading is kept. */
  lemma {:induction false} FadeExplosionsFilters(xs: seq<Sprite>, dt: real)
    ensures var r := FadeExplosions(xs, dt);
      && |r| <= |xs|
      && (forall e :: e in r ==> e.active && e.alpha > 0.0)
      && (forall k :: 0 <= k < |xs| && Fade(xs[k], dt).active ==> Fade(xs[k], dt) in r)
  {
    if xs != [] {
      FadeExplosionsFilters(xs[1..], dt);
      assert forall k :: 1 <= k < |xs| ==> xs[k] == xs[1..][k - 1];
    }
  }

  // ---------------------------------------------------------------------
  // Bullets and power-ups

  /** `updateBullets`: move every bullet (homing ones toward the target) and
      drop those that left the canvas. */
  function MoveBullets(bs: seq<Bullet>, dt: real, target: Option<Sprite>, math: MathLib,
                       width: real, height: real): (r: seq<Bullet>)
    ensures |r| <= |bs|
    ensures forall b :: b in r ==> !b.IsOutOfBounds(width, height)
  {
    if bs == [] then []
    else
      var b := bs[0].Update(dt, target, math);
      var rest := MoveBullets(bs[1..], dt, target, math, width, height);
      if b.IsOutOfBounds(width, height) then rest else [b] + rest
  }

  /** `updateBullets` leaves no bullet off the canvas, keeps every moved
      bullet still on it, and keeps bullets well formed and homing ones
      under the speed cap. */
  lemma {:induction false} MoveBulletsFilters(bs: seq<Bullet>, dt: real, target: Option<Sprite>, math: MathLib,
                                              width: real, height: real)
    ensures var r := MoveBullets(bs, dt, target, math, width, height);
      && |r| <= |bs|
      && (forall b :: b in r ==> !b.IsOutOfBounds(width, height))
      && (forall k :: 0 <= k < |bs| && !bs[k].Update(dt, target, math).IsOutOfBounds(width, height) ==>
            bs[k].Update(dt, target, math) in r)
      && (BulletsOk(bs) && math.Valid() ==> BulletsOk(r))
  {
    if bs != [] {
      MoveBulletsFilters(bs[1..], dt, target, math, width, height);
      if math.Valid() {
        UpdateKeepsCap(bs[0], dt, target, math);
      }
      assert forall k :: 1 <= k < |bs| ==> bs[k] == bs[1..][k - 1];
      assert forall x :: x in bs[1..] ==> x in bs;
    }
  }

  /** The reverse pass of `updatePowerUps`: move every power-up and drop
      those that fell below the canvas. */
  function MovePowerUps(ps: seq<PowerUp>, dt: real, height: real): (r: seq<PowerUp>)
    ensures |r| <= |ps|
    ensures forall p :: p in r ==> !p.IsOutOfBounds(height)
  {
    if ps == [] then []
    else
      var p := ps[0].Update(dt);
      if p.IsOutOfBounds(height) then MovePowerUps(ps[1..], dt, height) else [p] + MovePowerUps(ps[1..], dt, height)
  }

  /** `updatePowerUps` leaves no power-up below the canvas, keeps every one
      still above it, and keeps them well formed. */
  lemma {:induction false} MovePowerUpsFilters(ps: seq<PowerUp>, dt: real, height: real)
    ensures var r := MovePowerUps(ps, dt, height);
      && |r| <= |ps|
      && (forall p :: p in r ==> !p.IsOutOfBounds(height))
      && (forall k :: 0 <= k < |ps| && !ps[k].Update(dt).IsOutOfBounds(height) ==> ps[k].Update(dt) in r)
      && (PowerUpsOk(ps) ==> PowerUpsOk(r))
  {
    if ps != [] {
      MovePowerUpsFilters(ps[1..], dt, height);
      assert forall k :: 1 <= k < |ps| ==> ps[k] == ps[1..][k - 1];
      assert forall x :: x in ps[1..] ==> x in ps;
    }
  }

  /** The power-up `updatePowerUps` spawns: at a random column along the top
      edge, of a kind chosen by weight, with one draw for each. */
  function DropIn(width: int, cursor: nat, random: nat -> real): (p: PowerUp)
    requires IsRandomSource(random)
    ensures p.WellFormed() && p.body.y == -20.0 && p.body.active
    ensures width >= 60 ==> 20.0 <= p.body.x <= (width - 40) as real
    ensures p.kind == KindForRoll(random(cursor + 1) * 100.0)
  {
    NewPowerUp(RandomInt(20, width - 40, random(cursor)) as real, -20.0, KindForRoll(random(cursor + 1) * 100.0))
  }

  // ---------------------------------------------------------------------
  // The world the passes act on

  /** The entity lists, the score and combo, and the random-draw cursor. */
  datatype World = World(
    enemies: seq<Enemy>,
    bullets: seq<Bullet>,
    powerUps: seq<PowerUp>,
    explosions: seq<Sprite>,
    messages: seq<Message>,
    score: int,
    combo: int,
    comboTimer: real,
    cursor: nat)

  predicate EnemiesOk(es: seq<Enemy>) {
    forall e :: e in es ==> e.WellFormed() && e.health >= 1
  }

  predicate BulletsOk(bs: seq<Bullet>) {
    forall b :: b in bs ==> b.WellFormed() && b.SpeedCapped()
  }

  predicate PowerUpsOk(ps: seq<PowerUp>) {
    forall p :: p in ps ==> p.WellFormed()
  }

  predicate ExplosionsOk(xs: seq<Sprite>) {
    forall e :: e in xs ==> e.active && e.alpha > 0.0
  }

  predicate MessagesOk(ms: seq<Message>) {
    forall m :: m in ms ==> m.timer > 0.0
  }

  predicate ComboOk(combo: int, comboTimer: real) {
    combo >= 0 && (combo > 0 ==> comboTimer > 0.0)
  }

  /** What every step of the game keeps true of the world: live enemies,
      well-formed bullets and power-ups, explosions still visible, messages
      still due, and a running combo backed by a running timer. */
  predicate WorldOk(w: World) {
    && EnemiesOk(w.enemies) && BulletsOk(w.bullets) && PowerUpsOk(w.powerUps)
    && ExplosionsOk(w.explosions) && MessagesOk(w.messages) && ComboOk(w.combo, w.comboTimer)
  }

  /** `increaseScore(points)`: add the combo-multiplied points and put up a
      score message above the player; the combo itself is left alone. */
  function IncreaseScore(w: World, points: real, p: Sprite): (r: World)
    ensures r.score == w.score + ScoreGain(points, w.combo)
    ensures r.combo == w.combo && r.comboTimer == w.comboTimer
    ensures r.messages == w.messages + [NewMessage(p.x + p.width / 2.0, p.y - 30.0, ScoreMessageMillis)]
    ensures r == w.(score := r.score, messages := r.messages)
  {
    w.(score := w.score + ScoreGain(points, w.combo),
       messages := w.messages + [NewMessage(p.x + p.width / 2.0, p.y - 30.0, ScoreMessageMillis)])
  }

  lemma IncreaseScoreKeeps(w: World, points: real, p: Sprite)
    requires WorldOk(w)
    ensures WorldOk(IncreaseScore(w, points, p))
  {
  }

  // ---------------------------------------------------------------------
  // Spawning and the enemy pass of `updateEnemies`

  /** `createRandomEnemy(width, difficulty)` drawing from the stream. */
  function SpawnOne(w: World, width: int, d: real, random: nat -> real): (r: World)
    requires IsRandomSource(random)
    ensures |r.enemies| == |w.enemies| + 1 && r.enemies[..|w.enemies|] == w.enemies
    ensures r == w.(enemies := r.enemies, cursor := r.cursor)
    ensures r.cursor == w.cursor + SpawnDraws(r.enemies[|w.enemies|].kind)
  {
    var e := Recruit(width, d, random, w.cursor);
    w.(enemies := w.enemies + [e], cursor := w.cursor + SpawnDraws(e.kind))
  }

  /** The enemy `createRandomEnemy` makes from the draws at c: the kind, the
      column, the fire timer and, for the kinds that move in a pattern, the
      pattern. */
  function Recruit(width: int, d: real, random: nat -> real, c: nat): (e: Enemy)
    requires IsRandomSource(random)
    ensures e.kind == KindFor(random(c), d) && e.WellFormed() && e.health >= 1
  {
    var kind := KindFor(random(c), d);
    var patternDraw := if ChoosesPattern(kind) then random(c + 3) else 0.0;
    CreateRandomEnemy(width, d, random(c), random(c + 1), random(c + 2), patternDraw)
  }

  /** n enemies spawned one after the other. */
  function Spawned(w: World, n: nat, width: int, d: real, random: nat -> real): (r: World)
    requires IsRandomSource(random)
    ensures |r.enemies| == |w.enemies| + n && r.enemies[..|w.enemies|] == w.enemies
    ensures r == w.(enemies := r.enemies, cursor := r.cursor) && r.cursor >= w.cursor
    decreases n
  {
    if n == 0 then w else SpawnOne(Spawned(w, n - 1, width, d, random), width, d, random)
  }

  /** A spawned enemy is well formed and alive. */
  lemma SpawnOneKeeps(w: World, width: int, d: real, random: nat -> real)
    requires IsRandomSource(random) && EnemiesOk(w.enemies)
    ensures EnemiesOk(SpawnOne(w, width, d, random).enemies)
  {
  }

  /** A wave of spawned enemies keeps the enemies well formed and alive. */
  lemma {:induction false} SpawnedKeepsEnemies(w: World, n: nat, width: int, d: real, random: nat -> real)
    requires IsRandomSource(random) && EnemiesOk(w.enemies)
    ensures EnemiesOk(Spawned(w, n, width, d, random).enemies)
    decreases n
  {
    if n > 0 {
      SpawnedKeepsEnemies(w, n - 1, width, d, random);
      SpawnOneKeeps(Spawned(w, n - 1, width, d, random), width, d, random);
    }
  }

  /** A wave of spawned enemies keeps the world well formed. */
  lemma SpawnedKeeps(w: World, n: nat, width: int, d: real, random: nat -> real)
    requires IsRandomSource(random) && WorldOk(w)
    ensures WorldOk(Spawned(w, n, width, d, random))
  {
    SpawnedKeepsEnemies(w, n, width, d, random);
  }

  /** The body of the reverse loop of `updateEnemies` for enemy i: update it,
      let it shoot (an elite's volley draws from the stream), and drop it
      once it has passed the bottom of the canvas. */
  function EnemyTurn(w: World, i: nat, dt: real, width: real, height: real, math: MathLib,
                     random: nat -> real): (r: World)
    requires i < |w.enemies| && IsRandomSource(random)
    ensures |r.enemies| == |w.enemies| || |r.enemies| == |w.enemies| - 1
  {
    var e := w.enemies[i].Update(dt, width, math);
    var fires := e.shootTimer <= 0;
    var volley := if fires then Enemies.Volley(e, RandomInt(0, 2, random(w.cursor))) else [];
    var shot := if fires then e.(shootTimer := e.shootRate) else e;
    var es := if shot.body.y > height then Remove(w.enemies, i) else w.enemies[i := shot];
    w.(enemies := es, bullets := w.bullets + volley, cursor := w.cursor + ShotDraws(e))
  }

  /** One enemy's turn adds only enemy bullets, draws at most once, leaves
      the rest of the world alone, and keeps it well formed. */
  lemma EnemyTurnKeeps(w: World, i: nat, dt: real, width: real, height: real, math: MathLib,
                       random: nat -> real)
    requires i < |w.enemies| && IsRandomSource(random)
    ensures var r := EnemyTurn(w, i, dt, width, height, math, random);
      && r.powerUps == w.powerUps && r.explosions == w.explosions && r.messages == w.messages
      && r.score == w.score && r.combo == w.combo && r.comboTimer == w.comboTimer
      && |r.bullets| >= |w.bullets| && r.bullets[..|w.bullets|] == w.bullets
      && (forall b :: b in r.bullets[|w.bullets|..] ==> b.owner == EnemyOwned)
      && (r.cursor == w.cursor || r.cursor == w.cursor + 1)
      && (WorldOk(w) ==> WorldOk(r))
  {
    var r := EnemyTurn(w, i, dt, width, height, math, random);
    var e := w.enemies[i].Update(dt, width, math);
    var shot := if e.shootTimer <= 0 then e.(shootTimer := e.shootRate) else e;
    assert r.bullets[|w.bullets|..] == (if e.shootTimer <= 0 then Enemies.Volley(e, RandomInt(0, 2, random(w.cursor))) else []);
    if WorldOk(w) {
      assert w.enemies[i] in w.enemies;
      assert shot.WellFormed() && shot.health >= 1;
      assert forall x :: x in w.enemies[i := shot] ==> x == shot || x in w.enemies;
    }
  }

  /** The reverse loop of `updateEnemies` from index i - 1 down to 0. */
  function EnemiesFrom(w: World, i: nat, dt: real, width: real, height: real, math: MathLib,
                       random: nat -> real): (r: World)
    requires i <= |w.enemies| && IsRandomSource(random)
    ensures |r.enemies| <= |w.enemies|
    decreases i
  {
    if i == 0 then w
    else EnemiesFrom(EnemyTurn(w, i - 1, dt, width, height, math, random), i - 1, dt, width, height, math, random)
  }

  /** The enemy pass appends bullets without touching the existing ones,
      leaves power-ups, explosions, messages, score and combo alone, and
      keeps the world well formed. */
  lemma {:induction false} EnemiesFromKeeps(w: World, i: nat, dt: real, width: real, height: real,
                                            math: MathLib, random: nat -> real)
    requires i <= |w.enemies| && IsRandomSource(random)
    ensures var r := EnemiesFrom(w, i, dt, width, height, math, random);
      && r.powerUps == w.powerUps && r.explosions == w.explosions && r.messages == w.messages
      && r.score == w.score && r.combo == w.combo && r.comboTimer == w.comboTimer
      && |r.bullets| >= |w.bullets| && r.bullets[..|w.bullets|] == w.bullets
      && r.cursor >= w.cursor
      && (WorldOk(w) ==> WorldOk(r))
    decreases i
  {
    if i > 0 {
      var next := EnemyTurn(w, i - 1, dt, width, height, math, random);
      EnemyTurnKeeps(w, i - 1, dt, width, height, math, random);
      EnemiesFromKeeps(next, i - 1, dt, width, height, math, random);
      var r := EnemiesFrom(next, i - 1, dt, width, height, math, random);
      assert r.bullets[..|w.bullets|] == r.bullets[..|next.bullets|][..|w.bullets|];
    }
  }

  /** What a turn makes of enemy e: moved by its update, with its cooldown
      restarted at its fire rate when the update left it due to shoot. */
  function EnemyStep(e: Enemy, dt: real, width: real, math: MathLib): (r: Enemy)
    ensures r.body == e.Update(dt, width, math).body
    ensures r.kind == e.kind && r.health == e.health && r.score == e.score
    ensures r.shootTimer > 0 || r.shootTimer == e.shootRate
  {
    var u := e.Update(dt, width, math);
    if u.shootTimer <= 0 then u.(shootTimer := u.shootRate) else u
  }

  /** One turn splices enemy i out exactly when its update took it past the
      bottom edge, and otherwise puts the stepped enemy back in its place;
      its volley is appended when its update left the cooldown at or below
      0, and nothing is appended otherwise. */
  lemma EnemyTurnEffect(w: World, i: nat, dt: real, width: real, height: real, math: MathLib,
                        random: nat -> real)
    requires i < |w.enemies| && IsRandomSource(random)
    ensures var s := EnemyStep(w.enemies[i], dt, width, math);
      var r := EnemyTurn(w, i, dt, width, height, math, random);
      && r.enemies == (if s.body.y > height then Remove(w.enemies, i) else w.enemies[i := s])
      && (s.body.y > height <==> |r.enemies| == |w.enemies| - 1)
    ensures var u := w.enemies[i].Update(dt, width, math);
      var r := EnemyTurn(w, i, dt, width, height, math, random);
      && (u.shootTimer > 0 ==> r.bullets == w.bullets)
      && (u.shootTimer <= 0 ==> r.bullets == w.bullets + Enemies.Volley(u, RandomInt(0, 2, random(w.cursor))))
  {
    var u := w.enemies[i].Update(dt, width, math);
    assert EnemyStep(w.enemies[i], dt, width, math) == if u.shootTimer <= 0 then u.(shootTimer := u.shootRate) else u;
    assert |Remove(w.enemies, i)| != |w.enemies|;
  }

  /** The enemies the reverse loop keeps, in their order: each one stepped,
      and those past the bottom edge dropped. */
  function Survivors(es: seq<Enemy>, dt: real, width: real, height: real, math: MathLib): (r: seq<Enemy>)
    ensures |r| <= |es|
    ensures forall e :: e in r ==> e.body.y <= height
    decreases |es|
  {
    if es == [] then []
    else
      var s := EnemyStep(es[|es| - 1], dt, width, math);
      Survivors(es[..|es| - 1], dt, width, height, math) + (if s.body.y > height then [] else [s])
  }

  /** Every enemy whose step leaves it above the bottom edge survives. */
  lemma {:induction false} SurvivorsKeep(es: seq<Enemy>, dt: real, width: real, height: real, math: MathLib)
    ensures var r := Survivors(es, dt, width, height, math);
      forall k :: 0 <= k < |es| && EnemyStep(es[k], dt, width, math).body.y <= height ==>
        EnemyStep(es[k], dt, width, math) in r
    decreases |es|
  {
    if es != [] {
      var init := es[..|es| - 1];
      SurvivorsKeep(init, dt, width, height, math);
      assert forall k :: 0 <= k < |init| ==> es[k] == init[k];
    }
  }

  /** Removing or replacing element j leaves the elements before j alone,
      so a prefix put before what follows j regroups around the change. */
  lemma Splice<T>(s: seq<T>, j: nat, x: T, drop: bool, before: seq<T>)
    requires j < |s|
    ensures var t := if drop then Remove(s, j) else s[j := x];
      && t[..j] == s[..j]
      && before + t[j..] == (before + (if drop then [] else [x])) + s[j + 1..]
  {
    var t := if drop then Remove(s, j) else s[j := x];
    var kept := if drop then [] else [x];
    assert t[j..] == kept + s[j + 1..];
  }

  /** The loop down from index i leaves the enemies from i on untouched and
      replaces those below i with their survivors, in order. */
  lemma {:induction false} EnemiesFromSurvivors(w: World, i: nat, dt: real, width: real, height: real,
                                                math: MathLib, random: nat -> real)
    requires i <= |w.enemies| && IsRandomSource(random)
    ensures EnemiesFrom(w, i, dt, width, height, math, random).enemies
              == Survivors(w.enemies[..i], dt, width, height, math) + w.enemies[i..]
    decreases i
  {
    if i > 0 {
      var next := EnemyTurn(w, i - 1, dt, width, height, math, random);
      EnemyTurnEffect(w, i - 1, dt, width, height, math, random);
      EnemiesFromSurvivors(next, i - 1, dt, width, height, math, random);
      SurvivorsStep(w.enemies, next.enemies, i, dt, width, height, math);
    }
  }

  /** One more turn of the loop extends the survivors by the stepped enemy
      i - 1 or by nothing. */
  lemma SurvivorsStep(es: seq<Enemy>, next: seq<Enemy>, i: nat, dt: real, width: real, height: real,
                      math: MathLib)
    requires 0 < i <= |es|
    requires var s := EnemyStep(es[i - 1], dt, width, math);
      next == if s.body.y > height then Remove(es, i - 1) else es[i - 1 := s]
    ensures Survivors(next[..i - 1], dt, width, height, math) + next[i - 1..]
              == Survivors(es[..i], dt, width, height, math) + es[i..]
  {
    var s := EnemyStep(es[i - 1], dt, width, math);
    var kept := if s.body.y > height then [] else [s];
    Splice(es, i - 1, s, s.body.y > height, Survivors(es[..i - 1], dt, width, height, math));
    SurvivorsSnoc(es, i, dt, width, height, math);
  }

  /** The survivors of the first i enemies are those of the first i - 1
      followed by what enemy i - 1 leaves. */
  lemma SurvivorsSnoc(es: seq<Enemy>, i: nat, dt: real, width: real, height: real, math: MathLib)
    requires 0 < i <= |es|
    ensures var s := EnemyStep(es[i - 1], dt, width, math);
      Survivors(es[..i], dt, width, height, math)
        == Survivors(es[..i - 1], dt, width, height, math) + (if s.body.y > height then [] else [s])
  {
    assert es[..i][..i - 1] == es[..i - 1] && es[..i][i - 1] == es[i - 1];
  }

  /** Over the whole list the enemy pass keeps exactly the enemies within
      the bottom edge: every enemy left is within it, and every stepped
      enemy within it is kept. */
  lemma EnemiesFromFilters(w: World, dt: real, width: real, height: real, math: MathLib,
                           random: nat -> real)
    requires IsRandomSource(random)
    ensures var r := EnemiesFrom(w, |w.enemies|, dt, width, height, math, random);
      && (forall e :: e in r.enemies ==> e.body.y <= height)
      && (forall k :: 0 <= k < |w.enemies| && EnemyStep(w.enemies[k], dt, width, math).body.y <= height ==>
            EnemyStep(w.enemies[k], dt, width, math) in r.enemies)
  {
    EnemiesFromSurvivors(w, |w.enemies|, dt, width, height, math, random);
    SurvivorsKeep(w.enemies, dt, width, height, math);
    assert w.enemies[..|w.enemies|] == w.enemies && w.enemies[|w.enemies|..] == [];
  }

  // ---------------------------------------------------------------------
  // The collision passes of `checkCollisions`

  /** The world together with the player's vitals and `active` flag. */
  datatype Round = Round(world: World, vitals: Vitals, alive: bool)

  /** The player's state that every frame keeps: valid vitals, lives never
      negative, and an active player has a life left. */
  predicate VitalsOk(v: Vitals, alive: bool) {
    v.Valid() && v.lives >= 0 && (alive ==> v.lives >= 1)
  }

  /** What holds throughout one `checkCollisions`: the player was active at
      its start, so a player who is no longer active has just died and is
      invincible. */
  predicate Guarded(v: Vitals, alive: bool) {
    VitalsOk(v, alive) && (!alive ==> v.invincible)
  }

  predicate RoundOk(r: Round) {
    WorldOk(r.world) && Guarded(r.vitals, r.alive)
  }

  /** From one round to a later one of the same `checkCollisions`: at most one
      life lost, and a lost life means invincibility; an invincible player
      stays so and loses nothing; the player never comes back to life. */
  predicate Follows(r: Round, q: Round) {
    && q.vitals.lives >= r.vitals.lives - 1
    && (q.vitals.lives < r.vitals.lives ==> q.vitals.invincible)
    && (r.vitals.invincible ==> q.vitals.invincible && q.vitals.lives >= r.vitals.lives)
    && (q.alive ==> r.alive)
  }

  lemma FollowsIsTransitive(a: Round, b: Round, c: Round)
    requires Follows(a, b) && Follows(b, c)
    ensures Follows(a, c)
  {
  }

  /** A player hit: `takeDamage`, and on death an explosion at the player and
      the player deactivated. */
  function HitPlayer(r: Round, p: Sprite): (q: Round)
    ensures q.vitals == Damage(r.vitals).after
    ensures q.alive == (r.alive && !Damage(r.vitals).dead)
    ensures q.world == r.world.(explosions := q.world.explosions)
    ensures q.world.explosions == r.world.explosions + (if Damage(r.vitals).dead then [Boom(p)] else [])
  {
    var h := Damage(r.vitals);
    Round(r.world.(explosions := r.world.explosions + (if h.dead then [Boom(p)] else [])),
          h.after, r.alive && !h.dead)
  }

  /** A hit keeps the round well formed and costs at most one life. */
  lemma HitPlayerKeeps(r: Round, p: Sprite)
    ensures RoundOk(r) ==> RoundOk(HitPlayer(r, p))
    ensures Follows(r, HitPlayer(r, p))
  {
  }

  /** The topmost (last) enemy the shot overlaps, as the inner reverse loop
      with `break` finds it. */
  function LastHit(es: seq<Enemy>, shot: Sprite): (r: Option<nat>)
    ensures r.None? <==> forall k :: 0 <= k < |es| ==> !shot.CollidesWith(es[k].body)
    ensures r.Some? ==> r.value < |es| && shot.CollidesWith(es[r.value].body)
    ensures r.Some? ==> forall k :: r.value < k < |es| ==> !shot.CollidesWith(es[k].body)
    decreases |es|
  {
    if es == [] then None
    else if shot.CollidesWith(es[|es| - 1].body) then Some(|es| - 1)
    else
      var r := LastHit(es[..|es| - 1], shot);
      assert forall k :: 0 <= k < |es| - 1 ==> es[..|es| - 1][k] == es[k];
      r
  }

  /** The enemy the inner loop stops at is the one `LastHit` names: it
      overlaps the shot and no later enemy does. */
  lemma LastHitIsLast(es: seq<Enemy>, shot: Sprite, j: nat)
    requires j < |es| && shot.CollidesWith(es[j].body)
    requires forall k :: j < k < |es| ==> !shot.CollidesWith(es[k].body)
    ensures LastHit(es, shot) == Some(j)
  {
  }

  /** A kill: score at the current combo, then grow the combo and restart its
      timer, an explosion at the enemy, a power-up dropped with chance
      `DropChance(d)` (one draw for the chance, one for the kind), and the
      enemy removed. */
  function Kill(w: World, j: nat, e: Enemy, p: Sprite, d: real, random: nat -> real): (r: World)
    requires j < |w.enemies| && IsRandomSource(random)
    ensures r.score == w.score + ScoreGain(e.score as real, w.combo)
    ensures r.combo == w.combo + 1 && r.comboTimer == ComboTimeout
    ensures r.enemies == Remove(w.enemies, j) && r.bullets == w.bullets
    ensures r.explosions == w.explosions + [Boom(e.body)]
    ensures |r.messages| == |w.messages| + 1
    ensures r.cursor == w.cursor + (if random(w.cursor) < DropChance(d) then 2 else 1)
    ensures |r.powerUps| == |w.powerUps| + (if random(w.cursor) < DropChance(d) then 1 else 0)
  {
    Loot(Credit(w, e, p), e.body, d, random).(enemies := Remove(w.enemies, j))
  }

  /** What a kill earns before the drop: the score at the current combo, the
      combo grown and its timer restarted, and an explosion at the enemy. */
  function Credit(w: World, e: Enemy, p: Sprite): (r: World)
    ensures r.score == w.score + ScoreGain(e.score as real, w.combo)
    ensures r.combo == w.combo + 1 && r.comboTimer == ComboTimeout
    ensures r.explosions == w.explosions + [Boom(e.body)]
    ensures r == w.(score := r.score, combo := r.combo, comboTimer := r.comboTimer,
                    explosions := r.explosions, messages := r.messages)
  {
    IncreaseScore(w, e.score as real, p).(combo := w.combo + 1, comboTimer := ComboTimeout,
                                          explosions := w.explosions + [Boom(e.body)])
  }

  /** The drop of a kill: with chance `DropChance(d)` a power-up of a kind
      chosen by weight, centred on the enemy's sprite s; one draw for the
      chance and one more for the kind. */
  function Loot(w: World, s: Sprite, d: real, random: nat -> real): (r: World)
    requires IsRandomSource(random)
    ensures r == w.(powerUps := r.powerUps, cursor := r.cursor)
    ensures r.cursor == w.cursor + (if random(w.cursor) < DropChance(d) then 2 else 1)
    ensures |r.powerUps| == |w.powerUps| + (if random(w.cursor) < DropChance(d) then 1 else 0)
    ensures r.powerUps[..|w.powerUps|] == w.powerUps
    ensures PowerUpsOk(w.powerUps) ==> PowerUpsOk(r.powerUps)
  {
    var c := w.cursor;
    if random(c) < DropChance(d) then
      var drop := NewPowerUp(s.x + s.width / 2.0 - 10.0, s.y + s.height / 2.0 - 10.0, KindForRoll(random(c + 1) * 100.0));
      w.(powerUps := w.powerUps + [drop], cursor := c + 2)
    else
      w.(cursor := c + 1)
  }

  lemma KillKeeps(w: World, j: nat, e: Enemy, p: Sprite, d: real, random: nat -> real)
    requires j < |w.enemies| && IsRandomSource(random) && WorldOk(w)
    ensures WorldOk(Kill(w, j, e, p, d, random))
  {
    IncreaseScoreKeeps(w, e.score as real, p);
  }

  /** The outer loop of the first collision pass for bullet i. */
  function Strike(w: World, i: nat, p: Sprite, d: real, random: nat -> real): (r: World)
    requires i < |w.bullets| && IsRandomSource(random)
    ensures r.bullets == w.bullets || r.bullets == Remove(w.bullets, i)
    ensures |r.enemies| <= |w.enemies|
  {
    var b := w.bullets[i];
    if b.owner != PlayerOwned then w
    else match LastHit(w.enemies, b.body)
      case None => w
      case Some(j) =>
        var hit := w.enemies[j].TakeDamage(b.damage);
        var spent := w.(bullets := Remove(w.bullets, i));
        if hit.dead then Kill(spent, j, hit.enemy, p, d, random)
        else spent.(enemies := w.enemies[j := hit.enemy])
  }

  /** A player bullet that overlaps an enemy is used up, and it damages only
      the last enemy it overlaps, which is removed exactly when the hit
      killed it; any other bullet changes nothing. */
  lemma StrikeEffect(w: World, i: nat, p: Sprite, d: real, random: nat -> real)
    requires i < |w.bullets| && IsRandomSource(random)
    ensures var b := w.bullets[i]; var r := Strike(w, i, p, d, random);
      && ((b.owner == PlayerOwned && LastHit(w.enemies, b.body).Some?) <==> r.bullets == Remove(w.bullets, i))
      && (r.bullets == w.bullets ==> r == w)
    ensures var b := w.bullets[i]; var j := LastHit(w.enemies, b.body); var r := Strike(w, i, p, d, random);
      b.owner == PlayerOwned && j.Some? ==>
        var hit := w.enemies[j.value].TakeDamage(b.damage);
        && (hit.dead <==> |r.enemies| == |w.enemies| - 1)
        && (hit.dead ==> r == Kill(w.(bullets := Remove(w.bullets, i)), j.value, hit.enemy, p, d, random))
        && (!hit.dead ==> r == w.(bullets := Remove(w.bullets, i), enemies := w.enemies[j.value := hit.enemy])
                          && r.enemies[j.value].health == w.enemies[j.value].health - b.damage)
  {
    assert forall s: seq<Bullet> :: |s| > i ==> |Remove(s, i)| != |s|;
  }

  lemma StrikeKeeps(w: World, i: nat, p: Sprite, d: real, random: nat -> real)
    requires i < |w.bullets| && IsRandomSource(random) && WorldOk(w)
    ensures WorldOk(Strike(w, i, p, d, random))
  {
    var b := w.bullets[i];
    assert b in w.bullets;
    if b.owner == PlayerOwned && LastHit(w.enemies, b.body).Some? {
      var j := LastHit(w.enemies, b.body).value;
      var hit := w.enemies[j].TakeDamage(b.damage);
      var spent := w.(bullets := Remove(w.bullets, i));
      assert WorldOk(spent);
      if hit.dead {
        KillKeeps(spent, j, hit.enemy, p, d, random);
      } else {
        assert w.enemies[j] in w.enemies;
        assert forall x :: x in w.enemies[j := hit.enemy] ==> x == hit.enemy || x in w.enemies;
      }
    }
  }

  /** The first collision pass from bullet i - 1 down to 0. */
  function StrikeFrom(w: World, i: nat, p: Sprite, d: real, random: nat -> real): (r: World)
    requires i <= |w.bullets| && IsRandomSource(random)
    ensures |r.enemies| <= |w.enemies| && |r.bullets| <= |w.bullets|
    decreases i
  {
    if i == 0 then w else StrikeFrom(Strike(w, i - 1, p, d, random), i - 1, p, d, random)
  }

  lemma {:induction false} StrikeFromKeeps(w: World, i: nat, p: Sprite, d: real, random: nat -> real)
    requires i <= |w.bullets| && IsRandomSource(random) && WorldOk(w)
    ensures WorldOk(StrikeFrom(w, i, p, d, random))
    decreases i
  {
    if i > 0 {
      StrikeKeeps(w, i - 1, p, d, random);
      StrikeFromKeeps(Strike(w, i - 1, p, d, random), i - 1, p, d, random);
    }
  }

  /** The second pass for bullet i: an enemy bullet that overlaps the player
      hits the player and is used up. */
  function EnemyFire(r: Round, i: nat, p: Sprite): (q: Round)
    requires i < |r.world.bullets|
    ensures q.world.bullets == r.world.bullets || q.world.bullets == Remove(r.world.bullets, i)
  {
    var b := r.world.bullets[i];
    if b.owner == EnemyOwned && b.body.CollidesWith(p) then
      var h := HitPlayer(r, p);
      h.(world := h.world.(bullets := Remove(r.world.bullets, i)))
    else r
  }

  /** An enemy bullet hit keeps the round well formed, costs at most one
      life, and changes only bullets, explosions and the player. */
  lemma EnemyFireKeeps(r: Round, i: nat, p: Sprite)
    requires i < |r.world.bullets|
    ensures var q := EnemyFire(r, i, p);
      && (RoundOk(r) ==> RoundOk(q)) && Follows(r, q)
      && q.world == r.world.(bullets := q.world.bullets, explosions := q.world.explosions)
  {
    HitPlayerKeeps(r, p);
  }

  /** Bullet i is used up exactly when it is an enemy bullet overlapping the
      player; then the player takes one hit (and explodes if it was the
      last life), and otherwise nothing changes. */
  lemma EnemyFireEffect(r: Round, i: nat, p: Sprite)
    requires i < |r.world.bullets|
    ensures var b := r.world.bullets[i]; var q := EnemyFire(r, i, p);
      && ((b.owner == EnemyOwned && b.body.CollidesWith(p)) <==> q.world.bullets == Remove(r.world.bullets, i))
      && (q.world.bullets == r.world.bullets ==> q == r)
    ensures var b := r.world.bullets[i]; var q := EnemyFire(r, i, p); var h := Damage(r.vitals);
      b.owner == EnemyOwned && b.body.CollidesWith(p) ==>
        && q.vitals == h.after && q.alive == (r.alive && !h.dead)
        && q.world.explosions == r.world.explosions + (if h.dead then [Boom(p)] else [])
  {
    assert |Remove(r.world.bullets, i)| != |r.world.bullets|;
  }

  /** The second pass from bullet i - 1 down to 0. */
  function FireFrom(r: Round, i: nat, p: Sprite): (q: Round)
    requires i <= |r.world.bullets|
    ensures q.world.enemies == r.world.enemies && |q.world.bullets| <= |r.world.bullets|
    decreases i
  {
    if i == 0 then r else FireFrom(EnemyFire(r, i - 1, p), i - 1, p)
  }

  lemma {:induction false} FireFromKeeps(r: Round, i: nat, p: Sprite)
    requires i <= |r.world.bullets|
    ensures var q := FireFrom(r, i, p);
      && (RoundOk(r) ==> RoundOk(q)) && Follows(r, q)
      && q.world == r.world.(bullets := q.world.bullets, explosions := q.world.explosions)
    decreases i
  {
    if i > 0 {
      var next := EnemyFire(r, i - 1, p);
      EnemyFireKeeps(r, i - 1, p);
      FireFromKeeps(next, i - 1, p);
      FollowsIsTransitive(r, next, FireFrom(next, i - 1, p));
    }
  }

  /** The third pass for enemy i: an enemy that overlaps the player hits the
      player and is destroyed with an explosion. */
  function Ram(r: Round, i: nat, p: Sprite): (q: Round)
    requires i < |r.world.enemies|
    ensures q.world.enemies == r.world.enemies || q.world.enemies == Remove(r.world.enemies, i)
  {
    var e := r.world.enemies[i];
    if e.body.CollidesWith(p) then
      var w := r.world.(explosions := r.world.explosions + [Boom(e.body)], enemies := Remove(r.world.enemies, i));
      HitPlayer(r.(world := w), p)
    else r
  }

  /** A ramming keeps the round well formed, costs at most one life, and
      changes only enemies, explosions and the player. */
  lemma RamKeeps(r: Round, i: nat, p: Sprite)
    requires i < |r.world.enemies|
    ensures var q := Ram(r, i, p);
      && (RoundOk(r) ==> RoundOk(q)) && Follows(r, q)
      && q.world == r.world.(enemies := q.world.enemies, explosions := q.world.explosions)
  {
    var e := r.world.enemies[i];
    var w := r.world.(explosions := r.world.explosions + [Boom(e.body)], enemies := Remove(r.world.enemies, i));
    HitPlayerKeeps(r.(world := w), p);
  }

  /** Enemy i is destroyed exactly when it overlaps the player; then it
      explodes, the player takes one hit (and explodes too if it was the
      last life), and otherwise nothing changes. */
  lemma RamEffect(r: Round, i: nat, p: Sprite)
    requires i < |r.world.enemies|
    ensures var e := r.world.enemies[i]; var q := Ram(r, i, p);
      && (e.body.CollidesWith(p) <==> q.world.enemies == Remove(r.world.enemies, i))
      && (q.world.enemies == r.world.enemies ==> q == r)
    ensures var e := r.world.enemies[i]; var q := Ram(r, i, p); var h := Damage(r.vitals);
      e.body.CollidesWith(p) ==>
        && q.vitals == h.after && q.alive == (r.alive && !h.dead)
        && q.world.explosions == r.world.explosions + [Boom(e.body)] + (if h.dead then [Boom(p)] else [])
  {
    assert |Remove(r.world.enemies, i)| != |r.world.enemies|;
  }

  /** The third pass from enemy i - 1 down to 0. */
  function RamFrom(r: Round, i: nat, p: Sprite): (q: Round)
    requires i <= |r.world.enemies|
    ensures q.world.bullets == r.world.bullets && |q.world.enemies| <= |r.world.enemies|
    decreases i
  {
    if i == 0 then r else RamFrom(Ram(r, i - 1, p), i - 1, p)
  }

  lemma {:induction false} RamFromKeeps(r: Round, i: nat, p: Sprite)
    requires i <= |r.world.enemies|
    ensures var q := RamFrom(r, i, p);
      && (RoundOk(r) ==> RoundOk(q)) && Follows(r, q)
      && q.world == r.world.(enemies := q.world.enemies, explosions := q.world.explosions)
    decreases i
  {
    if i > 0 {
      var next := Ram(r, i - 1, p);
      RamKeeps(r, i - 1, p);
      RamFromKeeps(next, i - 1, p);
      FollowsIsTransitive(r, next, RamFrom(next, i - 1, p));
    }
  }

  /** The bullets a bomb spares: the player's own, in their original order. */
  function PlayerBullets(bs: seq<Bullet>): (r: seq<Bullet>)
    ensures |r| <= |bs|
    ensures forall b :: b in r ==> b in bs && b.owner == PlayerOwned
    ensures forall b :: b in bs && b.owner == PlayerOwned ==> b in r
  {
    if bs == [] then []
    else
      var rest := PlayerBullets(bs[1..]);
      assert forall x :: x in bs ==> x == bs[0] || x in bs[1..];
      if bs[0].owner == PlayerOwned then [bs[0]] + rest else rest
  }

  /** The filter keeps order: filtering a concatenation filters each part. */
  lemma {:induction false} PlayerBulletsKeepsOrder(a: seq<Bullet>, b: seq<Bullet>)
    ensures PlayerBullets(a + b) == PlayerBullets(a) + PlayerBullets(b)
    decreases |a|
  {
    if a != [] {
      assert (a + b)[1..] == a[1..] + b;
      PlayerBulletsKeepsOrder(a[1..], b);
    } else {
      assert a + b == b;
    }
  }

  /** The points a bomb earns: half of each enemy's score at the current combo. */
  function BombPoints(es: seq<Enemy>, combo: int): int
    decreases |es|
  {
    if es == [] then 0
    else BombPoints(es[..|es| - 1], combo) + ScoreGain(es[|es| - 1].score as real / 2.0, combo)
  }

  /** The sweep of the bomb from enemy j - 1 down to 0: an explosion and half
      the enemy's score (and its score message) for each. */
  function BlastFrom(w: World, j: nat, p: Sprite): World
    requires j <= |w.enemies|
    decreases j
  {
    if j == 0 then w
    else BlastFrom(Blast(w, w.enemies[j - 1], p), j - 1, p)
  }

  /** What the bomb does for one enemy e: an explosion over it and half its
      score, with the score message. */
  function Blast(w: World, e: Enemy, p: Sprite): (r: World)
    ensures r.enemies == w.enemies && r.bullets == w.bullets && r.powerUps == w.powerUps
    ensures r.explosions == w.explosions + [Boom(e.body)]
  {
    IncreaseScore(w.(explosions := w.explosions + [Boom(e.body)]), e.score as real / 2.0, p)
  }

  lemma {:induction false} BlastFromEffect(w: World, j: nat, p: Sprite)
    requires j <= |w.enemies|
    ensures var r := BlastFrom(w, j, p);
      && r.score == w.score + BombPoints(w.enemies[..j], w.combo)
      && r == w.(score := r.score, explosions := r.explosions, messages := r.messages)
      && |r.explosions| == |w.explosions| + j && |r.messages| == |w.messages| + j
      && (WorldOk(w) ==> WorldOk(r))
    decreases j
  {
    if j > 0 {
      var e := w.enemies[j - 1];
      var lit := w.(explosions := w.explosions + [Boom(e.body)]);
      var next := Blast(w, e, p);
      if WorldOk(w) {
        IncreaseScoreKeeps(lit, e.score as real / 2.0, p);
      }
      BlastFromEffect(next, j - 1, p);
      assert w.enemies[..j][..j - 1] == w.enemies[..j - 1];
    }
  }

  /** The bomb: every enemy explodes for half its score, the enemies are gone
      and only the player's bullets remain. */
  function Detonate(w: World, p: Sprite): (r: World)
    ensures r.enemies == [] && |r.bullets| <= |w.bullets|
  {
    BlastFrom(w, |w.enemies|, p).(enemies := [], bullets := PlayerBullets(w.bullets))
  }

  /** A bomb empties the enemies, earns half of every enemy's score at the
      unchanged combo, spares exactly the player's bullets, adds one
      explosion per enemy, and keeps the world well formed. */
  lemma DetonateEffect(w: World, p: Sprite)
    ensures var r := Detonate(w, p);
      && r.enemies == [] && r.bullets == PlayerBullets(w.bullets)
      && r.score == w.score + BombPoints(w.enemies, w.combo)
      && r.combo == w.combo && r.comboTimer == w.comboTimer
      && r.powerUps == w.powerUps && r.cursor == w.cursor
      && |r.explosions| == |w.explosions| + |w.enemies|
      && (WorldOk(w) ==> WorldOk(r))
  {
    BlastFromEffect(w, |w.enemies|, p);
    assert w.enemies[..|w.enemies|] == w.enemies;
  }

  /** The fourth pass for power-up i: a power-up that overlaps the player
      applies its effect, a bomb also clears the field, an effect message goes
      up above the player, and the power-up is used up. */
  function Pickup(r: Round, i: nat, p: Sprite): (q: Round)
    requires i < |r.world.powerUps|
    ensures q.world.powerUps == r.world.powerUps || q.world.powerUps == Remove(r.world.powerUps, i)
    ensures |q.world.enemies| <= |r.world.enemies| && |q.world.bullets| <= |r.world.bullets|
  {
    var u := r.world.powerUps[i];
    if u.body.CollidesWith(p) then
      var cleared := if u.kind == Bomb then Detonate(r.world, p) else r.world;
      var told := cleared.(messages := cleared.messages + [NewMessage(p.x + p.width / 2.0, p.y - 20.0, EffectDuration as real)],
                           powerUps := Remove(r.world.powerUps, i));
      Round(told, Boost(r.vitals, u.kind), r.alive)
    else r
  }

  /** A pickup applies `Boost`, is used up, and clears the field exactly when
      it is a bomb; it keeps the round well formed and costs no life. */
  lemma PickupKeeps(r: Round, i: nat, p: Sprite)
    requires i < |r.world.powerUps|
    ensures var u := r.world.powerUps[i]; var q := Pickup(r, i, p);
      && (u.body.CollidesWith(p) ==>
            && q.vitals == Boost(r.vitals, u.kind) && q.alive == r.alive
            && q.world.powerUps == Remove(r.world.powerUps, i)
            && (u.kind == Bomb ==> q.world.enemies == [] && q.world.bullets == PlayerBullets(r.world.bullets)
                                   && q.world.score == r.world.score + BombPoints(r.world.enemies, r.world.combo))
            && (u.kind != Bomb ==> q.world.enemies == r.world.enemies && q.world.bullets == r.world.bullets
                                   && q.world.score == r.world.score))
      && (!u.body.CollidesWith(p) ==> q == r)
      && q.world.combo == r.world.combo && q.world.comboTimer == r.world.comboTimer
      && q.world.cursor == r.world.cursor
      && (RoundOk(r) ==> RoundOk(q)) && Follows(r, q)
  {
    DetonateEffect(r.world, p);
    var u := r.world.powerUps[i];
    if RoundOk(r) {
      assert u in r.world.powerUps;
    }
  }

  /** The fourth pass from power-up i - 1 down to 0. */
  function PickupFrom(r: Round, i: nat, p: Sprite): (q: Round)
    requires i <= |r.world.powerUps|
    ensures |q.world.enemies| <= |r.world.enemies| && |q.world.bullets| <= |r.world.bullets|
    ensures |q.world.powerUps| <= |r.world.powerUps|
    decreases i
  {
    if i == 0 then r else PickupFrom(Pickup(r, i - 1, p), i - 1, p)
  }

  lemma {:induction false} PickupFromKeeps(r: Round, i: nat, p: Sprite)
    requires i <= |r.world.powerUps|
    ensures var q := PickupFrom(r, i, p);
      && (RoundOk(r) ==> RoundOk(q)) && Follows(r, q)
      && q.world.combo == r.world.combo && q.world.comboTimer == r.world.comboTimer
      && q.world.cursor == r.world.cursor
    decreases i
  {
    if i > 0 {
      var next := Pickup(r, i - 1, p);
      PickupKeeps(r, i - 1, p);
      PickupFromKeeps(next, i - 1, p);
      FollowsIsTransitive(r, next, PickupFrom(next, i - 1, p));
    }
  }

  /** `checkCollisions` on an active player: the four passes in order. */
  function Collide(r: Round, p: Sprite, d: real, random: nat -> real): (q: Round)
    requires IsRandomSource(random)
    ensures |q.world.enemies| <= |r.world.enemies| && |q.world.bullets| <= |r.world.bullets|
  {
    var r1 := r.(world := StrikeFrom(r.world, |r.world.bullets|, p, d, random));
    var r2 := FireFrom(r1, |r1.world.bullets|, p);
    var r3 := RamFrom(r2, |r2.world.enemies|, p);
    PickupFrom(r3, |r3.world.powerUps|, p)
  }

  /** One `checkCollisions` keeps the world and the player well formed, and
      the player loses at most one life in it and is invincible if it did. */
  lemma CollideKeeps(r: Round, p: Sprite, d: real, random: nat -> real)
    requires IsRandomSource(random) && RoundOk(r)
    ensures RoundOk(Collide(r, p, d, random))
    ensures Follows(r, Collide(r, p, d, random))
  {
    var r1 := r.(world := StrikeFrom(r.world, |r.world.bullets|, p, d, random));
    StrikeFromKeeps(r.world, |r.world.bullets|, p, d, random);
    var r2 := FireFrom(r1, |r1.world.bullets|, p);
    FireFromKeeps(r1, |r1.world.bullets|, p);
    var r3 := RamFrom(r2, |r2.world.enemies|, p);
    RamFromKeeps(r2, |r2.world.enemies|, p);
    var r4 := PickupFrom(r3, |r3.world.powerUps|, p);
    PickupFromKeeps(r3, |r3.world.powerUps|, p);
    FollowsIsTransitive(r1, r2, r3);
    FollowsIsTransitive(r1, r3, r4);
  }

  // ---------------------------------------------------------------------
  // One frame of `update`

  /** The combo part of `update`: while a combo runs, its timer drops by dt,
      and the combo ends once the timer runs out. */
  function ComboStep(w: World, dt: real): (r: World)
    ensures w.combo > 0 ==> r.comboTimer == w.comboTimer - dt && r.combo == (if r.comboTimer <= 0.0 then 0 else w.combo)
    ensures w.combo <= 0 ==> r == w
    ensures r == w.(combo := r.combo, comboTimer := r.comboTimer)
    ensures WorldOk(w) ==> WorldOk(r)
  {
    if w.combo > 0 then
      var timer := w.comboTimer - dt;
      w.(comboTimer := timer, combo := if timer <= 0.0 then 0 else w.combo)
    else
      w
  }

  /** `updateEnemies` on the world: the enemy wave (when its timer ran out)
      and the reverse pass over all enemies. */
  function EnemyPhase(w: World, dt: real, width: int, height: int, d: real, math: MathLib,
                      random: nat -> real, spawnDue: bool): World
    requires IsRandomSource(random)
  {
    var spawned := if spawnDue then Spawned(w, Repeats(SpawnCount(d)), width, d, random) else w;
    EnemiesFrom(spawned, |spawned.enemies|, dt, width as real, height as real, math, random)
  }

  /** The enemy phase keeps the world well formed, never draws back on the
      random stream, and leaves the score and the combo alone. */
  lemma EnemyPhaseKeeps(w: World, dt: real, width: int, height: int, d: real, math: MathLib,
                        random: nat -> real, spawnDue: bool)
    requires IsRandomSource(random)
    ensures var r := EnemyPhase(w, dt, width, height, d, math, random, spawnDue);
      && r.score == w.score && r.combo == w.combo && r.comboTimer == w.comboTimer
      && r.cursor >= w.cursor
      && (WorldOk(w) ==> WorldOk(r))
  {
    var spawned := if spawnDue then Spawned(w, Repeats(SpawnCount(d)), width, d, random) else w;
    if spawnDue && WorldOk(w) {
      SpawnedKeeps(w, Repeats(SpawnCount(d)), width, d, random);
    }
    EnemiesFromKeeps(spawned, |spawned.enemies|, dt, width as real, height as real, math, random);
  }

  /** The updates after `updateEnemies`: the bullet pass with homing bullets
      aimed at the target, the power-up drop (when its timer ran out) and the
      power-up pass, the explosions and the messages, in that order. */
  function ListPhases(w: World, dt: real, width: int, height: int, target: Sprite, math: MathLib,
                      random: nat -> real, dropDue: bool): World
    requires IsRandomSource(random)
  {
    var dropped := w.powerUps + (if dropDue then [DropIn(width, w.cursor, random)] else []);
    w.(bullets := MoveBullets(w.bullets, dt, Some(target), math, width as real, height as real),
       powerUps := MovePowerUps(dropped, dt, height as real),
       cursor := w.cursor + (if dropDue then 2 else 0),
       explosions := FadeExplosions(w.explosions, dt),
       messages := TickMessages(w.messages, dt))
  }

  /** The list phases keep the world well formed, leave the enemies, the
      score and the combo alone, and draw twice exactly when a power-up drops. */
  lemma ListPhasesKeep(w: World, dt: real, width: int, height: int, target: Sprite, math: MathLib,
                       random: nat -> real, dropDue: bool)
    requires IsRandomSource(random)
    ensures var r := ListPhases(w, dt, width, height, target, math, random, dropDue);
      && r.enemies == w.enemies && r.score == w.score && r.combo == w.combo && r.comboTimer == w.comboTimer
      && r.cursor == w.cursor + (if dropDue then 2 else 0)
      && (WorldOk(w) && math.Valid() ==> WorldOk(r))
  {
    var dropped := w.powerUps + (if dropDue then [DropIn(width, w.cursor, random)] else []);
    if WorldOk(w) && math.Valid() {
      MoveBulletsFilters(w.bullets, dt, Some(target), math, width as real, height as real);
      assert forall p :: p in dropped ==> p in w.powerUps || p == DropIn(width, w.cursor, random);
      MovePowerUpsFilters(dropped, dt, height as real);
      FadeExplosionsFilters(w.explosions, dt);
      TickMessagesFilters(w.messages, dt);
    }
  }

  /** The entity part of `update`: the enemy phase, then the list phases. */
  function EntityPass(w: World, dt: real, width: int, height: int, d: real, target: Sprite,
                      math: MathLib, random: nat -> real, spawnDue: bool, dropDue: bool): World
    requires IsRandomSource(random)
  {
    ListPhases(EnemyPhase(w, dt, width, height, d, math, random, spawnDue), dt, width, height, target, math,
               random, dropDue)
  }

  /** The world `update` hands to the entity pass: the combo step, then the
      player's volley (if it fired one) appended to the bullets. */
  function Primed(w: World, dt: real, volley: seq<Bullet>): World {
    ComboStep(w, dt).(bullets := w.bullets + volley)
  }

  /** `update` up to the collisions, on the world at its start: the primed
      world and the entity pass. */
  function Frame(w: World, dt: real, width: int, height: int, d: real, target: Sprite, volley: seq<Bullet>,
                 math: MathLib, random: nat -> real, spawnDue: bool, dropDue: bool): World
    requires IsRandomSource(random)
  {
    EntityPass(Primed(w, dt, volley), dt, width, height, d, target, math, random, spawnDue, dropDue)
  }

  /** A frame with a well-formed volley keeps the world well formed and the
      score as it was. */
  lemma FrameKeeps(w: World, dt: real, width: int, height: int, d: real, target: Sprite, volley: seq<Bullet>,
                   math: MathLib, random: nat -> real, spawnDue: bool, dropDue: bool)
    requires IsRandomSource(random)
    ensures var r := Frame(w, dt, width, height, d, target, volley, math, random, spawnDue, dropDue);
      && r.score == w.score && r.cursor >= w.cursor
      && (WorldOk(w) && BulletsOk(volley) && math.Valid() ==> WorldOk(r))
  {
    var c := Primed(w, dt, volley);
    EnemyPhaseKeeps(c, dt, width, height, d, math, random, spawnDue);
    ListPhasesKeep(EnemyPhase(c, dt, width, height, d, math, random, spawnDue), dt, width, height, target, math,
                   random, dropDue);
    if WorldOk(w) && BulletsOk(volley) {
      assert forall b :: b in w.bullets + volley ==> b in w.bullets || b in volley;
    }
  }
}

/** js/game.js: the `Game` object that owns the player and every list of
    entities, advances them once per frame and resolves their collisions.
    Each method is proved against the rules of module `GameRules`. */
module Games {
  import opened Utils
  import opened Sprites
  import opened Bullets
  import opened Enemies
  import opened Players
  import opened PowerUps
  import opened GameRules

  class Game {
    /** The canvas size, taken from the window. */
    var width: int
    var height: int
    var isRunning: bool
    var isPaused: bool
    var gameTime: real
    var score: int
    var combo: int
    var comboTimer: real
    var difficulty: real
    var player: Player
    var enemies: seq<Enemy>
    var bullets: seq<Bullet>
    var powerUps: seq<PowerUp>
    var explosions: seq<Sprite>
    var messages: seq<Message>
    var enemySpawnTimer: real
    var powerUpSpawnTimer: real
    /** The values successive calls of `Math.random` return, and how many of
        them have been used. */
    const random: nat -> real
    var drawn: nat
    /** The `Math` functions the entities use. */
    const math: MathLib

    /** The world the rules act on. */
    ghost function Scene(): World
      reads this
    {
      World(enemies, bullets, powerUps, explosions, messages, score, combo, comboTimer, drawn)
    }

    /** The world with the player's vitals and `active` flag. */
    ghost function Standing(): Round
      reads this, player
    {
      Round(Scene(), player.State(), player.body.active)
    }

    /** The volley `update` fires from the state at its start: the moved
        player's volley when it is shooting and its cooldown, counted down by
        the move, is over; otherwise none. */
    ghost function DueVolley(dt: real): seq<Bullet>
      reads this`width, this`height, this`player
      reads player`body, player`keyboardControl, player`moveUp, player`moveDown, player`moveLeft, player`moveRight,
            player`touchX, player`isShooting, player`fireTimer, player`firepower
    {
      if player.isShooting && player.fireTimer <= 1 then
        Players.Volley(player.Flight(dt, width as real, height as real), player.firepower)
      else
        []
    }

    /** What every operation keeps: a well-behaved random source and `Math`,
        a valid player with a life left while active, the difficulty the game
        time calls for, and a well-formed world. */
    ghost predicate Valid()
      reads this, player
    {
      && IsRandomSource(random) && math.Valid()
      && player.Valid() && VitalsOk(player.State(), player.body.active)
      && difficulty == Difficulty(gameTime)
      && WorldOk(Scene())
    }

    /** The game's own state as `init` resets it. */
    ghost predicate Cleared(windowWidth: int, windowHeight: int)
      reads this
    {
      && width == windowWidth && height == windowHeight
      && gameTime == 0.0 && score == 0 && combo == 0 && comboTimer == 0.0 && difficulty == 0.0
      && enemies == [] && bullets == [] && powerUps == [] && explosions == [] && messages == []
      && enemySpawnTimer == 60.0 && powerUpSpawnTimer == 600.0
    }

    /** The state `init` leaves behind, apart from the running flags: the game
        reset and a new player near the bottom centre. */
    ghost predicate Ready(windowWidth: int, windowHeight: int)
      reads this, player
    {
      && Cleared(windowWidth, windowHeight)
      && player.body == NewSprite(windowWidth as real / 2.0 - 15.0, windowHeight as real - 80.0, 30.0, 30.0)
      && player.State() == Vitals(3, 1, false, 0, false, 0)
    }

    /** `new Game(canvas)`: the constructor followed by `init`, with the
        window size, the random stream and `Math` passed in. */
    constructor (windowWidth: int, windowHeight: int, random: nat -> real, math: MathLib)
      requires IsRandomSource(random) && math.Valid()
      ensures Valid() && Ready(windowWidth, windowHeight) && !isRunning && !isPaused
      ensures this.random == random && this.math == math && drawn == 0
    {
      this.random := random;
      this.math := math;
      drawn := 0;
      width, height := windowWidth, windowHeight;
      isRunning, isPaused := false, false;
      gameTime, score, combo, comboTimer, difficulty := 0.0, 0, 0, 0.0, 0.0;
      enemies, bullets, powerUps, explosions, messages := [], [], [], [], [];
      enemySpawnTimer, powerUpSpawnTimer := 60.0, 600.0;
      player := new Player(windowWidth as real / 2.0 - 15.0, windowHeight as real - 80.0, 30.0, 30.0);
    }

    /** `init`: resize to the window, a fresh player, everything reset. */
    method Init(windowWidth: int, windowHeight: int)
      requires IsRandomSource(random) && math.Valid()
      modifies this
      ensures Valid() && Ready(windowWidth, windowHeight) && !isRunning && !isPaused
      ensures fresh(player) && drawn == old(drawn)
    {
      ResetState(windowWidth, windowHeight);
      ClearLists();
      assert Scene() == World([], [], [], [], [], 0, 0, 0.0, drawn);
      player := new Player(windowWidth as real / 2.0 - 15.0, windowHeight as real - 80.0, 30.0, 30.0);
    }

    /** The resetting part of `init`: the canvas size, the flags, the clock,
        score and combo, and the spawn timers. */
    method ResetState(windowWidth: int, windowHeight: int)
      modifies this`width, this`height, this`isRunning, this`isPaused, this`gameTime, this`score,
               this`combo, this`comboTimer, this`difficulty, this`enemySpawnTimer, this`powerUpSpawnTimer
      ensures width == windowWidth && height == windowHeight && !isRunning && !isPaused
      ensures gameTime == 0.0 && score == 0 && combo == 0 && comboTimer == 0.0 && difficulty == 0.0
      ensures enemySpawnTimer == 60.0 && powerUpSpawnTimer == 600.0
    {
      width, height := windowWidth, windowHeight;
      isRunning, isPaused := false, false;
      gameTime, score, combo, comboTimer, difficulty := 0.0, 0, 0, 0.0, 0.0;
      enemySpawnTimer, powerUpSpawnTimer := 60.0, 600.0;
    }

    /** The clearing part of `init`: every entity list emptied. */
    method ClearLists()
      modifies this`enemies, this`bullets, this`powerUps, this`explosions, this`messages
      ensures enemies == [] && bullets == [] && powerUps == [] && explosions == [] && messages == []
    {
      enemies, bullets, powerUps, explosions, messages := [], [], [], [], [];
    }

    /** `start`: a game that is not running is reset and set running. */
    method Start(windowWidth: int, windowHeight: int)
      requires Valid()
      modifies this
      ensures Valid()
      ensures old(isRunning) ==> unchanged(this)
      ensures !old(isRunning) ==> Ready(windowWidth, windowHeight) && isRunning && !isPaused && fresh(player)
    {
      if !isRunning {
        Init(windowWidth, windowHeight);
        isRunning := true;
        isPaused := false;
      }
    }

    /** `pause`: toggles pausing, but only while running. */
    method Pause()
      modifies this`isPaused
      ensures isPaused == if isRunning then !old(isPaused) else old(isPaused)
    {
      if isRunning {
        isPaused := !isPaused;
      }
    }

    /** `handleInput`: forwarded to the player only while the game is live. */
    method HandleInput(x: real, y: real, shooting: bool)
      modifies player`touchX, player`touchY, player`keyboardControl
      ensures isRunning && !isPaused ==> player.touchX == Some(x) && player.touchY == Some(y) && !player.keyboardControl
      ensures !(isRunning && !isPaused) ==> unchanged(player)
    {
      if isRunning && !isPaused {
        player.HandleInput(x, y, shooting);
      }
    }

    /** `update(dt)`: nothing while stopped or paused; otherwise advance the
        clock and the difficulty, run the combo timer down, move the player
        and let it shoot, advance every list and resolve the collisions. The
        player loses at most one life per frame. */
    method Update(dt: real)
      requires Valid()
      modifies this, player
      ensures Valid() && player == old(player)
      ensures !old(isRunning) || old(isPaused) ==> unchanged(this) && unchanged(player)
      ensures old(isRunning) && !old(isPaused) ==>
        gameTime == old(gameTime) + dt && difficulty == Difficulty(old(gameTime) + dt)
      ensures isRunning == old(isRunning) && isPaused == old(isPaused)
      ensures width == old(width) && height == old(height)
      ensures player.lives >= old(player.lives) - 1
      ensures player.lives < old(player.lives) ==> player.invincible
      ensures old(isRunning) && !old(isPaused) ==>
        var moved := old(player.Flight(dt, width as real, height as real));
        var r := Round(Frame(old(Scene()), dt, width, height, difficulty, moved, old(DueVolley(dt)), math, random,
                             old(enemySpawnTimer) - dt <= 0.0, old(powerUpSpawnTimer) - dt <= 0.0),
                       Cooldown(old(player.State())), moved.active);
        && (r.alive ==> Standing() == Collide(r, moved, difficulty, random))
        && (!r.alive ==> Standing() == r)
        && player.body == moved.(active := player.body.active)
      ensures old(isRunning) && !old(isPaused) ==>
        player.fireTimer == if player.isShooting && old(player.fireTimer) <= 1 then FireRate
                            else if old(player.fireTimer) > 0 then old(player.fireTimer) - 1
                            else old(player.fireTimer)
      ensures old(isRunning) && !old(isPaused) ==>
        && enemySpawnTimer == (if old(enemySpawnTimer) - dt <= 0.0 then SpawnInterval(difficulty)
                               else old(enemySpawnTimer) - dt)
        && powerUpSpawnTimer == (if old(powerUpSpawnTimer) - dt <= 0.0 then PowerUpInterval(difficulty)
                                 else old(powerUpSpawnTimer) - dt)
    {
      if !isRunning || isPaused {
        return;
      }
      Step(dt);
    }

    /** One running frame of `update`: `Advance`, then the collisions. */
    method Step(dt: real)
      requires Valid()
      modifies this`gameTime, this`difficulty, this`combo, this`comboTimer, this`enemySpawnTimer,
               this`enemies, this`bullets, this`drawn, this`powerUpSpawnTimer, this`powerUps,
               this`explosions, this`messages, this`score
      modifies player`body, player`fireTimer, player`invincible, player`invincibleTimer, player`lives,
               player`shield, player`shieldHealth, player`firepower
      ensures Valid()
      ensures gameTime == old(gameTime) + dt && difficulty == Difficulty(old(gameTime) + dt)
      ensures player.lives >= old(player.lives) - 1
      ensures player.lives < old(player.lives) ==> player.invincible
      ensures isRunning == old(isRunning) && isPaused == old(isPaused)
      ensures width == old(width) && height == old(height) && player == old(player)
      ensures var moved := old(player.Flight(dt, width as real, height as real));
        var r := Round(Frame(old(Scene()), dt, width, height, difficulty, moved, old(DueVolley(dt)), math, random,
                             old(enemySpawnTimer) - dt <= 0.0, old(powerUpSpawnTimer) - dt <= 0.0),
                       Cooldown(old(player.State())), moved.active);
        && (r.alive ==> Standing() == Collide(r, moved, difficulty, random))
        && (!r.alive ==> Standing() == r)
        && player.body == moved.(active := player.body.active)
      ensures player.fireTimer == if player.isShooting && old(player.fireTimer) <= 1 then FireRate
                                  else if old(player.fireTimer) > 0 then old(player.fireTimer) - 1
                                  else old(player.fireTimer)
      ensures enemySpawnTimer == if old(enemySpawnTimer) - dt <= 0.0 then SpawnInterval(difficulty)
                                 else old(enemySpawnTimer) - dt
      ensures powerUpSpawnTimer == if old(powerUpSpawnTimer) - dt <= 0.0 then PowerUpInterval(difficulty)
                                   else old(powerUpSpawnTimer) - dt
    {
      Advance(dt);
      CheckCollisions();
    }

    /** `update` up to the collisions: the clock and the player, then the
        entity pass over the primed world with the moved player as target. */
    method Advance(dt: real)
      requires Valid()
      modifies this`gameTime, this`difficulty, this`combo, this`comboTimer, this`enemySpawnTimer,
               this`enemies, this`bullets, this`drawn, this`powerUpSpawnTimer, this`powerUps,
               this`explosions, this`messages
      modifies player`body, player`fireTimer, player`invincible, player`invincibleTimer
      ensures Valid()
      ensures gameTime == old(gameTime) + dt && difficulty == Difficulty(gameTime)
      ensures isRunning == old(isRunning) && isPaused == old(isPaused)
      ensures width == old(width) && height == old(height) && player == old(player)
      ensures enemySpawnTimer == if old(enemySpawnTimer) - dt <= 0.0 then SpawnInterval(difficulty)
                                 else old(enemySpawnTimer) - dt
      ensures powerUpSpawnTimer == if old(powerUpSpawnTimer) - dt <= 0.0 then PowerUpInterval(difficulty)
                                   else old(powerUpSpawnTimer) - dt
      ensures player.fireTimer == if player.isShooting && old(player.fireTimer) <= 1 then FireRate
                                  else if old(player.fireTimer) > 0 then old(player.fireTimer) - 1
                                  else old(player.fireTimer)
      ensures player.State() == Cooldown(old(player.State()))
      ensures player.body == old(player.Flight(dt, width as real, height as real))
      ensures Scene() == EntityPass(old(Primed(Scene(), dt, DueVolley(dt))), dt, width, height, difficulty,
                                    player.body, math, random,
                                    old(enemySpawnTimer) - dt <= 0.0, old(powerUpSpawnTimer) - dt <= 0.0)
    {
      Prepare(dt);
      UpdateEntities(dt);
    }

    /** The clock and the player part of `update`: the combo step, then the
        player's move and volley. */
    method Prepare(dt: real)
      requires Valid()
      modifies this`gameTime, this`difficulty, this`combo, this`comboTimer, this`bullets
      modifies player`body, player`fireTimer, player`invincible, player`invincibleTimer
      ensures Valid()
      ensures gameTime == old(gameTime) + dt && difficulty == Difficulty(gameTime)
      ensures isRunning == old(isRunning) && isPaused == old(isPaused)
      ensures width == old(width) && height == old(height) && player == old(player)
      ensures enemySpawnTimer == old(enemySpawnTimer) && powerUpSpawnTimer == old(powerUpSpawnTimer)
      ensures Scene() == old(Primed(Scene(), dt, DueVolley(dt)))
      ensures player.fireTimer == if player.isShooting && old(player.fireTimer) <= 1 then FireRate
                                  else if old(player.fireTimer) > 0 then old(player.fireTimer) - 1
                                  else old(player.fireTimer)
      ensures player.State() == Cooldown(old(player.State()))
      ensures player.body == old(player.Flight(dt, width as real, height as real))
    {
      AdvanceClock(dt);
      UpdatePlayer(dt);
    }

    /** The clock part of `update`: game time, difficulty and the combo timer. */
    method AdvanceClock(dt: real)
      requires Valid()
      modifies this`gameTime, this`difficulty, this`combo, this`comboTimer
      ensures Valid()
      ensures gameTime == old(gameTime) + dt && difficulty == Difficulty(gameTime)
      ensures Scene() == ComboStep(old(Scene()), dt)
      ensures isRunning == old(isRunning) && isPaused == old(isPaused)
      ensures width == old(width) && height == old(height) && player == old(player)
      ensures enemySpawnTimer == old(enemySpawnTimer) && powerUpSpawnTimer == old(powerUpSpawnTimer)
      ensures player.fireTimer == old(player.fireTimer) && player.State() == old(player.State())
      ensures player.Flight(dt, width as real, height as real) == old(player.Flight(dt, width as real, height as real))
      ensures DueVolley(dt) == old(DueVolley(dt))
    {
      gameTime := gameTime + dt;
      difficulty := Difficulty(gameTime);
      UpdateCombo(dt);
    }

    /** The player part of `update`: move the player, then fire a volley if it
        is shooting and its cooldown, counted down by the move, is over. */
    method UpdatePlayer(dt: real)
      requires Valid()
      modifies player`body, player`fireTimer, player`invincible, player`invincibleTimer, this`bullets
      ensures Valid()
      ensures Scene() == old(Scene()).(bullets := old(bullets) + old(DueVolley(dt)))
      ensures gameTime == old(gameTime) && difficulty == old(difficulty)
      ensures isRunning == old(isRunning) && isPaused == old(isPaused)
      ensures width == old(width) && height == old(height) && player == old(player)
      ensures enemySpawnTimer == old(enemySpawnTimer) && powerUpSpawnTimer == old(powerUpSpawnTimer)
      ensures player.fireTimer == if player.isShooting && old(player.fireTimer) <= 1 then FireRate
                                  else if old(player.fireTimer) > 0 then old(player.fireTimer) - 1
                                  else old(player.fireTimer)
      ensures player.State() == Cooldown(old(player.State()))
      ensures player.body == old(player.Flight(dt, width as real, height as real))
    {
      player.Update(dt, width as real, height as real);
      assert VitalsOk(player.State(), player.body.active);
      FireVolley();
      assert BulletsOk(bullets);
    }

    /** The shooting part of `update`: a shooting player fires, and the volley
        joins the bullets. */
    method FireVolley()
      modifies player`fireTimer, this`bullets
      ensures var fires := player.isShooting && old(player.fireTimer) <= 0;
        && bullets == old(bullets) + (if fires then Players.Volley(player.body, player.firepower) else [])
        && player.fireTimer == if fires then FireRate else old(player.fireTimer)
      ensures BulletsOk(old(bullets)) ==> BulletsOk(bullets)
      ensures Scene() == old(Scene()).(bullets := bullets)
      ensures player == old(player) && player.body == old(player.body) && player.State() == old(player.State())
    {
      if player.isShooting {
        var shots := player.Shoot();
        bullets := bullets + shots;
      } else {
        assert bullets == old(bullets) + [];
      }
    }

    /** The entity part of `update`: enemies, bullets, power-ups, explosions
        and messages, in that order. */
    method UpdateEntities(dt: real)
      requires Valid()
      modifies this`enemySpawnTimer, this`enemies, this`bullets, this`drawn, this`powerUpSpawnTimer,
               this`powerUps, this`explosions, this`messages
      ensures Valid()
      ensures enemySpawnTimer == if old(enemySpawnTimer) - dt <= 0.0 then SpawnInterval(difficulty)
                                 else old(enemySpawnTimer) - dt
      ensures powerUpSpawnTimer == if old(powerUpSpawnTimer) - dt <= 0.0 then PowerUpInterval(difficulty)
                                   else old(powerUpSpawnTimer) - dt
      ensures Scene() == EntityPass(old(Scene()), dt, width, height, difficulty, player.body, math, random,
                                    old(enemySpawnTimer) - dt <= 0.0, old(powerUpSpawnTimer) - dt <= 0.0)
      ensures gameTime == old(gameTime) && difficulty == old(difficulty)
      ensures isRunning == old(isRunning) && isPaused == old(isPaused)
      ensures width == old(width) && height == old(height) && player == old(player)
      ensures player.body == old(player.body) && player.fireTimer == old(player.fireTimer)
      ensures player.State() == old(player.State())
    {
      UpdateEnemies(dt);
      UpdateLists(dt);
    }

    /** The updates after `updateEnemies`: bullets, power-ups, explosions and
        messages, in that order. */
    method UpdateLists(dt: real)
      requires Valid()
      modifies this`bullets, this`drawn, this`powerUpSpawnTimer, this`powerUps, this`explosions, this`messages
      ensures Valid()
      ensures powerUpSpawnTimer == if old(powerUpSpawnTimer) - dt <= 0.0 then PowerUpInterval(difficulty)
                                   else old(powerUpSpawnTimer) - dt
      ensures Scene() == ListPhases(old(Scene()), dt, width, height, player.body, math, random,
                                    old(powerUpSpawnTimer) - dt <= 0.0)
      ensures enemySpawnTimer == old(enemySpawnTimer)
      ensures gameTime == old(gameTime) && difficulty == old(difficulty)
      ensures isRunning == old(isRunning) && isPaused == old(isPaused)
      ensures width == old(width) && height == old(height) && player == old(player)
      ensures player.body == old(player.body) && player.fireTimer == old(player.fireTimer)
      ensures player.State() == old(player.State())
    {
      UpdateMovers(dt);
      UpdateFading(dt);
    }

    /** Bullets, then power-ups. */
    method UpdateMovers(dt: real)
      requires Valid()
      modifies this`bullets, this`drawn, this`powerUpSpawnTimer, this`powerUps
      ensures Valid()
      ensures powerUpSpawnTimer == if old(powerUpSpawnTimer) - dt <= 0.0 then PowerUpInterval(difficulty)
                                   else old(powerUpSpawnTimer) - dt
      ensures var dropped := old(powerUps) + (if old(powerUpSpawnTimer) - dt <= 0.0 then [DropIn(width, old(drawn), random)] else []);
        && bullets == MoveBullets(old(bullets), dt, Some(player.body), math, width as real, height as real)
        && powerUps == MovePowerUps(dropped, dt, height as real)
        && drawn == old(drawn) + (if old(powerUpSpawnTimer) - dt <= 0.0 then 2 else 0)
      ensures enemySpawnTimer == old(enemySpawnTimer)
      ensures gameTime == old(gameTime) && difficulty == old(difficulty)
      ensures isRunning == old(isRunning) && isPaused == old(isPaused)
      ensures width == old(width) && height == old(height) && player == old(player)
      ensures player.body == old(player.body) && player.fireTimer == old(player.fireTimer)
      ensures player.State() == old(player.State())
    {
      UpdateBullets(dt);
      UpdatePowerUps(dt);
    }

    /** Explosions, then messages. */
    method UpdateFading(dt: real)
      requires Valid()
      modifies this`explosions, this`messages
      ensures Valid()
      ensures explosions == FadeExplosions(old(explosions), dt) && messages == TickMessages(old(messages), dt)
      ensures enemySpawnTimer == old(enemySpawnTimer) && powerUpSpawnTimer == old(powerUpSpawnTimer)
      ensures gameTime == old(gameTime) && difficulty == old(difficulty)
      ensures isRunning == old(isRunning) && isPaused == old(isPaused)
      ensures width == old(width) && height == old(height) && player == old(player)
      ensures player.body == old(player.body) && player.fireTimer == old(player.fireTimer)
      ensures player.State() == old(player.State())
    {
      UpdateExplosions(dt);
      UpdateMessages(dt);
    }

    /** The combo timer runs down only while a combo is on, and ends it when
        it expires. */
    method UpdateCombo(dt: real)
      modifies this`combo, this`comboTimer
      ensures Scene() == ComboStep(old(Scene()), dt)
    {
      if combo > 0 {
        comboTimer := comboTimer - dt;
        if comboTimer <= 0.0 {
          combo := 0;
        }
      }
    }

    /** `updateEnemies(dt)`: when the spawn timer runs out, restart it at the
        difficulty's interval and spawn the difficulty's number of enemies;
        then the reverse pass over all enemies. */
    method UpdateEnemies(dt: real)
      requires Valid()
      modifies this`enemySpawnTimer, this`enemies, this`bullets, this`drawn
      ensures Valid()
      ensures var due := old(enemySpawnTimer) - dt <= 0.0;
        && enemySpawnTimer == (if due then SpawnInterval(difficulty) else old(enemySpawnTimer) - dt)
        && Scene() == EnemyPhase(old(Scene()), dt, width, height, difficulty, math, random, due)
      ensures powerUpSpawnTimer == old(powerUpSpawnTimer)
      ensures gameTime == old(gameTime) && difficulty == old(difficulty)
      ensures isRunning == old(isRunning) && isPaused == old(isPaused)
      ensures width == old(width) && height == old(height) && player == old(player)
      ensures player.body == old(player.body) && player.fireTimer == old(player.fireTimer)
      ensures player.State() == old(player.State())
    {
      SpawnWave(dt);
      MoveEnemies(dt);
      EnemyPhaseKeeps(old(Scene()), dt, width, height, difficulty, math, random, old(enemySpawnTimer) - dt <= 0.0);
    }

    /** The spawning part of `updateEnemies`: the spawn timer runs down, and
        when it runs out it restarts and a wave of enemies appears. */
    method SpawnWave(dt: real)
      requires IsRandomSource(random)
      modifies this`enemySpawnTimer, this`enemies, this`drawn
      ensures var due := old(enemySpawnTimer) - dt <= 0.0;
        && enemySpawnTimer == (if due then SpawnInterval(difficulty) else old(enemySpawnTimer) - dt)
        && Scene() == if due then Spawned(old(Scene()), Repeats(SpawnCount(difficulty)), width, difficulty, random)
                      else old(Scene())
      ensures powerUpSpawnTimer == old(powerUpSpawnTimer)
      ensures gameTime == old(gameTime) && difficulty == old(difficulty)
      ensures isRunning == old(isRunning) && isPaused == old(isPaused)
      ensures width == old(width) && height == old(height) && player == old(player)
      ensures player.body == old(player.body) && player.fireTimer == old(player.fireTimer)
      ensures player.State() == old(player.State())
    {
      enemySpawnTimer := enemySpawnTimer - dt;
      if enemySpawnTimer <= 0.0 {
        enemySpawnTimer := SpawnInterval(difficulty);
        SpawnEnemies(SpawnCount(difficulty));
      }
    }

    /** The spawning loop of `updateEnemies`: n calls of `createRandomEnemy`. */
    method SpawnEnemies(n: int)
      requires IsRandomSource(random)
      modifies this`enemies, this`drawn
      ensures Scene() == Spawned(old(Scene()), Repeats(n), width, difficulty, random)
    {
      var i := 0;
      while i < n
        invariant 0 <= i <= Repeats(n)
        invariant Scene() == Spawned(old(Scene()), i, width, difficulty, random)
      {
        SpawnEnemy();
        i := i + 1;
      }
      assert i == Repeats(n);
    }

    /** One `createRandomEnemy(width, difficulty)`, appended to the enemies. */
    method SpawnEnemy()
      requires IsRandomSource(random)
      modifies this`enemies, this`drawn
      ensures Scene() == SpawnOne(old(Scene()), width, difficulty, random)
    {
      var enemy := Recruit(width, difficulty, random, drawn);
      enemies := enemies + [enemy];
      drawn := drawn + SpawnDraws(enemy.kind);
    }

    /** The reverse loop of `updateEnemies`: update, shoot, and drop enemies
        that passed the bottom edge. */
    method MoveEnemies(dt: real)
      requires IsRandomSource(random)
      modifies this`enemies, this`bullets, this`drawn
      ensures Scene() == EnemiesFrom(old(Scene()), |old(enemies)|, dt, width as real, height as real, math, random)
      ensures enemySpawnTimer == old(enemySpawnTimer) && powerUpSpawnTimer == old(powerUpSpawnTimer)
      ensures gameTime == old(gameTime) && difficulty == old(difficulty)
      ensures isRunning == old(isRunning) && isPaused == old(isPaused)
      ensures width == old(width) && height == old(height) && player == old(player)
      ensures player.body == old(player.body) && player.fireTimer == old(player.fireTimer)
      ensures player.State() == old(player.State())
    {
      var i := |enemies|;
      while i > 0
        invariant 0 <= i <= |enemies|
        invariant EnemiesFrom(Scene(), i, dt, width as real, height as real, math, random)
               == EnemiesFrom(old(Scene()), |old(enemies)|, dt, width as real, height as real, math, random)
      {
        i := i - 1;
        MoveEnemy(i, dt);
      }
    }

    /** The body of the reverse loop of `updateEnemies` for enemy i. */
    method MoveEnemy(i: nat, dt: real)
      requires i < |enemies| && IsRandomSource(random)
      modifies this`enemies, this`bullets, this`drawn
      ensures Scene() == EnemyTurn(old(Scene()), i, dt, width as real, height as real, math, random)
      ensures EnemiesFrom(Scene(), i, dt, width as real, height as real, math, random)
           == EnemiesFrom(old(Scene()), i + 1, dt, width as real, height as real, math, random)
      ensures i <= |enemies|
    {
      var enemy := enemies[i].Update(dt, width as real, math);
      var shot, volley := Enemies.Shoot(enemy, random(drawn));
      drawn := drawn + ShotDraws(enemy);
      bullets := bullets + volley;
      if shot.body.y > height as real {
        enemies := Remove(enemies, i);
      } else {
        enemies := enemies[i := shot];
      }
    }

    /** `updateBullets(dt)`: the reverse pass moving every bullet (homing ones
        toward the player) and dropping those off the canvas. */
    method UpdateBullets(dt: real)
      requires Valid()
      modifies this`bullets
      ensures Valid()
      ensures bullets == MoveBullets(old(bullets), dt, Some(player.body), math, width as real, height as real)
    {
      ghost var start := bullets;
      var i := |bullets|;
      while i > 0
        invariant 0 <= i <= |start|
        invariant bullets == start[..i] + MoveBullets(start[i..], dt, Some(player.body), math, width as real, height as real)
      {
        i := i - 1;
        MoveBullet(i, dt, start);
      }
      assert start[0..] == start;
      MoveBulletsFilters(start, dt, Some(player.body), math, width as real, height as real);
    }

    /** The body of the reverse loop of `updateBullets` for bullet i. */
    method MoveBullet(i: nat, dt: real, ghost start: seq<Bullet>)
      requires i < |start|
      requires bullets == start[..i + 1] + MoveBullets(start[i + 1..], dt, Some(player.body), math, width as real, height as real)
      modifies this`bullets
      ensures bullets == start[..i] + MoveBullets(start[i..], dt, Some(player.body), math, width as real, height as real)
    {
      assert bullets[i] == start[i];
      assert start[i..][1..] == start[i + 1..];
      assert start[..i + 1] == start[..i] + [start[i]];
      var bullet := bullets[i].Update(dt, Some(player.body), math);
      if bullet.IsOutOfBounds(width as real, height as real) {
        bullets := Remove(bullets, i);
      } else {
        bullets := bullets[i := bullet];
      }
    }

    /** `updatePowerUps(dt)`: when the spawn timer runs out, restart it and
        drop a random power-up in from the top; then the reverse pass moving
        every power-up and dropping those below the canvas. */
    method UpdatePowerUps(dt: real)
      requires Valid()
      modifies this`powerUpSpawnTimer, this`powerUps, this`drawn
      ensures Valid()
      ensures var due := old(powerUpSpawnTimer) - dt <= 0.0;
        && powerUpSpawnTimer == (if due then PowerUpInterval(difficulty) else old(powerUpSpawnTimer) - dt)
        && drawn == old(drawn) + (if due then 2 else 0)
        && powerUps == MovePowerUps(old(powerUps) + (if due then [DropIn(width, old(drawn), random)] else []),
                                    dt, height as real)
    {
      DropWave(dt);
      ghost var start := powerUps;
      assert PowerUpsOk(start);
      SweepPowerUps(dt);
      MovePowerUpsFilters(start, dt, height as real);
    }

    /** The spawning part of `updatePowerUps`: the power-up timer runs down,
        and when it runs out it restarts and a power-up drops in. */
    method DropWave(dt: real)
      requires IsRandomSource(random)
      modifies this`powerUpSpawnTimer, this`powerUps, this`drawn
      ensures var due := old(powerUpSpawnTimer) - dt <= 0.0;
        && powerUpSpawnTimer == (if due then PowerUpInterval(difficulty) else old(powerUpSpawnTimer) - dt)
        && drawn == old(drawn) + (if due then 2 else 0)
        && powerUps == old(powerUps) + (if due then [DropIn(width, old(drawn), random)] else [])
    {
      powerUpSpawnTimer := powerUpSpawnTimer - dt;
      if powerUpSpawnTimer <= 0.0 {
        powerUpSpawnTimer := PowerUpInterval(difficulty);
        SpawnPowerUp();
      } else {
        assert powerUps == old(powerUps) + [];
      }
    }

    /** The spawning branch of `updatePowerUps`. */
    method SpawnPowerUp()
      requires IsRandomSource(random)
      modifies this`powerUps, this`drawn
      ensures powerUps == old(powerUps) + [DropIn(width, old(drawn), random)]
      ensures drawn == old(drawn) + 2
    {
      var x := RandomInt(20, width - 40, random(drawn));
      var powerUp := CreateRandomPowerUp(x as real, -20.0, random(drawn + 1));
      drawn := drawn + 2;
      powerUps := powerUps + [powerUp];
    }

    /** The reverse loop of `updatePowerUps`. */
    method SweepPowerUps(dt: real)
      modifies this`powerUps
      ensures powerUps == MovePowerUps(old(powerUps), dt, height as real)
    {
      ghost var start := powerUps;
      var i := |powerUps|;
      while i > 0
        invariant 0 <= i <= |start|
        invariant powerUps == start[..i] + MovePowerUps(start[i..], dt, height as real)
      {
        i := i - 1;
        MovePowerUp(i, dt, start);
      }
      assert start[0..] == start;
    }

    /** The body of the reverse loop of `updatePowerUps` for power-up i. */
    method MovePowerUp(i: nat, dt: real, ghost start: seq<PowerUp>)
      requires i < |start| && powerUps == start[..i + 1] + MovePowerUps(start[i + 1..], dt, height as real)
      modifies this`powerUps
      ensures powerUps == start[..i] + MovePowerUps(start[i..], dt, height as real)
    {
      assert powerUps[i] == start[i];
      assert start[i..][1..] == start[i + 1..];
      assert start[..i + 1] == start[..i] + [start[i]];
      var powerUp := powerUps[i].Update(dt);
      if powerUp.IsOutOfBounds(height as real) {
        powerUps := Remove(powerUps, i);
      } else {
        powerUps := powerUps[i := powerUp];
      }
    }

    /** `updateExplosions(dt)`: fade every explosion, drop the finished ones. */
    method UpdateExplosions(dt: real)
      requires Valid()
      modifies this`explosions
      ensures Valid()
      ensures explosions == FadeExplosions(old(explosions), dt)
    {
      ghost var start := explosions;
      var i := |explosions|;
      while i > 0
        invariant 0 <= i <= |start|
        invariant explosions == start[..i] + FadeExplosions(start[i..], dt)
      {
        i := i - 1;
        FadeExplosion(i, dt, start);
      }
      assert start[0..] == start;
      FadeExplosionsFilters(start, dt);
    }

    /** The body of the reverse loop of `updateExplosions` for explosion i. */
    method FadeExplosion(i: nat, dt: real, ghost start: seq<Sprite>)
      requires i < |start| && explosions == start[..i + 1] + FadeExplosions(start[i + 1..], dt)
      modifies this`explosions
      ensures explosions == start[..i] + FadeExplosions(start[i..], dt)
    {
      assert explosions[i] == start[i];
      assert start[i..][1..] == start[i + 1..];
      assert start[..i + 1] == start[..i] + [start[i]];
      var explosion := Fade(explosions[i], dt);
      if !explosion.active {
        explosions := Remove(explosions, i);
      } else {
        explosions := explosions[i := explosion];
      }
    }

    /** `updateMessages(dt)`: run every message's timer down, let it rise,
        and drop the expired ones. */
    method UpdateMessages(dt: real)
      requires Valid()
      modifies this`messages
      ensures Valid()
      ensures messages == TickMessages(old(messages), dt)
    {
      ghost var start := messages;
      var i := |messages|;
      while i > 0
        invariant 0 <= i <= |start|
        invariant messages == start[..i] + TickMessages(start[i..], dt)
      {
        i := i - 1;
        TickMessageAt(i, dt, start);
      }
      assert start[0..] == start;
      TickMessagesFilters(start, dt);
    }

    /** The body of the reverse loop of `updateMessages` for message i. */
    method TickMessageAt(i: nat, dt: real, ghost start: seq<Message>)
      requires i < |start| && messages == start[..i + 1] + TickMessages(start[i + 1..], dt)
      modifies this`messages
      ensures messages == start[..i] + TickMessages(start[i..], dt)
    {
      assert messages[i] == start[i];
      assert start[i..][1..] == start[i + 1..];
      assert start[..i + 1] == start[..i] + [start[i]];
      var message := messages[i].(timer := messages[i].timer - dt);
      message := message.(y := message.y - MessageRise * dt);
      if message.timer <= 0.0 {
        messages := Remove(messages, i);
      } else {
        messages := messages[i := message];
      }
    }

    /** `checkCollisions()`: nothing once the player is inactive; otherwise
        the four passes of `Collide`. A player who loses a life in it loses
        only one and is left invincible. */
    method CheckCollisions()
      requires Valid()
      modifies this`enemies, this`bullets, this`powerUps, this`explosions, this`messages,
               this`score, this`combo, this`comboTimer, this`drawn
      modifies player`lives, player`invincible, player`invincibleTimer, player`shield,
               player`shieldHealth, player`firepower, player`body
      ensures Valid()
      ensures !old(player.body.active) ==> Standing() == old(Standing())
      ensures old(player.body.active) ==> Standing() == Collide(old(Standing()), old(player.body), difficulty, random)
      ensures player.body == old(player.body).(active := player.body.active)
      ensures player.lives >= old(player.lives) - 1
      ensures player.lives < old(player.lives) ==> player.invincible
      ensures gameTime == old(gameTime) && difficulty == old(difficulty)
      ensures enemySpawnTimer == old(enemySpawnTimer) && powerUpSpawnTimer == old(powerUpSpawnTimer)
      ensures isRunning == old(isRunning) && isPaused == old(isPaused)
      ensures width == old(width) && height == old(height) && player == old(player)
      ensures player.fireTimer == old(player.fireTimer)
    {
      if !player.body.active {
        return;
      }
      ghost var r0 := Standing();
      Resolve(player.body);
      CollideKeeps(r0, old(player.body), difficulty, random);
    }

    /** The four passes of `checkCollisions` for a player at sprite p. */
    method Resolve(ghost p: Sprite)
      requires IsRandomSource(random) && player.body == p.(active := player.body.active)
      modifies this`enemies, this`bullets, this`powerUps, this`explosions, this`messages,
               this`score, this`combo, this`comboTimer, this`drawn
      modifies player`lives, player`invincible, player`invincibleTimer, player`shield,
               player`shieldHealth, player`firepower, player`body
      ensures Standing() == Collide(old(Standing()), p, difficulty, random)
      ensures player.body == p.(active := player.body.active)
    {
      StrikePass(p);
      FirePass(p);
      RamPass(p);
      PickupPass(p);
    }

    /** The first pass: the player's bullets against the enemies. */
    method StrikePass(ghost p: Sprite)
      requires IsRandomSource(random) && player.body == p.(active := player.body.active)
      modifies this`enemies, this`bullets, this`powerUps, this`explosions, this`messages,
               this`score, this`combo, this`comboTimer, this`drawn
      ensures Scene() == StrikeFrom(old(Scene()), |old(bullets)|, p, difficulty, random)
    {
      var i := |bullets|;
      while i > 0
        invariant 0 <= i <= |bullets|
        invariant StrikeFrom(Scene(), i, p, difficulty, random)
               == StrikeFrom(old(Scene()), |old(bullets)|, p, difficulty, random)
      {
        i := i - 1;
        StrikeBullet(i, p);
      }
    }

    /** The body of the first pass for bullet i, with its inner reverse loop
        over the enemies that stops at the first one it overlaps. */
    method StrikeBullet(i: nat, ghost p: Sprite)
      requires i < |bullets| && IsRandomSource(random) && player.body == p.(active := player.body.active)
      modifies this`enemies, this`bullets, this`powerUps, this`explosions, this`messages,
               this`score, this`combo, this`comboTimer, this`drawn
      ensures Scene() == Strike(old(Scene()), i, p, difficulty, random)
      ensures StrikeFrom(Scene(), i, p, difficulty, random) == StrikeFrom(old(Scene()), i + 1, p, difficulty, random)
      ensures difficulty == old(difficulty) && i <= |bullets|
    {
      var bullet := bullets[i];
      if bullet.owner == PlayerOwned {
        var j := |enemies|;
        while j > 0
          invariant 0 <= j <= |enemies| && enemies == old(enemies)
          invariant forall k :: j <= k < |enemies| ==> !bullet.body.CollidesWith(enemies[k].body)
        {
          j := j - 1;
          if bullet.body.CollidesWith(enemies[j].body) {
            LastHitIsLast(enemies, bullet.body, j);
            var hit := enemies[j].TakeDamage(bullet.damage);
            bullets := Remove(bullets, i);
            if hit.dead {
              KillEnemy(j, hit.enemy, p);
            } else {
              enemies := enemies[j := hit.enemy];
            }
            return;
          }
        }
      }
    }

    /** What the first pass does to an enemy the hit killed. */
    method KillEnemy(j: nat, enemy: Enemy, ghost p: Sprite)
      requires j < |enemies| && IsRandomSource(random) && player.body == p.(active := player.body.active)
      modifies this`enemies, this`powerUps, this`explosions, this`messages,
               this`score, this`combo, this`comboTimer, this`drawn
      ensures Scene() == Kill(old(Scene()), j, enemy, p, difficulty, random)
    {
      Reward(enemy, p);
      DropLoot(enemy.body);
      enemies := Remove(enemies, j);
    }

    /** The scoring part of a kill: `increaseScore`, the combo, the explosion. */
    method Reward(enemy: Enemy, ghost p: Sprite)
      requires player.body == p.(active := player.body.active)
      modifies this`messages, this`score, this`combo, this`comboTimer, this`explosions
      ensures Scene() == Credit(old(Scene()), enemy, p)
    {
      IncreaseScore(enemy.score as real);
      combo := combo + 1;
      comboTimer := ComboTimeout;
      CreateExplosion(enemy.body.x, enemy.body.y, enemy.body.width, enemy.body.height);
    }

    /** The drop part of a kill: one draw decides whether a power-up appears
        at the centre of the enemy's sprite s, and `createRandomPowerUp` draws
        its kind. */
    method DropLoot(s: Sprite)
      requires IsRandomSource(random)
      modifies this`powerUps, this`drawn
      ensures Scene() == Loot(old(Scene()), s, difficulty, random)
    {
      var chance := random(drawn);
      drawn := drawn + 1;
      if chance < DropChance(difficulty) {
        var powerUp := CreateRandomPowerUp(s.x + s.width / 2.0 - 10.0, s.y + s.height / 2.0 - 10.0, random(drawn));
        drawn := drawn + 1;
        powerUps := powerUps + [powerUp];
      }
    }

    /** The second pass: enemy bullets against the player. */
    method FirePass(ghost p: Sprite)
      requires player.body == p.(active := player.body.active)
      modifies this`bullets, this`explosions
      modifies player`lives, player`invincible, player`invincibleTimer, player`shield, player`shieldHealth, player`body
      ensures Standing() == FireFrom(old(Standing()), |old(bullets)|, p)
      ensures player.body == p.(active := player.body.active)
    {
      var i := |bullets|;
      while i > 0
        invariant 0 <= i <= |bullets| && player.body == p.(active := player.body.active)
        invariant FireFrom(Standing(), i, p) == FireFrom(old(Standing()), |old(bullets)|, p)
      {
        i := i - 1;
        EnemyFireAt(i, p);
      }
    }

    /** The body of the second pass for bullet i. */
    method EnemyFireAt(i: nat, ghost p: Sprite)
      requires i < |bullets| && player.body == p.(active := player.body.active)
      modifies this`bullets, this`explosions
      modifies player`lives, player`invincible, player`invincibleTimer, player`shield, player`shieldHealth, player`body
      ensures Standing() == EnemyFire(old(Standing()), i, p)
      ensures FireFrom(Standing(), i, p) == FireFrom(old(Standing()), i + 1, p)
      ensures player.body == p.(active := player.body.active)
      ensures i <= |bullets|
    {
      var bullet := bullets[i];
      if bullet.owner == EnemyOwned && bullet.body.CollidesWith(player.body) {
        var dead := player.TakeDamage();
        bullets := Remove(bullets, i);
        if dead {
          KillPlayer();
        }
      }
    }

    /** A fatal hit: an explosion at the player, and the player deactivated. */
    method KillPlayer()
      modifies this`explosions, player`body
      ensures explosions == old(explosions) + [Boom(old(player.body))]
      ensures player.body == old(player.body).(active := false)
    {
      CreateExplosion(player.body.x, player.body.y, player.body.width, player.body.height);
      player.body := player.body.(active := false);
    }

    /** The third pass: enemies ramming the player. */
    method RamPass(ghost p: Sprite)
      requires player.body == p.(active := player.body.active)
      modifies this`enemies, this`explosions
      modifies player`lives, player`invincible, player`invincibleTimer, player`shield, player`shieldHealth, player`body
      ensures Standing() == RamFrom(old(Standing()), |old(enemies)|, p)
      ensures player.body == p.(active := player.body.active)
    {
      var i := |enemies|;
      while i > 0
        invariant 0 <= i <= |enemies| && player.body == p.(active := player.body.active)
        invariant RamFrom(Standing(), i, p) == RamFrom(old(Standing()), |old(enemies)|, p)
      {
        i := i - 1;
        RamAt(i, p);
      }
    }

    /** The body of the third pass for enemy i. */
    method RamAt(i: nat, ghost p: Sprite)
      requires i < |enemies| && player.body == p.(active := player.body.active)
      modifies this`enemies, this`explosions
      modifies player`lives, player`invincible, player`invincibleTimer, player`shield, player`shieldHealth, player`body
      ensures Standing() == Ram(old(Standing()), i, p)
      ensures RamFrom(Standing(), i, p) == RamFrom(old(Standing()), i + 1, p)
      ensures player.body == p.(active := player.body.active)
      ensures i <= |enemies|
    {
      var enemy := enemies[i];
      if enemy.body.CollidesWith(player.body) {
        var dead := player.TakeDamage();
        CreateExplosion(enemy.body.x, enemy.body.y, enemy.body.width, enemy.body.height);
        enemies := Remove(enemies, i);
        if dead {
          KillPlayer();
        }
      }
    }

    /** The fourth pass: the player collecting power-ups. */
    method PickupPass(ghost p: Sprite)
      requires player.body == p.(active := player.body.active)
      modifies this`enemies, this`bullets, this`powerUps, this`explosions, this`messages, this`score
      modifies player`lives, player`shield, player`shieldHealth, player`firepower
      ensures Standing() == PickupFrom(old(Standing()), |old(powerUps)|, p)
    {
      var i := |powerUps|;
      while i > 0
        invariant 0 <= i <= |powerUps|
        invariant PickupFrom(Standing(), i, p) == PickupFrom(old(Standing()), |old(powerUps)|, p)
      {
        i := i - 1;
        PickupAt(i, p);
      }
    }

    /** The body of the fourth pass for power-up i. */
    method PickupAt(i: nat, ghost p: Sprite)
      requires i < |powerUps| && player.body == p.(active := player.body.active)
      modifies this`enemies, this`bullets, this`powerUps, this`explosions, this`messages, this`score
      modifies player`lives, player`shield, player`shieldHealth, player`firepower
      ensures Standing() == Pickup(old(Standing()), i, p)
      ensures PickupFrom(Standing(), i, p) == PickupFrom(old(Standing()), i + 1, p)
      ensures i <= |powerUps|
    {
      var powerUp := powerUps[i];
      if powerUp.body.CollidesWith(player.body) {
        var info := ApplyEffect(powerUp, player);
        if powerUp.kind == Bomb {
          Detonate(p);
        }
        AddMessage(player.body.x + player.body.width / 2.0, player.body.y - 20.0, info.duration as real);
        powerUps := Remove(powerUps, i);
      }
    }

    /** The bomb branch of the fourth pass. */
    method Detonate(ghost p: Sprite)
      requires player.body == p.(active := player.body.active)
      modifies this`enemies, this`bullets, this`explosions, this`messages, this`score
      ensures Scene() == GameRules.Detonate(old(Scene()), p)
    {
      var j := |enemies|;
      while j > 0
        invariant 0 <= j <= |enemies| && enemies == old(enemies) && bullets == old(bullets)
        invariant BlastFrom(Scene(), j, p) == BlastFrom(old(Scene()), |old(enemies)|, p)
      {
        j := j - 1;
        BlastEnemy(enemies[j], p);
      }
      enemies := [];
      bullets := PlayerBullets(bullets);
    }

    /** One turn of the bomb loop: an explosion over the enemy and half its
        score. */
    method BlastEnemy(enemy: Enemy, ghost p: Sprite)
      requires player.body == p.(active := player.body.active)
      modifies this`explosions, this`messages, this`score
      ensures Scene() == Blast(old(Scene()), enemy, p)
    {
      CreateExplosion(enemy.body.x, enemy.body.y, enemy.body.width, enemy.body.height);
      IncreaseScore(enemy.score as real / 2.0);
    }

    /** `increaseScore(points)`. */
    method IncreaseScore(points: real)
      modifies this`score, this`messages
      ensures Scene() == GameRules.IncreaseScore(old(Scene()), points, player.body)
    {
      score := score + ScoreGain(points, combo);
      AddMessage(player.body.x + player.body.width / 2.0, player.body.y - 30.0, ScoreMessageMillis);
    }

    /** `createExplosion(x, y, width, height)`. */
    method CreateExplosion(x: real, y: real, w: real, h: real)
      modifies this`explosions
      ensures explosions == old(explosions) + [NewSprite(x, y, w, h)]
    {
      explosions := explosions + [NewSprite(x, y, w, h)];
    }

    /** `addMessage(text, x, y, duration)`. */
    method AddMessage(x: real, y: real, duration: real)
      modifies this`messages
      ensures messages == old(messages) + [NewMessage(x, y, duration)]
    {
      messages := messages + [NewMessage(x, y, duration)];
    }
  }
}

/** js/enemy.js: enemy aircraft of three kinds, their stat tables, damage,
    firing patterns, movement and random spawning. */
module Enemies {
  import opened Utils
  import opened Sprites
  import opened Bullets

  /** The `type` string. Only the three named kinds are ever spawned; any
      other string falls through to the `default` branches of the tables. */
  datatype EnemyType = Basic | Advanced | Elite | Other(name: string)

  /** The `movementPattern` string. */
  datatype MovementPattern = Straight | Zigzag | Sine | Circle

  /** `getInitialHealth`. */
  function InitialHealth(kind: EnemyType): (h: int)
    ensures h >= 1
  {
    match kind
    case Basic => 1
    case Advanced => 3
    case Elite => 10
    case Other(_) => 1
  }

  /** `getScore`: every kind is worth 100 points per point of health. */
  function ScoreValue(kind: EnemyType): (s: int)
    ensures s == 100 * InitialHealth(kind)
  {
    match kind
    case Basic => 100
    case Advanced => 300
    case Elite => 1000
    case Other(_) => 100
  }

  /** `getShootRate`, in frames between volleys: tougher kinds fire more often. */
  function ShootRate(kind: EnemyType): (f: int)
    ensures 60 <= f <= 120
  {
    match kind
    case Basic => 120
    case Advanced => 90
    case Elite => 60
    case Other(_) => 120
  }

  /** The `default` branches: an unknown kind has the basic kind's stats, and
      a tougher kind is worth more and fires more often. */
  lemma StatTable(kind: EnemyType)
    ensures kind.Other? ==> InitialHealth(kind) == InitialHealth(Basic) && ScoreValue(kind) == ScoreValue(Basic)
                            && ShootRate(kind) == ShootRate(Basic)
    ensures InitialHealth(Basic) < InitialHealth(Advanced) < InitialHealth(Elite)
    ensures ShootRate(Basic) > ShootRate(Advanced) > ShootRate(Elite)
    ensures InitialHealth(kind) > InitialHealth(Basic) ==> ShootRate(kind) < ShootRate(Basic)
  {
  }

  /** `getMovementPattern`, given the draw that `randomChoice` consumes for the
      two kinds that choose. */
  function PatternFor(kind: EnemyType, draw: real): (p: MovementPattern)
    requires 0.0 <= draw < 1.0
    ensures kind == Basic || kind.Other? ==> p == Straight
    ensures kind == Advanced ==> p == Zigzag || p == Sine
    ensures kind == Elite ==> p != Straight
  {
    match kind
    case Advanced => RandomChoice([Zigzag, Sine], draw)
    case Elite => RandomChoice([Zigzag, Sine, Circle], draw)
    case _ => Straight
  }

  /** Whether the constructor draws a random value for the movement pattern. */
  predicate ChoosesPattern(kind: EnemyType) {
    kind == Advanced || kind == Elite
  }

  datatype Enemy = Enemy(
    body: Sprite,
    kind: EnemyType,
    health: int,
    score: int,
    shootRate: int,
    shootTimer: int,
    pattern: MovementPattern,
    movementTimer: real)
  {
    /** What the constructor establishes and the updates keep. */
    predicate WellFormed() {
      && score == ScoreValue(kind) && shootRate == ShootRate(kind)
      && 0 <= shootTimer <= shootRate
      && health <= InitialHealth(kind)
    }

    /** The return value of `takeDamage`: the damaged enemy and whether it died. */
    function TakeDamage(damage: int): (r: Hit)
      ensures r.enemy.health == health - damage
      ensures r.enemy == this.(health := r.enemy.health)
      ensures r.dead <==> damage >= health
      ensures WellFormed() && damage >= 0 ==> r.enemy.WellFormed()
    {
      var e := this.(health := health - damage);
      Hit(e, e.health <= 0)
    }

    /** `update(dt, canvasWidth)`: move by the current speed, count the firing
        cooldown down by one frame, advance the movement clock, set the next
        horizontal speed from the movement pattern, and keep the enemy inside
        the canvas with its horizontal speed turned back inward. */
    function Update(dt: real, canvasWidth: real, math: MathLib): (r: Enemy)
      ensures r.kind == kind && r.health == health && r.score == score
      ensures r.shootRate == shootRate && r.pattern == pattern
      ensures r.shootTimer == if shootTimer > 0 then shootTimer - 1 else shootTimer
      ensures 0 <= shootTimer ==> 0 <= r.shootTimer <= shootTimer
      ensures r.movementTimer == movementTimer + dt
      ensures r.body.y == body.y + body.speedY * dt && r.body.speedY == body.speedY
      ensures r.body.width == body.width && r.body.height == body.height
      ensures r.body.active == body.active
      ensures canvasWidth >= body.width ==> 0.0 <= r.body.x <= canvasWidth - body.width
      ensures body.x + body.speedX * dt < 0.0 ==> r.body.x == 0.0 && r.body.speedX >= 0.0
      ensures 0.0 <= body.x + body.speedX * dt && body.x + body.speedX * dt > canvasWidth - body.width ==>
                r.body.x == canvasWidth - body.width && r.body.speedX <= 0.0
      ensures 0.0 <= body.x + body.speedX * dt <= canvasWidth - body.width ==>
                r.body.x == body.x + body.speedX * dt
      ensures pattern == Straight && 0.0 <= body.x + body.speedX * dt <= canvasWidth - body.width ==>
                r.body.speedX == body.speedX
      ensures WellFormed() ==> r.WellFormed()
    {
      var moved := body.Update(dt);
      var timer := movementTimer + dt;
      var sx := match pattern
        case Straight => moved.speedX
        case Zigzag => math.sin(timer * 0.05) * 2.0
        case Sine => math.sin(timer * 0.1) * 3.0
        case Circle => math.cos(timer * 0.02) * 50.0 - math.cos((timer - dt) * 0.02) * 50.0;
      var clamped :=
        if moved.x < 0.0 then moved.(x := 0.0, speedX := Abs(sx))
        else if moved.x > canvasWidth - moved.width then moved.(x := canvasWidth - moved.width, speedX := -Abs(sx))
        else moved.(speedX := sx);
      this.(body := clamped,
            shootTimer := if shootTimer > 0 then shootTimer - 1 else shootTimer,
            movementTimer := timer)
    }
  }

  /** The value `takeDamage` computes: the enemy after the hit and `isDead`. */
  datatype Hit = Hit(enemy: Enemy, dead: bool)

  /** `new Enemy(x, y, width, height, type)`, with the draw for the initial
      cooldown and the draw for the movement pattern passed in. */
  function NewEnemy(x: real, y: real, width: real, height: real, kind: EnemyType,
                    timerDraw: real, patternDraw: real): (e: Enemy)
    requires 0.0 <= timerDraw < 1.0 && 0.0 <= patternDraw < 1.0
    ensures e.WellFormed()
    ensures e.kind == kind && e.health == InitialHealth(kind)
    ensures 0 <= e.shootTimer <= ShootRate(kind) && e.movementTimer == 0.0
    ensures e.pattern == PatternFor(kind, patternDraw)
    ensures e.body.Bounds() == Rect(x, y, width, height) && e.body.active
    ensures e.body.speedX == 0.0 && e.body.speedY == 0.0
  {
    Enemy(NewSprite(x, y, width, height), kind, InitialHealth(kind), ScoreValue(kind),
          ShootRate(kind), RandomInt(0, ShootRate(kind), timerDraw),
          PatternFor(kind, patternDraw), 0.0)
  }

  /** The horizontal centre line of an enemy's bullets and their top edge. */
  function Muzzle(e: Enemy, halfWidth: real): (real, real) {
    (e.body.x + e.body.width / 2.0 - halfWidth, e.body.y + e.body.height)
  }

  /** An enemy's bullet leaves from its muzzle: centred on the enemy's
      vertical centre line, with its top on the enemy's bottom edge. */
  predicate FiredFrom(b: Bullet, e: Enemy) {
    && b.owner == EnemyOwned && b.WellFormed() && b.body.active
    && b.body.x + b.body.width / 2.0 == e.body.x + e.body.width / 2.0
    && b.body.y == e.body.y + e.body.height
  }

  /** One bullet of a spread: the i-th from the centre flies sideways at 2*i. */
  function SpreadBullet(e: Enemy, i: int): (b: Bullet)
    ensures FiredFrom(b, e) && b.body.width == 4.0 && b.body.height == 10.0
    ensures b.body.speedX == (2 * i) as real && b.body.speedY == 5.0
    ensures b.damage == 1 && !b.isPowered && !b.isHoming
  {
    var (x, y) := Muzzle(e, 2.0);
    NewBullet(x, y, 4.0, 10.0, (2 * i) as real, 5.0, EnemyOwned, false, false)
  }

  /** The spread bullets lo, lo + 1, ..., hi, in that order. */
  function Spread(e: Enemy, lo: int, hi: int): (s: seq<Bullet>)
    requires lo <= hi + 1
    ensures |s| == hi - lo + 1
    ensures forall k :: 0 <= k < |s| ==> s[k] == SpreadBullet(e, lo + k)
    decreases hi - lo
  {
    if hi < lo then [] else Spread(e, lo, hi - 1) + [SpreadBullet(e, hi)]
  }

  /** The elite laser: wide, fast, powered. */
  function Laser(e: Enemy): (b: Bullet)
    ensures FiredFrom(b, e) && b.body.width == 8.0 && b.body.height == 20.0
    ensures b.body.speedX == 0.0 && b.body.speedY == 8.0
    ensures b.damage == 2 && b.isPowered && !b.isHoming
  {
    var (x, y) := Muzzle(e, 4.0);
    NewBullet(x, y, 8.0, 20.0, 0.0, 8.0, EnemyOwned, true, false)
  }

  /** The elite missile: slow and homing. */
  function Missile(e: Enemy): (b: Bullet)
    ensures FiredFrom(b, e) && b.body.width == 6.0 && b.body.height == 12.0
    ensures b.body.speedX == 0.0 && b.body.speedY == 3.0
    ensures b.damage == 1 && !b.isPowered && b.isHoming
  {
    var (x, y) := Muzzle(e, 3.0);
    NewBullet(x, y, 6.0, 12.0, 0.0, 3.0, EnemyOwned, false, true)
  }

  /** The bullets of one volley; `pick` is the elite's `randomInt(0, 2)`. */
  function Volley(e: Enemy, pick: int): (bs: seq<Bullet>)
    ensures forall b :: b in bs ==> b.owner == EnemyOwned && b.WellFormed() && b.SpeedCapped()
    ensures forall b :: b in bs ==> FiredFrom(b, e)
    ensures e.kind == Basic ==> |bs| == 1 && bs[0].body.speedX == 0.0 && bs[0].damage == 1
    ensures e.kind == Advanced ==>
      |bs| == 3 && bs[0].body.speedX == -2.0 && bs[1].body.speedX == 0.0 && bs[2].body.speedX == 2.0
    ensures e.kind == Elite && pick == 0 ==> |bs| == 5 && forall b :: b in bs ==> !b.isPowered && !b.isHoming
    ensures e.kind == Elite && pick == 1 ==> |bs| == 1 && bs[0].isPowered && bs[0].damage == 2
    ensures e.kind == Elite && pick != 0 && pick != 1 ==> |bs| == 1 && bs[0].isHoming && !bs[0].isPowered
    ensures e.kind.Other? ==> bs == []
    ensures e.kind == Basic || e.kind == Advanced || (e.kind == Elite && pick == 0) ==>
      forall b :: b in bs ==> b.body.speedY == 5.0
    ensures e.kind == Elite && pick == 0 ==> forall k :: 0 <= k < |bs| ==> bs[k].body.speedX == (2 * k - 4) as real
    ensures e.kind == Elite && pick == 1 ==> bs[0].body.speedX == 0.0 && bs[0].body.speedY == 8.0
    ensures e.kind == Elite && pick != 0 && pick != 1 ==> bs[0].body.speedX == 0.0 && bs[0].body.speedY == 3.0
  {
    match e.kind
    case Basic => [SpreadBullet(e, 0)]
    case Advanced => Spread(e, -1, 1)
    case Elite =>
      if pick == 0 then Spread(e, -2, 2)
      else if pick == 1 then [Laser(e)]
      else [Missile(e)]
    case Other(_) => []
  }

  /** Whether `shoot` consumes a random draw: only an elite that fires. */
  function ShotDraws(e: Enemy): (n: nat)
    ensures n == 1 <==> e.shootTimer <= 0 && e.kind == Elite
    ensures n <= 1
  {
    if e.shootTimer <= 0 && e.kind == Elite then 1 else 0
  }

  /** `shoot()`: nothing while the cooldown runs; otherwise restart the
      cooldown and emit the kind's volley, building the spreads bullet by bullet. */
  method Shoot(e: Enemy, draw: real) returns (r: Enemy, bullets: seq<Bullet>)
    requires 0.0 <= draw < 1.0
    ensures e.shootTimer > 0 ==> r == e && bullets == []
    ensures e.shootTimer <= 0 ==> r == e.(shootTimer := e.shootRate)
    ensures e.shootTimer <= 0 ==> bullets == Volley(e, RandomInt(0, 2, draw))
    ensures e.WellFormed() ==> r.WellFormed()
  {
    if e.shootTimer > 0 {
      return e, [];
    }
    r := e.(shootTimer := e.shootRate);
    bullets := [];
    match e.kind {
      case Basic =>
        bullets := bullets + [SpreadBullet(e, 0)];
      case Advanced =>
        for i := -1 to 2
          invariant bullets == Spread(e, -1, i - 1)
        {
          bullets := bullets + [SpreadBullet(e, i)];
        }
      case Elite =>
        var pick := RandomInt(0, 2, draw);
        if pick == 0 {
          for i := -2 to 3
            invariant bullets == Spread(e, -2, i - 1)
          {
            bullets := bullets + [SpreadBullet(e, i)];
          }
        } else if pick == 1 {
          bullets := bullets + [Laser(e)];
        } else {
          bullets := bullets + [Missile(e)];
        }
      case Other(_) =>
    }
  }

  /** Kind selection in `createRandomEnemy` from the draw `r`. */
  function KindFor(r: real, difficulty: real): (k: EnemyType)
    ensures k == Elite <==> r < 0.1 * difficulty
    ensures k == Advanced <==> 0.1 * difficulty <= r < 0.3 * difficulty
    ensures k == Basic <==> r >= 0.1 * difficulty && r >= 0.3 * difficulty
    ensures 0.0 <= r && difficulty <= 0.0 ==> k == Basic
  {
    if r < 0.1 * difficulty then Elite
    else if r < 0.3 * difficulty then Advanced
    else Basic
  }

  /** A harder game never turns a draw that spawned an elite into a weaker kind,
      nor a draw that spawned a non-basic enemy into a basic one. */
  lemma KindForIsMonotone(r: real, d1: real, d2: real)
    requires 0.0 <= d1 <= d2
    ensures KindFor(r, d1) == Elite ==> KindFor(r, d2) == Elite
    ensures KindFor(r, d1) != Basic ==> KindFor(r, d2) != Basic
  {
  }

  /** The side of the square hull of each spawned kind. */
  function SizeOf(kind: EnemyType): (s: int)
    ensures 30 <= s <= 50 && s % 10 == 0
  {
    match kind
    case Advanced => 40
    case Elite => 50
    case _ => 30
  }

  /** The factor of `1 + difficulty` that gives each kind its falling speed. */
  function SpeedFactor(kind: EnemyType): (f: real)
    ensures 0.7 <= f <= 1.5
  {
    if kind == Basic then 1.5 else if kind == Advanced then 1.0 else 0.7
  }

  /** The stronger the kind, the larger its hull and the slower it falls.
      A kind outside the three gets the basic hull (the `default` branch)
      but the elite speed (the last arm of the speed conditional). */
  lemma KindsAreGraded()
    ensures SizeOf(Basic) < SizeOf(Advanced) < SizeOf(Elite)
    ensures SpeedFactor(Elite) < SpeedFactor(Advanced) < SpeedFactor(Basic)
    ensures forall name :: SizeOf(Other(name)) == SizeOf(Basic) && SpeedFactor(Other(name)) == SpeedFactor(Elite)
  {
  }

  /** How many random draws `createRandomEnemy` consumes: kind, x, cooldown and,
      for the kinds that choose one, the movement pattern. */
  function SpawnDraws(kind: EnemyType): nat {
    if ChoosesPattern(kind) then 4 else 3
  }

  /** `createRandomEnemy(canvasWidth, difficulty)`, with its draws passed in
      in the order the JavaScript makes them. */
  function CreateRandomEnemy(canvasWidth: int, difficulty: real,
                             kindDraw: real, xDraw: real, timerDraw: real, patternDraw: real): (e: Enemy)
    requires 0.0 <= kindDraw < 1.0 && 0.0 <= xDraw < 1.0 && 0.0 <= timerDraw < 1.0 && 0.0 <= patternDraw < 1.0
    ensures e.WellFormed() && e.body.active
    ensures e.kind == KindFor(kindDraw, difficulty)
    ensures e.kind != Basic ==> difficulty > 0.0
    ensures e.health == InitialHealth(e.kind) >= 1
    ensures e.body.width == e.body.height == SizeOf(e.kind) as real
    ensures e.body.y == -e.body.height
    ensures canvasWidth >= SizeOf(e.kind) ==> 0.0 <= e.body.x <= (canvasWidth - SizeOf(e.kind)) as real
    ensures e.body.x == e.body.x.Floor as real
    ensures e.body.speedX == 0.0
    ensures e.kind == Basic ==> e.body.speedY == (1.0 + difficulty) * 1.5
    ensures e.kind == Advanced ==> e.body.speedY == 1.0 + difficulty
    ensures e.kind == Elite ==> e.body.speedY == (1.0 + difficulty) * 0.7
  {
    var kind := KindFor(kindDraw, difficulty);
    var size := SizeOf(kind);
    var x := RandomInt(0, canvasWidth - size, xDraw);
    var e := NewEnemy(x as real, -(size as real), size as real, size as real, kind, timerDraw, patternDraw);
    e.(body := e.body.(speedY := (1.0 + difficulty) * SpeedFactor(kind)))
  }
}

/** js/bullet.js: a projectile, either fired by the player or by an enemy,
    optionally powered (double damage) or homing (steers toward the player). */
module Bullets {
  import opened Utils
  import opened Sprites

  /** The `owner` string: `'player'` or `'enemy'`. */
  datatype Owner = PlayerOwned | EnemyOwned

  /** The top speed of a homing bullet. */
  const MaxHomingSpeed: real := 6.0

  /** How strongly a homing bullet steers (`homingStrength`). */
  const HomingStrength: real := 0.2

  datatype Bullet = Bullet(
    body: Sprite,
    owner: Owner,
    damage: int,
    isPowered: bool,
    isHoming: bool,
    homingStrength: real)
  {
    /** What the constructor establishes and no update changes. */
    predicate WellFormed() {
      damage == (if isPowered then 2 else 1) && homingStrength == HomingStrength
    }

    /** A homing bullet never flies faster than `MaxHomingSpeed`. */
    predicate SpeedCapped() {
      isHoming ==> UnderCap(body)
    }

    /** The homing branch of `update` applies only with an active target. */
    predicate Steers(target: Option<Sprite>) {
      isHoming && target.Some? && target.value.active
    }

    /** `update(dt, player)`: a homing bullet with an active target first
        steers toward the target's centre and has its speed capped; then every
        bullet moves linearly by its (new) speed. How it moves is stated by
        `UpdateMoves`, the speed limit by `UpdateKeepsCap`. */
    function Update(dt: real, target: Option<Sprite>, math: MathLib): (r: Bullet)
      ensures r.owner == owner && r.damage == damage && r.isPowered == isPowered
      ensures r.isHoming == isHoming && r.homingStrength == homingStrength
      ensures r.body.active == body.active
      ensures WellFormed() ==> r.WellFormed()
    {
      this.(body := Aimed(target, math).Update(dt))
    }

    /** The body as `update` leaves it before moving: in the homing branch
        with the new velocity and a rotation facing along it, otherwise as it
        was. */
    function Aimed(target: Option<Sprite>, math: MathLib): (s: Sprite)
      ensures s.x == body.x && s.y == body.y && s.width == body.width && s.height == body.height
      ensures s.active == body.active
      ensures !Steers(target) ==> s == body
      ensures Steers(target) && math.Valid() ==> UnderCap(s)
    {
      if Steers(target) then
        var v := Steered(target.value, math);
        body.(speedX := v.0, speedY := v.1, rotation := math.atan2(v.1, v.0))
      else
        body
    }

    /** The velocity of the homing branch: the speed turned by
        `homingStrength` toward the centre of sprite p, then capped. */
    function Steered(p: Sprite, math: MathLib): (v: (real, real))
      ensures math.Valid() ==> v.0 * v.0 + v.1 * v.1 <= MaxHomingSpeed * MaxHomingSpeed
    {
      var dx := p.x + p.width / 2.0 - (body.x + body.width / 2.0);
      var dy := p.y + p.height / 2.0 - (body.y + body.height / 2.0);
      var angle := math.atan2(dy, dx);
      var sx := body.speedX + math.cos(angle) * homingStrength;
      var sy := body.speedY + math.sin(angle) * homingStrength;
      CapWithSqrt(math, sx, sy);
      CapSpeed(sx, sy, math.sqrt(sx * sx + sy * sy))
    }

    /** `isOutOfBounds(W, H)`: entirely off the canvas, all comparisons strict. */
    predicate IsOutOfBounds(canvasWidth: real, canvasHeight: real)
      ensures IsOutOfBounds(canvasWidth, canvasHeight) ==>
                !CheckCollision(body.Bounds(), Rect(0.0, 0.0, canvasWidth, canvasHeight))
    {
      body.x < -body.width || body.x > canvasWidth || body.y < -body.height || body.y > canvasHeight
    }
  }

  /** Every bullet moves by its velocity after steering; one that does not
      steer keeps its velocity and moves exactly as its sprite does. */
  lemma UpdateMoves(b: Bullet, dt: real, target: Option<Sprite>, math: MathLib)
    ensures var r := b.Update(dt, target, math);
      r.body.Bounds() == Rect(b.body.x + r.body.speedX * dt, b.body.y + r.body.speedY * dt, b.body.width, b.body.height)
    ensures !b.Steers(target) ==> b.Update(dt, target, math).body == b.body.Update(dt)
    ensures !b.Steers(target) ==> var r := b.Update(dt, target, math);
      r.body.speedX == b.body.speedX && r.body.speedY == b.body.speedY
  {
    var aimed := b.Aimed(target, math);
    assert b.Update(dt, target, math).body == aimed.Update(dt);
  }

  /** A bullet that steers with a correct square root comes out no faster
      than `MaxHomingSpeed`, so the cap of a homing bullet is kept. */
  lemma UpdateKeepsCap(b: Bullet, dt: real, target: Option<Sprite>, math: MathLib)
    requires math.Valid()
    ensures b.Steers(target) ==> UnderCap(b.Update(dt, target, math).body)
    ensures b.SpeedCapped() ==> b.Update(dt, target, math).SpeedCapped()
  {
    var aimed := b.Aimed(target, math);
    var moved := aimed.Update(dt);
    assert b.Update(dt, target, math).body == moved;
    assert UnderCap(aimed) ==> UnderCap(moved) by {
      assert moved.speedX == aimed.speedX && moved.speedY == aimed.speedY;
    }
  }

  /** A velocity no faster than `MaxHomingSpeed`. */
  predicate UnderCap(s: Sprite) {
    s.speedX * s.speedX + s.speedY * s.speedY <= MaxHomingSpeed * MaxHomingSpeed
  }

  /** The constructor `new Bullet(x, y, w, h, speedX, speedY, owner, isPowered, isHoming)`. */
  function NewBullet(x: real, y: real, width: real, height: real, speedX: real, speedY: real,
                     owner: Owner, isPowered: bool, isHoming: bool): (b: Bullet)
    ensures b.WellFormed()
    ensures b.damage == 2 <==> isPowered
    ensures b.damage == 1 <==> !isPowered
    ensures b.owner == owner && b.isPowered == isPowered && b.isHoming == isHoming
    ensures b.body.Bounds() == Rect(x, y, width, height)
    ensures b.body.speedX == speedX && b.body.speedY == speedY && b.body.active
  {
    var s := NewSprite(x, y, width, height);
    Bullet(s.(speedX := speedX, speedY := speedY), owner,
           if isPowered then 2 else 1, isPowered, isHoming, HomingStrength)
  }

  /** The speed limit of `update`: a velocity faster than `MaxHomingSpeed`
      (by the given magnitude) is scaled back onto it. */
  function CapSpeed(sx: real, sy: real, speed: real): (r: (real, real))
    ensures r.0 * sy == r.1 * sx
    ensures speed <= MaxHomingSpeed ==> r == (sx, sy)
  {
    if speed > MaxHomingSpeed then (sx / speed * MaxHomingSpeed, sy / speed * MaxHomingSpeed)
    else (sx, sy)
  }

  /** When `speed` is the magnitude of (sx, sy), the capped velocity has
      magnitude at most 6; a rescaled one has magnitude exactly 6 and keeps
      its direction. */
  lemma CapSpeedBounds(sx: real, sy: real, speed: real)
    requires 0.0 <= speed && speed * speed == sx * sx + sy * sy
    ensures var (cx, cy) := CapSpeed(sx, sy, speed);
      cx * cx + cy * cy <= MaxHomingSpeed * MaxHomingSpeed
    ensures speed > MaxHomingSpeed ==> var (cx, cy) := CapSpeed(sx, sy, speed);
      && cx * cx + cy * cy == MaxHomingSpeed * MaxHomingSpeed
      && cx * speed == sx * MaxHomingSpeed && cy * speed == sy * MaxHomingSpeed
    ensures speed <= MaxHomingSpeed ==> CapSpeed(sx, sy, speed) == (sx, sy)
  {
    if speed > MaxHomingSpeed {
      Rescaled(sx, sy, speed);
    } else {
      SlowSpeedIsUnderCap(speed);
    }
  }

  lemma Rescaled(sx: real, sy: real, speed: real)
    requires speed > 6.0 && speed * speed == sx * sx + sy * sy
    ensures var (cx, cy) := (sx / speed * 6.0, sy / speed * 6.0);
      && cx * cx + cy * cy == 36.0
      && cx * speed == sx * 6.0 && cy * speed == sy * 6.0
  {
    var k := 6.0 / speed;
    assert sx / speed * 6.0 == sx * k;
    assert sy / speed * 6.0 == sy * k;
    assert speed * k == 6.0;
    calc {
      (sx * k) * (sx * k) + (sy * k) * (sy * k);
      (sx * sx + sy * sy) * (k * k);
      (speed * speed) * (k * k);
      (speed * k) * (speed * k);
      36.0;
    }
  }

  lemma SlowSpeedIsUnderCap(speed: real)
    requires 0.0 <= speed <= 6.0
    ensures speed * speed <= 36.0
  {
    assert speed * speed <= 6.0 * speed;
  }

  /** `CapSpeedBounds` with the speed computed by `Math.sqrt`. */
  lemma CapWithSqrt(math: MathLib, sx: real, sy: real)
    ensures math.Valid() ==> var (cx, cy) := CapSpeed(sx, sy, math.sqrt(sx * sx + sy * sy));
      cx * cx + cy * cy <= MaxHomingSpeed * MaxHomingSpeed
  {
    if math.Valid() {
      assert 0.0 <= sx * sx + sy * sy;
      CapSpeedBounds(sx, sy, math.sqrt(sx * sx + sy * sy));
    }
  }
}

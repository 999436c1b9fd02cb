/** js/player.js: the player's aircraft. Its fields are updated in place by
    input handling, shooting, damage, power-ups and the per-frame update. */
module Players {
  import opened Utils
  import opened Sprites
  import opened Bullets

  /** `fireRate`: frames between two volleys. */
  const FireRate: int := 10
  /** `invincibleDuration`: frames of invincibility after losing a life. */
  const InvincibleDuration: int := 120
  /** `keyboardSpeed`: pixels per frame under keyboard control. */
  const KeyboardSpeed: real := 5.0
  /** The highest firepower tier `increasePower` reaches. */
  const MaxFirepower: int := 4
  /** How far toward the pointer the aircraft moves each frame. */
  const TouchFollow: real := 0.2

  datatype Direction = Up | Down | Left | Right

  /** The key bindings of `handleKeyInput`: arrows and WASD in either case. */
  function KeyDirection(key: string): (d: Option<Direction>)
    ensures d == Some(Up) <==> key in {"ArrowUp", "w", "W"}
    ensures d == Some(Down) <==> key in {"ArrowDown", "s", "S"}
    ensures d == Some(Left) <==> key in {"ArrowLeft", "a", "A"}
    ensures d == Some(Right) <==> key in {"ArrowRight", "d", "D"}
  {
    if key == "ArrowUp" || key == "w" || key == "W" then Some(Up)
    else if key == "ArrowDown" || key == "s" || key == "S" then Some(Down)
    else if key == "ArrowLeft" || key == "a" || key == "A" then Some(Left)
    else if key == "ArrowRight" || key == "d" || key == "D" then Some(Right)
    else None
  }

  /** One bullet of the player's volley: 4x10, owned by the player, never
      homing, and hitting for 2 when powered and 1 otherwise. */
  function Shot(x: real, y: real, speedX: real, speedY: real, powered: bool): (b: Bullet)
    ensures b.owner == PlayerOwned && b.WellFormed() && !b.isHoming && b.isPowered == powered
    ensures b.damage == if powered then 2 else 1
    ensures b.body.Bounds() == Rect(x, y, 4.0, 10.0) && b.body.speedX == speedX && b.body.speedY == speedY
  {
    NewBullet(x, y, 4.0, 10.0, speedX, speedY, PlayerOwned, powered, false)
  }

  /** The volley of `shoot` for a firepower tier, fired from sprite s: one
      centre bullet, two parallel bullets, or a centre bullet between two
      diagonal ones; every tier outside 1..3 takes the `default` branch,
      whose centre bullet is powered and whose diagonals are wider. */
  function Volley(s: Sprite, tier: int): (bs: seq<Bullet>)
    ensures |bs| == if tier == 1 then 1 else if tier == 2 then 2 else 3
    ensures forall b :: b in bs ==> b.owner == PlayerOwned && b.WellFormed() && !b.isHoming
    ensures forall i :: 0 <= i < |bs| ==> (bs[i].isPowered <==> tier != 1 && tier != 2 && tier != 3 && i == 0)
    ensures forall b :: b in bs ==> b.body.speedY < 0.0
    ensures tier == 2 && s.width > 0.0 ==> bs[0].body.x < bs[1].body.x
    ensures tier == 1 || tier == 2 ==> forall b :: b in bs ==> b.body.speedX == 0.0 && b.body.speedY == -10.0
    ensures tier != 1 && tier != 2 ==> bs[0].body.speedX == 0.0 && bs[0].body.speedY == -10.0
    ensures tier != 1 && tier != 2 ==>
      var spread := if tier == 3 then 1.0 else 1.5;
      && bs[1].body.speedX == -spread && bs[2].body.speedX == spread
      && bs[1].body.speedY == -9.0 && bs[2].body.speedY == -9.0
  {
    var x, y, w := s.x, s.y, s.width;
    if tier == 1 then
      [Shot(x + w / 2.0 - 2.0, y - 5.0, 0.0, -10.0, false)]
    else if tier == 2 then
      [Shot(x + w / 3.0 - 2.0, y, 0.0, -10.0, false), Shot(x + w * 2.0 / 3.0 - 2.0, y, 0.0, -10.0, false)]
    else if tier == 3 then
      [Shot(x + w / 2.0 - 2.0, y - 5.0, 0.0, -10.0, false),
       Shot(x + w / 4.0 - 2.0, y, -1.0, -9.0, false),
       Shot(x + w * 3.0 / 4.0 - 2.0, y, 1.0, -9.0, false)]
    else
      [Shot(x + w / 2.0 - 2.0, y - 5.0, 0.0, -10.0, true),
       Shot(x + w / 4.0 - 2.0, y, -1.5, -9.0, false),
       Shot(x + w * 3.0 / 4.0 - 2.0, y, 1.5, -9.0, false)]
  }

  /** The horizontal and vertical position the controls ask for, before the
      clamp: under keyboard control each held key moves five pixels (opposite
      keys cancel); otherwise, once a pointer position is known, the aircraft
      closes a fifth of the distance to the point that centres it there. */
  function Steer(x: real, y: real, width: real, keyboard: bool,
                 up: bool, down: bool, left: bool, right: bool, touchX: Option<real>): (p: (real, real))
    ensures keyboard ==> p.0 - x in {-KeyboardSpeed, 0.0, KeyboardSpeed}
    ensures keyboard ==> p.1 - y in {-KeyboardSpeed, 0.0, KeyboardSpeed}
    ensures keyboard && left == right ==> p.0 == x
    ensures keyboard && up == down ==> p.1 == y
    ensures !keyboard ==> p.1 == y
    ensures !keyboard && touchX.None? ==> p.0 == x
    ensures !keyboard && touchX.Some? ==>
      Min(x, touchX.value - width / 2.0) <= p.0 <= Max(x, touchX.value - width / 2.0)
  {
    if keyboard then
      var nx := x - (if left then KeyboardSpeed else 0.0) + (if right then KeyboardSpeed else 0.0);
      var ny := y - (if up then KeyboardSpeed else 0.0) + (if down then KeyboardSpeed else 0.0);
      (nx, ny)
    else if touchX.Some? then
      (Lerp(x, touchX.value - width / 2.0, TouchFollow), y)
    else
      (x, y)
  }

  /** The movement step of `update`, key by key as the JavaScript takes it. */
  method SteerStep(x0: real, y0: real, width: real, keyboard: bool,
                   up: bool, down: bool, left: bool, right: bool, touchX: Option<real>)
    returns (x: real, y: real)
    ensures (x, y) == Steer(x0, y0, width, keyboard, up, down, left, right, touchX)
  {
    x, y := x0, y0;
    if keyboard {
      if left {
        x := x - KeyboardSpeed;
      }
      if right {
        x := x + KeyboardSpeed;
      }
      if up {
        y := y - KeyboardSpeed;
      }
      if down {
        y := y + KeyboardSpeed;
      }
    } else if touchX.Some? {
      var targetX := touchX.value - width / 2.0;
      x := Lerp(x, targetX, TouchFollow);
    }
  }

  /** The part of the player's state that damage and power-ups act on. */
  datatype Vitals = Vitals(
    lives: int,
    firepower: int,
    invincible: bool,
    invincibleTimer: int,
    shield: bool,
    shieldHealth: int)
  {
    /** A tier in 1..4, and the invincibility and shield flags backed by a
        positive counter. */
    predicate Valid() {
      && 1 <= firepower <= MaxFirepower
      && (invincible ==> invincibleTimer >= 1)
      && (shield ==> shieldHealth >= 1)
    }
  }

  /** The outcome of `takeDamage`: the new vitals and whether the player died. */
  datatype Hurt = Hurt(after: Vitals, dead: bool)

  /** `takeDamage`: invincibility absorbs the hit first, then the shield (one
      charge, dropping the shield at none left); otherwise a life is lost,
      invincibility starts for `InvincibleDuration` frames, and the player is
      dead at no lives left. */
  function Damage(v: Vitals): (r: Hurt)
    ensures v.invincible ==> r.after == v && !r.dead
    ensures !v.invincible && v.shield ==>
      && r.after == v.(shieldHealth := v.shieldHealth - 1, shield := v.shieldHealth - 1 > 0)
      && !r.dead
    ensures !v.invincible && !v.shield ==>
      && r.after == v.(lives := v.lives - 1, invincible := true, invincibleTimer := InvincibleDuration)
      && r.dead == (r.after.lives <= 0)
    ensures v.lives - 1 <= r.after.lives <= v.lives && r.after.firepower == v.firepower
    ensures r.after.lives < v.lives ==> r.after.invincible && r.after.invincibleTimer == InvincibleDuration
    ensures r.dead <==> r.after.lives < v.lives && r.after.lives <= 0
    ensures v.Valid() ==> r.after.Valid()
  {
    if v.invincible then
      Hurt(v, false)
    else if v.shield then
      var left := v.shieldHealth - 1;
      Hurt(v.(shieldHealth := left, shield := left > 0), false)
    else
      var lives := v.lives - 1;
      Hurt(v.(lives := lives, invincible := true, invincibleTimer := InvincibleDuration), lives <= 0)
  }

  /** n hits in a row. */
  function Hits(v: Vitals, n: nat): Vitals
    decreases n
  {
    if n == 0 then v else Damage(Hits(v, n - 1)).after
  }

  /** However many hits land in a row, at most one life is lost: the first
      lost life starts invincibility, which absorbs every later hit. */
  lemma {:induction false} AtMostOneLifePerBurst(v: Vitals, n: nat)
    ensures v.lives - 1 <= Hits(v, n).lives <= v.lives
    ensures Hits(v, n).lives < v.lives ==> Hits(v, n).invincible
    decreases n
  {
    if n > 0 {
      AtMostOneLifePerBurst(v, n - 1);
    }
  }

  /** The invincibility step of `update`: the counter runs down by one
      frame, and invincibility ends once it reaches zero. */
  function Cooldown(v: Vitals): (r: Vitals)
    ensures v.invincible ==> r.invincibleTimer == v.invincibleTimer - 1 && (r.invincible <==> r.invincibleTimer > 0)
    ensures !v.invincible ==> r == v
    ensures r == v.(invincible := r.invincible, invincibleTimer := r.invincibleTimer)
    ensures v.Valid() ==> r.Valid()
  {
    if v.invincible then
      var timer := v.invincibleTimer - 1;
      v.(invincibleTimer := timer, invincible := timer > 0)
    else
      v
  }

  /** n frames of `Cooldown`. */
  function Cooled(v: Vitals, n: nat): Vitals
    decreases n
  {
    if n == 0 then v else Cooldown(Cooled(v, n - 1))
  }

  /** Invincibility with t frames on the counter lasts exactly t frames: it
      holds after n < t frames and is gone after t, so a lost life protects
      the player for `InvincibleDuration` frames. */
  lemma {:induction false} InvincibilityRunsOut(v: Vitals, n: nat)
    requires v.invincible && v.invincibleTimer >= 1 && n <= v.invincibleTimer
    ensures Cooled(v, n) == v.(invincible := n < v.invincibleTimer, invincibleTimer := v.invincibleTimer - n)
    decreases n
  {
    if n > 0 {
      InvincibilityRunsOut(v, n - 1);
    }
  }

  /** The motion step of `update` for the aircraft at sprite s: the sprite's
      own motion, the move the controls ask for from there, and the clamp
      into the canvas. */
  function Flown(s: Sprite, dt: real, canvasWidth: real, canvasHeight: real, keyboard: bool,
                 up: bool, down: bool, left: bool, right: bool, touchX: Option<real>): (r: Sprite)
    ensures r == s.Update(dt).(x := r.x, y := r.y)
    ensures var p := Steer(s.x + s.speedX * dt, s.y + s.speedY * dt, s.width, keyboard, up, down, left, right, touchX);
      r.x == Clamp(p.0, 0.0, canvasWidth - s.width) && r.y == Clamp(p.1, 0.0, canvasHeight - s.height)
    ensures r.width == s.width && r.height == s.height && r.active == s.active
    ensures canvasWidth >= r.width ==> 0.0 <= r.x <= canvasWidth - r.width
    ensures canvasHeight >= r.height ==> 0.0 <= r.y <= canvasHeight - r.height
  {
    var m := s.Update(dt);
    var p := Steer(m.x, m.y, m.width, keyboard, up, down, left, right, touchX);
    m.(x := Clamp(p.0, 0.0, canvasWidth - m.width), y := Clamp(p.1, 0.0, canvasHeight - m.height))
  }

  class Player {
    var body: Sprite
    var lives: int
    var fireTimer: int
    var firepower: int
    var invincible: bool
    var invincibleTimer: int
    var shield: bool
    var shieldHealth: int
    var touchX: Option<real>
    var touchY: Option<real>
    var isShooting: bool
    var keyboardControl: bool
    var moveUp: bool
    var moveDown: bool
    var moveLeft: bool
    var moveRight: bool

    /** What every operation keeps: a tier in 1..4, a cooldown that is never
        negative, and the invincibility and shield flags backed by a positive
        counter. */
    ghost predicate Valid()
      reads this
    {
      State().Valid() && fireTimer >= 0
    }

    /** The fields `takeDamage` and the power-ups act on. */
    ghost function State(): Vitals
      reads this
    {
      Vitals(lives, firepower, invincible, invincibleTimer, shield, shieldHealth)
    }

    /** Where `update` moves the aircraft: `Flown` under the player's controls. */
    ghost function Flight(dt: real, canvasWidth: real, canvasHeight: real): Sprite
      reads this`body, this`keyboardControl, this`moveUp, this`moveDown, this`moveLeft, this`moveRight, this`touchX
    {
      Flown(body, dt, canvasWidth, canvasHeight, keyboardControl, moveUp, moveDown, moveLeft, moveRight, touchX)
    }

    /** The constructor: three lives, tier 1, always shooting, no control yet. */
    constructor (x: real, y: real, width: real, height: real)
      ensures Valid()
      ensures body == NewSprite(x, y, width, height)
      ensures lives == 3 && fireTimer == 0 && firepower == 1
      ensures !invincible && invincibleTimer == 0 && !shield && shieldHealth == 0
      ensures touchX == None && touchY == None && isShooting && !keyboardControl
      ensures !moveUp && !moveDown && !moveLeft && !moveRight
    {
      body := NewSprite(x, y, width, height);
      lives := 3;
      fireTimer := 0;
      firepower := 1;
      invincible := false;
      invincibleTimer := 0;
      shield := false;
      shieldHealth := 0;
      touchX := None;
      touchY := None;
      isShooting := true;
      keyboardControl := false;
      moveUp, moveDown, moveLeft, moveRight := false, false, false, false;
    }

    /** `handleInput`: pointer control takes over; `isShooting` stays as it was. */
    method HandleInput(x: real, y: real, shooting: bool)
      modifies this`touchX, this`touchY, this`keyboardControl
      ensures touchX == Some(x) && touchY == Some(y) && !keyboardControl
    {
      touchX := Some(x);
      touchY := Some(y);
      keyboardControl := false;
    }

    /** `handleKeyInput`: keyboard control takes over for every key, bound or
        not; a bound key sets its direction flag to whether it is held. */
    method HandleKeyInput(key: string, isPressed: bool)
      modifies this`keyboardControl, this`moveUp, this`moveDown, this`moveLeft, this`moveRight
      ensures keyboardControl
      ensures moveUp == if KeyDirection(key) == Some(Up) then isPressed else old(moveUp)
      ensures moveDown == if KeyDirection(key) == Some(Down) then isPressed else old(moveDown)
      ensures moveLeft == if KeyDirection(key) == Some(Left) then isPressed else old(moveLeft)
      ensures moveRight == if KeyDirection(key) == Some(Right) then isPressed else old(moveRight)
    {
      keyboardControl := true;
      match KeyDirection(key) {
        case Some(Up) => moveUp := isPressed;
        case Some(Down) => moveDown := isPressed;
        case Some(Left) => moveLeft := isPressed;
        case Some(Right) => moveRight := isPressed;
        case None =>
      }
    }

    /** `shoot`: nothing while the cooldown runs; otherwise restart it and
        return the volley of the current tier. */
    method Shoot() returns (bullets: seq<Bullet>)
      modifies this`fireTimer
      ensures old(fireTimer) > 0 ==> bullets == [] && fireTimer == old(fireTimer)
      ensures old(fireTimer) <= 0 ==> fireTimer == FireRate && bullets == Volley(body, firepower)
    {
      if fireTimer <= 0 {
        fireTimer := FireRate;
        bullets := Volley(body, firepower);
      } else {
        bullets := [];
      }
    }

    /** `takeDamage`: the rule `Damage`, applied to the player's fields. */
    method TakeDamage() returns (dead: bool)
      modifies this`lives, this`invincible, this`invincibleTimer, this`shield, this`shieldHealth
      ensures Hurt(State(), dead) == Damage(old(State()))
      ensures old(Valid()) ==> Valid()
    {
      if invincible {
        return false;
      }
      if shield {
        shieldHealth := shieldHealth - 1;
        if shieldHealth <= 0 {
          shield := false;
        }
        return false;
      }
      lives := lives - 1;
      invincible := true;
      invincibleTimer := InvincibleDuration;
      dead := lives <= 0;
    }

    /** `increasePower`: raise the tier, never beyond 4. */
    method IncreasePower(amount: int)
      modifies this`firepower
      ensures firepower == if old(firepower) + amount < MaxFirepower then old(firepower) + amount else MaxFirepower
      ensures firepower <= MaxFirepower
      ensures old(firepower) == MaxFirepower && amount >= 0 ==> firepower == MaxFirepower
      ensures old(Valid()) && amount >= 0 ==> Valid()
    {
      firepower := if firepower + amount < MaxFirepower then firepower + amount else MaxFirepower;
    }

    /** `addShield`: the shield is up with the given number of charges. */
    method AddShield(health: int)
      modifies this`shield, this`shieldHealth
      ensures shield && shieldHealth == health
      ensures old(Valid()) && health >= 1 ==> Valid()
    {
      shield := true;
      shieldHealth := health;
    }

    /** `addLife`. */
    method AddLife(amount: int)
      modifies this`lives
      ensures lives == old(lives) + amount
    {
      lives := lives + amount;
    }

    /** The timer step of `update`: the firing cooldown runs down to zero and
        stops there; invincibility ends once its counter runs out. */
    method TickTimers()
      modifies this`fireTimer, this`invincible, this`invincibleTimer
      ensures fireTimer == if old(fireTimer) > 0 then old(fireTimer) - 1 else old(fireTimer)
      ensures State() == Cooldown(old(State()))
    {
      if fireTimer > 0 {
        fireTimer := fireTimer - 1;
      }
      if invincible {
        invincibleTimer := invincibleTimer - 1;
        if invincibleTimer <= 0 {
          invincible := false;
        }
      }
    }

    /** `update(dt, canvasWidth, canvasHeight)`: sprite motion, one frame off
        each timer (invincibility ends when its timer runs out), the move the
        controls ask for, and the clamp into the canvas. */
    method Update(dt: real, canvasWidth: real, canvasHeight: real)
      modifies this`body, this`fireTimer, this`invincible, this`invincibleTimer
      ensures fireTimer == if old(fireTimer) > 0 then old(fireTimer) - 1 else old(fireTimer)
      ensures State() == Cooldown(old(State()))
      ensures body == old(Flight(dt, canvasWidth, canvasHeight))
      ensures old(Valid()) ==> Valid()
    {
      var s := body.Update(dt);
      TickTimers();
      var x, y := SteerStep(s.x, s.y, s.width, keyboardControl, moveUp, moveDown, moveLeft, moveRight, touchX);
      x := Clamp(x, 0.0, canvasWidth - s.width);
      y := Clamp(y, 0.0, canvasHeight - s.height);
      body := s.(x := x, y := y);
    }
  }
}

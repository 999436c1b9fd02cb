/** js/powerup.js: falling pickups that strengthen the player, and their
    weighted random choice. */
module PowerUps {
  import opened Utils
  import opened Sprites
  import opened Players

  /** The `type` string: `'power'`, `'shield'`, `'life'` or `'bomb'`. */
  datatype PowerUpType = Power | Shield | Life | Bomb

  /** The falling speed and spin every power-up starts with. */
  const FallSpeed: real := 2.0
  const SpinSpeed: real := 0.02

  /** How long the effect message stays up, in milliseconds. */
  const EffectDuration: int := 2000

  datatype PowerUp = PowerUp(body: Sprite, kind: PowerUpType, rotationSpeed: real)
  {
    /** What the constructor establishes and `update` keeps. */
    predicate WellFormed() {
      body.speedX == 0.0 && body.speedY == FallSpeed && rotationSpeed == SpinSpeed
    }

    /** `update(dt)`: fall with the sprite's speed, and spin by a fixed step
        per frame (the spin is not scaled by dt). */
    function Update(dt: real): (r: PowerUp)
      ensures r.kind == kind && r.rotationSpeed == rotationSpeed
      ensures r.body.y == body.y + body.speedY * dt && r.body.x == body.x + body.speedX * dt
      ensures r.body.rotation == body.rotation + rotationSpeed
      ensures r.body.width == body.width && r.body.height == body.height && r.body.active == body.active
      ensures WellFormed() ==> r.WellFormed()
      ensures WellFormed() ==> r.body.y == body.y + 2.0 * dt && r.body.x == body.x
                               && r.body.rotation == body.rotation + 0.02
    {
      var moved := body.Update(dt);
      this.(body := moved.(rotation := moved.rotation + rotationSpeed))
    }

    /** `isOutOfBounds(canvasHeight)`: only the bottom edge counts. */
    predicate IsOutOfBounds(canvasHeight: real)
      ensures IsOutOfBounds(canvasHeight) ==>
                forall canvasWidth: real :: !CheckCollision(body.Bounds(), Rect(0.0, 0.0, canvasWidth, canvasHeight))
    {
      body.y > canvasHeight
    }
  }

  /** `new PowerUp(x, y, type)`: a 20x20 pickup falling at 2 per frame. */
  function NewPowerUp(x: real, y: real, kind: PowerUpType): (p: PowerUp)
    ensures p.WellFormed() && p.kind == kind
    ensures p.body.Bounds() == Rect(x, y, 20.0, 20.0) && p.body.active
  {
    var s := NewSprite(x, y, 20.0, 20.0);
    PowerUp(s.(speedY := FallSpeed), kind, SpinSpeed)
  }

  /** A power-up that has fallen below the canvas stays below it. */
  lemma OutOfBoundsIsFinal(p: PowerUp, canvasHeight: real, dt: real)
    requires p.WellFormed() && dt >= 0.0 && p.IsOutOfBounds(canvasHeight)
    ensures p.Update(dt).IsOutOfBounds(canvasHeight)
  {
  }

  /** The object `applyEffect` returns; the message text is not modelled. */
  datatype EffectInfo = EffectInfo(duration: int)

  /** What `applyEffect` does to the player: power raises the firepower tier
      by one (capped at 4), shield raises a three-charge shield, life adds a
      life, and bomb leaves the player alone (the game clears the field). */
  function Boost(v: Vitals, kind: PowerUpType): (r: Vitals)
    ensures r.firepower == if kind == Power then Min4(v.firepower + 1) else v.firepower
    ensures kind == Shield ==> r.shield && r.shieldHealth == 3
    ensures kind != Shield ==> r.shield == v.shield && r.shieldHealth == v.shieldHealth
    ensures r.lives == if kind == Life then v.lives + 1 else v.lives
    ensures r.invincible == v.invincible && r.invincibleTimer == v.invincibleTimer
    ensures kind == Bomb ==> r == v
    ensures v.Valid() ==> r.Valid()
  {
    match kind
    case Power => v.(firepower := Min4(v.firepower + 1))
    case Shield => v.(shield := true, shieldHealth := 3)
    case Life => v.(lives := v.lives + 1)
    case Bomb => v
  }

  /** `applyEffect(player)`: the rule `Boost`, applied through the player's
      own methods; the message lasts `EffectDuration` milliseconds. */
  method ApplyEffect(p: PowerUp, player: Player) returns (info: EffectInfo)
    modifies player`firepower, player`shield, player`shieldHealth, player`lives
    ensures info.duration == EffectDuration
    ensures player.State() == Boost(old(player.State()), p.kind)
  {
    info := EffectInfo(EffectDuration);
    match p.kind {
      case Power => player.IncreasePower(1);
      case Shield => player.AddShield(3);
      case Life => player.AddLife(1);
      case Bomb =>
    }
  }

  /** `Math.min(n, 4)`. */
  function Min4(n: int): (r: int)
    ensures r <= MaxFirepower && (r == n || r == MaxFirepower)
  {
    if n < MaxFirepower then n else MaxFirepower
  }

  /** The selection tables of `createRandomPowerUp`. */
  const Types: seq<PowerUpType> := [Power, Shield, Life, Bomb]
  const Weights: seq<int> := [40, 30, 10, 20]

  /** The running total of the first i weights. */
  function Cumulative(i: nat): (c: int)
    requires i <= |Weights|
    ensures i > 0 ==> c > Cumulative(i - 1) >= 0
  {
    if i == 0 then 0 else Cumulative(i - 1) + Weights[i - 1]
  }

  /** The sum of the weights, `weights.reduce((a, b) => a + b, 0)`. */
  function Sum(ws: seq<int>): int {
    if ws == [] then 0 else ws[0] + Sum(ws[1..])
  }

  /** Adding one more weight at the end adds it to the sum. */
  lemma {:induction false} SumSnoc(ws: seq<int>, x: int)
    ensures Sum(ws + [x]) == Sum(ws) + x
    decreases |ws|
  {
    if ws != [] {
      assert (ws + [x])[1..] == ws[1..] + [x];
      SumSnoc(ws[1..], x);
    }
  }

  /** The left-to-right sum of the first i weights is their running total,
      so the whole table sums to 100. */
  lemma {:induction false} SumIsCumulative(i: nat)
    requires i <= |Weights|
    ensures Sum(Weights[..i]) == Cumulative(i)
    ensures Sum(Weights) == Cumulative(|Weights|) == 100
    decreases i
  {
    if i > 0 {
      SumIsCumulative(i - 1);
      assert Weights[..i] == Weights[..i - 1] + [Weights[i - 1]];
      SumSnoc(Weights[..i - 1], Weights[i - 1]);
    }
  }

  /** The kind a roll in [0, 100) selects, written as the intervals the
      weights carve out: [0, 40) power, [40, 70) shield, [70, 80) life,
      [80, 100) bomb. */
  function KindForRoll(roll: real): (k: PowerUpType)
    ensures roll < Cumulative(1) as real ==> k == Types[0]
    ensures Cumulative(|Types| - 1) as real <= roll ==> k == Types[|Types| - 1]
  {
    if roll < 40.0 then Power
    else if roll < 70.0 then Shield
    else if roll < 80.0 then Life
    else Bomb
  }

  /** Each kind is chosen on exactly the stretch of rolls its weight covers. */
  lemma KindForRollIsWeighted(roll: real, i: nat)
    requires i < |Types|
    requires Cumulative(i) as real <= roll < Cumulative(i + 1) as real
    ensures KindForRoll(roll) == Types[i]
  {
  }

  /** `createRandomPowerUp(x, y)` with its draw passed in: walk the weights,
      accumulating them, and take the first kind whose running total exceeds
      the scaled draw. */
  method CreateRandomPowerUp(x: real, y: real, draw: real) returns (p: PowerUp)
    requires 0.0 <= draw < 1.0
    ensures p == NewPowerUp(x, y, KindForRoll(draw * 100.0))
    ensures p.kind in Types
  {
    var totalWeight := Sum(Weights);
    assert totalWeight == 100;
    var random := draw * totalWeight as real;
    var cumulativeWeight := 0;
    var selected := Types[0];
    var i := 0;
    while i < |Types|
      invariant 0 <= i <= |Types|
      invariant cumulativeWeight == Cumulative(i)
      invariant selected == Types[0]
      invariant random >= Cumulative(i) as real
    {
      cumulativeWeight := cumulativeWeight + Weights[i];
      if random < cumulativeWeight as real {
        selected := Types[i];
        KindForRollIsWeighted(random, i);
        break;
      }
      i := i + 1;
    }
    if i == |Types| {
      assert false;
    }
    p := NewPowerUp(x, y, selected);
  }
}

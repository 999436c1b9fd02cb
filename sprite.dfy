/** js/sprite.js: the transform, motion and frame-animation state that every
    entity of the game carries. The JavaScript base class is mutated in place;
    here a sprite is a value and each operation returns the updated value. */
module Sprites {
  import opened Utils

  /** A registered animation never has an empty frame list (the JavaScript
      would compute `NaN` indices from one). */
  type FrameList = s: seq<int> | |s| > 0 witness [0]

  datatype Animation = Animation(frames: FrameList, frameDelay: int)

  datatype Sprite = Sprite(
    x: real, y: real, width: real, height: real,
    speedX: real, speedY: real,
    active: bool, alpha: real, rotation: real, scale: real,
    frameIndex: int, frameCount: int, frameDelay: int, frameTimer: int,
    animations: map<string, Animation>,
    currentAnimation: Option<string>)
  {
    /** `getBounds`. */
    function Bounds(): (r: Rect)
      ensures CheckCollision(r, r) <==> width > 0.0 && height > 0.0
    {
      Rect(x, y, width, height)
    }

    /** `collidesWith`: the strict AABB test on the two bounding boxes. */
    predicate CollidesWith(other: Sprite)
      ensures CollidesWith(other) == CheckCollision(other.Bounds(), Bounds())
    {
      CheckCollision(Bounds(), other.Bounds())
    }

    /** `updateAnimation` acts only when `currentAnimation` is truthy (a
        non-empty name) and names a registered animation. */
    predicate Animating() {
      currentAnimation.Some? && currentAnimation.value != "" && currentAnimation.value in animations
    }

    /** `playAnimation(name)`. */
    function PlayAnimation(name: string): (r: Sprite)
      ensures currentAnimation == Some(name) || name !in animations ==> r == this
      ensures currentAnimation != Some(name) && name in animations ==>
        && r.currentAnimation == Some(name) && r.frameIndex == 0 && r.frameTimer == 0
        && r.frameDelay == animations[name].frameDelay
        && r.Bounds() == Bounds() && r.frameCount == frameCount && r.animations == animations
    {
      if currentAnimation != Some(name) && name in animations then
        this.(currentAnimation := Some(name), frameIndex := 0, frameTimer := 0,
              frameDelay := animations[name].frameDelay)
      else
        this
    }

    /** `updateAnimation`: count one tick; when the counter reaches the delay,
        reset it and step to the next frame, wrapping around. */
    function UpdateAnimation(): (r: Sprite)
      ensures !Animating() ==> r == this
      ensures Animating() ==>
        var frames := animations[currentAnimation.value].frames;
        && r.Bounds() == Bounds() && r.speedX == speedX && r.speedY == speedY
        && r.animations == animations && r.currentAnimation == currentAnimation
        && (0 <= frameIndex < |frames| ==> 0 <= r.frameIndex < |frames|)
        && (0 <= frameTimer ==> (r.frameTimer == 0 <==> frameTimer + 1 >= frameDelay))
        && (0 <= frameTimer < frameDelay ==> 0 <= r.frameTimer < frameDelay)
        && (frameTimer + 1 < frameDelay ==> r == this.(frameTimer := frameTimer + 1))
        && (frameTimer + 1 >= frameDelay && 0 <= frameIndex ==>
              r.frameIndex == (frameIndex + 1) % |frames| && r.frameCount == frames[r.frameIndex])
    {
      if Animating() then
        var frames := animations[currentAnimation.value].frames;
        var timer := frameTimer + 1;
        if timer >= frameDelay then
          var index := JsRem(frameIndex + 1, |frames|);
          if 0 <= index then
            this.(frameTimer := 0, frameIndex := index, frameCount := frames[index])
          else
            // JavaScript reads `frames[-k]` as undefined; the frame count is
            // then meaningless and is left as it was.
            this.(frameTimer := 0, frameIndex := index)
        else
          this.(frameTimer := timer)
      else
        this
    }

    /** `update(dt)`: linear motion by the current speed, then one animation
        tick. */
    function Update(dt: real): (r: Sprite)
      ensures r.Bounds() == Rect(x + speedX * dt, y + speedY * dt, width, height)
      ensures r.speedX == speedX && r.speedY == speedY
      ensures r.active == active && r.alpha == alpha && r.rotation == rotation && r.scale == scale
      ensures r == this.(x := r.x, y := r.y).UpdateAnimation()
    {
      this.(x := x + speedX * dt, y := y + speedY * dt).UpdateAnimation()
    }
  }

  /** The constructor: at rest, visible, no animation playing. */
  function NewSprite(x: real, y: real, width: real, height: real): (s: Sprite)
    ensures s.Bounds() == Rect(x, y, width, height)
    ensures s.speedX == 0.0 && s.speedY == 0.0
    ensures s.active && s.alpha == 1.0 && s.scale == 1.0 && s.rotation == 0.0
    ensures !s.Animating()
  {
    Sprite(x, y, width, height, 0.0, 0.0, true, 1.0, 0.0, 1.0,
           0, 1, 5, 0, map[], None)
  }

  /** `collidesWith` does not depend on which sprite asks. */
  lemma CollidesWithIsSymmetric(a: Sprite, b: Sprite)
    ensures a.CollidesWith(b) == b.CollidesWith(a)
  {
  }

  /** Playing the animation that is already current changes nothing, so a
      second call is a no-op. */
  lemma PlayAnimationIsIdempotent(s: Sprite, name: string)
    ensures s.PlayAnimation(name).PlayAnimation(name) == s.PlayAnimation(name)
  {
  }

  /** Once an animation is playing from frame 0, any number of ticks keeps the
      frame index and the counter in range. */
  lemma {:induction false} AnimationStaysInRange(s: Sprite, n: nat)
    requires s.Animating() && 0 <= s.frameTimer < s.frameDelay
    requires 0 <= s.frameIndex < |s.animations[s.currentAnimation.value].frames|
    ensures var r := Ticks(s, n);
      && r.Animating()
      && 0 <= r.frameIndex < |r.animations[r.currentAnimation.value].frames|
      && 0 <= r.frameTimer < r.frameDelay
    decreases n
  {
    if n > 0 {
      AnimationStaysInRange(s, n - 1);
    }
  }

  /** n consecutive animation ticks. */
  function Ticks(s: Sprite, n: nat): Sprite
    decreases n
  {
    if n == 0 then s else Ticks(s, n - 1).UpdateAnimation()
  }
}

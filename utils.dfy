/** The helpers of js/utils.js that gameplay uses, plus the parts of the
    JavaScript `Math` object the game calls. `Math.random` is a stream of draws
    indexed by a cursor; `Math.sin`, `Math.cos`, `Math.atan2` and `Math.sqrt`
    are given as a `MathLib` value, of which only `sqrt` is constrained. */
module Utils {

  datatype Option<+T> = None | Some(value: T)

  /** An axis-aligned rectangle, the value `getBounds` returns. */
  datatype Rect = Rect(x: real, y: real, width: real, height: real)

  function Min(a: real, b: real): real { if a <= b then a else b }

  function Max(a: real, b: real): real { if a >= b then a else b }

  function Abs(a: real): real { if a < 0.0 then -a else a }

  /** `Utils.checkCollision`: both axis projections overlap, all four
      comparisons strict. */
  predicate CheckCollision(a: Rect, b: Rect)
    ensures CheckCollision(a, b) ==> a.width + b.width > 0.0 && a.height + b.height > 0.0
  {
    && a.x < b.x + b.width
    && a.x + a.width > b.x
    && a.y < b.y + b.height
    && a.y + a.height > b.y
  }

  /** The point (px, py) lies strictly inside r. */
  predicate Inside(r: Rect, px: real, py: real) {
    r.x < px < r.x + r.width && r.y < py < r.y + r.height
  }

  lemma CollisionIsSymmetric(a: Rect, b: Rect)
    ensures CheckCollision(a, b) == CheckCollision(b, a)
  {
  }

  /** Rectangles that only share an edge do not collide. */
  lemma TouchingRectsDoNotCollide(a: Rect, b: Rect)
    requires a.x + a.width == b.x || b.x + b.width == a.x
          || a.y + a.height == b.y || b.y + b.height == a.y
    ensures !CheckCollision(a, b)
  {
  }

  /** For rectangles of positive size, the strict test holds exactly when some
      point lies strictly inside both of them. */
  lemma CollisionIsSharedInterior(a: Rect, b: Rect)
    requires a.width > 0.0 && a.height > 0.0 && b.width > 0.0 && b.height > 0.0
    ensures CheckCollision(a, b) <==> exists px: real, py: real :: Inside(a, px, py) && Inside(b, px, py)
  {
    if CheckCollision(a, b) {
      var px := (Max(a.x, b.x) + Min(a.x + a.width, b.x + b.width)) / 2.0;
      var py := (Max(a.y, b.y) + Min(a.y + a.height, b.y + b.height)) / 2.0;
      assert Inside(a, px, py) && Inside(b, px, py);
    }
  }

  /** `Utils.clamp`: `Math.min(Math.max(value, min), max)`. */
  function Clamp(value: real, lo: real, hi: real): (r: real)
    ensures lo <= hi ==> lo <= r <= hi
    ensures lo <= value <= hi ==> r == value
    ensures lo <= hi && value < lo ==> r == lo
    ensures value > hi ==> r == hi
    ensures hi < lo ==> r == hi
  {
    Min(Max(value, lo), hi)
  }

  /** `Utils.lerp`: `a + (b - a) * t`. */
  function Lerp(a: real, b: real, t: real): (r: real)
    ensures t == 0.0 ==> r == a
    ensures t == 1.0 ==> r == b
    ensures 0.0 <= t <= 1.0 ==> Min(a, b) <= r <= Max(a, b)
  {
    var r := a + (b - a) * t;
    BetweenEnds(a, b, t);
    r
  }

  lemma BetweenEnds(a: real, b: real, t: real)
    ensures 0.0 <= t <= 1.0 ==> Min(a, b) <= a + (b - a) * t <= Max(a, b)
  {
    if 0.0 <= t <= 1.0 {
      if a <= b {
        ScaledByFraction(b - a, t);
      } else {
        ScaledByFraction(a - b, t);
        assert (b - a) * t == -((a - b) * t);
      }
    }
  }

  lemma ScaledByFraction(c: real, t: real)
    requires 0.0 <= c && 0.0 <= t <= 1.0
    ensures 0.0 <= c * t <= c
  {
    assert c * (1.0 - t) >= 0.0;
  }

  /** `Math.floor(r * k)` for a draw r in [0, 1) lies in [0, k). */
  lemma FloorOfScaledDraw(r: real, k: int)
    requires 0.0 <= r < 1.0 && k >= 1
    ensures 0 <= (r * k as real).Floor < k
  {
    assert 0.0 <= r * k as real;
    assert r * k as real < k as real by {
      assert (1.0 - r) * k as real > 0.0;
    }
  }

  /** `Utils.randomInt`, with the draw of `Math.random()` passed in. */
  function RandomInt(lo: int, hi: int, r: real): (n: int)
    requires 0.0 <= r < 1.0
    ensures lo <= hi ==> lo <= n <= hi
  {
    if lo <= hi then FloorOfScaledDraw(r, hi - lo + 1); (r * (hi - lo + 1) as real).Floor + lo
    else (r * (hi - lo + 1) as real).Floor + lo
  }

  /** `Utils.randomChoice`, with the draw passed in. */
  function RandomChoice<T>(xs: seq<T>, r: real): (x: T)
    requires |xs| > 0 && 0.0 <= r < 1.0
    ensures x in xs
  {
    FloorOfScaledDraw(r, |xs|);
    xs[(r * |xs| as real).Floor]
  }

  /** JavaScript's `%` on integers: the remainder truncated toward zero, with
      the sign of the dividend (Dafny's own `%` is Euclidean). */
  function JsRem(a: int, n: int): (r: int)
    requires n > 0
    ensures 0 <= a ==> 0 <= r < n && r == a % n
    ensures a < 0 ==> -n < r <= 0
  {
    if a >= 0 then a % n else -((-a) % n)
  }

  /** A source of `Math.random()` draws: the n-th draw lies in [0, 1). */
  ghost predicate IsRandomSource(random: nat -> real) {
    forall n: nat :: 0.0 <= random(n) < 1.0
  }

  /** The floating-point routines of `Math` that the game calls. */
  datatype MathLib = MathLib(
    sin: real -> real,
    cos: real -> real,
    atan2: (real, real) -> real,
    sqrt: real -> real)
  {
    /** The only promise relied on: `sqrt` is the non-negative square root. */
    ghost predicate Valid() {
      forall v: real :: 0.0 <= v ==> 0.0 <= sqrt(v) && sqrt(v) * sqrt(v) == v
    }
  }
}

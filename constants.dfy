/** Screen size, game modes, keys and the neon palette (constants.py). */
module Constants {
  /** Screen width and height in pixels. */
  const Width: int := 800
  const Height: int := 600

  /** The game modes the orchestrator switches between. */
  datatype GameState = Menu | Playing | GameOver | Paused

  /** The keys the game reacts to; every other key code is `OtherKey`. */
  datatype Key = KeyLeft | KeyRight | KeyA | KeyD | KeySpace | KeyEscape | OtherKey(code: int)

  /** An RGB colour; channels are plain integers, as in the source's tuples. */
  datatype Color = Color(r: int, g: int, b: int)

  const NeonPink: Color := Color(255, 60, 172)
  const NeonCyan: Color := Color(75, 203, 252)
  const NeonYellow: Color := Color(249, 248, 113)
  const NeonGreen: Color := Color(57, 255, 20)
}

/** The few numeric operations of Python the game relies on. */
module Numerics {
  /** Python's `int()` on a float (and pygame's float-to-pixel conversion): truncation toward zero. */
  function Trunc(v: real): (n: int)
    ensures 0.0 <= v ==> 0 <= n && n as real <= v < n as real + 1.0
    ensures v < 0.0 ==> n <= 0 && n as real - 1.0 < v <= n as real
  {
    if v >= 0.0 then v.Floor else -((-v).Floor)
  }

  /** Python's `min` and `max` on two floats. */
  function MinReal(a: real, b: real): (m: real)
    ensures m <= a && m <= b && (m == a || m == b)
  {
    if a <= b then a else b
  }

  function MaxReal(a: real, b: real): (m: real)
    ensures a <= m && b <= m && (m == a || m == b)
  {
    if a >= b then a else b
  }

  /** `min(255, max(0, v))`: a colour channel clamped to a byte. */
  function ClampByte(v: int): (c: int)
    ensures 0 <= c <= 255
    ensures 0 <= v <= 255 ==> c == v
    ensures v < 0 ==> c == 0
    ensures v > 255 ==> c == 255
  {
    if v > 255 then 255 else if v < 0 then 0 else v
  }

  /** a * b + a * c == a * (b + c): the step of real arithmetic the multi-step lemmas need. */
  lemma Distribute(a: real, b: real, c: real)
    ensures a * b + a * c == a * (b + c)
  {
  }

  /** A non-zero number divided by itself is 1. */
  lemma QuotientSelf(b: real)
    requires b != 0.0
    ensures b / b == 1.0
  {
    var q := b / b;
    assert q * b == b;
    assert (q - 1.0) * b == 0.0;
  }

  /** A quotient of a non-negative number by a larger one lies in [0, 1). */
  lemma QuotientBelowOne(a: real, b: real)
    requires 0.0 <= a < b
    ensures 0.0 <= a / b < 1.0
  {
    var q := a / b;
    assert q * b == a;
    assert (1.0 - q) * b == b - a;
  }

  /** Sum of a sequence of time steps. */
  function Total(dts: seq<real>): real
  {
    if dts == [] then 0.0 else Total(dts[..|dts| - 1]) + dts[|dts| - 1]
  }

  /** lo <= v <= hi: the range of `random.uniform(lo, hi)`. */
  predicate InRange(v: real, lo: real, hi: real)
  {
    lo <= v <= hi
  }

  /** `range(n)` has max(n, 0) elements. */
  function RangeLength(n: int): (k: nat)
    ensures n >= 0 ==> k == n
    ensures n < 0 ==> k == 0
  {
    if n < 0 then 0 else n
  }
}

/** The part of pygame.Rect the game uses: an integer box and `colliderect`. */
module Rects {
  import opened Numerics

  datatype Rect = Rect(x: int, y: int, w: int, h: int)

  /** The box of a w-by-h entity centred at (cx, cy): `Rect(cx - w // 2, cy - h // 2, w, h)`. */
  function CenteredBox(cx: real, cy: real, w: int, h: int): (r: Rect)
    ensures r.w == w && r.h == h
    ensures -1.0 < r.x as real - (cx - (w / 2) as real) < 1.0 && -1.0 < r.y as real - (cy - (h / 2) as real) < 1.0
    ensures 0.0 <= cx - (w / 2) as real ==> r.x as real <= cx - (w / 2) as real
    ensures 0.0 <= cy - (h / 2) as real ==> r.y as real <= cy - (h / 2) as real
  {
    Rect(Trunc(cx - (w / 2) as real), Trunc(cy - (h / 2) as real), w, h)
  }

  /** `colliderect`: both boxes have a non-zero size and their interiors overlap. */
  predicate Collide(a: Rect, b: Rect)
  {
    a.w != 0 && a.h != 0 && b.w != 0 && b.h != 0 &&
    a.x < b.x + b.w && b.x < a.x + a.w &&
    a.y < b.y + b.h && b.y < a.y + a.h
  }

  /** The pixel (px, py) lies inside box r. */
  predicate Covers(r: Rect, px: int, py: int)
  {
    r.x <= px < r.x + r.w && r.y <= py < r.y + r.h
  }

  /** For boxes of positive size, `colliderect` holds exactly when some pixel lies in both. */
  lemma CollideSharedPixel(a: Rect, b: Rect)
    requires a.w > 0 && a.h > 0 && b.w > 0 && b.h > 0
    ensures Collide(a, b) <==> exists px, py :: Covers(a, px, py) && Covers(b, px, py)
  {
    if Collide(a, b) {
      var px := if a.x < b.x then b.x else a.x;
      var py := if a.y < b.y then b.y else a.y;
      assert Covers(a, px, py) && Covers(b, px, py);
    }
  }
}

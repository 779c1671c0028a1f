/**
 * The parallax starfield behind the game (utils/starfield.py): stars drift down at a
 * speed set by their depth and wrap around to the top edge.
 */
module Stars {
  import opened Numerics

  /** A star: integer column, position down the screen, depth and the attributes derived from it. */
  datatype Star = Star(x: int, y: real, depth: real, brightness: int, size: real, speed: real)
  {
    /** The attributes `Star.__init__` derives from the depth. */
    predicate Profiled()
    {
      InRange(depth, 0.1, 1.0) && brightness == Trunc(depth * 255.0) && size == depth * 3.0 && speed == depth * 30.0
    }

    /** Inside the screen rectangle [0, w] x [0, h]. */
    predicate OnScreen(w: int, h: int)
    {
      0 <= x <= w && 0.0 <= y <= h as real
    }

    /**
     * `Star.update`: drift down by speed * dt; past the bottom edge, restart at the top in
     * column `redrawX` (the source's `random.randint(0, screen_width)`).
     */
    function Update(dt: real, h: int, redrawX: int): (s: Star)
      ensures s.depth == depth && s.brightness == brightness && s.size == size && s.speed == speed
      ensures y + speed * dt > h as real ==> s.y == 0.0 && s.x == redrawX
      ensures y + speed * dt <= h as real ==> s.y == y + speed * dt && s.x == x
      ensures 0 <= h ==> s.y <= h as real
    {
      var y' := y + speed * dt;
      if y' > h as real then this.(y := 0.0, x := redrawX) else this.(y := y')
    }
  }

  /** `Star.__init__` from its three draws: x = randint(0, w), y = randint(0, h), depth = uniform(0.1, 1.0). */
  function NewStar(x: int, y: int, depth: real): (s: Star)
    requires InRange(depth, 0.1, 1.0)
    ensures s.Profiled() && s.x == x && s.y == y as real
  {
    Star(x, y as real, depth, Trunc(depth * 255.0), depth * 3.0, depth * 30.0)
  }

  /** The derived attributes are bounded: brightness in [25, 255], size in [0.3, 3], speed in [3, 30]. */
  lemma ProfileBounds(s: Star)
    requires s.Profiled()
    ensures 25 <= s.brightness <= 255
    ensures 0.3 <= s.size <= 3.0 && 3.0 <= s.speed <= 30.0
  {
    assert 25.5 <= s.depth * 255.0 <= 255.0;
  }

  /** An update leaves the depth-derived attributes alone. */
  lemma UpdateKeepsProfile(s: Star, dt: real, h: int, redrawX: int)
    requires s.Profiled()
    ensures s.Update(dt, h, redrawX).Profiled()
  {
  }

  /** With a non-negative time step, a star on screen stays on screen and keeps its profile. */
  lemma UpdateStaysOnScreen(s: Star, dt: real, w: int, h: int, redrawX: int)
    requires s.Profiled() && s.OnScreen(w, h) && 0.0 <= dt && 0 <= redrawX <= w
    ensures s.Update(dt, h, redrawX).Profiled() && s.Update(dt, h, redrawX).OnScreen(w, h)
  {
    assert s.speed * dt >= 0.0;
  }

  /** `Starfield.update`'s effect on one star: */
  /**
   * `next` is `prev` updated by dt, and a wrap to the top redrew the column inside [0, w]
   * (without a wrap the column is the previous one, so `next.x` names the draw either way).
   */
  predicate Follows(next: Star, prev: Star, dt: real, w: int, h: int)
  {
    next == prev.Update(dt, h, next.x) && 0 <= w && (prev.y + prev.speed * dt > h as real ==> 0 <= next.x <= w)
  }

  /** A forward step of a star on screen stays on screen. */
  lemma FollowsOnScreen(next: Star, prev: Star, dt: real, w: int, h: int)
    requires Follows(next, prev, dt, w, h) && prev.Profiled() && prev.OnScreen(w, h) && 0.0 <= dt
    ensures next.Profiled() && next.OnScreen(w, h)
  {
    UpdateStaysOnScreen(prev, dt, w, h, if prev.y + prev.speed * dt > h as real then next.x else 0);
  }

  /** A star after one update per time step, step k redrawing the column `redraws[k]` if it wraps. */
  function Drift(s: Star, dts: seq<real>, redraws: seq<int>, h: int): Star
    requires |redraws| == |dts|
  {
    if dts == [] then s
    else Drift(s, dts[..|dts| - 1], redraws[..|dts| - 1], h).Update(dts[|dts| - 1], h, redraws[|dts| - 1])
  }

  /** Any run of forward updates, each wrap drawing its own column in [0, w], keeps a star on screen. */
  lemma {:induction false} DriftStaysOnScreen(s: Star, dts: seq<real>, redraws: seq<int>, w: int, h: int)
    requires s.Profiled() && s.OnScreen(w, h) && |redraws| == |dts|
    requires forall i :: 0 <= i < |dts| ==> 0.0 <= dts[i]
    requires forall i :: 0 <= i < |redraws| ==> 0 <= redraws[i] <= w
    ensures Drift(s, dts, redraws, h).Profiled() && Drift(s, dts, redraws, h).OnScreen(w, h)
  {
    if dts != [] {
      var n := |dts| - 1;
      DriftStaysOnScreen(s, dts[..n], redraws[..n], w, h);
      UpdateStaysOnScreen(Drift(s, dts[..n], redraws[..n], h), dts[n], w, h, redraws[n]);
    }
  }

  /** Every star inside the screen rectangle. */
  predicate AllOnScreen(stars: seq<Star>, w: int, h: int)
  {
    forall i :: 0 <= i < |stars| ==> stars[i].OnScreen(w, h)
  }

  /** The starfield: a fixed list of stars over a screen of the given size. */
  class Starfield {
    var stars: seq<Star>
    const screenWidth: int
    const screenHeight: int

    /** Redrawing a column needs a non-empty range once there are stars. */
    ghost predicate Valid()
      reads this
    {
      (stars != [] ==> 0 <= screenWidth && 0 <= screenHeight) &&
      forall i :: 0 <= i < |stars| ==> stars[i].Profiled()
    }

    /** `Starfield.__init__`: max(star_count, 0) stars, each on screen with a depth in [0.1, 1.0]. */
    constructor (screenWidth: int, screenHeight: int, starCount: int)
      requires starCount > 0 ==> 0 <= screenWidth && 0 <= screenHeight
      ensures Valid()
      ensures this.screenWidth == screenWidth && this.screenHeight == screenHeight
      ensures |stars| == RangeLength(starCount)
      ensures AllOnScreen(stars, screenWidth, screenHeight)
    {
      var built: seq<Star> := [];
      var n := 0;
      while n < starCount
        invariant 0 <= n <= RangeLength(starCount) && |built| == n
        invariant forall i :: 0 <= i < n ==> built[i].Profiled() && built[i].OnScreen(screenWidth, screenHeight)
      {
        var x: int :| 0 <= x <= screenWidth;
        var y: int :| 0 <= y <= screenHeight;
        assert InRange(0.5, 0.1, 1.0);
        var depth: real :| InRange(depth, 0.1, 1.0);
        built := built + [NewStar(x, y, depth)];
        n := n + 1;
      }
      stars := built;
      this.screenWidth := screenWidth;
      this.screenHeight := screenHeight;
    }

    /** `Starfield.update`: every star is updated once, each with its own redraw in [0, w]; no star is added or lost. */
    method Update(dt: real)
      requires Valid()
      modifies this
      ensures Valid()
      ensures |stars| == |old(stars)|
      ensures forall i :: 0 <= i < |stars| ==> Follows(stars[i], old(stars)[i], dt, screenWidth, screenHeight)
      ensures 0.0 <= dt && AllOnScreen(old(stars), screenWidth, screenHeight) ==> AllOnScreen(stars, screenWidth, screenHeight)
    {
      var i := 0;
      while i < |stars|
        invariant 0 <= i <= |stars| == |old(stars)|
        invariant Valid()
        invariant forall j :: i <= j < |stars| ==> stars[j] == old(stars)[j]
        invariant forall j :: 0 <= j < i ==> Follows(stars[j], old(stars)[j], dt, screenWidth, screenHeight)
      {
        var rx: int :| 0 <= rx <= screenWidth;
        var next := stars[i].Update(dt, screenHeight, rx);
        assert next.Profiled() by { UpdateKeepsProfile(stars[i], dt, screenHeight, rx); }
        assert Follows(next, old(stars)[i], dt, screenWidth, screenHeight);
        stars := stars[i := next];
        i := i + 1;
      }
      if 0.0 <= dt && AllOnScreen(old(stars), screenWidth, screenHeight) {
        forall j | 0 <= j < |stars|
          ensures stars[j].OnScreen(screenWidth, screenHeight)
        {
          FollowsOnScreen(stars[j], old(stars)[j], dt, screenWidth, screenHeight);
        }
      }
    }
  }
}

/**
 * The alien fleet (entities/aliens.py): a grid of aliens that steps sideways on a timer,
 * drops and turns at the screen edges, speeds up as it thins out and fires from its
 * front line.
 */
module Aliens {
  import opened Numerics
  import opened Constants
  import opened Rects
  import opened Projectiles

  /** Grid spacing and the screen position of column 0 / row 0. */
  const Cell: int := 50
  const GridLeft: int := 100
  const GridTop: int := 80
  /** Seconds per animation frame. */
  const AnimPeriod: real := 0.5
  /** Pixels the fleet drops at an edge. */
  const DescentStep: real := 20.0
  /** Distance from the screen sides at which the fleet turns. */
  const EdgeMargin: int := 30
  const StartSpeed: real := 30.0
  const StartMoveInterval: real := 0.02
  const StartShootInterval: real := 1.0
  const StartShootChance: real := 0.3
  const MinMoveInterval: real := 0.01
  const MinShootInterval: real := 0.3

  // ----------------------------------------------------------------- Alien

  /** The grid column's x and the grid row's y, before the fleet offsets. */
  function GridX(col: int): real
  {
    (col * Cell + GridLeft) as real
  }

  function GridY(row: int): real
  {
    (row * Cell + GridTop) as real
  }

  /** What never changes about an alien: its type, grid slot, size, colour and score value. */
  datatype SlotData = SlotData(kind: int, row: int, col: int, width: int, height: int, color: Color, points: int)

  /** An alien: centre (x, y), its slot data, whether it is still alive and its animation frame. */
  datatype Alien = Alien(x: real, y: real, kind: int, row: int, col: int, width: int, height: int,
                         color: Color, points: int, active: bool, animState: int, animTimer: real)
  {
    function Slot(): SlotData
    {
      SlotData(kind, row, col, width, height, color, points)
    }

    /** `self.rect`: the alien's box, centred on (x, y). */
    function Box(): (r: Rect)
      ensures r.x == Trunc(x - (width / 2) as real) && r.y == Trunc(y - (height / 2) as real)
      ensures r.w == width && r.h == height
    {
      CenteredBox(x, y, width, height)
    }

    /**
     * `Alien.update`: advance the animation clock, flipping the frame once per period, and
     * move to the grid position plus the fleet offsets plus this frame's bob.
     */
    function Update(dt: real, bob: real, offX: real, offY: real): (a: Alien)
      ensures a.Slot() == Slot() && a.active == active
      ensures a.x == GridX(col) + offX && a.y == GridY(row) + offY + bob
      ensures animTimer + dt >= AnimPeriod ==> a.animTimer == animTimer + dt - AnimPeriod && a.animState == (animState + 1) % 2
      ensures animTimer + dt < AnimPeriod ==> a.animTimer == animTimer + dt && a.animState == animState
    {
      var t := animTimer + dt;
      var a := if t >= AnimPeriod then this.(animTimer := t - AnimPeriod, animState := (animState + 1) % 2)
               else this.(animTimer := t);
      a.(x := GridX(col) + offX, y := GridY(row) + offY + bob)
    }
  }

  /** The animation frame stays 0 or 1 and flips exactly when a period has elapsed. */
  lemma AnimationToggles(a: Alien, dt: real, bob: real, offX: real, offY: real)
    requires 0 <= a.animState <= 1
    ensures var b := a.Update(dt, bob, offX, offY);
      0 <= b.animState <= 1 && (b.animState != a.animState <==> a.animTimer + dt >= AnimPeriod)
  {
  }

  /** `Alien.__init__`: the type fixes size, colour and points (30 / 20 / 10 for types 0 / 1 / other). */
  function NewAlien(x: real, y: real, kind: int, row: int, col: int): (a: Alien)
    ensures a.x == x && a.y == y && a.kind == kind && a.row == row && a.col == col
    ensures a.active && a.animState == 0 && a.animTimer == 0.0
    ensures a.width == a.height
    ensures kind == 0 ==> a.width == 24 && a.color == NeonPink && a.points == 30
    ensures kind == 1 ==> a.width == 28 && a.color == NeonYellow && a.points == 20
    ensures kind != 0 && kind != 1 ==> a.width == 32 && a.color == NeonCyan && a.points == 10
  {
    var (size, color, points) :=
      if kind == 0 then (24, NeonPink, 30)
      else if kind == 1 then (28, NeonYellow, 20)
      else (32, NeonCyan, 10);
    Alien(x, y, kind, row, col, size, size, color, points, true, 0, 0.0)
  }

  /** The type `create_fleet` gives a row: 0 for the top row, 1 for rows 1 and 2, 2 below. */
  function KindOfRow(row: int): (k: int)
    ensures 0 <= k <= 2
    ensures k == 0 <==> row == 0
    ensures k == 2 <==> row >= 3
  {
    if row == 0 then 0 else if row < 3 then 1 else 2
  }

  /** The alien `create_fleet` puts at grid slot (row, col). */
  function GridAlien(row: int, col: int): (a: Alien)
    ensures a.row == row && a.col == col && a.kind == KindOfRow(row)
    ensures a.active && a.points > 0 && a.height > 0
    ensures a.x == GridX(col) && a.y == GridY(row)
  {
    NewAlien(GridX(col), GridY(row), KindOfRow(row), row, col)
  }

  /** The first k aliens of grid row `row`. */
  function RowOf(row: int, k: int): seq<Alien>
  {
    if k <= 0 then [] else RowOf(row, k - 1) + [GridAlien(row, k - 1)]
  }

  /** The first n rows of the grid, row by row. */
  function Grid(n: int, cols: int): seq<Alien>
  {
    if n <= 0 then [] else Grid(n - 1, cols) + RowOf(n - 1, cols)
  }

  /** Where slot (row, col) sits in the fleet list. */
  function GridIndex(row: int, col: int, cols: int): int
  {
    row * cols + col
  }

  lemma {:induction false} RowShape(row: int, k: int)
    ensures |RowOf(row, k)| == RangeLength(k)
    ensures forall c :: 0 <= c < k ==> RowOf(row, k)[c] == GridAlien(row, c)
  {
    if k > 0 {
      RowShape(row, k - 1);
    }
  }

  /** `create_fleet` builds exactly rows x cols aliens (none when either is not positive). */
  lemma {:induction false} GridLength(rows: int, cols: int)
    ensures |Grid(rows, cols)| == RangeLength(rows) * RangeLength(cols)
  {
    if rows > 0 {
      GridLength(rows - 1, cols);
      RowShape(rows - 1, cols);
      var k := RangeLength(cols);
      assert (rows - 1) * k + k == rows * k;
    }
  }

  /** Every alien `create_fleet` builds is the grid alien of its own slot, inside the grid. */
  lemma {:induction false} GridMembers(rows: int, cols: int)
    ensures forall i :: 0 <= i < |Grid(rows, cols)| ==>
      0 <= Grid(rows, cols)[i].row < rows && 0 <= Grid(rows, cols)[i].col < cols &&
      Grid(rows, cols)[i] == GridAlien(Grid(rows, cols)[i].row, Grid(rows, cols)[i].col)
  {
    if rows > 0 {
      var prefix, row := Grid(rows - 1, cols), RowOf(rows - 1, cols);
      GridMembers(rows - 1, cols);
      RowShape(rows - 1, cols);
      forall i | 0 <= i < |Grid(rows, cols)|
        ensures 0 <= Grid(rows, cols)[i].row < rows && 0 <= Grid(rows, cols)[i].col < cols
        ensures Grid(rows, cols)[i] == GridAlien(Grid(rows, cols)[i].row, Grid(rows, cols)[i].col)
      {
        if i < |prefix| {
          assert Grid(rows, cols)[i] == prefix[i];
        } else {
          assert Grid(rows, cols)[i] == row[i - |prefix|];
        }
      }
    }
  }

  /** a <= b scaled by a non-negative k. */
  lemma ScaleMonotone(a: int, b: int, k: int)
    requires a <= b && 0 <= k
    ensures a * k <= b * k
  {
    assert b * k - a * k == (b - a) * k;
  }

  /** Slot (r, c) of a grid of `rows` rows sits at index r * cols + c. */
  lemma {:induction false} GridAt(rows: int, cols: int, r: int, c: int)
    requires 0 <= r < rows && 0 <= c < cols
    ensures 0 <= GridIndex(r, c, cols) < |Grid(rows, cols)|
    ensures Grid(rows, cols)[GridIndex(r, c, cols)] == GridAlien(r, c)
  {
    var prefix, row := Grid(rows - 1, cols), RowOf(rows - 1, cols);
    GridLength(rows - 1, cols);
    RowShape(rows - 1, cols);
    assert |prefix| == (rows - 1) * cols;
    assert 0 <= r * cols by {
      ScaleMonotone(0, r, cols);
    }
    if r < rows - 1 {
      GridAt(rows - 1, cols, r, c);
    } else {
      assert GridIndex(r, c, cols) == |prefix| + c;
      assert Grid(rows, cols)[GridIndex(r, c, cols)] == row[c];
    }
  }

  /** Every slot (r, c) of the grid is at index r * cols + c of the list `create_fleet` builds. */
  lemma GridIndexed(rows: int, cols: int)
    ensures forall r, c :: 0 <= r < rows && 0 <= c < cols ==>
      0 <= GridIndex(r, c, cols) < |Grid(rows, cols)| && Grid(rows, cols)[GridIndex(r, c, cols)] == GridAlien(r, c)
  {
    forall r, c | 0 <= r < rows && 0 <= c < cols
      ensures 0 <= GridIndex(r, c, cols) < |Grid(rows, cols)| && Grid(rows, cols)[GridIndex(r, c, cols)] == GridAlien(r, c)
    {
      GridAt(rows, cols, r, c);
    }
  }

  // --------------------------------------------------------- fleet queries

  predicate AnyActive(aliens: seq<Alien>)
  {
    exists i :: 0 <= i < |aliens| && aliens[i].active
  }

  /** `sum(1 for alien in aliens if alien.active)`. */
  function ActiveCount(aliens: seq<Alien>): (n: nat)
    ensures n <= |aliens|
  {
    if aliens == [] then 0
    else ActiveCount(aliens[..|aliens| - 1]) + (if aliens[|aliens| - 1].active then 1 else 0)
  }

  /** Some alien is active exactly when the active count is positive. */
  lemma {:induction false} ActiveCountPositive(aliens: seq<Alien>)
    ensures ActiveCount(aliens) > 0 <==> AnyActive(aliens)
  {
    if aliens != [] {
      var init := aliens[..|aliens| - 1];
      ActiveCountPositive(init);
      if AnyActive(init) {
        var i :| 0 <= i < |init| && init[i].active;
        assert aliens[i].active;
      }
    }
  }

  /** Two fleets with the same active flags, slot by slot, have the same active count. */
  lemma {:induction false} SameActivity(a: seq<Alien>, b: seq<Alien>)
    requires |a| == |b| && forall i :: 0 <= i < |a| ==> a[i].active == b[i].active
    ensures ActiveCount(a) == ActiveCount(b)
  {
    if a != [] {
      SameActivity(a[..|a| - 1], b[..|b| - 1]);
    }
  }

  /** Switching off one active alien lowers the active count by exactly one. */
  lemma {:induction false} DeactivateCount(aliens: seq<Alien>, k: nat)
    requires k < |aliens| && aliens[k].active
    ensures ActiveCount(aliens[k := aliens[k].(active := false)]) == ActiveCount(aliens) - 1
  {
    var after := aliens[k := aliens[k].(active := false)];
    var n := |aliens| - 1;
    if k == n {
      SameActivity(aliens[..n], after[..n]);
    } else {
      assert after[..n] == aliens[..n][k := aliens[k].(active := false)];
      DeactivateCount(aliens[..n], k);
    }
  }

  /** `all_destroyed`: no alien is active; the same as an active count of zero. */
  function AllDestroyed(aliens: seq<Alien>): (b: bool)
    ensures b <==> !AnyActive(aliens)
    ensures b <==> ActiveCount(aliens) == 0
  {
    ActiveCountPositive(aliens);
    forall i :: 0 <= i < |aliens| ==> !aliens[i].active
  }

  /** `min(alien.x for alien in aliens if alien.active)`. */
  function MinActiveX(aliens: seq<Alien>): (m: real)
    requires AnyActive(aliens)
    ensures exists i :: 0 <= i < |aliens| && aliens[i].active && aliens[i].x == m
    ensures forall i :: 0 <= i < |aliens| && aliens[i].active ==> m <= aliens[i].x
  {
    var init, last := aliens[..|aliens| - 1], aliens[|aliens| - 1];
    if !AnyActive(init) then
      assert forall i :: 0 <= i < |init| ==> aliens[i] == init[i];
      last.x
    else if !last.active then
      assert forall i :: 0 <= i < |init| ==> aliens[i] == init[i];
      MinActiveX(init)
    else
      assert forall i :: 0 <= i < |init| ==> aliens[i] == init[i];
      MinReal(MinActiveX(init), last.x)
  }

  /** `max(alien.x for alien in aliens if alien.active)`. */
  function MaxActiveX(aliens: seq<Alien>): (m: real)
    requires AnyActive(aliens)
    ensures exists i :: 0 <= i < |aliens| && aliens[i].active && aliens[i].x == m
    ensures forall i :: 0 <= i < |aliens| && aliens[i].active ==> aliens[i].x <= m
  {
    var init, last := aliens[..|aliens| - 1], aliens[|aliens| - 1];
    if !AnyActive(init) then
      assert forall i :: 0 <= i < |init| ==> aliens[i] == init[i];
      last.x
    else if !last.active then
      assert forall i :: 0 <= i < |init| ==> aliens[i] == init[i];
      MaxActiveX(init)
    else
      assert forall i :: 0 <= i < |init| ==> aliens[i] == init[i];
      MaxReal(MaxActiveX(init), last.x)
  }

  /** Some active alien is at or past the right turning line. */
  predicate AtRightEdge(aliens: seq<Alien>)
  {
    exists i :: 0 <= i < |aliens| && aliens[i].active && aliens[i].x >= (Width - EdgeMargin) as real
  }

  /** Some active alien is at or past the left turning line. */
  predicate AtLeftEdge(aliens: seq<Alien>)
  {
    exists i :: 0 <= i < |aliens| && aliens[i].active && aliens[i].x <= EdgeMargin as real
  }

  /**
   * The edge check of `AlienFleet.update` (on the aliens' positions from the previous frame):
   * moving right with an active alien at x >= WIDTH - 30 turns left and drops one step;
   * moving left with one at x <= 30 turns right and drops; otherwise nothing changes.
   */
  function EdgeTurn(aliens: seq<Alien>, dir: int, offY: real): (r: (int, real))
    requires aliens != [] ==> AnyActive(aliens)
    ensures dir > 0 && AtRightEdge(aliens) ==> r == (-1, offY + DescentStep)
    ensures dir < 0 && AtLeftEdge(aliens) ==> r == (1, offY + DescentStep)
    ensures !(dir > 0 && AtRightEdge(aliens)) && !(dir < 0 && AtLeftEdge(aliens)) ==> r == (dir, offY)
  {
    if aliens == [] then (dir, offY)
    else if MaxActiveX(aliens) >= (Width - EdgeMargin) as real && dir > 0 then (-1, offY + DescentStep)
    else if MinActiveX(aliens) <= EdgeMargin as real && dir < 0 then (1, offY + DescentStep)
    else (dir, offY)
  }

  /** An alien is struck by a laser box when it is active and the boxes collide. */
  predicate Struck(a: Alien, box: Rect)
  {
    a.active && Collide(box, a.Box())
  }

  /** The answer of `check_collision`: the index of the alien hit, or none. */
  datatype Hit = NoHit | HitAt(index: nat)

  /** `check_collision` scanning from index k on. */
  function FirstHitFrom(aliens: seq<Alien>, box: Rect, k: nat): (r: Hit)
    requires k <= |aliens|
    decreases |aliens| - k
    ensures r.HitAt? ==> k <= r.index < |aliens| && Struck(aliens[r.index], box)
    ensures r.HitAt? ==> forall j :: k <= j < r.index ==> !Struck(aliens[j], box)
    ensures r.NoHit? ==> forall j :: k <= j < |aliens| ==> !Struck(aliens[j], box)
  {
    if k == |aliens| then NoHit
    else if Struck(aliens[k], box) then HitAt(k)
    else FirstHitFrom(aliens, box, k + 1)
  }

  /** `check_collision`: the first active alien, in list order, that the laser box hits. */
  function FirstHit(aliens: seq<Alien>, box: Rect): (r: Hit)
    ensures r.HitAt? ==> r.index < |aliens| && Struck(aliens[r.index], box)
    ensures r.HitAt? ==> forall j :: 0 <= j < r.index ==> !Struck(aliens[j], box)
    ensures r.NoHit? <==> forall j :: 0 <= j < |aliens| ==> !Struck(aliens[j], box)
  {
    FirstHitFrom(aliens, box, 0)
  }

  // ------------------------------------------------------------ difficulty

  /** The difficulty factor for n active aliens out of `total`: 1 + (1 - n / total) * 0.5. */
  function Difficulty(n: int, total: int): (d: real)
    requires total != 0
    ensures n == total ==> d == 1.0
    ensures n == 0 ==> d == 1.5
  {
    var q := n as real / total as real;
    assert n == total ==> q == 1.0 by {
      if n == total {
        QuotientSelf(total as real);
      }
    }
    1.0 + (1.0 - q) * 0.5
  }

  /** With 0 < n <= total the factor lies in [1, 1.5): 1 for a full fleet, rising as it thins. */
  lemma DifficultyBounds(n: int, total: int)
    requires 0 < n <= total
    ensures 1.0 <= Difficulty(n, total) < 1.5
    ensures n == total ==> Difficulty(n, total) == 1.0
  {
    var q := n as real / total as real;
    assert 0.0 < q <= 1.0 by {
      assert q * total as real == n as real;
    }
  }

  /** Fewer active aliens never make the fleet easier. */
  lemma DifficultyMonotone(n1: int, n2: int, total: int)
    requires 0 < total && n1 <= n2
    ensures Difficulty(n1, total) >= Difficulty(n2, total)
  {
    var q1, q2 := n1 as real / total as real, n2 as real / total as real;
    assert q1 <= q2 by {
      assert q1 * total as real == n1 as real && q2 * total as real == n2 as real;
    }
  }

  /** `max(0.01, 0.02 / difficulty_factor)`. */
  function MoveIntervalFor(factor: real): (t: real)
    requires factor != 0.0
    ensures MinMoveInterval <= t
    ensures 1.0 <= factor <= 2.0 ==> t == 0.02 / factor
  {
    MaxReal(MinMoveInterval, 0.02 / factor)
  }

  /** `max(0.3, 1.0 / difficulty_factor)`. */
  function ShootIntervalFor(factor: real): (t: real)
    requires factor != 0.0
    ensures MinShootInterval <= t
    ensures 1.0 <= factor <= 3.0 ==> t == 1.0 / factor
  {
    MaxReal(MinShootInterval, 1.0 / factor)
  }

  /** A harder fleet moves and shoots at least as often. */
  lemma IntervalsMonotone(f1: real, f2: real)
    requires 0.0 < f1 <= f2
    ensures MoveIntervalFor(f2) <= MoveIntervalFor(f1)
    ensures ShootIntervalFor(f2) <= ShootIntervalFor(f1)
  {
    assert 0.02 / f2 <= 0.02 / f1 by {
      assert (0.02 / f2) * f2 == 0.02 == (0.02 / f1) * f1;
    }
    assert 1.0 / f2 <= 1.0 / f1 by {
      assert (1.0 / f2) * f2 == 1.0 == (1.0 / f1) * f1;
    }
  }

  // ------------------------------------------------------------- shooting

  /** `[alien for alien in aliens if alien.active]`. */
  function Actives(aliens: seq<Alien>): (r: seq<Alien>)
    ensures |r| == ActiveCount(aliens)
    ensures forall a :: a in r <==> a in aliens && a.active
  {
    if aliens == [] then []
    else
      var init, last := aliens[..|aliens| - 1], aliens[|aliens| - 1];
      assert forall a :: a in aliens <==> a in init || a == last;
      Actives(init) + (if last.active then [last] else [])
  }

  /** `s` is on the front line: an active alien with no active alien below it in its column. */
  predicate IsFrontLine(aliens: seq<Alien>, s: Alien)
  {
    s in aliens && s.active &&
    forall j :: 0 <= j < |aliens| && aliens[j].active && aliens[j].col == s.col ==> aliens[j].row <= s.row
  }

  /** The shot a front-line alien fires: from its bottom edge (y + height // 2), straight down. */
  function ShotFrom(s: Alien): (l: AlienLaser)
    ensures l.active && l.x == s.x && l.y == s.y + (s.height / 2) as real && l.speed == AlienLaserSpeed
  {
    NewAlienLaser(s.x, s.y + (s.height / 2) as real)
  }

  // ----------------------------------------------------------------- fleet

  /** One movement step sideways: direction * speed * move_interval. */
  function Stride(dir: int, speed: real, interval: real): real
  {
    dir as real * speed * interval
  }

  /** The per-interval chance of a shot: shoot_chance * difficulty_factor. */
  function AdjustedChance(chance: real, factor: real): real
  {
    chance * factor
  }

  /** rows * cols: the size of a full fleet. */
  function Capacity(rows: int, cols: int): int
  {
    rows * cols
  }

  /** A freshly built grid with at least one slot is not destroyed. */
  lemma FreshGridAlive(rows: int, cols: int)
    requires rows > 0 && cols > 0
    ensures !AllDestroyed(Grid(rows, cols))
  {
    GridAt(rows, cols, 0, 0);
    assert Grid(rows, cols)[GridIndex(0, 0, cols)].active;
  }

  /** The bob term of `Alien.update`, per column, for the current frame: `sin(...) * 5`, so within [-5, 5]. */
  ghost predicate BobBounded(bob: int -> real)
  {
    forall c :: -5.0 <= bob(c) <= 5.0
  }

  /** The per-alien step of `AlienFleet.update`: active aliens are updated, inactive ones keep their last state. */
  function Placed(a: Alien, dt: real, bob: int -> real, offX: real, offY: real): (b: Alien)
    ensures b.Slot() == a.Slot() && b.active == a.active
    ensures !a.active ==> b == a
    ensures a.active ==> b.x == GridX(a.col) + offX && b.y == GridY(a.row) + offY + bob(a.col)
  {
    if a.active then a.Update(dt, bob(a.col), offX, offY) else a
  }

  /** A placed active alien is within 5 pixels of its row line, shifted by the fleet offset. */
  lemma PlacedNearRow(a: Alien, dt: real, bob: int -> real, offX: real, offY: real)
    requires a.active && BobBounded(bob)
    ensures GridY(a.row) + offY - 5.0 <= Placed(a, dt, bob, offX, offY).y <= GridY(a.row) + offY + 5.0
  {
    assert -5.0 <= bob(a.col) <= 5.0;
  }

  /** The laser loop of `AlienFleet.update`: update each shot once and drop those that left the screen. */
  method UpdateAlienLasers(all: seq<AlienLaser>, dt: real) returns (kept: seq<AlienLaser>)
    ensures kept == AdvanceAlienLasers(all, dt)
  {
    kept := [];
    var i := 0;
    while i < |all|
      invariant 0 <= i <= |all|
      invariant kept == AdvanceAlienLasers(all[..i], dt)
    {
      assert all[..i + 1][..i] == all[..i];
      var l := all[i].Update(dt);
      if l.active {
        kept := kept + [l];
      }
      i := i + 1;
    }
    assert all[..i] == all;
  }

  /**
   * The fleet's shots after a frame: the previous ones advanced and pruned, plus one shot
   * from a front-line alien exactly when the fleet fired.
   */
  ghost predicate ShotsAfter(lasers: seq<AlienLaser>, before: seq<AlienLaser>, dt: real, aliens: seq<Alien>, fired: bool)
  {
    (fired ==> exists s :: IsFrontLine(aliens, s) && lasers == AdvanceAlienLasers(before, dt) + [ShotFrom(s)]) &&
    (!fired ==> lasers == AdvanceAlienLasers(before, dt))
  }

  class AlienFleet {
    const rows: int
    const cols: int
    var aliens: seq<Alien>
    var direction: int
    var speed: real
    var offsetX: real
    var offsetY: real
    var moveTimer: real
    var moveInterval: real
    var aliensDestroyed: int
    var lasers: seq<AlienLaser>
    var shootTimer: real
    var shootInterval: real
    var shootChance: real
    var difficultyFactor: real

    /**
     * The fleet keeps the grid's slots (aliens change position, animation and activity
     * only), moves left or right, keeps both intervals at or above their floors and the
     * difficulty in [1, 1.5], and holds only shots still in flight.
     */
    ghost predicate Valid()
      reads this
    {
      |aliens| == |Grid(rows, cols)| &&
      (forall i :: 0 <= i < |aliens| ==> aliens[i].Slot() == Grid(rows, cols)[i].Slot()) &&
      (direction == 1 || direction == -1) &&
      MinMoveInterval <= moveInterval && MinShootInterval <= shootInterval &&
      1.0 <= difficultyFactor <= 1.5 &&
      forall i :: 0 <= i < |lasers| ==> lasers[i].active
    }

    /** `AlienFleet.__init__`: the start values, then `create_fleet`. */
    constructor (rows: int, cols: int)
      ensures Valid() && this.rows == rows && this.cols == cols
      ensures aliens == Grid(rows, cols) && offsetX == 0.0 && offsetY == 0.0
      ensures direction == 1 && speed == StartSpeed && moveTimer == 0.0 && moveInterval == StartMoveInterval
      ensures aliensDestroyed == 0 && lasers == [] && shootTimer == 0.0 && shootInterval == StartShootInterval
      ensures shootChance == StartShootChance && difficultyFactor == 1.0
    {
      this.rows := rows;
      this.cols := cols;
      aliens := [];
      direction := 1;
      speed := StartSpeed;
      offsetX := 0.0;
      offsetY := 0.0;
      moveTimer := 0.0;
      moveInterval := StartMoveInterval;
      aliensDestroyed := 0;
      lasers := [];
      shootTimer := 0.0;
      shootInterval := StartShootInterval;
      shootChance := StartShootChance;
      difficultyFactor := 1.0;
      new;
      CreateFleet();
    }

    /** `create_fleet`: the grid, row by row, with both offsets back at zero. */
    method CreateFleet()
      modifies this`aliens, this`offsetX, this`offsetY
      ensures aliens == Grid(rows, cols) && offsetX == 0.0 && offsetY == 0.0
    {
      aliens := [];
      offsetX := 0.0;
      offsetY := 0.0;
      var row := 0;
      while row < rows
        invariant 0 <= row <= RangeLength(rows)
        invariant aliens == Grid(row, cols) && offsetX == 0.0 && offsetY == 0.0
      {
        var col := 0;
        while col < cols
          invariant 0 <= col <= RangeLength(cols)
          invariant aliens == Grid(row, cols) + RowOf(row, col) && offsetX == 0.0 && offsetY == 0.0
        {
          aliens := aliens + [GridAlien(row, col)];
          col := col + 1;
        }
        row := row + 1;
      }
    }

    /** Every alien of a valid fleet is worth a positive score. */
    lemma PointsPositive(k: int)
      requires Valid() && 0 <= k < |aliens|
      ensures aliens[k].points > 0
    {
      GridMembers(rows, cols);
    }

    /**
     * The movement tick of `AlienFleet.update`: at most one step per call, which takes
     * exactly one interval off the timer, shifts the fleet and applies the edge check.
     */
    method MoveStep(dt: real)
      requires direction == 1 || direction == -1
      requires aliens != [] && moveTimer + dt >= moveInterval ==> AnyActive(aliens)
      modifies this`moveTimer, this`offsetX, this`direction, this`offsetY
      ensures direction == 1 || direction == -1
      ensures old(moveTimer) + dt >= moveInterval ==>
        moveTimer == old(moveTimer) + dt - moveInterval &&
        offsetX == old(offsetX) + Stride(old(direction), speed, moveInterval) &&
        (direction, offsetY) == EdgeTurn(aliens, old(direction), old(offsetY))
      ensures old(moveTimer) + dt < moveInterval ==>
        moveTimer == old(moveTimer) + dt && offsetX == old(offsetX) && direction == old(direction) && offsetY == old(offsetY)
    {
      moveTimer := moveTimer + dt;
      if moveTimer >= moveInterval {
        moveTimer := moveTimer - moveInterval;
        offsetX := offsetX + Stride(direction, speed, moveInterval);
        if aliens != [] {
          var leftmost := MinActiveX(aliens);
          var rightmost := MaxActiveX(aliens);
          if rightmost >= (Width - EdgeMargin) as real && direction > 0 {
            direction := -1;
            offsetY := offsetY + DescentStep;
          } else if leftmost <= EdgeMargin as real && direction < 0 {
            direction := 1;
            offsetY := offsetY + DescentStep;
          }
        }
      }
    }

    /** The alien loop of `AlienFleet.update`. */
    method PlaceAliens(dt: real, bob: int -> real)
      modifies this`aliens
      ensures |aliens| == |old(aliens)|
      ensures forall i :: 0 <= i < |aliens| ==> aliens[i] == Placed(old(aliens)[i], dt, bob, offsetX, offsetY)
    {
      var i := 0;
      while i < |aliens|
        invariant 0 <= i <= |aliens| == |old(aliens)|
        invariant forall j :: 0 <= j < i ==> aliens[j] == Placed(old(aliens)[j], dt, bob, offsetX, offsetY)
        invariant forall j :: i <= j < |aliens| ==> aliens[j] == old(aliens)[j]
      {
        if aliens[i].active {
          aliens := aliens[i := aliens[i].Update(dt, bob(aliens[i].col), offsetX, offsetY)];
        }
        i := i + 1;
      }
    }

    /**
     * `try_shoot`: with some alien active and the draw under shoot_chance * difficulty, one
     * front-line alien fires a single shot; otherwise nothing happens.
     */
    method TryShoot(roll: real) returns (fired: bool)
      modifies this`lasers
      ensures fired <==> AnyActive(aliens) && roll < AdjustedChance(shootChance, difficultyFactor)
      ensures fired ==> exists s :: IsFrontLine(aliens, s) && lasers == old(lasers) + [ShotFrom(s)]
      ensures !fired ==> lasers == old(lasers)
    {
      ActiveCountPositive(aliens);
      var active := Actives(aliens);
      if |active| == 0 {
        return false;
      }
      var adjusted := AdjustedChance(shootChance, difficultyFactor);
      if roll < adjusted {
        var bottom: map<int, Alien> := map[];
        var i := 0;
        while i < |active|
          invariant 0 <= i <= |active|
          invariant forall c :: c in bottom ==> bottom[c] in active && bottom[c].col == c
          invariant forall j :: 0 <= j < i ==> active[j].col in bottom && active[j].row <= bottom[active[j].col].row
        {
          var a := active[i];
          if a.col !in bottom || a.row > bottom[a.col].row {
            bottom := bottom[a.col := a];
          }
          i := i + 1;
        }
        assert active[0].col in bottom;
        var c :| c in bottom;
        var shooter := bottom[c];
        forall j | 0 <= j < |aliens| && aliens[j].active && aliens[j].col == shooter.col
          ensures aliens[j].row <= shooter.row
        {
          assert aliens[j] in active;
          var k :| 0 <= k < |active| && active[k] == aliens[j];
        }
        assert IsFrontLine(aliens, shooter);
        lasers := lasers + [ShotFrom(shooter)];
        return true;
      }
      return false;
    }

    /** The difficulty block of `AlienFleet.update`: only while some alien is active. */
    method AdjustDifficulty()
      requires |aliens| == |Grid(rows, cols)|
      requires 1.0 <= difficultyFactor <= 1.5 && MinMoveInterval <= moveInterval && MinShootInterval <= shootInterval
      modifies this`difficultyFactor, this`moveInterval, this`shootInterval
      ensures 1.0 <= difficultyFactor <= 1.5 && MinMoveInterval <= moveInterval && MinShootInterval <= shootInterval
      ensures ActiveCount(aliens) > 0 ==>
        Capacity(rows, cols) == |aliens| &&
        difficultyFactor == Difficulty(ActiveCount(aliens), Capacity(rows, cols)) &&
        moveInterval == MoveIntervalFor(difficultyFactor) && shootInterval == ShootIntervalFor(difficultyFactor)
      ensures ActiveCount(aliens) == 0 ==>
        difficultyFactor == old(difficultyFactor) && moveInterval == old(moveInterval) && shootInterval == old(shootInterval)
    {
      var n := ActiveCount(aliens);
      if n > 0 {
        GridLength(rows, cols);
        assert rows > 0 && cols > 0;
        DifficultyBounds(n, Capacity(rows, cols));
        difficultyFactor := Difficulty(n, Capacity(rows, cols));
        moveInterval := MoveIntervalFor(difficultyFactor);
        shootInterval := ShootIntervalFor(difficultyFactor);
      }
    }

    /**
     * `AlienFleet.update`: the movement tick (edge check on last frame's positions), the
     * per-alien update, the laser pruning, the shot timer and the difficulty adjustment.
     */
    method Update(dt: real, bob: int -> real, roll: real) returns (fired: bool)
      requires Valid()
      requires aliens != [] && moveTimer + dt >= moveInterval ==> AnyActive(aliens)
      modifies this
      ensures Valid()
      ensures speed == old(speed) && shootChance == old(shootChance) && aliensDestroyed == old(aliensDestroyed)
      ensures old(moveTimer) + dt >= old(moveInterval) ==>
        moveTimer == old(moveTimer) + dt - old(moveInterval) &&
        offsetX == old(offsetX) + Stride(old(direction), speed, old(moveInterval)) &&
        (direction, offsetY) == EdgeTurn(old(aliens), old(direction), old(offsetY))
      ensures old(moveTimer) + dt < old(moveInterval) ==>
        moveTimer == old(moveTimer) + dt && offsetX == old(offsetX) && direction == old(direction) && offsetY == old(offsetY)
      ensures |aliens| == |old(aliens)|
      ensures forall i :: 0 <= i < |aliens| ==> aliens[i] == Placed(old(aliens)[i], dt, bob, offsetX, offsetY)
      ensures shootTimer == (if old(shootTimer) + dt >= old(shootInterval) then 0.0 else old(shootTimer) + dt)
      ensures fired <==> old(shootTimer) + dt >= old(shootInterval) && AnyActive(aliens) && roll < AdjustedChance(shootChance, old(difficultyFactor))
      ensures ShotsAfter(lasers, old(lasers), dt, aliens, fired)
      ensures ActiveCount(aliens) > 0 ==>
        Capacity(rows, cols) == |aliens| &&
        difficultyFactor == Difficulty(ActiveCount(aliens), Capacity(rows, cols)) &&
        moveInterval == MoveIntervalFor(difficultyFactor) && shootInterval == ShootIntervalFor(difficultyFactor)
      ensures ActiveCount(aliens) == 0 ==>
        difficultyFactor == old(difficultyFactor) && moveInterval == old(moveInterval) && shootInterval == old(shootInterval)
    {
      MoveAndPlace(dt, bob);
      fired := ShootAndAdjust(dt, roll);
    }

    /** The first half of `AlienFleet.update`: the movement tick, then the per-alien update. */
    method MoveAndPlace(dt: real, bob: int -> real)
      requires direction == 1 || direction == -1
      requires aliens != [] && moveTimer + dt >= moveInterval ==> AnyActive(aliens)
      modifies this`moveTimer, this`offsetX, this`direction, this`offsetY, this`aliens
      ensures direction == 1 || direction == -1
      ensures old(moveTimer) + dt >= moveInterval ==>
        moveTimer == old(moveTimer) + dt - moveInterval &&
        offsetX == old(offsetX) + Stride(old(direction), speed, moveInterval) &&
        (direction, offsetY) == EdgeTurn(old(aliens), old(direction), old(offsetY))
      ensures old(moveTimer) + dt < moveInterval ==>
        moveTimer == old(moveTimer) + dt && offsetX == old(offsetX) && direction == old(direction) && offsetY == old(offsetY)
      ensures |aliens| == |old(aliens)|
      ensures forall i :: 0 <= i < |aliens| ==> aliens[i] == Placed(old(aliens)[i], dt, bob, offsetX, offsetY)
    {
      MoveStep(dt);
      PlaceAliens(dt, bob);
    }

    /** The second half of `AlienFleet.update`: laser pruning, the shot timer, then the difficulty. */
    method ShootAndAdjust(dt: real, roll: real) returns (fired: bool)
      requires |aliens| == |Grid(rows, cols)|
      requires 1.0 <= difficultyFactor <= 1.5 && MinMoveInterval <= moveInterval && MinShootInterval <= shootInterval
      modifies this`lasers, this`shootTimer, this`difficultyFactor, this`moveInterval, this`shootInterval
      ensures 1.0 <= difficultyFactor <= 1.5 && MinMoveInterval <= moveInterval && MinShootInterval <= shootInterval
      ensures forall i :: 0 <= i < |lasers| ==> lasers[i].active
      ensures shootTimer == (if old(shootTimer) + dt >= old(shootInterval) then 0.0 else old(shootTimer) + dt)
      ensures fired <==> old(shootTimer) + dt >= old(shootInterval) && AnyActive(aliens) && roll < AdjustedChance(shootChance, old(difficultyFactor))
      ensures ShotsAfter(lasers, old(lasers), dt, aliens, fired)
      ensures ActiveCount(aliens) > 0 ==>
        Capacity(rows, cols) == |aliens| &&
        difficultyFactor == Difficulty(ActiveCount(aliens), Capacity(rows, cols)) &&
        moveInterval == MoveIntervalFor(difficultyFactor) && shootInterval == ShootIntervalFor(difficultyFactor)
      ensures ActiveCount(aliens) == 0 ==>
        difficultyFactor == old(difficultyFactor) && moveInterval == old(moveInterval) && shootInterval == old(shootInterval)
    {
      lasers := UpdateAlienLasers(lasers, dt);
      shootTimer := shootTimer + dt;
      fired := false;
      if shootTimer >= shootInterval {
        shootTimer := 0.0;
        fired := TryShoot(roll);
      }
      AdjustDifficulty();
    }

    /** What `check_collisions` does to the alien a player laser hit: switch it off and count it. */
    method Destroy(k: nat)
      requires Valid() && k < |aliens| && aliens[k].active
      modifies this`aliens, this`aliensDestroyed
      ensures Valid()
      ensures aliens == old(aliens)[k := old(aliens)[k].(active := false)]
      ensures aliensDestroyed == old(aliensDestroyed) + 1
      ensures ActiveCount(aliens) == ActiveCount(old(aliens)) - 1
    {
      DeactivateCount(aliens, k);
      aliens := aliens[k := aliens[k].(active := false)];
      aliensDestroyed := aliensDestroyed + 1;
    }

    /**
     * `reset`: a fresh grid, no shots, nothing destroyed, difficulty 1 and both timers at
     * zero; speed, shoot chance, direction and both intervals are kept.
     */
    method Reset()
      requires Valid()
      modifies this`aliens, this`offsetX, this`offsetY, this`lasers, this`aliensDestroyed,
               this`difficultyFactor, this`shootTimer, this`moveTimer
      ensures Valid()
      ensures aliens == Grid(rows, cols) && offsetX == 0.0 && offsetY == 0.0
      ensures lasers == [] && aliensDestroyed == 0 && difficultyFactor == 1.0 && shootTimer == 0.0 && moveTimer == 0.0
      ensures speed == old(speed) && shootChance == old(shootChance) && direction == old(direction)
      ensures moveInterval == old(moveInterval) && shootInterval == old(shootInterval)
      ensures rows > 0 && cols > 0 ==> !AllDestroyed(aliens)
    {
      CreateFleet();
      lasers := [];
      aliensDestroyed := 0;
      difficultyFactor := 1.0;
      shootTimer := 0.0;
      moveTimer := 0.0;
      if rows > 0 && cols > 0 {
        FreshGridAlive(rows, cols);
      }
    }
  }
}

/**
 * The two projectiles (entities/projectiles.py): the player's laser flies up,
 * the alien laser flies down; each moves along one axis and switches itself off
 * once it has left the screen.
 */
module Projectiles {
  import opened Numerics
  import opened Constants
  import opened Rects

  const LaserWidth: int := 3
  const LaserHeight: int := 15
  /** Default upward speed of a player laser, pixels per second. */
  const LaserSpeed: real := 500.0

  const AlienLaserWidth: int := 5
  const AlienLaserHeight: int := 10
  /** Default downward speed of an alien laser, pixels per second. */
  const AlienLaserSpeed: real := 300.0

  // ---------------------------------------------------------------- Laser

  /**
   * A player laser: centre (x, y), upward speed and whether it is still in flight.
   * Its box is derived from the centre whenever it is needed.
   */
  datatype Laser = Laser(x: real, y: real, speed: real, active: bool)
  {
    /** `rect`: the 3-by-15 box centred on the laser, with rect.y == y - 15 // 2. */
    function Box(): (r: Rect)
      ensures r.w == LaserWidth && r.h == LaserHeight
      ensures r.y == Trunc(y - 7.0) && r.x == Trunc(x - 1.0)
    {
      CenteredBox(x, y, LaserWidth, LaserHeight)
    }

    /** `Laser.update`: move up by speed * dt and switch off once above -height. */
    function Update(dt: real): (l: Laser)
      ensures l.x == x && l.speed == speed && l.y == y - speed * dt
      ensures !active ==> !l.active
      ensures active ==> (l.active <==> l.y >= -(LaserHeight as real))
    {
      var y' := y - speed * dt;
      this.(y := y', active := if y' < -(LaserHeight as real) then false else active)
    }
  }

  /** `Laser.__init__`: a fresh laser is in flight at the given centre. */
  function NewLaser(x: real, y: real, speed: real): (l: Laser)
    ensures l.active && l.x == x && l.y == y && l.speed == speed
  {
    Laser(x, y, speed, true)
  }

  /** A laser after one update per time step. */
  function Fly(l: Laser, dts: seq<real>): Laser
  {
    if dts == [] then l else Fly(l, dts[..|dts| - 1]).Update(dts[|dts| - 1])
  }

  /** Over any number of updates a laser keeps its column and travels exactly speed times the elapsed time. */
  lemma {:induction false} FlyDistance(l: Laser, dts: seq<real>)
    ensures Fly(l, dts).x == l.x && Fly(l, dts).speed == l.speed
    ensures Fly(l, dts).y == l.y - l.speed * Total(dts)
  {
    if dts != [] {
      var init, last := dts[..|dts| - 1], dts[|dts| - 1];
      FlyDistance(l, init);
      var before := Fly(l, init);
      var s, t0 := l.speed, Total(init);
      assert before.y == l.y - s * t0;
      assert Fly(l, dts).y == before.y - s * last;
      assert Total(dts) == t0 + last;
      Distribute(s, t0, last);
    }
  }

  /** Once switched off, a laser stays off however many updates follow. */
  lemma {:induction false} FlyKeepsOff(l: Laser, dts: seq<real>)
    requires !l.active
    ensures !Fly(l, dts).active
  {
    if dts != [] {
      FlyKeepsOff(l, dts[..|dts| - 1]);
    }
  }

  /**
   * What `Player.update` leaves in `lasers`: every laser updated once, the ones that
   * switched off dropped, the others in their original order.
   */
  function AdvanceLasers(ls: seq<Laser>, dt: real): (r: seq<Laser>)
    ensures |r| <= |ls|
    ensures forall i :: 0 <= i < |r| ==> r[i].active
  {
    if ls == [] then []
    else
      var l := ls[|ls| - 1].Update(dt);
      AdvanceLasers(ls[..|ls| - 1], dt) + (if l.active then [l] else [])
  }

  /** Pruning distributes over concatenation: survivors keep their relative order. */
  lemma {:induction false} AdvanceLasersAppend(a: seq<Laser>, b: seq<Laser>, dt: real)
    ensures AdvanceLasers(a + b, dt) == AdvanceLasers(a, dt) + AdvanceLasers(b, dt)
  {
    if b == [] {
      assert a + b == a;
    } else {
      var b', z := b[..|b| - 1], b[|b| - 1];
      assert (a + b)[..|a + b| - 1] == a + b';
      assert (a + b)[|a + b| - 1] == z;
      AdvanceLasersAppend(a, b', dt);
      assert AdvanceLasers(b, dt) == AdvanceLasers(b', dt) + (if z.Update(dt).active then [z.Update(dt)] else []);
    }
  }

  /** A laser survives the pruning exactly when its own update left it active. */
  lemma {:induction false} AdvanceLasersMembers(ls: seq<Laser>, dt: real)
    ensures forall i :: 0 <= i < |ls| && ls[i].Update(dt).active ==> ls[i].Update(dt) in AdvanceLasers(ls, dt)
    ensures forall l :: l in AdvanceLasers(ls, dt) ==> exists i :: 0 <= i < |ls| && l == ls[i].Update(dt)
  {
    if ls != [] {
      var init := ls[..|ls| - 1];
      AdvanceLasersMembers(init, dt);
      forall l | l in AdvanceLasers(ls, dt)
        ensures exists i :: 0 <= i < |ls| && l == ls[i].Update(dt)
      {
        if l in AdvanceLasers(init, dt) {
          var i :| 0 <= i < |init| && l == init[i].Update(dt);
          assert ls[i] == init[i];
        } else {
          assert l == ls[|ls| - 1].Update(dt);
        }
      }
    }
  }

  // ----------------------------------------------------------- AlienLaser

  /** An alien laser: centre (x, y), downward speed and whether it is still in flight. */
  datatype AlienLaser = AlienLaser(x: real, y: real, speed: real, active: bool)
  {
    /** `rect`: the 5-by-10 box centred on the laser, with rect.y == y - 10 // 2. */
    function Box(): (r: Rect)
      ensures r.w == AlienLaserWidth && r.h == AlienLaserHeight
      ensures r.y == Trunc(y - 5.0) && r.x == Trunc(x - 2.0)
    {
      CenteredBox(x, y, AlienLaserWidth, AlienLaserHeight)
    }

    /** `AlienLaser.update`: move down by speed * dt and switch off once below HEIGHT + height. */
    function Update(dt: real): (l: AlienLaser)
      ensures l.x == x && l.speed == speed && l.y == y + speed * dt
      ensures !active ==> !l.active
      ensures active ==> (l.active <==> l.y <= (Height + AlienLaserHeight) as real)
    {
      var y' := y + speed * dt;
      this.(y := y', active := if y' > (Height + AlienLaserHeight) as real then false else active)
    }
  }

  /** `AlienLaser.__init__` with the default speed; a fresh alien laser is in flight. */
  function NewAlienLaser(x: real, y: real): (l: AlienLaser)
    ensures l.active && l.x == x && l.y == y && l.speed == AlienLaserSpeed
  {
    AlienLaser(x, y, AlienLaserSpeed, true)
  }

  /** An alien laser after one update per time step. */
  function Fall(l: AlienLaser, dts: seq<real>): AlienLaser
  {
    if dts == [] then l else Fall(l, dts[..|dts| - 1]).Update(dts[|dts| - 1])
  }

  /** Over any number of updates an alien laser keeps its column and falls exactly speed times the elapsed time. */
  lemma {:induction false} FallDistance(l: AlienLaser, dts: seq<real>)
    ensures Fall(l, dts).x == l.x && Fall(l, dts).speed == l.speed
    ensures Fall(l, dts).y == l.y + l.speed * Total(dts)
  {
    if dts != [] {
      var init, last := dts[..|dts| - 1], dts[|dts| - 1];
      FallDistance(l, init);
      var before := Fall(l, init);
      var s, t0 := l.speed, Total(init);
      assert before.y == l.y + s * t0;
      assert Fall(l, dts).y == before.y + s * last;
      assert Total(dts) == t0 + last;
      Distribute(s, t0, last);
    }
  }

  /** Once switched off, an alien laser never reactivates. */
  lemma {:induction false} FallKeepsOff(l: AlienLaser, dts: seq<real>)
    requires !l.active
    ensures !Fall(l, dts).active
  {
    if dts != [] {
      FallKeepsOff(l, dts[..|dts| - 1]);
    }
  }

  /** What `AlienFleet.update` leaves in `lasers`: each updated once, the switched-off ones dropped, order kept. */
  function AdvanceAlienLasers(ls: seq<AlienLaser>, dt: real): (r: seq<AlienLaser>)
    ensures |r| <= |ls|
    ensures forall i :: 0 <= i < |r| ==> r[i].active
  {
    if ls == [] then []
    else
      var l := ls[|ls| - 1].Update(dt);
      AdvanceAlienLasers(ls[..|ls| - 1], dt) + (if l.active then [l] else [])
  }

  /** Pruning the fleet's lasers distributes over concatenation: survivors keep their relative order. */
  lemma {:induction false} AdvanceAlienLasersAppend(a: seq<AlienLaser>, b: seq<AlienLaser>, dt: real)
    ensures AdvanceAlienLasers(a + b, dt) == AdvanceAlienLasers(a, dt) + AdvanceAlienLasers(b, dt)
  {
    if b == [] {
      assert a + b == a;
    } else {
      var b', z := b[..|b| - 1], b[|b| - 1];
      assert (a + b)[..|a + b| - 1] == a + b';
      assert (a + b)[|a + b| - 1] == z;
      AdvanceAlienLasersAppend(a, b', dt);
      assert AdvanceAlienLasers(b, dt) == AdvanceAlienLasers(b', dt) + (if z.Update(dt).active then [z.Update(dt)] else []);
    }
  }

  /** An alien laser survives the pruning exactly when its own update left it active. */
  lemma {:induction false} AdvanceAlienLasersMembers(ls: seq<AlienLaser>, dt: real)
    ensures forall i :: 0 <= i < |ls| && ls[i].Update(dt).active ==> ls[i].Update(dt) in AdvanceAlienLasers(ls, dt)
    ensures forall l :: l in AdvanceAlienLasers(ls, dt) ==> exists i :: 0 <= i < |ls| && l == ls[i].Update(dt)
  {
    if ls != [] {
      var init := ls[..|ls| - 1];
      AdvanceAlienLasersMembers(init, dt);
      forall l | l in AdvanceAlienLasers(ls, dt)
        ensures exists i :: 0 <= i < |ls| && l == ls[i].Update(dt)
      {
        if l in AdvanceAlienLasers(init, dt) {
          var i :| 0 <= i < |init| && l == init[i].Update(dt);
          assert ls[i] == init[i];
        } else {
          assert l == ls[|ls| - 1].Update(dt);
        }
      }
    }
  }
}

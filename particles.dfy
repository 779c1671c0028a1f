/**
 * Explosion particles (utils/particles.py): short-lived points that drift, fade and
 * shrink, spawned in bursts and dropped once their lifetime has run out.
 */
module Particles {
  import opened Numerics
  import opened Constants

  /** The per-update shrink factor of a particle. */
  const Shrink: real := 0.97

  /**
   * A particle: position, colour, velocity, current size and remaining / maximal lifetime.
   * Its opacity is derived from the lifetime fraction whenever it is needed.
   */
  datatype Particle = Particle(x: real, y: real, color: Color, vx: real, vy: real,
                               size: real, maxLifetime: real, lifetime: real)
  {
    /** What `update` returns: the particle still has lifetime left. */
    predicate Alive()
    {
      lifetime > 0.0
    }

    /** `alpha = int(255 * (lifetime / max_lifetime))`; 255 for a fresh particle. */
    function Alpha(): (a: int)
      requires maxLifetime != 0.0
      ensures lifetime == maxLifetime ==> a == 255
      ensures lifetime == 0.0 ==> a == 0
      ensures 0.0 <= lifetime < maxLifetime ==> 0 <= a < 255
    {
      var q := lifetime / maxLifetime;
      assert lifetime == maxLifetime ==> q == 1.0 by {
        if lifetime == maxLifetime {
          QuotientSelf(maxLifetime);
        }
      }
      assert 0.0 <= lifetime < maxLifetime ==> 0.0 <= q < 1.0 by {
        if 0.0 <= lifetime < maxLifetime {
          QuotientBelowOne(lifetime, maxLifetime);
        }
      }
      Trunc(255.0 * q)
    }

    /** `Particle.update`: drift by velocity * dt, lose dt of lifetime, shrink by 3 percent. */
    function Update(dt: real): (p: Particle)
      ensures p.x == x + vx * dt && p.y == y + vy * dt
      ensures p.lifetime == lifetime - dt && p.maxLifetime == maxLifetime
      ensures p.size == size * Shrink
      ensures p.color == color && p.vx == vx && p.vy == vy
    {
      this.(x := x + vx * dt, y := y + vy * dt, lifetime := lifetime - dt, size := size * Shrink)
    }
  }

  /** A particle as spawned: full lifetime, hence fully opaque. */
  function NewParticle(x: real, y: real, color: Color, vx: real, vy: real, size: real, lifetime: real): (p: Particle)
    ensures p.lifetime == p.maxLifetime == lifetime
    ensures lifetime != 0.0 ==> p.Alpha() == 255
  {
    assert lifetime != 0.0 ==> 255.0 * (lifetime / lifetime) == 255.0;
    Particle(x, y, color, vx, vy, size, lifetime, lifetime)
  }

  /** The opacity never exceeds 255 while the lifetime is at most max_lifetime, and is a byte while the lifetime is not negative. */
  lemma AlphaInRange(p: Particle)
    requires 0.0 < p.maxLifetime && p.lifetime <= p.maxLifetime
    ensures p.Alpha() <= 255
    ensures 0.0 <= p.lifetime ==> 0 <= p.Alpha()
  {
    var q := p.lifetime / p.maxLifetime;
    assert q * p.maxLifetime == p.lifetime;
    assert q <= 1.0;
    assert 255.0 * q <= 255.0;
    assert 0.0 <= p.lifetime ==> 0.0 <= 255.0 * q;
  }

  /** The fraction of the initial size left after n updates: 0.97^n. */
  function Decay(n: nat): (d: real)
    ensures 0.0 < d <= 1.0
    ensures n > 0 ==> d < 1.0
  {
    if n == 0 then 1.0 else Decay(n - 1) * Shrink
  }

  /** A particle after one update per time step. */
  function Age(p: Particle, dts: seq<real>): Particle
  {
    if dts == [] then p else Age(p, dts[..|dts| - 1]).Update(dts[|dts| - 1])
  }

  /** After any number of updates the lifetime has dropped by exactly the elapsed time. */
  lemma {:induction false} AgeLifetime(p: Particle, dts: seq<real>)
    ensures Age(p, dts).maxLifetime == p.maxLifetime
    ensures Age(p, dts).lifetime == p.lifetime - Total(dts)
  {
    if dts != [] {
      AgeLifetime(p, dts[..|dts| - 1]);
    }
  }

  /** After n updates the size is size * 0.97^n. */
  lemma {:induction false} AgeSize(p: Particle, dts: seq<real>)
    ensures Age(p, dts).size == p.size * Decay(|dts|)
  {
    if dts != [] {
      var init := dts[..|dts| - 1];
      AgeSize(p, init);
      var s, d := p.size, Decay(|init|);
      assert Age(p, dts).size == s * d * Shrink;
      assert Decay(|dts|) == d * Shrink;
      assert s * d * Shrink == s * (d * Shrink);
    }
  }

  /** A particle of positive size strictly shrinks with every update and never reaches zero. */
  lemma ShrinksButStaysPositive(p: Particle, dts: seq<real>)
    requires p.size > 0.0 && |dts| > 0
    ensures 0.0 < Age(p, dts).size < p.size
  {
    AgeSize(p, dts);
    var d := Decay(|dts|);
    assert 0.0 < d < 1.0;
    assert p.size * d < p.size * 1.0;
  }

  /** What `ParticleSystem.update` keeps: the particles whose own update returned True, in order. */
  function Survivors(ps: seq<Particle>, dt: real): (r: seq<Particle>)
    ensures |r| <= |ps|
    ensures forall i :: 0 <= i < |r| ==> r[i].Alive()
  {
    if ps == [] then []
    else
      var p := ps[|ps| - 1].Update(dt);
      Survivors(ps[..|ps| - 1], dt) + (if p.Alive() then [p] else [])
  }

  /** A particle survives exactly when its own update returned True. */
  lemma {:induction false} SurvivorsMembers(ps: seq<Particle>, dt: real)
    ensures forall i :: 0 <= i < |ps| && ps[i].Update(dt).Alive() ==> ps[i].Update(dt) in Survivors(ps, dt)
    ensures forall q :: q in Survivors(ps, dt) ==> exists i :: 0 <= i < |ps| && q == ps[i].Update(dt)
  {
    if ps != [] {
      var init := ps[..|ps| - 1];
      SurvivorsMembers(init, dt);
      forall q | q in Survivors(ps, dt)
        ensures exists i :: 0 <= i < |ps| && q == ps[i].Update(dt)
      {
        if q in Survivors(init, dt) {
          var i :| 0 <= i < |init| && q == init[i].Update(dt);
          assert ps[i] == init[i];
        } else {
          assert q == ps[|ps| - 1].Update(dt);
        }
      }
    }
  }

  /** A velocity of length in [50, 150]: `speed * (cos angle, sin angle)` with speed in [50, 150]. */
  predicate BurstVelocity(vx: real, vy: real)
  {
    50.0 * 50.0 <= vx * vx + vy * vy <= 150.0 * 150.0
  }

  /** A size between 0.7 and 1.3 times the base size (in either order when the base is negative). */
  predicate ScaledSize(s: real, size: real)
  {
    if size >= 0.0 then 0.7 * size <= s <= 1.3 * size else 1.3 * size <= s <= 0.7 * size
  }

  /** `size * uniform(0.7, 1.3)` is a scaled size. */
  lemma ScaledSizeOf(size: real, factor: real)
    requires InRange(factor, 0.7, 1.3)
    ensures ScaledSize(size * factor, size)
  {
    if size >= 0.0 {
      assert (factor - 0.7) * size >= 0.0;
      assert (1.3 - factor) * size >= 0.0;
    } else {
      assert (factor - 0.7) * size <= 0.0;
      assert (1.3 - factor) * size <= 0.0;
    }
  }

  /** A channel within reach of `min(255, max(0, base + j))` for some jitter j in [-20, 20]. */
  predicate Jittered(base: int, c: int)
  {
    ClampByte(base - 20) <= c <= ClampByte(base + 20)
  }

  /** Every jitter in [-20, 20] gives a jittered channel. */
  lemma JitterSound(base: int, j: int)
    requires -20 <= j <= 20
    ensures Jittered(base, ClampByte(base + j))
  {
  }

  /** Every jittered channel comes from some jitter in [-20, 20]: `Jittered` is exactly the reachable set. */
  lemma JitterComplete(base: int, c: int) returns (j: int)
    requires Jittered(base, c)
    ensures -20 <= j <= 20 && ClampByte(base + j) == c
  {
    if c == 0 {
      j := -20;
      if base - 20 > 0 { assert false; }
    } else if c == 255 {
      j := 20;
      if base + 20 < 255 { assert false; }
    } else {
      j := c - base;
    }
  }

  /**
   * What `add_explosion` promises of each particle it spawns at (x, y): a jittered, clamped
   * colour, a speed in [50, 150] in some direction, a lifetime in [0.5, 1.5] that is also its
   * maximal lifetime, and a size between 0.7 and 1.3 times the base size.
   */
  predicate Spawned(p: Particle, x: real, y: real, base: Color, size: real)
  {
    && p.x == x && p.y == y
    && Jittered(base.r, p.color.r) && Jittered(base.g, p.color.g) && Jittered(base.b, p.color.b)
    && BurstVelocity(p.vx, p.vy)
    && InRange(p.lifetime, 0.5, 1.5) && p.maxLifetime == p.lifetime
    && ScaledSize(p.size, size)
  }

  /** The particle manager: its list only ever holds updatable particles. */
  class ParticleSystem {
    var particles: seq<Particle>

    ghost predicate Valid()
      reads this
    {
      forall i :: 0 <= i < |particles| ==> particles[i].maxLifetime >= 0.5
    }

    /** `ParticleSystem.__init__`: no particles. */
    constructor ()
      ensures Valid() && particles == []
    {
      particles := [];
    }

    /** `add_explosion`: append max(count, 0) freshly spawned particles, keeping the existing ones in order. */
    method AddExplosion(x: real, y: real, color: Color, count: int, size: real)
      requires Valid()
      modifies this
      ensures Valid()
      ensures |particles| == |old(particles)| + RangeLength(count)
      ensures particles[..|old(particles)|] == old(particles)
      ensures forall i :: |old(particles)| <= i < |particles| ==> Spawned(particles[i], x, y, color, size)
    {
      var n := 0;
      while n < count
        invariant 0 <= n <= RangeLength(count)
        invariant Valid()
        invariant |particles| == |old(particles)| + n
        invariant particles[..|old(particles)|] == old(particles)
        invariant forall i :: |old(particles)| <= i < |particles| ==> Spawned(particles[i], x, y, color, size)
      {
        // A direction in [0, 2 pi] and a speed in [50, 150]: a velocity whose length is in [50, 150].
        assert BurstVelocity(100.0, 0.0);
        var vx: real, vy: real :| BurstVelocity(vx, vy);
        var jr: int :| -20 <= jr <= 20;
        var jg: int :| -20 <= jg <= 20;
        var jb: int :| -20 <= jb <= 20;
        var r, g, b := ClampByte(color.r + jr), ClampByte(color.g + jg), ClampByte(color.b + jb);
        JitterSound(color.r, jr);
        JitterSound(color.g, jg);
        JitterSound(color.b, jb);
        assert InRange(1.0, 0.5, 1.5) && InRange(1.0, 0.7, 1.3);
        var lifetime: real :| InRange(lifetime, 0.5, 1.5);
        var factor: real :| InRange(factor, 0.7, 1.3);
        ScaledSizeOf(size, factor);
        var p := NewParticle(x, y, Color(r, g, b), vx, vy, size * factor, lifetime);
        assert Spawned(p, x, y, color, size);
        particles := particles + [p];
        n := n + 1;
      }
    }

    /** `ParticleSystem.update`: update every particle once and keep those still alive, in order. */
    method Update(dt: real)
      requires Valid()
      modifies this
      ensures Valid()
      ensures particles == Survivors(old(particles), dt)
    {
      var all := particles;
      var kept := [];
      var i := 0;
      while i < |all|
        invariant 0 <= i <= |all|
        invariant kept == Survivors(all[..i], dt)
      {
        assert all[..i + 1][..i] == all[..i];
        var p := all[i].Update(dt);
        if p.Alive() {
          kept := kept + [p];
        }
        i := i + 1;
      }
      assert all[..i] == all;
      particles := kept;
      SurvivorsMembers(all, dt);
      forall k | 0 <= k < |particles|
        ensures particles[k].maxLifetime >= 0.5
      {
        assert particles[k] in Survivors(all, dt);
        var i :| 0 <= i < |all| && particles[k] == all[i].Update(dt);
      }
    }

    /** `ParticleSystem.clear`: no particles left. */
    method Clear()
      modifies this
      ensures Valid() && particles == []
    {
      particles := [];
    }
  }
}

/**
 * The player's ship (entities/player.py): bounded steering, a shot cooldown, and the
 * hit / invincibility timers that make one enemy laser cost at most one life.
 */
module Players {
  import opened Numerics
  import opened Constants
  import opened Rects
  import opened Projectiles

  const ShipWidth: int := 30
  const ShipHeight: int := 20
  /** Horizontal speed in pixels per second. */
  const ShipSpeed: real := 300.0
  const ShipColor: Color := NeonCyan
  const ShootCooldown: real := 0.25
  const HitDuration: real := 0.3
  const InvincibleDuration: real := 2.0
  const StartLives: int := 3

  /** `keys.get(k, False)`: a key counts as held only when the map says so. */
  predicate Held(keys: map<Key, bool>, k: Key)
  {
    k in keys && keys[k]
  }

  /**
   * The movement step of `Player.update`: a left move only while x > width // 2, then a
   * right move only while the (possibly moved) x < WIDTH - width // 2.
   */
  function Steer(x: real, dt: real, left: bool, right: bool): (r: real)
    ensures !(left && x > (ShipWidth / 2) as real) && !(right && x < (Width - ShipWidth / 2) as real) ==> r == x
    ensures left && !right && x > (ShipWidth / 2) as real ==> r == x - ShipSpeed * dt
    ensures right && !left && x < (Width - ShipWidth / 2) as real ==> r == x + ShipSpeed * dt
    ensures left && right && x > (ShipWidth / 2) as real && x - ShipSpeed * dt < (Width - ShipWidth / 2) as real ==> r == x
    ensures left && right && x > (ShipWidth / 2) as real && x - ShipSpeed * dt >= (Width - ShipWidth / 2) as real ==>
      r == x - ShipSpeed * dt
    ensures left && right && x <= (ShipWidth / 2) as real && x < (Width - ShipWidth / 2) as real ==> r == x + ShipSpeed * dt
    ensures 0.0 <= dt <= 0.05 && 0.0 <= x <= Width as real ==> 0.0 <= r <= Width as real
  {
    var x1 := if left && x > (ShipWidth / 2) as real then x - ShipSpeed * dt else x;
    if right && x1 < (Width - ShipWidth / 2) as real then x1 + ShipSpeed * dt else x1
  }

  /** Screen-shake amplitude while hit: 5 * hit_timer / hit_duration, in (0, 5] for a running timer. */
  function ShakeFor(hitTimer: real): (s: real)
    ensures 0.0 < hitTimer <= HitDuration ==> 0.0 < s <= 5.0
    ensures hitTimer == HitDuration ==> s == 5.0
  {
    5.0 * (hitTimer / HitDuration)
  }

  /** The laser loop of `Player.update`: update each laser once and drop the ones that went off screen. */
  method UpdateLasers(all: seq<Laser>, dt: real) returns (kept: seq<Laser>)
    ensures kept == AdvanceLasers(all, dt)
  {
    kept := [];
    var i := 0;
    while i < |all|
      invariant 0 <= i <= |all|
      invariant kept == AdvanceLasers(all[..i], dt)
    {
      assert all[..i + 1][..i] == all[..i];
      var l := all[i].Update(dt);
      if l.active {
        kept := kept + [l];
      }
      i := i + 1;
    }
    assert all[..i] == all;
  }

  class Player {
    var x: real
    const y: real
    var lastShotTime: real
    var lasers: seq<Laser>
    var lives: int
    var isHit: bool
    var hitTimer: real
    var shakeAmount: real
    var invincible: bool
    var invincibleTimer: real

    /** `self.rect`, kept in step with x by `update`. */
    function Box(): (r: Rect)
      reads this
      ensures r.x == Trunc(x - (ShipWidth / 2) as real) && r.y == Trunc(y - (ShipHeight / 2) as real)
      ensures r.w == ShipWidth && r.h == ShipHeight
    {
      CenteredBox(x, y, ShipWidth, ShipHeight)
    }

    /** The fields `hit` and the timers in `update` work on. */
    ghost function HitState(): (bool, real, real, bool, real)
      reads this
    {
      (isHit, hitTimer, shakeAmount, invincible, invincibleTimer)
    }

    /** `Player.__init__`: three lives, no lasers, not hit, not invincible. */
    constructor (x0: real, y0: real)
      ensures x == x0 && y == y0 && lastShotTime == 0.0 && lasers == []
      ensures lives == StartLives && !isHit && hitTimer == 0.0 && shakeAmount == 0.0
      ensures !invincible && invincibleTimer == 0.0
    {
      x := x0;
      y := y0;
      lastShotTime := 0.0;
      lasers := [];
      lives := StartLives;
      isHit := false;
      hitTimer := 0.0;
      shakeAmount := 0.0;
      invincible := false;
      invincibleTimer := 0.0;
    }

    /**
     * `Player.update`: steer, advance and prune the lasers, then run down the hit timer
     * (clearing the hit and the shake at zero) and the invincibility timer.
     */
    method Update(dt: real, keys: map<Key, bool>)
      modifies this
      ensures x == Steer(old(x), dt, Held(keys, KeyLeft) || Held(keys, KeyA), Held(keys, KeyRight) || Held(keys, KeyD))
      ensures lasers == AdvanceLasers(old(lasers), dt)
      ensures old(isHit) ==>
        hitTimer == old(hitTimer) - dt && (isHit <==> hitTimer > 0.0) &&
        shakeAmount == (if hitTimer > 0.0 then ShakeFor(hitTimer) else 0.0)
      ensures !old(isHit) ==> !isHit && hitTimer == old(hitTimer) && shakeAmount == old(shakeAmount)
      ensures old(invincible) ==> invincibleTimer == old(invincibleTimer) - dt && (invincible <==> invincibleTimer > 0.0)
      ensures !old(invincible) ==> !invincible && invincibleTimer == old(invincibleTimer)
      ensures lives == old(lives) && lastShotTime == old(lastShotTime)
    {
      var left := Held(keys, KeyLeft) || Held(keys, KeyA);
      var right := Held(keys, KeyRight) || Held(keys, KeyD);
      if left && x > (ShipWidth / 2) as real {
        x := x - ShipSpeed * dt;
      }
      if right && x < (Width - ShipWidth / 2) as real {
        x := x + ShipSpeed * dt;
      }

      lasers := UpdateLasers(lasers, dt);

      RunHitTimer(dt);
      RunInvincibility(dt);
    }

    /** The hit-state block of `Player.update`. */
    method RunHitTimer(dt: real)
      modifies this
      ensures old(isHit) ==>
        hitTimer == old(hitTimer) - dt && (isHit <==> hitTimer > 0.0) &&
        shakeAmount == (if hitTimer > 0.0 then ShakeFor(hitTimer) else 0.0)
      ensures !old(isHit) ==> !isHit && hitTimer == old(hitTimer) && shakeAmount == old(shakeAmount)
      ensures x == old(x) && lasers == old(lasers) && lives == old(lives) && lastShotTime == old(lastShotTime)
      ensures invincible == old(invincible) && invincibleTimer == old(invincibleTimer)
    {
      if isHit {
        hitTimer := hitTimer - dt;
        if hitTimer <= 0.0 {
          isHit := false;
          shakeAmount := 0.0;
        } else {
          shakeAmount := ShakeFor(hitTimer);
        }
      }
    }

    /** The invincibility block of `Player.update`: the window closes once its timer runs out. */
    method RunInvincibility(dt: real)
      modifies this
      ensures old(invincible) ==> invincibleTimer == old(invincibleTimer) - dt && (invincible <==> invincibleTimer > 0.0)
      ensures !old(invincible) ==> !invincible && invincibleTimer == old(invincibleTimer)
      ensures x == old(x) && lasers == old(lasers) && lives == old(lives) && lastShotTime == old(lastShotTime)
      ensures isHit == old(isHit) && hitTimer == old(hitTimer) && shakeAmount == old(shakeAmount)
    {
      if invincible {
        invincibleTimer := invincibleTimer - dt;
        if invincibleTimer <= 0.0 {
          invincible := false;
        }
      }
    }

    /**
     * `Player.shoot`: once the cooldown has passed since the last shot, fire one laser from
     * the ship's nose (x, y - height // 2) and restart the cooldown; otherwise change nothing.
     */
    method Shoot(now: real) returns (fired: bool)
      modifies this
      ensures fired <==> now - old(lastShotTime) >= ShootCooldown
      ensures fired ==> lasers == old(lasers) + [NewLaser(x, y - (ShipHeight / 2) as real, LaserSpeed)] && lastShotTime == now
      ensures !fired ==> lasers == old(lasers) && lastShotTime == old(lastShotTime)
      ensures x == old(x) && lives == old(lives) && HitState() == old(HitState())
    {
      if now - lastShotTime >= ShootCooldown {
        lasers := lasers + [NewLaser(x, y - (ShipHeight / 2) as real, LaserSpeed)];
        lastShotTime := now;
        return true;
      }
      return false;
    }

    /**
     * `Player.hit`: a hit that lands (only when not invincible) costs exactly one life and
     * starts both the hit timer and the invincibility window; otherwise nothing changes.
     */
    method Hit() returns (applied: bool)
      modifies this
      ensures applied <==> !old(invincible)
      ensures applied ==>
        lives == old(lives) - 1 && isHit && hitTimer == HitDuration &&
        invincible && invincibleTimer == InvincibleDuration && shakeAmount == old(shakeAmount)
      ensures !applied ==> lives == old(lives) && HitState() == old(HitState())
      ensures x == old(x) && lasers == old(lasers) && lastShotTime == old(lastShotTime)
    {
      if !invincible {
        lives := lives - 1;
        isHit := true;
        hitTimer := HitDuration;
        invincible := true;
        invincibleTimer := InvincibleDuration;
        return true;
      }
      return false;
    }
  }

  /**
   * One invincibility window: a hit, then frames whose time steps add up to less than the
   * window (and to less than what is left of a window already running), then a second hit.
   * The second hit never lands, so the pair costs at most one life.
   */
  method HitThenHitAgain(p: Player, dts: seq<real>, keys: map<Key, bool>) returns (first: bool, second: bool)
    requires forall i :: 0 <= i < |dts| ==> 0.0 <= dts[i]
    requires Total(dts) < InvincibleDuration
    requires p.invincible ==> Total(dts) < p.invincibleTimer
    modifies p
    ensures first == !old(p.invincible) && !second
    ensures p.lives == old(p.lives) - (if first then 1 else 0)
  {
    first := p.Hit();
    var window := p.invincibleTimer;
    assert Total(dts) < window;
    var i := 0;
    while i < |dts|
      invariant 0 <= i <= |dts|
      invariant p.invincible && p.invincibleTimer == window - Total(dts[..i])
      invariant p.lives == old(p.lives) - (if first then 1 else 0)
    {
      assert dts[..i + 1][..i] == dts[..i];
      TotalPrefixBound(dts, i + 1);
      p.Update(dts[i], keys);
      i := i + 1;
    }
    second := p.Hit();
  }

  /** A prefix of non-negative time steps adds up to no more than the whole. */
  lemma {:induction false} TotalPrefixBound(dts: seq<real>, k: nat)
    requires k <= |dts|
    requires forall i :: 0 <= i < |dts| ==> 0.0 <= dts[i]
    ensures Total(dts[..k]) <= Total(dts)
  {
    if k < |dts| {
      var init := dts[..|dts| - 1];
      assert dts[..k] == init[..k];
      TotalPrefixBound(init, k);
    } else {
      assert dts[..k] == dts;
    }
  }
}

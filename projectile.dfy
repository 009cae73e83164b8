/**
  Enemy projectiles (CHARACTER/Scripts/EnemyProjectile.cs): four motion
  programs stepped once per fixed tick, the initial-heading rules, and the
  hit-resolution table.

  A velocity is kept as a heading times a non-negative magnitude. The heading
  is `transform.up` or a direction the enemy normalised, taken as a unit
  vector (or zero); under that reading `v.normalized * s` is computed exactly.
 */
module ProjectileRules {
  import opened Geometry
  import opened HealthProtocol

  datatype ProjectileType = Linear | Accelerating | Tracking | Uncontrolled

  /** `rb.linearVelocity` as `heading * magnitude`. */
  datatype Motion = Motion(heading: Vec2, magnitude: real)

  const AtRest: Motion := Motion(Zero, 0.0)

  /** The serialized settings of one projectile prefab. */
  datatype ProjectileConfig = ProjectileConfig(
    kind: ProjectileType,
    speed: real,
    damage: real,
    lifetime: real,
    accelerationRate: real,
    turnSpeed: real,
    chaosStrength: real)

  /** What a hit object carries: an EnemyProjectile, a Health, a PlayerController. */
  datatype HitObject = HitObject(isProjectile: bool, hasHealth: bool, isPlayer: bool)

  /** What `HandleHit` does about it. */
  datatype HitOutcome = HitOutcome(damageTarget: bool, destroySelf: bool)

  function Velocity(m: Motion): Vec2 {
    Scale(m.heading, m.magnitude)
  }

  /** `rb.linearVelocity == Vector2.zero`, for a unit or zero heading. */
  predicate IsAtRest(m: Motion) {
    m.magnitude == 0.0 || m.heading == Zero
  }

  /**
    `dir * s` as a Motion: a negative factor reverses the heading, so the
    magnitude stays the absolute value of `s`.
   */
  function Along(dir: Vec2, s: real): (m: Motion)
    ensures Velocity(m) == Scale(dir, s)
    ensures 0.0 <= m.magnitude && (m.magnitude == s || m.magnitude == -s)
  {
    if s >= 0.0 then Motion(dir, s) else Motion(Neg(dir), -s)
  }

  /** `v.normalized`: the heading of a moving body, zero for one at rest. */
  function Normalized(m: Motion): Vec2 {
    if IsAtRest(m) then Zero else m.heading
  }

  /**
    The hit table: other projectiles are ignored; a Health-carrying player is
    damaged once and the projectile destroyed; a Health-carrying non-player is
    passed through; anything without Health (a wall) destroys the projectile
    without damage.
   */
  function ResolveHit(o: HitObject): (r: HitOutcome)
    ensures r.damageTarget <==> !o.isProjectile && o.hasHealth && o.isPlayer
    ensures r.destroySelf <==> !o.isProjectile && (!o.hasHealth || o.isPlayer)
    ensures r.damageTarget ==> r.destroySelf
  {
    if o.isProjectile then HitOutcome(false, false)
    else if o.hasHealth then
      (if o.isPlayer then HitOutcome(true, true) else HitOutcome(false, false))
    else HitOutcome(false, true)
  }

  /** One Accelerating step of `currentSpeed`. */
  function AccelerateSpeed(currentSpeed: real, rate: real, dt: real): real {
    currentSpeed + rate * dt
  }

  /** `currentSpeed` after `n` Accelerating steps of length `dt`. */
  function SpeedAfterSteps(speed: real, rate: real, dt: real, n: nat): real
    decreases n
  {
    if n == 0 then speed else AccelerateSpeed(SpeedAfterSteps(speed, rate, dt, n - 1), rate, dt)
  }

  /** The speed ramp is linear in the number of steps. */
  lemma {:induction false} LinearSpeedRamp(speed: real, rate: real, dt: real, n: nat)
    ensures SpeedAfterSteps(speed, rate, dt, n) == speed + (n as real) * rate * dt
    decreases n
  {
    if n > 0 {
      LinearSpeedRamp(speed, rate, dt, n - 1);
      calc {
        SpeedAfterSteps(speed, rate, dt, n);
        speed + ((n - 1) as real) * rate * dt + rate * dt;
        { assert ((n - 1) as real) * rate * dt + rate * dt == (n as real) * rate * dt; }
        speed + (n as real) * rate * dt;
      }
    }
  }

  /** `timeAlive` after `n` fixed steps of length `dt`. */
  function TimeAliveAfter(timeAlive: real, dt: real, n: nat): real
    decreases n
  {
    if n == 0 then timeAlive else TimeAliveAfter(timeAlive, dt, n - 1) + dt
  }

  lemma {:induction false} TimeAliveIsElapsedTime(timeAlive: real, dt: real, n: nat)
    ensures TimeAliveAfter(timeAlive, dt, n) == timeAlive + (n as real) * dt
    decreases n
  {
    if n > 0 {
      TimeAliveIsElapsedTime(timeAlive, dt, n - 1);
    }
  }

  /** `Random.Range(lo, hi)` returns a value between its bounds, in either order. */
  predicate Between(x: real, lo: real, hi: real) {
    (lo <= x <= hi) || (hi <= x <= lo)
  }

  class EnemyProjectile {
    const cfg: ProjectileConfig
    var currentSpeed: real
    var timeAlive: real
    /** `transform.up`. */
    var up: Vec2
    var rotation: real
    var angularVelocity: real
    var velocity: Motion
    /** Whether a player was found in `Awake`. */
    var hasPlayer: bool
    /** Whether `Destroy(gameObject)` has been requested by a hit. */
    var destroyed: bool

    /** `Awake`: the speed starts at the configured speed; the body starts at rest. */
    constructor (cfg: ProjectileConfig, up: Vec2, rotation: real, playerFound: bool)
      ensures this.cfg == cfg && currentSpeed == cfg.speed && timeAlive == 0.0
      ensures this.up == up && this.rotation == rotation && velocity == AtRest
      ensures angularVelocity == 0.0 && hasPlayer == playerFound && !destroyed
    {
      this.cfg := cfg;
      currentSpeed := cfg.speed;
      timeAlive := 0.0;
      this.up := up;
      this.rotation := rotation;
      angularVelocity := 0.0;
      velocity := AtRest;
      hasPlayer := playerFound;
      destroyed := false;
    }

    /** `Start`: launch along `transform.up` unless Tracking or already launched by `Initialize`. */
    method Start()
      modifies this`velocity
      ensures cfg.kind != Tracking && IsAtRest(old(velocity)) ==> velocity == Along(up, currentSpeed)
      ensures cfg.kind == Tracking || !IsAtRest(old(velocity)) ==> velocity == old(velocity)
    {
      if cfg.kind != Tracking {
        if IsAtRest(velocity) {
          velocity := Along(up, currentSpeed);
        }
      }
    }

    /**
      `Initialize(shooter, direction)`: a non-zero direction sets the heading
      and launches, except for Tracking; Uncontrolled takes the random
      heading instead of the given one.
     */
    method Initialize(direction: Vec2, randomHeading: Vec2)
      modifies this`up, this`velocity
      ensures direction != Zero && cfg.kind != Tracking ==>
                up == (if cfg.kind == Uncontrolled then randomHeading else direction) &&
                velocity == Along(up, currentSpeed)
      ensures direction == Zero || cfg.kind == Tracking ==> up == old(up) && velocity == old(velocity)
    {
      if direction != Zero && cfg.kind != Tracking {
        if cfg.kind == Uncontrolled {
          up := randomHeading;
        } else {
          up := direction;
        }
        velocity := Along(up, currentSpeed);
      }
    }

    /**
      One fixed step of length `dt`. `noise` is the Uncontrolled draw from
      `Random.Range(-chaosStrength*5, chaosStrength*5)`; `crossZ` is the z
      component of `Cross(directionToPlayer, transform.up)` for Tracking.
     */
    method FixedUpdate(dt: real, noise: real, crossZ: real)
      requires Between(noise, -cfg.chaosStrength * 5.0, cfg.chaosStrength * 5.0)
      modifies this`timeAlive, this`currentSpeed, this`velocity, this`rotation, this`angularVelocity
      ensures timeAlive == old(timeAlive) + dt
      ensures cfg.kind == Linear ==>
                velocity == old(velocity) && currentSpeed == old(currentSpeed) && rotation == old(rotation)
      ensures cfg.kind == Accelerating ==>
                currentSpeed == AccelerateSpeed(old(currentSpeed), cfg.accelerationRate, dt) &&
                velocity == Along(Normalized(old(velocity)), currentSpeed) && rotation == old(rotation)
      ensures cfg.kind == Tracking ==>
                velocity == Along(up, cfg.speed) && rotation == old(rotation) &&
                angularVelocity == (if hasPlayer then -crossZ * cfg.turnSpeed else old(angularVelocity))
      ensures cfg.kind == Uncontrolled ==>
                velocity == Along(up, cfg.speed) && rotation == old(rotation) + noise &&
                Between(rotation - old(rotation), -cfg.chaosStrength * 5.0, cfg.chaosStrength * 5.0)
      ensures cfg.kind != Accelerating ==> currentSpeed == old(currentSpeed)
      ensures cfg.kind != Tracking ==> angularVelocity == old(angularVelocity)
    {
      timeAlive := timeAlive + dt;
      match cfg.kind {
        case Linear =>
        case Accelerating =>
          currentSpeed := currentSpeed + cfg.accelerationRate * dt;
          velocity := Along(Normalized(velocity), currentSpeed);
        case Tracking =>
          if hasPlayer {
            angularVelocity := -crossZ * cfg.turnSpeed;
            velocity := Along(up, cfg.speed);
          } else {
            velocity := Along(up, cfg.speed);
          }
        case Uncontrolled =>
          rotation := rotation + noise;
          velocity := Along(up, cfg.speed);
      }
    }

    /**
      `HandleHit`: apply the hit table; `targetHealth` is the Health on the
      hit object, if any.
     */
    method HandleHit(isProjectile: bool, isPlayer: bool, targetHealth: Health?)
      modifies this`destroyed, targetHealth
      ensures var r := ResolveHit(HitObject(isProjectile, targetHealth != null, isPlayer));
        && destroyed == (old(destroyed) || r.destroySelf)
        && (r.damageTarget ==>
              targetHealth.currentHealth == AfterDamage(old(targetHealth.currentHealth), targetHealth.maxHealth, cfg.damage) &&
              targetHealth.events == old(targetHealth.events) + DamageEvents(old(targetHealth.currentHealth), targetHealth.maxHealth, cfg.damage) &&
              targetHealth.deathListeners == old(targetHealth.deathListeners))
        && (!r.damageTarget && targetHealth != null ==> unchanged(targetHealth))
    {
      if isProjectile {
        return;
      }
      if targetHealth != null {
        if isPlayer {
          targetHealth.TakeDamage(cfg.damage);
          destroyed := true;
        }
      } else {
        destroyed := true;
      }
    }
  }
}

/**
  The enemy agent (Scripts/Enemy.cs): a movement policy over the distance to
  the player, a cooldown-and-range gated attack, shotgun volleys, a private
  unclamped health counter and contact damage.

  The engine supplies, per frame, the distance to the player, the normalised
  direction to the player and the aim angle (`Atan2` in degrees minus 90);
  this model takes them as parameters.
 */
module EnemyAgent {
  import opened Geometry
  import opened HealthProtocol

  datatype AttackStyle = StaysDistant | StaysClose | Kamikaze

  datatype AttackType = Melee | Projectile

  /** The movement `Move` chooses: `dirToPlayer`, `-dirToPlayer` or zero. */
  datatype Heading = Toward | Away | Hold

  /**
    When the next attack may happen. `1f / attackRate` with `attackRate == 0`
    is +Infinity in C#, so that enemy never attacks again: `NeverAgain`.
   */
  datatype AttackClock = ReadyAt(time: real) | NeverAgain

  /** One `Instantiate` of the projectile prefab: its z rotation and the direction handed to `Initialize`. */
  datatype ProjectileSpawn = ProjectileSpawn(rotation: real, direction: Vec2)

  /** The serialized settings of one enemy prefab that the logic reads. */
  datatype EnemyConfig = EnemyConfig(
    maxHealth: real,
    moveSpeed: real,
    facePlayer: bool,
    attackStyle: AttackStyle,
    attackType: AttackType,
    damage: real,
    attackRate: real,
    closeRange: real,
    distantRange: real,
    hasProjectilePrefab: bool,
    shotgunFire: bool,
    shotgunPelletCount: int)

  const MeleeReach: real := 1.5
  const ProjectileReach: real := 15.0
  const MaxSpread: real := 30.0

  /**
    The movement policy. Kamikaze always closes in; StaysClose and
    StaysDistant close in beyond their range, back off inside an inner
    bound, and hold still in the dead zone between.
   */
  function DesiredHeading(style: AttackStyle, dist: real, closeRange: real, distantRange: real): (h: Heading)
    ensures style == Kamikaze ==> h == Toward
    ensures style == StaysClose ==> (h == Toward <==> dist > closeRange)
    ensures style == StaysClose && 0.0 <= closeRange ==>
              (h == Away <==> dist < closeRange * 0.5) &&
              (h == Hold <==> closeRange * 0.5 <= dist <= closeRange)
    ensures style == StaysDistant ==>
              (h == Toward <==> dist > distantRange) &&
              (h == Away <==> dist < distantRange - 1.0) &&
              (h == Hold <==> distantRange - 1.0 <= dist <= distantRange)
  {
    match style
    case Kamikaze => Toward
    case StaysClose =>
      if dist > closeRange then Toward
      else if dist < closeRange * 0.5 then Away
      else Hold
    case StaysDistant =>
      if dist > distantRange then Toward
      else if dist < distantRange - 1.0 then Away
      else Hold
  }

  /** The target velocity `Move` hands to the smoothing step: the heading times `moveSpeed`. */
  function DesiredVelocity(h: Heading, dirToPlayer: Vec2, moveSpeed: real): Vec2 {
    match h
    case Toward => Scale(dirToPlayer, moveSpeed)
    case Away => Scale(Neg(dirToPlayer), moveSpeed)
    case Hold => Zero
  }

  /**
    For a unit direction to the player, the target velocity has speed
    `moveSpeed` unless holding, and its component along that direction is
    `+moveSpeed` toward the player, `-moveSpeed` away from it and 0 when
    holding.
   */
  lemma DesiredVelocityAlongPlayer(h: Heading, dirToPlayer: Vec2, moveSpeed: real)
    requires IsUnit(dirToPlayer)
    ensures SqLength(DesiredVelocity(h, dirToPlayer, moveSpeed)) ==
            (if h == Hold then 0.0 else moveSpeed * moveSpeed)
    ensures Dot(DesiredVelocity(h, dirToPlayer, moveSpeed), dirToPlayer) ==
            (match h case Toward => moveSpeed case Away => -moveSpeed case Hold => 0.0)
  {
    match h
    case Toward =>
      ScaledUnitLength(dirToPlayer, moveSpeed);
      ScaledUnitAlong(dirToPlayer, moveSpeed);
    case Away =>
      assert Scale(Neg(dirToPlayer), moveSpeed) == Scale(dirToPlayer, -moveSpeed);
      ScaledUnitLength(dirToPlayer, -moveSpeed);
      ScaledUnitAlong(dirToPlayer, -moveSpeed);
    case Hold =>
  }

  function Reach(t: AttackType): real {
    if t == Melee then MeleeReach else ProjectileReach
  }

  predicate Ready(clock: AttackClock, now: real) {
    clock.ReadyAt? && now >= clock.time
  }

  /** The gate of `AttemptAttack`: cooldown elapsed and player within reach. */
  predicate AttackFires(t: AttackType, now: real, clock: AttackClock, dist: real) {
    Ready(clock, now) && dist <= Reach(t)
  }

  /** `nextAttackTime = Time.time + 1f / attackRate` after an attack at `now`. */
  function CooldownAfterAttack(now: real, attackRate: real): (c: AttackClock)
    ensures attackRate == 0.0 <==> c == NeverAgain
    ensures attackRate == 0.0 ==> forall later :: !Ready(c, later)
    ensures attackRate > 0.0 ==> c.ReadyAt? && c.time > now
    ensures attackRate > 0.0 ==> forall later :: Ready(c, later) ==> later - now >= 1.0 / attackRate
  {
    if attackRate == 0.0 then NeverAgain else ReadyAt(now + 1.0 / attackRate)
  }

  /** The random spread draws of one volley: enough of them, each from `Random.Range(-30f, 30f)`. */
  predicate SpreadDraws(spreads: seq<real>, pelletCount: int) {
    pelletCount <= |spreads| &&
    forall i :: 0 <= i < |spreads| ==> -MaxSpread <= spreads[i] <= MaxSpread
  }

  /**
    The shotgun loop: `count` pellets, the i-th rotated by the i-th spread
    draw, so every pellet lies within 30 degrees of the direct aim.
   */
  function Volley(baseAngle: real, dir: Vec2, count: nat, spreads: seq<real>): (v: seq<ProjectileSpawn>)
    requires SpreadDraws(spreads, count)
    ensures |v| == count
    ensures forall i :: 0 <= i < count ==>
              v[i].direction == dir && v[i].rotation - baseAngle == spreads[i] &&
              baseAngle - MaxSpread <= v[i].rotation <= baseAngle + MaxSpread
    decreases count
  {
    if count == 0 then []
    else Volley(baseAngle, dir, count - 1, spreads) + [ProjectileSpawn(baseAngle + spreads[count - 1], dir)]
  }

  function PelletCount(shotgunPelletCount: int): nat {
    if shotgunPelletCount < 0 then 0 else shotgunPelletCount
  }

  /**
    The projectiles one ranged attack instantiates: none without a prefab,
    one on the direct aim in single fire, `shotgunPelletCount` (none when
    negative) within 30 degrees of the aim in shotgun fire.
   */
  function Shots(cfg: EnemyConfig, baseAngle: real, dir: Vec2, spreads: seq<real>): (s: seq<ProjectileSpawn>)
    requires SpreadDraws(spreads, cfg.shotgunPelletCount)
    ensures !cfg.hasProjectilePrefab ==> s == []
    ensures cfg.hasProjectilePrefab && !cfg.shotgunFire ==> s == [ProjectileSpawn(baseAngle, dir)]
    ensures cfg.hasProjectilePrefab && cfg.shotgunFire ==>
              |s| == (if cfg.shotgunPelletCount < 0 then 0 else cfg.shotgunPelletCount)
    ensures forall i :: 0 <= i < |s| ==>
              s[i].direction == dir && baseAngle - MaxSpread <= s[i].rotation <= baseAngle + MaxSpread
  {
    if !cfg.hasProjectilePrefab then []
    else if cfg.shotgunFire then Volley(baseAngle, dir, PelletCount(cfg.shotgunPelletCount), spreads)
    else [ProjectileSpawn(baseAngle, dir)]
  }

  /** Whether a contact event with `OnCollisionEnter2D` deals damage. */
  predicate ContactDamages(cfg: EnemyConfig, otherIsPlayer: bool) {
    (cfg.attackType == Melee || cfg.attackStyle == Kamikaze) && otherIsPlayer
  }

  /** One `Update` tick: its `Time.time` and the distance to the player read in it. */
  datatype Tick = Tick(time: real, dist: real)

  /** The attacks fired over successive `Update` ticks. */
  function FiredCount(t: AttackType, rate: real, clock: AttackClock, ticks: seq<Tick>): nat
    decreases |ticks|
  {
    if ticks == [] then 0
    else if AttackFires(t, ticks[0].time, clock, ticks[0].dist) then
      1 + FiredCount(t, rate, CooldownAfterAttack(ticks[0].time, rate), ticks[1..])
    else FiredCount(t, rate, clock, ticks[1..])
  }

  lemma {:induction false} NothingFiresBefore(t: AttackType, rate: real, ready: real, ticks: seq<Tick>)
    requires forall i :: 0 <= i < |ticks| ==> ticks[i].time < ready
    ensures FiredCount(t, rate, ReadyAt(ready), ticks) == 0
    decreases |ticks|
  {
    if ticks != [] {
      NothingFiresBefore(t, rate, ready, ticks[1..]);
    }
  }

  /**
    The cooldown gate: however many ticks fall inside one window of length
    `1/attackRate`, and wherever the player is at each of them, at most one
    attack fires in it.
   */
  lemma {:induction false} AtMostOneAttackPerCooldown(t: AttackType, rate: real, clock: AttackClock, ticks: seq<Tick>, start: real)
    requires 0.0 < rate
    requires forall i :: 0 <= i < |ticks| ==> start <= ticks[i].time < start + 1.0 / rate
    ensures FiredCount(t, rate, clock, ticks) <= 1
    decreases |ticks|
  {
    if ticks != [] {
      if AttackFires(t, ticks[0].time, clock, ticks[0].dist) {
        NothingFiresBefore(t, rate, ticks[0].time + 1.0 / rate, ticks[1..]);
      } else {
        AtMostOneAttackPerCooldown(t, rate, clock, ticks[1..], start);
      }
    }
  }

  /** The private counter after a run of `TakeDamage` calls: no clamp at either end. */
  function CounterAfter(health: real, amounts: seq<real>): real
    decreases |amounts|
  {
    if amounts == [] then health else CounterAfter(health - amounts[0], amounts[1..])
  }

  function Sum(amounts: seq<real>): real
    decreases |amounts|
  {
    if amounts == [] then 0.0 else amounts[0] + Sum(amounts[1..])
  }

  /** Unlike the shared Health component, the enemy's counter is plain subtraction. */
  lemma {:induction false} CounterIsUnclamped(health: real, amounts: seq<real>)
    ensures CounterAfter(health, amounts) == health - Sum(amounts)
    decreases |amounts|
  {
    if amounts != [] {
      CounterIsUnclamped(health - amounts[0], amounts[1..]);
    }
  }

  class Enemy {
    const cfg: EnemyConfig
    var currentHealth: real
    var nextAttack: AttackClock
    /** Whether `player` was found (`FindFirstObjectByType<PlayerController>`). */
    var hasPlayer: bool
    /** The Health component on the player, when it has one. */
    var playerHealth: Health?
    /** The target velocity last handed to the smoothing step. */
    var moveTarget: Vec2
    var rotation: real
    /** Every projectile this enemy has instantiated, in order. */
    var shots: seq<ProjectileSpawn>
    /** Whether `Destroy(gameObject)` has been requested. */
    var destroyed: bool

    /**
      `Awake`: full counter, attack ready at time 0, player looked up once;
      the body keeps the rotation it was spawned with.
     */
    constructor (cfg: EnemyConfig, playerFound: bool, playerHealth: Health?, rotation: real)
      ensures this.cfg == cfg && currentHealth == cfg.maxHealth
      ensures nextAttack == ReadyAt(0.0)
      ensures hasPlayer == playerFound && this.playerHealth == playerHealth
      ensures moveTarget == Zero && this.rotation == rotation && shots == [] && !destroyed
    {
      this.cfg := cfg;
      currentHealth := cfg.maxHealth;
      nextAttack := ReadyAt(0.0);
      hasPlayer := playerFound;
      this.playerHealth := playerHealth;
      moveTarget := Zero;
      this.rotation := rotation;
      shots := [];
      destroyed := false;
    }

    /** One frame: nothing at all without a player, otherwise move then try to attack. */
    method Update(now: real, dist: real, dirToPlayer: Vec2, aimAngle: real, spreads: seq<real>)
      requires SpreadDraws(spreads, cfg.shotgunPelletCount)
      modifies this`moveTarget, this`rotation, this`nextAttack, this`shots, playerHealth
      ensures !hasPlayer ==> unchanged(this) && (playerHealth != null ==> unchanged(playerHealth))
      ensures hasPlayer ==> moveTarget == DesiredVelocity(
                DesiredHeading(cfg.attackStyle, dist, cfg.closeRange, cfg.distantRange), dirToPlayer, cfg.moveSpeed)
      ensures hasPlayer ==> rotation == if cfg.facePlayer then aimAngle else old(rotation)
      ensures hasPlayer ==> var fires := AttackFires(cfg.attackType, now, old(nextAttack), dist);
        && nextAttack == (if fires then CooldownAfterAttack(now, cfg.attackRate) else old(nextAttack))
        && shots == old(shots) + (if fires && cfg.attackType == Projectile then Shots(cfg, aimAngle, dirToPlayer, spreads) else [])
        && (playerHealth != null && fires && cfg.attackType == Melee ==>
              playerHealth.currentHealth == AfterDamage(old(playerHealth.currentHealth), playerHealth.maxHealth, cfg.damage) &&
              playerHealth.events == old(playerHealth.events) + DamageEvents(old(playerHealth.currentHealth), playerHealth.maxHealth, cfg.damage) &&
              playerHealth.deathListeners == old(playerHealth.deathListeners))
        && (playerHealth != null && !(fires && cfg.attackType == Melee) ==> unchanged(playerHealth))
    {
      if !hasPlayer {
        return;
      }
      Move(dist, dirToPlayer, aimAngle);
      AttemptAttack(now, dist, dirToPlayer, aimAngle, spreads);
    }

    method Move(dist: real, dirToPlayer: Vec2, aimAngle: real)
      modifies this`moveTarget, this`rotation
      ensures moveTarget == DesiredVelocity(
                DesiredHeading(cfg.attackStyle, dist, cfg.closeRange, cfg.distantRange), dirToPlayer, cfg.moveSpeed)
      ensures rotation == if cfg.facePlayer then aimAngle else old(rotation)
    {
      var heading := DesiredHeading(cfg.attackStyle, dist, cfg.closeRange, cfg.distantRange);
      moveTarget := DesiredVelocity(heading, dirToPlayer, cfg.moveSpeed);
      if cfg.facePlayer {
        rotation := aimAngle;
      }
    }

    method AttemptAttack(now: real, dist: real, dirToPlayer: Vec2, aimAngle: real, spreads: seq<real>)
      requires SpreadDraws(spreads, cfg.shotgunPelletCount)
      modifies this`nextAttack, this`shots, playerHealth
      ensures var fires := AttackFires(cfg.attackType, now, old(nextAttack), dist);
        && nextAttack == (if fires then CooldownAfterAttack(now, cfg.attackRate) else old(nextAttack))
        && shots == old(shots) + (if fires && cfg.attackType == Projectile then Shots(cfg, aimAngle, dirToPlayer, spreads) else [])
        && (playerHealth != null && fires && cfg.attackType == Melee ==>
              playerHealth.currentHealth == AfterDamage(old(playerHealth.currentHealth), playerHealth.maxHealth, cfg.damage) &&
              playerHealth.events == old(playerHealth.events) + DamageEvents(old(playerHealth.currentHealth), playerHealth.maxHealth, cfg.damage) &&
              playerHealth.deathListeners == old(playerHealth.deathListeners))
        && (playerHealth != null && !(fires && cfg.attackType == Melee) ==> unchanged(playerHealth))
    {
      if Ready(nextAttack, now) {
        var canAttack := false;
        if cfg.attackType == Melee {
          if dist <= MeleeReach { canAttack := true; }
        } else {
          if dist <= ProjectileReach { canAttack := true; }
        }
        if canAttack {
          PerformAttack(dirToPlayer, aimAngle, spreads);
          nextAttack := CooldownAfterAttack(now, cfg.attackRate);
        }
      }
    }

    method PerformAttack(dirToPlayer: Vec2, aimAngle: real, spreads: seq<real>)
      requires SpreadDraws(spreads, cfg.shotgunPelletCount)
      modifies this`shots, playerHealth
      ensures cfg.attackType == Melee ==> shots == old(shots)
      ensures cfg.attackType == Melee && playerHealth != null ==>
                playerHealth.currentHealth == AfterDamage(old(playerHealth.currentHealth), playerHealth.maxHealth, cfg.damage) &&
                playerHealth.events == old(playerHealth.events) + DamageEvents(old(playerHealth.currentHealth), playerHealth.maxHealth, cfg.damage) &&
                playerHealth.deathListeners == old(playerHealth.deathListeners)
      ensures cfg.attackType == Projectile ==> shots == old(shots) + Shots(cfg, aimAngle, dirToPlayer, spreads)
      ensures cfg.attackType == Projectile && playerHealth != null ==> unchanged(playerHealth)
    {
      if cfg.attackType == Melee {
        if playerHealth != null {
          playerHealth.TakeDamage(cfg.damage);
        }
      } else {
        if !cfg.hasProjectilePrefab {
          return;
        }
        if cfg.shotgunFire {
          var i := 0;
          while i < cfg.shotgunPelletCount
            invariant 0 <= i <= PelletCount(cfg.shotgunPelletCount)
            invariant shots == old(shots) + Volley(aimAngle, dirToPlayer, i, spreads)
            invariant playerHealth != null ==> unchanged(playerHealth)
          {
            SpawnProjectile(dirToPlayer, aimAngle, true, spreads[i]);
            i := i + 1;
          }
        } else {
          SpawnProjectile(dirToPlayer, aimAngle, false, 0.0);
        }
      }
    }

    /** Instantiate one projectile aimed at the player, turned by `spread` when `randomSpread`. */
    method SpawnProjectile(dirToPlayer: Vec2, baseAngle: real, randomSpread: bool, spread: real)
      modifies this`shots
      ensures shots == old(shots) + [ProjectileSpawn(if randomSpread then baseAngle + spread else baseAngle, dirToPlayer)]
    {
      var rotation := baseAngle;
      if randomSpread {
        rotation := baseAngle + spread;
      }
      shots := shots + [ProjectileSpawn(rotation, dirToPlayer)];
    }

    /** Plain subtraction; destruction is requested whenever the result is not positive. */
    method TakeDamage(amount: real)
      modifies this`currentHealth, this`destroyed
      ensures currentHealth == old(currentHealth) - amount
      ensures destroyed == (old(destroyed) || currentHealth <= 0.0)
    {
      currentHealth := currentHealth - amount;
      if currentHealth <= 0.0 {
        destroyed := true;
      }
    }

    /**
      Contact damage: Melee or Kamikaze enemies hit the player's Health once
      per contact event, with no cooldown; the attack clock is not read.
     */
    method OnCollisionEnter2D(otherIsPlayer: bool, otherHealth: Health?)
      modifies otherHealth
      ensures ContactDamages(cfg, otherIsPlayer) && otherHealth != null ==>
                otherHealth.currentHealth == AfterDamage(old(otherHealth.currentHealth), otherHealth.maxHealth, cfg.damage) &&
                otherHealth.events == old(otherHealth.events) + DamageEvents(old(otherHealth.currentHealth), otherHealth.maxHealth, cfg.damage) &&
                otherHealth.deathListeners == old(otherHealth.deathListeners)
      ensures !ContactDamages(cfg, otherIsPlayer) && otherHealth != null ==> unchanged(otherHealth)
    {
      if cfg.attackType == Melee || cfg.attackStyle == Kamikaze {
        if otherIsPlayer {
          if otherHealth != null {
            otherHealth.TakeDamage(cfg.damage);
          }
        }
      }
    }
  }
}

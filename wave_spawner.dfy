/**
  The wave spawner (CHARACTER/Scripts/WaveSpawner.cs): a timer gate, guard
  clauses on the configured enemy list, and a bounded search for an
  off-screen, unobstructed spawn point around the player.

  The random stream, the camera's world-to-viewport projection and the
  overlap probe (`Physics2D.OverlapCircle` with radius 0.5) are parameters.
 */
module WaveSpawning {
  import opened Geometry

  datatype Option<T> = None | Some(value: T)

  /** One configured entry: whether its prefab is assigned, and its (unused) weight. */
  datatype EnemySpawnConfig = EnemySpawnConfig(hasPrefab: bool, spawnWeight: real)

  /** The random draws of one placement attempt: `insideUnitCircle.normalized` and `Random.Range(min, max)`. */
  datatype PlacementDraw = PlacementDraw(direction: Vec2, distance: real)

  /** One `Instantiate` of an enemy prefab: which entry, and where. */
  datatype SpawnedEnemy = SpawnedEnemy(entry: nat, position: Vec2)

  const MaxPlacementAttempts: nat := 30

  function Candidate(playerPos: Vec2, d: PlacementDraw): Vec2 {
    Add(playerPos, Scale(d.direction, d.distance))
  }

  /** Strictly inside the unit viewport square. */
  predicate OnScreen(viewport: Vec2) {
    0.0 < viewport.x < 1.0 && 0.0 < viewport.y < 1.0
  }

  predicate Acceptable(pos: Vec2, viewportOf: Vec2 -> Vec2, overlaps: Vec2 -> bool) {
    !OnScreen(viewportOf(pos)) && !overlaps(pos)
  }

  /** The index of the first acceptable attempt, or `|draws|` when none is. */
  function FirstAcceptable(playerPos: Vec2, draws: seq<PlacementDraw>, viewportOf: Vec2 -> Vec2, overlaps: Vec2 -> bool): (k: nat)
    ensures k <= |draws|
    ensures forall j :: 0 <= j < k ==> !Acceptable(Candidate(playerPos, draws[j]), viewportOf, overlaps)
    ensures k < |draws| ==> Acceptable(Candidate(playerPos, draws[k]), viewportOf, overlaps)
    decreases |draws|
  {
    if draws == [] then 0
    else if Acceptable(Candidate(playerPos, draws[0]), viewportOf, overlaps) then 0
    else 1 + FirstAcceptable(playerPos, draws[1..], viewportOf, overlaps)
  }

  /**
    What `GetValidSpawnPosition` returns: the first acceptable candidate among
    the first 30 attempts, or the zero vector when all 30 are rejected.
   */
  function Placement(playerPos: Vec2, draws: seq<PlacementDraw>, viewportOf: Vec2 -> Vec2, overlaps: Vec2 -> bool): (pos: Vec2)
    requires |draws| >= MaxPlacementAttempts
    ensures pos != Zero ==> Acceptable(pos, viewportOf, overlaps)
  {
    var k := FirstAcceptable(playerPos, draws[..MaxPlacementAttempts], viewportOf, overlaps);
    if k < MaxPlacementAttempts then Candidate(playerPos, draws[k]) else Zero
  }

  /** A candidate drawn with a unit direction lies on the ring between the two radii. */
  lemma CandidateInRing(playerPos: Vec2, d: PlacementDraw, radiusMin: real, radiusMax: real)
    requires IsUnit(d.direction) && 0.0 <= radiusMin <= d.distance <= radiusMax
    ensures radiusMin * radiusMin <= SqLength(Sub(Candidate(playerPos, d), playerPos)) <= radiusMax * radiusMax
  {
    assert Sub(Candidate(playerPos, d), playerPos) == Scale(d.direction, d.distance);
    ScaledUnitLength(d.direction, d.distance);
    assert radiusMin * radiusMin <= d.distance * radiusMin <= d.distance * d.distance;
    assert d.distance * d.distance <= d.distance * radiusMax <= radiusMax * radiusMax;
  }

  /** Draws as the engine makes them: unit directions, distances from `Random.Range(min, max)`. */
  predicate WellFormedDraws(draws: seq<PlacementDraw>, radiusMin: real, radiusMax: real) {
    forall i :: 0 <= i < |draws| ==>
      IsUnit(draws[i].direction) && radiusMin <= draws[i].distance <= radiusMax
  }

  /**
    A non-sentinel placement is off-screen, unobstructed, and at a distance
    between `spawnRadiusMin` and `spawnRadiusMax` from the player.
   */
  lemma PlacementIsValid(playerPos: Vec2, draws: seq<PlacementDraw>, viewportOf: Vec2 -> Vec2, overlaps: Vec2 -> bool,
                         radiusMin: real, radiusMax: real)
    requires |draws| >= MaxPlacementAttempts && 0.0 <= radiusMin
    requires WellFormedDraws(draws, radiusMin, radiusMax)
    requires Placement(playerPos, draws, viewportOf, overlaps) != Zero
    ensures var pos := Placement(playerPos, draws, viewportOf, overlaps);
      && !OnScreen(viewportOf(pos)) && !overlaps(pos)
      && radiusMin * radiusMin <= SqLength(Sub(pos, playerPos)) <= radiusMax * radiusMax
  {
    var k := FirstAcceptable(playerPos, draws[..MaxPlacementAttempts], viewportOf, overlaps);
    assert k < MaxPlacementAttempts;
    CandidateInRing(playerPos, draws[k], radiusMin, radiusMax);
  }

  /** Only the first 30 draws are ever consulted. */
  lemma {:induction false} PlacementUsesThirtyDraws(playerPos: Vec2, draws: seq<PlacementDraw>, more: seq<PlacementDraw>,
                                                    viewportOf: Vec2 -> Vec2, overlaps: Vec2 -> bool)
    requires |draws| >= MaxPlacementAttempts
    ensures Placement(playerPos, draws + more, viewportOf, overlaps) == Placement(playerPos, draws, viewportOf, overlaps)
  {
    assert (draws + more)[..MaxPlacementAttempts] == draws[..MaxPlacementAttempts];
    var k := FirstAcceptable(playerPos, draws[..MaxPlacementAttempts], viewportOf, overlaps);
    if k < MaxPlacementAttempts {
      assert (draws + more)[k] == draws[k];
    }
  }

  /** Whether the configured list yields an entry to spawn: assigned, non-empty, and the picked prefab set. */
  predicate HasEntries(enemies: Option<seq<EnemySpawnConfig>>) {
    enemies.Some? && |enemies.value| > 0
  }

  /** `Random.Range(0, enemies.Count)` when there are entries. */
  predicate ValidPick(enemies: Option<seq<EnemySpawnConfig>>, pick: int) {
    HasEntries(enemies) ==> 0 <= pick < |enemies.value|
  }

  /**
    The enemies one `SpawnEnemy` call instantiates: none for a missing or
    empty list, none for a picked entry without prefab, none when placement
    returned the zero sentinel, otherwise the picked entry at the placement.
    The entry's `spawnWeight` plays no part.
   */
  function SpawnResult(enemies: Option<seq<EnemySpawnConfig>>, pick: int, placement: Vec2): (r: seq<SpawnedEnemy>)
    requires ValidPick(enemies, pick)
    ensures |r| <= 1
    ensures r != [] <==> HasEntries(enemies) && enemies.value[pick].hasPrefab && placement != Zero
    ensures r != [] ==> r[0] == SpawnedEnemy(pick, placement)
  {
    if enemies.None? || |enemies.value| == 0 then []
    else if !enemies.value[pick].hasPrefab then []
    else if placement != Zero then [SpawnedEnemy(pick, placement)]
    else []
  }

  /** Two lists that differ only in their weights spawn alike. */
  lemma {:induction false} WeightsIgnored(a: seq<EnemySpawnConfig>, b: seq<EnemySpawnConfig>, pick: int, placement: Vec2)
    requires |a| == |b| && 0 <= pick < |a|
    requires forall i :: 0 <= i < |a| ==> a[i].hasPrefab == b[i].hasPrefab
    ensures SpawnResult(Some(a), pick, placement) == SpawnResult(Some(b), pick, placement)
  {
    assert a[pick].hasPrefab == b[pick].hasPrefab;
  }

  class WaveSpawner {
    const enemies: Option<seq<EnemySpawnConfig>>
    const timeBetweenSpawns: real
    const spawnRadiusMin: real
    const spawnRadiusMax: real
    var nextSpawnTime: real
    /** Whether `player` is set. */
    var hasPlayer: bool
    /** Every enemy instantiated so far, in order. */
    var spawned: seq<SpawnedEnemy>

    /** `Awake`: the timer is due at time 0; the player is looked up once. */
    constructor (enemies: Option<seq<EnemySpawnConfig>>, timeBetweenSpawns: real,
                 spawnRadiusMin: real, spawnRadiusMax: real, playerFound: bool)
      ensures this.enemies == enemies && this.timeBetweenSpawns == timeBetweenSpawns
      ensures this.spawnRadiusMin == spawnRadiusMin && this.spawnRadiusMax == spawnRadiusMax
      ensures nextSpawnTime == 0.0 && hasPlayer == playerFound && spawned == []
    {
      this.enemies := enemies;
      this.timeBetweenSpawns := timeBetweenSpawns;
      this.spawnRadiusMin := spawnRadiusMin;
      this.spawnRadiusMax := spawnRadiusMax;
      nextSpawnTime := 0.0;
      hasPlayer := playerFound;
      spawned := [];
    }

    /**
      One frame. When due and a player is set, try to spawn and re-arm the
      timer -- also when the attempt spawned nothing.
     */
    method Update(now: real, playerPos: Vec2, pick: int, draws: seq<PlacementDraw>,
                  viewportOf: Vec2 -> Vec2, overlaps: Vec2 -> bool)
      requires ValidPick(enemies, pick) && |draws| >= MaxPlacementAttempts
      modifies this`nextSpawnTime, this`spawned
      ensures now >= old(nextSpawnTime) && hasPlayer ==>
                nextSpawnTime == now + timeBetweenSpawns &&
                spawned == old(spawned) + SpawnResult(enemies, pick, Placement(playerPos, draws, viewportOf, overlaps))
      ensures !(now >= old(nextSpawnTime) && hasPlayer) ==>
                nextSpawnTime == old(nextSpawnTime) && spawned == old(spawned)
    {
      if now >= nextSpawnTime && hasPlayer {
        SpawnEnemy(playerPos, pick, draws, viewportOf, overlaps);
        nextSpawnTime := now + timeBetweenSpawns;
      }
    }

    method SpawnEnemy(playerPos: Vec2, pick: int, draws: seq<PlacementDraw>,
                      viewportOf: Vec2 -> Vec2, overlaps: Vec2 -> bool)
      requires ValidPick(enemies, pick) && |draws| >= MaxPlacementAttempts
      modifies this`spawned
      ensures spawned == old(spawned) + SpawnResult(enemies, pick, Placement(playerPos, draws, viewportOf, overlaps))
    {
      if enemies.None? || |enemies.value| == 0 {
        return;
      }
      var config := enemies.value[pick];
      if !config.hasPrefab {
        return;
      }
      var spawnPos := GetValidSpawnPosition(playerPos, draws, viewportOf, overlaps);
      if spawnPos != Zero {
        spawned := spawned + [SpawnedEnemy(pick, spawnPos)];
      }
    }

    /**
      Up to 30 attempts, each rejected when it projects strictly inside the
      viewport or when the overlap probe hits; the zero vector on failure.
     */
    method GetValidSpawnPosition(playerPos: Vec2, draws: seq<PlacementDraw>,
                                 viewportOf: Vec2 -> Vec2, overlaps: Vec2 -> bool) returns (pos: Vec2)
      requires |draws| >= MaxPlacementAttempts
      ensures pos == Placement(playerPos, draws, viewportOf, overlaps)
      ensures pos != Zero ==> !OnScreen(viewportOf(pos)) && !overlaps(pos)
    {
      ghost var attempts := draws[..MaxPlacementAttempts];
      for i := 0 to MaxPlacementAttempts
        invariant forall j :: 0 <= j < i ==> !Acceptable(Candidate(playerPos, attempts[j]), viewportOf, overlaps)
      {
        var tentativePos := Add(playerPos, Scale(draws[i].direction, draws[i].distance));
        var viewportPos := viewportOf(tentativePos);
        var onScreen := viewportPos.x > 0.0 && viewportPos.x < 1.0 && viewportPos.y > 0.0 && viewportPos.y < 1.0;
        if !onScreen {
          if !overlaps(tentativePos) {
            assert attempts[i] == draws[i];
            return tentativePos;
          }
        }
      }
      return Zero;
    }

    /** Set the player and push the next spawn one interval into the future. */
    method SetPlayer(now: real)
      modifies this`hasPlayer, this`nextSpawnTime
      ensures hasPlayer && nextSpawnTime == now + timeBetweenSpawns
    {
      hasPlayer := true;
      nextSpawnTime := now + timeBetweenSpawns;
    }
  }
}

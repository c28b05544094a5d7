/** The game scene: it owns the walls, the tile-damage map, the crawler's
    life bar, the worker, the enemy, cannon and ammo groups, and runs the
    per-frame rules of `update` and the collision handlers. The engine's own
    work (moving bodies, detecting contacts, updating group children) is
    outside the scene; what it hands in becomes parameters. */
module GameScene {
  import opened Common
  import opened TileKeys
  import opened TileDamage
  import opened GameRules
  import opened Lifebars
  import opened Enemies
  import opened Cannons
  import opened Players

  /** Seconds between two waves of enemies, and before the first one. */
  const EnemySpawnRate: real := 10.0
  const InitialEnemyCooldown: real := 1.0
  /** Life the crawler loses for each destroyed wall tile. */
  const TilePenalty: real := 10.0
  /** Width of the band right of a spawn point where an enemy appears. */
  const SpawnSpread: real := 100.0

  /** The other party of an enemy's wall contact: a wall tile or anything else. */
  datatype Contact = WallTile(tile: Tile) | OtherObject

  /** An object in the worker's contact with the ground layer. */
  datatype Collider = PlayerSprite | GroundTile(tile: Tile)

  /** What an enemy hands in to the scene this frame: its grabbed tile, if
      it is still alive (a destroyed enemy has left the group). */
  function Report(e: Enemy): Option<Tile>
    reads e
  {
    if e.active then e.grabbedTile else None
  }

  /** The reports of a group, in group order. */
  function Reports(es: seq<Enemy>): seq<Option<Tile>>
    reads set e | e in es
  {
    seq(|es|, i requires 0 <= i < |es| reads set e | e in es => Report(es[i]))
  }

  /** Where a spawned enemy appears: `point.x + roll * 100` for a roll of
      `Math.random()`, so always in the 100 px right of the spawn point. */
  function SpawnX(point: MapObject, roll: real): (x: real)
    requires 0.0 <= roll < 1.0
    ensures point.x <= x < point.x + SpawnSpread
  {
    point.x + roll * SpawnSpread
  }

  /** One roll in [0, 1) per spawn point of the map. */
  predicate SpawnRolls(objects: seq<MapObject>, rolls: seq<real>) {
    |rolls| == |Named(objects, "spawnpoint")|
    && forall i :: 0 <= i < |rolls| ==> 0.0 <= rolls[i] < 1.0
  }

  /** `e` is an enemy just constructed for spawn point `point` with roll `roll`. */
  ghost predicate NewEnemyAt(e: Enemy, point: MapObject, roll: real)
    requires 0.0 <= roll < 1.0
    reads e
  {
    e.x == SpawnX(point, roll) && e.y == point.y
    && e.PhaseOf() == Phase(Falling, InitialAttackCooldown) && e.hitPoints == InitialHitPoints
    && e.active && e.grabbedTile == None && !e.partying
  }

  /** `wave` is one freshly constructed enemy per spawn point, in map order. */
  ghost predicate IsWave(wave: seq<Enemy>, points: seq<MapObject>, rolls: seq<real>)
    reads set e | e in wave
  {
    |wave| == |points| == |rolls|
    && forall j :: 0 <= j < |wave| ==> 0.0 <= rolls[j] < 1.0 && NewEnemyAt(wave[j], points[j], rolls[j])
  }

  /** The spawn loop of `update`: a new enemy for each spawn point. */
  method SpawnWave(points: seq<MapObject>, rolls: seq<real>) returns (wave: seq<Enemy>)
    requires |rolls| == |points| && forall i :: 0 <= i < |rolls| ==> 0.0 <= rolls[i] < 1.0
    ensures IsWave(wave, points, rolls) && Distinct(wave)
    ensures forall e :: e in wave ==> fresh(e)
  {
    wave := [];
    for j := 0 to |points|
      invariant |wave| == j && Distinct(wave)
      invariant forall e :: e in wave ==> fresh(e)
      invariant forall k :: 0 <= k < j ==> NewEnemyAt(wave[k], points[k], rolls[k])
    {
      var enemy := new Enemy(SpawnX(points[j], rolls[j]), points[j].y);
      wave := wave + [enemy];
    }
  }

  /** `initialCameraFocus`: the floored position of the "camerafocus"
      marker, or (0, 0) when the map has none. */
  function CameraFocus(objects: seq<MapObject>): (focus: (int, int))
    ensures FindObject(objects, "camerafocus").None? ==> focus == (0, 0)
    ensures FindObject(objects, "camerafocus").Some? ==>
              var f := FindObject(objects, "camerafocus").value;
              focus.0 as real <= f.x < focus.0 as real + 1.0 && focus.1 as real <= f.y < focus.1 as real + 1.0
  {
    match FindObject(objects, "camerafocus")
    case None => (0, 0)
    case Some(f) => (f.x.Floor, f.y.Floor)
  }

  /** Each enemy is in the group once. */
  predicate Distinct(es: seq<Enemy>) {
    forall i, j :: 0 <= i < j < |es| ==> es[i] != es[j]
  }

  /** The turret loop of `createTilemap`: one cannon per marker, in map
      order, on the tile holding the marker, sharing the scene's ammo group. */
  method PlaceTurrets(turrets: seq<MapObject>, ammo: AmmoGroup) returns (cannons: seq<Cannon>)
    ensures |cannons| == |turrets|
    ensures forall i :: 0 <= i < |cannons| ==>
              fresh(cannons[i]) && cannons[i].ammo == ammo
              && cannons[i].x == Snap(turrets[i].x) as real && cannons[i].y == Snap(turrets[i].y) as real
  {
    cannons := [];
    for i := 0 to |turrets|
      invariant |cannons| == i
      invariant forall k :: 0 <= k < i ==>
                  fresh(cannons[k]) && cannons[k].ammo == ammo
                  && cannons[k].x == Snap(turrets[k].x) as real && cannons[k].y == Snap(turrets[k].y) as real
    {
      var cannon := new Cannon(Snap(turrets[i].x) as real, Snap(turrets[i].y) as real, ammo);
      cannons := cannons + [cannon];
    }
  }

  lemma DistinctConcat(a: seq<Enemy>, b: seq<Enemy>)
    requires Distinct(a) && Distinct(b)
    requires forall e :: e in b ==> e !in a
    ensures Distinct(a + b)
  {
    forall i, j | 0 <= i < j < |a + b|
      ensures (a + b)[i] != (a + b)[j]
    {
      if i < |a| && |a| <= j {
        assert (a + b)[j] in b;
      }
    }
  }

  /** The tile step of a frame: from the damage map `m`, the walls `w`,
      `d` destroyed tiles and life `v`, the reports of this frame are
      counted and the scan tears out every tile counted three times or
      more, giving `m'`, `w'`, `d'` and `v'`. */
  ghost predicate TileStep(m: map<string, int>, reports: seq<Option<Tile>>, w: set<Tile>, d: int, v: real,
                           m': map<string, int>, w': set<Tile>, d': int, v': real)
  {
    var grabbed := AddReports(m, reports);
    m' == Settle(grabbed)
    && w' == w - TilesOf(Doomed(grabbed))
    && d' == d + |Doomed(grabbed)|
    && v' == ReduceTimes(v, TilePenalty, |Doomed(grabbed)|)
  }

  class Game {
    /** Grab counts per tile key, the number of tiles torn out, and the wall tiles left. */
    var damagedTiles: map<string, int>
    var destroyedTiles: int
    var walls: set<Tile>
    var enemySpawnRate: real
    var enemyCooldown: real
    /** True until the crawler is lost. */
    var moving: bool
    var objects: seq<MapObject>
    var initialCameraFocus: (int, int)
    var lifebar: Lifebar
    var player: Player
    var ammo: AmmoGroup
    var enemies: seq<Enemy>
    var cannons: seq<Cannon>
    /** Every enemy the scene has put in its group, alive or not. */
    ghost var EnemyRepr: set<Enemy>

    /** The scene's invariant: the damage map is well formed and settled
        between frames, the life bar is never negative, the worker shoots
        into the scene's ammo group, each enemy is in the group once, and
        after a defeat no cannon is left and every enemy is partying. */
    ghost predicate Valid()
      reads this, lifebar, player, EnemyRepr
    {
      WellFormed(damagedTiles) && Settled(damagedTiles)
      && lifebar.Valid() && player.ammo == ammo
      && Distinct(enemies) && (forall i :: 0 <= i < |enemies| ==> enemies[i] in EnemyRepr)
      && (!moving ==> cannons == [] && forall i :: 0 <= i < |enemies| ==> enemies[i].partying)
    }

    /** `preload` and `create` with `createTilemap`: an undamaged map, a
        full life bar, the worker at the "player" marker and a cannon on
        the tile of each "turret" marker. */
    constructor (objects: seq<MapObject>, walls: set<Tile>)
      requires FindObject(objects, "player").Some?
      ensures Valid() && fresh(lifebar) && fresh(player) && fresh(ammo)
      ensures damagedTiles == map[] && destroyedTiles == 0 && this.walls == walls
      ensures enemySpawnRate == EnemySpawnRate && enemyCooldown == InitialEnemyCooldown && moving
      ensures this.objects == objects && initialCameraFocus == CameraFocus(objects)
      ensures lifebar.value == 100.0 && ammo.shots == [] && enemies == []
      ensures player.x == FindObject(objects, "player").value.x && player.y == FindObject(objects, "player").value.y
      ensures player.hasBody && player.vx == 0.0 && player.vy == 0.0
      ensures var turrets := Named(objects, "turret");
              |cannons| == |turrets|
              && forall i :: 0 <= i < |cannons| ==>
                   fresh(cannons[i]) && cannons[i].ammo == ammo
                   && cannons[i].x == Snap(turrets[i].x) as real && cannons[i].y == Snap(turrets[i].y) as real
    {
      var group := new AmmoGroup();
      var built := PlaceTurrets(Named(objects, "turret"), group);
      var marker := FindObject(objects, "player").value;
      player := new Player(marker.x, marker.y, group);
      lifebar := new Lifebar();
      ammo := group;
      damagedTiles := map[];
      destroyedTiles := 0;
      this.walls := walls;
      enemySpawnRate := EnemySpawnRate;
      enemyCooldown := InitialEnemyCooldown;
      moving := true;
      this.objects := objects;
      initialCameraFocus := CameraFocus(objects);
      enemies := [];
      EnemyRepr := {};
      cannons := built;
    }

    /** The first step of `update`: each live enemy's grabbed tile is
        counted once in the damage map and then cleared. */
    method CountGrabs()
      requires Distinct(enemies) && forall i :: 0 <= i < |enemies| ==> enemies[i] in EnemyRepr
      modifies this`damagedTiles, EnemyRepr`grabbedTile
      ensures damagedTiles == AddReports(old(damagedTiles), old(Reports(enemies)))
      ensures forall i :: 0 <= i < |enemies| ==>
                enemies[i].grabbedTile == (if enemies[i].active then None else old(enemies[i].grabbedTile))
    {
      ghost var reports := Reports(enemies);
      for i := 0 to |enemies|
        invariant damagedTiles == AddReports(old(damagedTiles), reports[..i])
        invariant forall k :: 0 <= k < i ==>
                    enemies[k].grabbedTile == (if enemies[k].active then None else old(enemies[k].grabbedTile))
        invariant forall k :: i <= k < |enemies| ==> enemies[k].grabbedTile == old(enemies[k].grabbedTile)
      {
        AddReportsStep(old(damagedTiles), reports, i);
        CountGrab(enemies[i]);
      }
      assert reports[..|enemies|] == reports;
    }

    /** One pass of the counting loop: a live enemy's grabbed tile, if any,
        adds one under its key and is cleared. */
    method CountGrab(enemy: Enemy)
      modifies this`damagedTiles, enemy`grabbedTile
      ensures damagedTiles == Reported(old(damagedTiles), old(Report(enemy)))
      ensures enemy.grabbedTile == (if enemy.active then None else old(enemy.grabbedTile))
    {
      if enemy.active {
        var grabbed := enemy.GetGrabbedTile();
        if grabbed.Some? {
          var key := Key(grabbed.value);
          var value := if key in damagedTiles then damagedTiles[key] else 0;
          damagedTiles := damagedTiles[key := value + 1];
          enemy.ClearGrabbedTile();
        }
      }
    }

    /** The second step of `update`: every tile counted three times or more
        is removed from the walls, counted as destroyed, costs the crawler
        10 life and leaves the damage map. */
    method DestroyDamagedTiles()
      requires lifebar.Valid()
      modifies this`damagedTiles, this`walls, this`destroyedTiles, lifebar
      ensures lifebar.Valid()
      ensures damagedTiles == Settle(old(damagedTiles))
      ensures walls == old(walls) - TilesOf(Doomed(old(damagedTiles)))
      ensures destroyedTiles == old(destroyedTiles) + |Doomed(old(damagedTiles))|
      ensures lifebar.value == ReduceTimes(old(lifebar.value), TilePenalty, |Doomed(old(damagedTiles))|)
    {
      ghost var m0, w0, d0, v0 := damagedTiles, walls, destroyedTiles, lifebar.value;
      ghost var done: set<string> := {};
      var remaining := damagedTiles.Keys;
      while remaining != {}
        invariant Scanning(m0, w0, d0, v0, done, remaining)
        decreases remaining
      {
        var k :| k in remaining;
        done := ScanEntry(k, m0, w0, d0, v0, done, remaining);
        remaining := remaining - {k};
      }
    }

    /** The state of the scan over the keys of `m0` with the doomed keys
        `done` handled and the keys `remaining` still to visit, starting
        from walls `w0`, `d0` destroyed tiles and life `v0`. */
    ghost predicate Scanning(m0: map<string, int>, w0: set<Tile>, d0: int, v0: real,
                             done: set<string>, remaining: set<string>)
      reads this, lifebar
    {
      remaining <= m0.Keys && done == Doomed(m0) - remaining
      && damagedTiles == m0 - done
      && walls == w0 - TilesOf(done)
      && destroyedTiles == d0 + |done|
      && lifebar.Valid() && lifebar.value == ReduceTimes(v0, TilePenalty, |done|)
    }

    /** The callback of the scan for the entry under `k`: a count of three
        or more destroys the tile. */
    method ScanEntry(k: string, ghost m0: map<string, int>, ghost w0: set<Tile>, ghost d0: int, ghost v0: real,
                     ghost done: set<string>, ghost remaining: set<string>) returns (ghost done': set<string>)
      requires Scanning(m0, w0, d0, v0, done, remaining) && k in remaining
      modifies this`damagedTiles, this`walls, this`destroyedTiles, lifebar
      ensures Scanning(m0, w0, d0, v0, done', remaining - {k})
    {
      ScanVisit(m0, done, remaining, k);
      done' := done;
      if damagedTiles[k] >= DestroyThreshold {
        DestroyTile(k);
        TilesOfUnion(done, {k});
        done' := done + {k};
      }
    }

    /** One pass of the scan over a doomed key: its tile leaves the walls
        (when both coordinates parse), the count of destroyed tiles rises,
        the crawler loses 10 life and the key leaves the map. */
    method DestroyTile(k: string)
      requires lifebar.Valid()
      modifies this`damagedTiles, this`walls, this`destroyedTiles, lifebar
      ensures lifebar.Valid() && lifebar.value == ClampLow(old(lifebar.value) - TilePenalty)
      ensures walls == old(walls) - TilesOf({k})
      ensures destroyedTiles == old(destroyedTiles) + 1
      ensures damagedTiles == old(damagedTiles) - {k}
    {
      var coords := DecodeKey(k);
      if coords.Some? {
        walls := walls - {coords.value};
      }
      assert TilesOf({k}) == if coords.Some? then {coords.value} else {};
      destroyedTiles := destroyedTiles + 1;
      lifebar.ReduceLife(TilePenalty);
      damagedTiles := damagedTiles - {k};
    }

    /** The spawning step of a moving frame: once the countdown is below 0
        it restarts at the spawn rate and a fresh falling enemy joins the
        group for each spawn point, in map order; otherwise the countdown
        drops by delta/1000 seconds. */
    method AdvanceSpawning(delta: real, rolls: seq<real>)
      requires SpawnRolls(objects, rolls) && Distinct(enemies)
      requires forall i :: 0 <= i < |enemies| ==> enemies[i] in EnemyRepr
      modifies this`enemyCooldown, this`enemies, this`EnemyRepr
      ensures Distinct(enemies) && forall i :: 0 <= i < |enemies| ==> enemies[i] in EnemyRepr
      ensures old(EnemyRepr) <= EnemyRepr && fresh(EnemyRepr - old(EnemyRepr))
      ensures old(enemyCooldown) >= 0.0 ==> enemyCooldown == old(enemyCooldown) - delta / 1000.0 && enemies == old(enemies)
      ensures old(enemyCooldown) < 0.0 ==>
                enemyCooldown == enemySpawnRate
                && |old(enemies)| <= |enemies| && enemies[..|old(enemies)|] == old(enemies)
                && IsWave(enemies[|old(enemies)|..], Named(objects, "spawnpoint"), rolls)
    {
      if enemyCooldown < 0.0 {
        enemyCooldown := enemySpawnRate;
        var wave := SpawnWave(Named(objects, "spawnpoint"), rolls);
        DistinctConcat(enemies, wave);
        enemies := enemies + wave;
        EnemyRepr := EnemyRepr + set e | e in wave;
        assert enemies[|old(enemies)|..] == wave;
      } else {
        enemyCooldown := enemyCooldown - delta / 1000.0;
      }
    }

    /** The last step of `update`: the crawler is lost when it is moving and
        its life is gone, or when the worker has lost its body. Then it
        stops, the worker stops, every enemy parties and every cannon is
        destroyed; otherwise nothing changes. */
    method CheckDefeat()
      requires Valid()
      modifies this`moving, this`cannons, player`vx, EnemyRepr`partying
      ensures Valid()
      ensures var lost := (old(moving) && lifebar.value <= 0.0) || !player.hasBody;
              moving == (old(moving) && !lost)
              && (lost ==> cannons == [] && forall i :: 0 <= i < |enemies| ==> enemies[i].partying)
              && player.vx == (if lost && player.hasBody then 0.0 else old(player.vx))
              && (!lost ==> cannons == old(cannons)
                            && forall i :: 0 <= i < |enemies| ==> enemies[i].partying == old(enemies[i].partying))
    {
      var life := lifebar.GetLife();
      if (moving && life <= 0.0) || !player.hasBody {
        moving := false;
        if player.hasBody {
          player.vx := 0.0;
        }
        for i := 0 to |enemies|
          invariant !moving && player.vx == (if player.hasBody then 0.0 else old(player.vx))
          invariant forall k :: 0 <= k < i ==> enemies[k].partying
        {
          enemies[i].StartPartying();
        }
        cannons := [];
      }
    }

    /** `update(time, delta)`: grabs are counted and damaged tiles torn out
        every frame; while moving the worker is updated and enemies spawn;
        then the defeat check runs. The worker's keys and ground contact and
        the spawn rolls are this frame's inputs. */
    method Update(delta: real, keys: Controls, blockedDown: bool, rolls: seq<real>)
      requires Valid()
      requires SpawnRolls(objects, rolls)
      modifies this`damagedTiles, this`walls, this`destroyedTiles, this`enemyCooldown, this`enemies
      modifies this`moving, this`cannons, this`EnemyRepr, lifebar, player, ammo
      modifies EnemyRepr`grabbedTile, EnemyRepr`partying
      ensures Valid()
      ensures TileStep(old(damagedTiles), old(Reports(enemies)), old(walls), old(destroyedTiles), old(lifebar.value),
                       damagedTiles, walls, destroyedTiles, lifebar.value)
      ensures moving == (old(moving) && lifebar.value > 0.0 && player.hasBody)
      ensures player.hasBody == old(player.hasBody)
      ensures !old(moving) ==> enemies == old(enemies) && enemyCooldown == old(enemyCooldown) && ammo.shots == old(ammo.shots)
      ensures old(moving) && old(enemyCooldown) >= 0.0 ==>
                enemyCooldown == old(enemyCooldown) - delta / 1000.0 && enemies == old(enemies)
      ensures old(moving) && old(enemyCooldown) < 0.0 ==>
                var n := |old(enemies)|;
                enemyCooldown == enemySpawnRate && |enemies| == n + |Named(objects, "spawnpoint")| && enemies[..n] == old(enemies)
      ensures ammo.shots == old(ammo.shots)
                + (if old(moving) && player.hasBody && keys.fireJustDown then SpreadShots(player.x, player.y, player.flipX) else [])
      ensures moving ==> cannons == old(cannons)
      ensures player.x == old(player.x) && player.y == old(player.y)
      ensures !old(moving) || !player.hasBody ==> player.MotionOf() == old(player.MotionOf())
      ensures old(moving) && player.hasBody ==>
                var m := Steer(old(player.MotionOf()), keys, blockedDown);
                player.MotionOf() == (if moving then m else m.(vx := 0.0))
      ensures moving ==> forall i :: 0 <= i < |old(enemies)| ==> old(enemies)[i].partying == old(enemies[i].partying)
      ensures forall i :: 0 <= i < |old(enemies)| ==>
                old(enemies)[i].grabbedTile == (if old(enemies)[i].active then None else old(enemies[i].grabbedTile))
    {
      TilePhase();
      RestPhase(delta, keys, blockedDown, rolls);
    }

    /** The steps of `update` that run every frame before the worker moves:
        grabs are counted, then the damaged tiles are torn out. */
    method TilePhase()
      requires Valid()
      modifies this`damagedTiles, this`walls, this`destroyedTiles, lifebar, EnemyRepr`grabbedTile
      ensures Valid()
      ensures TileStep(old(damagedTiles), old(Reports(enemies)), old(walls), old(destroyedTiles), old(lifebar.value),
                       damagedTiles, walls, destroyedTiles, lifebar.value)
      ensures forall i :: 0 <= i < |enemies| ==>
                enemies[i].grabbedTile == (if enemies[i].active then None else old(enemies[i].grabbedTile))
    {
      AddReportsWellFormed(damagedTiles, Reports(enemies));
      CountGrabs();
      DestroyDamagedTiles();
    }

    /** The steps of `update` after the tile step: while moving, the worker
        is updated and enemies spawn; then the defeat check runs. */
    method RestPhase(delta: real, keys: Controls, blockedDown: bool, rolls: seq<real>)
      requires Valid()
      requires SpawnRolls(objects, rolls)
      modifies this`enemyCooldown, this`enemies, this`moving, this`cannons, this`EnemyRepr, player, ammo
      modifies EnemyRepr`partying
      ensures Valid()
      ensures moving == (old(moving) && lifebar.value > 0.0 && player.hasBody)
      ensures player.hasBody == old(player.hasBody)
      ensures !old(moving) ==> enemies == old(enemies) && enemyCooldown == old(enemyCooldown) && ammo.shots == old(ammo.shots)
      ensures old(moving) && old(enemyCooldown) >= 0.0 ==>
                enemyCooldown == old(enemyCooldown) - delta / 1000.0 && enemies == old(enemies)
      ensures old(moving) && old(enemyCooldown) < 0.0 ==>
                var n := |old(enemies)|;
                enemyCooldown == enemySpawnRate && |enemies| == n + |Named(objects, "spawnpoint")| && enemies[..n] == old(enemies)
      ensures ammo.shots == old(ammo.shots)
                + (if old(moving) && player.hasBody && keys.fireJustDown then SpreadShots(player.x, player.y, player.flipX) else [])
      ensures moving ==> cannons == old(cannons)
      ensures player.x == old(player.x) && player.y == old(player.y)
      ensures !old(moving) || !player.hasBody ==> player.MotionOf() == old(player.MotionOf())
      ensures old(moving) && player.hasBody ==>
                var m := Steer(old(player.MotionOf()), keys, blockedDown);
                player.MotionOf() == (if moving then m else m.(vx := 0.0))
      ensures moving ==> forall i :: 0 <= i < |old(enemies)| ==> old(enemies)[i].partying == old(enemies[i].partying)
    {
      if moving {
        MovePhase(delta, keys, blockedDown, rolls);
      }
      CheckDefeat();
    }

    /** The steps of `update` that run only while the crawler moves: the
        worker is updated, then enemies spawn. */
    method MovePhase(delta: real, keys: Controls, blockedDown: bool, rolls: seq<real>)
      requires Valid() && moving
      requires SpawnRolls(objects, rolls)
      modifies player, ammo, this`enemyCooldown, this`enemies, this`EnemyRepr
      ensures Valid()
      ensures player.hasBody == old(player.hasBody)
      ensures old(EnemyRepr) <= EnemyRepr && fresh(EnemyRepr - old(EnemyRepr))
      ensures old(enemyCooldown) >= 0.0 ==> enemyCooldown == old(enemyCooldown) - delta / 1000.0 && enemies == old(enemies)
      ensures old(enemyCooldown) < 0.0 ==>
                var n := |old(enemies)|;
                enemyCooldown == enemySpawnRate && |enemies| == n + |Named(objects, "spawnpoint")| && enemies[..n] == old(enemies)
                && IsWave(enemies[n..], Named(objects, "spawnpoint"), rolls)
      ensures ammo.shots == old(ammo.shots)
                + (if player.hasBody && keys.fireJustDown then SpreadShots(player.x, player.y, player.flipX) else [])
      ensures player.x == old(player.x) && player.y == old(player.y)
      ensures player.hasBody ==> player.MotionOf() == Steer(old(player.MotionOf()), keys, blockedDown)
      ensures !player.hasBody ==> player.MotionOf() == old(player.MotionOf())
    {
      player.Update(keys, blockedDown);
      AdvanceSpawning(delta, rolls);
    }

    /** `ammoHitsEnemy`: the shot is destroyed and the enemy loses one hit point. */
    method AmmoHitsEnemy(shot: nat, enemy: Enemy)
      requires shot < |ammo.shots|
      modifies ammo, enemy`hitPoints
      ensures ammo.shots == old(ammo.shots[..shot] + ammo.shots[shot + 1..])
      ensures enemy.hitPoints == old(enemy.hitPoints) - 1
    {
      ammo.DestroyAt(shot);
      enemy.GetHit(1);
    }

    /** `objectHitsWall`: an attacking enemy touching a wall tile grabs it;
        any other contact changes nothing. */
    method ObjectHitsWall(enemy: Enemy, contact: Contact)
      modifies enemy`enemyState, enemy`grabbedTile
      ensures old(enemy.enemyState) == Attacking && contact.WallTile? ==>
                enemy.enemyState == Grabbing && enemy.grabbedTile == Some(contact.tile)
      ensures !(old(enemy.enemyState) == Attacking && contact.WallTile?) ==>
                enemy.enemyState == old(enemy.enemyState) && enemy.grabbedTile == old(enemy.grabbedTile)
      ensures enemy.hitPoints == old(enemy.hitPoints) && enemy.active == old(enemy.active)
      ensures enemy.partying == old(enemy.partying) && enemy.attackCooldown == old(enemy.attackCooldown)
    {
      var attacking := enemy.IsAttacking();
      if attacking && contact.WallTile? {
        enemy.Grab(contact.tile);
      }
    }

    /** `destroyBoth`: two colliding cannons both leave the group. */
    method DestroyBoth(first: Cannon, second: Cannon)
      requires Valid()
      modifies this`cannons
      ensures Valid()
      ensures cannons == Without(Without(old(cannons), first), second)
      ensures multiset(cannons) == multiset(old(cannons))[first := 0][second := 0]
    {
      cannons := Without(Without(cannons, first), second);
    }

    /** `destroySprite` on the worker's contact with the ground: the first
        object of the pair is destroyed when it is a sprite, else the second
        when it is one. The only sprite in such a contact is the worker, so
        the worker loses its body exactly when one side of the pair is the
        worker, and a contact between two tiles changes nothing. */
    method DestroySprite(first: Collider, second: Collider)
      modifies player`hasBody
      ensures player.hasBody == (old(player.hasBody) && !first.PlayerSprite? && !second.PlayerSprite?)
    {
      if first.PlayerSprite? {
        player.Destroy();
      } else if second.PlayerSprite? {
        player.Destroy();
      }
    }
  }
}

/** An enemy: a state machine advanced once per frame, with hit points that
    projectiles lower and a tile it reports after grabbing a wall. */
module Enemies {
  import opened Common
  import opened TileKeys

  datatype EnemyState = Falling | Landed | Running | Jumping | Attacking | Grabbing

  const InitialHitPoints: int := 4
  const InitialAttackCooldown: real := 5.0
  /** Offset and speed of the leap a jumping enemy is sent on. */
  const LeapOffset: Vec := Vec(100.0, -100.0)
  const LeapSpeed: real := 300.0

  /** What `update` advances from frame to frame: the state and the attack countdown (seconds). */
  datatype Phase = Phase(state: EnemyState, attackCooldown: real)

  /** Position of a state along the attack sequence; Grabbing comes last. */
  function Rank(s: EnemyState): nat {
    match s
    case Falling => 0
    case Landed => 1
    case Running => 2
    case Jumping => 3
    case Attacking => 4
    case Grabbing => 5
  }

  /** One `update` of an enemy that is `delta` milliseconds long. */
  function Tick(p: Phase, blockedDown: bool, delta: real): (q: Phase)
    // the machine only moves forward, by at most one state per frame
    ensures Rank(p.state) <= Rank(q.state) <= Rank(p.state) + 1
    // Grabbing is entered only through `grab`, and Attacking and Grabbing are never left
    ensures q.state == Grabbing <==> p.state == Grabbing
    ensures p.state == Attacking || p.state == Grabbing ==> q == p
    // a falling enemy lands exactly when its body is blocked below
    ensures p.state == Falling ==> (q.state == Landed <==> blockedDown) && (q.state == Falling <==> !blockedDown)
    ensures p.state == Landed ==> q.state == Running
    ensures p.state == Jumping ==> q.state == Attacking
    // only a running enemy counts down, by delta/1000 while the countdown is positive
    ensures p.state == Running && p.attackCooldown > 0.0 ==> q == Phase(Running, p.attackCooldown - delta / 1000.0)
    ensures p.state == Running && p.attackCooldown <= 0.0 ==> q == Phase(Jumping, p.attackCooldown)
    ensures p.state != Running ==> q.attackCooldown == p.attackCooldown
    ensures delta >= 0.0 ==> q.attackCooldown <= p.attackCooldown
  {
    match p.state
    case Falling => if blockedDown then Phase(Landed, p.attackCooldown) else p
    case Landed => Phase(Running, p.attackCooldown)
    case Running =>
      if p.attackCooldown > 0.0 then Phase(Running, p.attackCooldown - delta / 1000.0)
      else Phase(Jumping, p.attackCooldown)
    case Jumping => Phase(Attacking, p.attackCooldown)
    case Attacking => p
    case Grabbing => p
  }

  /** `n` frames of equal length with the same ground contact. */
  function Ticks(p: Phase, blockedDown: bool, delta: real, n: nat): Phase
    decreases n
  {
    if n == 0 then p else Ticks(Tick(p, blockedDown, delta), blockedDown, delta, n - 1)
  }

  /** An attacking enemy stays attacking until something outside `update` grabs. */
  lemma {:induction false} AttackingIsStable(p: Phase, blockedDown: bool, delta: real, n: nat)
    requires p.state == Attacking
    ensures Ticks(p, blockedDown, delta, n) == p
    decreases n
  {
    if n > 0 {
      AttackingIsStable(Tick(p, blockedDown, delta), blockedDown, delta, n - 1);
    }
  }

  /** An enemy whose body is never blocked below keeps falling, countdown untouched. */
  lemma {:induction false} NoGroundKeepsFalling(p: Phase, delta: real, n: nat)
    requires p.state == Falling
    ensures Ticks(p, false, delta, n) == p
    decreases n
  {
    if n > 0 {
      NoGroundKeepsFalling(Tick(p, false, delta), delta, n - 1);
    }
  }

  /** With non-negative frame lengths the attack countdown never goes up. */
  lemma {:induction false} CooldownNeverRises(p: Phase, blockedDown: bool, delta: real, n: nat)
    requires delta >= 0.0
    ensures Ticks(p, blockedDown, delta, n).attackCooldown <= p.attackCooldown
    decreases n
  {
    if n > 0 {
      CooldownNeverRises(Tick(p, blockedDown, delta), blockedDown, delta, n - 1);
    }
  }

  /** A running enemy whose countdown is covered by `n` frames of `delta`
      milliseconds is attacking after `n + 2` frames: it counts down, jumps
      on the frame after the countdown runs out, and attacks on the next. */
  lemma {:induction false} RunningLeadsToAttack(p: Phase, blockedDown: bool, delta: real, n: nat)
    requires p.state == Running && delta > 0.0
    requires p.attackCooldown <= n as real * delta / 1000.0
    ensures Ticks(p, blockedDown, delta, n + 2).state == Attacking
    decreases n
  {
    var q := Tick(p, blockedDown, delta);
    if p.attackCooldown <= 0.0 {
      var r := Tick(q, blockedDown, delta);
      assert r.state == Attacking;
      AttackingIsStable(r, blockedDown, delta, n);
      assert Ticks(p, blockedDown, delta, n + 2) == Ticks(r, blockedDown, delta, n);
    } else {
      assert n > 0;
      assert q.attackCooldown <= (n - 1) as real * delta / 1000.0;
      RunningLeadsToAttack(q, blockedDown, delta, n - 1);
    }
  }

  /** A freshly spawned enemy that stands on ground attacks after at most
      `n + 4` frames when `n` frames cover its five-second countdown. */
  lemma NewEnemyAttacks(delta: real, n: nat)
    requires delta > 0.0
    requires InitialAttackCooldown <= n as real * delta / 1000.0
    ensures Ticks(Phase(Falling, InitialAttackCooldown), true, delta, n + 4).state == Attacking
  {
    var landed := Tick(Phase(Falling, InitialAttackCooldown), true, delta);
    var running := Tick(landed, true, delta);
    assert running == Phase(Running, InitialAttackCooldown);
    RunningLeadsToAttack(running, true, delta, n);
    assert Ticks(Phase(Falling, InitialAttackCooldown), true, delta, n + 4) == Ticks(running, true, delta, n + 2);
  }

  class Enemy {
    var hitPoints: int
    var enemyState: EnemyState
    var stateCooldown: real
    var attackCooldown: real
    /** Sprite position and body velocity; the engine moves the sprite. */
    var x: real
    var y: real
    var vx: real
    var vy: real
    /** The target of the last `physics.moveTo` order issued, flown at
        LeapSpeed; a later `body.stop()` halts the body but the order stays
        recorded here. */
    var leap: Option<Vec>
    /** The tile reported by the last `grab`, until the scene clears it. */
    var grabbedTile: Option<Tile>
    /** False once the sprite is destroyed (it then leaves its group). */
    var active: bool
    var partying: bool

    function PhaseOf(): Phase
      reads this
    {
      Phase(enemyState, attackCooldown)
    }

    constructor (x: real, y: real)
      ensures this.x == x && this.y == y
      ensures enemyState == Falling && hitPoints == InitialHitPoints
      ensures attackCooldown == InitialAttackCooldown && stateCooldown == 1.0
      ensures grabbedTile == None && leap == None && active && !partying
      ensures vx == 0.0 && vy == 0.0
    {
      this.x, this.y := x, y;
      hitPoints := InitialHitPoints;
      enemyState := Falling;
      stateCooldown := 1.0;
      attackCooldown := InitialAttackCooldown;
      vx, vy := 0.0, 0.0;
      leap := None;
      grabbedTile := None;
      active := true;
      partying := false;
    }

    /** `update(time, delta)`: one step of the state machine, then death
        when the hit points are gone, whatever the state. The engine calls
        it only on live enemies. */
    method Update(delta: real, blockedDown: bool)
      requires active
      modifies this
      ensures PhaseOf() == Tick(old(PhaseOf()), blockedDown, delta)
      ensures old(enemyState) == Falling ==> vx == -delta && vy == old(vy) && leap == old(leap)
      ensures old(enemyState) == Landed ==> vx == 0.5 * delta && vy == old(vy) && leap == old(leap)
      ensures old(enemyState) == Jumping ==> leap == Some(Vec(old(x) + LeapOffset.x, old(y) + LeapOffset.y))
      ensures old(enemyState) == Grabbing ==> vx == 0.0 && vy == 0.0 && leap == old(leap)
      ensures old(enemyState) in {Running, Attacking} ==> vx == old(vx) && vy == old(vy) && leap == old(leap)
      ensures active <==> hitPoints > 0
      ensures hitPoints == old(hitPoints) && grabbedTile == old(grabbedTile)
      ensures x == old(x) && y == old(y) && stateCooldown == old(stateCooldown) && partying == old(partying)
    {
      match enemyState {
        case Falling =>
          vx := -1.0 * delta;
          if blockedDown {
            enemyState := Landed;
          }
        case Landed =>
          enemyState := Running;
          vx := 0.5 * delta;
        case Running =>
          if attackCooldown > 0.0 {
            attackCooldown := attackCooldown - delta / 1000.0;
          } else {
            enemyState := Jumping;
          }
        case Jumping =>
          // the engine sets the velocity towards the leap target at LeapSpeed
          vx, vy := *, *;
          leap := Some(Vec(x + LeapOffset.x, y + LeapOffset.y));
          enemyState := Attacking;
        case Attacking =>
        case Grabbing =>
          vx, vy := 0.0, 0.0;
      }
      if hitPoints <= 0 {
        active := false;
      }
    }

    /** `grab(tile)`: from any state, the enemy is grabbing that tile. */
    method Grab(tile: Tile)
      modifies this`enemyState, this`grabbedTile
      ensures enemyState == Grabbing && grabbedTile == Some(tile)
      ensures hitPoints == old(hitPoints) && attackCooldown == old(attackCooldown) && active == old(active)
      ensures vx == old(vx) && vy == old(vy) && leap == old(leap) && partying == old(partying)
      ensures x == old(x) && y == old(y) && stateCooldown == old(stateCooldown)
    {
      enemyState := Grabbing;
      grabbedTile := Some(tile);
    }

    method GetHitpoints() returns (hp: int)
      ensures hp == hitPoints
    {
      hp := hitPoints;
    }

    /** `getHit(damage)`: exactly `damage` is subtracted, with no clamp. */
    method GetHit(damage: int)
      modifies this`hitPoints
      ensures hitPoints == old(hitPoints) - damage
    {
      hitPoints := hitPoints - damage;
    }

    method IsAttacking() returns (attacking: bool)
      ensures attacking <==> enemyState == Attacking
    {
      attacking := enemyState == Attacking;
    }

    method GetGrabbedTile() returns (tile: Option<Tile>)
      ensures tile == grabbedTile
    {
      tile := grabbedTile;
    }

    method ClearGrabbedTile()
      modifies this`grabbedTile
      ensures grabbedTile == None
    {
      grabbedTile := None;
    }

    /** The scene's ceasefire signal on defeat; what a partying enemy then
        does is not part of this model. */
    method StartPartying()
      modifies this`partying
      ensures partying
    {
      partying := true;
    }
  }
}

/** The player's worker: keyboard state turned into body velocity and
    facing each frame, and a three-shot spread on the fire key's press. */
module Players {
  import opened Common

  const JumpVelocity: real := -180.0
  const WalkSpeed: real := 100.0
  const IdleDamping: real := 1.3
  const DeadZone: real := 0.5
  /** Horizontal distance from the worker to the points its shots aim at. */
  const MuzzleOffset: real := 8.0
  /** Speed a `Shot` is launched with. */
  const PlayerShotSpeed: real := 200.0

  /** The keys as read this frame; `fireJustDown` is the fire key's just-pressed edge. */
  datatype Controls = Controls(up: bool, down: bool, left: bool, right: bool, fireJustDown: bool)

  function Abs(v: real): real {
    if v < 0.0 then -v else v
  }

  /** +1 facing right, -1 facing left (flipped). */
  function Facing(flipX: bool): real {
    if flipX then -1.0 else 1.0
  }

  /** The horizontal velocity after one idle frame: divided by 1.3, then
      snapped to 0 inside the dead zone (-0.5, 0.5). */
  function Damp(vx: real): (r: real)
    ensures Abs(r) <= Abs(vx)
    ensures r == 0.0 || Abs(r) >= DeadZone
    ensures r * vx >= 0.0
    ensures vx == 0.0 ==> r == 0.0
  {
    var v := vx / IdleDamping;
    if v < DeadZone && v > -DeadZone then 0.0 else v
  }

  /** The horizontal velocity after `n` idle frames. */
  function DampTimes(vx: real, n: nat): real
    decreases n
  {
    if n == 0 then vx else DampTimes(Damp(vx), n - 1)
  }

  function Pow(b: real, n: nat): real {
    if n == 0 then 1.0 else b * Pow(b, n - 1)
  }

  /** An idle worker comes to rest: once `n` idle frames shrink the speed
      below the dead zone it is exactly 0, and it stays 0. */
  lemma {:induction false} IdleComesToRest(vx: real, n: nat)
    requires n >= 1 && Abs(vx) < DeadZone * Pow(IdleDamping, n)
    ensures DampTimes(vx, n) == 0.0
    decreases n
  {
    var d := Damp(vx);
    if n == 1 {
      assert Abs(vx / IdleDamping) < DeadZone;
    } else {
      assert Pow(IdleDamping, n) == IdleDamping * Pow(IdleDamping, n - 1);
      if d == 0.0 {
        StaysAtRest(n - 1);
      } else {
        assert Abs(d) == Abs(vx) / IdleDamping;
        IdleComesToRest(d, n - 1);
      }
    }
  }

  lemma {:induction false} StaysAtRest(n: nat)
    ensures DampTimes(0.0, n) == 0.0
  {
    if n > 0 {
      StaysAtRest(n - 1);
    }
  }

  /** The worker's body velocity and facing. */
  datatype Motion = Motion(vx: real, vy: real, flipX: bool)

  /** The control rule of one `update` of a worker with a body: up on the
      ground jumps, left wins over right, and with neither the horizontal
      velocity is damped and the facing kept. */
  function Steer(m: Motion, keys: Controls, blockedDown: bool): Motion {
    var vy := if keys.up && blockedDown then JumpVelocity else m.vy;
    if keys.left then Motion(-WalkSpeed, vy, true)
    else if keys.right then Motion(WalkSpeed, vy, false)
    else Motion(Damp(m.vx), vy, m.flipX)
  }

  /** The three shots of `fireSpread`, fired from the worker at (x, y). */
  function SpreadShots(x: real, y: real, flipX: bool): seq<Shot> {
    seq(3, i requires 0 <= i < 3 =>
      Shot(Vec(x, y), Vec(x + Facing(flipX) * MuzzleOffset, y - 1.0 + i as real), PlayerShotSpeed))
  }

  /** The spread: three shots from the worker, all aimed 8 px ahead on the
      side it faces, the middle one level and the outer two one pixel
      above and below it. */
  lemma SpreadGeometry(x: real, y: real, flipX: bool)
    ensures |SpreadShots(x, y, flipX)| == 3
    ensures forall s :: s in SpreadShots(x, y, flipX) ==>
              s.origin == Vec(x, y) && s.speed == PlayerShotSpeed
              && (s.aim.x - x) * Facing(flipX) == MuzzleOffset
    ensures SpreadShots(x, y, flipX)[1].aim.y == y
    ensures SpreadShots(x, y, flipX)[0].aim.y == y - 1.0 && SpreadShots(x, y, flipX)[2].aim.y == y + 1.0
  {
  }

  class Player {
    var x: real
    var y: real
    var vx: real
    var vy: real
    var flipX: bool
    /** False once the sprite is destroyed: `this.body` is then gone. */
    var hasBody: bool
    /** The scene's ammo group (`this.parent.ammo`). */
    var ammo: AmmoGroup

    function MotionOf(): Motion
      reads this
    {
      Motion(vx, vy, flipX)
    }

    constructor (x: real, y: real, ammo: AmmoGroup)
      ensures this.x == x && this.y == y && this.ammo == ammo
      ensures vx == 0.0 && vy == 0.0 && !flipX && hasBody
    {
      this.x, this.y := x, y;
      this.ammo := ammo;
      vx, vy := 0.0, 0.0;
      flipX := false;
      hasBody := true;
    }

    /** `update(time, delta)`. Without a body nothing happens. Otherwise: up
        on the ground jumps; left wins over right; with neither held the
        velocity is damped; and the fire key's press fires the spread in
        the facing just chosen. */
    method Update(keys: Controls, blockedDown: bool)
      modifies this, ammo
      ensures x == old(x) && y == old(y) && hasBody == old(hasBody) && ammo == old(ammo)
      ensures !hasBody ==> vx == old(vx) && vy == old(vy) && flipX == old(flipX) && ammo.shots == old(ammo.shots)
      ensures hasBody ==> vy == (if keys.up && blockedDown then JumpVelocity else old(vy))
      ensures hasBody && keys.left ==> vx == -WalkSpeed && flipX
      ensures hasBody && !keys.left && keys.right ==> vx == WalkSpeed && !flipX
      ensures hasBody && !keys.left && !keys.right ==> vx == Damp(old(vx)) && flipX == old(flipX)
      ensures hasBody ==> MotionOf() == Steer(old(MotionOf()), keys, blockedDown)
      ensures hasBody && keys.fireJustDown ==> ammo.shots == old(ammo.shots) + SpreadShots(x, y, flipX)
      ensures hasBody && !keys.fireJustDown ==> ammo.shots == old(ammo.shots)
    {
      if !hasBody {
        return;
      }
      if keys.up && blockedDown {
        vy := JumpVelocity;
      }
      if keys.left {
        vx := -WalkSpeed;
        flipX := true;
      } else if keys.right {
        vx := WalkSpeed;
        flipX := false;
      } else {
        vx := vx / IdleDamping;
        if vx < DeadZone && vx > -DeadZone {
          vx := 0.0;
        }
      }
      if keys.fireJustDown {
        FireSpread();
      }
    }

    /** `fireSpread()`: three shots added to the ammo group, one per pass of the loop. */
    method FireSpread()
      modifies ammo
      ensures ammo.shots == old(ammo.shots) + SpreadShots(x, y, flipX)
    {
      var spread := SpreadShots(x, y, flipX);
      for i := 0 to 3
        invariant ammo.shots == old(ammo.shots) + spread[..i]
      {
        var shot := Shot(Vec(x, y), Vec(x + Facing(flipX) * MuzzleOffset, y - 1.0 + i as real), PlayerShotSpeed);
        assert shot == spread[i];
        ammo.Add(shot);
        assert spread[..i + 1] == spread[..i] + [spread[i]];
      }
      assert spread[..3] == spread;
    }

    /** `destroy()`: the sprite and its body go away. */
    method Destroy()
      modifies this`hasBody
      ensures !hasBody
    {
      hasBody := false;
    }
  }
}

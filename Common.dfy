/** Values shared by the scene and its sprites: optional values, points,
    shots and the scene's shared ammo group. */
module Common {

  datatype Option<+T> = None | Some(value: T)

  /** A point or offset in world pixels. */
  datatype Vec = Vec(x: real, y: real)

  /** A projectile as the engine is asked to launch it: where it starts,
      the fixed point it flies towards (never re-aimed) and its speed. */
  datatype Shot = Shot(origin: Vec, aim: Vec, speed: real)

  /** The scene's `ammo` group. The scene, the player and every cannon hold
      the same group and add their shots to it. */
  class AmmoGroup {
    var shots: seq<Shot>

    constructor ()
      ensures shots == []
    {
      shots := [];
    }

    /** `group.add(shot)`: the shot joins the group after the existing ones. */
    method Add(s: Shot)
      modifies this
      ensures shots == old(shots) + [s]
    {
      shots := shots + [s];
    }

    /** `shot.destroy()`: a destroyed shot leaves the group; the others keep their order. */
    method DestroyAt(i: nat)
      requires i < |shots|
      modifies this
      ensures shots == old(shots[..i] + shots[i + 1..])
      ensures |shots| == old(|shots|) - 1
    {
      shots := shots[..i] + shots[i + 1..];
    }
  }
}

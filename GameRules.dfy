/** The scene's pure rules: looking up markers of the map's object layer,
    snapping turrets to the tile grid, which sound variant a roll picks,
    and the removal of a destroyed member from a group. */
module GameRules {
  import opened Common

  /** A marker of the map's object layer: its name and its position. */
  datatype MapObject = MapObject(name: string, x: real, y: real)

  /** Width and height of a map tile, in pixels. */
  const TileSize: int := 16

  /** `objects.find(o => o.name === name)`: the first marker with that name. */
  function FindObject(objects: seq<MapObject>, name: string): Option<MapObject> {
    if objects == [] then None
    else if objects[0].name == name then Some(objects[0])
    else FindObject(objects[1..], name)
  }

  /** `objects.filter(o => o.name === name)`, order kept. */
  function Named(objects: seq<MapObject>, name: string): seq<MapObject> {
    if objects == [] then []
    else (if objects[0].name == name then [objects[0]] else []) + Named(objects[1..], name)
  }

  /** `find` gives nothing exactly when no marker has the name, and
      otherwise the marker with that name that comes before all others. */
  lemma {:induction false} FindObjectIsFirst(objects: seq<MapObject>, name: string)
    ensures FindObject(objects, name).None? <==> forall i :: 0 <= i < |objects| ==> objects[i].name != name
    ensures FindObject(objects, name).Some? ==>
              exists i :: 0 <= i < |objects| && objects[i] == FindObject(objects, name).value
                          && objects[i].name == name
                          && forall j :: 0 <= j < i ==> objects[j].name != name
  {
    if objects != [] && objects[0].name != name {
      FindObjectIsFirst(objects[1..], name);
      var r := FindObject(objects[1..], name);
      if r.Some? {
        var i :| 0 <= i < |objects[1..]| && objects[1..][i] == r.value && objects[1..][i].name == name
                 && forall j :: 0 <= j < i ==> objects[1..][j].name != name;
        assert objects[i + 1] == r.value;
      } else {
        forall i | 0 <= i < |objects| ensures objects[i].name != name {
          if i > 0 {
            assert objects[i] == objects[1..][i - 1];
          }
        }
      }
    } else if objects != [] {
      assert objects[0] == FindObject(objects, name).value;
    }
  }

  /** `filter` keeps exactly the markers with the name, and its first
      element is what `find` returns. */
  lemma {:induction false} NamedIsFilter(objects: seq<MapObject>, name: string)
    ensures |Named(objects, name)| <= |objects|
    ensures forall o :: o in Named(objects, name) <==> o in objects && o.name == name
    ensures |Named(objects, name)| == 0 <==> FindObject(objects, name).None?
    ensures |Named(objects, name)| > 0 ==> Named(objects, name)[0] == FindObject(objects, name).value
  {
    if objects != [] {
      NamedIsFilter(objects[1..], name);
      assert objects == [objects[0]] + objects[1..];
    }
  }

  /** `Math.floor(v / 16) * 16`: the left or top edge of the tile holding `v`. */
  function Snap(v: real): (r: int)
    ensures r % TileSize == 0
    ensures r as real <= v < r as real + TileSize as real
  {
    (v / 16.0).Floor * TileSize
  }

  /** A snapped coordinate is its own snap, and two coordinates snap to
      the same edge exactly when they lie in the same tile. */
  lemma SnapIsTileEdge(v: real, w: real)
    ensures Snap(Snap(v) as real) == Snap(v)
    ensures Snap(v) == Snap(w) <==> (v / 16.0).Floor == (w / 16.0).Floor
  {
    var e := Snap(v) as real;
    assert e / 16.0 == (v / 16.0).Floor as real;
  }

  /** The sound effects `playSound` chooses between. */
  datatype Cue = Crunch | LongCrunch | Crunch2 | Clack | Clack2

  /** The sound name a cue is a variant of. */
  function SoundOf(c: Cue): string {
    match c
    case Crunch | LongCrunch | Crunch2 => "crunch"
    case Clack | Clack2 => "clack"
  }

  /** The half-open band [lo, hi) of `Math.random()` values that picks a cue. */
  function Band(c: Cue): (real, real) {
    match c
    case Crunch => (0.0, 0.2)
    case LongCrunch => (0.2, 0.5)
    case Crunch2 => (0.5, 1.0)
    case Clack => (0.0, 0.5)
    case Clack2 => (0.5, 1.0)
  }

  /** `playSound(sound)` with the random roll `roll`: the cue played, if any. */
  function SoundCue(sound: string, roll: real): Option<Cue> {
    if sound == "crunch" then
      Some(if roll < 0.2 then Crunch else if roll < 0.5 then LongCrunch else Crunch2)
    else if sound == "clack" then
      Some(if roll < 0.5 then Clack else Clack2)
    else None
  }

  /** For a roll in [0, 1), the cue played is exactly the variant of the
      requested sound whose band holds the roll; other names play nothing. */
  lemma SoundCueBands(sound: string, roll: real, c: Cue)
    requires 0.0 <= roll < 1.0
    ensures SoundCue(sound, roll) == Some(c) <==> SoundOf(c) == sound && Band(c).0 <= roll < Band(c).1
    ensures SoundCue(sound, roll).None? <==> sound != "crunch" && sound != "clack"
  {
  }

  /** A group with one member destroyed: every occurrence removed, the rest in order. */
  function Without<T(==)>(s: seq<T>, x: T): (r: seq<T>)
    ensures multiset(r) == multiset(s)[x := 0]
    ensures x !in r
    ensures x !in s ==> r == s
  {
    if s == [] then []
    else
      assert s == [s[0]] + s[1..];
      (if s[0] == x then [] else [s[0]]) + Without(s[1..], x)
  }
}

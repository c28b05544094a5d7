/** The scene's tile-damage bookkeeping as values: the `damagedTiles` map
    from tile key to the number of grabs counted against that tile, the
    reports the enemies hand in each frame, and the destruction threshold. */
module TileDamage {
  import opened Common
  import opened TileKeys

  /** A tile counted this many times is torn out of the walls. */
  const DestroyThreshold: int := 3

  /** `damagedTiles.get(key) || 0`: an absent key counts as 0. */
  function Count(m: map<string, int>, k: string): int {
    if k in m then m[k] else 0
  }

  /** One enemy's report handled: the count under the tile's key rises by one. */
  function Reported(m: map<string, int>, report: Option<Tile>): map<string, int> {
    match report
    case None => m
    case Some(t) => m[Key(t) := Count(m, Key(t)) + 1]
  }

  /** The reports of all enemies handled in group order. */
  function AddReports(m: map<string, int>, reports: seq<Option<Tile>>): map<string, int>
    decreases |reports|
  {
    if reports == [] then m
    else Reported(AddReports(m, reports[..|reports| - 1]), reports[|reports| - 1])
  }

  /** Handling one report more: the fold over a prefix, one step further. */
  lemma AddReportsStep(m: map<string, int>, reports: seq<Option<Tile>>, i: nat)
    requires i < |reports|
    ensures AddReports(m, reports[..i + 1]) == Reported(AddReports(m, reports[..i]), reports[i])
  {
    assert reports[..i + 1][..i] == reports[..i];
  }

  /** How many of the reports name tile `t`. */
  function Hits(reports: seq<Option<Tile>>, t: Tile): nat
    decreases |reports|
  {
    if reports == [] then 0
    else Hits(reports[..|reports| - 1], t) + (if reports[|reports| - 1] == Some(t) then 1 else 0)
  }

  /** The keys of the tiles the reports name. */
  function ReportedKeys(reports: seq<Option<Tile>>): set<string>
    decreases |reports|
  {
    if reports == [] then {}
    else
      var last := reports[|reports| - 1];
      ReportedKeys(reports[..|reports| - 1]) + (if last.Some? then {Key(last.value)} else {})
  }

  /** Every tile's count rises by exactly the number of reports naming it. */
  lemma {:induction false} AddReportsCounts(m: map<string, int>, reports: seq<Option<Tile>>, t: Tile)
    ensures Count(AddReports(m, reports), Key(t)) == Count(m, Key(t)) + Hits(reports, t)
    decreases |reports|
  {
    if reports != [] {
      var n := |reports|;
      AddReportsCounts(m, reports[..n - 1], t);
      if reports[n - 1].Some? {
        KeyInjective(reports[n - 1].value, t);
      }
    }
  }

  /** The map gains exactly the keys of the reported tiles; the entries
      under every other key are untouched. */
  lemma {:induction false} AddReportsKeys(m: map<string, int>, reports: seq<Option<Tile>>)
    ensures AddReports(m, reports).Keys == m.Keys + ReportedKeys(reports)
    ensures forall k :: k in m && k !in ReportedKeys(reports) ==> AddReports(m, reports)[k] == m[k]
    decreases |reports|
  {
    if reports != [] {
      AddReportsKeys(m, reports[..|reports| - 1]);
    }
  }

  /** The shape of the map the scene keeps: keys it wrote itself, and counts of at least one. */
  ghost predicate WellFormed(m: map<string, int>) {
    forall k :: k in m ==> IsCanonicalKey(k) && m[k] >= 1
  }

  /** Handling reports keeps the map well formed. */
  lemma {:induction false} AddReportsWellFormed(m: map<string, int>, reports: seq<Option<Tile>>)
    requires WellFormed(m)
    ensures WellFormed(AddReports(m, reports))
    decreases |reports|
  {
    if reports != [] {
      var n := |reports|;
      AddReportsWellFormed(m, reports[..n - 1]);
      if reports[n - 1].Some? {
        assert IsCanonicalKey(Key(reports[n - 1].value));
      }
    }
  }

  /** The keys the destruction scan removes. */
  function Doomed(m: map<string, int>): set<string> {
    set k | k in m && m[k] >= DestroyThreshold
  }

  /** No tile is at or above the threshold. */
  ghost predicate Settled(m: map<string, int>) {
    forall k :: k in m ==> m[k] < DestroyThreshold
  }

  /** The map after the destruction scan. */
  function Settle(m: map<string, int>): (r: map<string, int>)
    ensures Settled(r)
    ensures forall k :: k in r <==> k in m && m[k] < DestroyThreshold
    ensures forall k :: k in r ==> r[k] == m[k]
    ensures WellFormed(m) ==> WellFormed(r)
  {
    m - Doomed(m)
  }

  /** The wall tiles the scan removes for a set of keys: those whose two
      coordinates parse. */
  function TilesOf(keys: set<string>): set<Tile> {
    set k | k in keys && DecodeKey(k).Some? :: DecodeKey(k).value
  }

  /** The bookkeeping of a scan over the keys of `m`: with `done` the
      doomed keys already handled and `remaining` the keys still to visit,
      visiting `k` moves it to `done` exactly when it is doomed. */
  lemma ScanVisit(m: map<string, int>, done: set<string>, remaining: set<string>, k: string)
    requires remaining <= m.Keys && done == Doomed(m) - remaining && k in remaining
    ensures m[k] >= DestroyThreshold ==> k !in done && done + {k} == Doomed(m) - (remaining - {k})
    ensures m[k] >= DestroyThreshold ==> |done + {k}| == |done| + 1
    ensures m[k] < DestroyThreshold ==> done == Doomed(m) - (remaining - {k})
  {
  }

  /** The tiles of two sets of keys together are the tiles of each. */
  lemma TilesOfUnion(a: set<string>, b: set<string>)
    ensures TilesOf(a + b) == TilesOf(a) + TilesOf(b)
  {
  }

  /** Once a tile's own count and the reports naming it reach three, the
      same frame's scan removes its key and its wall tile. */
  lemma ThirdReportDestroys(m: map<string, int>, reports: seq<Option<Tile>>, t: Tile)
    requires Count(m, Key(t)) + Hits(reports, t) >= DestroyThreshold
    ensures Key(t) in Doomed(AddReports(m, reports))
    ensures t in TilesOf(Doomed(AddReports(m, reports)))
    ensures Key(t) !in Settle(AddReports(m, reports))
  {
    AddReportsCounts(m, reports, t);
    KeyRoundTrip(t);
  }

  /** Three grabs on one tile of an undamaged wall in a single frame: the
      tile is destroyed and nothing stays in the map. */
  lemma ThreeGrabsOnOneTile(t: Tile)
    ensures Doomed(AddReports(map[], [Some(t), Some(t), Some(t)])) == {Key(t)}
    ensures TilesOf({Key(t)}) == {t}
    ensures Settle(AddReports(map[], [Some(t), Some(t), Some(t)])) == map[]
  {
    var r := [Some(t), Some(t), Some(t)];
    assert r[..2][..1] == [Some(t)] && r[..2] == [Some(t), Some(t)] && [Some(t)][..0] == [];
    assert AddReports(map[], [Some(t)]) == map[Key(t) := 1];
    assert AddReports(map[], r[..2]) == map[Key(t) := 2];
    assert AddReports(map[], r) == map[Key(t) := 3];
    KeyRoundTrip(t);
  }
}

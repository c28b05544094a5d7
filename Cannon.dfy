/** A turret: a cooldown counted down every frame and, once it has run out,
    one left-to-right pass over the enemies that keeps a running lowest hit
    points and a running closest distance, then one shot at the result. */
module Cannons {
  import opened Common

  const CannonCooldownMax: real := 0.2
  const InitialCannonCooldown: real := 1.0
  /** Starting values of the two running minima of the scan. */
  const NoHitpoints: int := 10000
  const NoDistance: real := 100000.0
  /** The head sits at this offset from the tower; shots aim at this offset from the target. */
  const HeadOffset: real := 4.0
  const AimOffset: real := 8.0
  const CannonShotSpeed: real := 400.0

  /** What the scan reads of one enemy: its hit points, its body position and
      its distance to the cannon's body, as the physics engine reports them. */
  datatype Sighting = Sighting(hitPoints: int, position: Vec, distance: real)

  /** The scan's running variables. */
  datatype Scan = Scan(lowestHitpoints: int, closestDistance: real, closest: Option<Vec>)

  /** The `forEach` body for one enemy: first the lowest hit points are
      updated, then the closest distance, compared against the lowest hit
      points as just updated. */
  function ScanStep(acc: Scan, e: Sighting): Scan {
    var low := if acc.lowestHitpoints > e.hitPoints then e.hitPoints else acc.lowestHitpoints;
    if acc.closestDistance > e.distance && e.hitPoints <= low then Scan(low, e.distance, Some(e.position))
    else Scan(low, acc.closestDistance, acc.closest)
  }

  /** The scan over enemies in group order. */
  function ScanAll(s: seq<Sighting>): Scan
    decreases |s|
  {
    if s == [] then Scan(NoHitpoints, NoDistance, None)
    else ScanStep(ScanAll(s[..|s| - 1]), s[|s| - 1])
  }

  /** The selection rule stated without the running variables: the last
      enemy of `p` qualifies when its hit points are at most 10000 and at
      most those of every earlier enemy, and its distance is below 100000
      and strictly below that of every earlier qualifying enemy. */
  ghost predicate Qualifies(p: seq<Sighting>)
    decreases |p|
  {
    && |p| > 0
    && p[|p| - 1].hitPoints <= NoHitpoints
    && p[|p| - 1].distance < NoDistance
    && (forall j :: 0 <= j < |p| - 1 ==> p[|p| - 1].hitPoints <= p[j].hitPoints)
    && (forall j :: 0 <= j < |p| - 1 ==> Qualifies(p[..j + 1]) ==> p[|p| - 1].distance < p[j].distance)
  }

  /** Enemy `i` of `s` qualifies, judged against the enemies before it. */
  ghost predicate Candidate(s: seq<Sighting>, i: int)
    requires 0 <= i < |s|
  {
    Qualifies(s[..i + 1])
  }

  /** What the running lowest hit points hold after scanning `s`: the
      smallest hit points seen, or 10000 when that is smaller. */
  ghost predicate LowestFacts(s: seq<Sighting>, low: int) {
    && low <= NoHitpoints
    && (forall j :: 0 <= j < |s| ==> low <= s[j].hitPoints)
    && (low == NoHitpoints || exists j :: 0 <= j < |s| && low == s[j].hitPoints)
  }

  /** `i` is the last qualifying enemy of `s`. */
  ghost predicate LastCandidate(s: seq<Sighting>, i: int) {
    && 0 <= i < |s|
    && Candidate(s, i)
    && forall j :: i < j < |s| ==> !Candidate(s, j)
  }

  /** What the running closest distance and position hold after scanning
      `s`: the position and distance of the last qualifying enemy, whose
      distance is the smallest of all qualifying ones; 100000 and nothing
      when none qualifies. */
  ghost predicate ClosestFacts(s: seq<Sighting>, a: Scan) {
    && (forall j :: 0 <= j < |s| && Candidate(s, j) ==> a.closestDistance <= s[j].distance)
    && (a.closest.None? ==> a.closestDistance == NoDistance && forall j :: 0 <= j < |s| ==> !Candidate(s, j))
    && (a.closest.Some? ==>
          exists i :: LastCandidate(s, i) && a.closest.value == s[i].position && a.closestDistance == s[i].distance)
  }

  ghost predicate ScanFacts(s: seq<Sighting>, a: Scan) {
    LowestFacts(s, a.lowestHitpoints) && ClosestFacts(s, a)
  }

  /** The hit-point comparison of one scan step agrees with the reference rule. */
  lemma LowestHitpointsTest(t: seq<Sighting>, low: int, e: Sighting)
    requires LowestFacts(t, low)
    ensures e.hitPoints <= (if low > e.hitPoints then e.hitPoints else low)
        <==> e.hitPoints <= NoHitpoints && forall j :: 0 <= j < |t| ==> e.hitPoints <= t[j].hitPoints
  {
    if low != NoHitpoints {
      var k :| 0 <= k < |t| && low == t[k].hitPoints;
    }
  }

  /** The distance comparison of one scan step agrees with the reference rule. */
  lemma ClosestDistanceTest(t: seq<Sighting>, a: Scan, e: Sighting)
    requires ClosestFacts(t, a)
    ensures a.closestDistance > e.distance
        <==> e.distance < NoDistance && forall j :: 0 <= j < |t| && Candidate(t, j) ==> e.distance < t[j].distance
  {
    if a.closest.Some? {
      var i :| LastCandidate(t, i) && a.closest.value == t[i].position && a.closestDistance == t[i].distance;
      assert t[..i + 1][i] == t[i];
    }
  }

  /** Appending an enemy leaves the verdict on every earlier enemy as it was. */
  lemma CandidatePrefix(s: seq<Sighting>, n: nat)
    requires n <= |s|
    ensures forall j :: 0 <= j < n ==> (Candidate(s, j) <==> Candidate(s[..n], j))
  {
    forall j | 0 <= j < n
      ensures Candidate(s, j) <==> Candidate(s[..n], j)
    {
      assert s[..j + 1] == s[..n][..j + 1];
    }
  }

  /** The last enemy qualifies exactly when the scan step takes it. */
  lemma StepQualifies(s: seq<Sighting>)
    requires |s| > 0
    requires ScanFacts(s[..|s| - 1], ScanAll(s[..|s| - 1]))
    ensures var a := ScanAll(s[..|s| - 1]);
            var e := s[|s| - 1];
            var low := if a.lowestHitpoints > e.hitPoints then e.hitPoints else a.lowestHitpoints;
            Candidate(s, |s| - 1) <==> a.closestDistance > e.distance && e.hitPoints <= low
  {
    var n := |s|;
    var t, e := s[..n - 1], s[n - 1];
    var a := ScanAll(t);
    CandidatePrefix(s, n - 1);
    LowestHitpointsTest(t, a.lowestHitpoints, e);
    ClosestDistanceTest(t, a, e);
    assert s[..n] == s;
    assert forall j :: 0 <= j < n - 1 ==> s[..j + 1] == t[..j + 1] && s[j] == t[j];
  }

  lemma LowestStep(t: seq<Sighting>, low: int, e: Sighting)
    requires LowestFacts(t, low)
    ensures LowestFacts(t + [e], if low > e.hitPoints then e.hitPoints else low)
  {
    var s := t + [e];
    if low != NoHitpoints && low <= e.hitPoints {
      var k :| 0 <= k < |t| && low == t[k].hitPoints;
      assert s[k] == t[k];
    }
    assert s[|t|] == e;
  }

  /** A qualifying enemy is closer than every earlier qualifying enemy. */
  lemma CandidateIsCloser(s: seq<Sighting>, i: int, j: int)
    requires 0 <= j < i < |s| && Candidate(s, i) && Candidate(s, j)
    ensures s[i].distance < s[j].distance
  {
    var p := s[..i + 1];
    assert p[..j + 1] == s[..j + 1] && p[j] == s[j] && p[|p| - 1] == s[i];
  }

  /** Scan step when the new enemy qualifies: it becomes the target. */
  lemma ClosestStepTaken(t: seq<Sighting>, a: Scan, e: Sighting, low: int)
    requires ClosestFacts(t, a)
    requires Candidate(t + [e], |t|)
    ensures ClosestFacts(t + [e], Scan(low, e.distance, Some(e.position)))
  {
    var s := t + [e];
    var n := |s|;
    var b := Scan(low, e.distance, Some(e.position));
    forall j | 0 <= j < n && Candidate(s, j)
      ensures b.closestDistance <= s[j].distance
    {
      if j < n - 1 {
        CandidateIsCloser(s, n - 1, j);
      }
    }
    assert LastCandidate(s, n - 1);
  }

  /** Scan step when the new enemy does not qualify: the target stays. */
  lemma ClosestStepSkipped(t: seq<Sighting>, a: Scan, e: Sighting, low: int)
    requires ClosestFacts(t, a)
    requires !Candidate(t + [e], |t|)
    ensures ClosestFacts(t + [e], Scan(low, a.closestDistance, a.closest))
  {
    var s := t + [e];
    var n := |s|;
    var b := Scan(low, a.closestDistance, a.closest);
    assert s[..n - 1] == t;
    CandidatePrefix(s, n - 1);
    forall j | 0 <= j < n && Candidate(s, j)
      ensures b.closestDistance <= s[j].distance
    {
      assert j < n - 1 && Candidate(t, j) && s[j] == t[j];
    }
    if a.closest.None? {
      forall j | 0 <= j < n
        ensures !Candidate(s, j)
      {
        if j < n - 1 {
          assert !Candidate(t, j);
        }
      }
    } else {
      var i :| LastCandidate(t, i) && a.closest.value == t[i].position && a.closestDistance == t[i].distance;
      forall j | i < j < n
        ensures !Candidate(s, j)
      {
        if j < n - 1 {
          assert !Candidate(t, j);
        }
      }
      assert Candidate(s, i) && s[i] == t[i];
      assert LastCandidate(s, i);
    }
  }

  lemma ClosestStep(t: seq<Sighting>, a: Scan, e: Sighting)
    requires ScanFacts(t, a)
    requires ScanAll(t) == a
    ensures ClosestFacts(t + [e], ScanStep(a, e))
  {
    var s := t + [e];
    assert s[..|s| - 1] == t && s[|s| - 1] == e;
    StepQualifies(s);
    var low := if a.lowestHitpoints > e.hitPoints then e.hitPoints else a.lowestHitpoints;
    if Candidate(s, |t|) {
      ClosestStepTaken(t, a, e, low);
    } else {
      ClosestStepSkipped(t, a, e, low);
    }
  }

  lemma {:induction false} ScanAllFacts(s: seq<Sighting>)
    ensures ScanFacts(s, ScanAll(s))
    decreases |s|
  {
    if s != [] {
      var n := |s|;
      var t, e := s[..n - 1], s[n - 1];
      assert s == t + [e];
      ScanAllFacts(t);
      LowestStep(t, ScanAll(t).lowestHitpoints, e);
      ClosestStep(t, ScanAll(t), e);
    }
  }

  /** The scan picks the LAST qualifying enemy in group order, and picks
      nothing only when no enemy qualifies. */
  lemma ScanPicksLastQualifier(s: seq<Sighting>)
    ensures ScanAll(s).closest.None? <==> forall j :: 0 <= j < |s| ==> !Candidate(s, j)
    ensures ScanAll(s).closest.Some? ==>
      exists i :: LastCandidate(s, i) && ScanAll(s).closest.value == s[i].position
  {
    ScanAllFacts(s);
  }

  /** The first enemy scanned always qualifies unless its hit points or its
      distance are at the sentinels, so some target is then chosen. */
  lemma FirstEnemyGivesTarget(s: seq<Sighting>)
    requires |s| > 0 && s[0].hitPoints <= NoHitpoints && s[0].distance < NoDistance
    ensures ScanAll(s).closest.Some?
  {
    ScanAllFacts(s);
    assert Candidate(s, 0);
  }

  /** The chosen target is not always the weakest enemy: a weaker enemy
      scanned after a closer one is not chosen. */
  lemma WeakerLaterEnemyNotChosen()
    ensures ScanAll([Sighting(4, Vec(0.0, 0.0), 10.0), Sighting(2, Vec(40.0, 0.0), 50.0)]).closest
         == Some(Vec(0.0, 0.0))
  {
    var s := [Sighting(4, Vec(0.0, 0.0), 10.0), Sighting(2, Vec(40.0, 0.0), 50.0)];
    assert s[..1] == [s[0]];
    assert ScanAll(s[..1]).closest == Some(Vec(0.0, 0.0));
  }

  /** The shot a cannon fires from its head at a target position. */
  function AimedShot(head: Vec, target: Vec): Shot {
    Shot(head, Vec(target.x + AimOffset, target.y + AimOffset), CannonShotSpeed)
  }

  /** The `forEach` pass of `update`, returning `closestEnemyPosition`. */
  method ScanEnemies(sightings: seq<Sighting>) returns (target: Option<Vec>)
    ensures target == ScanAll(sightings).closest
  {
    var lowestHitpoints := NoHitpoints;
    var closestDistance := NoDistance;
    target := None;
    var i := 0;
    while i < |sightings|
      invariant 0 <= i <= |sightings|
      invariant ScanAll(sightings[..i]) == Scan(lowestHitpoints, closestDistance, target)
    {
      var e := sightings[i];
      if lowestHitpoints > e.hitPoints {
        lowestHitpoints := e.hitPoints;
      }
      if closestDistance > e.distance && e.hitPoints <= lowestHitpoints {
        closestDistance := e.distance;
        target := Some(e.position);
      }
      assert sightings[..i + 1][..i] == sightings[..i];
      i := i + 1;
    }
    assert sightings[..i] == sightings;
  }

  class Cannon {
    var x: real
    var y: real
    var head: Vec
    var cannonCooldown: real
    var ammo: AmmoGroup

    constructor (x: real, y: real, ammo: AmmoGroup)
      ensures this.x == x && this.y == y && this.ammo == ammo
      ensures head == Vec(x + HeadOffset, y + HeadOffset)
      ensures cannonCooldown == InitialCannonCooldown
    {
      this.x, this.y := x, y;
      this.ammo := ammo;
      head := Vec(x + HeadOffset, y + HeadOffset);
      cannonCooldown := InitialCannonCooldown;
    }

    /** `update(time, delta)`: the head follows the tower, the cooldown drops
        by delta/1000, and once it is negative the scan runs; a found target
        resets the cooldown to 0.2 and adds exactly one shot to the ammo group,
        otherwise the cooldown stays negative and nothing is fired. */
    method Update(delta: real, sightings: seq<Sighting>)
      modifies this, ammo
      ensures x == old(x) && y == old(y) && ammo == old(ammo)
      ensures head == Vec(x + HeadOffset, y + HeadOffset)
      ensures var cooled := old(cannonCooldown) - delta / 1000.0;
              var target := ScanAll(sightings).closest;
              if cooled < 0.0 && target.Some? then
                cannonCooldown == CannonCooldownMax && ammo.shots == old(ammo.shots) + [AimedShot(head, target.value)]
              else
                cannonCooldown == cooled && ammo.shots == old(ammo.shots)
    {
      head := Vec(x + HeadOffset, y + HeadOffset);
      cannonCooldown := cannonCooldown - delta / 1000.0;
      if cannonCooldown < 0.0 {
        var target := ScanEnemies(sightings);
        if target.Some? {
          cannonCooldown := CannonCooldownMax;
          ammo.Add(AimedShot(head, target.value));
        }
      }
    }
  }
}

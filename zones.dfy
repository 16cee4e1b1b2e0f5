/** Proximity of the price to configured support/resistance zones
    (`nearest_zone` in signal_engine.py). */
module Zones {
  import opened Common

  /** A configured zone: a label and its reference price. */
  datatype Zone = Zone(name: string, level: real)

  /** A matched zone with the relative distance that was computed for it. */
  datatype ZoneHit = ZoneHit(name: string, level: real, dist: real)

  predicate NonZeroLevels(zones: seq<Zone>) {
    forall i :: 0 <= i < |zones| ==> zones[i].level != 0.0
  }

  /** Relative distance `|price - level| / level`; negative when the level is. */
  function Distance(price: real, z: Zone): real
    requires z.level != 0.0
  {
    Abs(price - z.level) / z.level
  }

  function HitOf(price: real, z: Zone): ZoneHit
    requires z.level != 0.0
  {
    ZoneHit(z.name, z.level, Distance(price, z))
  }

  /** Zone `k` has the least distance, and every zone listed before it is
      strictly farther. */
  ghost predicate IsFirstClosest(price: real, zones: seq<Zone>, k: nat)
    requires NonZeroLevels(zones)
  {
    k < |zones| &&
    (forall j :: 0 <= j < |zones| ==> Distance(price, zones[k]) <= Distance(price, zones[j])) &&
    (forall j :: 0 <= j < k ==> Distance(price, zones[j]) > Distance(price, zones[k]))
  }

  /** Index of the zone kept by a left-to-right scan of the first `n` zones
      that replaces its best only on a strictly smaller distance. */
  function FirstClosest(price: real, zones: seq<Zone>, n: nat): (k: nat)
    requires 0 < n <= |zones|
    requires forall i :: 0 <= i < n ==> zones[i].level != 0.0
    ensures k < n
    ensures forall j :: 0 <= j < n ==> Distance(price, zones[k]) <= Distance(price, zones[j])
    ensures forall j :: 0 <= j < k ==> Distance(price, zones[j]) > Distance(price, zones[k])
  {
    if n == 1 then 0
    else
      var b := FirstClosest(price, zones, n - 1);
      if Distance(price, zones[n - 1]) < Distance(price, zones[b]) then n - 1 else b
  }

  /** What `nearest_zone` produces: it raises on a zero level, returns None for
      no zones or when even the closest zone is beyond `proximityPct`, and
      otherwise the earliest closest zone. */
  function ZoneMatch(price: real, zones: seq<Zone>, proximityPct: real): (r: Outcome<Option<ZoneHit>>)
    ensures r.ZeroDivisionError? <==> !NonZeroLevels(zones)
    ensures |zones| == 0 ==> r == Returned(None)
    ensures r.Returned? && r.value.Some? ==>
              exists k :: 0 <= k < |zones| && IsFirstClosest(price, zones, k) &&
                          r.value.value == HitOf(price, zones[k]) && r.value.value.dist <= proximityPct
    ensures r == Returned(None) ==>
              forall j :: 0 <= j < |zones| ==> Distance(price, zones[j]) > proximityPct
  {
    if !NonZeroLevels(zones) then ZeroDivisionError
    else if |zones| == 0 then Returned(None)
    else
      var k := FirstClosest(price, zones, |zones|);
      assert IsFirstClosest(price, zones, k);
      if Distance(price, zones[k]) <= proximityPct then Returned(Some(HitOf(price, zones[k])))
      else Returned(None)
  }

  /** `nearest_zone`: a scan keeping the first zone of least distance, then the
      proximity test. A zero level raises when the scan reaches it. */
  method NearestZone(price: real, zones: seq<Zone>, proximityPct: real)
    returns (r: Outcome<Option<ZoneHit>>)
    ensures r == ZoneMatch(price, zones, proximityPct)
  {
    if |zones| == 0 {
      return Returned(None);
    }
    var best: Option<ZoneHit> := None;
    var i := 0;
    while i < |zones|
      invariant i <= |zones|
      invariant forall j :: 0 <= j < i ==> zones[j].level != 0.0
      invariant i == 0 <==> best.None?
      invariant i > 0 ==> best == Some(HitOf(price, zones[FirstClosest(price, zones, i)]))
    {
      var z := zones[i];
      if z.level == 0.0 {
        return ZeroDivisionError;
      }
      var dist := Abs(price - z.level) / z.level;
      if best.None? || dist < best.value.dist {
        best := Some(ZoneHit(z.name, z.level, dist));
      }
      i := i + 1;
    }
    if best.Some? && best.value.dist <= proximityPct {
      return Returned(best);
    }
    return Returned(None);
  }

  /** Ties go to the zone listed first. */
  lemma TieGoesToFirst(price: real, a: Zone, b: Zone, proximityPct: real)
    requires a.level != 0.0 && b.level != 0.0
    requires Distance(price, a) == Distance(price, b) <= proximityPct
    ensures ZoneMatch(price, [a, b], proximityPct) == Returned(Some(HitOf(price, a)))
  {
    assert FirstClosest(price, [a, b], 1) == 0;
  }
}

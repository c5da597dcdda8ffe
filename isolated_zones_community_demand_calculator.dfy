/** The demand calculation of a community whose zones are calculated one by
    one: every zone of the community that is to be populated and does not
    lie in the outlying area is handed to the zone calculator, with the
    impedance the caller gave. */
module IsolatedZonesCommunityDemandCalculators {
  import opened Collections
  import opened Domain

  /** A community zone that is calculated. */
  function ZonesToGenerate(zone: DemandZone): bool {
    zone.shouldGeneratePopulation && OutlyingArea != zone.zone.classification
  }

  /** The zone calculator's calculation for a sequence of zones, in order. */
  function Calculations<I>(zones: seq<DemandZone>, impedance: I): (calls: seq<ZoneCalculatorCall<I>>)
    ensures |calls| == |zones|
    ensures forall k :: 0 <= k < |zones| ==> calls[k] == CalculateDemandData(zones[k], impedance)
  {
    seq(|zones|, k requires 0 <= k < |zones| => CalculateDemandData(zones[k], impedance))
  }

  /** The calls the zone calculator receives for a community whose zones
      are given in the order the community yields them. */
  method CalculateCommunityDemand<I>(community: seq<DemandZone>, impedance: I) returns (calls: seq<ZoneCalculatorCall<I>>)
    ensures calls == Calculations(Filter(community, ZonesToGenerate), impedance)
  {
    calls := [];
    for i := 0 to |community|
      invariant calls == Calculations(Filter(community[..i], ZonesToGenerate), impedance)
    {
      FilterSnoc(community[..i], community[i], ZonesToGenerate);
      assert community[..i + 1] == community[..i] + [community[i]];
      if ZonesToGenerate(community[i]) {
        calls := calls + [CalculateDemandData(community[i], impedance)];
      }
    }
    assert community[..|community|] == community;
  }

  lemma {:induction false} FilterSnoc<T(!new)>(s: seq<T>, x: T, p: T -> bool)
    ensures Filter(s + [x], p) == Filter(s, p) + (if p(x) then [x] else [])
  {
    if |s| == 0 {
      assert s + [x] == [x];
      assert [x][1..] == [];
    } else {
      assert (s + [x])[1..] == s[1..] + [x];
      FilterSnoc(s[1..], x, p);
    }
  }

  /** A zone is calculated exactly when it is in the community and is to be
      generated; it is calculated as often as the community yields it, each
      time with the given impedance, and an outlying zone never is. */
  lemma CalculatedExactly<I>(community: seq<DemandZone>, impedance: I, zone: DemandZone)
    ensures CalculateDemandData(zone, impedance) in Calculations(Filter(community, ZonesToGenerate), impedance)
      <==> zone in community && ZonesToGenerate(zone)
    ensures zone.zone.classification == OutlyingArea ==>
      forall c :: c in Calculations(Filter(community, ZonesToGenerate), impedance) ==> c.zone != zone
    ensures forall c :: c in Calculations(Filter(community, ZonesToGenerate), impedance) ==> c.impedance == impedance
    ensures multiset(Filter(community, ZonesToGenerate))[zone] ==
      if ZonesToGenerate(zone) then multiset(community)[zone] else 0
  {
    var calls := Calculations(Filter(community, ZonesToGenerate), impedance);
    if CalculateDemandData(zone, impedance) in calls {
      var k :| 0 <= k < |calls| && calls[k] == CalculateDemandData(zone, impedance);
      assert Filter(community, ZonesToGenerate)[k] == zone;
    }
    if zone in community && ZonesToGenerate(zone) {
      var filtered := Filter(community, ZonesToGenerate);
      var k :| 0 <= k < |filtered| && filtered[k] == zone;
      assert calls[k] == CalculateDemandData(zone, impedance);
    }
    FilterMultiset(community, ZonesToGenerate, zone);
  }
}

/** The population synthesis over single zones: first every zone that is to
    be populated is calculated and saved, then every other zone is saved
    with its attributes only. The calls the zone calculator receives are the
    result; the log lines are not modelled. */
module SingleZoneDemandCalculators {
  import opened Collections
  import opened Domain

  function ShouldGenerate(zone: DemandZone): bool { zone.shouldGeneratePopulation }
  function ShouldNotGenerate(zone: DemandZone): bool { !zone.shouldGeneratePopulation }

  /** The first pass: calculate, then save, each zone to be populated. */
  function CalculatePass<I>(zones: seq<DemandZone>, impedance: I): seq<ZoneCalculatorCall<I>> {
    if |zones| == 0 then []
    else (if ShouldGenerate(zones[0]) then [CalculateDemandData(zones[0], impedance), SaveDemandData(zones[0])] else [])
         + CalculatePass(zones[1..], impedance)
  }

  /** The second pass: save each zone not to be populated. */
  function SavePass<I>(zones: seq<DemandZone>): seq<ZoneCalculatorCall<I>> {
    if |zones| == 0 then []
    else (if ShouldNotGenerate(zones[0]) then [SaveDemandData(zones[0])] else []) + SavePass(zones[1..])
  }

  /** The zones the calls save, with multiplicity. */
  function SavedZones<I>(calls: seq<ZoneCalculatorCall<I>>): multiset<DemandZone> {
    if |calls| == 0 then multiset{}
    else (if calls[0].SaveDemandData? then multiset{calls[0].zone} else multiset{}) + SavedZones(calls[1..])
  }

  /** The zones the calls calculate, in call order. */
  function CalculatedZones<I>(calls: seq<ZoneCalculatorCall<I>>): seq<DemandZone> {
    if |calls| == 0 then []
    else (if calls[0].CalculateDemandData? then [calls[0].zone] else []) + CalculatedZones(calls[1..])
  }

  class SingleZoneDemandCalculator<I> {
    const zones: seq<DemandZone>
    const impedance: I

    constructor (zones: seq<DemandZone>, impedance: I)
      ensures this.zones == zones && this.impedance == impedance
    {
      this.zones := zones;
      this.impedance := impedance;
    }

    /** The calls made on the zone calculator, in order: both passes. */
    method CalculateDemand() returns (calls: seq<ZoneCalculatorCall<I>>)
      ensures calls == CalculatePass(zones, impedance) + SavePass(zones)
      ensures SavedZones(calls) == multiset(zones)
      ensures CalculatedZones(calls) == Filter(zones, ShouldGenerate)
    {
      var populated := CalculateDemandFor();
      var unpopulated := SaveZoneAttributesOf();
      calls := populated + unpopulated;
      EveryZoneSavedOnce(zones, impedance);
      OnlyPopulatedZonesCalculated(zones, impedance);
    }

    method CalculateDemandFor() returns (calls: seq<ZoneCalculatorCall<I>>)
      ensures calls == CalculatePass(zones, impedance)
    {
      calls := [];
      for i := 0 to |zones|
        invariant calls + CalculatePass(zones[i..], impedance) == CalculatePass(zones, impedance)
      {
        var step: seq<ZoneCalculatorCall<I>> := if ShouldGenerate(zones[i])
          then [CalculateDemandData(zones[i], impedance), SaveDemandData(zones[i])] else [];
        assert zones[i..][1..] == zones[i + 1..];
        assert CalculatePass(zones[i..], impedance) == step + CalculatePass(zones[i + 1..], impedance);
        calls := calls + step;
      }
    }

    method SaveZoneAttributesOf() returns (calls: seq<ZoneCalculatorCall<I>>)
      ensures calls == SavePass(zones)
    {
      calls := [];
      for i := 0 to |zones|
        invariant calls + SavePass(zones[i..]) == SavePass(zones)
      {
        var step: seq<ZoneCalculatorCall<I>> := if ShouldNotGenerate(zones[i]) then [SaveDemandData(zones[i])] else [];
        assert zones[i..][1..] == zones[i + 1..];
        assert SavePass<I>(zones[i..]) == step + SavePass(zones[i + 1..]);
        calls := calls + step;
      }
    }
  }

  lemma {:induction false} SavedZonesAppend<I>(a: seq<ZoneCalculatorCall<I>>, b: seq<ZoneCalculatorCall<I>>)
    ensures SavedZones(a + b) == SavedZones(a) + SavedZones(b)
  {
    if |a| == 0 {
      assert a + b == b;
    } else {
      assert (a + b)[1..] == a[1..] + b;
      SavedZonesAppend(a[1..], b);
    }
  }

  lemma {:induction false} CalculatedZonesAppend<I>(a: seq<ZoneCalculatorCall<I>>, b: seq<ZoneCalculatorCall<I>>)
    ensures CalculatedZones(a + b) == CalculatedZones(a) + CalculatedZones(b)
  {
    if |a| == 0 {
      assert a + b == b;
    } else {
      var head := if a[0].CalculateDemandData? then [a[0].zone] else [];
      assert (a + b)[0] == a[0] && (a + b)[1..] == a[1..] + b;
      assert CalculatedZones(a + b) == head + CalculatedZones(a[1..] + b);
      CalculatedZonesAppend(a[1..], b);
      assert CalculatedZones(a) == head + CalculatedZones(a[1..]);
    }
  }

  /** The two passes together save every zone of the repository exactly as
      often as it occurs there: the predicates are complementary. */
  lemma {:induction false} EveryZoneSavedOnce<I>(zones: seq<DemandZone>, impedance: I)
    ensures SavedZones(CalculatePass(zones, impedance) + SavePass(zones)) == multiset(zones)
  {
    SavedZonesAppend(CalculatePass(zones, impedance), SavePass<I>(zones));
    SavedPerPass(zones, impedance);
  }

  lemma {:induction false} SavedPerPass<I>(zones: seq<DemandZone>, impedance: I)
    ensures SavedZones(CalculatePass(zones, impedance)) + SavedZones(SavePass<I>(zones)) == multiset(zones)
  {
    if |zones| > 0 {
      SavedPerPass(zones[1..], impedance);
      var head: seq<ZoneCalculatorCall<I>> :=
        if ShouldGenerate(zones[0]) then [CalculateDemandData(zones[0], impedance), SaveDemandData(zones[0])] else [];
      var saveHead: seq<ZoneCalculatorCall<I>> := if ShouldNotGenerate(zones[0]) then [SaveDemandData(zones[0])] else [];
      SavedZonesAppend(head, CalculatePass(zones[1..], impedance));
      SavedZonesAppend(saveHead, SavePass<I>(zones[1..]));
      assert zones == [zones[0]] + zones[1..];
    }
  }

  /** Exactly the zones to be populated are calculated, in repository order. */
  lemma {:induction false} OnlyPopulatedZonesCalculated<I>(zones: seq<DemandZone>, impedance: I)
    ensures CalculatedZones(CalculatePass(zones, impedance) + SavePass(zones)) == Filter(zones, ShouldGenerate)
  {
    CalculatedZonesAppend(CalculatePass(zones, impedance), SavePass<I>(zones));
    CalculatePassCalculates(zones, impedance);
    SavePassCalculatesNothing<I>(zones);
  }

  lemma {:induction false} CalculatePassCalculates<I>(zones: seq<DemandZone>, impedance: I)
    ensures CalculatedZones(CalculatePass(zones, impedance)) == Filter(zones, ShouldGenerate)
  {
    if |zones| > 0 {
      CalculatePassCalculates(zones[1..], impedance);
      var head: seq<ZoneCalculatorCall<I>> :=
        if ShouldGenerate(zones[0]) then [CalculateDemandData(zones[0], impedance), SaveDemandData(zones[0])] else [];
      CalculatedZonesAppend(head, CalculatePass(zones[1..], impedance));
      if ShouldGenerate(zones[0]) {
        assert head[1..][1..] == [];
      }
    }
  }

  lemma {:induction false} SavePassCalculatesNothing<I>(zones: seq<DemandZone>)
    ensures CalculatedZones(SavePass<I>(zones)) == []
  {
    if |zones| > 0 {
      SavePassCalculatesNothing<I>(zones[1..]);
      var head: seq<ZoneCalculatorCall<I>> := if ShouldNotGenerate(zones[0]) then [SaveDemandData(zones[0])] else [];
      CalculatedZonesAppend(head, SavePass<I>(zones[1..]));
    }
  }

  /** The passes are separated: every call of the first pass is about a zone
      to be populated, every call of the second is a save of a zone not to be
      populated; in the first pass each calculation is followed at once by
      the save of the same zone. */
  lemma {:induction false} PassesAreSeparated<I>(zones: seq<DemandZone>, impedance: I)
    ensures forall c :: c in CalculatePass(zones, impedance) ==> ShouldGenerate(c.zone) && c.zone in zones
    ensures forall c :: c in SavePass<I>(zones) ==> c.SaveDemandData? && !ShouldGenerate(c.zone) && c.zone in zones
    ensures forall k :: 0 <= k < |CalculatePass(zones, impedance)| && CalculatePass(zones, impedance)[k].CalculateDemandData? ==>
      k + 1 < |CalculatePass(zones, impedance)| &&
      CalculatePass(zones, impedance)[k + 1] == SaveDemandData(CalculatePass(zones, impedance)[k].zone)
  {
    if |zones| > 0 {
      PassesAreSeparated(zones[1..], impedance);
      var head: seq<ZoneCalculatorCall<I>> :=
        if ShouldGenerate(zones[0]) then [CalculateDemandData(zones[0], impedance), SaveDemandData(zones[0])] else [];
      var rest := CalculatePass(zones[1..], impedance);
      assert CalculatePass(zones, impedance) == head + rest;
      forall k | 0 <= k < |head + rest| && (head + rest)[k].CalculateDemandData?
        ensures k + 1 < |head + rest| && (head + rest)[k + 1] == SaveDemandData((head + rest)[k].zone)
      {
        if k >= |head| {
          assert (head + rest)[k] == rest[k - |head|];
          assert (head + rest)[k + 1] == rest[k - |head| + 1];
        }
      }
    }
  }
}

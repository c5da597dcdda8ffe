/** The rules that narrow the modes a person may choose for the next trip.
    Choice sets are insertion-ordered sets of modes: sequences without
    repetitions, in the order the modes were first added.

    The impedance (distances and travel times between zones), the person's
    mode attributes and the classification of modes into flexible modes and
    fixed modes are not part of this model; they are parameters. Distances
    and travel times are reals. */
module ModeAvailability {
  import opened Wrappers
  import opened Time
  import opened Domain

  /** The farthest round trip, in km, for which walking stays available. */
  const MaxWalkDistance: real := 3.0
  /** Travel times of a day or longer, in minutes, are not reasonable. */
  const MaxTravelTime: real := 1440.0

  /** What the mode availability reads of the person. */
  datatype ModeChoicePerson = ModeChoicePerson(hasBike: bool, hasDrivingLicense: bool, household: Household)

  /** The car is available to a person with a driving licence in a household
      with at least one available car. */
  function CarAvailable(person: ModeChoicePerson): (available: bool)
    ensures available <==> person.hasDrivingLicense && person.household.availableCars >= 1
  {
    person.hasDrivingLicense && person.household.availableCars > 0
  }

  predicate Distinct(s: seq<Mode>) {
    forall i, j :: 0 <= i < j < |s| ==> s[i] != s[j]
  }

  /** The insertion-ordered set built from a collection: first occurrences,
      in order. */
  function Dedup(s: seq<Mode>): (r: seq<Mode>)
    ensures Distinct(r)
    ensures forall m :: m in r <==> m in s
  {
    if |s| == 0 then []
    else
      var d := Dedup(s[..|s| - 1]);
      assert forall m :: m in s <==> m in s[..|s| - 1] || m == s[|s| - 1];
      if s[|s| - 1] in d then d else d + [s[|s| - 1]]
  }

  /** Adding to an insertion-ordered set: appended unless present. */
  function Add(s: seq<Mode>, m: Mode): (r: seq<Mode>)
    ensures Distinct(s) ==> Distinct(r)
    ensures forall x :: x in r <==> x in s || x == m
  {
    if m in s then s else s + [m]
  }

  /** Removing a set of modes, keeping the order of the rest. */
  function RemoveAll(s: seq<Mode>, xs: set<Mode>): (r: seq<Mode>)
    ensures forall m :: m in r <==> m in s && m !in xs
    ensures |r| <= |s|
  {
    if |s| == 0 then []
    else (if s[0] in xs then [] else [s[0]]) + RemoveAll(s[1..], xs)
  }

  lemma {:induction false} RemoveAllKeepsDistinct(s: seq<Mode>, xs: set<Mode>)
    requires Distinct(s)
    ensures Distinct(RemoveAll(s, xs))
  {
    if |s| > 0 {
      RemoveAllKeepsDistinct(s[1..], xs);
      assert s[0] !in s[1..];
    }
  }

  /** Removing one set after another removes their union. */
  lemma {:induction false} RemoveAllTwice(s: seq<Mode>, xs: set<Mode>, ys: set<Mode>)
    ensures RemoveAll(RemoveAll(s, xs), ys) == RemoveAll(s, xs + ys)
  {
    if |s| > 0 {
      RemoveAllTwice(s[1..], xs, ys);
      var head := if s[0] in xs then [] else [s[0]];
      assert RemoveAll(s, xs) == head + RemoveAll(s[1..], xs);
      RemoveAllAppend(head, RemoveAll(s[1..], xs), ys);
    }
  }

  lemma {:induction false} RemoveAllAppend(a: seq<Mode>, b: seq<Mode>, xs: set<Mode>)
    ensures RemoveAll(a + b, xs) == RemoveAll(a, xs) + RemoveAll(b, xs)
  {
    if |a| == 0 {
      assert a + b == b;
    } else {
      assert (a + b)[0] == a[0] && (a + b)[1..] == a[1..] + b;
      RemoveAllAppend(a[1..], b, xs);
    }
  }

  /** The modes taken out of a choice set at home. */
  function RemovedAtHome(carAvailable: bool, hasBike: bool): set<Mode> {
    {CarsharingFree, CarsharingStation} + (if carAvailable then {} else {Car}) + (if hasBike then {} else {Bike})
  }

  /** The available modes for a trip starting at an activity:
      - car-sharing is never offered, except as a fixed mode kept from before;
      - at home the car needs a licence and a free household car, the bike
        needs a bike;
      - away from home, a flexible main mode of the previous trip excludes
        the fixed modes, and a fixed one is the only choice. */
  function AvailableModesOf(
    allModes: seq<Mode>, atHome: bool, carAvailable: bool, hasBike: bool,
    previousMainMode: Mode, previousIsFlexible: bool, fixedModes: set<Mode>): (r: seq<Mode>)
    ensures Distinct(r)
    ensures atHome || previousIsFlexible ==> forall m :: m in r ==> m in allModes && m != CarsharingFree && m != CarsharingStation
    ensures !atHome && !previousIsFlexible ==> r == [previousMainMode]
  {
    RemoveAllKeepsDistinct(Dedup(allModes), RemovedAtHome(carAvailable, hasBike));
    RemoveAllKeepsDistinct(Dedup(allModes), {CarsharingFree, CarsharingStation} + fixedModes);
    if atHome then RemoveAll(Dedup(allModes), RemovedAtHome(carAvailable, hasBike))
    else if previousIsFlexible then RemoveAll(Dedup(allModes), {CarsharingFree, CarsharingStation} + fixedModes)
    else [previousMainMode]
  }

  /** At home the choice set is a set of the given modes without car-sharing,
      with the car exactly when one is available and the bike exactly when
      the person has one; every other mode is kept. */
  lemma AtHomeChoiceSet(allModes: seq<Mode>, carAvailable: bool, hasBike: bool, previousMainMode: Mode, fixedModes: set<Mode>)
    ensures var r := AvailableModesOf(allModes, true, carAvailable, hasBike, previousMainMode, false, fixedModes);
      Distinct(r) &&
      CarsharingFree !in r && CarsharingStation !in r &&
      (Car in r <==> Car in allModes && carAvailable) &&
      (Bike in r <==> Bike in allModes && hasBike) &&
      forall m :: m != Car && m != Bike && m != CarsharingFree && m != CarsharingStation ==> (m in r <==> m in allModes)
  {
    RemoveAllKeepsDistinct(Dedup(allModes), RemovedAtHome(carAvailable, hasBike));
  }

  /** Away from home after a flexible mode the choice set is a set of the
      given modes without car-sharing and without the fixed modes. */
  lemma FlexibleChoiceSet(allModes: seq<Mode>, carAvailable: bool, hasBike: bool, previousMainMode: Mode, fixedModes: set<Mode>)
    ensures var r := AvailableModesOf(allModes, false, carAvailable, hasBike, previousMainMode, true, fixedModes);
      Distinct(r) &&
      forall m :: m in r <==> m in allModes && m !in fixedModes && m != CarsharingFree && m != CarsharingStation
  {
    RemoveAllKeepsDistinct(Dedup(allModes), {CarsharingFree, CarsharingStation} + fixedModes);
  }

  /** The planned round trip from the origin via the destination and the next
      fixed destination back home, in km. */
  function WalkDistance(distance: (ZoneId, ZoneId) -> real, factor: real,
                        origin: ZoneId, destination: ZoneId, nextPole: ZoneId, homeZone: ZoneId): (km: real)
    ensures (forall a, b :: distance(a, b) >= 0.0) && factor >= 0.0 ==> km >= 0.0
  {
    (distance(origin, destination) + distance(destination, nextPole) + distance(nextPole, homeZone)) * factor
  }

  /** The state of the search for the fastest mode: None stands for no mode
      and an infinite time. */
  datatype Fastest = Fastest(mode: Option<Mode>, time: Option<real>)

  /** One step of the search: a time no worse than the best so far becomes the
      best time; the mode is replaced when it is strictly faster or when the
      current fastest mode is PASSENGER. */
  function FastestStep(f: Fastest, m: Mode, t: real): Fastest {
    if f.time.None? || t <= f.time.value then
      Fastest(if f.time.None? || t < f.time.value || f.mode == Some(Passenger) then Some(m) else f.mode, Some(t))
    else f
  }

  class BasicModeAvailabilityModel {
    const distance: (ZoneId, ZoneId) -> real
    const travelTime: (ZoneId, ZoneId, Mode, SimpleTime) -> real
    const distanceToKmFactor: real
    const mainMode: Mode -> Mode
    const isFlexible: Mode -> bool
    const fixedModes: set<Mode>

    constructor (
      distance: (ZoneId, ZoneId) -> real, travelTime: (ZoneId, ZoneId, Mode, SimpleTime) -> real,
      distanceToKmFactor: real, mainMode: Mode -> Mode, isFlexible: Mode -> bool, fixedModes: set<Mode>)
      ensures this.distance == distance && this.travelTime == travelTime
      ensures this.distanceToKmFactor == distanceToKmFactor
      ensures this.mainMode == mainMode && this.isFlexible == isFlexible && this.fixedModes == fixedModes
    {
      this.distance := distance;
      this.travelTime := travelTime;
      this.distanceToKmFactor := distanceToKmFactor;
      this.mainMode := mainMode;
      this.isFlexible := isFlexible;
      this.fixedModes := fixedModes;
    }

    function PreviousMainMode(previousActivity: Activity): Mode
      requires previousActivity.mode.Some?
      reads previousActivity
    {
      mainMode(previousActivity.mode.value)
    }

    /** Away from home the previous activity must have been reached by some
        mode. */
    method AvailableModes(person: ModeChoicePerson, previousActivity: Activity, allModes: seq<Mode>) returns (choiceSet: seq<Mode>)
      requires !previousActivity.activityType.IsHomeActivity() ==> previousActivity.mode.Some?
      ensures Distinct(choiceSet)
      ensures previousActivity.activityType.IsHomeActivity() ==>
        choiceSet == AvailableModesOf(allModes, true, CarAvailable(person), person.hasBike, Car, false, fixedModes)
      ensures !previousActivity.activityType.IsHomeActivity() ==>
        choiceSet == AvailableModesOf(allModes, false, CarAvailable(person), person.hasBike,
          PreviousMainMode(previousActivity), isFlexible(PreviousMainMode(previousActivity)), fixedModes)
    {
      choiceSet := Dedup(allModes);
      choiceSet := RemoveAll(choiceSet, {CarsharingFree});
      choiceSet := RemoveAll(choiceSet, {CarsharingStation});
      RemoveAllTwice(Dedup(allModes), {CarsharingFree}, {CarsharingStation});
      var removed: set<Mode> := {CarsharingFree} + {CarsharingStation};
      if previousActivity.activityType.IsHomeActivity() {
        if !CarAvailable(person) {
          RemoveAllTwice(Dedup(allModes), removed, {Car});
          choiceSet := RemoveAll(choiceSet, {Car});
          removed := removed + {Car};
        }
        if !person.hasBike {
          RemoveAllTwice(Dedup(allModes), removed, {Bike});
          choiceSet := RemoveAll(choiceSet, {Bike});
          removed := removed + {Bike};
        }
        assert removed == RemovedAtHome(CarAvailable(person), person.hasBike);
        RemoveAllKeepsDistinct(Dedup(allModes), removed);
      } else {
        var previousMode := PreviousMainMode(previousActivity);
        if isFlexible(previousMode) {
          RemoveAllTwice(Dedup(allModes), removed, fixedModes);
          choiceSet := RemoveAll(choiceSet, fixedModes);
          assert removed + fixedModes == {CarsharingFree, CarsharingStation} + fixedModes;
          RemoveAllKeepsDistinct(Dedup(allModes), removed + fixedModes);
        } else {
          choiceSet := [];
          choiceSet := Add(choiceSet, previousMode);
        }
      }
    }

    /** The available modes, without walking for a trip from home whose round
        trip via the next fixed destination is longer than the walking limit. */
    method FilterAvailableModes(
      person: ModeChoicePerson, origin: ZoneId, destination: ZoneId, previousActivity: Activity,
      nextPole: ZoneId, homeZone: ZoneId, proposedChoiceSet: seq<Mode>) returns (choiceSet: seq<Mode>)
      requires !previousActivity.activityType.IsHomeActivity() ==> previousActivity.mode.Some?
      ensures Distinct(choiceSet)
      ensures previousActivity.activityType.IsHomeActivity() ==>
        var available := AvailableModesOf(proposedChoiceSet, true, CarAvailable(person), person.hasBike, Car, false, fixedModes);
        choiceSet == if WalkDistance(distance, distanceToKmFactor, origin, destination, nextPole, homeZone) > MaxWalkDistance
                     then RemoveAll(available, {Pedestrian}) else available
      ensures !previousActivity.activityType.IsHomeActivity() ==>
        choiceSet == AvailableModesOf(proposedChoiceSet, false, CarAvailable(person), person.hasBike,
          PreviousMainMode(previousActivity), isFlexible(PreviousMainMode(previousActivity)), fixedModes)
    {
      choiceSet := AvailableModes(person, previousActivity, proposedChoiceSet);
      if previousActivity.activityType.IsHomeActivity() {
        var distanceKm := WalkDistance(distance, distanceToKmFactor, origin, destination, nextPole, homeZone);
        if distanceKm > MaxWalkDistance {
          RemoveAllKeepsDistinct(choiceSet, {Pedestrian});
          choiceSet := RemoveAll(choiceSet, {Pedestrian});
        }
      }
    }

    /** The search for the fastest mode over the first n modes. */
    function FastestOf(origin: ZoneId, destination: ZoneId, date: SimpleTime, modes: seq<Mode>, n: nat): (f: Fastest)
      requires n <= |modes|
      ensures f.mode.Some? <==> n > 0
      ensures f.time.Some? <==> n > 0
      ensures f.mode.Some? ==> f.mode.value in modes[..n]
    {
      if n == 0 then Fastest(None, None)
      else FastestStep(FastestOf(origin, destination, date, modes, n - 1), modes[n - 1],
                       travelTime(origin, destination, modes[n - 1], date))
    }

    /** The reasonable modes among the first n, as an insertion-ordered set. */
    function ReasonableOf(origin: ZoneId, destination: ZoneId, date: SimpleTime, modes: seq<Mode>, n: nat): (r: seq<Mode>)
      requires n <= |modes|
      ensures Distinct(r)
      ensures forall m :: m in r <==> m in modes[..n] && travelTime(origin, destination, m, date) < MaxTravelTime
    {
      if n == 0 then []
      else
        var before := ReasonableOf(origin, destination, date, modes, n - 1);
        assert modes[..n] == modes[..n - 1] + [modes[n - 1]];
        var m := modes[n - 1];
        if travelTime(origin, destination, m, date) < MaxTravelTime then Add(before, m) else before
    }

    /** The modes whose travel time from origin to destination, at the given
        date (the planned end of the previous activity), is below a day. With
        keepAtLeastOne and no such mode, the fastest mode alone. */
    method ModesWithReasonableTravelTime(
      origin: ZoneId, destination: ZoneId, date: SimpleTime, possibleModes: seq<Mode>, keepAtLeastOne: bool)
      returns (reasonableModes: seq<Mode>, fastestMode: Mode)
      requires |possibleModes| > 0
      ensures Distinct(reasonableModes)
      ensures FastestOf(origin, destination, date, possibleModes, |possibleModes|).mode == Some(fastestMode)
      ensures keepAtLeastOne && ReasonableOf(origin, destination, date, possibleModes, |possibleModes|) == [] ==>
        reasonableModes == [fastestMode]
      ensures !(keepAtLeastOne && ReasonableOf(origin, destination, date, possibleModes, |possibleModes|) == []) ==>
        reasonableModes == ReasonableOf(origin, destination, date, possibleModes, |possibleModes|)
      ensures keepAtLeastOne ==> |reasonableModes| > 0
      ensures forall m :: m in possibleModes ==>
        travelTime(origin, destination, fastestMode, date) <= travelTime(origin, destination, m, date)
    {
      var fastest: Option<Mode> := None;
      var fastestTravelTime: Option<real> := None;
      reasonableModes := [];
      for i := 0 to |possibleModes|
        invariant Fastest(fastest, fastestTravelTime) == FastestOf(origin, destination, date, possibleModes, i)
        invariant i > 0 ==> fastest.Some? && fastestTravelTime.Some?
        invariant reasonableModes == ReasonableOf(origin, destination, date, possibleModes, i)
      {
        var mode := possibleModes[i];
        var time := travelTime(origin, destination, mode, date);
        if fastestTravelTime.None? || time <= fastestTravelTime.value {
          if fastestTravelTime.None? || time < fastestTravelTime.value || fastest == Some(Passenger) {
            fastest := Some(mode);
          }
          fastestTravelTime := Some(time);
        }
        if time < MaxTravelTime {
          reasonableModes := Add(reasonableModes, mode);
        }
      }
      fastestMode := fastest.value;
      FastestHasLeastTime(origin, destination, date, possibleModes, |possibleModes|);
      if keepAtLeastOne && reasonableModes == [] {
        reasonableModes := Add(reasonableModes, fastestMode);
      }
    }

    /** The least travel time among the first n modes. */
    function MinTime(origin: ZoneId, destination: ZoneId, date: SimpleTime, modes: seq<Mode>, n: nat): (t: real)
      requires 0 < n <= |modes|
      ensures forall i :: 0 <= i < n ==> t <= travelTime(origin, destination, modes[i], date)
      ensures exists i :: 0 <= i < n && t == travelTime(origin, destination, modes[i], date)
    {
      var t := travelTime(origin, destination, modes[n - 1], date);
      if n == 1 then t
      else
        var before := MinTime(origin, destination, date, modes, n - 1);
        if t < before then t else before
    }

    /** Whether the i-th mode is a fastest mode other than PASSENGER. */
    predicate PreferredFastest(origin: ZoneId, destination: ZoneId, date: SimpleTime, modes: seq<Mode>, n: nat, i: nat)
      requires i < n <= |modes|
    {
      travelTime(origin, destination, modes[i], date) == MinTime(origin, destination, date, modes, n) && modes[i] != Passenger
    }

    predicate FirstPreferred(origin: ZoneId, destination: ZoneId, date: SimpleTime, modes: seq<Mode>, n: nat, i: nat)
      requires i < n <= |modes|
    {
      PreferredFastest(origin, destination, date, modes, n, i) &&
      forall j :: 0 <= j < i ==> !PreferredFastest(origin, destination, date, modes, n, j)
    }

    predicate NonePreferred(origin: ZoneId, destination: ZoneId, date: SimpleTime, modes: seq<Mode>, n: nat)
      requires n <= |modes|
    {
      forall i :: 0 <= i < n ==> !PreferredFastest(origin, destination, date, modes, n, i)
    }

    /** The search ends with a mode of least travel time, and with that time. */
    lemma {:induction false} FastestHasLeastTime(origin: ZoneId, destination: ZoneId, date: SimpleTime, modes: seq<Mode>, n: nat)
      requires 0 < n <= |modes|
      ensures FastestOf(origin, destination, date, modes, n).mode.Some?
      ensures FastestOf(origin, destination, date, modes, n).time == Some(MinTime(origin, destination, date, modes, n))
      ensures travelTime(origin, destination, FastestOf(origin, destination, date, modes, n).mode.value, date)
        == MinTime(origin, destination, date, modes, n)
    {
      if n > 1 {
        FastestHasLeastTime(origin, destination, date, modes, n - 1);
      }
    }

    /** Among the modes of least travel time the search picks the first that
        is not PASSENGER, and PASSENGER only when every such mode is. */
    lemma {:induction false} FastestIsFirstPreferred(origin: ZoneId, destination: ZoneId, date: SimpleTime, modes: seq<Mode>, n: nat)
      requires 0 < n <= |modes|
      ensures FastestOf(origin, destination, date, modes, n).mode.Some?
      ensures forall i :: 0 <= i < n && FirstPreferred(origin, destination, date, modes, n, i) ==>
        FastestOf(origin, destination, date, modes, n).mode.value == modes[i]
      ensures NonePreferred(origin, destination, date, modes, n) ==>
        FastestOf(origin, destination, date, modes, n).mode.value == Passenger
    {
      FastestHasLeastTime(origin, destination, date, modes, n);
      var p := n - 1;
      var m := modes[p];
      var t := travelTime(origin, destination, m, date);
      if p == 0 {
        if NonePreferred(origin, destination, date, modes, n) {
          assert !PreferredFastest(origin, destination, date, modes, n, 0);
        }
        return;
      }
      FastestIsFirstPreferred(origin, destination, date, modes, p);
      FastestHasLeastTime(origin, destination, date, modes, p);
      var before := MinTime(origin, destination, date, modes, p);
      if t < before {
        FasterResets(origin, destination, date, modes, p, n);
      } else if t == before {
        SameMinimum(origin, destination, date, modes, p, n);
        TieKeepsPreferred(origin, destination, date, modes, p, n);
      } else {
        SameMinimum(origin, destination, date, modes, p, n);
        assert !PreferredFastest(origin, destination, date, modes, n, p);
      }
    }

    /** A strictly faster mode at position p is the only mode of least time. */
    lemma FasterResets(origin: ZoneId, destination: ZoneId, date: SimpleTime, modes: seq<Mode>, p: nat, n: nat)
      requires 0 < p < |modes| && n == p + 1
      requires travelTime(origin, destination, modes[p], date) < MinTime(origin, destination, date, modes, p)
      requires FastestOf(origin, destination, date, modes, p).time == Some(MinTime(origin, destination, date, modes, p))
      ensures FastestOf(origin, destination, date, modes, n).mode == Some(modes[p])
      ensures forall i :: 0 <= i < p ==> !PreferredFastest(origin, destination, date, modes, n, i)
      ensures PreferredFastest(origin, destination, date, modes, n, p) <==> modes[p] != Passenger
    {
      assert MinTime(origin, destination, date, modes, n) == travelTime(origin, destination, modes[p], date);
    }

    /** A mode at position p that is no faster leaves the least time and the
        preferred modes before it as they were. */
    lemma SameMinimum(origin: ZoneId, destination: ZoneId, date: SimpleTime, modes: seq<Mode>, p: nat, n: nat)
      requires 0 < p < |modes| && n == p + 1
      requires travelTime(origin, destination, modes[p], date) >= MinTime(origin, destination, date, modes, p)
      ensures MinTime(origin, destination, date, modes, n) == MinTime(origin, destination, date, modes, p)
      ensures forall i :: 0 <= i < p ==>
        PreferredFastest(origin, destination, date, modes, n, i) == PreferredFastest(origin, destination, date, modes, p, i)
    {
    }

    /** On a tie the search keeps a preferred fastest mode and replaces
        PASSENGER. */
    lemma {:induction false} TieKeepsPreferred(origin: ZoneId, destination: ZoneId, date: SimpleTime, modes: seq<Mode>, p: nat, n: nat)
      requires 0 < p < |modes| && n == p + 1
      requires travelTime(origin, destination, modes[p], date) == MinTime(origin, destination, date, modes, p)
      requires MinTime(origin, destination, date, modes, n) == MinTime(origin, destination, date, modes, p)
      requires forall i :: 0 <= i < p ==>
        PreferredFastest(origin, destination, date, modes, n, i) == PreferredFastest(origin, destination, date, modes, p, i)
      requires FastestOf(origin, destination, date, modes, p).mode.Some?
      requires FastestOf(origin, destination, date, modes, p).time == Some(MinTime(origin, destination, date, modes, p))
      requires forall i :: 0 <= i < p && FirstPreferred(origin, destination, date, modes, p, i) ==>
        FastestOf(origin, destination, date, modes, p).mode.value == modes[i]
      requires NonePreferred(origin, destination, date, modes, p) ==>
        FastestOf(origin, destination, date, modes, p).mode.value == Passenger
      ensures forall i :: 0 <= i < n && FirstPreferred(origin, destination, date, modes, n, i) ==>
        FastestOf(origin, destination, date, modes, n).mode.value == modes[i]
      ensures NonePreferred(origin, destination, date, modes, n) ==>
        FastestOf(origin, destination, date, modes, n).mode.value == Passenger
    {
      var f0 := FastestOf(origin, destination, date, modes, p);
      var f := FastestOf(origin, destination, date, modes, n);
      assert f.mode == if f0.mode == Some(Passenger) then Some(modes[p]) else f0.mode;
      if NonePreferred(origin, destination, date, modes, p) {
        assert f.mode == Some(modes[p]);
        if NonePreferred(origin, destination, date, modes, n) {
          assert !PreferredFastest(origin, destination, date, modes, n, p);
        }
      } else {
        var k :| 0 <= k < p && PreferredFastest(origin, destination, date, modes, p, k);
        FirstExists(origin, destination, date, modes, p, k);
        var i :| 0 <= i < p && FirstPreferred(origin, destination, date, modes, p, i);
        assert f.mode == f0.mode;
        assert FirstPreferred(origin, destination, date, modes, n, i);
        forall j | 0 <= j < n && FirstPreferred(origin, destination, date, modes, n, j)
          ensures j == i
        {
          FirstPreferredUnique(origin, destination, date, modes, n, i, j);
        }
      }
    }

    lemma FirstPreferredUnique(origin: ZoneId, destination: ZoneId, date: SimpleTime, modes: seq<Mode>, n: nat, i: nat, j: nat)
      requires i < n && j < n && n <= |modes|
      requires FirstPreferred(origin, destination, date, modes, n, i) && FirstPreferred(origin, destination, date, modes, n, j)
      ensures i == j
    {
    }

    /** A preferred mode among the first n has a first one. */
    lemma {:induction false} FirstExists(origin: ZoneId, destination: ZoneId, date: SimpleTime, modes: seq<Mode>, n: nat, k: nat)
      requires k < n <= |modes|
      requires PreferredFastest(origin, destination, date, modes, n, k)
      ensures exists i :: 0 <= i < n && FirstPreferred(origin, destination, date, modes, n, i)
      decreases k
    {
      if exists j :: 0 <= j < k && PreferredFastest(origin, destination, date, modes, n, j) {
        var j :| 0 <= j < k && PreferredFastest(origin, destination, date, modes, n, j);
        FirstExists(origin, destination, date, modes, n, j);
      } else {
        assert FirstPreferred(origin, destination, date, modes, n, k);
      }
    }
  }
}

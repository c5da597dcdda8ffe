/** A simulated person that may ride along as a car passenger: it drives the
    person through the activity schedule by a state machine, chooses
    destinations and modes, starts and ends trips, offers and accepts rides,
    and moves along public-transport legs.

    The person's states are left open (type S): whether a state is
    instantaneous, the state that follows it, and the event it schedules
    are parameters, and so are the choice models, the trip factory, the
    public-transport behaviour, the ride-offer board's matching and the
    random number generator. What the person does to its collaborators is
    recorded: the effects of a state change and the listener's
    notifications in `trace`, the added events in `queue`, the ride-offer
    board's calls in `rideOfferCalls`, the public-transport behaviour's calls
    in `behaviourCalls`, and the random draws in `draws`. */
module SimulationPersons {
  import opened Wrappers
  import opened Time
  import opened Domain
  import opened Listeners
  import opened Decimal
  import opened PersonsForDemand
  import ModeAvailability

  /** One effect of the person on the simulation, in the order it happens. */
  datatype Effect<S> =
    | ActionAtEnd(endState: S, endTime: SimpleTime)
    | ActionAtStart(startState: S, startTime: SimpleTime)
    | Notified(notification: Notification<S>)

  /** Draws from the person's random number generator. */
  datatype Draw = DoubleDraw | IntDraw

  datatype RideOffer = RideOffer(trip: Trip, driverOid: int, car: Car)

  datatype RideOfferCall = AddOffer(offerTrip: Trip, offeringPerson: int) | RemoveOffer(revokedTrip: Trip, revokingPerson: int)

  datatype BehaviourCall =
    | EnterWaitingArea(stop: int)
    | BoardVehicle(boardTime: SimpleTime, boardLeg: Leg)
    | GetOffVehicle(getOffTime: SimpleTime, getOffLeg: Leg)
    | WaitForVehicle(waitTime: SimpleTime, waitLeg: Leg)

  datatype SimulationError =
    | MissingFixedDestination(activityType: ActivityType)
    | NotPublicTransport(trip: Trip)
    | NotAZoneNumber(externalId: string)

  /** The state effects of one state change from `previous` to `next`: the
      end action of the old state, the start action of the new one, and one
      notification carrying both. */
  function StepEffects<S>(oid: int, previous: S, next: S, t: SimpleTime): seq<Effect<S>> {
    [ActionAtEnd(previous, t), ActionAtStart(next, t), Notified(StateChanged(oid, t, previous, next))]
  }

  /** The effects of walking along a path of states, one step after another. */
  function PathEffects<S>(oid: int, path: seq<S>, t: SimpleTime): seq<Effect<S>>
    decreases |path|
  {
    if |path| < 2 then []
    else PathEffects(oid, path[..|path| - 1], t) + StepEffects(oid, path[|path| - 2], path[|path| - 1], t)
  }

  /** A walk along a path of n + 1 states changes state n times, reporting each
      change once. */
  lemma {:induction false} PathEffectsCount<S>(oid: int, path: seq<S>, t: SimpleTime)
    requires |path| >= 1
    ensures |PathEffects(oid, path, t)| == 3 * (|path| - 1)
    ensures forall i :: 0 <= i < |path| - 1 ==>
      PathEffects(oid, path, t)[3 * i + 2] == Notified(StateChanged(oid, t, path[i], path[i + 1]))
  {
    if |path| >= 2 {
      var front := path[..|path| - 1];
      PathEffectsCount(oid, front, t);
      forall i | 0 <= i < |path| - 1
        ensures PathEffects(oid, path, t)[3 * i + 2] == Notified(StateChanged(oid, t, path[i], path[i + 1]))
      {
        if i < |path| - 2 {
          assert front[i] == path[i] && front[i + 1] == path[i + 1];
        }
      }
    }
  }

  /** Walking one more step of a path adds the effects of that step. */
  lemma PathEffectsStep<S>(oid: int, path: seq<S>, k: nat, t: SimpleTime)
    requires k + 1 < |path|
    ensures PathEffects(oid, path[..k + 2], t) == PathEffects(oid, path[..k + 1], t) + StepEffects(oid, path[k], path[k + 1], t)
  {
    assert path[..k + 2][..k + 1] == path[..k + 1];
  }

  /** The factor 0.1 is cast to an integer before it multiplies the
      duration, so riders never accept offers that depart early. */
  function MaxMinutesEarly(duration: int): (early: int)
    ensures early == 0
  {
    (0.1).Floor * duration
  }

  /** The 16-bit truncation of a planned duration. */
  function ToShort(n: int): (r: int)
    ensures -32768 <= r < 32768
    ensures -32768 <= n < 32768 ==> r == n
    ensures (r - n) % 65536 == 0
  {
    (n + 32768) % 65536 - 32768
  }

  /** The trip as the rider takes it: the same trip starting at a new time. */
  function ChangeStartTimeOfTrip(trip: Trip, newStartTime: SimpleTime): (r: Trip)
    ensures r.oid == trip.oid && r.legId == trip.legId && r.mode == trip.mode
    ensures r.previousActivity == trip.previousActivity && r.nextActivity == trip.nextActivity
    ensures r.plannedStart == newStartTime && r.publicTransport == None
    ensures r.origin == trip.origin && r.destination == trip.destination
    ensures r.plannedDuration == ToShort(trip.plannedDuration)
    ensures -32768 <= trip.plannedDuration < 32768 ==> r.plannedDuration == trip.plannedDuration
  {
    Trip(trip.oid, trip.legId, trip.mode, trip.previousActivity, trip.nextActivity, trip.origin, trip.destination,
         newStartTime, ToShort(trip.plannedDuration), None)
  }

  /** A trip is a public-transport trip by its mode. */
  function IsPublicTransportTrip(trip: Trip): (publicTransport: bool)
    ensures publicTransport <==> trip.mode == PublicTransport
  {
    trip.mode == PublicTransport
  }

  class SimulationPersonPassenger<P, S(!new)> {
    const person: PersonForDemand<P>
    const modesInSimulation: seq<Mode>
    const simulationStart: SimpleTime
    const simulationEnd: SimpleTime

    const instantaneous: S -> bool
    const nextState: (S, SimpleTime) -> S
    const nextEvent: (S, SimpleTime) -> Option<DemandEvent>
    /** A measure that every instantaneous state change lowers. */
    const rank: S -> nat

    /** The destination choice: from the previous to the next activity (by
        position), with a random number. */
    const selectDestination: (nat, nat, real) -> Zone
    /** The mode choice: origin and destination zone, the two activities,
        the choice set and a random number. */
    const selectMode: (Zone, Zone, nat, nat, seq<Mode>, real) -> Mode
    const createTrip: (Mode, nat, nat, real) -> Trip
    const randomLocation: (Zone, ActivityType, real) -> Location
    const chooseHousehold: (seq<Location>, real) -> Location
    /** The next double the generator yields after the given draws. */
    const nextDouble: seq<Draw> -> real

    const matchingTrips: (Trip, int, int) -> seq<RideOffer>
    /** The order of offers for an activity ending at the given time; the
        first least offer is the best. */
    const offerOrder: (RideOffer, SimpleTime) -> int

    const hasVehicleDeparted: Leg -> bool
    const isVehicleAvailable: Leg -> bool
    const hasPlaceInVehicle: Leg -> bool
    const searchNewTrip: (Trip, SimpleTime) -> Trip

    var state: S
    var rideOfferAccepted: bool
    var events: seq<PassengerEvent>
    var trace: seq<Effect<S>>
    var queue: seq<DemandEvent>
    var rideOfferCalls: seq<RideOfferCall>
    var behaviourCalls: seq<BehaviourCall>
    var draws: seq<Draw>

    constructor (
      person: PersonForDemand<P>, modesInSimulation: seq<Mode>, simulationStart: SimpleTime, simulationEnd: SimpleTime,
      initialState: S, instantaneous: S -> bool, nextState: (S, SimpleTime) -> S,
      nextEvent: (S, SimpleTime) -> Option<DemandEvent>, rank: S -> nat,
      selectDestination: (nat, nat, real) -> Zone, selectMode: (Zone, Zone, nat, nat, seq<Mode>, real) -> Mode,
      createTrip: (Mode, nat, nat, real) -> Trip, randomLocation: (Zone, ActivityType, real) -> Location,
      chooseHousehold: (seq<Location>, real) -> Location, nextDouble: seq<Draw> -> real,
      matchingTrips: (Trip, int, int) -> seq<RideOffer>, offerOrder: (RideOffer, SimpleTime) -> int,
      hasVehicleDeparted: Leg -> bool, isVehicleAvailable: Leg -> bool, hasPlaceInVehicle: Leg -> bool,
      searchNewTrip: (Trip, SimpleTime) -> Trip, simulationDays: seq<SimpleTime>)
      requires person.tourPattern.Some?
      requires var schedule := person.createSchedule(person.tourPattern.value, simulationDays);
        |schedule| > 0 && allocated(schedule[0]) && !schedule[0].running && schedule[0].activityType.IsHomeActivity()
      requires forall s: S, t: SimpleTime :: instantaneous(s) ==> rank(nextState(s, t)) < rank(s)
      modifies person, person.createSchedule(person.tourPattern.value, simulationDays)[0]
      ensures this.person == person && this.modesInSimulation == modesInSimulation
      ensures this.simulationStart == simulationStart && this.simulationEnd == simulationEnd
      ensures this.instantaneous == instantaneous && this.nextState == nextState && this.nextEvent == nextEvent
      ensures this.rank == rank && this.selectDestination == selectDestination && this.selectMode == selectMode
      ensures this.createTrip == createTrip && this.randomLocation == randomLocation
      ensures this.chooseHousehold == chooseHousehold && this.nextDouble == nextDouble
      ensures this.matchingTrips == matchingTrips && this.offerOrder == offerOrder
      ensures this.hasVehicleDeparted == hasVehicleDeparted && this.isVehicleAvailable == isVehicleAvailable
      ensures this.hasPlaceInVehicle == hasPlaceInVehicle && this.searchNewTrip == searchNewTrip
      ensures person.schedule == person.createSchedule(old(person.tourPattern.value), simulationDays)
      ensures person.current == Some(0) && person.tourPattern == None
      ensures person.schedule[0].location == Some(ZoneAndLocation(person.household.homeZone, person.household.homeLocation))
      ensures person.schedule[0].running
      ensures state == SettledPath(initialState, simulationStart)[|SettledPath(initialState, simulationStart)| - 1]
      ensures !instantaneous(state)
      ensures trace == [Notified(StartActivity(person.oid, 0))] +
        PathEffects(person.oid, SettledPath(initialState, simulationStart), simulationStart)
      ensures queue == if nextEvent(state, simulationStart).Some? then [nextEvent(state, simulationStart).value] else []
      ensures !rideOfferAccepted && events == [] && rideOfferCalls == [] && behaviourCalls == [] && draws == []
    {
      person.InitSchedule(simulationDays);
      this.person := person;
      this.modesInSimulation := modesInSimulation;
      this.simulationStart := simulationStart;
      this.simulationEnd := simulationEnd;
      this.instantaneous := instantaneous;
      this.nextState := nextState;
      this.nextEvent := nextEvent;
      this.rank := rank;
      this.selectDestination := selectDestination;
      this.selectMode := selectMode;
      this.createTrip := createTrip;
      this.randomLocation := randomLocation;
      this.chooseHousehold := chooseHousehold;
      this.nextDouble := nextDouble;
      this.matchingTrips := matchingTrips;
      this.offerOrder := offerOrder;
      this.hasVehicleDeparted := hasVehicleDeparted;
      this.isVehicleAvailable := isVehicleAvailable;
      this.hasPlaceInVehicle := hasPlaceInVehicle;
      this.searchNewTrip := searchNewTrip;
      state := initialState;
      rideOfferAccepted := false;
      events := [];
      trace := [];
      queue := [];
      rideOfferCalls := [];
      behaviourCalls := [];
      draws := [];
      new;
      InitFirstActivity();
    }

    // ----- the state machine -----

    /** Instantaneous states lead, at any time, to states of lower rank, so the
        person settles after finitely many state changes. */
    ghost predicate Settles() {
      forall s: S, t: SimpleTime :: instantaneous(s) ==> rank(nextState(s, t)) < rank(s)
    }

    /** The states that follow an instantaneous state until one is not. */
    function InstantSteps(s: S, t: SimpleTime): seq<S>
      requires Settles() && instantaneous(s)
      decreases rank(s)
    {
      var n := nextState(s, t);
      [n] + if instantaneous(n) then InstantSteps(n, t) else []
    }

    /** The states an update walks through at time t, starting from s: at least
        one state change, then on while the state is instantaneous. */
    function SettledPath(s: S, t: SimpleTime): seq<S>
      requires Settles()
    {
      var n := nextState(s, t);
      [s, n] + if instantaneous(n) then InstantSteps(n, t) else []
    }

    /** The state after position i of a path is the next state of the one at i. */
    ghost predicate Follows(p: seq<S>, i: nat, t: SimpleTime)
      requires i + 1 < |p|
    {
      p[i + 1] == nextState(p[i], t)
    }

    lemma {:induction false} InstantStepsShape(s: S, t: SimpleTime)
      requires Settles() && instantaneous(s)
      ensures var p := [s] + InstantSteps(s, t);
        |p| >= 2 &&
        (forall i :: 0 <= i < |p| - 1 ==> Follows(p, i, t) && instantaneous(p[i])) &&
        !instantaneous(p[|p| - 1])
      decreases rank(s)
    {
      var n := nextState(s, t);
      if instantaneous(n) {
        InstantStepsShape(n, t);
        var q := [n] + InstantSteps(n, t);
        assert [s] + InstantSteps(s, t) == [s] + q;
      }
    }

    /** The path starts at the old state, takes at least one step, follows the
        state machine, passes only instantaneous states in between and ends in
        a state that is not instantaneous. */
    lemma {:induction false} SettledPathShape(s: S, t: SimpleTime)
      requires Settles()
      ensures var p := SettledPath(s, t);
        |p| >= 2 && p[0] == s &&
        (forall i :: 0 <= i < |p| - 1 ==> Follows(p, i, t)) &&
        (forall i :: 0 < i < |p| - 1 ==> instantaneous(p[i])) &&
        !instantaneous(p[|p| - 1])
    {
      var n := nextState(s, t);
      if instantaneous(n) {
        InstantStepsShape(n, t);
        var q := [n] + InstantSteps(n, t);
        assert SettledPath(s, t) == [s] + q;
      }
    }

    /** One state change: the end action of the old state, the switch, the
        start action of the new state, and the notification. */
    method ChangeState(currentTime: SimpleTime)
      modifies this
      ensures state == nextState(old(state), currentTime)
      ensures trace == old(trace) + StepEffects(person.oid, old(state), state, currentTime)
      ensures rideOfferAccepted == old(rideOfferAccepted) && events == old(events) && queue == old(queue)
      ensures rideOfferCalls == old(rideOfferCalls) && behaviourCalls == old(behaviourCalls) && draws == old(draws)
    {
      var previous := state;
      trace := trace + [ActionAtEnd(state, currentTime)];
      state := nextState(state, currentTime);
      trace := trace + [ActionAtStart(state, currentTime)];
      trace := trace + [Notified(StateChanged(person.oid, currentTime, previous, state))];
    }

    /** Changes state until the state is not instantaneous, then adds the
        event the final state schedules, if any. */
    method UpdateState(notificationTime: SimpleTime)
      requires Settles()
      modifies this
      ensures state == SettledPath(old(state), notificationTime)[|SettledPath(old(state), notificationTime)| - 1]
      ensures !instantaneous(state)
      ensures trace == old(trace) + PathEffects(person.oid, SettledPath(old(state), notificationTime), notificationTime)
      ensures queue == old(queue) +
        (if nextEvent(state, notificationTime).Some? then [nextEvent(state, notificationTime).value] else [])
      ensures rideOfferAccepted == old(rideOfferAccepted) && events == old(events)
      ensures rideOfferCalls == old(rideOfferCalls) && behaviourCalls == old(behaviourCalls) && draws == old(draws)
    {
      ghost var path := SettledPath(state, notificationTime);
      SettledPathShape(state, notificationTime);
      PathEffectsStep(person.oid, path, 0, notificationTime);
      assert Follows(path, 0, notificationTime);
      ChangeState(notificationTime);
      ghost var k := 1;
      while instantaneous(state)
        invariant 1 <= k < |path| && state == path[k]
        invariant trace == old(trace) + PathEffects(person.oid, path[..k + 1], notificationTime)
        invariant rideOfferAccepted == old(rideOfferAccepted) && events == old(events) && queue == old(queue)
        invariant rideOfferCalls == old(rideOfferCalls) && behaviourCalls == old(behaviourCalls) && draws == old(draws)
        decreases |path| - k
      {
        assert Follows(path, k, notificationTime);
        PathEffectsStep(person.oid, path, k, notificationTime);
        ChangeState(notificationTime);
        k := k + 1;
      }
      assert path[..k + 1] == path;
      var next := nextEvent(state, notificationTime);
      if next.Some? {
        queue := queue + [next.value];
      }
    }

    /** Handles an event that belongs to this person and is due. */
    method Notify(event: DemandEvent, currentDate: SimpleTime)
      requires event.personOid == person.oid && !event.date.IsAfter(currentDate)
      requires Settles()
      modifies this
      ensures state == SettledPath(old(state), currentDate)[|SettledPath(old(state), currentDate)| - 1]
      ensures !instantaneous(state)
      ensures trace == old(trace) + PathEffects(person.oid, SettledPath(old(state), currentDate), currentDate)
      ensures queue == old(queue) + (if nextEvent(state, currentDate).Some? then [nextEvent(state, currentDate).value] else [])
      ensures rideOfferAccepted == old(rideOfferAccepted) && events == old(events)
      ensures rideOfferCalls == old(rideOfferCalls) && behaviourCalls == old(behaviourCalls) && draws == old(draws)
    {
      UpdateState(currentDate);
    }

    // ----- activities -----

    /** The zone and location of a fixed destination: home, or the person's
        fixed destination for the activity type. */
    function GetFixedLocationFor(activityType: ActivityType): (r: Result<ZoneAndLocation, SimulationError>)
      ensures activityType == Home ==>
        r == Success(ZoneAndLocation(person.household.homeZone, person.household.homeLocation))
      ensures activityType != Home && activityType in person.fixedDestinations ==>
        r == Success(ZoneAndLocation(person.fixedDestinations[activityType].zone, person.fixedDestinations[activityType].location))
      ensures r.Failure? <==> activityType != Home && activityType !in person.fixedDestinations
    {
      if activityType == Home then Success(ZoneAndLocation(person.household.homeZone, person.household.homeLocation))
      else if activityType in person.fixedDestinations then
        Success(ZoneAndLocation(person.fixedDestinations[activityType].zone, person.fixedDestinations[activityType].location))
      else Failure(MissingFixedDestination(activityType))
    }

    /** Places the person at home in its first activity, which starts running,
        and settles the state at the start of the simulation. */
    method InitFirstActivity()
      requires |person.schedule| > 0
      requires !person.schedule[0].running && person.schedule[0].activityType.IsHomeActivity()
      requires Settles()
      modifies this, person.schedule[0]
      ensures person.schedule[0].location == Some(ZoneAndLocation(person.household.homeZone, person.household.homeLocation))
      ensures person.schedule[0].running
      ensures person.schedule[0].startDate == old(person.schedule[0].startDate)
      ensures person.schedule[0].mode == old(person.schedule[0].mode)
      ensures trace == old(trace) + [Notified(StartActivity(person.oid, 0))] +
        PathEffects(person.oid, SettledPath(old(state), simulationStart), simulationStart)
      ensures state == SettledPath(old(state), simulationStart)[|SettledPath(old(state), simulationStart)| - 1]
      ensures !instantaneous(state)
      ensures queue == old(queue) +
        (if nextEvent(state, simulationStart).Some? then [nextEvent(state, simulationStart).value] else [])
      ensures rideOfferAccepted == old(rideOfferAccepted) && events == old(events)
      ensures rideOfferCalls == old(rideOfferCalls) && behaviourCalls == old(behaviourCalls) && draws == old(draws)
    {
      var firstActivity := person.schedule[0];
      var zoneAndLocation := GetFixedLocationFor(firstActivity.activityType);
      firstActivity.location := Some(zoneAndLocation.value);
      firstActivity.running := true;
      trace := trace + [Notified(StartActivity(person.oid, 0))];
      UpdateState(simulationStart);
    }

    method EndActivity()
      requires person.current.Some? && person.current.value < |person.schedule|
      modifies person.schedule[person.current.value]
      ensures !person.schedule[person.current.value].running
      ensures person.schedule[person.current.value].location == old(person.schedule[person.current.value].location)
      ensures person.schedule[person.current.value].startDate == old(person.schedule[person.current.value].startDate)
      ensures person.schedule[person.current.value].duration == old(person.schedule[person.current.value].duration)
      ensures person.schedule[person.current.value].mode == old(person.schedule[person.current.value].mode)
    {
      person.schedule[person.current.value].running := false;
    }

    /** There is a current activity and it is not the last one of the schedule. */
    function HasNextActivity(): (has: bool)
      reads person
      ensures has <==> person.current.Some? && person.current.value < |person.schedule| &&
                       person.current.value != |person.schedule| - 1
    {
      person.current.Some? && person.current.value + 1 < |person.schedule|
    }

    function NextActivityStartsAfterSimulationEnd(): (after: bool)
      requires HasNextActivity()
      reads person, person.schedule[person.current.value + 1]
      ensures after <==> simulationEnd.seconds < person.schedule[person.current.value + 1].startDate.seconds
    {
      person.schedule[person.current.value + 1].startDate.IsAfter(simulationEnd)
    }

    method AcceptRideOffer()
      modifies this
      ensures rideOfferAccepted
      ensures state == old(state) && events == old(events) && trace == old(trace) && queue == old(queue)
      ensures rideOfferCalls == old(rideOfferCalls) && behaviourCalls == old(behaviourCalls) && draws == old(draws)
    {
      rideOfferAccepted := true;
    }

    // ----- destination and mode choice -----

    method NextRandom() returns (r: real)
      modifies this
      ensures r == nextDouble(old(draws)) && draws == old(draws) + [DoubleDraw]
      ensures state == old(state) && rideOfferAccepted == old(rideOfferAccepted) && events == old(events)
      ensures trace == old(trace) && queue == old(queue)
      ensures rideOfferCalls == old(rideOfferCalls) && behaviourCalls == old(behaviourCalls)
    {
      r := nextDouble(draws);
      draws := draws + [DoubleDraw];
    }

    /** Whether the location of a flexible activity is drawn from the zone's
        opportunities: only when the zone has demand data with locations for
        the activity type. */
    predicate DrawsOpportunity(activityType: ActivityType, zone: Zone) {
      zone.demandData.Some? && activityType in zone.demandData.value.locationsAvailable
    }

    /** Whether an activity of this type has no location to go to: a fixed
        activity other than home for which the person has no fixed destination. */
    predicate MissesFixedDestination(activityType: ActivityType) {
      !activityType.IsHomeActivity() && activityType.IsFixedActivity() && activityType !in person.fixedDestinations
    }

    /** The draws made when choosing the location of an activity in a zone:
        none for a fixed activity, one double when the zone offers
        opportunities for it, one integer otherwise. */
    function LocationDraws(activityType: ActivityType, zone: Zone): (ds: seq<Draw>)
      ensures activityType.IsFixedActivity() <==> ds == []
      ensures |ds| <= 1
    {
      if activityType.IsFixedActivity() then []
      else if DrawsOpportunity(activityType, zone) then [DoubleDraw]
      else [IntDraw]
    }

    /** The location chosen for an activity in a zone after the draws `before`. */
    function ChosenLocation(activityType: ActivityType, zone: Zone, before: seq<Draw>): (r: Result<Location, DestinationError>)
      ensures r.Failure? <==> MissesFixedDestination(activityType)
      ensures r.Failure? ==> r.error == MissingDestination(activityType)
    {
      if activityType.IsHomeActivity() then Success(person.household.homeLocation)
      else if activityType.IsFixedActivity() then
        if activityType in person.fixedDestinations then Success(person.fixedDestinations[activityType].location)
        else Failure(MissingDestination(activityType))
      else if DrawsOpportunity(activityType, zone) then
        if activityType == PrivateVisit && |zone.demandData.value.householdLocations| > 0
        then Success(chooseHousehold(zone.demandData.value.householdLocations, nextDouble(before)))
        else Success(randomLocation(zone, activityType, nextDouble(before)))
      else Success(zone.centroid)
    }

    /** The location of an activity in a zone: home, a fixed destination, or a
        location drawn for a flexible activity (the home of a household of the
        zone for a private visit); the zone centroid when the zone offers no
        opportunities, after one integer draw. */
    method SelectLocation(activityType: ActivityType, zone: Zone) returns (r: Result<Location, DestinationError>)
      modifies this
      ensures activityType.IsHomeActivity() ==> r == Success(person.household.homeLocation) && draws == old(draws)
      ensures !activityType.IsHomeActivity() && activityType.IsFixedActivity() ==>
        draws == old(draws) &&
        (r.Success? <==> activityType in person.fixedDestinations) &&
        (r.Success? ==> r.value == person.fixedDestinations[activityType].location)
      ensures !activityType.IsFixedActivity() && DrawsOpportunity(activityType, zone) ==>
        draws == old(draws) + [DoubleDraw] &&
        r == Success(if activityType == PrivateVisit && |zone.demandData.value.householdLocations| > 0
                     then chooseHousehold(zone.demandData.value.householdLocations, nextDouble(old(draws)))
                     else randomLocation(zone, activityType, nextDouble(old(draws))))
      ensures !activityType.IsFixedActivity() && !DrawsOpportunity(activityType, zone) ==>
        draws == old(draws) + [IntDraw] && r == Success(zone.centroid)
      ensures r == ChosenLocation(activityType, zone, old(draws)) && draws == old(draws) + LocationDraws(activityType, zone)
      ensures state == old(state) && rideOfferAccepted == old(rideOfferAccepted) && events == old(events)
      ensures trace == old(trace) && queue == old(queue)
      ensures rideOfferCalls == old(rideOfferCalls) && behaviourCalls == old(behaviourCalls)
    {
      if activityType.IsHomeActivity() {
        return Success(person.household.homeLocation);
      } else if activityType.IsWorkActivity() || activityType.IsFixedActivity() {
        if activityType in person.fixedDestinations {
          return Success(person.fixedDestinations[activityType].location);
        }
        return Failure(MissingDestination(activityType));
      }
      if DrawsOpportunity(activityType, zone) {
        var randomNumber := NextRandom();
        if activityType == PrivateVisit && |zone.demandData.value.householdLocations| > 0 {
          r := Success(chooseHousehold(zone.demandData.value.householdLocations, randomNumber));
        } else {
          r := Success(randomLocation(zone, activityType, randomNumber));
        }
      } else {
        draws := draws + [IntDraw];
        r := Success(zone.centroid);
      }
    }

    /** The destination of the next activity. A location already set is
        returned as it is, without a choice and without a draw; otherwise a
        zone is chosen and a location in it, which becomes the activity's. */
    method SelectAndSetDestinationOfActivity(previous: nat, next: nat) returns (r: Result<ZoneAndLocation, DestinationError>)
      requires previous < |person.schedule| && next < |person.schedule|
      modifies this, person.schedule[next]
      ensures old(person.schedule[next].location).Some? ==>
        r == Success(old(person.schedule[next].location).value) && draws == old(draws) &&
        person.schedule[next].location == old(person.schedule[next].location)
      ensures r.Success? ==> person.schedule[next].location == Some(r.value)
      ensures r.Failure? ==> person.schedule[next].location == old(person.schedule[next].location)
      ensures r.Failure? <==>
        old(person.schedule[next].location).None? && MissesFixedDestination(person.schedule[next].activityType)
      ensures r.Failure? ==>
        r.error == MissingDestination(person.schedule[next].activityType) && draws == old(draws) + [DoubleDraw]
      ensures old(person.schedule[next].location).None? ==>
        var t := person.schedule[next].activityType;
        var zone := selectDestination(previous, next, nextDouble(old(draws)));
        draws == old(draws) + [DoubleDraw] + LocationDraws(t, zone) &&
        (r.Success? ==> r.value == ZoneAndLocation(zone, ChosenLocation(t, zone, old(draws) + [DoubleDraw]).value))
      ensures person.schedule[next].running == old(person.schedule[next].running)
      ensures person.schedule[next].startDate == old(person.schedule[next].startDate)
      ensures state == old(state) && rideOfferAccepted == old(rideOfferAccepted) && events == old(events)
      ensures trace == old(trace) && queue == old(queue)
      ensures rideOfferCalls == old(rideOfferCalls) && behaviourCalls == old(behaviourCalls)
    {
      var nextActivity := person.schedule[next];
      if nextActivity.location.Some? {
        return Success(nextActivity.location.value);
      }
      var randomNumber := NextRandom();
      var destination := selectDestination(previous, next, randomNumber);
      var location := SelectLocation(nextActivity.activityType, destination);
      if location.Failure? {
        return Failure(location.error);
      }
      nextActivity.location := Some(ZoneAndLocation(destination, location.value));
      r := Success(ZoneAndLocation(destination, location.value));
    }

    /** The mode choice set: the simulated modes, without PASSENGER unless it
        is an option. */
    function ChoiceSet(passengerAsOption: bool): (choiceSet: seq<Mode>)
      ensures ModeAvailability.Distinct(choiceSet)
      ensures forall m :: m in choiceSet <==> m in modesInSimulation && (m == Passenger ==> passengerAsOption)
    {
      var all := ModeAvailability.Dedup(modesInSimulation);
      if passengerAsOption then all
      else
        ModeAvailability.RemoveAllKeepsDistinct(all, {Passenger});
        ModeAvailability.RemoveAll(all, {Passenger})
    }

    /** The trip made after the draws `before`: the mode is chosen with the
        next draw and the trip made with the one after it. */
    function ChosenTrip(passengerAsOption: bool, previous: nat, next: nat, origin: Zone, destination: Zone, before: seq<Draw>): Trip {
      createTrip(selectMode(origin, destination, previous, next, ChoiceSet(passengerAsOption), nextDouble(before)),
                 previous, next, nextDouble(before + [DoubleDraw]))
    }

    /** The trip factory makes trips with the mode it is given. */
    ghost predicate TripFactoryKeepsMode() {
      forall m: Mode, previous: nat, next: nat, x: real :: createTrip(m, previous, next, x).mode == m
    }

    /** Chooses a mode from the choice set and makes the trip with it the
        person's current trip. */
    method SelectModeAndCreateTrip(passengerAsOption: bool, previous: nat, next: nat, destination: Zone)
      requires previous < |person.schedule| && person.schedule[previous].location.Some?
      modifies this, person
      ensures var origin := old(person.schedule[previous].location.value.zone);
        person.currentTrip == Some(ChosenTrip(passengerAsOption, previous, next, origin, destination, old(draws))) &&
        (TripFactoryKeepsMode() ==>
           person.currentTrip.value.mode ==
           selectMode(origin, destination, previous, next, ChoiceSet(passengerAsOption), nextDouble(old(draws))))
      ensures draws == old(draws) + [DoubleDraw, DoubleDraw]
      ensures person.schedule == old(person.schedule) && person.current == old(person.current)
      ensures person.CarState() == old(person.CarState()) && person.BikeState() == old(person.BikeState())
      ensures state == old(state) && rideOfferAccepted == old(rideOfferAccepted) && events == old(events)
      ensures trace == old(trace) && queue == old(queue)
      ensures rideOfferCalls == old(rideOfferCalls) && behaviourCalls == old(behaviourCalls)
    {
      var choiceSet := ChoiceSet(passengerAsOption);
      var origin := person.schedule[previous].location.value.zone;
      var modeRandom := NextRandom();
      var mode := selectMode(origin, destination, previous, next, choiceSet, modeRandom);
      var tripRandom := NextRandom();
      var trip := createTrip(mode, previous, next, tripRandom);
      person.SetCurrentTrip(Some(trip));
    }

    /** Chooses the destination of the next activity and then the mode of the
        trip there. */
    method SelectDestinationAndMode(passengerAsOption: bool) returns (r: Outcome<DestinationError>)
      requires HasNextActivity()
      requires person.schedule[person.current.value].location.Some?
      modifies this, person, person.schedule[person.current.value + 1]
      ensures person.schedule == old(person.schedule) && person.current == old(person.current)
      ensures person.CarState() == old(person.CarState()) && person.BikeState() == old(person.BikeState())
      ensures state == old(state) && rideOfferAccepted == old(rideOfferAccepted) && events == old(events)
      ensures trace == old(trace) && queue == old(queue)
      ensures rideOfferCalls == old(rideOfferCalls) && behaviourCalls == old(behaviourCalls)
      ensures old(person.schedule[person.current.value + 1].location).Some? ==>
        r.Pass? && person.schedule[person.current.value + 1].location == old(person.schedule[person.current.value + 1].location) &&
        draws == old(draws) + [DoubleDraw, DoubleDraw]
      ensures r.Fail? <==>
        old(person.schedule[person.current.value + 1].location).None? &&
        MissesFixedDestination(person.schedule[person.current.value + 1].activityType)
      ensures r.Fail? ==> r.error == MissingDestination(person.schedule[person.current.value + 1].activityType)
      ensures old(person.schedule[person.current.value + 1].location).None? && r.Pass? ==>
        var t := person.schedule[person.current.value + 1].activityType;
        var zone := selectDestination(person.current.value, person.current.value + 1, nextDouble(old(draws)));
        draws == old(draws) + [DoubleDraw] + LocationDraws(t, zone) + [DoubleDraw, DoubleDraw] &&
        person.schedule[person.current.value + 1].location ==
          Some(ZoneAndLocation(zone, ChosenLocation(t, zone, old(draws) + [DoubleDraw]).value))
      ensures r.Pass? ==>
        var previous := person.current.value;
        var next := previous + 1;
        |draws| >= |old(draws)| + 2 && draws[..|old(draws)|] == old(draws) &&
        draws[|draws| - 2..] == [DoubleDraw, DoubleDraw] &&
        person.schedule[next].location.Some? && person.schedule[previous].location.Some? &&
        person.currentTrip == Some(ChosenTrip(passengerAsOption, previous, next,
          person.schedule[previous].location.value.zone, person.schedule[next].location.value.zone, draws[..|draws| - 2]))
      ensures r.Fail? ==>
        old(person.schedule[person.current.value + 1].location).None? &&
        person.schedule[person.current.value + 1].location == old(person.schedule[person.current.value + 1].location) &&
        person.currentTrip == old(person.currentTrip) && draws == old(draws) + [DoubleDraw]
    {
      var previous := person.current.value;
      var next := previous + 1;
      var destination := SelectAndSetDestinationOfActivity(previous, next);
      if destination.Failure? {
        return Fail(destination.error);
      }
      ghost var chosen := draws;
      SelectModeAndCreateTrip(passengerAsOption, previous, next, destination.value.zone);
      assert draws[..|draws| - 2] == chosen;
      r := Pass;
    }

    // ----- trips -----

    /** Starts a trip: the trip becomes current, passenger events start afresh,
        and the listener learns of the started trip. A car driver's trip needs
        the car. */
    method StartTrip(trip: Trip, date: SimpleTime)
      requires trip.mode.UsesCarAsDriver() ==> person.car.Some? && person.CarState().IsCarDriver()
      modifies this, person
      ensures person.currentTrip == Some(trip) && events == []
      ensures trace == old(trace) + [Notified(Notification.StartTrip(person.oid, StartedTrip(trip, date)))]
      ensures person.schedule == old(person.schedule) && person.current == old(person.current)
      ensures person.CarState() == old(person.CarState()) && person.BikeState() == old(person.BikeState())
      ensures state == old(state) && rideOfferAccepted == old(rideOfferAccepted) && queue == old(queue)
      ensures rideOfferCalls == old(rideOfferCalls) && behaviourCalls == old(behaviourCalls) && draws == old(draws)
    {
      events := [];
      person.SetCurrentTrip(Some(trip));
      var startedTrip := StartedTrip(trip, date);
      trace := trace + [Notified(Notification.StartTrip(person.oid, startedTrip))];
    }

    /** The finished trip: a public-transport trip carries the passenger
        events collected on it. */
    function Finish(currentDate: SimpleTime, trip: Trip): (finished: FinishedTrip)
      reads this
      ensures finished.trip == trip && finished.endDate == currentDate
      ensures finished.events == if trip.publicTransport.Some? then events else []
    {
      if trip.publicTransport.Some? then FinishedTrip(trip, currentDate, events) else FinishedTrip(trip, currentDate, [])
    }

    /** Ends the current trip at its next activity: the listener learns of the
        finished trip, the activity starts, a ride accepted before no longer
        counts, and the listener learns of the started activity. */
    method EndTrip(currentDate: SimpleTime)
      requires person.currentTrip.Some? && person.currentTrip.value.nextActivity.Some?
      requires person.currentTrip.value.nextActivity.value < |person.schedule|
      modifies this, person, person.schedule[person.currentTrip.value.nextActivity.value]
      ensures person.schedule == old(person.schedule) && person.currentTrip == old(person.currentTrip)
      ensures var trip := old(person.currentTrip.value);
        var next := trip.nextActivity.value;
        trace == old(trace) + [Notified(Notification.EndTrip(person.oid, old(Finish(currentDate, person.currentTrip.value)))),
                               Notified(StartActivity(person.oid, next))] &&
        person.current == Some(next) && person.schedule[next].running &&
        person.schedule[next].startDate == currentDate && person.schedule[next].mode == Some(trip.mode)
      ensures !rideOfferAccepted
      ensures person.CarState() == old(person.CarState()) && person.BikeState() == old(person.BikeState())
      ensures state == old(state) && events == old(events) && queue == old(queue)
      ensures rideOfferCalls == old(rideOfferCalls) && behaviourCalls == old(behaviourCalls) && draws == old(draws)
    {
      var trip := person.currentTrip.value;
      var activity := trip.nextActivity.value;
      var finishedTrip := Finish(currentDate, trip);
      trace := trace + [Notified(Notification.EndTrip(person.oid, finishedTrip))];
      person.StartActivity(currentDate, activity, trip);
      rideOfferAccepted := false;
      trace := trace + [Notified(StartActivity(person.oid, activity))];
    }

    /** The external zone id as a number. */
    function ZoneNumber(zoneId: ZoneId): (r: Result<int, SimulationError>)
      ensures r.Success? <==> ParseInt(zoneId.externalId).Some?
      ensures r.Success? ==> r.value == ParseInt(zoneId.externalId).value
    {
      match ParseInt(zoneId.externalId)
      case Some(n) => Success(n)
      case None => Failure(NotAZoneNumber(zoneId.externalId))
    }

    /** A car driver's route is chosen between the numbered zones and reported
        with the car; other trips choose no route. */
    method SelectRoute(trip: Trip, date: SimpleTime) returns (r: Outcome<SimulationError>)
      requires trip.mode.UsesCarAsDriver() ==> person.car.Some? && person.CarState().IsCarDriver()
      modifies this
      ensures !trip.mode.UsesCarAsDriver() ==> r.Pass? && trace == old(trace)
      ensures trip.mode.UsesCarAsDriver() ==>
        (r.Pass? <==> ZoneNumber(trip.origin.zone.id).Success? && ZoneNumber(trip.destination.zone.id).Success?)
      ensures trip.mode.UsesCarAsDriver() && r.Pass? ==>
        trace == old(trace) + [Notified(Notification.SelectCarRoute(person.oid, person.car.value.id, trip))]
      ensures r.Fail? ==> trace == old(trace)
      ensures state == old(state) && rideOfferAccepted == old(rideOfferAccepted) && events == old(events)
      ensures queue == old(queue)
      ensures rideOfferCalls == old(rideOfferCalls) && behaviourCalls == old(behaviourCalls) && draws == old(draws)
    {
      if trip.mode.UsesCarAsDriver() {
        var origin := ZoneNumber(trip.origin.zone.id);
        if origin.Failure? {
          return Fail(origin.error);
        }
        var destination := ZoneNumber(trip.destination.zone.id);
        if destination.Failure? {
          return Fail(destination.error);
        }
        trace := trace + [Notified(Notification.SelectCarRoute(person.oid, person.WhichCar().id, trip))];
      }
      r := Pass;
    }

    // ----- ride sharing -----

    /** A car driver's current trip is offered for ride sharing; other trips
        are not. */
    method OfferRide(currentDate: SimpleTime)
      requires person.currentTrip.Some?
      requires person.currentTrip.value.mode == Car ==> person.CarState().IsCarDriver()
      modifies this
      ensures rideOfferCalls == old(rideOfferCalls) +
        if person.currentTrip.value.mode == Car then [AddOffer(person.currentTrip.value, person.oid)] else []
      ensures state == old(state) && rideOfferAccepted == old(rideOfferAccepted) && events == old(events)
      ensures trace == old(trace) && queue == old(queue)
      ensures behaviourCalls == old(behaviourCalls) && draws == old(draws)
    {
      var trip := person.currentTrip.value;
      if trip.mode == Car {
        rideOfferCalls := rideOfferCalls + [AddOffer(trip, person.oid)];
      }
    }

    /** A car trip's offer is withdrawn; other trips have none. */
    method RevokeRideOffer(trip: Trip, currentTime: SimpleTime)
      modifies this
      ensures rideOfferCalls == old(rideOfferCalls) + if trip.mode == Car then [RemoveOffer(trip, person.oid)] else []
      ensures state == old(state) && rideOfferAccepted == old(rideOfferAccepted) && events == old(events)
      ensures trace == old(trace) && queue == old(queue)
      ensures behaviourCalls == old(behaviourCalls) && draws == old(draws)
    {
      if trip.mode == Car {
        rideOfferCalls := rideOfferCalls + [RemoveOffer(trip, person.oid)];
      }
    }

    /** The position of the first offer of least order, the one a stable
        sort puts in front. */
    function BestOfferIndex(offers: seq<RideOffer>, end: SimpleTime): (best: nat)
      requires |offers| > 0
      ensures best < |offers|
      ensures forall i :: 0 <= i < |offers| ==> offerOrder(offers[best], end) <= offerOrder(offers[i], end)
      ensures forall i :: 0 <= i < best ==> offerOrder(offers[best], end) < offerOrder(offers[i], end)
      decreases |offers|
    {
      if |offers| == 1 then 0
      else
        var rest := BestOfferIndex(offers[1..], end);
        if offerOrder(offers[0], end) <= offerOrder(offers[1..][rest], end) then 0
        else
          assert forall i :: 1 <= i < |offers| ==> offers[i] == offers[1..][i - 1];
          rest + 1
    }

    /** The planned end of an activity: its start plus its duration. */
    function PlannedEndDate(activity: Activity): (end: SimpleTime)
      reads activity
      ensures end.seconds == activity.startDate.seconds + activity.duration * 60
      ensures activity.duration >= 0 ==> activity.startDate.IsBeforeOrEqualTo(end)
    {
      activity.startDate.PlusMinutes(activity.duration)
    }

    /** The best offer that matches the trip, allowing the given lateness and
        no earliness at all. */
    function FindBestMatchingRideOffer(trip: Trip, maxMinutesLate: int): (r: Option<RideOffer>)
      requires person.current.Some? && person.current.value < |person.schedule|
      reads this, person, person.schedule[person.current.value]
      ensures var offers := matchingTrips(trip, 0, maxMinutesLate);
        var end := PlannedEndDate(person.schedule[person.current.value]);
        (r.None? <==> offers == []) &&
        (r.Some? ==>
          exists k :: 0 <= k < |offers| && offers[k] == r.value &&
            (forall i :: 0 <= i < |offers| ==> offerOrder(r.value, end) <= offerOrder(offers[i], end)) &&
            (forall i :: 0 <= i < k ==> offerOrder(r.value, end) < offerOrder(offers[i], end)))
    {
      var activity := person.schedule[person.current.value];
      var offers := matchingTrips(trip, MaxMinutesEarly(activity.duration), maxMinutesLate);
      if offers == [] then None else Some(offers[BestOfferIndex(offers, PlannedEndDate(activity))])
    }

    /** Rides along: the current activity ends when the offered trip starts,
        the current trip starts at the activity's new end, the person becomes
        the offered car's passenger and the ride counts as accepted. */
    method AcceptOffer(offer: RideOffer)
      requires person.current.Some? && person.current.value < |person.schedule| && person.currentTrip.Some?
      requires offer.car.CanCarryPassengers() && !person.CarState().IsUsingCar()
      modifies this, person, person.schedule[person.current.value], offer.car
      ensures person.schedule == old(person.schedule) && person.current == old(person.current)
      ensures var activity := person.schedule[person.current.value];
        activity.duration == offer.trip.plannedStart.DifferenceTo(old(person.schedule[person.current.value].startDate)).ToMinutes() &&
        activity.startDate == old(person.schedule[person.current.value].startDate) &&
        person.currentTrip == Some(ChangeStartTimeOfTrip(old(person.currentTrip.value), PlannedEndDate(activity)))
      ensures person.CarState() == CarHolding(Some(offer.car), AsPassenger)
      ensures offer.car.passengers == old(offer.car.passengers) + {person.oid}
      ensures rideOfferAccepted
      ensures state == old(state) && events == old(events) && trace == old(trace) && queue == old(queue)
      ensures rideOfferCalls == old(rideOfferCalls) && behaviourCalls == old(behaviourCalls) && draws == old(draws)
    {
      var activity := person.schedule[person.current.value];
      var tripStart := offer.trip.plannedStart;
      var adjustedDuration := tripStart.DifferenceTo(activity.startDate).ToMinutes();
      activity.duration := adjustedDuration;
      var modifiedTrip := ChangeStartTimeOfTrip(person.currentTrip.value, PlannedEndDate(activity));
      person.SetCurrentTrip(Some(modifiedTrip));
      person.UseCarAsPassenger(offer.car);
      rideOfferAccepted := true;
    }

    /** Accepts the best matching offer, if there is one. */
    method FindAndAcceptBestMatchingRideOffer(trip: Trip, maxDifferenceMinutes: int) returns (accepted: bool)
      requires person.current.Some? && person.current.value < |person.schedule| && person.currentTrip.Some?
      requires !person.CarState().IsUsingCar()
      requires var best := FindBestMatchingRideOffer(trip, maxDifferenceMinutes);
        best.Some? ==> allocated(best.value.car) && best.value.car.CanCarryPassengers()
      modifies this, person, person.schedule[person.current.value]
      modifies var best := FindBestMatchingRideOffer(trip, maxDifferenceMinutes);
        if best.Some? then {best.value.car} else {}
      ensures person.schedule == old(person.schedule) && person.current == old(person.current)
      ensures accepted <==> matchingTrips(trip, 0, maxDifferenceMinutes) != []
      ensures accepted ==>
        var best := old(FindBestMatchingRideOffer(trip, maxDifferenceMinutes)).value;
        var activity := person.schedule[person.current.value];
        rideOfferAccepted && person.CarState() == CarHolding(Some(best.car), AsPassenger) &&
        best.car.passengers == old(best.car.passengers) + {person.oid} &&
        activity.duration == best.trip.plannedStart.DifferenceTo(old(person.schedule[person.current.value].startDate)).ToMinutes() &&
        activity.startDate == old(person.schedule[person.current.value].startDate) &&
        person.currentTrip == Some(ChangeStartTimeOfTrip(old(person.currentTrip.value), PlannedEndDate(activity)))
      ensures !accepted ==>
        rideOfferAccepted == old(rideOfferAccepted) && person.CarState() == old(person.CarState()) &&
        person.currentTrip == old(person.currentTrip) &&
        person.schedule[person.current.value].duration == old(person.schedule[person.current.value].duration) &&
        person.schedule[person.current.value].startDate == old(person.schedule[person.current.value].startDate)
      ensures state == old(state) && events == old(events) && trace == old(trace) && queue == old(queue)
      ensures rideOfferCalls == old(rideOfferCalls) && behaviourCalls == old(behaviourCalls) && draws == old(draws)
    {
      var offer := FindBestMatchingRideOffer(trip, maxDifferenceMinutes);
      if offer.None? {
        return false;
      }
      AcceptOffer(offer.value);
      accepted := true;
    }

    // ----- public transport -----

    /** The trip object of a public-transport trip carries its legs. */
    predicate OnPublicTransportTrip()
      reads person
    {
      person.currentTrip.Some? && person.currentTrip.value.publicTransport.Some?
    }

    function CurrentPart(): (part: Option<Leg>)
      requires OnPublicTransportTrip()
      reads person
      ensures var plan := person.currentTrip.value.publicTransport.value;
        (part.Some? <==> plan.done < |plan.legs|) && (part.Some? ==> part.value == plan.legs[plan.done])
    {
      person.currentTrip.value.publicTransport.value.CurrentLeg()
    }

    /** Only a public-transport trip enters its first stop, waiting at the
        start of the current leg when there is one. */
    method EnterFirstStop(time: SimpleTime) returns (r: Outcome<SimulationError>)
      requires person.currentTrip.Some?
      requires IsPublicTransportTrip(person.currentTrip.value) ==> OnPublicTransportTrip()
      modifies this
      ensures r.Fail? <==> !IsPublicTransportTrip(person.currentTrip.value)
      ensures r.Fail? ==> behaviourCalls == old(behaviourCalls)
      ensures r.Pass? && CurrentPart().None? ==> behaviourCalls == old(behaviourCalls)
      ensures r.Pass? && CurrentPart().Some? ==>
        behaviourCalls == old(behaviourCalls) + [EnterWaitingArea(CurrentPart().value.startStop)]
      ensures state == old(state) && rideOfferAccepted == old(rideOfferAccepted) && events == old(events)
      ensures trace == old(trace) && queue == old(queue)
      ensures rideOfferCalls == old(rideOfferCalls) && draws == old(draws)
    {
      if !IsPublicTransportTrip(person.currentTrip.value) {
        return Fail(NotPublicTransport(person.currentTrip.value));
      }
      var part := CurrentPart();
      if part.Some? {
        behaviourCalls := behaviourCalls + [EnterWaitingArea(part.value.startStop)];
      }
      r := Pass;
    }

    /** With no leg left the vehicle counts as not departed. */
    function HasPublicTransportVehicleDeparted(time: SimpleTime): (departed: bool)
      requires OnPublicTransportTrip()
      reads person
      ensures CurrentPart().None? ==> !departed
      ensures CurrentPart().Some? ==> departed == hasVehicleDeparted(CurrentPart().value)
    {
      match CurrentPart()
      case Some(leg) => hasVehicleDeparted(leg)
      case None => false
    }

    /** With no leg left a vehicle counts as available. */
    function IsPublicTransportVehicleAvailable(time: SimpleTime): (available: bool)
      requires OnPublicTransportTrip()
      reads person
      ensures CurrentPart().None? ==> available
      ensures CurrentPart().Some? ==> available == isVehicleAvailable(CurrentPart().value)
    {
      match CurrentPart()
      case Some(leg) => isVehicleAvailable(leg)
      case None => true
    }

    /** With no leg left there counts as place in the vehicle. */
    function HasPlaceInPublicTransportVehicle(): (place: bool)
      requires OnPublicTransportTrip()
      reads person
      ensures CurrentPart().None? ==> place
      ensures CurrentPart().Some? ==> place == hasPlaceInVehicle(CurrentPart().value)
    {
      match CurrentPart()
      case Some(leg) => hasPlaceInVehicle(leg)
      case None => true
    }

    /** The person has arrived exactly when no leg is left. */
    function HasArrivedAtNextActivity(): (arrived: bool)
      requires OnPublicTransportTrip()
      reads person
      ensures arrived <==> person.currentTrip.value.publicTransport.value.done >= |person.currentTrip.value.publicTransport.value.legs|
    {
      CurrentPart().None?
    }

    /** A public-transport trip is replaced by a newly searched one; any other
        trip is kept. */
    method ChangeToNewTrip(time: SimpleTime)
      requires person.currentTrip.Some?
      requires IsPublicTransportTrip(person.currentTrip.value) ==> OnPublicTransportTrip()
      modifies person
      ensures !IsPublicTransportTrip(old(person.currentTrip.value)) ==> person.currentTrip == old(person.currentTrip)
      ensures IsPublicTransportTrip(old(person.currentTrip.value)) ==>
        person.currentTrip == Some(searchNewTrip(old(person.currentTrip.value), time))
      ensures person.schedule == old(person.schedule) && person.current == old(person.current)
      ensures person.CarState() == old(person.CarState()) && person.BikeState() == old(person.BikeState())
    {
      if !IsPublicTransportTrip(person.currentTrip.value) {
        return;
      }
      person.SetCurrentTrip(Some(searchNewTrip(person.currentTrip.value, time)));
    }

    /** Boards the vehicle of the current leg, if any, and records it. */
    method BoardPublicTransportVehicle(time: SimpleTime)
      requires OnPublicTransportTrip()
      modifies this
      ensures CurrentPart().None? ==> behaviourCalls == old(behaviourCalls) && events == old(events)
      ensures CurrentPart().Some? ==>
        behaviourCalls == old(behaviourCalls) + [BoardVehicle(time, CurrentPart().value)] &&
        events == old(events) + [PassengerEvent(Board, time, CurrentPart().value.journeyId)]
      ensures state == old(state) && rideOfferAccepted == old(rideOfferAccepted)
      ensures trace == old(trace) && queue == old(queue)
      ensures rideOfferCalls == old(rideOfferCalls) && draws == old(draws)
    {
      var part := CurrentPart();
      if part.Some? {
        behaviourCalls := behaviourCalls + [BoardVehicle(time, part.value)];
        events := events + [PassengerEvent(Board, time, part.value.journeyId)];
      }
    }

    /** Gets off the vehicle of the current leg, if any, and records it; the
        trip moves on to its next leg in any case. */
    method GetOffPublicTransportVehicle(time: SimpleTime)
      requires OnPublicTransportTrip()
      modifies this, person
      ensures old(CurrentPart()).None? ==> behaviourCalls == old(behaviourCalls) && events == old(events)
      ensures old(CurrentPart()).Some? ==>
        behaviourCalls == old(behaviourCalls) + [GetOffVehicle(time, old(CurrentPart()).value)] &&
        events == old(events) + [PassengerEvent(GetOff, time, old(CurrentPart()).value.journeyId)]
      ensures person.currentTrip == Some(old(person.currentTrip.value).(
        publicTransport := Some(old(person.currentTrip.value.publicTransport.value).NextLeg())))
      ensures person.schedule == old(person.schedule) && person.current == old(person.current)
      ensures person.CarState() == old(person.CarState()) && person.BikeState() == old(person.BikeState())
      ensures state == old(state) && rideOfferAccepted == old(rideOfferAccepted)
      ensures trace == old(trace) && queue == old(queue)
      ensures rideOfferCalls == old(rideOfferCalls) && draws == old(draws)
    {
      var part := CurrentPart();
      if part.Some? {
        behaviourCalls := behaviourCalls + [GetOffVehicle(time, part.value)];
        events := events + [PassengerEvent(GetOff, time, part.value.journeyId)];
      }
      var trip := person.currentTrip.value;
      person.SetCurrentTrip(Some(trip.(publicTransport := Some(trip.publicTransport.value.NextLeg()))));
    }

    /** Waits for the vehicle of the current leg, if any, and records it. */
    method Wait(time: SimpleTime)
      requires OnPublicTransportTrip()
      modifies this
      ensures CurrentPart().None? ==> behaviourCalls == old(behaviourCalls) && events == old(events)
      ensures CurrentPart().Some? ==>
        behaviourCalls == old(behaviourCalls) + [WaitForVehicle(time, CurrentPart().value)] &&
        events == old(events) + [PassengerEvent(PassengerEventKind.Wait, time, CurrentPart().value.journeyId)]
      ensures state == old(state) && rideOfferAccepted == old(rideOfferAccepted)
      ensures trace == old(trace) && queue == old(queue)
      ensures rideOfferCalls == old(rideOfferCalls) && draws == old(draws)
    {
      var part := CurrentPart();
      if part.Some? {
        behaviourCalls := behaviourCalls + [WaitForVehicle(time, part.value)];
        events := events + [PassengerEvent(PassengerEventKind.Wait, time, part.value.journeyId)];
      }
    }

    method ArriveAtStop(currentDate: SimpleTime)
      requires Settles()
      modifies this
      ensures state == SettledPath(old(state), currentDate)[|SettledPath(old(state), currentDate)| - 1]
      ensures !instantaneous(state)
      ensures trace == old(trace) + PathEffects(person.oid, SettledPath(old(state), currentDate), currentDate)
      ensures queue == old(queue) + (if nextEvent(state, currentDate).Some? then [nextEvent(state, currentDate).value] else [])
      ensures rideOfferAccepted == old(rideOfferAccepted) && events == old(events)
      ensures rideOfferCalls == old(rideOfferCalls) && behaviourCalls == old(behaviourCalls) && draws == old(draws)
    {
      UpdateState(currentDate);
    }

    /** Only the vehicle serving the current leg makes the person update. */
    method VehicleArriving(journeyId: int, currentDate: SimpleTime)
      requires OnPublicTransportTrip() && Settles()
      modifies this
      ensures !(CurrentPart().Some? && CurrentPart().value.journeyId == journeyId) ==>
        state == old(state) && trace == old(trace) && queue == old(queue)
      ensures CurrentPart().Some? && CurrentPart().value.journeyId == journeyId ==>
        state == SettledPath(old(state), currentDate)[|SettledPath(old(state), currentDate)| - 1]
      ensures CurrentPart().Some? && CurrentPart().value.journeyId == journeyId ==>
        trace == old(trace) + PathEffects(person.oid, SettledPath(old(state), currentDate), currentDate)
      ensures CurrentPart().Some? && CurrentPart().value.journeyId == journeyId ==>
        queue == old(queue) + (if nextEvent(state, currentDate).Some? then [nextEvent(state, currentDate).value] else [])
      ensures rideOfferAccepted == old(rideOfferAccepted) && events == old(events)
      ensures rideOfferCalls == old(rideOfferCalls) && behaviourCalls == old(behaviourCalls) && draws == old(draws)
    {
      var part := CurrentPart();
      if part.Some? && part.value.journeyId == journeyId {
        UpdateState(currentDate);
      }
    }
  }
}

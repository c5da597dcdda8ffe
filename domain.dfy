/** The vocabulary shared by the simulation core: modes, activity types,
    zones and locations, trips, and the activities of a schedule.

    The Java types behind these (StandardMode, ActivityType, Zone, Location,
    Trip, ActivityIfc) are not part of this model; their shape here is what
    the modelled code reads of them. */
module Domain {
  import opened Wrappers
  import opened Time

  /** The standard modes the core names. */
  datatype Mode =
    | Car
    | Passenger
    | Bike
    | Pedestrian
    | PublicTransport
    | CarsharingStation
    | CarsharingFree
  {
    /** The modes in which the traveller drives a car. */
    predicate UsesCarAsDriver() {
      Car? || CarsharingStation? || CarsharingFree?
    }
  }

  /** Activity purposes. Home, work and the other fixed purposes have a fixed
      destination per person; flexible purposes are located by choice. */
  datatype ActivityType =
    | Home
    | Work
    | Education
    | PrivateVisit
    | OtherFixed(code: int)
    | Flexible(code: int)
  {
    predicate IsHomeActivity() { Home? }
    predicate IsWorkActivity() { Work? }
    predicate IsFixedActivity() { Home? || Work? || Education? || OtherFixed? }
  }

  datatype ZoneClassificationType = StudyArea | ExtendedStudyArea | OutlyingArea

  datatype Location = Location(x: real, y: real)

  /** What the destination choice reads of a zone's demand data: for which
      purposes it has opportunity locations, and the home locations of the
      households living there. */
  datatype DemandData = DemandData(locationsAvailable: set<ActivityType>, householdLocations: seq<Location>)

  /** A zone's identity: its id in the input data and its column in the
      zone-by-zone matrices. */
  datatype ZoneId = ZoneId(externalId: string, matrixColumn: int)

  datatype Zone = Zone(
    id: ZoneId,
    classification: ZoneClassificationType,
    centroid: Location,
    demandData: Option<DemandData>)

  /** A zone as seen by the population synthesis: whether persons are to be
      generated for it. */
  datatype DemandZone = DemandZone(zone: Zone, shouldGeneratePopulation: bool)

  /** The calls a zone-demand calculator receives; the impedance type is
      left open. DemandDataForZoneCalculatorIfc.java is not part of this
      model. */
  datatype ZoneCalculatorCall<I> = CalculateDemandData(zone: DemandZone, impedance: I) | SaveDemandData(zone: DemandZone)

  datatype ZoneAndLocation = ZoneAndLocation(zone: Zone, location: Location)

  datatype Household = Household(oid: int, homeZone: Zone, homeLocation: Location, availableCars: int)

  datatype FixedDestination = FixedDestination(zone: Zone, location: Location)

  /** One leg of a public-transport trip, served by one journey. */
  datatype Leg = Leg(journeyId: int, startStop: int, endStop: int)

  /** The legs of a public-transport trip and how many of them are done. */
  datatype PublicTransportPlan = PublicTransportPlan(legs: seq<Leg>, done: nat) {
    function CurrentLeg(): (r: Option<Leg>)
      ensures r.Some? <==> done < |legs|
      ensures r.Some? ==> r.value == legs[done]
    {
      if done < |legs| then Some(legs[done]) else None
    }
    function NextLeg(): PublicTransportPlan { PublicTransportPlan(legs, done + 1) }
  }

  /** A trip between two activities of one person's schedule (given by their
      positions). `nextActivity` is None for a trip that targets no activity.
      A trip built as a public-transport trip carries its legs. */
  datatype Trip = Trip(
    oid: int,
    legId: int,
    mode: Mode,
    previousActivity: nat,
    nextActivity: Option<nat>,
    origin: ZoneAndLocation,
    destination: ZoneAndLocation,
    plannedStart: SimpleTime,
    plannedDuration: int,
    publicTransport: Option<PublicTransportPlan>)

  datatype StartedTrip = StartedTrip(trip: Trip, startDate: SimpleTime)

  datatype PassengerEventKind = Board | GetOff | Wait

  datatype PassengerEvent = PassengerEvent(kind: PassengerEventKind, time: SimpleTime, journeyId: int)

  datatype FinishedTrip = FinishedTrip(trip: Trip, endDate: SimpleTime, events: seq<PassengerEvent>) {
    function Origin(): ZoneAndLocation { trip.origin }
    function Destination(): ZoneAndLocation { trip.destination }
  }

  /** One activity of a realised schedule. Its purpose never changes; its
      location is set at the first visit, and its timing, running flag and
      mode change as the person moves through the week. */
  class Activity {
    const activityType: ActivityType
    var location: Option<ZoneAndLocation>
    var running: bool
    var startDate: SimpleTime
    var duration: int
    var mode: Option<Mode>

    constructor (activityType: ActivityType, startDate: SimpleTime, duration: int)
      ensures this.activityType == activityType && this.startDate == startDate && this.duration == duration
      ensures location == None && !running && mode == None
    {
      this.activityType := activityType;
      this.startDate := startDate;
      this.duration := duration;
      location := None;
      running := false;
      mode := None;
    }

    predicate IsLocationSet() reads this { location.Some? }
  }

  /** An event of the simulation queue: the person it belongs to and when. */
  datatype DemandEvent = DemandEvent(personOid: int, date: SimpleTime, kind: int)
}

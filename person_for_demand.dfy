/** A simulated person's exclusive use of vehicles, its fixed destinations,
    and the bookkeeping when it starts an activity.

    A person holds at most one car, as driver, as passenger or parked, and at
    most one bike, ridden or parked. The car and bike operations state their
    guards as preconditions where the source asserts them and as failures
    where it throws.

    The car and the bike are not part of this model beyond what the person
    does to them: a car records its driver and passengers, a bike its rider.
    The activity schedule is a sequence of activities; creating it from the
    tour pattern and adjusting it on a late start are parameters and
    recorded calls. */
module PersonsForDemand {
  import opened Wrappers
  import opened Time
  import opened Domain

  class Car {
    const id: int
    var driver: Option<int>
    var passengers: set<int>

    constructor (id: int)
      ensures this.id == id && driver == None && passengers == {}
    {
      this.id := id;
      driver := None;
      passengers := {};
    }

    predicate IsUsed() reads this { driver.Some? }
    /** Passengers need a driver. */
    predicate CanCarryPassengers() reads this { driver.Some? }

    method Use(person: int, time: SimpleTime)
      modifies this
      ensures driver == Some(person) && passengers == old(passengers)
    {
      driver := Some(person);
    }

    method UseAsPassenger(person: int)
      modifies this
      ensures passengers == old(passengers) + {person} && driver == old(driver)
    {
      passengers := passengers + {person};
    }

    method Leave(person: int)
      modifies this
      ensures passengers == old(passengers) - {person} && driver == old(driver)
    {
      passengers := passengers - {person};
    }

    method Release(person: int, time: SimpleTime)
      modifies this
      ensures driver == None && passengers == old(passengers)
    {
      driver := None;
    }
  }

  class Bike {
    const id: int
    var rider: Option<int>

    constructor (id: int)
      ensures this.id == id && rider == None
    {
      this.id := id;
      rider := None;
    }

    method Use(person: int, time: SimpleTime)
      modifies this
      ensures rider == Some(person)
    {
      rider := Some(person);
    }

    method Release(person: int, time: SimpleTime)
      modifies this
      ensures rider == None
    {
      rider := None;
    }
  }

  datatype CarUsage = NoCarUsage | AsDriver | AsPassenger | CarParked
  datatype BikeUsage = NoBikeUsage | Riding | BikeParked

  /** The car a person holds and how it uses it. */
  datatype CarHolding = CarHolding(car: Option<Car>, usage: CarUsage) {
    /** A car is held exactly when it is in some use. */
    predicate Valid() { car.Some? <==> usage != NoCarUsage }

    function IsCarDriver(): (driver: bool)
      ensures driver <==> usage == AsDriver
      ensures driver && Valid() ==> car.Some?
    {
      usage == AsDriver
    }

    function IsCarPassenger(): (passenger: bool)
      ensures passenger <==> usage == AsPassenger
      ensures passenger && Valid() ==> car.Some?
    {
      usage == AsPassenger
    }

    function HasParkedCar(): (parked: bool)
      ensures parked <==> usage == CarParked
      ensures parked && Valid() ==> car.Some?
    {
      usage == CarParked
    }

    /** Some use of a car: as driver, as passenger or parked. In a consistent
        holding that is exactly holding a car. */
    function IsUsingCar(): (using: bool)
      ensures using <==> usage != NoCarUsage
      ensures Valid() ==> (using <==> car.Some?)
    {
      IsCarDriver() || IsCarPassenger() || HasParkedCar()
    }
  }

  datatype CarOperation = UseCar(useCar: Car) | UseCarAsPassenger(passengerCar: Car) | LeaveCar | ReleaseCar | ParkCar | TakeCarFromParking

  /** The guards the car operations assert about the person: a new car only
      when no car is used, the other operations only with a car held. Leaving
      a car without one fails on the missing car. */
  function CarAllowed(h: CarHolding, op: CarOperation): (allowed: bool)
    ensures op.UseCar? || op.UseCarAsPassenger? ==> (allowed <==> !h.IsUsingCar())
    ensures !(op.UseCar? || op.UseCarAsPassenger?) && h.Valid() ==> (allowed <==> h.IsUsingCar())
  {
    match op
    case UseCar(_) => !h.IsUsingCar()
    case UseCarAsPassenger(_) => !h.IsUsingCar()
    case _ => h.car.Some?
  }

  /** The holding after a car operation. Releasing and parking look only at
      the car being held, not at how it is used. */
  function CarAfter(h: CarHolding, op: CarOperation): (r: CarHolding)
    ensures !(op.UseCar? || op.UseCarAsPassenger?) ==> r.car == None || r.car == h.car
    ensures h.car.Some? || !(op.ParkCar? || op.TakeCarFromParking?) ==> r.Valid()
  {
    match op
    case UseCar(c) => CarHolding(Some(c), AsDriver)
    case UseCarAsPassenger(c) => CarHolding(Some(c), AsPassenger)
    case LeaveCar => CarHolding(None, NoCarUsage)
    case ReleaseCar => CarHolding(None, NoCarUsage)
    case ParkCar => CarHolding(h.car, CarParked)
    case TakeCarFromParking => CarHolding(h.car, AsDriver)
  }

  /** Every allowed car operation keeps the holding consistent, and
      parking, taking from parking, releasing or leaving never exchange the
      car: only using a car gives the person a different one. */
  lemma CarOperationsKeepHolding(h: CarHolding, op: CarOperation)
    requires h.Valid() && CarAllowed(h, op)
    ensures CarAfter(h, op).Valid()
    ensures op.ParkCar? || op.TakeCarFromParking? ==> CarAfter(h, op).car == h.car
    ensures op.LeaveCar? || op.ReleaseCar? ==> !CarAfter(h, op).IsUsingCar() && CarAfter(h, op).car == None
    ensures op.UseCar? ==> CarAfter(h, op).IsCarDriver() && CarAfter(h, op).car == Some(op.useCar)
    ensures op.UseCarAsPassenger? ==> CarAfter(h, op).IsCarPassenger() && CarAfter(h, op).car == Some(op.passengerCar)
  {
  }

  /** Releasing a parked car or one used as passenger is allowed: only a held
      car is checked. */
  lemma ReleaseIgnoresUsage(c: Car)
    ensures CarAllowed(CarHolding(Some(c), CarParked), ReleaseCar)
    ensures CarAllowed(CarHolding(Some(c), AsPassenger), ReleaseCar)
    ensures CarAllowed(CarHolding(Some(c), AsPassenger), ParkCar)
    ensures CarAfter(CarHolding(Some(c), AsPassenger), ParkCar) == CarHolding(Some(c), CarParked)
  {
  }

  /** Parking a driven car and taking it again restores the holding; using a
      car and then releasing it leaves no car. */
  lemma CarRoundTrips(h: CarHolding, c: Car)
    requires h.Valid()
    ensures h.IsCarDriver() ==> CarAfter(CarAfter(h, ParkCar), TakeCarFromParking) == h
    ensures !h.IsUsingCar() ==> CarAllowed(CarAfter(h, UseCar(c)), ReleaseCar)
    ensures !h.IsUsingCar() ==> CarAfter(CarAfter(h, UseCar(c)), ReleaseCar) == h
  {
  }

  /** The bike a person holds and how it uses it; the usage is unset until a
      bike is first used. */
  datatype BikeHolding = BikeHolding(bike: Option<Bike>, usage: Option<BikeUsage>) {
    /** A bike is held exactly when it is ridden or parked. */
    predicate Valid() { bike.Some? <==> usage == Some(Riding) || usage == Some(BikeParked) }

    /** Riding a held bike; a consistent state that is not parked. */
    function IsCycling(): (cycling: bool)
      ensures cycling <==> bike.Some? && usage == Some(Riding)
      ensures cycling ==> Valid() && !HasParkedBike()
    {
      bike.Some? && usage == Some(Riding)
    }

    /** A held bike that is parked; a consistent state. */
    function HasParkedBike(): (parked: bool)
      ensures parked <==> bike.Some? && usage == Some(BikeParked)
      ensures parked ==> Valid()
    {
      bike.Some? && usage == Some(BikeParked)
    }
  }

  datatype BikeError = NoBikeToPark | NoParkedBike | NoBikeInUse

  datatype BikeOperation = UseBike(bike: Bike) | ParkBike | TakeBikeFromParking | ReleaseBike

  /** The holding after a bike operation, or the failure the person reports.
      Using a bike is never refused, even while another bike is held. */
  function BikeAfter(h: BikeHolding, op: BikeOperation): (r: Result<BikeHolding, BikeError>)
    ensures op.UseBike? ==> r.Success?
    ensures op.ParkBike? ==> (r.Success? <==> h.IsCycling())
    ensures op.TakeBikeFromParking? ==> (r.Success? <==> h.HasParkedBike())
    ensures op.ReleaseBike? ==> (r.Success? <==> h.IsCycling())
  {
    match op
    case UseBike(b) => Success(BikeHolding(Some(b), Some(Riding)))
    case ParkBike => if !h.IsCycling() then Failure(NoBikeToPark) else Success(BikeHolding(h.bike, Some(BikeParked)))
    case TakeBikeFromParking => if !h.HasParkedBike() then Failure(NoParkedBike) else Success(BikeHolding(h.bike, Some(Riding)))
    case ReleaseBike => if !h.IsCycling() then Failure(NoBikeInUse) else Success(BikeHolding(None, Some(NoBikeUsage)))
  }

  /** Every bike operation that succeeds keeps the holding consistent; a
      release leaves no bike, parking and taking keep the bike. */
  lemma BikeOperationsKeepHolding(h: BikeHolding, op: BikeOperation)
    requires h.Valid() && BikeAfter(h, op).Success?
    ensures BikeAfter(h, op).value.Valid()
    ensures op.ReleaseBike? ==> BikeAfter(h, op).value.bike == None && BikeAfter(h, op).value.usage == Some(NoBikeUsage)
    ensures op.ParkBike? ==> BikeAfter(h, op).value.HasParkedBike() && BikeAfter(h, op).value.bike == h.bike
    ensures op.TakeBikeFromParking? ==> BikeAfter(h, op).value.IsCycling() && BikeAfter(h, op).value.bike == h.bike
    ensures op.UseBike? ==> BikeAfter(h, op).value.IsCycling() && BikeAfter(h, op).value.bike == Some(op.bike)
  {
  }

  /** Parking a ridden bike and taking it again restores the holding. */
  lemma BikeParkRoundTrip(h: BikeHolding)
    requires h.IsCycling()
    ensures BikeAfter(h, ParkBike).Success?
    ensures BikeAfter(BikeAfter(h, ParkBike).value, TakeBikeFromParking) == Success(h)
  {
  }

  /** The index of the first fixed activity after position i, if any. */
  function FirstFixedAfter(schedule: seq<Activity>, i: nat): (k: Option<nat>)
    requires i < |schedule|
    ensures k.Some? ==> i < k.value < |schedule| && schedule[k.value].activityType.IsFixedActivity()
    ensures k.Some? ==> forall j :: i < j < k.value ==> !schedule[j].activityType.IsFixedActivity()
    ensures k.None? ==> forall j :: i < j < |schedule| ==> !schedule[j].activityType.IsFixedActivity()
    decreases |schedule| - i
  {
    if i + 1 == |schedule| then None
    else if schedule[i + 1].activityType.IsFixedActivity() then Some(i + 1)
    else FirstFixedAfter(schedule, i + 1)
  }

  datatype DestinationError = MissingDestination(activityType: ActivityType)

  /** A simulated person, generic over the tour pattern type P. Created with
      its tour pattern; the schedule is built from it once. */
  class PersonForDemand<P> {
    const oid: int
    const household: Household
    const hasBike: bool
    const hasLicense: bool
    const fixedDestinations: map<ActivityType, FixedDestination>
    /** Builds the activity schedule from the pattern week and the days. */
    const createSchedule: (P, seq<SimpleTime>) -> seq<Activity>

    var tourPattern: Option<P>
    var schedule: seq<Activity>
    /** The position of the current activity in the schedule. */
    var current: Option<nat>
    var currentTrip: Option<Trip>
    /** The rescheduling requests: the activity, its planned and its actual
        start. */
    var reschedulings: seq<(Activity, SimpleTime, SimpleTime)>

    var car: Option<Car>
    var currentCarUsage: CarUsage
    var bike: Option<Bike>
    var currentBikeUsage: Option<BikeUsage>
    var personalCar: Option<Car>

    constructor (
      oid: int, household: Household, hasBike: bool, hasLicense: bool,
      fixedDestinations: map<ActivityType, FixedDestination>, tourPattern: P,
      createSchedule: (P, seq<SimpleTime>) -> seq<Activity>)
      ensures this.oid == oid && this.household == household && this.hasBike == hasBike && this.hasLicense == hasLicense
      ensures this.fixedDestinations == fixedDestinations && this.createSchedule == createSchedule
      ensures this.tourPattern == Some(tourPattern) && schedule == [] && current == None && currentTrip == None
      ensures reschedulings == []
      ensures CarState() == CarHolding(None, NoCarUsage) && BikeState() == BikeHolding(None, None)
      ensures personalCar == None
      ensures Valid()
    {
      this.oid := oid;
      this.household := household;
      this.hasBike := hasBike;
      this.hasLicense := hasLicense;
      this.fixedDestinations := fixedDestinations;
      this.createSchedule := createSchedule;
      this.tourPattern := Some(tourPattern);
      schedule := [];
      current := None;
      currentTrip := None;
      reschedulings := [];
      car := None;
      currentCarUsage := NoCarUsage;
      bike := None;
      currentBikeUsage := None;
      personalCar := None;
    }

    function CarState(): CarHolding reads this { CarHolding(car, currentCarUsage) }
    function BikeState(): BikeHolding reads this { BikeHolding(bike, currentBikeUsage) }

    predicate Valid() reads this { CarState().Valid() && BikeState().Valid() }

    function WhichCar(): (c: Car)
      requires CarState().IsUsingCar() && car.Some?
      reads this
      ensures CarState().car == Some(c)
    {
      car.value
    }

    method UseCar(c: Car, time: SimpleTime)
      requires !c.IsUsed() && CarAllowed(CarState(), CarOperation.UseCar(c))
      modifies this, c
      ensures CarState() == CarAfter(old(CarState()), CarOperation.UseCar(c))
      ensures c.driver == Some(oid) && c.passengers == old(c.passengers)
      ensures BikeState() == old(BikeState()) && personalCar == old(personalCar)
      ensures old(Valid()) ==> Valid()
      ensures schedule == old(schedule) && current == old(current) && currentTrip == old(currentTrip) && reschedulings == old(reschedulings)
      ensures tourPattern == old(tourPattern)
    {
      car := Some(c);
      currentCarUsage := AsDriver;
      c.Use(oid, time);
    }

    method UseCarAsPassenger(c: Car)
      requires c.CanCarryPassengers() && CarAllowed(CarState(), CarOperation.UseCarAsPassenger(c))
      modifies this, c
      ensures CarState() == CarAfter(old(CarState()), CarOperation.UseCarAsPassenger(c))
      ensures c.passengers == old(c.passengers) + {oid} && c.driver == old(c.driver)
      ensures BikeState() == old(BikeState()) && personalCar == old(personalCar)
      ensures old(Valid()) ==> Valid()
      ensures schedule == old(schedule) && current == old(current) && currentTrip == old(currentTrip) && reschedulings == old(reschedulings)
      ensures tourPattern == old(tourPattern)
    {
      car := Some(c);
      currentCarUsage := AsPassenger;
      c.UseAsPassenger(oid);
    }

    method LeaveCar()
      requires CarAllowed(CarState(), CarOperation.LeaveCar)
      modifies this, car.value
      ensures CarState() == CarAfter(old(CarState()), CarOperation.LeaveCar)
      ensures old(car.value).passengers == old(car.value.passengers) - {oid}
      ensures old(car.value).driver == old(car.value.driver)
      ensures BikeState() == old(BikeState()) && personalCar == old(personalCar)
      ensures old(Valid()) ==> Valid()
      ensures schedule == old(schedule) && current == old(current) && currentTrip == old(currentTrip) && reschedulings == old(reschedulings)
      ensures tourPattern == old(tourPattern)
    {
      var c := car.value;
      car := None;
      currentCarUsage := NoCarUsage;
      c.Leave(oid);
    }

    method ReleaseCar(time: SimpleTime) returns (released: Car)
      requires CarAllowed(CarState(), CarOperation.ReleaseCar)
      modifies this, car.value
      ensures released == old(car.value)
      ensures CarState() == CarAfter(old(CarState()), CarOperation.ReleaseCar)
      ensures released.driver == None && released.passengers == old(car.value.passengers)
      ensures BikeState() == old(BikeState()) && personalCar == old(personalCar)
      ensures old(Valid()) ==> Valid()
      ensures schedule == old(schedule) && current == old(current) && currentTrip == old(currentTrip) && reschedulings == old(reschedulings)
      ensures tourPattern == old(tourPattern)
    {
      released := car.value;
      car := None;
      currentCarUsage := NoCarUsage;
      released.Release(oid, time);
    }

    method ParkCar(zone: Zone, location: Location, time: SimpleTime) returns (parked: Car)
      requires CarAllowed(CarState(), CarOperation.ParkCar)
      modifies this
      ensures car == Some(parked)
      ensures CarState() == CarAfter(old(CarState()), CarOperation.ParkCar)
      ensures BikeState() == old(BikeState()) && personalCar == old(personalCar)
      ensures old(Valid()) ==> Valid()
      ensures schedule == old(schedule) && current == old(current) && currentTrip == old(currentTrip) && reschedulings == old(reschedulings)
      ensures tourPattern == old(tourPattern)
    {
      currentCarUsage := CarParked;
      parked := car.value;
    }

    method TakeCarFromParking()
      requires CarAllowed(CarState(), CarOperation.TakeCarFromParking)
      modifies this
      ensures CarState() == CarAfter(old(CarState()), CarOperation.TakeCarFromParking)
      ensures BikeState() == old(BikeState()) && personalCar == old(personalCar)
      ensures old(Valid()) ==> Valid()
      ensures schedule == old(schedule) && current == old(current) && currentTrip == old(currentTrip) && reschedulings == old(reschedulings)
      ensures tourPattern == old(tourPattern)
    {
      currentCarUsage := AsDriver;
    }

    method UseBike(b: Bike, time: SimpleTime)
      modifies this, b
      ensures Success(BikeState()) == BikeAfter(old(BikeState()), BikeOperation.UseBike(b))
      ensures b.rider == Some(oid)
      ensures CarState() == old(CarState()) && personalCar == old(personalCar)
      ensures old(Valid()) ==> Valid()
      ensures schedule == old(schedule) && current == old(current) && currentTrip == old(currentTrip) && reschedulings == old(reschedulings)
      ensures tourPattern == old(tourPattern)
    {
      currentBikeUsage := Some(Riding);
      bike := Some(b);
      b.Use(oid, time);
    }

    method ParkBike(zone: Zone, location: Location, time: SimpleTime) returns (r: Result<Bike, BikeError>)
      modifies this
      ensures BikeAfter(old(BikeState()), BikeOperation.ParkBike).Success? ==>
        r.Success? && bike == Some(r.value) && Success(BikeState()) == BikeAfter(old(BikeState()), BikeOperation.ParkBike)
      ensures BikeAfter(old(BikeState()), BikeOperation.ParkBike).Failure? ==>
        r == Failure(BikeAfter(old(BikeState()), BikeOperation.ParkBike).error) && BikeState() == old(BikeState())
      ensures CarState() == old(CarState()) && personalCar == old(personalCar)
      ensures old(Valid()) ==> Valid()
      ensures schedule == old(schedule) && current == old(current) && currentTrip == old(currentTrip) && reschedulings == old(reschedulings)
      ensures tourPattern == old(tourPattern)
    {
      if !BikeState().IsCycling() {
        return Failure(NoBikeToPark);
      }
      currentBikeUsage := Some(BikeParked);
      r := Success(bike.value);
    }

    method TakeBikeFromParking() returns (r: Outcome<BikeError>)
      modifies this
      ensures BikeAfter(old(BikeState()), BikeOperation.TakeBikeFromParking).Success? ==>
        r == Pass && Success(BikeState()) == BikeAfter(old(BikeState()), BikeOperation.TakeBikeFromParking)
      ensures BikeAfter(old(BikeState()), BikeOperation.TakeBikeFromParking).Failure? ==>
        r == Fail(BikeAfter(old(BikeState()), BikeOperation.TakeBikeFromParking).error) && BikeState() == old(BikeState())
      ensures CarState() == old(CarState()) && personalCar == old(personalCar)
      ensures old(Valid()) ==> Valid()
      ensures schedule == old(schedule) && current == old(current) && currentTrip == old(currentTrip) && reschedulings == old(reschedulings)
      ensures tourPattern == old(tourPattern)
    {
      if !BikeState().HasParkedBike() {
        return Fail(NoParkedBike);
      }
      currentBikeUsage := Some(Riding);
      r := Pass;
    }

    method ReleaseBike(time: SimpleTime) returns (r: Result<Bike, BikeError>)
      modifies this, if bike.Some? then {bike.value} else {}
      ensures BikeAfter(old(BikeState()), BikeOperation.ReleaseBike).Success? ==>
        r == Success(old(bike.value)) && r.value.rider == None &&
        Success(BikeState()) == BikeAfter(old(BikeState()), BikeOperation.ReleaseBike)
      ensures BikeAfter(old(BikeState()), BikeOperation.ReleaseBike).Failure? ==>
        r == Failure(BikeAfter(old(BikeState()), BikeOperation.ReleaseBike).error) && BikeState() == old(BikeState())
      ensures CarState() == old(CarState()) && personalCar == old(personalCar)
      ensures old(Valid()) ==> Valid()
      ensures schedule == old(schedule) && current == old(current) && currentTrip == old(currentTrip) && reschedulings == old(reschedulings)
      ensures tourPattern == old(tourPattern)
    {
      if !BikeState().IsCycling() {
        return Failure(NoBikeInUse);
      }
      var released := bike.value;
      bike := None;
      currentBikeUsage := Some(NoBikeUsage);
      released.Release(oid, time);
      r := Success(released);
    }

    /** A personal car is assigned once. */
    method AssignPersonalCar(c: Car)
      requires !HasPersonalCarAssigned()
      modifies this
      ensures personalCar == Some(c) && HasPersonalCarAssigned()
      ensures CarState() == old(CarState()) && BikeState() == old(BikeState())
      ensures schedule == old(schedule) && current == old(current) && currentTrip == old(currentTrip) && reschedulings == old(reschedulings)
      ensures tourPattern == old(tourPattern)
    {
      personalCar := Some(c);
    }

    function HasPersonalCarAssigned(): (isAssigned: bool)
      reads this
      ensures isAssigned <==> personalCar.Some?
    {
      personalCar.Some?
    }

    /** The zone of a fixed destination of the given activity type. */
    function FixedZoneFor(activityType: ActivityType): (r: Result<Zone, DestinationError>)
      ensures r.Success? <==> activityType in fixedDestinations
      ensures r.Success? ==> r.value == fixedDestinations[activityType].zone
      ensures r.Failure? ==> r.error == MissingDestination(activityType)
    {
      if activityType in fixedDestinations then Success(fixedDestinations[activityType].zone)
      else Failure(MissingDestination(activityType))
    }

    /** The zone the person is bound to return to after the activity at
        position i: home when no fixed activity follows or the next fixed one
        is at home, otherwise the fixed zone of that activity. */
    function NextFixedZoneOf(i: nat): Result<Zone, DestinationError>
      requires i < |schedule|
      reads this
    {
      var k := FirstFixedAfter(schedule, i);
      if k.None? || schedule[k.value].activityType.IsHomeActivity() then Success(household.homeZone)
      else FixedZoneFor(schedule[k.value].activityType)
    }

    /** Walks the schedule from the activity at position i to the first later
        fixed activity. */
    method NextFixedActivityZone(i: nat) returns (r: Result<Zone, DestinationError>)
      requires i < |schedule|
      ensures r == NextFixedZoneOf(i)
    {
      var next := i + 1;
      while next < |schedule| && !schedule[next].activityType.IsFixedActivity()
        invariant i < next <= |schedule|
        invariant forall j :: i < j < next ==> !schedule[j].activityType.IsFixedActivity()
        decreases |schedule| - next
      {
        next := next + 1;
      }
      FirstFixedIsFound(i, next);
      if next == |schedule| || schedule[next].activityType.IsHomeActivity() {
        r := Success(household.homeZone);
      } else {
        r := FixedZoneFor(schedule[next].activityType);
      }
    }

    lemma FirstFixedIsFound(i: nat, next: nat)
      requires i < next <= |schedule|
      requires forall j :: i < j < next ==> !schedule[j].activityType.IsFixedActivity()
      requires next < |schedule| ==> schedule[next].activityType.IsFixedActivity()
      ensures next == |schedule| ==> FirstFixedAfter(schedule, i) == None
      ensures next < |schedule| ==> FirstFixedAfter(schedule, i) == Some(next)
    {
    }

    /** Starts the activity at position i at the current date: the planned
        start goes to the rescheduling, the activity runs with the mode of the
        trip that led to it and becomes the current activity. */
    method StartActivity(currentDate: SimpleTime, i: nat, precedingTrip: Trip)
      requires i < |schedule|
      modifies this, schedule[i]
      ensures schedule == old(schedule)
      ensures schedule[i].startDate == currentDate && schedule[i].running && schedule[i].mode == Some(precedingTrip.mode)
      ensures schedule[i].location == old(schedule[i].location) && schedule[i].duration == old(schedule[i].duration)
      ensures reschedulings == old(reschedulings) + [(schedule[i], old(schedule[i].startDate), currentDate)]
      ensures current == Some(i) && currentTrip == old(currentTrip)
      ensures CarState() == old(CarState()) && BikeState() == old(BikeState()) && personalCar == old(personalCar)
      ensures tourPattern == old(tourPattern)
    {
      var activity := schedule[i];
      var plannedStartDate := activity.startDate;
      activity.startDate := currentDate;
      reschedulings := reschedulings + [(activity, plannedStartDate, currentDate)];
      activity.running := true;
      activity.mode := Some(precedingTrip.mode);
      current := Some(i);
    }

    method SetCurrentTrip(trip: Option<Trip>)
      modifies this
      ensures currentTrip == trip && current == old(current) && schedule == old(schedule)
      ensures reschedulings == old(reschedulings)
      ensures CarState() == old(CarState()) && BikeState() == old(BikeState()) && personalCar == old(personalCar)
      ensures tourPattern == old(tourPattern)
    {
      currentTrip := trip;
    }

    /** Builds the schedule from the tour pattern, which is then dropped;
        the schedule starts at its first activity. */
    method InitSchedule(days: seq<SimpleTime>)
      requires tourPattern.Some?
      modifies this
      ensures schedule == createSchedule(old(tourPattern.value), days)
      ensures current == if schedule == [] then None else Some(0)
      ensures tourPattern == None
      ensures CarState() == old(CarState()) && BikeState() == old(BikeState()) && personalCar == old(personalCar)
      ensures currentTrip == old(currentTrip) && reschedulings == old(reschedulings)
    {
      schedule := createSchedule(tourPattern.value, days);
      current := if schedule == [] then None else Some(0);
      tourPattern := None;
    }
  }

  /** The zone after an activity at home is not looked up: it is the home
      zone. No destination is needed when only flexible activities follow. */
  lemma NextFixedZoneDefaults<P>(person: PersonForDemand<P>, i: nat)
    requires i < |person.schedule|
    ensures (forall j :: i < j < |person.schedule| ==> !person.schedule[j].activityType.IsFixedActivity()) ==>
      person.NextFixedZoneOf(i) == Success(person.household.homeZone)
    ensures (exists j :: i < j < |person.schedule| && person.schedule[j].activityType.IsFixedActivity()) ==>
      var k := FirstFixedAfter(person.schedule, i).value;
      person.NextFixedZoneOf(i) ==
        if person.schedule[k].activityType.IsHomeActivity() then Success(person.household.homeZone)
        else person.FixedZoneFor(person.schedule[k].activityType)
  {
  }
}

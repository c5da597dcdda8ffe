# mobitopp core in Dafny

mobitopp is an agent-based travel-demand simulator. It synthesises a
population of households and persons for the zones of a study area. It
gives every person a week of activities (home, work, shopping, ...) and then
simulates the week: each person chooses destinations and modes, starts and
ends trips, shares rides and uses public transport. Listeners such as the
origin-destination matrix of the aggregate demand observe the simulation.

This project models the following parts of that core and proves properties
about them:

- **The simulated person** (`SimulationPersons`, `PersonsForDemand`):
  - the state machine that settles a person after each event;
  - the first activity and the trips between activities;
  - destination and mode choice, tracked through the stream of random draws;
  - posting, finding, accepting and revoking ride-sharing offers;
  - the public-transport leg queries;
  - the person's exclusive use of a car and of a bike;
  - the walk to the next fixed activity.
- **Time** (`Time`): the second counter `SimpleTime` and its signed span
  `RelativeTime`. Java's truncating division is written out (`JavaDiv`,
  `JavaRem`).
- **Demographic counters** (`RangeDistributionItems`, `Demographies`).
- **Mode availability** (`ModeAvailability`): the choice-set rules and the
  fastest-mode search.
- **Small decoders and validators**:
  - `Rows`, `VisumNetworkReaders`, `ZoneProperties` and `Validation`;
  - `NodesFromVisumZones` and `Decimal`, the decimal text of zone ids.
- **Population-synthesis orchestration**:
  - `SingleZoneDemandCalculators` and `IsolatedZonesCommunityDemandCalculators`;
  - `ActivityAssigners`, the memoised activity patterns;
  - `AggregateDemands`, the counting matrix.

The shared vocabulary lives in `Domain`: modes, activity types, zones,
locations, trips, activities and public-transport plans. `Listeners` holds
the notifications a person listener receives, and `Wrappers` holds
`Option`, `Result` and `Outcome`.

**How the model stands in for code it cannot see.**
- Collaborators whose code is not part of this model are function-typed
  constants of the class that uses them. These are the person states, the
  choice models, the trip factory, the impedance, the random number
  generator, the ride-offer board, the public-transport behaviour and the
  repositories.
- A side effect on such a collaborator is recorded in a trace that the
  contracts state exactly. Examples are a listener notification, an added
  ride offer, a board or get-off call, and a random draw.
- A Java `assert` or a null dereference becomes a `requires`.
- A thrown exception becomes a `Result`/`Outcome` error case.

## Model

| member | source | states |
|---|---|---|
| `SimulationPersons.SimulationPersonPassenger.constructor` | mobitopp/src/main/java/edu/kit/ifv/mobitopp/simulation/person/SimulationPersonPassenger.java:62-88 | Creating a passenger initialises the person's schedule from its tour pattern and starts the first activity at home at the simulation start: the state settles, the start is notified, and the next event, if any, is the only one queued. No ride is accepted and no passenger event, call or draw is recorded. |
| `SimulationPersons.SimulationPersonPassenger.ChangeState` | mobitopp/src/main/java/edu/kit/ifv/mobitopp/simulation/person/SimulationPersonPassenger.java:198-204 | One step records, in this order, the end action of the old state, the start action of the new state and one state-change notification carrying (previous, new). The new state is the successor of the old one. |
| `SimulationPersons.SimulationPersonPassenger.SettledPathShape` | mobitopp/src/main/java/edu/kit/ifv/mobitopp/simulation/person/SimulationPersonPassenger.java:189-196 | The states the update loop passes start at the old state and take at least one step. Every step follows the state machine. Only instantaneous states lie in between, and the last state is not instantaneous. |
| `SimulationPersons.SimulationPersonPassenger.UpdateState` | mobitopp/src/main/java/edu/kit/ifv/mobitopp/simulation/person/SimulationPersonPassenger.java:189-196 | The do-while loop ends in the non-instantaneous end of the settled path. The trace gains exactly that path's step effects. The queue gains exactly the event the final state schedules, or nothing. Nothing else changes. |
| `SimulationPersons.PathEffectsCount` | mobitopp/src/main/java/edu/kit/ifv/mobitopp/simulation/person/SimulationPersonPassenger.java:189-204 | Walking a path of n+1 states produces exactly 3n effects, and the i-th state-change notification is (path[i], path[i+1]). |
| `SimulationPersons.SimulationPersonPassenger.Notify` | mobitopp/src/main/java/edu/kit/ifv/mobitopp/simulation/person/SimulationPersonPassenger.java:178-187 | For an event of this person that is not after the current date, the effect is exactly one update at the current date: the same settled state, trace and queue as UpdateState. |
| `SimulationPersons.SimulationPersonPassenger.GetFixedLocationFor` | mobitopp/src/main/java/edu/kit/ifv/mobitopp/simulation/person/SimulationPersonPassenger.java:130-143 | Home gives the household's home zone and location. Another type gives the person's fixed destination for it, or fails with the missing activity type exactly when there is none. |
| `SimulationPersons.SimulationPersonPassenger.InitFirstActivity` | mobitopp/src/main/java/edu/kit/ifv/mobitopp/simulation/person/SimulationPersonPassenger.java:110-128 | The first activity, which must be an unstarted home activity, is located at home and running. The listener learns of it first, then the state settles at the start of the simulation. |
| `SimulationPersons.SimulationPersonPassenger.EndActivity` | mobitopp/src/main/java/edu/kit/ifv/mobitopp/simulation/person/SimulationPersonPassenger.java:156-159 | The current activity stops running. Its start date, duration, mode and location and the rest of the person are unchanged. |
| `SimulationPersons.SimulationPersonPassenger.AcceptRideOffer` | mobitopp/src/main/java/edu/kit/ifv/mobitopp/simulation/person/SimulationPersonPassenger.java:106-108 | The ride counts as accepted; nothing else changes. |
| `SimulationPersons.SimulationPersonPassenger.NextRandom` | mobitopp/src/main/java/edu/kit/ifv/mobitopp/simulation/person/SimulationPersonPassenger.java:702-704 | The number is the generator's next double after the draws so far, and exactly one double draw is recorded. |
| `SimulationPersons.SimulationPersonPassenger.LocationDraws` | mobitopp/src/main/java/edu/kit/ifv/mobitopp/simulation/person/SimulationPersonPassenger.java:331-392 | Choosing a location draws nothing exactly for fixed activities, and at most one number otherwise. |
| `SimulationPersons.SimulationPersonPassenger.ChosenLocation` | mobitopp/src/main/java/edu/kit/ifv/mobitopp/simulation/person/SimulationPersonPassenger.java:331-392 | The location chosen fails exactly for a fixed activity other than home without a fixed destination, with that activity type as the error. |
| `SimulationPersons.SimulationPersonPassenger.SelectLocation` | mobitopp/src/main/java/edu/kit/ifv/mobitopp/simulation/person/SimulationPersonPassenger.java:331-392 | Home gives the home location without a draw. A fixed activity gives its fixed destination without a draw, or an error without one. A flexible activity with an opportunity draws one double: a private visit to a zone with households picks a household's home, otherwise a random location is chosen in the zone. Any other flexible activity consumes one integer draw and gets the zone centroid. The result and the draws are exactly `ChosenLocation` and `LocationDraws` for the activity type and zone. |
| `SimulationPersons.SimulationPersonPassenger.SelectAndSetDestinationOfActivity` | mobitopp/src/main/java/edu/kit/ifv/mobitopp/simulation/person/SimulationPersonPassenger.java:258-285 | An already set location is returned unchanged, with no draw and no choice (idempotence). Otherwise it fails exactly when the next activity is fixed, is not home, and has no fixed destination; the failure names that type and leaves the activity unchanged after one draw. Otherwise the zone is the destination model's choice for the first double, the location is `ChosenLocation` for the activity in that zone after that draw, the draws are that double plus `LocationDraws`, and the activity's location is set to the result. |
| `SimulationPersons.SimulationPersonPassenger.ChoiceSet` | mobitopp/src/main/java/edu/kit/ifv/mobitopp/simulation/person/SimulationPersonPassenger.java:297-305 | The choice set holds no mode twice. It holds a mode exactly when the simulation has it, and it holds PASSENGER only when passengers are an option. |
| `SimulationPersons.SimulationPersonPassenger.SelectModeAndCreateTrip` | mobitopp/src/main/java/edu/kit/ifv/mobitopp/simulation/person/SimulationPersonPassenger.java:288-328 | The current trip is the one the trip factory builds for the chosen mode, from the next double after the mode choice's own draw. Two doubles are drawn. If the factory keeps the mode it is given, the trip's mode is the chosen mode. |
| `SimulationPersons.SimulationPersonPassenger.SelectDestinationAndMode` | mobitopp/src/main/java/edu/kit/ifv/mobitopp/simulation/person/SimulationPersonPassenger.java:240-256 | It fails exactly when the next activity has no location and is a fixed activity other than home with no fixed destination. The failure names that type and stops after one draw, with the location and the current trip unchanged. An already set location is kept, and exactly two doubles are drawn for the mode and the trip. Otherwise the next activity gets the zone chosen from the first double and `ChosenLocation` in it, and the draws are that double, `LocationDraws` and two more doubles. On success the current trip is the trip the factory builds for the mode chosen between the two zones from the last two doubles. The schedule and everything else are unchanged. |
| `SimulationPersons.SimulationPersonPassenger.StartTrip` | mobitopp/src/main/java/edu/kit/ifv/mobitopp/simulation/person/SimulationPersonPassenger.java:564-595 | The trip becomes the current trip and the passenger events start afresh. The listener is told exactly once of the trip started at that date. A car driver's trip needs the person to drive a car. |
| `SimulationPersons.SimulationPersonPassenger.Finish` | mobitopp/src/main/java/edu/kit/ifv/mobitopp/simulation/person/SimulationPersonPassenger.java:513-518 | The finished trip carries the collected passenger events exactly when the trip has a public-transport plan. |
| `SimulationPersons.SimulationPersonPassenger.EndTrip` | mobitopp/src/main/java/edu/kit/ifv/mobitopp/simulation/person/SimulationPersonPassenger.java:493-535 | The listener first learns of the finished trip, then of the started next activity. That activity becomes current and runs from the current date with the trip's mode. An accepted ride no longer counts. |
| `SimulationPersons.SimulationPersonPassenger.ZoneNumber` | mobitopp/src/main/java/edu/kit/ifv/mobitopp/simulation/person/SimulationPersonPassenger.java:559-562 | The external zone id is parsed as a number; a text that is not a number is an error naming it. |
| `SimulationPersons.SimulationPersonPassenger.SelectRoute` | mobitopp/src/main/java/edu/kit/ifv/mobitopp/simulation/person/SimulationPersonPassenger.java:537-562 | Only a car driver's trip chooses a route, and it does so exactly when both zone ids are numbers. It reports the car and the trip; every other trip records nothing. |
| `SimulationPersons.SimulationPersonPassenger.OfferRide` | mobitopp/src/main/java/edu/kit/ifv/mobitopp/simulation/person/SimulationPersonPassenger.java:219-237 | The current trip is added to the ride offers exactly when its mode is CAR, and such a trip needs the person to drive. |
| `SimulationPersons.SimulationPersonPassenger.RevokeRideOffer` | mobitopp/src/main/java/edu/kit/ifv/mobitopp/simulation/person/SimulationPersonPassenger.java:466-475 | An offer is removed exactly when the trip's mode is CAR; other trips change nothing. |
| `SimulationPersons.MaxMinutesEarly` | mobitopp/src/main/java/edu/kit/ifv/mobitopp/simulation/person/SimulationPersonPassenger.java:435 | The integer cast binds to 0.1 alone, so the allowed earliness is always 0 minutes. |
| `SimulationPersons.SimulationPersonPassenger.BestOfferIndex` | mobitopp/src/main/java/edu/kit/ifv/mobitopp/simulation/person/SimulationPersonPassenger.java:437-444 | The index is that of an offer of least order key, and every earlier offer has a strictly greater key. This is the offer a stable sort puts first. |
| `SimulationPersons.SimulationPersonPassenger.FindBestMatchingRideOffer` | mobitopp/src/main/java/edu/kit/ifv/mobitopp/simulation/person/SimulationPersonPassenger.java:429-445 | There is no result exactly when no offer matches with no earliness and the given lateness. Otherwise the result is the first matching offer of least order key. |
| `SimulationPersons.SimulationPersonPassenger.AcceptOffer` | mobitopp/src/main/java/edu/kit/ifv/mobitopp/simulation/person/SimulationPersonPassenger.java:448-464 | The current activity's duration becomes the time until the offered trip starts. The current trip starts at the activity's new planned end. The person rides as passenger in the offered car, which gains the person as passenger, and the ride counts as accepted. |
| `SimulationPersons.ToShort` | mobitopp/src/main/java/edu/kit/ifv/mobitopp/simulation/person/SimulationPersonPassenger.java:486 | The cast to `short` keeps the value modulo 65536 and lands in [-32768, 32767], so every value already in that range is kept. |
| `SimulationPersons.ChangeStartTimeOfTrip` | mobitopp/src/main/java/edu/kit/ifv/mobitopp/simulation/person/SimulationPersonPassenger.java:477-490 | The new trip keeps the id, mode, origin, destination and activities of the old one. It starts at the new time and has no public-transport plan. Its planned duration is the old one cast to `short`. |
| `SimulationPersons.SimulationPersonPassenger.FindAndAcceptBestMatchingRideOffer` | mobitopp/src/main/java/edu/kit/ifv/mobitopp/simulation/person/SimulationPersonPassenger.java:413-427 | The result is true exactly when some offer matches. Then the best matching offer is accepted: the person rides as passenger in its car, which gains the person, the current activity lasts until that trip starts, and the current trip starts at the activity's new planned end. Otherwise the ride flag, the car holding, the trip and the activity are unchanged. Schedule and current position never change. Only the car of the best matching offer must be able to carry passengers. |
| `SimulationPersons.SimulationPersonPassenger.PlannedEndDate` | mobitopp/src/main/java/edu/kit/ifv/mobitopp/simulation/person/SimulationPersonPassenger.java:443-456 | The planned end is the start date plus the duration in minutes, counted in seconds, and it is not before the start for a non-negative duration. |
| `SimulationPersons.SimulationPersonPassenger.HasNextActivity` | mobitopp/src/main/java/edu/kit/ifv/mobitopp/simulation/person/SimulationPersonPassenger.java:206-208 | There is a current activity and it is not the last one of the schedule. |
| `SimulationPersons.SimulationPersonPassenger.NextActivityStartsAfterSimulationEnd` | mobitopp/src/main/java/edu/kit/ifv/mobitopp/simulation/person/SimulationPersonPassenger.java:214-216 | The next activity starts at a second strictly after the end of the simulation. |
| `SimulationPersons.IsPublicTransportTrip` | mobitopp/src/main/java/edu/kit/ifv/mobitopp/simulation/person/SimulationPersonPassenger.java:610-612 | A trip is a public-transport trip exactly when its mode is PUBLICTRANSPORT. |
| `SimulationPersons.SimulationPersonPassenger.CurrentPart` | mobitopp/src/main/java/edu/kit/ifv/mobitopp/simulation/person/SimulationPersonPassenger.java:694-700 | The current part exists exactly while legs of the trip's plan remain, and it is the first leg not yet done. |
| `Domain.PublicTransportPlan.CurrentLeg` | mobitopp/src/main/java/edu/kit/ifv/mobitopp/simulation/person/SimulationPersonPassenger.java:694-696 | A current leg exists exactly while legs remain, and it is the first leg not yet done. |
| `SimulationPersons.SimulationPersonPassenger.EnterFirstStop` | mobitopp/src/main/java/edu/kit/ifv/mobitopp/simulation/person/SimulationPersonPassenger.java:597-612 | A trip that is not public transport fails. A public-transport trip waits at the start stop of its current leg when there is one. |
| `SimulationPersons.SimulationPersonPassenger.HasPublicTransportVehicleDeparted` | mobitopp/src/main/java/edu/kit/ifv/mobitopp/simulation/person/SimulationPersonPassenger.java:618-621 | The behaviour's answer for the current leg; false when there is no leg. |
| `SimulationPersons.SimulationPersonPassenger.IsPublicTransportVehicleAvailable` | mobitopp/src/main/java/edu/kit/ifv/mobitopp/simulation/person/SimulationPersonPassenger.java:623-628 | The behaviour's answer for the current leg; true when there is no leg. |
| `SimulationPersons.SimulationPersonPassenger.HasPlaceInPublicTransportVehicle` | mobitopp/src/main/java/edu/kit/ifv/mobitopp/simulation/person/SimulationPersonPassenger.java:630-633 | The behaviour's answer for the current leg; true when there is no leg. |
| `SimulationPersons.SimulationPersonPassenger.HasArrivedAtNextActivity` | mobitopp/src/main/java/edu/kit/ifv/mobitopp/simulation/person/SimulationPersonPassenger.java:665-668 | The person has arrived exactly when no leg of the plan is left. |
| `SimulationPersons.SimulationPersonPassenger.ChangeToNewTrip` | mobitopp/src/main/java/edu/kit/ifv/mobitopp/simulation/person/SimulationPersonPassenger.java:635-642 | A trip that is not public transport is kept as it is. A public-transport trip is replaced by the one the behaviour searches at that time; the caller must be on a public-transport trip with a plan, as the Java cast demands. |
| `SimulationPersons.SimulationPersonPassenger.BoardPublicTransportVehicle` | mobitopp/src/main/java/edu/kit/ifv/mobitopp/simulation/person/SimulationPersonPassenger.java:644-652 | With a current leg, the behaviour is asked to board it and a board event of that leg's journey is recorded. Without one, nothing changes. |
| `SimulationPersons.SimulationPersonPassenger.GetOffPublicTransportVehicle` | mobitopp/src/main/java/edu/kit/ifv/mobitopp/simulation/person/SimulationPersonPassenger.java:654-663 | With a current leg, the get-off call and event are recorded. The plan moves on by one leg in every case. |
| `SimulationPersons.SimulationPersonPassenger.Wait` | mobitopp/src/main/java/edu/kit/ifv/mobitopp/simulation/person/SimulationPersonPassenger.java:670-678 | With a current leg, the wait call and event are recorded. Without one, nothing changes. |
| `SimulationPersons.SimulationPersonPassenger.ArriveAtStop` | mobitopp/src/main/java/edu/kit/ifv/mobitopp/simulation/person/SimulationPersonPassenger.java:680-683 | Exactly one update at the current date. |
| `SimulationPersons.SimulationPersonPassenger.VehicleArriving` | mobitopp/src/main/java/edu/kit/ifv/mobitopp/simulation/person/SimulationPersonPassenger.java:685-692 | The person updates exactly when the arriving vehicle's journey is that of the current leg; otherwise nothing changes. |
| `PersonsForDemand.CarOperationsKeepHolding` | mobitopp/src/main/java/edu/kit/ifv/mobitopp/simulation/person/PersonForDemand.java:177-246 | Every allowed car operation keeps the invariant "a car is held exactly when it is in use". Parking and taking from parking never change the car. Leaving and releasing leave no car. Using a car makes the person its driver or passenger. |
| `PersonsForDemand.ReleaseIgnoresUsage` | mobitopp/src/main/java/edu/kit/ifv/mobitopp/simulation/person/PersonForDemand.java:210-232 | Releasing and parking check only that some car is held: a parked car and a car ridden as passenger may be released or parked. |
| `PersonsForDemand.CarRoundTrips` | mobitopp/src/main/java/edu/kit/ifv/mobitopp/simulation/person/PersonForDemand.java:177-246 | Parking a driven car and taking it back restores the holding. Using a car and then releasing it returns to no car. |
| `PersonsForDemand.CarAllowed` | mobitopp/src/main/java/edu/kit/ifv/mobitopp/simulation/person/PersonForDemand.java:177-246 | Using a car, as driver or passenger, is allowed exactly when no car is in use. Leaving, releasing, parking and taking from parking are allowed, on a consistent holding, exactly when a car is in use. |
| `PersonsForDemand.CarAfter` | mobitopp/src/main/java/edu/kit/ifv/mobitopp/simulation/person/PersonForDemand.java:177-246 | Operations other than using a car leave either no car or the car held before. The holding afterwards is consistent, except when parking or taking from parking is done with no car held. |
| `PersonsForDemand.CarHolding.IsCarDriver` | mobitopp/src/main/java/edu/kit/ifv/mobitopp/simulation/person/PersonForDemand.java:155-159 | Driving exactly when the usage is DRIVER, and a consistent holding then holds a car. |
| `PersonsForDemand.CarHolding.IsCarPassenger` | mobitopp/src/main/java/edu/kit/ifv/mobitopp/simulation/person/PersonForDemand.java:161-164 | Riding as passenger exactly when the usage is PASSENGER, and a consistent holding then holds a car. |
| `PersonsForDemand.CarHolding.HasParkedCar` | mobitopp/src/main/java/edu/kit/ifv/mobitopp/simulation/person/PersonForDemand.java:235-239 | A parked car exactly when the usage is PARKED, and a consistent holding then holds a car. |
| `PersonsForDemand.CarHolding.IsUsingCar` | mobitopp/src/main/java/edu/kit/ifv/mobitopp/simulation/person/PersonForDemand.java:166-169 | Using a car exactly when the usage is not NONE, which for a consistent holding is exactly when a car is held. |
| `PersonsForDemand.BikeHolding.IsCycling` | mobitopp/src/main/java/edu/kit/ifv/mobitopp/simulation/person/PersonForDemand.java:249-252 | Cycling exactly when a bike is held and ridden; a cycling holding is consistent and has no parked bike. |
| `PersonsForDemand.BikeHolding.HasParkedBike` | mobitopp/src/main/java/edu/kit/ifv/mobitopp/simulation/person/PersonForDemand.java:254-257 | A parked bike exactly when a bike is held with usage PARKED; such a holding is consistent. |
| `PersonsForDemand.PersonForDemand.WhichCar` | mobitopp/src/main/java/edu/kit/ifv/mobitopp/simulation/person/PersonForDemand.java:171-176 | The car returned is the one the person holds. |
| `PersonsForDemand.PersonForDemand.HasPersonalCarAssigned` | mobitopp/src/main/java/edu/kit/ifv/mobitopp/simulation/person/PersonForDemand.java:511-514 | True exactly when the person has a personal car. |
| `PersonsForDemand.Car.Use` | mobitopp/src/main/java/edu/kit/ifv/mobitopp/simulation/person/PersonForDemand.java:186 | The car's driver becomes the person; its passengers stay. |
| `PersonsForDemand.Car.UseAsPassenger` | mobitopp/src/main/java/edu/kit/ifv/mobitopp/simulation/person/PersonForDemand.java:197 | The car gains the person as passenger; its driver stays. |
| `PersonsForDemand.Car.Leave` | mobitopp/src/main/java/edu/kit/ifv/mobitopp/simulation/person/PersonForDemand.java:207 | The car loses the person as passenger; its driver stays. |
| `PersonsForDemand.Car.Release` | mobitopp/src/main/java/edu/kit/ifv/mobitopp/simulation/person/PersonForDemand.java:220 | The car has no driver any more; its passengers stay. |
| `PersonsForDemand.Bike.Use` | mobitopp/src/main/java/edu/kit/ifv/mobitopp/simulation/person/PersonForDemand.java:263 | The bike's rider becomes the person. |
| `PersonsForDemand.Bike.Release` | mobitopp/src/main/java/edu/kit/ifv/mobitopp/simulation/person/PersonForDemand.java:300 | The bike has no rider any more. |
| `PersonsForDemand.BikeAfter` | mobitopp/src/main/java/edu/kit/ifv/mobitopp/simulation/person/PersonForDemand.java:258-301 | Using a bike always succeeds, even while a bike is held. Parking and releasing succeed exactly when cycling. Taking from parking succeeds exactly when a bike is parked. |
| `PersonsForDemand.BikeOperationsKeepHolding` | mobitopp/src/main/java/edu/kit/ifv/mobitopp/simulation/person/PersonForDemand.java:258-301 | A successful bike operation keeps "a bike is held exactly when ridden or parked". Release leaves no bike and usage NONE. Parking and taking keep the bike. |
| `PersonsForDemand.BikeParkRoundTrip` | mobitopp/src/main/java/edu/kit/ifv/mobitopp/simulation/person/PersonForDemand.java:271-288 | Parking a ridden bike and taking it back restores the holding. |
| `PersonsForDemand.PersonForDemand.constructor` | mobitopp/src/main/java/edu/kit/ifv/mobitopp/simulation/person/PersonForDemand.java:102-148 | A new person keeps its tour pattern and has no schedule, no trip, no car, no bike and no personal car; its car and bike holdings are consistent, and every car and bike operation keeps them so. |
| `PersonsForDemand.PersonForDemand.UseCar` | mobitopp/src/main/java/edu/kit/ifv/mobitopp/simulation/person/PersonForDemand.java:177-187 | For an unused car and a person holding none, the person becomes the car's driver and the car's driver is the person. Bike, schedule and trip are unchanged. |
| `PersonsForDemand.PersonForDemand.UseCarAsPassenger` | mobitopp/src/main/java/edu/kit/ifv/mobitopp/simulation/person/PersonForDemand.java:189-198 | For a car that can carry passengers and a person holding none, the person becomes its passenger and is added to the car's passengers. |
| `PersonsForDemand.PersonForDemand.LeaveCar` | mobitopp/src/main/java/edu/kit/ifv/mobitopp/simulation/person/PersonForDemand.java:200-208 | The person holds no car, and the car loses the person as passenger. |
| `PersonsForDemand.PersonForDemand.ReleaseCar` | mobitopp/src/main/java/edu/kit/ifv/mobitopp/simulation/person/PersonForDemand.java:210-222 | For a held car, the result is that car and it has no driver any more. The person holds no car and usage is NONE. |
| `PersonsForDemand.PersonForDemand.ParkCar` | mobitopp/src/main/java/edu/kit/ifv/mobitopp/simulation/person/PersonForDemand.java:224-232 | For a held car in any usage, the usage becomes PARKED and the same car is returned. |
| `PersonsForDemand.PersonForDemand.TakeCarFromParking` | mobitopp/src/main/java/edu/kit/ifv/mobitopp/simulation/person/PersonForDemand.java:240-246 | For a held car, the usage becomes DRIVER and the car is unchanged. |
| `PersonsForDemand.PersonForDemand.UseBike` | mobitopp/src/main/java/edu/kit/ifv/mobitopp/simulation/person/PersonForDemand.java:258-264 | The person rides the given bike, whatever it held before, and the bike's rider is the person. |
| `PersonsForDemand.PersonForDemand.ParkBike` | mobitopp/src/main/java/edu/kit/ifv/mobitopp/simulation/person/PersonForDemand.java:271-279 | This fails, with nothing changed, unless the person is cycling. Otherwise the bike is parked and returned. |
| `PersonsForDemand.PersonForDemand.TakeBikeFromParking` | mobitopp/src/main/java/edu/kit/ifv/mobitopp/simulation/person/PersonForDemand.java:281-288 | This fails, with nothing changed, unless a bike is parked. Otherwise the person rides it again. |
| `PersonsForDemand.PersonForDemand.ReleaseBike` | mobitopp/src/main/java/edu/kit/ifv/mobitopp/simulation/person/PersonForDemand.java:290-301 | This fails unless the person is cycling. Otherwise the bike is returned without a rider, and the person holds no bike with usage NONE. |
| `PersonsForDemand.PersonForDemand.AssignPersonalCar` | mobitopp/src/main/java/edu/kit/ifv/mobitopp/simulation/person/PersonForDemand.java:499-514 | Only a person without a personal car may be assigned one; afterwards it has that car. |
| `PersonsForDemand.PersonForDemand.FixedZoneFor` | mobitopp/src/main/java/edu/kit/ifv/mobitopp/simulation/person/PersonForDemand.java:386-391 | The zone of the fixed destination of the type, or an error exactly when the person has none for it. |
| `PersonsForDemand.FirstFixedAfter` | mobitopp/src/main/java/edu/kit/ifv/mobitopp/simulation/person/PersonForDemand.java:408-420 | The position found is the first fixed activity after the given one. None means no later activity is fixed. |
| `PersonsForDemand.PersonForDemand.NextFixedActivityZone` | mobitopp/src/main/java/edu/kit/ifv/mobitopp/simulation/person/PersonForDemand.java:408-428 | The loop skips flexible activities. The result is the home zone when no fixed activity follows or the first one is at home, and otherwise that activity's fixed zone. |
| `PersonsForDemand.NextFixedZoneDefaults` | mobitopp/src/main/java/edu/kit/ifv/mobitopp/simulation/person/PersonForDemand.java:408-420 | With only flexible activities ahead the zone is the home zone. Otherwise it is decided by the first fixed activity ahead. |
| `PersonsForDemand.PersonForDemand.StartActivity` | mobitopp/src/main/java/edu/kit/ifv/mobitopp/simulation/person/PersonForDemand.java:435-452 | The activity starts at the current date and is running with the preceding trip's mode, and it becomes the current activity. The rescheduling receives the activity with its old planned start and the current date. |
| `PersonsForDemand.PersonForDemand.SetCurrentTrip` | mobitopp/src/main/java/edu/kit/ifv/mobitopp/simulation/person/PersonForDemand.java:469-475 | The current trip is the given one; nothing else changes. |
| `PersonsForDemand.PersonForDemand.InitSchedule` | mobitopp/src/main/java/edu/kit/ifv/mobitopp/simulation/person/PersonForDemand.java:477-497 | The schedule is built from the tour pattern, which is then dropped. The first activity is current. |
| `Time.JavaDiv` | mobitopp/src/main/java/edu/kit/ifv/mobitopp/time/SimpleTime.java:63-65 | Java's integer division: the quotient is rounded toward zero, for either sign of the dividend. |
| `Time.JavaRem` | mobitopp/src/main/java/edu/kit/ifv/mobitopp/time/SimpleTime.java:101-113 | Java's remainder: the dividend is quotient times divisor plus remainder, and the remainder has the dividend's sign. |
| `Time.JavaDivNegate` | mobitopp/src/main/java/edu/kit/ifv/mobitopp/time/SimpleTime.java:63-65 | Truncating division and remainder commute with negation. |
| `Time.SimpleTime.Of` | mobitopp/src/main/java/edu/kit/ifv/mobitopp/time/SimpleTime.java:29-31 | The time is days, hours, minutes and seconds added up in seconds. |
| `Time.SimpleTime.GetDay` | mobitopp/src/main/java/edu/kit/ifv/mobitopp/time/SimpleTime.java:73-89 | The day containing the time. Day -1 covers seconds -86400 to -1 inclusive, and so on. |
| `Time.SimpleTime.ToMinutes` | mobitopp/src/main/java/edu/kit/ifv/mobitopp/time/SimpleTime.java:63-65 | Whole minutes truncated toward zero: within one minute of the seconds below them for non-negative times and above them for negative ones. |
| `Time.SimpleTime.GetWeek` | mobitopp/src/main/java/edu/kit/ifv/mobitopp/time/SimpleTime.java:68-70 | Whole weeks truncated toward zero, bounded by the seconds in the same way for each sign. |
| `Time.SimpleTime.GetHour` | mobitopp/src/main/java/edu/kit/ifv/mobitopp/time/SimpleTime.java:101-103 | The hour of the day: in [0, 24) for non-negative times and in (-24, 0] for negative ones, because the remainder keeps the sign. |
| `Time.SimpleTime.GetMinute` | mobitopp/src/main/java/edu/kit/ifv/mobitopp/time/SimpleTime.java:106-108 | The minute of the hour: in [0, 60) for non-negative times and in (-60, 0] for negative ones. |
| `Time.SimpleTime.GetSecond` | mobitopp/src/main/java/edu/kit/ifv/mobitopp/time/SimpleTime.java:111-113 | The second of the minute: Java's remainder of the seconds by 60, in [0, 60) or (-60, 0] by sign. |
| `Time.SimpleTime.IsMidnight` | mobitopp/src/main/java/edu/kit/ifv/mobitopp/time/SimpleTime.java:126-128 | Midnight exactly when the time is a whole number of days, negative times included. |
| `Time.SimpleTime.IsAfter` | mobitopp/src/main/java/edu/kit/ifv/mobitopp/time/SimpleTime.java:131-133 | After exactly when the other time is before this one. |
| `Time.SimpleTime.IsBefore` | mobitopp/src/main/java/edu/kit/ifv/mobitopp/time/SimpleTime.java:136-138 | Before exactly when the other time is not at or before this one. |
| `Time.SimpleTime.IsBeforeOrEqualTo` | mobitopp/src/main/java/edu/kit/ifv/mobitopp/time/SimpleTime.java:141-143 | At or before implies a day no later, and not at or before implies a day no earlier: the day is monotone in the order. |
| `Time.SimpleTime.IsAfterOrEqualTo` | mobitopp/src/main/java/edu/kit/ifv/mobitopp/time/SimpleTime.java:146-148 | At or after exactly when the other time is at or before this one. |
| `Time.GetDayIsFloor` | mobitopp/src/main/java/edu/kit/ifv/mobitopp/time/SimpleTime.java:73-89 | The day is the floor of seconds over a day length. Non-negative times have non-negative days, and the day before the start is -1. |
| `Time.ClockOfNonNegative` | mobitopp/src/main/java/edu/kit/ifv/mobitopp/time/SimpleTime.java:73-113 | A non-negative time written as day, hour, minute and second within their ranges reports exactly those four. |
| `Time.ClockDecomposition` | mobitopp/src/main/java/edu/kit/ifv/mobitopp/time/SimpleTime.java:73-113 | A non-negative time has hour, minute and second within their ranges, and they and the day add back up to the time. |
| `Time.SimpleTime.StartOfDay` | mobitopp/src/main/java/edu/kit/ifv/mobitopp/time/SimpleTime.java:223-226 | A whole number of days. It lies at or before the time for non-negative times; because of truncation, it lies at or after the time for negative times. |
| `Time.NegativeStartOfDay` | mobitopp/src/main/java/edu/kit/ifv/mobitopp/time/SimpleTime.java:73-89 | The second before the start lies in day -1, yet its start of day is second 0. |
| `Time.SimpleTime.PreviousDay` | mobitopp/src/main/java/edu/kit/ifv/mobitopp/time/SimpleTime.java:116-119 | One day before the start of the current day. |
| `Time.SimpleTime.NextDay` | mobitopp/src/main/java/edu/kit/ifv/mobitopp/time/SimpleTime.java:121-124 | One day after the start of the current day. |
| `Time.DayNeighbours` | mobitopp/src/main/java/edu/kit/ifv/mobitopp/time/SimpleTime.java:116-124 | For a non-negative time, the start of day is midnight of the same day, and next and previous day are midnight of the neighbouring days. |
| `Time.ClockZeroIffWholeDays` | mobitopp/src/main/java/edu/kit/ifv/mobitopp/time/SimpleTime.java:101-113 | Hour, minute and second are all zero exactly when the time is a whole number of days, including negative times. |
| `Time.DayStartIsMidnight` | mobitopp/src/main/java/edu/kit/ifv/mobitopp/time/SimpleTime.java:41-43 | The time of day d lies in day d and is midnight. |
| `Time.OrderingsAgree` | mobitopp/src/main/java/edu/kit/ifv/mobitopp/time/SimpleTime.java:131-149 | isAfter, isBefore, isBeforeOrEqualTo and isAfterOrEqualTo are the orderings of the second counts, and compareTo is antisymmetric. |
| `Time.SimpleTime.CompareTo` | mobitopp/src/main/java/edu/kit/ifv/mobitopp/time/SimpleTime.java:287-294 | The result is -1, 0 or 1 in agreement with the second counts, and it is 0 exactly when the times are equal. |
| `Time.SimpleTime.Equals` | mobitopp/src/main/java/edu/kit/ifv/mobitopp/time/SimpleTime.java:270-280 | Equality compares the second counts only. |
| `Time.SimpleTime.Minus` | mobitopp/src/main/java/edu/kit/ifv/mobitopp/time/SimpleTime.java:151-155 | The time moves back by the span's seconds. |
| `Time.SimpleTime.Plus` | mobitopp/src/main/java/edu/kit/ifv/mobitopp/time/SimpleTime.java:187-191 | The time moves forward by the span's seconds. |
| `Time.SimpleTime.MinusWeeks` | mobitopp/src/main/java/edu/kit/ifv/mobitopp/time/SimpleTime.java:157-161 | The time moves back by n weeks of seconds. |
| `Time.SimpleTime.MinusDays` | mobitopp/src/main/java/edu/kit/ifv/mobitopp/time/SimpleTime.java:163-167 | The time moves back by n days of seconds. |
| `Time.SimpleTime.MinusHours` | mobitopp/src/main/java/edu/kit/ifv/mobitopp/time/SimpleTime.java:169-173 | The time moves back by n hours of seconds. |
| `Time.SimpleTime.MinusMinutes` | mobitopp/src/main/java/edu/kit/ifv/mobitopp/time/SimpleTime.java:175-179 | The time moves back by n minutes of seconds. |
| `Time.SimpleTime.MinusSeconds` | mobitopp/src/main/java/edu/kit/ifv/mobitopp/time/SimpleTime.java:181-185 | The time moves back by n seconds. |
| `Time.SimpleTime.PlusWeeks` | mobitopp/src/main/java/edu/kit/ifv/mobitopp/time/SimpleTime.java:193-197 | The time moves forward by n weeks of seconds. |
| `Time.SimpleTime.PlusDays` | mobitopp/src/main/java/edu/kit/ifv/mobitopp/time/SimpleTime.java:199-203 | The time moves forward by n days of seconds. |
| `Time.SimpleTime.PlusHours` | mobitopp/src/main/java/edu/kit/ifv/mobitopp/time/SimpleTime.java:205-209 | The time moves forward by n hours of seconds. |
| `Time.SimpleTime.PlusMinutes` | mobitopp/src/main/java/edu/kit/ifv/mobitopp/time/SimpleTime.java:211-215 | The time moves forward by n minutes of seconds. |
| `Time.SimpleTime.PlusSeconds` | mobitopp/src/main/java/edu/kit/ifv/mobitopp/time/SimpleTime.java:217-221 | The time moves forward by n seconds. |
| `Time.MinusUndoesPlus` | mobitopp/src/main/java/edu/kit/ifv/mobitopp/time/SimpleTime.java:151-221 | Every minusX(n) undoes plusX(n) for each unit, and minus(d) undoes plus(d). |
| `Time.SimpleTime.Verify` | mobitopp/src/main/java/edu/kit/ifv/mobitopp/time/SimpleTime.java:234-244 | Only hours in [0, 28) and minutes and seconds in [0, 60) pass, and the first violated bound is the one reported. |
| `Time.SimpleTime.NewTime` | mobitopp/src/main/java/edu/kit/ifv/mobitopp/time/SimpleTime.java:228-244 | This fails exactly when the range check fails, with its error. Otherwise it gives the start of the day plus the clock time. |
| `Time.NewTimeKeepsDay` | mobitopp/src/main/java/edu/kit/ifv/mobitopp/time/SimpleTime.java:228-244 | On a non-negative time, a clock time within the day lands on the same day at exactly that hour, minute and second. |
| `Time.SimpleTime.DifferenceTo` | mobitopp/src/main/java/edu/kit/ifv/mobitopp/time/SimpleTime.java:246-249 | The span is the difference of the second counts. |
| `Time.OneWeek` | mobitopp/src/main/java/edu/kit/ifv/mobitopp/time/SimpleTime.java:255-262 | The loop builds seven times; the i-th is midnight of day i. |
| `RangeDistributionItems.Verify` | mobitopp/src/main/java/edu/kit/ifv/mobitopp/data/demand/RangeDistributionItem.java:19-47 | A negative lower bound, upper bound or amount is rejected, checked in that order; zero is accepted. |
| `RangeDistributionItems.RangeDistributionItem.Make` | mobitopp/src/main/java/edu/kit/ifv/mobitopp/data/demand/RangeDistributionItem.java:19-27 | After the checks pass, the item holds exactly the given bounds and amount. |
| `RangeDistributionItems.RangeDistributionItem.New` | mobitopp/src/main/java/edu/kit/ifv/mobitopp/data/demand/RangeDistributionItem.java:19-27 | The three-argument constructor fails exactly when a check fails, with its error, and otherwise gives an item of those values. |
| `RangeDistributionItems.RangeDistributionItem.Single` | mobitopp/src/main/java/edu/kit/ifv/mobitopp/data/demand/RangeDistributionItem.java:29-31 | The lower and the upper bound are both the given bound. |
| `RangeDistributionItems.RangeDistributionItem.Copy` | mobitopp/src/main/java/edu/kit/ifv/mobitopp/data/demand/RangeDistributionItem.java:33-35 | A new item equal to the original. |
| `RangeDistributionItems.RangeDistributionItem.Matches` | mobitopp/src/main/java/edu/kit/ifv/mobitopp/data/demand/RangeDistributionItem.java:49-51 | A key matches exactly when it lies between the bounds, both included. |
| `RangeDistributionItems.RangeDistributionItem.Increment` | mobitopp/src/main/java/edu/kit/ifv/mobitopp/data/demand/RangeDistributionItem.java:65-67 | The amount grows by exactly one; the bounds are unchanged. |
| `RangeDistributionItems.RangeDistributionItem.CreateEmpty` | mobitopp/src/main/java/edu/kit/ifv/mobitopp/data/demand/RangeDistributionItem.java:69-71 | A new item with the same bounds and amount 0. |
| `RangeDistributionItems.RangeDistributionItem.Equals` | mobitopp/src/main/java/edu/kit/ifv/mobitopp/data/demand/RangeDistributionItem.java:96-106 | Equality compares all three fields. |
| `RangeDistributionItems.CompareEqualIsZero` | mobitopp/src/main/java/edu/kit/ifv/mobitopp/data/demand/RangeDistributionItem.java:73-88 | Equal items compare as 0. |
| `RangeDistributionItems.CompareSmallerLowerBound` | mobitopp/src/main/java/edu/kit/ifv/mobitopp/data/demand/RangeDistributionItem.java:73-88 | A smaller lower bound compares as -1. |
| `RangeDistributionItems.CompareWithEqualLowerBound` | mobitopp/src/main/java/edu/kit/ifv/mobitopp/data/demand/RangeDistributionItem.java:73-88 | With equal lower bounds the comparison orders by upper bound, then amount. It is 0 only for equal items and antisymmetric. |
| `RangeDistributionItems.CompareNotAntisymmetric` | mobitopp/src/main/java/edu/kit/ifv/mobitopp/data/demand/RangeDistributionItem.java:73-88 | (3,5,2) against (1,5,2) gives 0 although the items differ, while the reverse gives -1: compareTo is not a total order. |
| `Demographies.RangeDistribution.CreateEmpty` | mobitopp/src/main/java/edu/kit/ifv/mobitopp/data/demand/Demography.java:96-102 | The same items with every amount 0. |
| `Demographies.IncrementFirstCounts` | mobitopp/src/main/java/edu/kit/ifv/mobitopp/data/demand/Demography.java:66-72 | Incrementing the first matching item raises the total by one and keeps every range. |
| `Demographies.RecordCounts` | mobitopp/src/main/java/edu/kit/ifv/mobitopp/data/demand/Demography.java:66-72 | A successful record covers the value and counts exactly one more observation. An item (value, 0) is added only when none covered the value. |
| `Demographies.Record` | mobitopp/src/main/java/edu/kit/ifv/mobitopp/data/demand/Demography.java:66-72 | Recording fails, with the rejected bound, exactly when no item covers the value and the value is negative, since the new item's constructor rejects it. Otherwise every existing range is kept, and the list grows by one item exactly when no item covered the value; that new last item has the value as both bounds. |
| `Demographies.RecordOnValid` | mobitopp/src/main/java/edu/kit/ifv/mobitopp/data/demand/Demography.java:66-72 | On a distribution of valid items a negative value is always rejected, because no valid item covers it. A non-negative value is always recorded, and the distribution stays valid. |
| `Demographies.IncrementFirst` | mobitopp/src/main/java/edu/kit/ifv/mobitopp/data/demand/Demography.java:71 | Incrementing the first matching item keeps the length and every item's bounds. |
| `Demographies.CreateEmptyCountsNothing` | mobitopp/src/main/java/edu/kit/ifv/mobitopp/data/demand/Demography.java:90-102 | An emptied distribution counts nothing, but it has items exactly when the original had. |
| `Demographies.AgeAttribute` | mobitopp/src/main/java/edu/kit/ifv/mobitopp/data/demand/Demography.java:82-88 | Male ages count under MaleAge, every other gender under FemaleAge. |
| `Demographies.Demography.constructor` | mobitopp/src/main/java/edu/kit/ifv/mobitopp/data/demand/Demography.java:21-27 | The demography holds the given distributions, keyed by type. The map is copied, but the distributions in it are shared with the caller (see Left out). |
| `Demographies.Demography.GetDistribution` | mobitopp/src/main/java/edu/kit/ifv/mobitopp/data/demand/Demography.java:45-56 | The result is the stored distribution. A missing type is stored empty first, so later calls find the same one, and a present type changes nothing. |
| `Demographies.Demography.HasData` | mobitopp/src/main/java/edu/kit/ifv/mobitopp/data/demand/Demography.java:62-64 | There is data exactly when some distribution has items. |
| `Demographies.Demography.Increment` | mobitopp/src/main/java/edu/kit/ifv/mobitopp/data/demand/Demography.java:66-72 | Only the type's distribution changes. The increment fails exactly when recording the value fails, with its error; the type's distribution has then been stored, empty if it was missing, and is otherwise unchanged. On success the distribution is the recorded one: it covers the value and counts one more, and the demography then has data. |
| `Demographies.Demography.IncrementAge` | mobitopp/src/main/java/edu/kit/ifv/mobitopp/data/demand/Demography.java:82-88 | The age is recorded under MaleAge for males and under FemaleAge otherwise, failing exactly as the increment of that type does. |
| `Demographies.Demography.CreateEmpty` | mobitopp/src/main/java/edu/kit/ifv/mobitopp/data/demand/Demography.java:90-94 | A new demography with the same types, each distribution emptied; it has data exactly when this one has. |
| `Rows.Row.ContainsAttribute` | mobitopp/src/main/java/edu/kit/ifv/mobitopp/util/dataimport/Row.java:23-25 | True exactly when the key is one of the row's keys. |
| `Rows.Row.Get` | mobitopp/src/main/java/edu/kit/ifv/mobitopp/util/dataimport/Row.java:27-34 | The stored value when the key is present. Otherwise an error naming the key and the keys present. |
| `Rows.Row.Equals` | mobitopp/src/main/java/edu/kit/ifv/mobitopp/util/dataimport/Row.java:87-96 | Rows are equal exactly when their value maps are. |
| `Rows.Padded` | mobitopp/src/main/java/edu/kit/ifv/mobitopp/util/dataimport/Row.java:62-71 | The values padded with "" up to the given length; longer value lists are kept. |
| `Rows.AssignedKeys` | mobitopp/src/main/java/edu/kit/ifv/mobitopp/util/dataimport/Row.java:73-79 | The keys of the built map are exactly the attribute names. |
| `Rows.AssignedLastWins` | mobitopp/src/main/java/edu/kit/ifv/mobitopp/util/dataimport/Row.java:74-77 | A repeated attribute name maps to the value at its last position. |
| `Rows.DoCreateRow` | mobitopp/src/main/java/edu/kit/ifv/mobitopp/util/dataimport/Row.java:73-79 | The loop builds the map of attribute i to value i. |
| `Rows.CreateRow` | mobitopp/src/main/java/edu/kit/ifv/mobitopp/util/dataimport/Row.java:52-60 | Too few values are padded with "", so trailing attributes map to "". Surplus values are dropped. The keys are the attribute names, and a repeated name keeps its later value. |
| `Rows.ExtendValues` | mobitopp/src/main/java/edu/kit/ifv/mobitopp/util/dataimport/Row.java:62-71 | One empty value is appended. |
| `ModeAvailability.Dedup` | mobitopp/src/main/java/edu/kit/ifv/mobitopp/simulation/modeChoice/BasicModeAvailabilityModel.java:53 | A copy of the modes as an insertion-ordered set: each mode once, the same members. |
| `ModeAvailability.Add` | mobitopp/src/main/java/edu/kit/ifv/mobitopp/simulation/modeChoice/BasicModeAvailabilityModel.java:161-163 | Adding a mode to a set of modes keeps it a set and adds exactly that member. |
| `ModeAvailability.RemoveAll` | mobitopp/src/main/java/edu/kit/ifv/mobitopp/simulation/modeChoice/BasicModeAvailabilityModel.java:53-55 | Exactly the members not removed are kept. |
| `ModeAvailability.BasicModeAvailabilityModel.constructor` | mobitopp/src/main/java/edu/kit/ifv/mobitopp/simulation/modeChoice/BasicModeAvailabilityModel.java:27-36 | The model keeps the impedance and the mode rules it is given. |
| `ModeAvailability.AtHomeChoiceSet` | mobitopp/src/main/java/edu/kit/ifv/mobitopp/simulation/modeChoice/BasicModeAvailabilityModel.java:53-66 | At home there is no car-sharing. The car is available only with a licence and a free household car, the bike only with a bike, and every other mode is kept. |
| `ModeAvailability.FlexibleChoiceSet` | mobitopp/src/main/java/edu/kit/ifv/mobitopp/simulation/modeChoice/BasicModeAvailabilityModel.java:67-77 | Away from home after a flexible main mode, the input stays except car-sharing and the fixed modes. |
| `ModeAvailability.CarAvailable` | mobitopp/src/main/java/edu/kit/ifv/mobitopp/simulation/modeChoice/BasicModeAvailabilityModel.java:182-189 | The car is available exactly with a driving licence and at least one available household car. |
| `ModeAvailability.AvailableModesOf` | mobitopp/src/main/java/edu/kit/ifv/mobitopp/simulation/modeChoice/BasicModeAvailabilityModel.java:53-79 | The choice set holds no mode twice. At home or after a flexible main mode it holds only given modes and no car-sharing; after a fixed main mode it is exactly that mode. |
| `ModeAvailability.WalkDistance` | mobitopp/src/main/java/edu/kit/ifv/mobitopp/simulation/modeChoice/BasicModeAvailabilityModel.java:107-110 | The round trip via the destination and the next fixed destination home, scaled by the factor, is not negative for non-negative distances and factor. |
| `ModeAvailability.BasicModeAvailabilityModel.FastestOf` | mobitopp/src/main/java/edu/kit/ifv/mobitopp/simulation/modeChoice/BasicModeAvailabilityModel.java:139-159 | After n modes the search has a mode and a time exactly when n > 0, and the mode is one of those n. |
| `ModeAvailability.BasicModeAvailabilityModel.AvailableModes` | mobitopp/src/main/java/edu/kit/ifv/mobitopp/simulation/modeChoice/BasicModeAvailabilityModel.java:46-81 | The in-place removals give exactly the at-home choice set at home. Away from home they give the flexible set, or only the previous main mode when that mode is fixed. No mode appears twice. |
| `ModeAvailability.BasicModeAvailabilityModel.FilterAvailableModes` | mobitopp/src/main/java/edu/kit/ifv/mobitopp/simulation/modeChoice/BasicModeAvailabilityModel.java:84-123 | The available modes, except that at home walking is dropped when the round trip via the next fixed destination back home is longer than 3 km. |
| `ModeAvailability.BasicModeAvailabilityModel.ReasonableOf` | mobitopp/src/main/java/edu/kit/ifv/mobitopp/simulation/modeChoice/BasicModeAvailabilityModel.java:161-163 | A mode is reasonable exactly when it is among the modes and its travel time is below one day; each is listed once. |
| `ModeAvailability.BasicModeAvailabilityModel.ModesWithReasonableTravelTime` | mobitopp/src/main/java/edu/kit/ifv/mobitopp/simulation/modeChoice/BasicModeAvailabilityModel.java:125-173 | The result is the reasonable modes, or only the fastest mode when none is reasonable and one must be kept. The fastest mode has a travel time no greater than any input mode. |
| `ModeAvailability.BasicModeAvailabilityModel.MinTime` | mobitopp/src/main/java/edu/kit/ifv/mobitopp/simulation/modeChoice/BasicModeAvailabilityModel.java:140-159 | The least travel time over the first n modes: at most each of them and attained by one. |
| `ModeAvailability.BasicModeAvailabilityModel.FastestHasLeastTime` | mobitopp/src/main/java/edu/kit/ifv/mobitopp/simulation/modeChoice/BasicModeAvailabilityModel.java:140-159 | The search ends with a mode of least travel time, and with that time. |
| `ModeAvailability.BasicModeAvailabilityModel.FastestIsFirstPreferred` | mobitopp/src/main/java/edu/kit/ifv/mobitopp/simulation/modeChoice/BasicModeAvailabilityModel.java:152-159 | Among the modes of least time the search keeps the first that is not PASSENGER, and PASSENGER only when every such mode is PASSENGER. |
| `ModeAvailability.BasicModeAvailabilityModel.FasterResets` | mobitopp/src/main/java/edu/kit/ifv/mobitopp/simulation/modeChoice/BasicModeAvailabilityModel.java:152-156 | A strictly faster mode becomes the fastest. |
| `ModeAvailability.BasicModeAvailabilityModel.TieKeepsPreferred` | mobitopp/src/main/java/edu/kit/ifv/mobitopp/simulation/modeChoice/BasicModeAvailabilityModel.java:152-159 | An equally fast mode replaces the fastest only when that one is PASSENGER. |
| `VisumNetworkReaders.WalkSpeed` | mobitopp/src/main/java/edu/kit/ifv/mobitopp/visum/VisumNetworkReader.java:197-216 | Two given speeds that parse alike give that speed, and unequal ones give 0. A single given speed is used as it is, and no speed gives 0. |
| `VisumNetworkReaders.WalkSpeedSymmetric` | mobitopp/src/main/java/edu/kit/ifv/mobitopp/visum/VisumNetworkReader.java:197-216 | Neither attribute takes precedence: exchanging the two attribute names gives the same speed. |
| `VisumNetworkReaders.WalkSpeedOfRow` | mobitopp/src/main/java/edu/kit/ifv/mobitopp/visum/VisumNetworkReader.java:197-214 | A row with both speeds parsing alike, or with only the individual one, reports that parsed speed. |
| `VisumNetworkReaders.Direction` | mobitopp/src/main/java/edu/kit/ifv/mobitopp/visum/VisumNetworkReader.java:337-344 | "H" and ">" are the outbound direction; every other code is the return direction. |
| `VisumNetworkReaders.DirectionRoundTrip` | mobitopp/src/main/java/edu/kit/ifv/mobitopp/visum/VisumNetworkReader.java:337-344 | Decoding the name of a direction's enum constant, "H" or "R", gives the direction back. |
| `VisumNetworkReaders.VisumNode.SetTurns` | mobitopp/src/main/java/edu/kit/ifv/mobitopp/visum/VisumNetworkReader.java:246 | The node's turns are the given list. |
| `VisumNetworkReaders.AssignTurnsToNodes` | mobitopp/src/main/java/edu/kit/ifv/mobitopp/visum/VisumNetworkReader.java:240-251 | Every node with an entry gets exactly that turn list, and every other node keeps its turns. The nodes without an entry are reported. |
| `ZoneProperties.StructuralData.GetValue` | mobitopp/src/main/java/edu/kit/ifv/mobitopp/dataimport/ZonePropertiesData.java:36-39 | A stored value exactly when the zone has the key. |
| `ZoneProperties.ClassificationOfCode` | mobitopp/src/main/java/edu/kit/ifv/mobitopp/dataimport/ZonePropertiesData.java:24-34 | 0 is the study area, 1 the extended study area and every other number the outlying area. |
| `ZoneProperties.CodeOfClassification` | mobitopp/src/main/java/edu/kit/ifv/mobitopp/dataimport/ZonePropertiesData.java:24-34 | The number chosen for a classification decodes back to it. |
| `ZoneProperties.ZonePropertiesData.ClassificationValue` | mobitopp/src/main/java/edu/kit/ifv/mobitopp/dataimport/ZonePropertiesData.java:36-39 | The value under the new classification key when the zone has it, otherwise the value under the old key. |
| `ZoneProperties.ZonePropertiesData.CurrentClassification` | mobitopp/src/main/java/edu/kit/ifv/mobitopp/dataimport/ZonePropertiesData.java:24-34 | A numeric value decodes to its classification. A missing or non-numeric value is an error. |
| `ZoneProperties.ClassificationRoundTrip` | mobitopp/src/main/java/edu/kit/ifv/mobitopp/dataimport/ZonePropertiesData.java:24-39 | Writing a classification's number under either key and reading it back gives the classification, and the new key wins. |
| `ZoneProperties.ZonePropertiesData.CurrentZoneAreaType` | mobitopp/src/main/java/edu/kit/ifv/mobitopp/dataimport/ZonePropertiesData.java:45-54 | A numeric area type is looked up by code. Otherwise "" gives the default and any other text is looked up by name. |
| `ZoneProperties.NumericAreaTypeUsesCode` | mobitopp/src/main/java/edu/kit/ifv/mobitopp/dataimport/ZonePropertiesData.java:45-49 | An area type written as a number is always looked up by that code. |
| `ZoneProperties.EmptyAreaTypeIsDefault` | mobitopp/src/main/java/edu/kit/ifv/mobitopp/dataimport/ZonePropertiesData.java:50-52 | An empty area type gives the repository default. |
| `Validation.ValidateThreadCount` | mobitopp/src/main/java/edu/kit/ifv/mobitopp/simulation/Validate.java:29-34 | A thread count below 1 is rejected. |
| `Validation.ValidateTimeStepLength` | mobitopp/src/main/java/edu/kit/ifv/mobitopp/simulation/Validate.java:36-41 | Only the default time-step length is accepted. |
| `Validation.ValidateNumberOfZones` | mobitopp/src/main/java/edu/kit/ifv/mobitopp/simulation/Validate.java:43-49 | A number of zones below 1 is rejected. |
| `Validation.ValidateFractionOfPopulation` | mobitopp/src/main/java/edu/kit/ifv/mobitopp/simulation/Validate.java:51-58 | A fraction in [0, 1], both ends included, is accepted. Below 0 and above 1 are rejected with their own errors. |
| `Validation.NumericChecks` | mobitopp/src/main/java/edu/kit/ifv/mobitopp/simulation/Validate.java:19-58 | The numeric checks pass exactly when each passes. |
| `Validation.NumericChecksReportFirstFailure` | mobitopp/src/main/java/edu/kit/ifv/mobitopp/simulation/Validate.java:19-27 | The error is that of the first failing check in the fixed order, whatever later checks say. |
| `Validation.ValidateDestinationChoiceFiles` | mobitopp/src/main/java/edu/kit/ifv/mobitopp/simulation/Validate.java:60-66 | This passes exactly when every destination-choice path exists. A failure names a missing path. |
| `Validation.Validate.constructor` | mobitopp/src/main/java/edu/kit/ifv/mobitopp/simulation/Validate.java:13-16 | No configuration is kept yet. |
| `Validation.Validate.Now` | mobitopp/src/main/java/edu/kit/ifv/mobitopp/simulation/Validate.java:19-27 | The configuration is kept. The result passes exactly when all checks pass, and a failure is that of the first failing check, with the data source checked last. |
| `NodesFromVisumZones.Make` | mobitopp/src/main/java/edu/kit/ifv/mobitopp/routing/NodeFromVisumZone.java:18-22 | The id is the zone id's decimal text, and the node keeps the zone and the sink flag. |
| `NodesFromVisumZones.New` | mobitopp/src/main/java/edu/kit/ifv/mobitopp/routing/NodeFromVisumZone.java:14-16 | The public constructor always gives a sink that is never a target, at the zone's coordinate. |
| `NodesFromVisumZones.UseExternalInRouteSearch` | mobitopp/src/main/java/edu/kit/ifv/mobitopp/routing/NodeFromVisumZone.java:24-30 | The node is a sink exactly when the zone type is not 5. It is never a target. |
| `NodesFromVisumZones.IsBlockedInRouteSearch` | mobitopp/src/main/java/edu/kit/ifv/mobitopp/routing/NodeFromVisumZone.java:28-30 | A zone is blocked in route search exactly when its type is not the external type. |
| `NodesFromVisumZones.NodeFromVisumZone.IsSink` | mobitopp/src/main/java/edu/kit/ifv/mobitopp/routing/NodeFromVisumZone.java:36-39 | The node reports the sink flag it was built with. |
| `NodesFromVisumZones.NodeFromVisumZone.IsTarget` | mobitopp/src/main/java/edu/kit/ifv/mobitopp/routing/NodeFromVisumZone.java:41-43 | A zone node is never a target. |
| `NodesFromVisumZones.NodeIdIsZoneId` | mobitopp/src/main/java/edu/kit/ifv/mobitopp/routing/NodeFromVisumZone.java:18-22 | The node id parses back to the zone id. Both constructors give the same id, and distinct zones give distinct ids. |
| `Decimal.ParseIntOfIntToString` | mobitopp/src/main/java/edu/kit/ifv/mobitopp/simulation/person/SimulationPersonPassenger.java:559-562 | Parsing the decimal text of a 32-bit integer gives the integer back. |
| `Decimal.IntToStringInjective` | mobitopp/src/main/java/edu/kit/ifv/mobitopp/routing/NodeFromVisumZone.java:18-22 | Distinct integers have distinct decimal texts. |
| `Decimal.IntToString` | mobitopp/src/main/java/edu/kit/ifv/mobitopp/simulation/person/SimulationPersonPassenger.java:559-562 | A non-negative integer becomes digits denoting it; a negative one becomes a minus sign followed by digits denoting its magnitude. |
| `Decimal.ParseInt` | mobitopp/src/main/java/edu/kit/ifv/mobitopp/simulation/person/SimulationPersonPassenger.java:559-562 | Only values in the 32-bit range come out. A run of digits, or a minus sign followed by one, gives its value when that value is in range. A text with a character that is neither a digit nor a leading sign gives no number. |
| `AggregateDemands.IntegerMatrix.Increment` | mobitopp/src/main/java/edu/kit/ifv/mobitopp/simulation/AggregateDemand.java:33-38 | The (origin, destination) cell grows by one and every other cell stays. |
| `AggregateDemands.MatrixColumns` | mobitopp/src/main/java/edu/kit/ifv/mobitopp/simulation/AggregateDemand.java:28-31 | The matrix columns of the zone ids, in their order. |
| `AggregateDemands.AggregateDemand.constructor` | mobitopp/src/main/java/edu/kit/ifv/mobitopp/simulation/AggregateDemand.java:22-26 | An all-zero matrix over those columns, with nothing written yet. |
| `AggregateDemands.AggregateDemand.NotifyEndTrip` | mobitopp/src/main/java/edu/kit/ifv/mobitopp/simulation/AggregateDemand.java:33-38 | The matrix counts one more trip between the trip's origin and destination zones. |
| `AggregateDemands.AggregateDemand.NotifyFinishSimulation` | mobitopp/src/main/java/edu/kit/ifv/mobitopp/simulation/AggregateDemand.java:40-43 | The current matrix is handed to the writer and stays as it is. |
| `AggregateDemands.AggregateDemand.Notify` | mobitopp/src/main/java/edu/kit/ifv/mobitopp/simulation/AggregateDemand.java:33-67 | Only end-trip and finish notifications act; every other notification leaves matrix and writer alone. |
| `AggregateDemands.ReplayCountsTrips` | mobitopp/src/main/java/edu/kit/ifv/mobitopp/simulation/AggregateDemand.java:33-67 | After any sequence of notifications each cell has grown by exactly the number of trips reported between its zones. |
| `SingleZoneDemandCalculators.SingleZoneDemandCalculator.constructor` | mobitopp/src/main/java/edu/kit/ifv/mobitopp/populationsynthesis/calculator/SingleZoneDemandCalculator.java:19-26 | The calculator keeps its zones and impedance. |
| `SingleZoneDemandCalculators.SingleZoneDemandCalculator.CalculateDemandFor` | mobitopp/src/main/java/edu/kit/ifv/mobitopp/populationsynthesis/calculator/SingleZoneDemandCalculator.java:38-52 | The first pass calculates and then saves each zone to be populated, in repository order. |
| `SingleZoneDemandCalculators.SingleZoneDemandCalculator.SaveZoneAttributesOf` | mobitopp/src/main/java/edu/kit/ifv/mobitopp/populationsynthesis/calculator/SingleZoneDemandCalculator.java:54-62 | The second pass saves each zone not to be populated, in repository order. |
| `SingleZoneDemandCalculators.SingleZoneDemandCalculator.CalculateDemand` | mobitopp/src/main/java/edu/kit/ifv/mobitopp/populationsynthesis/calculator/SingleZoneDemandCalculator.java:29-36 | Both passes in order. Every zone is saved exactly as often as it occurs, and exactly the zones to be populated are calculated, in order. |
| `SingleZoneDemandCalculators.EveryZoneSavedOnce` | mobitopp/src/main/java/edu/kit/ifv/mobitopp/populationsynthesis/calculator/SingleZoneDemandCalculator.java:29-36 | Because the two predicates are complementary, every zone is saved exactly once per occurrence. |
| `SingleZoneDemandCalculators.SavedPerPass` | mobitopp/src/main/java/edu/kit/ifv/mobitopp/populationsynthesis/calculator/SingleZoneDemandCalculator.java:29-62 | The saves of the two passes together make up the repository's zones. |
| `SingleZoneDemandCalculators.OnlyPopulatedZonesCalculated` | mobitopp/src/main/java/edu/kit/ifv/mobitopp/populationsynthesis/calculator/SingleZoneDemandCalculator.java:29-52 | Exactly the zones to be populated are calculated, in repository order. |
| `SingleZoneDemandCalculators.CalculatePassCalculates` | mobitopp/src/main/java/edu/kit/ifv/mobitopp/populationsynthesis/calculator/SingleZoneDemandCalculator.java:38-52 | The first pass calculates exactly the zones to be populated. |
| `SingleZoneDemandCalculators.SavePassCalculatesNothing` | mobitopp/src/main/java/edu/kit/ifv/mobitopp/populationsynthesis/calculator/SingleZoneDemandCalculator.java:54-62 | The second pass calculates nothing. |
| `SingleZoneDemandCalculators.PassesAreSeparated` | mobitopp/src/main/java/edu/kit/ifv/mobitopp/populationsynthesis/calculator/SingleZoneDemandCalculator.java:29-62 | The first pass only touches zones to be populated, and each calculation is followed at once by the save of the same zone. The second pass only saves zones not to be populated. |
| `IsolatedZonesCommunityDemandCalculators.Calculations` | mobitopp/src/main/java/edu/kit/ifv/mobitopp/populationsynthesis/community/IsolatedZonesCommunityDemandCalculator.java:19-24 | One calculation per zone, in order, each with the given impedance. |
| `IsolatedZonesCommunityDemandCalculators.CalculateCommunityDemand` | mobitopp/src/main/java/edu/kit/ifv/mobitopp/populationsynthesis/community/IsolatedZonesCommunityDemandCalculator.java:19-29 | The calculator receives exactly the filtered zones, in the order the community yields them. |
| `IsolatedZonesCommunityDemandCalculators.CalculatedExactly` | mobitopp/src/main/java/edu/kit/ifv/mobitopp/populationsynthesis/community/IsolatedZonesCommunityDemandCalculator.java:19-29 | A zone is calculated exactly when it is in the community, is to be populated and is not outlying. An outlying zone never is. The impedance passes unchanged, and each zone is calculated as often as the community yields it. |
| `ActivityAssigners.CreatePersonPanelIdFor` | mobitopp/src/main/java/edu/kit/ifv/mobitopp/populationsynthesis/DefaultActivityAssigner.java:27-31 | The panel id is the household's panel id (year and number) with the person's number. |
| `ActivityAssigners.PersonBuilder.SetPatternActivityWeek` | mobitopp/src/main/java/edu/kit/ifv/mobitopp/populationsynthesis/DefaultActivityAssigner.java:61 | The person's pattern is the given one. |
| `ActivityAssigners.DefaultActivityAssigner.constructor` | mobitopp/src/main/java/edu/kit/ifv/mobitopp/populationsynthesis/DefaultActivityAssigner.java:19-25 | The assigner starts with an empty cache and no created schedules. |
| `ActivityAssigners.DefaultActivityAssigner.DoAssignActivityProgramTo` | mobitopp/src/main/java/edu/kit/ifv/mobitopp/populationsynthesis/DefaultActivityAssigner.java:45-62 | The person receives the cached pattern of its panel person. An uncached key gets the converted new week, existing entries are kept, and a schedule is created in either case. |
| `ActivityAssigners.DefaultActivityAssigner.AssignActivitySchedule` | mobitopp/src/main/java/edu/kit/ifv/mobitopp/populationsynthesis/DefaultActivityAssigner.java:34-43 | Every person of the household receives the cached pattern of its panel person. The cache grows as the memo prescribes, and one schedule is created per person, in order. |
| `ActivityAssigners.DefaultActivityAssigner.MemoKeepsEntries` | mobitopp/src/main/java/edu/kit/ifv/mobitopp/populationsynthesis/DefaultActivityAssigner.java:55-60 | Cached entries are never overwritten, and the cache gains exactly the keys of the household's persons. |
| `ActivityAssigners.DefaultActivityAssigner.MemoFirstPersonWins` | mobitopp/src/main/java/edu/kit/ifv/mobitopp/populationsynthesis/DefaultActivityAssigner.java:55-60 | A key not cached before holds the pattern converted for the first person with that key. |

## Left out

- 32-bit integers: the model computes on unbounded integers. `int` overflow of seconds, minutes and counters, and `Math.toIntExact`, are not modelled. The only narrowing modelled is the `short` cast of a trip's planned duration, in `ToShort`.
- `SimpleTime.weekDay`, `hashCode` and `toString`: the week day comes from an enum that is not part of this model, and the others are formatting.
- `RelativeTime` is not part of this model; it is read as a signed second count with Java's truncating division.
- Floating point: travel times, distances and random doubles are `real`s produced by oracles. `driveCar`, the car's `driveDistance` and the distance driven on starting a car trip are not modelled.
- Randomness: `java.util.Random` is the oracle `nextDouble` over the recorded draws. `privateVisit`'s integer draw is recorded but not given a value.
- Log lines, console output and `System.gc` are not modelled.
- `VisumNetworkReader.readNetwork` and its table readers are file I/O and are not modelled. Only `walkSpeed`, `direction` and `assignTurnsToNodes` are.
- Concurrency: per-zone threads and the shared offer and vehicle boards are not modelled. The event queue is a sequence the person appends to.
- PersonState: the person states are oracles. `instantaneous`, `nextState` and `nextEvent` depend only on the state and the time. `doActionAtEnd` and `doActionAtStart` are recorded as effects, not executed.
- `SimulationPersonPassenger.UpdateState`: the Java loop need not terminate. The model requires every instantaneous state to step to a state of smaller rank (`Settles`).
- `SimulationPersonPassenger.startActivity` (SimulationPersonPassenger.java:149-154) has an empty body and is not modelled.
- `prepareTrip`, `createTrip`, `findRoute` and `isMobilityProviderCustomer` only delegate to collaborators that are not part of this model.
- The person's listener is a trace of `Notification`s.
- `Trip.start` and `Trip.finish` are modelled by the `StartedTrip` and `FinishedTrip` values they return, without the collaborators they call.
- The route chosen in `selectRoute` is not modelled, only the call with car and trip.
- `SimulationPersonPassenger.SelectModeAndCreateTrip`: the trip factory is an oracle. The chosen mode is proved to be the trip's mode only under `TripFactoryKeepsMode`.
- The activity schedule is a sequence. The next activity is the next position, and a new schedule starts at its first activity.
- `calculatePlannedEndDate` is the start date plus the duration in minutes.
- `offerRide` and `revokeRideOffer` use the offer board, which is recorded as a trace of add and remove calls.
- The ride-offer comparator is an integer order key per offer and time.
- Car and Bike are not part of this model. They are modelled only as far as the person uses them: driver, passengers and rider. Their other state is left out.
- RangeDistribution, IntegerMatrix and StructuralData are not part of this model. They are modelled as a list of items, a map of cells and a map of values as far as the core uses them.
- Demography's other accessors, `incrementHousehold`, `equals`, and the employment and income attributes are not modelled.
- `AggregateDemand` notifications other than `notifyEndTrip` and `notifyFinishSimulation` are not modelled beyond leaving the matrix alone. The two-argument `notifyEndTrip` default method is not modelled.
- `AggregateDemand.NotifyFinishSimulation`: the writer receives a snapshot of the matrix value, not a shared reference.
- `VisumNetworkReaders.AssignTurnsToNodes` requires the node objects to be distinct, which the Java map of freshly read nodes provides.
- `IsolatedZonesCommunityDemandCalculator.calculateDemandData` is named `CalculateCommunityDemand` here. It returns the calls made on the zone calculator.
- `BasicModeAvailabilityModel`: the next pole, the home zone and the date are parameters. `FIXED_MODES`, the main-mode rule and `isFlexible` are constants of the model.
- `ZonePropertiesData`: the area-type repository is an oracle, and `Integer.parseInt` is `Decimal.ParseInt`.
- `Validate`: file existence is an oracle. The data-source validation is an oracle outcome.
- `PersonForDemand`: the fields that are only read (age, gender, income, graduation, mode-choice preferences) and the logging methods are not modelled.
- `PersonForDemand.StartActivity`: the rescheduling strategy (`adjustSchedule`, PersonForDemand.java:445) is a collaborator that is not part of this model. Its call is recorded with its arguments, but its edits to the schedule are not modelled: the schedule frames of `StartActivity` and of `SimulationPersonPassenger.EndTrip` assume a rescheduling that changes nothing.
- `Demographies.Demography.constructor`: the distributions are values here. In Java only the map is copied, so the distribution objects stay shared with the caller, and `increment` and `getDistribution` act on those shared objects. That aliasing is not modelled.
- `Decimal.ParseInt` accepts the ASCII digits only. `Integer.parseInt` also accepts every other Unicode decimal digit.
- `BasicModeAvailabilityModel`: the one-argument constructor (BasicModeAvailabilityModel.java:34-36) only passes the default walk factor on, and is not modelled separately.
- `SingleZoneDemandCalculator`: the Java code asks the repository for its zones twice, once per pass (SingleZoneDemandCalculator.java:40 and :56). The model reads one fixed zone list, so a repository that changes between the passes is not modelled.
- `BasicModeAvailabilityModel.FastestOf`: travel times are finite reals, so the Java `assert fastestMode != null`, which fails when every travel time is infinite or NaN, cannot fail in the model.

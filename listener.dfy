/** What a person reports to the simulation's listeners. The listener
    interface (PersonListener.java) is not part of this model: a
    notification is a value, and a person's reports are the sequence of
    notifications it emits. The state type of the person is left open. */
module Listeners {
  import opened Time
  import opened Domain

  datatype Notification<S> =
    | StartActivity(personOid: int, activity: nat)
    | StartTrip(personOid: int, startedTrip: StartedTrip)
    | EndTrip(personOid: int, finishedTrip: FinishedTrip)
    | EndTripAtActivity(personOid: int, finishedTrip: FinishedTrip, activity: nat)
    | StateChanged(personOid: int, time: SimpleTime, previous: S, current: S)
    | SelectCarRoute(personOid: int, carId: int, trip: Trip)
    | FinishCarTrip(personOid: int, carId: int, finishedTrip: FinishedTrip, activity: nat)
    | WriteSubtourInfo(personOid: int)
    | WriteTourInfo(personOid: int)
    | FinishSimulation
}

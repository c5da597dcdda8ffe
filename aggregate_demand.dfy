/** A listener that counts finished trips in an origin-destination matrix
    over the zones of the study area, and hands the matrix to a writer when
    the simulation finishes. */
module AggregateDemands {
  import opened Domain
  import opened Listeners

  /** A square matrix of counts whose rows and columns are matrix columns of
      zones. IntegerMatrix.java is not part of this model; a cell that was
      never incremented holds 0. */
  datatype IntegerMatrix = IntegerMatrix(columns: seq<int>, cells: map<(int, int), int>) {
    function Get(origin: int, destination: int): int {
      if (origin, destination) in cells then cells[(origin, destination)] else 0
    }

    /** Raises one cell by one and leaves every other cell as it is. */
    function Increment(origin: ZoneId, destination: ZoneId): (m: IntegerMatrix)
      ensures m.columns == columns
      ensures m.Get(origin.matrixColumn, destination.matrixColumn) == Get(origin.matrixColumn, destination.matrixColumn) + 1
      ensures forall o, d :: (o, d) != (origin.matrixColumn, destination.matrixColumn) ==> m.Get(o, d) == Get(o, d)
    {
      var cell := (origin.matrixColumn, destination.matrixColumn);
      IntegerMatrix(columns, cells[cell := Get(cell.0, cell.1) + 1])
    }
  }

  /** The matrix columns of the zone ids, in their order. */
  function MatrixColumns(ids: seq<ZoneId>): (columns: seq<int>)
    ensures |columns| == |ids|
    ensures forall i :: 0 <= i < |ids| ==> columns[i] == ids[i].matrixColumn
  {
    seq(|ids|, i requires 0 <= i < |ids| => ids[i].matrixColumn)
  }

  /** The matrix after one notification: a trip ended at an activity counts
      for its origin and destination zones, nothing else changes it. */
  function Apply<S>(m: IntegerMatrix, n: Notification<S>): IntegerMatrix {
    if n.EndTripAtActivity? then m.Increment(n.finishedTrip.Origin().zone.id, n.finishedTrip.Destination().zone.id)
    else m
  }

  function Replay<S>(m: IntegerMatrix, ns: seq<Notification<S>>): IntegerMatrix
    decreases |ns|
  {
    if |ns| == 0 then m else Replay(Apply(m, ns[0]), ns[1..])
  }

  /** Whether a notification reports a trip ended between two matrix columns. */
  predicate IsTripBetween<S>(n: Notification<S>, origin: int, destination: int) {
    n.EndTripAtActivity? &&
    n.finishedTrip.Origin().zone.id.matrixColumn == origin &&
    n.finishedTrip.Destination().zone.id.matrixColumn == destination
  }

  /** The number of trips reported as ended between two matrix columns. */
  function TripCount<S>(ns: seq<Notification<S>>, origin: int, destination: int): nat {
    if |ns| == 0 then 0
    else (if IsTripBetween(ns[0], origin, destination) then 1 else 0) + TripCount(ns[1..], origin, destination)
  }

  /** After any sequence of notifications each cell has grown by the number of
      trips reported between its zones. */
  lemma {:induction false} ReplayCountsTrips<S>(m: IntegerMatrix, ns: seq<Notification<S>>, origin: int, destination: int)
    ensures Replay(m, ns).Get(origin, destination) == m.Get(origin, destination) + TripCount(ns, origin, destination)
    ensures Replay(m, ns).columns == m.columns
    decreases |ns|
  {
    if |ns| > 0 {
      ReplayCountsTrips(Apply(m, ns[0]), ns[1..], origin, destination);
    }
  }

  class AggregateDemand {
    var matrix: IntegerMatrix
    /** The matrices handed to the writer, in order. */
    var written: seq<IntegerMatrix>

    /** An empty matrix over the matrix columns of the given zones. */
    constructor (ids: seq<ZoneId>)
      ensures matrix.columns == MatrixColumns(ids)
      ensures forall o, d :: matrix.Get(o, d) == 0
      ensures written == []
    {
      matrix := IntegerMatrix(MatrixColumns(ids), map[]);
      written := [];
    }

    method NotifyEndTrip(personOid: int, trip: FinishedTrip, activity: nat)
      modifies this
      ensures matrix == old(matrix).Increment(trip.Origin().zone.id, trip.Destination().zone.id)
      ensures written == old(written)
    {
      matrix := matrix.Increment(trip.Origin().zone.id, trip.Destination().zone.id);
    }

    method NotifyFinishSimulation()
      modifies this
      ensures matrix == old(matrix)
      ensures written == old(written) + [matrix]
    {
      written := written + [matrix];
    }

    /** Every listener notification: the two above, all others ignored. */
    method Notify<S>(n: Notification<S>)
      modifies this
      ensures matrix == Apply(old(matrix), n)
      ensures written == old(written) + if n.FinishSimulation? then [matrix] else []
    {
      match n {
        case EndTripAtActivity(personOid, trip, activity) =>
          NotifyEndTrip(personOid, trip, activity);
        case FinishSimulation =>
          NotifyFinishSimulation();
        case _ =>
      }
    }
  }
}

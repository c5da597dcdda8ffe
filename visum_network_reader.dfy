/** The decision rules of the VISUM network reader: the walk speed of a
    transport-system row, the direction code of a line route, and attaching
    the turns read for each node to that node.

    The netfile language that resolves attribute names and the speed parser
    are not part of this model: the two resolved attribute names and the
    parser are parameters. */
module VisumNetworkReaders {
  import opened Rows
  import opened Collections

  /** The walk speed of a transport-system row. When the public-transport and
      the individual walk speed are both given they must agree, otherwise the
      speed is 0; a single given speed is used as it is; with neither the
      speed is 0. */
  function WalkSpeed(row: Row, publicWalkSpeed: string, individualWalkSpeed: string, parseSpeed: string -> int): (speed: int)
    ensures row.ContainsAttribute(publicWalkSpeed) && row.ContainsAttribute(individualWalkSpeed) ==>
      speed == if parseSpeed(row.values[publicWalkSpeed]) == parseSpeed(row.values[individualWalkSpeed])
               then parseSpeed(row.values[publicWalkSpeed]) else 0
    ensures row.ContainsAttribute(publicWalkSpeed) && !row.ContainsAttribute(individualWalkSpeed) ==>
      speed == parseSpeed(row.values[publicWalkSpeed])
    ensures !row.ContainsAttribute(publicWalkSpeed) && row.ContainsAttribute(individualWalkSpeed) ==>
      speed == parseSpeed(row.values[individualWalkSpeed])
    ensures !row.ContainsAttribute(publicWalkSpeed) && !row.ContainsAttribute(individualWalkSpeed) ==> speed == 0
  {
    if row.ContainsAttribute(publicWalkSpeed) then
      var publicTransport := parseSpeed(row.Get(publicWalkSpeed).value);
      if row.ContainsAttribute(individualWalkSpeed) then
        var individualTransport := parseSpeed(row.Get(individualWalkSpeed).value);
        if publicTransport == individualTransport then publicTransport else 0
      else publicTransport
    else if row.ContainsAttribute(individualWalkSpeed) then
      parseSpeed(row.Get(individualWalkSpeed).value)
    else 0
  }

  /** Neither attribute takes precedence: exchanging the two attribute names
      gives the same walk speed. */
  lemma WalkSpeedSymmetric(row: Row, publicWalkSpeed: string, individualWalkSpeed: string, parseSpeed: string -> int)
    ensures WalkSpeed(row, publicWalkSpeed, individualWalkSpeed, parseSpeed)
         == WalkSpeed(row, individualWalkSpeed, publicWalkSpeed, parseSpeed)
  {
  }

  /** A row built from the attribute names and values of the walk speeds
      reports the parsed speed whenever both speeds parse alike. */
  lemma WalkSpeedOfRow(speedText: string, otherText: string, publicWalkSpeed: string, individualWalkSpeed: string, parseSpeed: string -> int)
    requires publicWalkSpeed != individualWalkSpeed
    requires parseSpeed(speedText) == parseSpeed(otherText)
    ensures WalkSpeed(Row(map[publicWalkSpeed := speedText, individualWalkSpeed := otherText]),
                      publicWalkSpeed, individualWalkSpeed, parseSpeed) == parseSpeed(speedText)
    ensures WalkSpeed(Row(map[individualWalkSpeed := otherText]), publicWalkSpeed, individualWalkSpeed, parseSpeed)
         == parseSpeed(speedText)
  {
  }

  datatype LineRouteDirection = H | R

  predicate IsInDirection(lineRouteDirection: string) {
    "H" == lineRouteDirection || ">" == lineRouteDirection
  }

  /** "H" and ">" are the outbound direction, every other code the return. */
  function Direction(lineRouteDirection: string): (d: LineRouteDirection)
    ensures d == H <==> lineRouteDirection in {"H", ">"}
    ensures d == R <==> lineRouteDirection !in {"H", ">"}
  {
    if IsInDirection(lineRouteDirection) then H else R
  }

  /** The name of a direction's enum constant; decoding it gives the direction. */
  function DirectionCode(d: LineRouteDirection): string {
    match d
    case H => "H"
    case R => "R"
  }

  lemma DirectionRoundTrip(d: LineRouteDirection)
    ensures Direction(DirectionCode(d)) == d
  {
  }

  class VisumNode<T> {
    var turns: seq<T>

    constructor (turns: seq<T>)
      ensures this.turns == turns
    {
      this.turns := turns;
    }

    method SetTurns(turns: seq<T>)
      modifies this
      ensures this.turns == turns
    {
      this.turns := turns;
    }
  }

  /** Distinct ids stand for distinct node objects. */
  predicate DistinctNodes<T>(nodes: map<int, VisumNode<T>>) {
    forall a, b :: a in nodes && b in nodes && a != b ==> nodes[a] != nodes[b]
  }

  function NodeSet<T>(nodes: map<int, VisumNode<T>>): set<VisumNode<T>> {
    set id | id in nodes :: nodes[id]
  }

  /** Every node with an entry in `data` gets exactly that turn list; every
      other node keeps its turns and is reported as having none. */
  method AssignTurnsToNodes<T>(nodes: map<int, VisumNode<T>>, data: map<int, seq<T>>) returns (withoutTurns: set<int>)
    requires DistinctNodes(nodes)
    modifies NodeSet(nodes)
    ensures forall id :: id in nodes ==> nodes[id].turns == if id in data then data[id] else old(nodes[id].turns)
    ensures withoutTurns == nodes.Keys - data.Keys
  {
    withoutTurns := {};
    var remaining := nodes.Keys;
    while remaining != {}
      invariant remaining <= nodes.Keys
      invariant withoutTurns == (nodes.Keys - remaining) - data.Keys
      invariant forall id :: id in nodes && id !in remaining ==>
        nodes[id].turns == if id in data then data[id] else old(nodes[id].turns)
      invariant forall id :: id in remaining ==> nodes[id].turns == old(nodes[id].turns)
      decreases remaining
    {
      NonEmptyHasElement(remaining);
      var nodeId :| nodeId in remaining;
      var node := nodes[nodeId];
      if nodeId in data {
        node.SetTurns(data[nodeId]);
      } else {
        withoutTurns := withoutTurns + {nodeId};
      }
      remaining := remaining - {nodeId};
    }
  }
}

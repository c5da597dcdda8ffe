/** A routing-graph node standing for a VISUM zone. A zone node is never a
    target of its own; it is a sink (route search does not pass through it)
    unless it was built for route search through external zones and the
    zone is external. */
module NodesFromVisumZones {
  import opened Wrappers
  import opened Decimal

  /** VISUM's zone type code of an external zone. */
  const ExternalZoneType: int := 5

  datatype VisumPoint = VisumPoint(x: real, y: real)

  datatype VisumZone = VisumZone(id: int, zoneType: int, coord: VisumPoint)

  /** `id` is the node id the generic node superclass keeps. */
  datatype NodeFromVisumZone = NodeFromVisumZone(id: string, visumZone: VisumZone, isSink: bool) {
    function Coord(): VisumPoint { visumZone.coord }

    /** Whether route search must not pass through the node: the flag given
        at construction. */
    function IsSink(): (sink: bool)
      ensures sink == isSink
    {
      isSink
    }

    /** A zone node is never a target. */
    function IsTarget(): (target: bool)
      ensures !target
    {
      false
    }
  }

  /** Only an external zone may be passed through by route search. */
  function IsBlockedInRouteSearch(zone: VisumZone): (blocked: bool)
    ensures !blocked <==> zone.zoneType == ExternalZoneType
  {
    ExternalZoneType != zone.zoneType
  }

  /** The private two-argument constructor. */
  function Make(zone: VisumZone, isSink: bool): (node: NodeFromVisumZone)
    ensures node.id == IntToString(zone.id)
    ensures node.visumZone == zone && node.IsSink() == isSink
  {
    NodeFromVisumZone(IntToString(zone.id), zone, isSink)
  }

  /** The public constructor: always a sink. */
  function New(zone: VisumZone): (node: NodeFromVisumZone)
    ensures node.IsSink() && !node.IsTarget()
    ensures node.visumZone == zone && node.Coord() == zone.coord
  {
    Make(zone, true)
  }

  /** A node that route search may pass through exactly when the zone is
      external. */
  function UseExternalInRouteSearch(zone: VisumZone): (node: NodeFromVisumZone)
    ensures node.IsSink() <==> zone.zoneType != ExternalZoneType
    ensures !node.IsTarget()
    ensures node.visumZone == zone && node.Coord() == zone.coord
  {
    Make(zone, IsBlockedInRouteSearch(zone))
  }

  /** The node id is the zone id's decimal text: it parses back to the zone
      id, so both constructors give the same id and distinct zones give
      distinct ids. */
  lemma NodeIdIsZoneId(zone: VisumZone, other: VisumZone)
    requires IsInt32(zone.id) && IsInt32(other.id)
    ensures ParseInt(New(zone).id) == Some(zone.id)
    ensures New(zone).id == UseExternalInRouteSearch(zone).id
    ensures New(zone).id == New(other).id <==> zone.id == other.id
  {
    ParseIntOfIntToString(zone.id);
    if New(zone).id == New(other).id {
      IntToStringInjective(zone.id, other.id);
    }
  }
}

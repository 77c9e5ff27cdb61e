/**
 * The legacy, OSRM-compatible serializer: renders a trip as the array-heavy
 * document with hint_data, route_name, via_indices, found_alternative,
 * route_summary, via_points, route_instructions, route_geometry, status_message
 * and status.
 */
module OsrmSerializers {
  import opened Wrappers
  import opened Json
  import opened Trip
  import Decimal

  /** The last element of a non-empty sequence. */
  function Last<T>(s: seq<T>): T
    requires |s| > 0
  {
    s[|s| - 1]
  }

  /** A maneuver's first street name, or "" when it has none. */
  function NameOrEmpty(m: Maneuver): string
  {
    match FirstStreetName(m)
    case Some(n) => n
    case None => ""
  }

  /** route_name: the first maneuver's first street name, then the last maneuver's, each only if present. */
  function RouteName(trip: TripDirections): (r: Value)
    ensures r.Arr? && |r.items| <= 2
    ensures |trip.maneuvers| == 0 ==> r.items == []
    ensures |trip.maneuvers| > 0 ==>
      |r.items| == (if |trip.maneuvers[0].streetNames| > 0 then 1 else 0)
                 + (if |Last(trip.maneuvers).streetNames| > 0 then 1 else 0)
    ensures |trip.maneuvers| > 0 && |trip.maneuvers[0].streetNames| > 0 ==>
      r.items[0] == Str(trip.maneuvers[0].streetNames[0])
    ensures |trip.maneuvers| > 0 && |Last(trip.maneuvers).streetNames| > 0 ==>
      r.items[|r.items| - 1] == Str(Last(trip.maneuvers).streetNames[0])
  {
    var ms := trip.maneuvers;
    if |ms| == 0 then Arr([])
    else
      var first := if |ms[0].streetNames| > 0 then [Str(ms[0].streetNames[0])] else [];
      var last := if |Last(ms).streetNames| > 0 then [Str(Last(ms).streetNames[0])] else [];
      Arr(first + last)
  }

  /** via_indices: empty without maneuvers, otherwise the indices of the first and the last maneuver. */
  function ViaIndices(trip: TripDirections): (r: Value)
    ensures r.Arr?
    ensures r.items == [] <==> |trip.maneuvers| == 0
    ensures r.items != [] ==>
      |r.items| == 2 && r.items[0] == UInt(0) && r.items[1].UInt?
      && r.items[1].n < |trip.maneuvers| && r.items[1].n + 1 == |trip.maneuvers|
  {
    if |trip.maneuvers| > 0 then Arr([UInt(0), UInt(|trip.maneuvers| - 1)]) else Arr([])
  }

  /** Sum of the maneuvers' lengths, each truncated to whole meters on its own. */
  function TotalMeters(ms: seq<Maneuver>): nat
  {
    if |ms| == 0 then 0 else TotalMeters(ms[..|ms| - 1]) + Meters(Last(ms).length)
  }

  /** Sum of the maneuvers' times in seconds. */
  function TotalSeconds(ms: seq<Maneuver>): nat
  {
    if |ms| == 0 then 0 else TotalSeconds(ms[..|ms| - 1]) + Last(ms).time
  }

  /** The route_summary object: end-point names when there are maneuvers, and the two totals. */
  function RouteSummaryObject(trip: TripDirections): Value
  {
    var ms := trip.maneuvers;
    var totals := map["total_time" := UInt(TotalSeconds(ms)), "total_distance" := UInt(TotalMeters(ms))];
    if |ms| == 0 then Obj(totals)
    else Obj(totals["start_point" := Str(NameOrEmpty(ms[0]))]["end_point" := Str(NameOrEmpty(Last(ms)))])
  }

  /** route_summary, accumulating the two totals over the maneuvers in one pass. */
  method RouteSummary(trip: TripDirections) returns (r: Value)
    ensures r == RouteSummaryObject(trip)
  {
    var ms := trip.maneuvers;
    var fields: map<string, Value> := map[];
    if |ms| > 0 {
      fields := fields["start_point" := Str(NameOrEmpty(ms[0]))];
      fields := fields["end_point" := Str(NameOrEmpty(ms[|ms| - 1]))];
    }
    var seconds: nat, meters: nat := 0, 0;
    var i := 0;
    while i < |ms|
      invariant 0 <= i <= |ms|
      invariant meters == TotalMeters(ms[..i])
      invariant seconds == TotalSeconds(ms[..i])
    {
      assert ms[..i + 1][..i] == ms[..i];
      meters := meters + Meters(ms[i].length);
      seconds := seconds + ms[i].time;
      i := i + 1;
    }
    assert ms[..i] == ms;
    fields := fields["total_time" := UInt(seconds)];
    fields := fields["total_distance" := UInt(meters)];
    r := Obj(fields);
  }

  /** A location as a [lat, lng] pair at six decimal places. */
  function ViaPoint(loc: Location): Value
  {
    Arr([Fp(loc.ll.lat, 6), Fp(loc.ll.lng, 6)])
  }

  /** via_points: one coordinate pair per location, in order. */
  method ViaPoints(trip: TripDirections) returns (r: Value)
    ensures r.Arr? && |r.items| == |trip.locations|
    ensures forall k :: 0 <= k < |trip.locations| ==> r.items[k] == ViaPoint(trip.locations[k])
  {
    var locs := trip.locations;
    var points: seq<Value> := [];
    var i := 0;
    while i < |locs|
      invariant 0 <= i <= |locs|
      invariant |points| == i
      invariant forall k :: 0 <= k < i ==> points[k] == ViaPoint(locs[k])
    {
      points := points + [ViaPoint(locs[i])];
      i := i + 1;
    }
    r := Arr(points);
  }

  /** The OSRM instruction code of each enumerator of the maneuver type enumeration. */
  function OsrmCode(t: ManeuverType): (code: string)
    ensures code in {"0", "1", "2", "3", "4", "5", "6", "7", "8", "11", "12", "14", "15"}
  {
    match t
    case NoneType => "0"
    case Continue | Becomes | RampStraight | StayStraight | Merge | FerryEnter | FerryExit => "1"
    case SlightRight => "2"
    case Right | RampRight | ExitRight | StayRight => "3"
    case SharpRight => "4"
    case UturnLeft | UturnRight => "5"
    case SharpLeft => "6"
    case Left | RampLeft | ExitLeft | StayLeft => "7"
    case SlightLeft => "8"
    case RoundaboutEnter => "11"
    case RoundaboutExit => "12"
    case Start | StartRight | StartLeft => "14"
    case Destination | DestinationRight | DestinationLeft => "15"
  }

  /** The table lookup by raw type number: a miss for every number that is not an enumerator. */
  function ManeuverCode(typeNumber: nat): (r: Option<string>)
    ensures r.Some? <==> typeNumber < TypeCount
    ensures r.Some? ==> r.value == OsrmCode(TypeOfNumber(typeNumber).value)
  {
    match TypeOfNumber(typeNumber)
    case Some(t) => Some(OsrmCode(t))
    case None => None
  }

  predicate HasOsrmCode(m: Maneuver)
  {
    ManeuverCode(m.maneuverType).Some?
  }

  /** The compass abbreviation of each heading octant. */
  function Compass(d: CardinalDirection): (s: string)
    ensures s in {"N", "NE", "E", "SE", "S", "SW", "W", "NW"}
  {
    match d
    case North => "N"
    case NorthEast => "NE"
    case East => "E"
    case SouthEast => "SE"
    case South => "S"
    case SouthWest => "SW"
    case West => "W"
    case NorthWest => "NW"
  }

  /** Meters as text with the unit suffix, e.g. "633m". */
  function LengthText(meters: nat): string
  {
    Decimal.NatToString(meters) + "m"
  }

  /** The 8-element instruction tuple of one maneuver whose type has the given code. */
  function Instruction(code: string, m: Maneuver): Value
  {
    Arr([
      Str(code),
      Str(NameOrEmpty(m)),
      UInt(Meters(m.length)),
      UInt(m.beginShapeIndex),
      UInt(m.time),
      Str(LengthText(Meters(m.length))),
      Str(Compass(m.beginCardinalDirection)),
      UInt(m.beginHeading)])
  }

  /** The instructions of the maneuvers in order, skipping those whose type has no code. */
  function Instructions(ms: seq<Maneuver>): seq<Value>
  {
    if |ms| == 0 then []
    else
      var rest := Instructions(ms[..|ms| - 1]);
      match ManeuverCode(Last(ms).maneuverType)
      case None => rest
      case Some(code) => rest + [Instruction(code, Last(ms))]
  }

  /** route_instructions, built by one pass that skips maneuvers the code table does not know. */
  method RouteInstructions(trip: TripDirections) returns (r: Value)
    ensures r == Arr(Instructions(trip.maneuvers))
  {
    var ms := trip.maneuvers;
    var items: seq<Value> := [];
    var i := 0;
    while i < |ms|
      invariant 0 <= i <= |ms|
      invariant items == Instructions(ms[..i])
    {
      assert ms[..i + 1][..i] == ms[..i];
      var code := ManeuverCode(ms[i].maneuverType);
      if code.Some? {
        var meters := Meters(ms[i].length);
        var length := LengthText(meters);
        items := items + [Arr([
          Str(code.value),
          Str(if |ms[i].streetNames| > 0 then ms[i].streetNames[0] else ""),
          UInt(meters),
          UInt(ms[i].beginShapeIndex),
          UInt(ms[i].time),
          Str(length),
          Str(Compass(ms[i].beginCardinalDirection)),
          UInt(ms[i].beginHeading)])];
      }
      i := i + 1;
    }
    assert ms[..i] == ms;
    r := Arr(items);
  }

  /** The whole legacy document for a trip. */
  function LegacyDocument(trip: TripDirections): Value
  {
    Obj(map[
      "hint_data" := Obj(map["locations" := Arr([Str(""), Str("")]), "checksum" := UInt(0)]),
      "route_name" := RouteName(trip),
      "via_indices" := ViaIndices(trip),
      "found_alternative" := Bool(false),
      "route_summary" := RouteSummaryObject(trip),
      "via_points" := Arr(seq(|trip.locations|, k requires 0 <= k < |trip.locations| => ViaPoint(trip.locations[k]))),
      "route_instructions" := Arr(Instructions(trip.maneuvers)),
      "route_geometry" := Str(trip.shape),
      "status_message" := Str("Found route between points"),
      "status" := UInt(0)])
  }

  /** Builds the legacy document and writes its text to the end of `stream`. */
  method Serialize(options: DirectionsOptions, trip: TripDirections, render: Value -> string, stream: string)
    returns (out: string)
    ensures out == stream + render(LegacyDocument(trip))
  {
    var routeSummary := RouteSummary(trip);
    var viaPoints := ViaPoints(trip);
    var routeInstructions := RouteInstructions(trip);
    assert viaPoints.items == seq(|trip.locations|, k requires 0 <= k < |trip.locations| => ViaPoint(trip.locations[k]));
    var json := Obj(map[
      "hint_data" := Obj(map["locations" := Arr([Str(""), Str("")]), "checksum" := UInt(0)]),
      "route_name" := RouteName(trip),
      "via_indices" := ViaIndices(trip),
      "found_alternative" := Bool(false),
      "route_summary" := routeSummary,
      "via_points" := viaPoints,
      "route_instructions" := routeInstructions,
      "route_geometry" := Str(trip.shape),
      "status_message" := Str("Found route between points"),
      "status" := UInt(0)]);
    out := stream + render(json);
  }
}

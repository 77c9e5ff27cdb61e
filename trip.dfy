/**
 * The decoded trip handed to the serializers: locations, maneuvers, a summary and
 * the encoded shape, plus the caller's directions options. Floating-point fields
 * are modelled as reals.
 */
module Trip {
  import opened Wrappers

  /**
   * The enumerators of the maneuver type enumeration, in their numeric order.
   * A maneuver stores the enumeration's raw number; see TypeOfNumber.
   */
  datatype ManeuverType =
    | NoneType | Start | StartRight | StartLeft
    | Destination | DestinationRight | DestinationLeft
    | Becomes | Continue
    | SlightRight | Right | SharpRight | UturnRight | UturnLeft | SharpLeft | Left | SlightLeft
    | RampStraight | RampRight | RampLeft | ExitRight | ExitLeft
    | StayStraight | StayRight | StayLeft | Merge
    | RoundaboutEnter | RoundaboutExit | FerryEnter | FerryExit

  /** Number of enumerators listed above. */
  const TypeCount: nat := 30

  function TypeNumber(t: ManeuverType): (n: nat)
    ensures n < TypeCount
  {
    match t
    case NoneType => 0
    case Start => 1
    case StartRight => 2
    case StartLeft => 3
    case Destination => 4
    case DestinationRight => 5
    case DestinationLeft => 6
    case Becomes => 7
    case Continue => 8
    case SlightRight => 9
    case Right => 10
    case SharpRight => 11
    case UturnRight => 12
    case UturnLeft => 13
    case SharpLeft => 14
    case Left => 15
    case SlightLeft => 16
    case RampStraight => 17
    case RampRight => 18
    case RampLeft => 19
    case ExitRight => 20
    case ExitLeft => 21
    case StayStraight => 22
    case StayRight => 23
    case StayLeft => 24
    case Merge => 25
    case RoundaboutEnter => 26
    case RoundaboutExit => 27
    case FerryEnter => 28
    case FerryExit => 29
  }

  /** The enumerator with number `n`, or None for a number that names none of them. */
  function TypeOfNumber(n: nat): (r: Option<ManeuverType>)
    ensures r.Some? <==> n < TypeCount
    ensures r.Some? ==> TypeNumber(r.value) == n
  {
    match n
    case 0 => Some(NoneType)
    case 1 => Some(Start)
    case 2 => Some(StartRight)
    case 3 => Some(StartLeft)
    case 4 => Some(Destination)
    case 5 => Some(DestinationRight)
    case 6 => Some(DestinationLeft)
    case 7 => Some(Becomes)
    case 8 => Some(Continue)
    case 9 => Some(SlightRight)
    case 10 => Some(Right)
    case 11 => Some(SharpRight)
    case 12 => Some(UturnRight)
    case 13 => Some(UturnLeft)
    case 14 => Some(SharpLeft)
    case 15 => Some(Left)
    case 16 => Some(SlightLeft)
    case 17 => Some(RampStraight)
    case 18 => Some(RampRight)
    case 19 => Some(RampLeft)
    case 20 => Some(ExitRight)
    case 21 => Some(ExitLeft)
    case 22 => Some(StayStraight)
    case 23 => Some(StayRight)
    case 24 => Some(StayLeft)
    case 25 => Some(Merge)
    case 26 => Some(RoundaboutEnter)
    case 27 => Some(RoundaboutExit)
    case 28 => Some(FerryEnter)
    case 29 => Some(FerryExit)
    case _ => None
  }

  /** Every enumerator is recovered from its number, so the numbering is one-to-one. */
  lemma TypeNumberRoundTrip(t: ManeuverType)
    ensures TypeOfNumber(TypeNumber(t)) == Some(t)
  {
  }

  /** The eight heading octants a maneuver can begin in. */
  datatype CardinalDirection =
    North | NorthEast | East | SouthEast | South | SouthWest | West | NorthWest

  datatype StopType = Break | Through

  datatype LatLng = LatLng(lat: real, lng: real)

  /** A location of the trip; empty strings and an absent heading mean "not set". */
  datatype Location = Location(
    ll: LatLng,
    stopType: StopType,
    name: string,
    street: string,
    city: string,
    state: string,
    postalCode: string,
    country: string,
    heading: Option<nat>,
    dateTime: string)

  datatype Maneuver = Maneuver(
    maneuverType: nat,
    textInstruction: string,
    streetNames: seq<string>,
    length: real,
    time: nat,
    beginCardinalDirection: CardinalDirection,
    beginHeading: nat,
    beginShapeIndex: nat,
    endShapeIndex: nat,
    portionsToll: bool,
    portionsUnpaved: bool)

  /** Trip totals: length in kilometers, time in seconds. */
  datatype Summary = Summary(length: real, time: nat)

  datatype TripDirections = TripDirections(
    locations: seq<Location>,
    maneuvers: seq<Maneuver>,
    summary: Summary,
    shape: string)

  datatype Units = Kilometers | Miles

  datatype DirectionsOptions = DirectionsOptions(units: Units)

  /** Options of a request that does not supply any. */
  const DefaultOptions := DirectionsOptions(Kilometers)

  /**
   * A length in kilometers as whole meters: `length * 1000` truncated toward zero.
   * A negative product, which has no unsigned value, is taken as 0.
   */
  function Meters(length: real): (m: nat)
    ensures length * 1000.0 >= 0.0 ==> m as real <= length * 1000.0 < m as real + 1.0
    ensures length * 1000.0 < 0.0 ==> m == 0
  {
    var x := length * 1000.0;
    if x < 0.0 then 0 else x.Floor
  }

  /** The first street name of a maneuver, if it has one. */
  function FirstStreetName(m: Maneuver): (r: Option<string>)
    ensures r.Some? <==> |m.streetNames| > 0
    ensures r.Some? ==> r.value == m.streetNames[0]
  {
    if |m.streetNames| > 0 then Some(m.streetNames[0]) else None
  }
}

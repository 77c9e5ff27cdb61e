/**
 * The native serializer: renders a trip as {"trip": {...}} with sparse location
 * objects, a summary, exactly one leg holding every maneuver, and the units name.
 */
module ValhallaSerializers {
  import opened Wrappers
  import opened Json
  import opened Trip

  /** The trip summary: time in seconds, length in kilometers at three decimal places. */
  function SummaryJson(trip: TripDirections): (r: Value)
    ensures r.Obj? && r.fields.Keys == {"time", "length"}
    ensures r.fields["time"] == UInt(trip.summary.time)
    ensures r.fields["length"] == Fp(trip.summary.length, 3)
  {
    Obj(map["time" := UInt(trip.summary.time), "length" := Fp(trip.summary.length, 3)])
  }

  /** Adds `key` with a string value only when the string is not empty. */
  function WithText(fields: map<string, Value>, key: string, text: string): map<string, Value>
  {
    if text != "" then fields[key := Str(text)] else fields
  }

  /** The keys every location object has: its stop type and its coordinates at six places. */
  function PlacedFields(loc: Location): map<string, Value>
  {
    map["type" := Str(if loc.stopType == Through then "through" else "break")]["lat" := Fp(loc.ll.lat, 6)]["lon" := Fp(loc.ll.lng, 6)]
  }

  /** Adds the name, street and city keys that are set. */
  function NamedFields(loc: Location): map<string, Value>
  {
    WithText(WithText(WithText(PlacedFields(loc), "name", loc.name), "street", loc.street), "city", loc.city)
  }

  /** Adds the state, postal_code and country keys that are set. */
  function AddressedFields(loc: Location): map<string, Value>
  {
    WithText(WithText(WithText(NamedFields(loc), "state", loc.state), "postal_code", loc.postalCode), "country", loc.country)
  }

  /** Adds the heading key when the location has a heading. */
  function HeadedFields(loc: Location): map<string, Value>
  {
    if loc.heading.Some? then AddressedFields(loc)["heading" := UInt(loc.heading.value)] else AddressedFields(loc)
  }

  /** The object of one location: type, lat and lon always; every other key only when set. */
  function LocationObject(loc: Location): Value
  {
    Obj(WithText(HeadedFields(loc), "date_time", loc.dateTime))
  }

  /** One location object per location, in order. */
  function LocationObjects(locs: seq<Location>): seq<Value>
  {
    seq(|locs|, k requires 0 <= k < |locs| => LocationObject(locs[k]))
  }

  /** locations: builds each location's object field by field, in trip order. */
  method Locations(trip: TripDirections) returns (r: Value)
    ensures r == Arr(LocationObjects(trip.locations))
  {
    var locs := trip.locations;
    var items: seq<Value> := [];
    var i := 0;
    while i < |locs|
      invariant 0 <= i <= |locs|
      invariant |items| == i
      invariant forall k :: 0 <= k < i ==> items[k] == LocationObject(locs[k])
    {
      var location := locs[i];
      var loc: map<string, Value>;
      if location.stopType == Through {
        loc := map["type" := Str("through")];
      } else {
        loc := map["type" := Str("break")];
      }
      loc := loc["lat" := Fp(location.ll.lat, 6)];
      loc := loc["lon" := Fp(location.ll.lng, 6)];
      loc := WithText(loc, "name", location.name);
      loc := WithText(loc, "street", location.street);
      loc := WithText(loc, "city", location.city);
      loc := WithText(loc, "state", location.state);
      loc := WithText(loc, "postal_code", location.postalCode);
      loc := WithText(loc, "country", location.country);
      if location.heading.Some? {
        loc := loc["heading" := UInt(location.heading.value)];
      }
      loc := WithText(loc, "date_time", location.dateTime);
      items := items + [Obj(loc)];
      i := i + 1;
    }
    assert items == LocationObjects(locs);
    r := Arr(items);
  }

  /** A maneuver's street names as JSON strings, in order. */
  function StreetNameValues(m: Maneuver): seq<Value>
  {
    seq(|m.streetNames|, k requires 0 <= k < |m.streetNames| => Str(m.streetNames[k]))
  }

  /** Copies every street name of a maneuver into an array, in order. */
  method StreetNames(m: Maneuver) returns (names: seq<Value>)
    ensures names == StreetNameValues(m)
  {
    names := [];
    var i := 0;
    while i < |m.streetNames|
      invariant 0 <= i <= |m.streetNames|
      invariant |names| == i
      invariant forall k :: 0 <= k < i ==> names[k] == Str(m.streetNames[k])
    {
      names := names + [Str(m.streetNames[i])];
      i := i + 1;
    }
  }

  /** The object of one maneuver: raw type number and all fields; street names, toll and rough only when present. */
  function ManeuverObject(m: Maneuver): (r: Value)
    ensures r.Obj?
    ensures "type" in r.fields && r.fields["type"] == UInt(m.maneuverType)
    ensures "instruction" in r.fields && r.fields["instruction"] == Str(m.textInstruction)
    ensures "time" in r.fields && r.fields["time"] == UInt(m.time)
    ensures "length" in r.fields && r.fields["length"] == Fp(m.length, 3)
    ensures "begin_shape_index" in r.fields && r.fields["begin_shape_index"] == UInt(m.beginShapeIndex)
    ensures "end_shape_index" in r.fields && r.fields["end_shape_index"] == UInt(m.endShapeIndex)
    ensures ("street_names" in r.fields <==> |m.streetNames| > 0)
      && ("street_names" in r.fields ==> r.fields["street_names"] == Arr(StreetNameValues(m)))
    ensures ("toll" in r.fields <==> m.portionsToll) && ("toll" in r.fields ==> r.fields["toll"] == Bool(true))
    ensures ("rough" in r.fields <==> m.portionsUnpaved) && ("rough" in r.fields ==> r.fields["rough"] == Bool(true))
    ensures r.fields.Keys <= {"type", "instruction", "street_names", "time", "length", "begin_shape_index",
                              "end_shape_index", "toll", "rough"}
  {
    var described := map["type" := UInt(m.maneuverType), "instruction" := Str(m.textInstruction)];
    var named := if |m.streetNames| > 0 then described["street_names" := Arr(StreetNameValues(m))] else described;
    var measured := named["time" := UInt(m.time)]["length" := Fp(m.length, 3)];
    var indexed := measured["begin_shape_index" := UInt(m.beginShapeIndex)]["end_shape_index" := UInt(m.endShapeIndex)];
    var tolled := if m.portionsToll then indexed["toll" := Bool(true)] else indexed;
    Obj(if m.portionsUnpaved then tolled["rough" := Bool(true)] else tolled)
  }

  /** One maneuver object per maneuver, in order, none left out. */
  function ManeuverObjects(ms: seq<Maneuver>): seq<Value>
  {
    seq(|ms|, k requires 0 <= k < |ms| => ManeuverObject(ms[k]))
  }

  /** The single leg: every maneuver, the trip summary and the shape. */
  function LegObject(trip: TripDirections): Value
  {
    Obj(map[
      "maneuvers" := Arr(ManeuverObjects(trip.maneuvers)),
      "summary" := SummaryJson(trip),
      "shape" := Str(trip.shape)])
  }

  /** legs: builds the one leg's maneuvers array maneuver by maneuver. */
  method Legs(trip: TripDirections) returns (r: Value)
    ensures r == Arr([LegObject(trip)])
  {
    var ms := trip.maneuvers;
    var maneuvers: seq<Value> := [];
    var i := 0;
    while i < |ms|
      invariant 0 <= i <= |ms|
      invariant |maneuvers| == i
      invariant forall k :: 0 <= k < i ==> maneuvers[k] == ManeuverObject(ms[k])
    {
      var maneuver := ms[i];
      var man: map<string, Value> := map[];
      man := man["type" := UInt(maneuver.maneuverType)];
      man := man["instruction" := Str(maneuver.textInstruction)];
      var streetNames := StreetNames(maneuver);
      if |streetNames| > 0 {
        man := man["street_names" := Arr(streetNames)];
      }
      man := man["time" := UInt(maneuver.time)];
      man := man["length" := Fp(maneuver.length, 3)];
      man := man["begin_shape_index" := UInt(maneuver.beginShapeIndex)];
      man := man["end_shape_index" := UInt(maneuver.endShapeIndex)];
      if maneuver.portionsToll {
        man := man["toll" := Bool(maneuver.portionsToll)];
      }
      if maneuver.portionsUnpaved {
        man := man["rough" := Bool(maneuver.portionsUnpaved)];
      }
      maneuvers := maneuvers + [Obj(man)];
      i := i + 1;
    }
    assert maneuvers == ManeuverObjects(ms);
    var summary := map["time" := UInt(trip.summary.time), "length" := Fp(trip.summary.length, 3)];
    var leg := map["maneuvers" := Arr(maneuvers), "summary" := Obj(summary), "shape" := Str(trip.shape)];
    r := Arr([Obj(leg)]);
  }

  /** The name of the units the caller asked for. */
  function UnitsName(units: Units): (name: string)
    ensures name == "kilometers" <==> units == Kilometers
    ensures units == Miles ==> name == "miles"
  {
    if units == Kilometers then "kilometers" else "miles"
  }

  /** The whole native document for a trip and the caller's options. */
  function NativeDocument(options: DirectionsOptions, trip: TripDirections): Value
  {
    Obj(map["trip" := Obj(map[
      "locations" := Arr(LocationObjects(trip.locations)),
      "summary" := SummaryJson(trip),
      "legs" := Arr([LegObject(trip)]),
      "status_message" := Str("Found route between points"),
      "status" := UInt(0),
      "units" := Str(UnitsName(options.units))])])
  }

  /** Builds the native document and writes its text to the end of `stream`. */
  method Serialize(options: DirectionsOptions, trip: TripDirections, render: Value -> string, stream: string)
    returns (out: string)
    ensures out == stream + render(NativeDocument(options, trip))
  {
    var locations := Locations(trip);
    var legs := Legs(trip);
    var json := Obj(map["trip" := Obj(map[
      "locations" := locations,
      "summary" := SummaryJson(trip),
      "legs" := legs,
      "status_message" := Str("Found route between points"),
      "status" := UInt(0),
      "units" := Str(if options.units == Kilometers then "kilometers" else "miles")])]);
    out := stream + render(json);
  }
}

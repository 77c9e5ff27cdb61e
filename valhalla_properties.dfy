/**
 * What the native document promises, proved about the functions that specify it,
 * and how it relates to the legacy document built from the same trip.
 */
module ValhallaProperties {
  import opened Wrappers
  import opened Json
  import opened Trip
  import opened ValhallaSerializers
  import OsrmSerializers
  import OsrmProperties

  /** WithText leaves every key other than its own as it was. */
  lemma WithTextKeeps(fields: map<string, Value>, key: string, text: string, k: string)
    requires k != key && k in fields
    ensures k in WithText(fields, key, text) && WithText(fields, key, text)[k] == fields[k]
  {
  }

  /** WithText on a fresh key adds it exactly when the text is non-empty. */
  lemma WithTextAdds(fields: map<string, Value>, key: string, text: string)
    requires key !in fields
    ensures key in WithText(fields, key, text) <==> text != ""
    ensures key in WithText(fields, key, text) ==> WithText(fields, key, text)[key] == Str(text)
  {
  }

  /** The keys a location object may have. */
  const LocationKeys: set<string> :=
    {"type", "lat", "lon", "name", "street", "city", "state", "postal_code", "country", "heading", "date_time"}

  /** A key already present at some stage of a location object keeps its value in the final object. */
  lemma KeptToTheEnd(loc: Location, k: string)
    ensures k in HeadedFields(loc) && k != "date_time" ==> k in LocationObject(loc).fields && LocationObject(loc).fields[k] == HeadedFields(loc)[k]
    ensures k in AddressedFields(loc) && k != "heading" && k != "date_time" ==> k in HeadedFields(loc) && HeadedFields(loc)[k] == AddressedFields(loc)[k]
  {
    if k in HeadedFields(loc) && k != "date_time" {
      WithTextKeeps(HeadedFields(loc), "date_time", loc.dateTime, k);
    }
  }

  /** The keys of each stage of a location object. */
  lemma StageKeys(loc: Location)
    ensures PlacedFields(loc).Keys == {"type", "lat", "lon"}
    ensures NamedFields(loc).Keys <= {"type", "lat", "lon", "name", "street", "city"}
    ensures AddressedFields(loc).Keys <= {"type", "lat", "lon", "name", "street", "city", "state", "postal_code", "country"}
    ensures HeadedFields(loc).Keys <= LocationKeys - {"date_time"}
    ensures LocationObject(loc).fields.Keys <= LocationKeys
  {
  }

  /** A location's type is "through" exactly for a through stop, and lat/lon are at six places. */
  lemma LocationTypeAndPosition(loc: Location)
    ensures var f := LocationObject(loc).fields;
      "type" in f && "lat" in f && "lon" in f
      && (f["type"] == Str("through") <==> loc.stopType == Through)
      && (loc.stopType == Break ==> f["type"] == Str("break"))
      && f["lat"] == Fp(loc.ll.lat, 6) && f["lon"] == Fp(loc.ll.lng, 6)
  {
    var p := PlacedFields(loc);
    var a1 := WithText(p, "name", loc.name);
    var a2 := WithText(a1, "street", loc.street);
    var b1 := WithText(NamedFields(loc), "state", loc.state);
    var b2 := WithText(b1, "postal_code", loc.postalCode);
    forall k | k in {"type", "lat", "lon"}
      ensures k in LocationObject(loc).fields && LocationObject(loc).fields[k] == p[k]
    {
      WithTextKeeps(p, "name", loc.name, k);
      WithTextKeeps(a1, "street", loc.street, k);
      WithTextKeeps(a2, "city", loc.city, k);
      WithTextKeeps(NamedFields(loc), "state", loc.state, k);
      WithTextKeeps(b1, "postal_code", loc.postalCode, k);
      WithTextKeeps(b2, "country", loc.country, k);
      KeptToTheEnd(loc, k);
    }
  }

  /** name, street and city appear exactly when set, with their text. */
  lemma LocationNameKeys(loc: Location)
    ensures var f := LocationObject(loc).fields;
      ("name" in f <==> loc.name != "") && ("name" in f ==> f["name"] == Str(loc.name))
      && ("street" in f <==> loc.street != "") && ("street" in f ==> f["street"] == Str(loc.street))
      && ("city" in f <==> loc.city != "") && ("city" in f ==> f["city"] == Str(loc.city))
  {
    var p := PlacedFields(loc);
    var a1 := WithText(p, "name", loc.name);
    var a2 := WithText(a1, "street", loc.street);
    WithTextAdds(p, "name", loc.name);
    WithTextAdds(a1, "street", loc.street);
    WithTextAdds(a2, "city", loc.city);
    if loc.name != "" {
      WithTextKeeps(a1, "street", loc.street, "name");
      WithTextKeeps(a2, "city", loc.city, "name");
    }
    if loc.street != "" {
      WithTextKeeps(a2, "city", loc.city, "street");
    }
    forall k | k in {"name", "street", "city"}
      ensures k in LocationObject(loc).fields <==> k in NamedFields(loc)
      ensures k in NamedFields(loc) ==> LocationObject(loc).fields[k] == NamedFields(loc)[k]
    {
      var b1 := WithText(NamedFields(loc), "state", loc.state);
      var b2 := WithText(b1, "postal_code", loc.postalCode);
      if k in NamedFields(loc) {
        WithTextKeeps(NamedFields(loc), "state", loc.state, k);
        WithTextKeeps(b1, "postal_code", loc.postalCode, k);
        WithTextKeeps(b2, "country", loc.country, k);
        KeptToTheEnd(loc, k);
      } else {
        StageKeys(loc);
      }
    }
  }

  /** state, postal_code and country appear exactly when set, with their text. */
  lemma LocationAddressKeys(loc: Location)
    ensures var f := LocationObject(loc).fields;
      ("state" in f <==> loc.state != "") && ("state" in f ==> f["state"] == Str(loc.state))
      && ("postal_code" in f <==> loc.postalCode != "") && ("postal_code" in f ==> f["postal_code"] == Str(loc.postalCode))
      && ("country" in f <==> loc.country != "") && ("country" in f ==> f["country"] == Str(loc.country))
  {
    var n := NamedFields(loc);
    var b1 := WithText(n, "state", loc.state);
    var b2 := WithText(b1, "postal_code", loc.postalCode);
    StageKeys(loc);
    WithTextAdds(n, "state", loc.state);
    WithTextAdds(b1, "postal_code", loc.postalCode);
    WithTextAdds(b2, "country", loc.country);
    if loc.state != "" {
      WithTextKeeps(b1, "postal_code", loc.postalCode, "state");
      WithTextKeeps(b2, "country", loc.country, "state");
    }
    if loc.postalCode != "" {
      WithTextKeeps(b2, "country", loc.country, "postal_code");
    }
    forall k | k in {"state", "postal_code", "country"}
      ensures k in LocationObject(loc).fields <==> k in AddressedFields(loc)
      ensures k in AddressedFields(loc) ==> LocationObject(loc).fields[k] == AddressedFields(loc)[k]
    {
      KeptToTheEnd(loc, k);
    }
  }

  /** heading appears exactly when the location has one, date_time exactly when it is set. */
  lemma LocationHeadingAndTimeKeys(loc: Location)
    ensures var f := LocationObject(loc).fields;
      ("heading" in f <==> loc.heading.Some?) && ("heading" in f ==> f["heading"] == UInt(loc.heading.value))
      && ("date_time" in f <==> loc.dateTime != "") && ("date_time" in f ==> f["date_time"] == Str(loc.dateTime))
  {
    StageKeys(loc);
    WithTextAdds(HeadedFields(loc), "date_time", loc.dateTime);
    if loc.heading.Some? {
      KeptToTheEnd(loc, "heading");
    }
  }

  /** The native document's trip object, for a given options value and trip. */
  function TripObject(options: DirectionsOptions, trip: TripDirections): map<string, Value>
  {
    NativeDocument(options, trip).fields["trip"].fields
  }

  /**
   * Exactly one leg, holding one maneuver object per maneuver in order, each with
   * the maneuver's raw type number, whatever that number is.
   */
  lemma NativeKeepsEveryManeuver(options: DirectionsOptions, trip: TripDirections)
    ensures var legs := TripObject(options, trip)["legs"].items;
      |legs| == 1
      && |legs[0].fields["maneuvers"].items| == |trip.maneuvers|
      && forall k :: 0 <= k < |trip.maneuvers| ==>
        legs[0].fields["maneuvers"].items[k] == ManeuverObject(trip.maneuvers[k])
        && legs[0].fields["maneuvers"].items[k].fields["type"] == UInt(trip.maneuvers[k].maneuverType)
  {
  }

  /**
   * The native leg has one maneuver more than the legacy route_instructions for
   * every maneuver the legacy table has no code for, and each of those is still
   * present in the native leg with its raw type number.
   */
  lemma NativeKeepsWhatLegacyDrops(options: DirectionsOptions, trip: TripDirections)
    ensures var maneuvers := TripObject(options, trip)["legs"].items[0].fields["maneuvers"].items;
      |maneuvers| == |OsrmSerializers.Instructions(trip.maneuvers)| + |OsrmProperties.Dropped(trip.maneuvers)|
      && forall j :: 0 <= j < |trip.maneuvers| && !OsrmSerializers.HasOsrmCode(trip.maneuvers[j]) ==>
        trip.maneuvers[j].maneuverType >= TypeCount
        && maneuvers[j].fields["type"] == UInt(trip.maneuvers[j].maneuverType)
  {
    OsrmProperties.InstructionsPlusDropped(trip.maneuvers);
    NativeKeepsEveryManeuver(options, trip);
  }

  /** units is "kilometers" exactly when the options ask for kilometers, and "miles" otherwise. */
  lemma NativeUnits(options: DirectionsOptions, trip: TripDirections)
    ensures TripObject(options, trip)["units"] == Str("kilometers") <==> options.units == Kilometers
    ensures options.units != Kilometers ==> TripObject(options, trip)["units"] == Str("miles")
  {
  }

  /** The trip-level summary and the leg's summary are the same object, and the leg carries the shape. */
  lemma NativeSummaryAndShape(options: DirectionsOptions, trip: TripDirections)
    ensures var t := TripObject(options, trip);
      var leg := t["legs"].items[0].fields;
      t["summary"] == leg["summary"] && leg["shape"] == Str(trip.shape)
      && t["summary"].fields["time"] == UInt(trip.summary.time)
      && t["summary"].fields["length"] == Fp(trip.summary.length, 3)
  {
  }

  /** One location object per location, in order, each as LocationObject describes it. */
  lemma NativeLocations(options: DirectionsOptions, trip: TripDirections)
    ensures var locs := TripObject(options, trip)["locations"].items;
      |locs| == |trip.locations|
      && forall k :: 0 <= k < |trip.locations| ==> locs[k] == LocationObject(trip.locations[k])
  {
  }
}

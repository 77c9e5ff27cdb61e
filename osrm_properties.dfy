/**
 * What the legacy document promises, proved about the functions that specify it.
 */
module OsrmProperties {
  import opened Wrappers
  import opened Json
  import opened Trip
  import opened OsrmSerializers
  import Decimal

  /** Indices of the maneuvers whose type has a code, in increasing order. */
  function MappedPositions(ms: seq<Maneuver>): seq<nat>
  {
    if |ms| == 0 then []
    else if HasOsrmCode(Last(ms)) then MappedPositions(ms[..|ms| - 1]) + [|ms| - 1]
    else MappedPositions(ms[..|ms| - 1])
  }

  /** The maneuvers whose type has no code, in their original order. */
  function Dropped(ms: seq<Maneuver>): seq<Maneuver>
  {
    if |ms| == 0 then []
    else if HasOsrmCode(Last(ms)) then Dropped(ms[..|ms| - 1])
    else Dropped(ms[..|ms| - 1]) + [Last(ms)]
  }

  /**
   * route_instructions holds exactly one tuple per maneuver whose type has a code,
   * in maneuver order: the k-th tuple is that of the k-th such maneuver, and no
   * maneuver with a code is left out.
   */
  lemma {:induction false} InstructionsSelectMapped(ms: seq<Maneuver>)
    ensures |Instructions(ms)| == |MappedPositions(ms)|
    ensures forall k :: 0 <= k < |MappedPositions(ms)| ==>
      var j := MappedPositions(ms)[k];
      j < |ms| && HasOsrmCode(ms[j])
      && Instructions(ms)[k] == Instruction(ManeuverCode(ms[j].maneuverType).value, ms[j])
    ensures forall a, b :: 0 <= a < b < |MappedPositions(ms)| ==> MappedPositions(ms)[a] < MappedPositions(ms)[b]
    ensures forall j :: 0 <= j < |ms| && HasOsrmCode(ms[j]) ==> j in MappedPositions(ms)
  {
    if |ms| > 0 {
      var p := ms[..|ms| - 1];
      InstructionsSelectMapped(p);
      forall j | 0 <= j < |p| ensures ms[j] == p[j] { }
    }
  }

  /** Building instructions commutes with concatenating maneuver lists. */
  lemma {:induction false} InstructionsAppend(a: seq<Maneuver>, b: seq<Maneuver>)
    ensures Instructions(a + b) == Instructions(a) + Instructions(b)
    decreases |b|
  {
    if |b| == 0 {
      assert a + b == a;
    } else {
      var b' := b[..|b| - 1];
      assert (a + b)[..|a + b| - 1] == a + b';
      assert Last(a + b) == Last(b);
      InstructionsAppend(a, b');
    }
  }

  /** A maneuver whose type has no code is skipped without affecting the other instructions. */
  lemma UnmappedManeuverSkipped(a: seq<Maneuver>, m: Maneuver, b: seq<Maneuver>)
    requires !HasOsrmCode(m)
    ensures Instructions(a + [m] + b) == Instructions(a + b)
  {
    InstructionsAppend(a + [m], b);
    InstructionsAppend(a, [m]);
    InstructionsAppend(a, b);
    assert [m][..0] == [];
  }

  /** Every maneuver lands either in route_instructions or among the dropped ones. */
  lemma {:induction false} InstructionsPlusDropped(ms: seq<Maneuver>)
    ensures |Instructions(ms)| + |Dropped(ms)| == |ms|
    ensures forall k :: 0 <= k < |Dropped(ms)| ==> !HasOsrmCode(Dropped(ms)[k])
  {
    if |ms| > 0 {
      InstructionsPlusDropped(ms[..|ms| - 1]);
    }
  }

  /** The whole-number element at position i of an instruction tuple, 0 when there is none. */
  function ElementNat(v: Value, i: nat): nat
  {
    if v.Arr? && i < |v.items| && v.items[i].UInt? then v.items[i].n else 0
  }

  /** Sum of the meters (element 2) over a list of instruction tuples. */
  function InstructionMeters(items: seq<Value>): nat
  {
    if |items| == 0 then 0 else InstructionMeters(items[..|items| - 1]) + ElementNat(Last(items), 2)
  }

  /** Sum of the seconds (element 4) over a list of instruction tuples. */
  function InstructionSeconds(items: seq<Value>): nat
  {
    if |items| == 0 then 0 else InstructionSeconds(items[..|items| - 1]) + ElementNat(Last(items), 4)
  }

  lemma InstructionSumsAppend(items: seq<Value>, x: Value)
    ensures InstructionMeters(items + [x]) == InstructionMeters(items) + ElementNat(x, 2)
    ensures InstructionSeconds(items + [x]) == InstructionSeconds(items) + ElementNat(x, 4)
  {
    assert (items + [x])[..|items|] == items;
  }

  lemma TotalsAppend(ms: seq<Maneuver>, m: Maneuver)
    ensures TotalMeters(ms + [m]) == TotalMeters(ms) + Meters(m.length)
    ensures TotalSeconds(ms + [m]) == TotalSeconds(ms) + m.time
  {
    assert (ms + [m])[..|ms|] == ms;
  }

  /**
   * total_distance and total_time cover every maneuver: what route_instructions
   * shows plus what the maneuvers it dropped contribute.
   */
  lemma {:induction false} TotalsCountDroppedManeuvers(ms: seq<Maneuver>)
    ensures TotalMeters(ms) == InstructionMeters(Instructions(ms)) + TotalMeters(Dropped(ms))
    ensures TotalSeconds(ms) == InstructionSeconds(Instructions(ms)) + TotalSeconds(Dropped(ms))
  {
    if |ms| > 0 {
      var p := ms[..|ms| - 1];
      var m := Last(ms);
      assert ms == p + [m];
      TotalsCountDroppedManeuvers(p);
      TotalsAppend(p, m);
      if HasOsrmCode(m) {
        var code := ManeuverCode(m.maneuverType).value;
        assert Instructions(ms) == Instructions(p) + [Instruction(code, m)];
        assert Dropped(ms) == Dropped(p);
        InstructionSumsAppend(Instructions(p), Instruction(code, m));
        assert ElementNat(Instruction(code, m), 2) == Meters(m.length);
        assert ElementNat(Instruction(code, m), 4) == m.time;
      } else {
        assert Instructions(ms) == Instructions(p);
        assert Dropped(ms) == Dropped(p) + [m];
        TotalsAppend(Dropped(p), m);
      }
    }
  }

  /** Sum of the maneuvers' lengths in kilometers, before any truncation. */
  function TotalLength(ms: seq<Maneuver>): real
  {
    if |ms| == 0 then 0.0 else TotalLength(ms[..|ms| - 1]) + Last(ms).length
  }

  lemma MetersSuperadditive(a: real, b: real)
    requires a >= 0.0 && b >= 0.0
    ensures Meters(a) + Meters(b) <= Meters(a + b)
  {
  }

  /**
   * Truncating each maneuver before summing never exceeds truncating the summed
   * length: total_distance can only lose meters to per-maneuver truncation.
   */
  lemma {:induction false} TruncateEachThenSum(ms: seq<Maneuver>)
    requires forall k :: 0 <= k < |ms| ==> ms[k].length >= 0.0
    ensures TotalLength(ms) >= 0.0
    ensures TotalMeters(ms) <= Meters(TotalLength(ms))
  {
    if |ms| > 0 {
      var p := ms[..|ms| - 1];
      TruncateEachThenSum(p);
      MetersSuperadditive(TotalLength(p), Last(ms).length);
    }
  }

  function Leg(length: real, time: nat): Maneuver
  {
    Maneuver(TypeNumber(Continue), "", [], length, time, North, 0, 0, 0, false, false)
  }

  /** Two half-meter maneuvers: each truncates to 0, though together they are a whole meter. */
  lemma TruncationOrderIsObservable()
    ensures TotalMeters([Leg(0.0005, 1), Leg(0.0005, 1)]) == 0
    ensures Meters(TotalLength([Leg(0.0005, 1), Leg(0.0005, 1)])) == 1
  {
    var ms := [Leg(0.0005, 1), Leg(0.0005, 1)];
    assert ms[..1][..0] == [];
  }

  /**
   * Each tuple has eight elements; element 5 is the text of element 2 followed by
   * "m" (reading its digits back gives element 2) and element 6 is the compass
   * abbreviation of the maneuver's octant.
   */
  lemma InstructionLengthText(code: string, m: Maneuver)
    ensures var t := Instruction(code, m);
      |t.items| == 8 && t.items[2] == UInt(Meters(m.length))
      && t.items[5].Str? && |t.items[5].s| >= 2 && t.items[5].s[|t.items[5].s| - 1] == 'm'
      && Decimal.ParseNat(t.items[5].s[..|t.items[5].s| - 1]) == Some(t.items[2].n)
      && t.items[6] == Str(Compass(m.beginCardinalDirection))
  {
    var text := LengthText(Meters(m.length));
    assert text[..|text| - 1] == Decimal.NatToString(Meters(m.length));
    Decimal.ParseNatToString(Meters(m.length));
  }

  /** The compass table maps the eight octants to eight different abbreviations. */
  lemma CompassOneToOne(a: CardinalDirection, b: CardinalDirection)
    requires Compass(a) == Compass(b)
    ensures a == b
  {
  }

  /** No maneuver type number is ever given the codes 9, 13, 16 or 17. */
  lemma CodesWithoutSourceKind(typeNumber: nat)
    ensures ManeuverCode(typeNumber) !in {Some("9"), Some("13"), Some("16"), Some("17")}
  {
  }

  /**
   * route_name agrees with route_summary: a name in route_name is the matching
   * end point, and an end point without a street name is "".
   */
  lemma RouteNameAgreesWithSummary(trip: TripDirections)
    ensures var s := RouteSummaryObject(trip).fields;
      var names := RouteName(trip).items;
      ("start_point" in s <==> |trip.maneuvers| > 0) && ("end_point" in s <==> |trip.maneuvers| > 0)
      && (|trip.maneuvers| > 0 ==>
        (if |trip.maneuvers[0].streetNames| > 0 then names[0] == s["start_point"] else s["start_point"] == Str(""))
        && (if |Last(trip.maneuvers).streetNames| > 0 then names[|names| - 1] == s["end_point"]
            else s["end_point"] == Str("")))
  {
  }

  /** route_name does not drop repeats: a single named maneuver gives its name twice. */
  lemma RouteNameKeepsRepeats(m: Maneuver, trip: TripDirections)
    requires trip.maneuvers == [m] && |m.streetNames| > 0
    ensures RouteName(trip).items == [Str(m.streetNames[0]), Str(m.streetNames[0])]
  {
  }

  /** The document has exactly the ten top-level keys of the legacy format. */
  lemma LegacyDocumentKeys(trip: TripDirections)
    ensures LegacyDocument(trip).fields.Keys ==
      {"hint_data", "route_name", "via_indices", "found_alternative", "route_summary",
       "via_points", "route_instructions", "route_geometry", "status_message", "status"}
  {
  }

  /** One coordinate pair per location, one instruction per maneuver that has a code, and the constants. */
  lemma LegacyDocumentContents(trip: TripDirections)
    ensures var d := LegacyDocument(trip).fields;
      "via_points" in d && "route_instructions" in d && "found_alternative" in d && "status" in d
      && d["found_alternative"] == Bool(false) && d["status"] == UInt(0)
      && |d["via_points"].items| == |trip.locations|
      && |d["route_instructions"].items| == |MappedPositions(trip.maneuvers)|
  {
    InstructionsSelectMapped(trip.maneuvers);
  }

  /**
   * A two-maneuver trip: a start on "Main St" of 0.633 km and 41 s, then an
   * arrival with no street name.
   */
  lemma MainStreetScenario(trip: TripDirections)
    requires |trip.maneuvers| == 2
    requires trip.maneuvers[0] == Maneuver(TypeNumber(Start), "", ["Main St"], 0.633, 41, West, 270, 0, 7, false, false)
    requires trip.maneuvers[1] == Maneuver(TypeNumber(Destination), "", [], 0.0, 0, North, 0, 7, 7, false, false)
    ensures RouteName(trip).items == [Str("Main St")]
    ensures |Instructions(trip.maneuvers)| == 2
    ensures Instructions(trip.maneuvers)[1].items[1] == Str("")
    ensures RouteSummaryObject(trip).fields["total_distance"] == UInt(633)
    ensures RouteSummaryObject(trip).fields["total_time"] == UInt(41)
  {
    var ms := trip.maneuvers;
    assert ms[..1] == [ms[0]];
    assert ms[..1][..0] == [];
    assert ManeuverCode(ms[0].maneuverType) == Some("14");
    assert ManeuverCode(ms[1].maneuverType) == Some("15");
    assert Instructions(ms[..1]) == [Instruction("14", ms[0])];
    assert Instructions(ms) == [Instruction("14", ms[0]), Instruction("15", ms[1])];
    assert Meters(0.633) == 633;
    assert Meters(0.0) == 0;
    assert TotalMeters(ms[..1]) == 633;
    assert TotalSeconds(ms[..1]) == 41;
  }
}

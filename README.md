# tyr response rendering, modelled in Dafny

This project models the output stage of the tyr routing service (`src/tyr/service.cc`).
A decoded trip has locations, maneuvers, a summary and an encoded shape. The service turns
it into one of two JSON documents:

- the legacy, OSRM-compatible document (`osrm_serializers`), array-heavy, with a fixed
  table from maneuver type to OSRM instruction code and from heading octant to compass
  abbreviation;
- the native document (`valhalla_serializers`), object-heavy, with sparse location
  objects and exactly one leg holding every maneuver.

The worker (`tyr_worker_t::work`) decodes the two-part job and picks the document. It
wraps the body in a JSONP call when asked, and turns any `std::exception` into a 400 response.

Files and modules:

- `wrappers.dfy` (`Wrappers`): `Option`, and `Result` for steps that may raise an exception with a message.
- `json.dfy` (`Json`): the JSON value tree. Objects are maps, because the library's JSON object is an unordered map.
- `decimal.dfy` (`Decimal`): the decimal text of an unsigned integer, with a reader proved to invert it.
- `trip.dfy` (`Trip`): the trip, its locations and maneuvers, the options, the maneuver type enumeration and the meters truncation.
- `osrm.dfy` (`OsrmSerializers`): the legacy builders. The loops of `route_summary`, `via_points` and `route_instructions` are methods proved equal to specification functions.
- `osrm_properties.dfy` (`OsrmProperties`): lemmas about the legacy document.
- `valhalla.dfy` (`ValhallaSerializers`): the native builders. The loops of `locations`, `legs` and the street-name copy are methods.
- `valhalla_properties.dfy` (`ValhallaProperties`): lemmas about the native document, and how it relates to the legacy one.
- `service.dfy` (`Service`): the worker class, the response function it is proved against, and the JSONP wrapper.
- `service_properties.dfy` (`ServiceProperties`): lemmas about dispatch, wrapping and failures.

Foreign calls are fields of a `Library` value passed to `Work`:

- `readInfo` reads the control block and may fail.
- `getDirectionsOptions` reads the options subtree and may fail.
- `parseFromArray` decodes the trip payload. It always yields a trip, because its success flag is ignored.
- `render` writes a document as JSON text.

Floating-point fields are reals.

Three behaviours of the source that a reader might not expect:

- route_name (service.cc:66-77) pushes the first street name of the first maneuver and
  then of the last maneuver, each only when it exists. There is no de-duplication, and a
  maneuver without a name adds nothing (`RouteNameKeepsRepeats`).
- The result of `ParseFromArray` is ignored (service.cc:450), so the payload never decides
  the status (`PayloadNeverDecidesStatus`).
- The compass lookup (service.cc:186) dereferences `find(...)` without a check. The octant
  enumeration is closed and the table covers all eight octants, so the lookup always
  hits (`Compass`).

The maneuver type enumeration is defined in the trip schema, which is not part of this
model. Its thirty enumerators are numbered 0 to 29 in the order of `Trip.ManeuverType`.
This numbering agrees with the sample output in service.cc:268, 279 and 286: start is 1,
continue is 8 and destination is 4. Every enumerator has an entry in the code table. A
type number outside the enumeration has no entry. Such a maneuver is dropped from
`route_instructions` and kept, with its raw number, in the native leg. The OSRM codes 9,
13, 16 and 17 are never produced.

## Model

| member | source | states |
|---|---|---|
| `Trip.Meters` | src/tyr/service.cc:102 | a length in km becomes whole meters: the largest whole number not above `length*1000`; a negative product gives 0 |
| `Trip.TypeOfNumber` | src/tyr/service.cc:170 | a raw type number names an enumerator exactly when it is below 30, and that enumerator's number is the raw number |
| `Decimal.ParseNatToString` | src/tyr/service.cc:175-176 | the decimal text written for a meter count reads back as that count |
| `Decimal.NatToStringInjective` | src/tyr/service.cc:175-176 | different meter counts get different texts |
| `OsrmSerializers.RouteName` | src/tyr/service.cc:66-77 | route_name has at most two entries: the first maneuver's first street name if it has one, then the last maneuver's if it has one; empty without maneuvers |
| `OsrmSerializers.ViaIndices` | src/tyr/service.cc:79-86 | via_indices is empty exactly when there are no maneuvers, and otherwise is [0, n-1], both valid maneuver indices |
| `OsrmSerializers.RouteSummary` | src/tyr/service.cc:88-108 | the accumulating loop yields start_point/end_point (or "") only when there are maneuvers, total_time = sum of all times, total_distance = sum of each maneuver's truncated meters |
| `OsrmSerializers.ViaPoints` | src/tyr/service.cc:110-116 | one [lat, lng] pair at six places per location, in location order |
| `OsrmSerializers.OsrmCode` | src/tyr/service.cc:118-153 | every enumerator has a code, and every code is one of 0-8, 11, 12, 14, 15 |
| `OsrmSerializers.ManeuverCode` | src/tyr/service.cc:170-172 | the table lookup by raw number hits exactly for the 30 enumerators and then gives that enumerator's code |
| `OsrmSerializers.Compass` | src/tyr/service.cc:155-164 | each of the eight octants has an abbreviation among N, NE, E, SE, S, SW, W, NW |
| `OsrmSerializers.RouteInstructions` | src/tyr/service.cc:166-191 | the loop builds exactly the instructions of the maneuvers with a code, in order, skipping the others |
| `OsrmSerializers.Serialize` | src/tyr/service.cc:193-222 | appends the text of the legacy document (ten keys, built from the builders above) to the stream |
| `OsrmProperties.InstructionsSelectMapped` | src/tyr/service.cc:166-191 | route_instructions has one tuple per maneuver with a code, the k-th being the tuple of the k-th such maneuver in increasing maneuver order, none missing |
| `OsrmProperties.InstructionsAppend` | src/tyr/service.cc:168-189 | instructions of concatenated maneuver lists are the concatenated instructions |
| `OsrmProperties.UnmappedManeuverSkipped` | src/tyr/service.cc:169-172 | inserting a maneuver without a code anywhere leaves route_instructions unchanged |
| `OsrmProperties.InstructionsPlusDropped` | src/tyr/service.cc:168-172 | every maneuver is either an instruction or dropped, and every dropped one has no code |
| `OsrmProperties.TotalsCountDroppedManeuvers` | src/tyr/service.cc:100-106 | total_distance and total_time equal what the instructions show plus what the dropped maneuvers contribute |
| `OsrmProperties.TruncateEachThenSum` | src/tyr/service.cc:100-104 | with non-negative lengths, summing per-maneuver truncations never exceeds truncating the summed length |
| `OsrmProperties.TruncationOrderIsObservable` | src/tyr/service.cc:102 | two 0.5 m maneuvers give total_distance 0, though their summed length truncates to 1 m |
| `OsrmProperties.InstructionLengthText` | src/tyr/service.cc:174-187 | each tuple has 8 elements; element 5 is element 2's digits followed by "m" and reads back as element 2; element 6 is the octant's abbreviation |
| `OsrmProperties.CompassOneToOne` | src/tyr/service.cc:155-164 | different octants get different abbreviations |
| `OsrmProperties.CodesWithoutSourceKind` | src/tyr/service.cc:141-152 | no type number is ever given code 9, 13, 16 or 17 |
| `OsrmProperties.RouteNameAgreesWithSummary` | src/tyr/service.cc:66-99 | start_point/end_point exist exactly when there are maneuvers, equal route_name's entries when the names exist, and are "" otherwise |
| `OsrmProperties.RouteNameKeepsRepeats` | src/tyr/service.cc:68-74 | a single named maneuver puts its name in route_name twice |
| `OsrmProperties.LegacyDocumentKeys` | src/tyr/service.cc:201-218 | the legacy document has exactly its ten top-level keys |
| `OsrmProperties.LegacyDocumentContents` | src/tyr/service.cc:201-218 | found_alternative is false, status is 0, via_points has one entry per location and route_instructions one per maneuver with a code |
| `OsrmProperties.MainStreetScenario` | src/tyr/service.cc:66-191 | a "Main St" start of 0.633 km and 41 s, then an unnamed arrival, give route_name ["Main St"], two instructions whose second has street "", total_distance 633 and total_time 41 |
| `ValhallaSerializers.SummaryJson` | src/tyr/service.cc:299-307 | the summary has exactly time (seconds) and length (three places) |
| `ValhallaSerializers.Locations` | src/tyr/service.cc:309-345 | the loop builds one location object per location, in order |
| `ValhallaSerializers.StreetNames` | src/tyr/service.cc:365-368 | the loop copies every street name, in order |
| `ValhallaSerializers.ManeuverObject` | src/tyr/service.cc:358-388 | a maneuver object carries the raw type, instruction, time, length, shape indices; street_names only when there are names, toll and rough only when true |
| `ValhallaSerializers.Legs` | src/tyr/service.cc:348-399 | the loop builds the single leg: every maneuver's object in order, the summary and the shape |
| `ValhallaSerializers.UnitsName` | src/tyr/service.cc:417 | the units name is "kilometers" exactly for kilometers, "miles" otherwise |
| `ValhallaSerializers.Serialize` | src/tyr/service.cc:401-424 | appends the text of the native document to the stream |
| `ValhallaProperties.LocationTypeAndPosition` | src/tyr/service.cc:315-321 | type is "through" exactly for a through stop and "break" otherwise; lat and lon at six places |
| `ValhallaProperties.LocationNameKeys` | src/tyr/service.cc:322-327 | name, street and city keys appear exactly when non-empty, with their text |
| `ValhallaProperties.LocationAddressKeys` | src/tyr/service.cc:328-333 | state, postal_code and country keys appear exactly when non-empty, with their text |
| `ValhallaProperties.LocationHeadingAndTimeKeys` | src/tyr/service.cc:334-337 | heading appears exactly when set, date_time exactly when non-empty |
| `ValhallaProperties.StageKeys` | src/tyr/service.cc:313-341 | a location object has no keys besides type, lat, lon and the eight optional ones |
| `ValhallaProperties.NativeKeepsEveryManeuver` | src/tyr/service.cc:348-399 | exactly one leg, with one maneuver object per maneuver in order, each with the raw type number |
| `ValhallaProperties.NativeKeepsWhatLegacyDrops` | src/tyr/service.cc:356-388 | the native leg has as many maneuvers as legacy instructions plus dropped maneuvers, and each dropped one appears with its raw number of at least 30 |
| `ValhallaProperties.NativeUnits` | src/tyr/service.cc:417 | the document's units is "kilometers" exactly when the options say kilometers, else "miles" |
| `ValhallaProperties.NativeSummaryAndShape` | src/tyr/service.cc:392-395 | the leg repeats the trip summary and carries the shape |
| `ValhallaProperties.NativeLocations` | src/tyr/service.cc:309-345 | one location object per location, in order |
| `Service.GetOptional` | src/tyr/service.cc:454 | a key's value is present exactly when the control block has that key |
| `Service.GetChildOptional` | src/tyr/service.cc:444 | a subtree is present exactly when the control block has that key |
| `Service.Wrap` | src/tyr/service.cc:452-462 | with a jsonp name the body is name, "(", the body, ")"; without one it is unchanged |
| `Service.Handle` | src/tyr/service.cc:432-477 | status is 200 or 400; 400 exactly when a decode step fails, then with reason "Bad Request" and the message as body; 200 carries the JSON content type |
| `Service.TyrWorker.constructor` | src/tyr/service.cc:430-431 | the worker keeps the configuration it is given |
| `Service.TyrWorker.Work` | src/tyr/service.cc:432-477 | the step-by-step stream building gives exactly the response `Handle` describes |
| `ServiceProperties.SuccessSelectsSerializer` | src/tyr/service.cc:452-465 | on success the body is the legacy document exactly when the osrm key is present, the native document otherwise, wrapped when jsonp is given |
| `ServiceProperties.MissingOptionsMeanKilometers` | src/tyr/service.cc:443-446 | without a directions_options subtree the default options (kilometers) are used |
| `ServiceProperties.FailureIsBareMessage` | src/tyr/service.cc:470-476 | a failure gives 400 "Bad Request" with the message as the whole body, unwrapped even when jsonp was sent |
| `ServiceProperties.UnreadableControlBlock` | src/tyr/service.cc:435-476 | a control block that cannot be read fails the job with the reader's message |
| `ServiceProperties.PayloadNeverDecidesStatus` | src/tyr/service.cc:449-450 | two jobs with the same control block get the same status whatever their payloads |
| `ServiceProperties.JsonpExample` | src/tyr/service.cc:455-462 | name foo and body {"a":1} give foo({"a":1}) |
| `ServiceProperties.MilesScenario` | src/tyr/service.cc:444-460 | no osrm key and options asking for miles give a 200 native document whose units is "miles" |

## Left out

- `run_service` (service.cc:485-500) is not modelled. It only wires the ZeroMQ worker and runs its loop forever.
- The worker's configuration is stored but never read by `work`. The request info used by `from_info` and the `LOG_INFO` call are not modelled.
- `read_info`, `GetDirectionsOptions` and `ParseFromArray` are library code. Their behaviour is the caller-supplied `Library` functions.
- A property tree is modelled as a map of children. Boost property trees allow repeated keys, where a lookup finds the first; repeated keys are not modelled.
- JSON text and the decimal formatting of numbers at 6 or 3 places are not modelled. They are written by `render`, and `Fp(value, digits)` stays an opaque node.
- Key order inside a JSON object is not modelled, since the library's object is an unordered map.
- HTTP encoding of the response (`to_string`) is not modelled. A response is its status, reason, headers and body.
- Trip.Meters: float arithmetic is not modelled. Lengths are reals and `length * 1000.f` is computed exactly, so single-precision rounding is not captured: for 0.251 km the single-precision product is 250.99998, so the source gives 250 m where `Meters(0.251)` is 251.
- Trip.Meters: a negative product gives 0. Converting a float of -1 or less to an unsigned integer is undefined behaviour in the source.
- OsrmSerializers.RouteSummary: the 64-bit accumulators are unbounded naturals. Wrap-around would need more than 2^64 meters or seconds in one trip.
- `Result.Failure` stands only for exceptions derived from `std::exception`, the only kind the handler catches (service.cc:470). An exception of another type leaves `work` and is not modelled.
- The serializers are modelled as total. Exceptions they could raise (allocation failure) are not modelled, so the 400 path comes only from the two decode steps.
- The numbering of the maneuver type enumeration comes from the trip schema, which is not part of this model (see above).
- test/handlers.cc is not modelled. It builds routing tiles and drives a route handler that is not part of this model.

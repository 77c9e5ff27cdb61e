/**
 * The request envelope: decodes the two-part job, picks the legacy serializer when
 * the control block has an `osrm` key and the native one otherwise, wraps the body
 * in a JSONP call when a `jsonp` name is given, and turns any failure into a
 * 400 response whose body is the failure's message.
 */
module Service {
  import opened Wrappers
  import opened Json
  import opened Trip
  import OsrmSerializers
  import ValhallaSerializers

  type Bytes = seq<bv8>

  /** A property tree: a text value and named children. */
  datatype Ptree = Ptree(data: string, children: map<string, Ptree>)

  /** The text value of the child named `key`, if there is one. */
  function GetOptional(tree: Ptree, key: string): (r: Option<string>)
    ensures r.Some? <==> key in tree.children
    ensures r.Some? ==> r.value == tree.children[key].data
  {
    if key in tree.children then Some(tree.children[key].data) else None
  }

  /** The child named `key`, if there is one. */
  function GetChildOptional(tree: Ptree, key: string): (r: Option<Ptree>)
    ensures r.Some? <==> key in tree.children
    ensures r.Some? ==> r.value == tree.children[key]
  {
    if key in tree.children then Some(tree.children[key]) else None
  }

  /**
   * The library calls the worker relies on: reading the control block, reading the
   * options subtree (both may raise an exception with a message), decoding the
   * trip payload (whose success flag the worker ignores) and writing a document as
   * JSON text.
   */
  datatype Library = Library(
    readInfo: Bytes -> Result<Ptree>,
    getDirectionsOptions: Ptree -> Result<DirectionsOptions>,
    parseFromArray: Bytes -> TripDirections,
    render: Value -> string)

  datatype Response = Response(status: nat, reason: string, headers: map<string, string>, body: string)

  const JsonHeaders: map<string, string> := map["Content-type" := "application/json;charset=utf-8"]

  /** The response for a failure: status 400 and the failure's message as the whole body. */
  function BadRequest(message: string): Response
  {
    Response(400, "Bad Request", map[], message)
  }

  /** The control block and the options it selects, or the message of the step that failed. */
  function DecodeRequest(lib: Library, job: seq<Bytes>): Result<(Ptree, DirectionsOptions)>
    requires |job| > 0
  {
    match lib.readInfo(job[0])
    case Failure(e) => Failure(e)
    case Success(request) =>
      match GetChildOptional(request, "directions_options")
      case None => Success((request, DefaultOptions))
      case Some(subtree) =>
        match lib.getDirectionsOptions(subtree)
        case Failure(e) => Failure(e)
        case Success(options) => Success((request, options))
  }

  /** The document a decoded request asks for: legacy when the control block has an `osrm` key. */
  function Document(request: Ptree, options: DirectionsOptions, trip: TripDirections): Value
  {
    if GetOptional(request, "osrm").Some? then OsrmSerializers.LegacyDocument(trip)
    else ValhallaSerializers.NativeDocument(options, trip)
  }

  /** The body wrapped as a call of the JSONP function when one is named. */
  function Wrap(jsonp: Option<string>, body: string): (r: string)
    ensures jsonp.None? ==> r == body
    ensures jsonp.Some? ==>
      var n := |jsonp.value|;
      |r| == n + |body| + 2 && r[..n] == jsonp.value && r[n] == '(' && r[n + 1..|r| - 1] == body && r[|r| - 1] == ')'
  {
    match jsonp
    case None => body
    case Some(name) => name + "(" + body + ")"
  }

  /** The response the worker gives for a job. */
  function Handle(lib: Library, job: seq<Bytes>): (r: Response)
    requires |job| > 0
    ensures r.status == 200 || r.status == 400
    ensures r.status == 400 <==> DecodeRequest(lib, job).Failure?
    ensures r.status == 400 ==> r == BadRequest(DecodeRequest(lib, job).message)
    ensures r.status == 200 ==> r.reason == "OK" && r.headers == JsonHeaders
  {
    match DecodeRequest(lib, job)
    case Failure(e) => BadRequest(e)
    case Success((request, options)) =>
      var trip := lib.parseFromArray(job[|job| - 1]);
      Response(200, "OK", JsonHeaders,
        Wrap(GetOptional(request, "jsonp"), lib.render(Document(request, options, trip))))
  }

  /** The worker; its configuration is kept but not consulted when serving a job. */
  class TyrWorker {
    const config: Ptree

    constructor(config: Ptree)
      ensures this.config == config
    {
      this.config := config;
    }

    /** Serves one job: the control block first, the trip payload last. */
    method Work(job: seq<Bytes>, lib: Library) returns (result: Response)
      requires |job| > 0
      ensures result == Handle(lib, job)
    {
      var parsed := lib.readInfo(job[0]);
      if parsed.Failure? {
        result := BadRequest(parsed.message);
        return;
      }
      var request := parsed.value;

      var directionsOptions := DefaultOptions;
      var options := GetChildOptional(request, "directions_options");
      if options.Some? {
        var decoded := lib.getDirectionsOptions(options.value);
        if decoded.Failure? {
          result := BadRequest(decoded.message);
          return;
        }
        directionsOptions := decoded.value;
      }

      var tripDirections := lib.parseFromArray(job[|job| - 1]);

      var jsonStream := "";
      var jsonp := GetOptional(request, "jsonp");
      if jsonp.Some? {
        jsonStream := jsonStream + jsonp.value + "(";
      }
      if GetOptional(request, "osrm").Some? {
        jsonStream := OsrmSerializers.Serialize(directionsOptions, tripDirections, lib.render, jsonStream);
      } else {
        jsonStream := ValhallaSerializers.Serialize(directionsOptions, tripDirections, lib.render, jsonStream);
      }
      if jsonp.Some? {
        jsonStream := jsonStream + ")";
      }
      result := Response(200, "OK", JsonHeaders, jsonStream);
    }
  }
}

/**
 * What the request envelope promises: which serializer answers, how JSONP wraps
 * the body, and that every failure becomes a bare 400.
 */
module ServiceProperties {
  import opened Wrappers
  import opened Json
  import opened Trip
  import opened Service
  import OsrmSerializers
  import ValhallaSerializers

  /**
   * A job whose control block and options decode is answered with 200 and the
   * legacy document exactly when the control block has an `osrm` key, the native
   * document otherwise, wrapped when a `jsonp` name is given.
   */
  lemma SuccessSelectsSerializer(lib: Library, job: seq<Bytes>)
    requires |job| > 0 && DecodeRequest(lib, job).Success?
    ensures var (request, options) := DecodeRequest(lib, job).value;
      var trip := lib.parseFromArray(job[|job| - 1]);
      var r := Handle(lib, job);
      r.status == 200
      && ("osrm" in request.children ==>
            r.body == Wrap(GetOptional(request, "jsonp"), lib.render(OsrmSerializers.LegacyDocument(trip))))
      && ("osrm" !in request.children ==>
            r.body == Wrap(GetOptional(request, "jsonp"), lib.render(ValhallaSerializers.NativeDocument(options, trip))))
  {
  }

  /** Without a directions_options subtree the options are the defaults, so units are kilometers. */
  lemma MissingOptionsMeanKilometers(lib: Library, job: seq<Bytes>)
    requires |job| > 0 && lib.readInfo(job[0]).Success?
    requires "directions_options" !in lib.readInfo(job[0]).value.children
    ensures DecodeRequest(lib, job) == Success((lib.readInfo(job[0]).value, DirectionsOptions(Kilometers)))
  {
  }

  /** A failure answers 400 with exactly the failure's message, even when a jsonp name was sent. */
  lemma FailureIsBareMessage(lib: Library, job: seq<Bytes>)
    requires |job| > 0 && DecodeRequest(lib, job).Failure?
    ensures Handle(lib, job).status == 400
    ensures Handle(lib, job).reason == "Bad Request"
    ensures Handle(lib, job).body == DecodeRequest(lib, job).message
  {
  }

  /** A control block that cannot be read fails the job with the reader's message. */
  lemma UnreadableControlBlock(lib: Library, job: seq<Bytes>)
    requires |job| > 0 && lib.readInfo(job[0]).Failure?
    ensures Handle(lib, job) == BadRequest(lib.readInfo(job[0]).message)
  {
  }

  /**
   * Whether a job fails depends only on its control block: the trip payload's
   * decoding status is ignored, so no payload alone turns a 200 into a 400.
   */
  lemma PayloadNeverDecidesStatus(lib: Library, job1: seq<Bytes>, job2: seq<Bytes>)
    requires |job1| > 0 && |job2| > 0 && job1[0] == job2[0]
    ensures Handle(lib, job1).status == Handle(lib, job2).status
  {
  }

  /** Callback "foo" around the body {"a":1} gives exactly foo({"a":1}). */
  lemma JsonpExample()
    ensures Wrap(Some("foo"), "{\"a\":1}") == "foo({\"a\":1})"
  {
  }

  /** Without an `osrm` key and with options asking for miles, the native document says "miles". */
  lemma MilesScenario(lib: Library, job: seq<Bytes>, request: Ptree)
    requires |job| > 0 && lib.readInfo(job[0]) == Success(request)
    requires "osrm" !in request.children && "jsonp" !in request.children
    requires "directions_options" in request.children
    requires lib.getDirectionsOptions(request.children["directions_options"]) == Success(DirectionsOptions(Miles))
    ensures var trip := lib.parseFromArray(job[|job| - 1]);
      var doc := ValhallaSerializers.NativeDocument(DirectionsOptions(Miles), trip);
      Handle(lib, job) == Response(200, "OK", JsonHeaders, lib.render(doc))
      && doc.fields["trip"].fields["units"] == Str("miles")
  {
  }
}

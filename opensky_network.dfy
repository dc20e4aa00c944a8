/** opensky_network_client/opensky_network.py: the client's three operations, each of
    which builds query parameters and issues one GET through the request processor. */
module OpenskyNetwork {
  import opened Errors
  import opened Wire
  import opened Models
  import opened RequestProcessing

  const StatesPath: string := "api/states/all/"
  const FlightsArrivalPath: string := "api/flights/arrival/"
  const FlightsDeparturePath: string := "api/flights/departure/"

  /** A time as the client accepts it: epoch seconds, or a `datetime`, abstracted here to
      the real number its `timestamp()` returns. */
  datatype Timestamp = Seconds(seconds: int) | Calendar(epoch: real)

  /** One transponder address, or a list of them. */
  datatype Icao24 = Address(address: string) | Addresses(addresses: seq<string>)

  function Icao24ToJson(a: Icao24): Json {
    match a
    case Address(s) => JString(s)
    case Addresses(ss) => JArray(seq(|ss|, i requires 0 <= i < |ss| => JString(ss[i])))
  }

  // ---------------------------------------------------------------------------------
  // Timestamps
  // ---------------------------------------------------------------------------------

  /** `n` is `int(x)`: `x` rounded toward zero. */
  predicate IsTruncation(x: real, n: int) {
    if x >= 0.0 then n as real <= x < n as real + 1.0
    else n as real - 1.0 < x <= n as real
  }

  /** Python's `int()` on a real. */
  function Truncate(x: real): (n: int)
    ensures IsTruncation(x, n)
  {
    if x >= 0.0 then x.Floor else -((-x).Floor)
  }

  /** A real has exactly one truncation. */
  lemma TruncationUnique(x: real, n: int, m: int)
    requires IsTruncation(x, n) && IsTruncation(x, m)
    ensures n == m
  {
  }

  /** The time sent on the wire: an int passes through unchanged, a `datetime`
      becomes `int(x.timestamp())`. */
  function EpochSeconds(t: Timestamp): (n: int)
    ensures t.Seconds? ==> n == t.seconds
    ensures t.Calendar? ==> IsTruncation(t.epoch, n)
  {
    match t
    case Seconds(s) => s
    case Calendar(x) => Truncate(x)
  }

  // ---------------------------------------------------------------------------------
  // Query parameters
  // ---------------------------------------------------------------------------------

  /** `bbox.serialize()` as query parameters. */
  function BoxParams(b: BoundingBox): Params {
    var m := Serialize(b);
    map k | k in m :: JReal(m[k])
  }

  /** The query of `get_states`: `time` always, `icao24` when given, and the four
      bounds when a box is given, added one after the other to one dictionary. */
  function StatesQuery(timestamp: Timestamp, icao24: Option<Icao24>, bbox: Option<BoundingBox>): (params: Params)
    ensures params.Keys == {"time"} + (if icao24.Some? then {"icao24"} else {})
                           + (if bbox.Some? then BoxKeys else {})
    ensures params["time"] == JInt(EpochSeconds(timestamp))
    ensures icao24.Some? ==> params["icao24"] == Icao24ToJson(icao24.value)
    ensures bbox.Some? ==>
              && params["lamin"] == JReal(bbox.value.lamin) && params["lamax"] == JReal(bbox.value.lamax)
              && params["lomin"] == JReal(bbox.value.lomin) && params["lomax"] == JReal(bbox.value.lomax)
  {
    var params := map["time" := JInt(EpochSeconds(timestamp))];
    var params := if icao24.Some? then params["icao24" := Icao24ToJson(icao24.value)] else params;
    if bbox.Some? then params + BoxParams(bbox.value) else params
  }

  /** Called without arguments, `get_states` sends `time = 0` and nothing else: the
      client does not substitute the current time. */
  lemma DefaultStatesQuery()
    ensures StatesQuery(Seconds(0), None, None) == map["time" := JInt(0)]
  {
  }

  /** `_prepare_flight_connection_parameters`: exactly `airport`, `begin` and `end`,
      each time normalised on its own. */
  function FlightQuery(airport: string, begin: Timestamp, end: Timestamp): (params: Params)
    ensures params.Keys == {"airport", "begin", "end"}
    ensures params["airport"] == JString(airport)
    ensures params["begin"] == JInt(EpochSeconds(begin)) && params["end"] == JInt(EpochSeconds(end))
  {
    map["airport" := JString(airport),
        "begin" := JInt(EpochSeconds(begin)),
        "end" := JInt(EpochSeconds(end))]
  }

  /** No order is imposed on the window: an end before the begin is sent as given. */
  lemma FlightWindowNotChecked(airport: string, begin: int, end: int)
    requires end < begin
    ensures FlightQuery(airport, Seconds(begin), Seconds(end))["begin"] == JInt(begin)
    ensures FlightQuery(airport, Seconds(begin), Seconds(end))["end"] == JInt(end)
  {
  }

  // ---------------------------------------------------------------------------------
  // What the caller receives
  // ---------------------------------------------------------------------------------

  /** A snapshot served in its wire form reaches the caller of `get_states` as that
      snapshot. */
  lemma {:induction false} StatesServedAndDecoded(s: States, status: int, contentLength: nat)
    requires status in SuccessStatuses && contentLength > 0
    ensures HandleResponse(Response(status, contentLength, StatesToWire(s)), false, Some(DeserializeStates))
            == Success(Single(s))
  {
    assert "time" in StatesToWire(s).fields;
    StatesRoundTrip(s);
  }

  /** The wire form of a list of flight connections. */
  function FlightsToWire(fcs: seq<FlightConnection>): Json {
    JArray(seq(|fcs|, i requires 0 <= i < |fcs| => JObject(FlightConnectionToWire(fcs[i]))))
  }

  /** Flight connections served in their wire form reach the caller of
      `get_flight_arrivals` / `get_flight_departures` in the same order. */
  lemma {:induction false} FlightsServedAndDecoded(fcs: seq<FlightConnection>, status: int, contentLength: nat)
    requires status in SuccessStatuses && contentLength > 0 && fcs != []
    ensures HandleResponse(Response(status, contentLength, FlightsToWire(fcs)), true, Some(DeserializeFlightConnection))
            == Success(Multiple(fcs))
  {
    FlightRowsDecode(fcs);
    var body := FlightsToWire(fcs);
    assert Truthy(body);
    var r := HandleResponse(Response(status, contentLength, body), true, Some(DeserializeFlightConnection));
    assert r.Success?;
    assert r.value.objs == fcs;
  }

  /** An empty list of flights is falsy: it comes back as the raw empty list, not
      decoded. */
  lemma NoFlightsReturnedRaw(status: int, contentLength: nat)
    requires status in SuccessStatuses && contentLength > 0
    ensures HandleResponse(Response(status, contentLength, FlightsToWire([])), true, Some(DeserializeFlightConnection))
            == Success(Raw(JArray([])))
  {
    assert FlightsToWire([]) == JArray([]);
    assert !Truthy(JArray([]));
  }

  /** Each row of the wire form decodes to its flight connection. */
  lemma FlightRowsDecode(fcs: seq<FlightConnection>)
    ensures |FlightsToWire(fcs).items| == |fcs|
    ensures forall i :: 0 <= i < |fcs| ==> DeserializeFlightConnection(FlightsToWire(fcs).items[i]) == Success(fcs[i])
  {
    forall i | 0 <= i < |fcs|
      ensures DeserializeFlightConnection(FlightsToWire(fcs).items[i]) == Success(fcs[i])
    {
      assert FlightsToWire(fcs).items[i] == JObject(FlightConnectionToWire(fcs[i]));
      FlightConnectionRoundTrip(fcs[i]);
    }
  }

  // ---------------------------------------------------------------------------------
  // The client
  // ---------------------------------------------------------------------------------

  /** The client: a request processor over the injected transport. */
  class OpenskyNetworkClient {
    const processor: RequestProcessor

    constructor (handler: RequestHandler)
      ensures processor.handler == handler
    {
      processor := new RequestProcessor(handler);
    }

    /** `get_states`: one GET on the states path, decoded into one `States`. */
    method GetStates(timestamp: Timestamp := Seconds(0), icao24: Option<Icao24> := None,
                     bbox: Option<BoundingBox> := None)
      returns (r: Result<Payload<States>>)
      modifies processor.handler
      ensures var call := Get(StatesPath, StatesQuery(timestamp, icao24, bbox), JNull);
              && processor.handler.sent == old(processor.handler.sent) + [call]
              && r == HandleResponse(processor.handler.respond(call), false, Some(DeserializeStates))
    {
      var params := StatesQuery(timestamp, icao24, bbox);
      r := processor.ProcessRequest("GET", StatesPath, Some(params), responseClass := Some(DeserializeStates));
    }

    /** `get_flight_arrivals`: one GET on the arrivals path, decoded into a list of
        `FlightConnection`. */
    method GetFlightArrivals(airport: string, begin: Timestamp, end: Timestamp)
      returns (r: Result<Payload<FlightConnection>>)
      requires IterableWhenMany(processor.handler.respond(Get(FlightsArrivalPath, FlightQuery(airport, begin, end), JNull)), true)
      modifies processor.handler
      ensures var call := Get(FlightsArrivalPath, FlightQuery(airport, begin, end), JNull);
              && processor.handler.sent == old(processor.handler.sent) + [call]
              && r == HandleResponse(processor.handler.respond(call), true, Some(DeserializeFlightConnection))
    {
      var params := FlightQuery(airport, begin, end);
      r := processor.ProcessRequest("GET", FlightsArrivalPath, Some(params), many := true,
                                    responseClass := Some(DeserializeFlightConnection));
    }

    /** `get_flight_departures`: one GET on the departures path, decoded into a list of
        `FlightConnection`. */
    method GetFlightDepartures(airport: string, begin: Timestamp, end: Timestamp)
      returns (r: Result<Payload<FlightConnection>>)
      requires IterableWhenMany(processor.handler.respond(Get(FlightsDeparturePath, FlightQuery(airport, begin, end), JNull)), true)
      modifies processor.handler
      ensures var call := Get(FlightsDeparturePath, FlightQuery(airport, begin, end), JNull);
              && processor.handler.sent == old(processor.handler.sent) + [call]
              && r == HandleResponse(processor.handler.respond(call), true, Some(DeserializeFlightConnection))
    {
      var params := FlightQuery(airport, begin, end);
      r := processor.ProcessRequest("GET", FlightsDeparturePath, Some(params), many := true,
                                    responseClass := Some(DeserializeFlightConnection));
    }
  }
}

/** opensky_network_client/models.py: the records the API's JSON is decoded into, and
    the validated bounding box sent with state queries.

    The Python constructors check no types: `StateVector(*row)` and the keyword
    constructors store whatever JSON value sits at the position or under the key.
    The record fields here therefore hold raw `Json` values; the comment on each field
    gives the type the API documents for it. */
module Models {
  import opened Errors
  import opened Wire

  // ---------------------------------------------------------------------------------
  // PositionSource
  // ---------------------------------------------------------------------------------

  /** The origin of a state's position. */
  datatype PositionSource = AdsB | Asterix | Mlat | Flarm

  /** The enumeration value the API uses for each source. */
  function PositionSourceCode(p: PositionSource): (code: int)
    ensures 0 <= code <= 3
  {
    match p
    case AdsB => 0
    case Asterix => 1
    case Mlat => 2
    case Flarm => 3
  }

  /** `PositionSource(code)`: the member with that value; any other value is refused. */
  function PositionSourceOf(code: int): (r: Option<PositionSource>)
    ensures r.Some? <==> 0 <= code <= 3
    ensures r.Some? ==> PositionSourceCode(r.value) == code
  {
    if code == 0 then Some(AdsB)
    else if code == 1 then Some(Asterix)
    else if code == 2 then Some(Mlat)
    else if code == 3 then Some(Flarm)
    else None
  }

  /** The four codes are distinct, and each code leads back to its member. */
  lemma PositionSourceCodesDistinct(p: PositionSource, q: PositionSource)
    ensures PositionSourceCode(p) == PositionSourceCode(q) <==> p == q
    ensures PositionSourceOf(PositionSourceCode(p)) == Some(p)
  {
  }

  // ---------------------------------------------------------------------------------
  // StateVector: positional decoding
  // ---------------------------------------------------------------------------------

  /** The number of positional fields of a state vector row. */
  const StateVectorArity: nat := 17

  /** The state of one aircraft at a particular time. */
  datatype StateVector = StateVector(
    icao24: Json,              // hex transponder address (string)
    callsign: Json,            // string or null
    originCountry: Json,       // string
    timePositionInSec: Json,   // epoch seconds of the last position report, or null
    lastContactInSec: Json,    // epoch seconds of the last message
    longitude: Json,           // WGS 84 degrees, or null
    latitude: Json,            // WGS 84 degrees, or null
    baroAltitudeInM: Json,     // barometric altitude, or null
    onGround: Json,            // bool
    velocityInMiPerSec: Json,  // ground speed in m/s, or null
    heading: Json,             // degrees clockwise from north, or null
    verticalRateInMPerS: Json, // m/s, or null
    sensors: Json,             // sensor serials, or null
    geoAltitudeInM: Json,      // geometric altitude, or null
    squawk: Json,              // transponder code, or null
    spi: Json,                 // special purpose indicator (bool)
    positionSource: Json       // a PositionSource code
  )

  /** The wire row of a state vector: its fields in the API's positional order. */
  function StateVectorFields(sv: StateVector): (row: seq<Json>)
    ensures |row| == StateVectorArity
  {
    [sv.icao24, sv.callsign, sv.originCountry, sv.timePositionInSec, sv.lastContactInSec,
     sv.longitude, sv.latitude, sv.baroAltitudeInM, sv.onGround, sv.velocityInMiPerSec,
     sv.heading, sv.verticalRateInMPerS, sv.sensors, sv.geoAltitudeInM, sv.squawk,
     sv.spi, sv.positionSource]
  }

  /** `StateVector.deserialize(row)`, i.e. `StateVector(*row)`: element i of the row
      becomes field i; any row that is not a list of exactly 17 values is a TypeError. */
  function DeserializeStateVector(j: Json): (r: Result<StateVector>)
    ensures r.Success? <==> j.JArray? && |j.items| == StateVectorArity
    ensures r.Success? ==> StateVectorFields(r.value) == j.items
    ensures r.Failure? ==> r.error == TypeError
  {
    if j.JArray? && |j.items| == StateVectorArity then
      var a := j.items;
      Success(StateVector(a[0], a[1], a[2], a[3], a[4], a[5], a[6], a[7], a[8], a[9],
                          a[10], a[11], a[12], a[13], a[14], a[15], a[16]))
    else
      Failure(TypeError)
  }

  /** Field by field, the positional correspondence of a decoded row. */
  lemma StateVectorPositions(row: seq<Json>)
    requires |row| == StateVectorArity
    ensures var sv := DeserializeStateVector(JArray(row)).value;
            && sv.icao24 == row[0] && sv.callsign == row[1] && sv.originCountry == row[2]
            && sv.timePositionInSec == row[3] && sv.lastContactInSec == row[4]
            && sv.longitude == row[5] && sv.latitude == row[6] && sv.baroAltitudeInM == row[7]
            && sv.onGround == row[8] && sv.velocityInMiPerSec == row[9] && sv.heading == row[10]
            && sv.verticalRateInMPerS == row[11] && sv.sensors == row[12]
            && sv.geoAltitudeInM == row[13] && sv.squawk == row[14] && sv.spi == row[15]
            && sv.positionSource == row[16]
  {
    var fields := StateVectorFields(DeserializeStateVector(JArray(row)).value);
    assert fields == row;
  }

  /** Decoding the wire row of a state vector gives that state vector back. */
  lemma StateVectorRoundTrip(sv: StateVector)
    ensures DeserializeStateVector(JArray(StateVectorFields(sv))) == Success(sv)
  {
  }

  // ---------------------------------------------------------------------------------
  // States: a snapshot of the airspace
  // ---------------------------------------------------------------------------------

  /** The state of the airspace at one time: the `time` value and the decoded rows. */
  datatype States = States(timeInSec: Json, states: seq<StateVector>)

  /** `States.deserialize(d)`: `time_in_sec = d["time"]` and one state vector per row of
      `d["states"]`, in order. Looking up `time` comes first, then `states`; a value that
      cannot be subscripted or iterated is a TypeError. */
  function DeserializeStates(j: Json): (r: Result<States>)
    ensures !j.JObject? ==> r == Failure(TypeError)
    ensures j.JObject? && "time" !in j.fields ==> r == Failure(KeyError("time"))
    ensures j.JObject? && "time" in j.fields && "states" !in j.fields ==> r == Failure(KeyError("states"))
    ensures r.Success? <==>
              && j.JObject? && "time" in j.fields && "states" in j.fields
              && j.fields["states"].JArray?
              && forall i :: 0 <= i < |j.fields["states"].items| ==>
                   DeserializeStateVector(j.fields["states"].items[i]).Success?
    ensures r.Success? ==>
              var rows := j.fields["states"].items;
              && r.value.timeInSec == j.fields["time"]
              && |r.value.states| == |rows|
              && forall i :: 0 <= i < |rows| ==> r.value.states[i] == DeserializeStateVector(rows[i]).value
    ensures j.JObject? && "time" in j.fields && "states" in j.fields && r.Failure? ==> r.error == TypeError
  {
    if !j.JObject? then
      Failure(TypeError)
    else if "time" !in j.fields then
      Failure(KeyError("time"))
    else if "states" !in j.fields then
      Failure(KeyError("states"))
    else if !j.fields["states"].JArray? then
      Failure(TypeError)
    else
      var states :- DecodeEach(j.fields["states"].items, DeserializeStateVector);
      Success(States(j.fields["time"], states))
  }

  /** The wire form of a snapshot, as the API sends it. */
  function StatesToWire(s: States): Json {
    JObject(map["time" := s.timeInSec,
                "states" := JArray(seq(|s.states|, i requires 0 <= i < |s.states| =>
                                     JArray(StateVectorFields(s.states[i]))))])
  }

  /** Decoding the wire form of a snapshot gives that snapshot back. */
  lemma {:induction false} StatesRoundTrip(s: States)
    ensures DeserializeStates(StatesToWire(s)) == Success(s)
  {
    var rows := StatesToWire(s).fields["states"].items;
    forall i | 0 <= i < |rows|
      ensures DeserializeStateVector(rows[i]) == Success(s.states[i])
    {
      StateVectorRoundTrip(s.states[i]);
    }
    var r := DeserializeStates(StatesToWire(s));
    assert r.value.states == s.states;
  }

  /** Decoding loses nothing: a decoded snapshot re-encodes to exactly the `time` and
      `states` entries it was decoded from. */
  lemma {:induction false} StatesDecodeLossless(j: Json)
    requires DeserializeStates(j).Success?
    ensures StatesToWire(DeserializeStates(j).value) ==
            JObject(map["time" := j.fields["time"], "states" := j.fields["states"]])
  {
    var s := DeserializeStates(j).value;
    var rows := j.fields["states"].items;
    var wireRows := StatesToWire(s).fields["states"].items;
    forall i | 0 <= i < |rows|
      ensures wireRows[i] == rows[i]
    {
      assert StateVectorFields(DeserializeStateVector(rows[i]).value) == rows[i].items;
    }
    assert wireRows == rows;
  }

  /** The snapshot of the tests: `time` is kept, and the two rows become two state
      vectors in order. */
  lemma TwoRowSnapshotDecoded()
    ensures var row1 := [JString("3c6444"), JString("DLH9LF "), JString("Germany"), JInt(1458564120),
                         JInt(1458564120), JReal(6.1546), JReal(50.1964), JReal(9639.3), JBool(false),
                         JReal(232.88), JReal(98.26), JReal(4.55), JNull, JReal(9547.86), JString("1000"),
                         JBool(false), JInt(0)];
            var row2 := row1[0 := JString("4b1806")][2 := JString("Greece")];
            var r := DeserializeStates(JObject(map["time" := JInt(1458564121),
                                                   "states" := JArray([JArray(row1), JArray(row2)])]));
            && r.Success?
            && r.value.timeInSec == JInt(1458564121)
            && |r.value.states| == 2
            && r.value.states[0].originCountry == JString("Germany")
            && r.value.states[1].icao24 == JString("4b1806")
            && r.value.states[1].originCountry == JString("Greece")
  {
  }

  // ---------------------------------------------------------------------------------
  // FlightConnection: keyed decoding
  // ---------------------------------------------------------------------------------

  /** One arrival or departure of an aircraft at an airport. */
  datatype FlightConnection = FlightConnection(
    icao24: Json,                            // hex transponder address (string)
    firstSeen: Json,                         // estimated departure time, epoch seconds
    estDepartureAirport: Json,               // ICAO code, or null
    lastSeen: Json,                          // estimated arrival time, epoch seconds
    estArrivalAirport: Json,                 // ICAO code, or null
    callsign: Json,                          // string, or null
    estDepartureAirportHorizDistance: Json,  // metres, or null
    estDepartureAirportVertDistance: Json,   // metres, or null
    estArrivalAirportHorizDistance: Json,    // metres
    estArrivalAirportVertDistance: Json,     // metres
    departureAirportCandidatesCount: Json,   // count
    arrivalAirportCandidatesCount: Json      // count
  )

  /** The camelCase keys `FlightConnection.deserialize` reads, in the order it reads them. */
  const FlightConnectionKeys: seq<string> :=
    ["icao24", "firstSeen", "estDepartureAirport", "lastSeen", "estArrivalAirport", "callsign",
     "estDepartureAirportHorizDistance", "estDepartureAirportVertDistance",
     "estArrivalAirportHorizDistance", "estArrivalAirportVertDistance",
     "departureAirportCandidatesCount", "arrivalAirportCandidatesCount"]

  predicate HasKeys(m: Params, keys: seq<string>) {
    forall i :: 0 <= i < |keys| ==> keys[i] in m
  }

  /** The entries of `m` under `keys`. */
  function Restrict(m: Params, keys: seq<string>): Params {
    map k | k in keys && k in m :: m[k]
  }

  /** The first of `keys`, in order, that `m` lacks: the key whose lookup raises. */
  function FirstMissingKey(keys: seq<string>, m: Params): (r: Option<string>)
    ensures r.None? <==> HasKeys(m, keys)
    ensures r.Some? ==>
              exists k :: && 0 <= k < |keys| && keys[k] == r.value && r.value !in m
                          && forall i :: 0 <= i < k ==> keys[i] in m
  {
    if keys == [] then None
    else if keys[0] !in m then Some(keys[0])
    else
      var rest := FirstMissingKey(keys[1..], m);
      assert forall i :: 1 <= i < |keys| ==> keys[i] == keys[1..][i - 1];
      rest
  }

  /** The wire form of a flight connection, keyed by the API's camelCase names. */
  function FlightConnectionToWire(fc: FlightConnection): Params {
    map["icao24" := fc.icao24,
        "firstSeen" := fc.firstSeen,
        "estDepartureAirport" := fc.estDepartureAirport,
        "lastSeen" := fc.lastSeen,
        "estArrivalAirport" := fc.estArrivalAirport,
        "callsign" := fc.callsign,
        "estDepartureAirportHorizDistance" := fc.estDepartureAirportHorizDistance,
        "estDepartureAirportVertDistance" := fc.estDepartureAirportVertDistance,
        "estArrivalAirportHorizDistance" := fc.estArrivalAirportHorizDistance,
        "estArrivalAirportVertDistance" := fc.estArrivalAirportVertDistance,
        "departureAirportCandidatesCount" := fc.departureAirportCandidatesCount,
        "arrivalAirportCandidatesCount" := fc.arrivalAirportCandidatesCount]
  }

  /** `FlightConnection.deserialize(d)`: each field from its camelCase key. Keys are
      looked up in order; the first one missing raises KeyError; extra keys are ignored;
      a value that is not a dictionary is a TypeError. */
  function DeserializeFlightConnection(j: Json): (r: Result<FlightConnection>)
    ensures !j.JObject? ==> r == Failure(TypeError)
    ensures r.Success? <==> j.JObject? && HasKeys(j.fields, FlightConnectionKeys)
    ensures r.Success? ==> FlightConnectionToWire(r.value) == Restrict(j.fields, FlightConnectionKeys)
    ensures j.JObject? && r.Failure? ==>
              exists k :: && 0 <= k < |FlightConnectionKeys|
                          && r.error == KeyError(FlightConnectionKeys[k])
                          && FlightConnectionKeys[k] !in j.fields
                          && forall i :: 0 <= i < k ==> FlightConnectionKeys[i] in j.fields
  {
    if !j.JObject? then
      Failure(TypeError)
    else
      match FirstMissingKey(FlightConnectionKeys, j.fields)
      case Some(key) => Failure(KeyError(key))
      case None =>
        var d := j.fields;
        assert forall i :: 0 <= i < |FlightConnectionKeys| ==> FlightConnectionKeys[i] in d;
        assert "icao24" == FlightConnectionKeys[0] && "firstSeen" == FlightConnectionKeys[1];
        assert "estDepartureAirport" == FlightConnectionKeys[2] && "lastSeen" == FlightConnectionKeys[3];
        assert "estArrivalAirport" == FlightConnectionKeys[4] && "callsign" == FlightConnectionKeys[5];
        assert "estDepartureAirportHorizDistance" == FlightConnectionKeys[6];
        assert "estDepartureAirportVertDistance" == FlightConnectionKeys[7];
        assert "estArrivalAirportHorizDistance" == FlightConnectionKeys[8];
        assert "estArrivalAirportVertDistance" == FlightConnectionKeys[9];
        assert "departureAirportCandidatesCount" == FlightConnectionKeys[10];
        assert "arrivalAirportCandidatesCount" == FlightConnectionKeys[11];
        Success(FlightConnection(
          d["icao24"], d["firstSeen"], d["estDepartureAirport"], d["lastSeen"],
          d["estArrivalAirport"], d["callsign"],
          d["estDepartureAirportHorizDistance"], d["estDepartureAirportVertDistance"],
          d["estArrivalAirportHorizDistance"], d["estArrivalAirportVertDistance"],
          d["departureAirportCandidatesCount"], d["arrivalAirportCandidatesCount"]))
  }

  /** Decoding the wire form of a flight connection gives it back. */
  lemma FlightConnectionRoundTrip(fc: FlightConnection)
    ensures DeserializeFlightConnection(JObject(FlightConnectionToWire(fc))) == Success(fc)
  {
    var w := FlightConnectionToWire(fc);
    assert HasKeys(w, FlightConnectionKeys);
    var r := DeserializeFlightConnection(JObject(w));
    FlightConnectionToWireInjective(r.value, fc);
  }

  /** The flight connection of the tests: each camelCase key lands in its field. */
  lemma SampleFlightConnectionDecoded()
    ensures var r := DeserializeFlightConnection(JObject(map[
              "icao24" := JString("0101be"), "firstSeen" := JInt(1517220729),
              "estDepartureAirport" := JNull, "lastSeen" := JInt(1517230737),
              "estArrivalAirport" := JString("EDDF"), "callsign" := JString("MSR785 "),
              "estDepartureAirportHorizDistance" := JNull, "estDepartureAirportVertDistance" := JNull,
              "estArrivalAirportHorizDistance" := JInt(1593), "estArrivalAirportVertDistance" := JInt(95),
              "departureAirportCandidatesCount" := JInt(0), "arrivalAirportCandidatesCount" := JInt(2)]));
            && r.Success?
            && r.value.icao24 == JString("0101be")
            && r.value.firstSeen == JInt(1517220729)
            && r.value.lastSeen == JInt(1517230737)
            && r.value.estArrivalAirportHorizDistance == JInt(1593)
            && r.value.arrivalAirportCandidatesCount == JInt(2)
  {
    var fc := FlightConnection(JString("0101be"), JInt(1517220729), JNull, JInt(1517230737),
                               JString("EDDF"), JString("MSR785 "), JNull, JNull, JInt(1593), JInt(95),
                               JInt(0), JInt(2));
    FlightConnectionRoundTrip(fc);
  }

  /** Distinct flight connections have distinct wire forms. */
  lemma FlightConnectionToWireInjective(a: FlightConnection, b: FlightConnection)
    requires FlightConnectionToWire(a) == FlightConnectionToWire(b)
    ensures a == b
  {
    var wa, wb := FlightConnectionToWire(a), FlightConnectionToWire(b);
    assert wa["icao24"] == wb["icao24"] && wa["firstSeen"] == wb["firstSeen"];
    assert wa["estDepartureAirport"] == wb["estDepartureAirport"] && wa["lastSeen"] == wb["lastSeen"];
    assert wa["estArrivalAirport"] == wb["estArrivalAirport"] && wa["callsign"] == wb["callsign"];
    assert wa["estDepartureAirportHorizDistance"] == wb["estDepartureAirportHorizDistance"];
    assert wa["estDepartureAirportVertDistance"] == wb["estDepartureAirportVertDistance"];
    assert wa["estArrivalAirportHorizDistance"] == wb["estArrivalAirportHorizDistance"];
    assert wa["estArrivalAirportVertDistance"] == wb["estArrivalAirportVertDistance"];
    assert wa["departureAirportCandidatesCount"] == wb["departureAirportCandidatesCount"];
    assert wa["arrivalAirportCandidatesCount"] == wb["arrivalAirportCandidatesCount"];
  }

  // ---------------------------------------------------------------------------------
  // BoundingBox
  // ---------------------------------------------------------------------------------

  /** A box of WGS 84 coordinates in decimal degrees. */
  datatype BoundingBox = BoundingBox(lamin: real, lamax: real, lomin: real, lomax: real)

  predicate IsLatitude(x: real) {
    -90.0 <= x <= 90.0
  }

  predicate IsLongitude(x: real) {
    -180.0 <= x <= 180.0
  }

  /** Every bound is in range; nothing relates a lower bound to its upper bound. */
  predicate ValidBox(b: BoundingBox) {
    IsLatitude(b.lamin) && IsLatitude(b.lamax) && IsLongitude(b.lomin) && IsLongitude(b.lomax)
  }

  /** `_validate_lat`: the argument itself, or ValueError outside [-90, 90]. */
  function ValidateLatitude(lat: real): (r: Result<real>)
    ensures r.Success? <==> IsLatitude(lat)
    ensures r.Success? ==> r.value == lat
    ensures r.Failure? ==> r.error == InvalidLatitude(lat)
  {
    if lat < -90.0 || lat > 90.0 then Failure(InvalidLatitude(lat)) else Success(lat)
  }

  /** `_validate_lon`: the argument itself, or ValueError outside [-180, 180]. */
  function ValidateLongitude(lon: real): (r: Result<real>)
    ensures r.Success? <==> IsLongitude(lon)
    ensures r.Success? ==> r.value == lon
    ensures r.Failure? ==> r.error == InvalidLongitude(lon)
  {
    if lon < -180.0 || lon > 180.0 then Failure(InvalidLongitude(lon)) else Success(lon)
  }

  /** `BoundingBox(lamin, lamax, lomin, lomax)`: validates lamin, lamax, lomin, lomax in
      that order and raises on the first value out of range. */
  function NewBoundingBox(lamin: real, lamax: real, lomin: real, lomax: real): (r: Result<BoundingBox>)
    ensures r.Success? <==> IsLatitude(lamin) && IsLatitude(lamax) && IsLongitude(lomin) && IsLongitude(lomax)
    ensures r.Success? ==> r.value == BoundingBox(lamin, lamax, lomin, lomax) && ValidBox(r.value)
    ensures !IsLatitude(lamin) ==> r == Failure(InvalidLatitude(lamin))
    ensures IsLatitude(lamin) && !IsLatitude(lamax) ==> r == Failure(InvalidLatitude(lamax))
    ensures IsLatitude(lamin) && IsLatitude(lamax) && !IsLongitude(lomin) ==>
              r == Failure(InvalidLongitude(lomin))
    ensures IsLatitude(lamin) && IsLatitude(lamax) && IsLongitude(lomin) && !IsLongitude(lomax) ==>
              r == Failure(InvalidLongitude(lomax))
  {
    var la0 :- ValidateLatitude(lamin);
    var la1 :- ValidateLatitude(lamax);
    var lo0 :- ValidateLongitude(lomin);
    var lo1 :- ValidateLongitude(lomax);
    Success(BoundingBox(la0, la1, lo0, lo1))
  }

  /** The inclusive bounds are accepted, and so is a box whose minimum exceeds its
      maximum (the box the client tests build). */
  lemma BoundaryAndReversedBoxesAccepted()
    ensures NewBoundingBox(-90.0, 90.0, -180.0, 180.0) == Success(BoundingBox(-90.0, 90.0, -180.0, 180.0))
    ensures NewBoundingBox(85.453421, 80.545676, 50.454257, 45.871253).Success?
    ensures NewBoundingBox(90.5, 0.0, 0.0, 0.0) == Failure(InvalidLatitude(90.5))
    ensures NewBoundingBox(0.0, 0.0, 0.0, -180.5) == Failure(InvalidLongitude(-180.5))
  {
  }

  const BoxKeys: set<string> := {"lamin", "lamax", "lomin", "lomax"}

  /** `BoundingBox.serialize`: the four bounds under their query-parameter names. */
  function Serialize(b: BoundingBox): (m: map<string, real>)
    ensures m.Keys == BoxKeys
  {
    map["lamin" := b.lamin, "lamax" := b.lamax, "lomin" := b.lomin, "lomax" := b.lomax]
  }

  /** Rebuilding a box from its serialised form, `BoundingBox(**b.serialize())`, gives
      the same box. */
  lemma SerializeRoundTrip(b: BoundingBox)
    requires ValidBox(b)
    ensures var m := Serialize(b);
            NewBoundingBox(m["lamin"], m["lamax"], m["lomin"], m["lomax"]) == Success(b)
  {
  }
}

# OpenSky Network client — a verified model

This project models the core of a small Python client for the OpenSky Network REST
API. The client asks for the state vectors of the airspace and for the arrivals and
departures of an airport.

Three pieces are modelled.

- **The request processor** (`RequestProcessing`, from `base/request_processor.py`).
  It turns an HTTP verb into one call on the injected transport and rejects unknown
  verbs. It then normalises the response:
  - a status outside {200, 201, 204} is an API error;
  - empty content is None;
  - a truthy body is decoded by the response class into one object or, with `many`,
    into a list of objects in order;
  - anything else comes back as the raw parsed JSON.
- **The models** (`Models`, from `opensky_network_client/models.py`).
  - The positional decoder of a 17-field state vector row.
  - The `States` snapshot decoder.
  - The camelCase-keyed decoder of a flight connection.
  - The WGS 84 bounding box, with its range validation and its serialisation.
  - The `PositionSource` codes.
- **The client** (`OpenskyNetwork`, from `opensky_network_client/opensky_network.py`).
  - Timestamp normalisation: an int passes through; a datetime becomes its truncated
    epoch seconds.
  - The query parameters of `get_states` and of the two flight operations.
  - The routing of each operation to its path, its `many` flag and its response class.

`Errors` holds the exceptions as an `Error` datatype and the `Result`/`Option` wrappers.
`Wire` holds the JSON value type, Python truthiness and the in-order list decoder.

The transport is a `RequestHandler` object. Its `respond` function stands for the
server, and its `sent` field records every call, as the tests' mock does. A `Response`
carries the status code, the content length and the value `response.json()` would
return.

Decoded records hold raw JSON values in their fields. The Python constructors check no
types: they store whatever value is at the position or under the key.

Behaviour the model follows from the code:
- A state vector row must have exactly 17 elements. `StateVector(*row)` refuses extra
  positional arguments, so trailing fields are not tolerated.
- The `get_states` docstring says the current time is used when the timestamp is
  omitted. The code sends `time = 0`, and the model does the same (`DefaultStatesQuery`).
- The client calls `perform_request` and `bbox.to_json()`. The processor and the box
  define `process_request` and `serialize`. Each pair is modelled as one operation.
- `OpenskyNetworkClient` inherits from `RequestProcessor` in Python. Here the client
  holds a `RequestProcessor` built over the same transport.

## Model

| member | source | states |
|---|---|---|
| `RequestProcessing.Dispatch` | base/request_processor.py:68-77 | Succeeds iff the verb is GET, POST, DELETE or PUT, else NotImplemented(verb). The call has that verb and forwards path and json. GET sends `extra_params`, or the empty map when it is None. The other verbs send no query. |
| `RequestProcessing.HandleResponse` | base/request_processor.py:79-90 | A status outside {200, 201, 204} is ApiError(status), whatever the body or class. Zero-length content is None, even with a class. With no class or a falsy body, the body is returned unchanged. Without `many`, the result is exactly what the class decodes. With `many`, the list has one element per body element, in order. The first failing element's error is raised. |
| `RequestProcessing.RequestProcessor.ProcessRequest` | base/request_processor.py:48-90 | An unknown verb raises NotImplemented and makes no transport call. Otherwise exactly the dispatched call is made once, and the result is the normalised response to it. |
| `RequestProcessing.RequestProcessor.constructor` | base/request_processor.py:42-46 | Stores the injected transport. |
| `Wire.DecodeEach` | base/request_processor.py:84-90 | Decoding a list succeeds iff every element decodes. The result has the same length, and element i is the decoding of element i. On failure the error is that of the first element that fails. |
| `Models.PositionSourceCode` | opensky_network_client/models.py:44-48 | Each position source has a code in 0..3. |
| `Models.PositionSourceOf` | opensky_network_client/models.py:44-48 | A code names a member iff it is in 0..3, and that member's code is the given code. |
| `Models.PositionSourceCodesDistinct` | opensky_network_client/models.py:44-48 | Distinct members have distinct codes, and each code leads back to its member. |
| `Models.DeserializeStateVector` | opensky_network_client/models.py:113-119 | Succeeds iff the value is a list of exactly 17 elements, else TypeError. The decoded vector's fields, in wire order, are exactly the list. |
| `Models.StateVectorPositions` | opensky_network_client/models.py:53-111 | Field by field: element 0 is icao24, 1 callsign, 2 origin country, and so on up to element 16, position source. |
| `Models.StateVectorRoundTrip` | opensky_network_client/models.py:113-119 | Decoding a state vector's wire row gives the same vector back. |
| `Models.DeserializeStates` | opensky_network_client/models.py:135-140 | A non-object is TypeError. A missing `time` is KeyError("time"), checked first; then a missing `states` is KeyError("states"). It succeeds iff `states` is a list whose rows all decode. Then `timeInSec` is `d["time"]`, and the snapshot has one vector per row, in order. |
| `Models.StatesRoundTrip` | opensky_network_client/models.py:135-140 | Decoding a snapshot's wire form gives the same snapshot back. |
| `Models.StatesDecodeLossless` | opensky_network_client/models.py:135-140 | A decoded snapshot re-encodes to exactly the `time` and `states` entries it came from. |
| `Models.TwoRowSnapshotDecoded` | tests/test_models.py:49-73 | The tests' snapshot decodes with time 1458564121 and two state vectors, in input order. |
| `Models.FirstMissingKey` | opensky_network_client/models.py:199-212 | Returns no key iff every key is present. Otherwise it returns the first missing key in lookup order. |
| `Models.DeserializeFlightConnection` | opensky_network_client/models.py:197-212 | A non-object is TypeError. It succeeds iff all 12 camelCase keys are present. Each field then equals the value under its key, and extra keys are ignored. Otherwise the error is KeyError of the first missing key, in lookup order. |
| `Models.FlightConnectionRoundTrip` | opensky_network_client/models.py:197-212 | Decoding a flight connection's camelCase wire map gives it back. |
| `Models.FlightConnectionToWireInjective` | opensky_network_client/models.py:184-195 | Each of the 12 fields has its own key, so different records have different wire maps. |
| `Models.SampleFlightConnectionDecoded` | tests/utils.py:51-67 | The tests' record decodes with icao24 "0101be", `firstSeen`→firstSeen, `estArrivalAirportHorizDistance`→estArrivalAirportHorizDistance, and so on. |
| `Models.ValidateLatitude` | opensky_network_client/models.py:239-244 | Returns its argument iff it is in [-90, 90], else ValueError carrying it. |
| `Models.ValidateLongitude` | opensky_network_client/models.py:246-251 | Returns its argument iff it is in [-180, 180], else ValueError carrying it. |
| `Models.NewBoundingBox` | opensky_network_client/models.py:217-229 | Succeeds iff both latitudes are in [-90, 90] and both longitudes in [-180, 180], bounds included. The stored fields equal the inputs. Otherwise the error names the first bad value in the order lamin, lamax, lomin, lomax. |
| `Models.BoundaryAndReversedBoxesAccepted` | opensky_network_client/models.py:226-229 | Boxes at ±90/±180 are accepted. A box with lamin > lamax, as in the tests, is accepted too, since min ≤ max is not checked. 90.5 and -180.5 are refused. |
| `Models.Serialize` | opensky_network_client/models.py:231-237 | The map has exactly the keys lamin, lamax, lomin and lomax. |
| `Models.SerializeRoundTrip` | opensky_network_client/models.py:231-237 | Rebuilding a valid box from its serialised map gives the same box. |
| `OpenskyNetwork.Truncate` | opensky_network_client/opensky_network.py:64-65 | `int(x)` rounds toward zero: n ≤ x < n+1 for x ≥ 0, and n-1 < x ≤ n for x < 0. |
| `OpenskyNetwork.TruncationUnique` | opensky_network_client/opensky_network.py:64-65 | A real has exactly one truncation. |
| `OpenskyNetwork.EpochSeconds` | opensky_network_client/opensky_network.py:111-115 | An int timestamp is sent unchanged. A datetime is sent as the truncation of its epoch seconds. |
| `OpenskyNetwork.StatesQuery` | opensky_network_client/opensky_network.py:64-75 | The keys are `time`, plus `icao24` iff an address is given, plus the four bounds iff a box is given; nothing else. `time` is the normalised timestamp. `icao24` is passed through unchanged. Each bound equals the box's field. |
| `OpenskyNetwork.DefaultStatesQuery` | opensky_network_client/opensky_network.py:54-69 | With no arguments the query is exactly `{time: 0}`. |
| `OpenskyNetwork.FlightQuery` | opensky_network_client/opensky_network.py:107-121 | The keys are exactly airport, begin and end. Begin and end are each normalised on their own. |
| `OpenskyNetwork.FlightWindowNotChecked` | opensky_network_client/opensky_network.py:111-121 | An end before the begin is sent as given: no begin ≤ end check. |
| `OpenskyNetwork.StatesServedAndDecoded` | opensky_network_client/opensky_network.py:77-79 | A snapshot served in its wire form with an accepted status reaches the caller as that snapshot. |
| `OpenskyNetwork.FlightsServedAndDecoded` | opensky_network_client/opensky_network.py:87-92 | A non-empty list of flight connections served in wire form reaches the caller as the same list, in order. |
| `OpenskyNetwork.NoFlightsReturnedRaw` | base/request_processor.py:84-90 | An empty list of flights is falsy. It is returned as the raw empty list, without decoding. |
| `OpenskyNetwork.OpenskyNetworkClient.constructor` | opensky_network_client/opensky_network.py:43-52 | The client's processor uses the injected transport. |
| `OpenskyNetwork.OpenskyNetworkClient.GetStates` | opensky_network_client/opensky_network.py:54-79 | Issues exactly one GET on `api/states/all/` with the states query, `many` false and the `States` decoder. It returns the processor's result unchanged, errors included. |
| `OpenskyNetwork.OpenskyNetworkClient.GetFlightArrivals` | opensky_network_client/opensky_network.py:81-92 | Issues exactly one GET on `api/flights/arrival/` with the flight query, `many` true and the `FlightConnection` decoder. It returns the processor's result unchanged. |
| `OpenskyNetwork.OpenskyNetworkClient.GetFlightDepartures` | opensky_network_client/opensky_network.py:94-105 | Issues exactly one GET on `api/flights/departure/` with the flight query, `many` true and the `FlightConnection` decoder. It returns the processor's result unchanged. |

## Left out

- RequestProcessing.HandleResponse: requires that with `many`, an accepted, non-empty, truthy body is a JSON array. Python would iterate a truthy object (its keys) or string (its characters); the model does not cover that.
- RequestProcessing.RequestProcessor.ProcessRequest: carries the same requirement on the transport's response, for the same reason.
- OpenskyNetwork.OpenskyNetworkClient.GetFlightArrivals: carries the same requirement on the server's answer.
- OpenskyNetwork.OpenskyNetworkClient.GetFlightDepartures: carries the same requirement on the server's answer.
- Models.DeserializeStateVector: any non-list value is a TypeError. Python's `*` unpacking would also accept a 17-character string or a 17-key dictionary.
- Models.DeserializeStates: a `states` entry that is a string or a dictionary is a TypeError here. Python would iterate it.
- Models.DeserializeStates: `datetime.fromtimestamp(time_in_sec)` is not modelled. It depends on the local time zone, and it raises for a non-numeric `time`.
- The HTTP transport is abstracted as a function from call to response. JSON parsing of the content is not modelled.
- `APIError.from_response` is not part of this model; the error keeps only the status code.
- `BaseModel` equality is not part of this model; datatype equality stands in for it.
- `ClientFactory` is not part of this model.
- The `Airport` model and `get_airport` are not part of this model. They are not in the modelled source files.
- The tests call the client with `json=True`. The modelled client has no such parameter. Raw mode is still reachable through `ProcessRequest` with no response class.
- A datetime is abstracted to the real number its `timestamp()` returns. Floating-point coordinates and times are modelled as reals.

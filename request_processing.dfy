/** base/request_processor.py: one HTTP request through an injected transport, and the
    normalisation of its response into an error, a raw JSON value, one decoded object
    or a list of decoded objects. */
module RequestProcessing {
  import opened Errors
  import opened Wire

  /** A call on the transport: GET carries query parameters and a JSON body;
      POST, DELETE and PUT carry the JSON body only. */
  datatype TransportCall =
    | Get(path: string, params: Params, json: Json)
    | Post(path: string, json: Json)
    | Delete(path: string, json: Json)
    | Put(path: string, json: Json)

  /** What the processor reads of a transport response: the status code, the length
      of the raw content, and what `response.json()` would return. */
  datatype Response = Response(status: int, contentLength: nat, body: Json)

  /** What `process_request` returns: the parsed body unchanged (None is `Raw(JNull)`),
      one object built by the response class, or the list of objects it built. */
  datatype Payload<T> = Raw(json: Json) | Single(obj: T) | Multiple(objs: seq<T>)

  const SupportedVerbs: set<string> := {"GET", "POST", "DELETE", "PUT"}

  /** The status codes the processor accepts. */
  const SuccessStatuses: set<int> := {200, 201, 204}

  /** The verb name a transport call answers to. */
  function VerbOf(call: TransportCall): string {
    match call
    case Get(_, _, _) => "GET"
    case Post(_, _) => "POST"
    case Delete(_, _) => "DELETE"
    case Put(_, _) => "PUT"
  }

  /** Which transport call `process_request` makes for a verb, if any. GET sends
      `extra_params or {}` as the query; the other verbs drop `extra_params`. */
  function Dispatch(verb: string, path: string, extraParams: Option<Params>, json: Json): (r: Result<TransportCall>)
    ensures r.Success? <==> verb in SupportedVerbs
    ensures r.Failure? ==> r.error == NotImplemented(verb)
    ensures r.Success? ==> VerbOf(r.value) == verb && r.value.path == path && r.value.json == json
    ensures r.Success? && verb == "GET" ==>
              r.value.params == if extraParams.Some? then extraParams.value else map[]
  {
    if verb == "GET" then
      Success(Get(path, if extraParams.Some? then extraParams.value else map[], json))
    else if verb == "POST" then
      Success(Post(path, json))
    else if verb == "DELETE" then
      Success(Delete(path, json))
    else if verb == "PUT" then
      Success(Put(path, json))
    else
      Failure(NotImplemented(verb))
  }

  /** The responses the model covers when a list of objects is expected: a body that
      is decoded as a list (accepted status, non-empty content, truthy) is a JSON array. */
  predicate IterableWhenMany(response: Response, many: bool) {
    many && response.status in SuccessStatuses && response.contentLength > 0 && Truthy(response.body)
    ==> response.body.JArray?
  }

  /** The part of `process_request` after the transport call. */
  function HandleResponse<T>(response: Response, many: bool, responseClass: Option<Json -> Result<T>>): (r: Result<Payload<T>>)
    requires IterableWhenMany(response, many)
    // a bad status is an APIError, whatever the body and the response class
    ensures response.status !in SuccessStatuses ==> r == Failure(ApiError(response.status))
    // empty content is None, even when a response class is given
    ensures response.status in SuccessStatuses && response.contentLength == 0 ==> r == Success(Raw(JNull))
    // no response class, or a falsy body: the parsed body is returned unchanged
    ensures (&& response.status in SuccessStatuses && response.contentLength > 0
             && (responseClass.None? || !Truthy(response.body))) ==> r == Success(Raw(response.body))
    // one object: exactly what the response class builds from the body
    ensures (&& response.status in SuccessStatuses && response.contentLength > 0
             && responseClass.Some? && Truthy(response.body) && !many) ==>
              match responseClass.value(response.body)
              case Success(obj) => r == Success(Single(obj))
              case Failure(e) => r == Failure(e)
    // a list: one object per element, in the same order; the first failing element's error
    ensures (&& response.status in SuccessStatuses && response.contentLength > 0
             && responseClass.Some? && Truthy(response.body) && many) ==>
              var items, decode := response.body.items, responseClass.value;
              && (r.Success? <==> forall i :: 0 <= i < |items| ==> decode(items[i]).Success?)
              && (r.Success? ==>
                    && r.value.Multiple?
                    && |r.value.objs| == |items|
                    && forall i :: 0 <= i < |items| ==> r.value.objs[i] == decode(items[i]).value)
              && (r.Failure? ==>
                    exists k :: && 0 <= k < |items|
                                && decode(items[k]) == Failure(r.error)
                                && forall i :: 0 <= i < k ==> decode(items[i]).Success?)
  {
    if response.status !in SuccessStatuses then
      Failure(ApiError(response.status))
    else
      var result := if response.contentLength > 0 then response.body else JNull;
      if responseClass.Some? && Truthy(result) then
        if many then
          var objs :- DecodeEach(result.items, responseClass.value);
          Success(Multiple(objs))
        else
          var obj :- responseClass.value(result);
          Success(Single(obj))
      else
        // with `many` and no class, `list(result)` copies the list: an equal value
        Success(Raw(result))
  }

  /** The injected transport (a `requests` session, a Mock in the tests). The server's
      answer is abstracted as a fixed function of the call; `sent` records every call
      made, as the tests' Mock does. */
  class RequestHandler {
    const respond: TransportCall -> Response
    var sent: seq<TransportCall>

    constructor (respond: TransportCall -> Response)
      ensures this.respond == respond && sent == []
    {
      this.respond := respond;
      sent := [];
    }

    method Send(call: TransportCall) returns (response: Response)
      modifies this
      ensures sent == old(sent) + [call]
      ensures response == respond(call)
    {
      sent := sent + [call];
      response := respond(call);
    }
  }

  /** Manages one HTTP request/response flow over the transport it was given. */
  class RequestProcessor {
    const handler: RequestHandler

    constructor (handler: RequestHandler)
      ensures this.handler == handler
    {
      this.handler := handler;
    }

    /** `process_request`: an unknown verb raises before the transport is touched;
        otherwise exactly one call is made and its response normalised. */
    method ProcessRequest<T>(verb: string, path: string, extraParams: Option<Params> := None,
                             json: Json := JNull, many: bool := false,
                             responseClass: Option<Json -> Result<T>> := None)
      returns (r: Result<Payload<T>>)
      requires Dispatch(verb, path, extraParams, json).Success? ==>
                 IterableWhenMany(handler.respond(Dispatch(verb, path, extraParams, json).value), many)
      modifies handler
      ensures verb !in SupportedVerbs ==>
                r == Failure(NotImplemented(verb)) && handler.sent == old(handler.sent)
      ensures verb in SupportedVerbs ==>
                var call := Dispatch(verb, path, extraParams, json).value;
                && handler.sent == old(handler.sent) + [call]
                && r == HandleResponse(handler.respond(call), many, responseClass)
    {
      var response: Response;
      if verb == "GET" {
        response := handler.Send(Get(path, if extraParams.Some? then extraParams.value else map[], json));
      } else if verb == "POST" {
        response := handler.Send(Post(path, json));
      } else if verb == "DELETE" {
        response := handler.Send(Delete(path, json));
      } else if verb == "PUT" {
        response := handler.Send(Put(path, json));
      } else {
        return Failure(NotImplemented(verb));
      }
      r := HandleResponse(response, many, responseClass);
    }
  }
}

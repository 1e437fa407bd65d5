/** Reading the request payload: `RestAPI::_getJSON` in app.php and `getJSON` in index.php.
    The JSON parser itself is not modelled; its outcome on the raw body is an input. */
module JsonInput {
  import opened Wrappers
  import opened PhpValues

  /** The top-level value `json_decode($raw, true)` produced. */
  datatype TopLevel =
    | TopNull                    // the literal `null`
    | TopArray(fields: Payload)  // an object or a list
    | TopScalar(phpType: string) // a bool, number or string: "bool", "int", "float" or "string"

  /** Decoding the raw body: `json_last_error()` reports an error, or it yields a value. */
  datatype RawDecode = JsonError | Decoded(top: TopLevel)

  /** The request as the payload readers see it: the body the framework parsed (absent when it
      parsed nothing) and the outcome of decoding the raw body. */
  datatype Request = Request(parsedBody: Option<Payload>, rawBody: RawDecode)

  /** What the reader hands its handler.  Both readers are declared `?array`, so returning a
      scalar raises a TypeError naming the scalar's type. */
  datatype JsonResult = Data(fields: Payload) | NullData | ReturnTypeError(phpType: string)

  /** The raw-body branch shared by both readers: any JSON error gives null. */
  function FromRawBody(raw: RawDecode): JsonResult
  {
    match raw
    case JsonError => NullData
    case Decoded(TopNull) => NullData
    case Decoded(TopArray(fields)) => Data(fields)
    case Decoded(TopScalar(t)) => ReturnTypeError(t)
  }

  /** `RestAPI::_getJSON`: the parsed body when it is not empty, otherwise the raw body. */
  function AppGetJson(req: Request): JsonResult
  {
    if req.parsedBody.Some? && |req.parsedBody.value| > 0 then Data(req.parsedBody.value)
    else FromRawBody(req.rawBody)
  }

  /** index.php's `getJSON`: it fetches the parsed body, but then tests the undefined `$data`,
      which is always empty, so it always decodes the raw body. */
  function IndexGetJson(req: Request): JsonResult
  {
    FromRawBody(req.rawBody)
  }

  /** What the framework's JSON body parser leaves as the parsed body: the decoded array, or
      nothing when the body is not a JSON object or list. */
  function JsonMiddlewareParse(raw: RawDecode): Option<Payload>
  {
    if raw.Decoded? && raw.top.TopArray? then Some(raw.top.fields) else None
  }

  /** `RestAPI::_getJSON` gives null exactly when no non-empty body was parsed and the raw body
      is malformed JSON or the literal `null`; it gives data exactly when a non-empty parsed
      body or a decoded array is available, the parsed body winning. */
  lemma AppGetJsonCases(req: Request)
    ensures AppGetJson(req).NullData?
        <==> (req.parsedBody.None? || |req.parsedBody.value| == 0)
             && (req.rawBody.JsonError? || req.rawBody == Decoded(TopNull))
    ensures req.parsedBody.Some? && |req.parsedBody.value| > 0
        ==> AppGetJson(req) == Data(req.parsedBody.value)
    ensures (req.parsedBody.None? || |req.parsedBody.value| == 0) && req.rawBody.Decoded?
            && req.rawBody.top.TopArray?
        ==> AppGetJson(req) == Data(req.rawBody.top.fields)
  {
  }

  /** index.php's reader never looks at the parsed body: two requests with the same raw body
      read the same. */
  lemma IndexIgnoresParsedBody(req1: Request, req2: Request)
    requires req1.rawBody == req2.rawBody
    ensures IndexGetJson(req1) == IndexGetJson(req2)
  {
  }

  /** For a body the framework parsed as JSON, the two readers agree; they differ only on bodies
      the framework parsed some other way, such as a form. */
  lemma ReadersAgreeOnJsonBodies(raw: RawDecode, parsedForIndex: Option<Payload>)
    ensures AppGetJson(Request(JsonMiddlewareParse(raw), raw))
         == IndexGetJson(Request(parsedForIndex, raw))
  {
  }

  /** A form body (parsed by the framework, not JSON on the wire) is data for app.php but null,
      hence "Invalid JSON format", for index.php. */
  lemma FormBodyDivergence(form: Payload)
    requires |form| > 0
    ensures AppGetJson(Request(Some(form), JsonError)) == Data(form)
    ensures IndexGetJson(Request(Some(form), JsonError)) == NullData
  {
  }
}

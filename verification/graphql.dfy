/** The GraphQL transport of the `client` package (internal/client/graphql.go):
    how a request is built and how an HTTP outcome is classified. The HTTP round
    trip itself is not modelled; its outcome is an input (`Reply`). */
module GraphQL {
  import opened Wrappers
  import opened Text

  /** The JSON values that appear in request variables. */
  datatype Json = JStr(s: string) | JInt(n: int) | JObj(fields: map<string, Json>)

  type Vars = map<string, Json>

  const LinearApiUrl: string := "https://api.linear.app/graphql"

  /** A POST request as the server receives it: headers, and the JSON body. */
  datatype Request = Request(httpMethod: string, url: string, headers: map<string, string>, body: Json)

  /** One entry of the response's `errors` list. */
  datatype GqlError = GqlError(message: string)

  /** The decoded response envelope; `data` is the raw JSON text of the `data`
      member, "" when the member is absent. */
  datatype Envelope = Envelope(data: string, errors: seq<GqlError>)

  /** The outcome of a JSON decoding step, which is not modelled byte by byte. */
  datatype Decoding<T> = Decoded(value: T) | Undecodable(cause: string)

  /** What the HTTP round trip produced. `Truncated` is a response whose body
      read broke off before its first JSON value was complete (only
      `partialBody` arrived). A body that fails only
      after that value is `Answered`, since the decoder never reads further. A
      cancelled context surfaces as `TransportFailed`. */
  datatype Reply =
    | TransportFailed(cause: string)
    | Truncated(status: int, statusText: string, partialBody: string, cause: string)
    | Answered(status: int, statusText: string, body: string, envelope: Decoding<Envelope>)

  /** The errors of the `client` package, one constructor per message shape. */
  datatype ClientError =
    | RequestFailed(cause: string)
    | UnexpectedStatus(code: int, body: string)
    | DecodeFailed(cause: string)
    | GraphQLFailed(message: string)
    | UnmarshalFailed(cause: string)
    | ProjectNotFound(identifier: string)
    | UserNotFound
    | CursorMissing
    | CursorStalled(cursor: string)

  /** The text `err.Error()` returns for each error. */
  function Message(e: ClientError): string {
    match e
    case RequestFailed(c) => "request failed: " + c
    case UnexpectedStatus(code, body) => "unexpected status " + IntToDecimal(code) + ": " + body
    case DecodeFailed(c) => "failed to decode response: " + c
    case GraphQLFailed(m) => m
    case UnmarshalFailed(c) => "failed to unmarshal data: " + c
    case ProjectNotFound(id) => "project not found: " + id
    case UserNotFound => "no user found with the provided email"
    case CursorMissing => "pagination error: hasNextPage is true but " + "endCursor is empty"
    case CursorStalled(c) => "pagination error: endCursor " + "did not advance" + " past " + c
  }

  /** The JSON body `{query, variables}`; `variables` is omitted when empty
      (the `omitempty` tag), so a nil and an empty map look the same on the wire. */
  function RequestBody(query: string, variables: Vars): (body: Json)
    ensures body.JObj?
    ensures "query" in body.fields && body.fields["query"] == JStr(query)
    ensures "variables" in body.fields <==> |variables| > 0
    ensures "variables" in body.fields ==> body.fields["variables"] == JObj(variables)
    ensures body.fields.Keys <= {"query", "variables"}
  {
    var withQuery := map["query" := JStr(query)];
    if |variables| > 0 then JObj(withQuery["variables" := JObj(variables)]) else JObj(withQuery)
  }

  /** The request `Do` sends: the API key is the Authorization header verbatim. */
  function BuildRequest(endpoint: string, apiKey: string, query: string, variables: Vars): (req: Request)
    ensures req.httpMethod == "POST" && req.url == endpoint
    ensures "Authorization" in req.headers && req.headers["Authorization"] == apiKey
    ensures "Content-Type" in req.headers && req.headers["Content-Type"] == "application/json"
    ensures req.headers.Keys == {"Authorization", "Content-Type"}
    ensures req.body == RequestBody(query, variables)
  {
    Request("POST", endpoint, map["Authorization" := apiKey, "Content-Type" := "application/json"],
            RequestBody(query, variables))
  }

  /** Whether `Do` unmarshals `data` into the caller's result: only when the
      caller passed a result and `data` is present. */
  predicate Unmarshals(wantResult: bool, data: string) {
    wantResult && |data| > 0
  }

  /** `Do`'s classification of the outcome. `Success(None)` leaves the caller's
      result untouched; `Success(Some(v))` fills it with `v`. */
  function Do<T>(reply: Reply, wantResult: bool, unmarshal: string -> Decoding<T>): (r: Result<Option<T>, ClientError>)
    // a transport failure (including a cancelled context) decodes nothing
    ensures reply.TransportFailed? ==> r == Failure(RequestFailed(reply.cause))
    // a non-200 status is reported with its code and body before any decoding
    ensures reply.Truncated? && reply.status != 200 ==> r == Failure(UnexpectedStatus(reply.status, reply.partialBody))
    ensures reply.Answered? && reply.status != 200 ==> r == Failure(UnexpectedStatus(reply.status, reply.body))
    // a 200 whose body cannot be decoded is a decode failure
    ensures reply.Truncated? && reply.status == 200 ==> r == Failure(DecodeFailed(reply.cause))
    ensures reply.Answered? && reply.status == 200 && reply.envelope.Undecodable? ==>
              r == Failure(DecodeFailed(reply.envelope.cause))
    // the first GraphQL error wins over any data
    ensures reply.Answered? && reply.status == 200 && reply.envelope.Decoded? && |reply.envelope.value.errors| > 0 ==>
              r == Failure(GraphQLFailed(reply.envelope.value.errors[0].message))
    // success exactly for a clean 200 whose data, if wanted and present, unmarshals
    ensures r.Success? <==>
              reply.Answered? && reply.status == 200 && reply.envelope.Decoded?
              && reply.envelope.value.errors == []
              && (Unmarshals(wantResult, reply.envelope.value.data) ==> unmarshal(reply.envelope.value.data).Decoded?)
    // the result is filled only by unmarshalling present data
    ensures r.Success? && r.value.Some? ==>
              reply.Answered? && Unmarshals(wantResult, reply.envelope.value.data)
              && unmarshal(reply.envelope.value.data) == Decoded(r.value.value)
    ensures r.Success? && r.value.None? ==> reply.Answered? && !Unmarshals(wantResult, reply.envelope.value.data)
  {
    match reply
    case TransportFailed(cause) => Failure(RequestFailed(cause))
    case Truncated(status, _, partial, cause) =>
      if status != 200 then Failure(UnexpectedStatus(status, partial)) else Failure(DecodeFailed(cause))
    case Answered(status, _, body, envelope) =>
      if status != 200 then Failure(UnexpectedStatus(status, body))
      else match envelope
        case Undecodable(cause) => Failure(DecodeFailed(cause))
        case Decoded(env) =>
          if |env.errors| > 0 then Failure(GraphQLFailed(env.errors[0].message))
          else if Unmarshals(wantResult, env.data) then
            match unmarshal(env.data)
            case Undecodable(cause) => Failure(UnmarshalFailed(cause))
            case Decoded(v) => Success(Some(v))
          else Success(None)
  }

  /** The message of a GraphQL error is exactly the first error's message. */
  lemma GraphQLErrorMessage<T>(status: int, statusText: string, body: string, data: string,
                               errors: seq<GqlError>, wantResult: bool, unmarshal: string -> Decoding<T>)
    requires |errors| > 0
    ensures var r := Do(Answered(200, statusText, body, Decoded(Envelope(data, errors))), wantResult, unmarshal);
      r.Failure? && Message(r.error) == errors[0].message
  {
  }

  /** The status failure names the code, e.g. "unexpected status 401: Unauthorized". */
  lemma UnexpectedStatusExample()
    ensures Message(UnexpectedStatus(401, "Unauthorized")) == "unexpected status 401: Unauthorized"
  {
  }
}

/** The older API client (internal/api/client.go): its `Query` classifies an
    HTTP outcome much like `GraphQL.Do` but reads the whole body first, names
    errors differently and unmarshals `data` whenever a result is wanted. */
module Api {
  import opened Wrappers
  import opened GraphQL
  import Issues

  /** What the HTTP round trip produced; `statusLine` is Go's `resp.Status`
      ("401 Unauthorized"). `BodyUnreadable`: `io.ReadAll` failed; `firstValue`
      is `Some(d)` when the body's first JSON value had arrived whole before the
      failure, `d` being what decoding it gives. `envelope` is what decoding the
      body's first JSON value gives; `trailing` is `Some(cause)` when that value
      is complete and followed by bytes other than white space, which
      `json.Unmarshal` rejects with `cause` before decoding. */
  datatype ApiReply =
    | ApiTransportFailed(cause: string)
    | BodyUnreadable(status: int, statusLine: string, partialBody: string, cause: string, firstValue: Option<Decoding<Envelope>>)
    | ApiAnswered(status: int, statusLine: string, body: string, envelope: Decoding<Envelope>, trailing: Option<string>)

  datatype ApiError =
    | ApiRequestFailed(cause: string)
    | ReadFailed(cause: string)
    | ApiStatus(statusLine: string, body: string)
    | ParseFailed(cause: string)
    | ApiGraphQL(message: string)
    | ApiUnmarshalFailed(cause: string)
    | CreateFailed

  function ApiMessage(e: ApiError): string {
    match e
    case ApiRequestFailed(c) => "request failed: " + c
    case ReadFailed(c) => "failed to read response: " + c
    case ApiStatus(line, body) => "API error: " + line + " - " + body
    case ParseFailed(c) => "failed to parse response: " + c
    case ApiGraphQL(m) => "GraphQL error: " + m
    case ApiUnmarshalFailed(c) => "failed to unmarshal data: " + c
    case CreateFailed => "failed to create issue"
  }

  /** The request `Query` sends: the stored token is the Authorization header verbatim. */
  function QueryRequest(token: string, query: string, variables: Vars): (req: Request)
    ensures req.url == LinearApiUrl && req.httpMethod == "POST"
    ensures req.headers.Keys == {"Authorization", "Content-Type"}
    ensures req.headers["Authorization"] == token && req.headers["Content-Type"] == "application/json"
    ensures req.body == RequestBody(query, variables)
  {
    BuildRequest(LinearApiUrl, token, query, variables)
  }

  /** `Query`'s classification. `data` is unmarshalled, even when absent, as
      soon as a result is wanted. */
  function Query<T>(reply: ApiReply, wantResult: bool, unmarshal: string -> Decoding<T>): (r: Result<Option<T>, ApiError>)
    ensures reply.ApiTransportFailed? ==> r == Failure(ApiRequestFailed(reply.cause))
    ensures reply.BodyUnreadable? ==> r == Failure(ReadFailed(reply.cause))
    ensures reply.ApiAnswered? && reply.status != 200 ==> r == Failure(ApiStatus(reply.statusLine, reply.body))
    // the whole body must be one JSON value
    ensures reply.ApiAnswered? && reply.status == 200 && reply.trailing.Some? ==>
              r == Failure(ParseFailed(reply.trailing.value))
    ensures reply.ApiAnswered? && reply.status == 200 && reply.trailing.None? && reply.envelope.Undecodable? ==>
              r == Failure(ParseFailed(reply.envelope.cause))
    ensures reply.ApiAnswered? && reply.status == 200 && reply.trailing.None? && reply.envelope.Decoded?
            && |reply.envelope.value.errors| > 0 ==>
              r == Failure(ApiGraphQL(reply.envelope.value.errors[0].message))
    ensures r.Success? <==>
              reply.ApiAnswered? && reply.status == 200 && reply.trailing.None?
              && reply.envelope.Decoded? && reply.envelope.value.errors == []
              && (wantResult ==> unmarshal(reply.envelope.value.data).Decoded?)
    // a nil result skips unmarshalling; otherwise the result is what the data unmarshals to
    ensures r.Success? ==> (r.value.Some? <==> wantResult)
    ensures r.Success? && wantResult ==> unmarshal(reply.envelope.value.data) == Decoded(r.value.value)
  {
    match reply
    case ApiTransportFailed(c) => Failure(ApiRequestFailed(c))
    case BodyUnreadable(_, _, _, c, _) => Failure(ReadFailed(c))
    case ApiAnswered(status, line, body, envelope, trailing) =>
      if status != 200 then Failure(ApiStatus(line, body))
      else if trailing.Some? then Failure(ParseFailed(trailing.value))
      else match envelope
        case Undecodable(c) => Failure(ParseFailed(c))
        case Decoded(env) =>
          if |env.errors| > 0 then Failure(ApiGraphQL(env.errors[0].message))
          else if !wantResult then Success(None)
          else match unmarshal(env.data)
            case Undecodable(c) => Failure(ApiUnmarshalFailed(c))
            case Decoded(v) => Success(Some(v))
  }

  /** The `client` package's view of the same outcome: there, a body that
      cannot be read is an error only through the decoder, and only on status
      200. The stream decoder never looks past the first JSON value, so neither
      a read failure after it nor the bytes that follow it are seen. */
  function AsClientReply(reply: ApiReply): Reply {
    match reply
    case ApiTransportFailed(c) => TransportFailed(c)
    case BodyUnreadable(status, line, partial, c, first) =>
      if first.Some? then Answered(status, line, partial, first.value) else Truncated(status, line, partial, c)
    case ApiAnswered(status, line, body, envelope, _) => Answered(status, line, body, envelope)
  }

  /** The two transports agree on success except that `Query` also unmarshals
      absent data, which `Do` skips, rejects bytes after the JSON value, which
      `Do` ignores, and fails on a read error after that value, which `Do` never
      reaches; a GraphQL failure carries the same first message, prefixed with
      "GraphQL error: " only here. */
  lemma QueryAgreesWithDo<T>(reply: ApiReply, wantResult: bool, unmarshal: string -> Decoding<T>)
    ensures var q := Query(reply, wantResult, unmarshal);
      var d := Do(AsClientReply(reply), wantResult, unmarshal);
      && (q.Success? ==> d.Success?)
      && (d.Success? && !q.Success? ==>
            || reply.BodyUnreadable?
            || reply.trailing.Some?
            || (wantResult && reply.envelope.value.data == "" && unmarshal("").Undecodable?))
      && (d.Success? && reply.BodyUnreadable? ==> reply.firstValue.Some? && q == Failure(ReadFailed(reply.cause)))
      && (d.Success? && reply.ApiAnswered? && reply.trailing.Some? ==> q == Failure(ParseFailed(reply.trailing.value)))
      && (q.Failure? && q.error.ApiGraphQL? ==>
            d.Failure? && d.error.GraphQLFailed? && ApiMessage(q.error) == "GraphQL error: " + Message(d.error))
      && (q.Failure? && q.error.ApiStatus? ==> d.Failure? && d.error.UnexpectedStatus?)
  {
  }

  /** The variables of this client's `ListIssues`: `first` as given (no
      default here), `filter` only when one is given. */
  function ListIssuesVars(first: int, filter: Option<Json>): (vars: Vars)
    ensures "first" in vars && vars["first"] == JInt(first)
    ensures "filter" in vars <==> filter.Some?
    ensures "filter" in vars ==> vars["filter"] == filter.value
    ensures vars.Keys <= {"first", "filter"}
  {
    var withFirst := map["first" := JInt(first)];
    if filter.Some? then withFirst["filter" := filter.value] else withFirst
  }

  /** For a positive page size, a team filter and no cursor, both clients send the same variables. */
  lemma ListIssuesVarsAgree(first: int, teamKey: string)
    requires first > 0 && teamKey != ""
    ensures ListIssuesVars(first, Some(Issues.TeamKeyFilter(teamKey)))
         == Issues.ListIssuesVars(Issues.ListIssuesOptions(teamKey, first, ""))
  {
    var a := ListIssuesVars(first, Some(Issues.TeamKeyFilter(teamKey)));
    var b := Issues.ListIssuesVars(Issues.ListIssuesOptions(teamKey, first, ""));
    assert a.Keys == b.Keys;
  }

  /** The `issueCreate` payload. */
  datatype CreatePayload = CreatePayload(success: bool, issue: Issues.Issue)

  /** `CreateIssue` after the query: a transport error is passed on, and a
      payload without success is an error even though the query succeeded. */
  function CreateIssue(input: Json, send: Vars -> Result<CreatePayload, ApiError>): (r: Result<Issues.Issue, ApiError>)
    ensures send(map["input" := input]).Failure? ==> r == Failure(send(map["input" := input]).error)
    ensures send(map["input" := input]).Success? && !send(map["input" := input]).value.success ==> r == Failure(CreateFailed)
    ensures r.Success? <==> send(map["input" := input]).Success? && send(map["input" := input]).value.success
    ensures r.Success? ==> r.value == send(map["input" := input]).value.issue
  {
    var payload :- send(map["input" := input]);
    if !payload.success then Failure(CreateFailed) else Success(payload.issue)
  }
}

/** The OAuth 2.0 authorisation-code flow with PKCE of the `auth` package
    (internal/auth/oauth.go). Randomness, SHA-256, the browser round trip, the
    token endpoint and the token store are inputs; the model decides what is
    generated, what is sent, what is checked and in which order. */
module OAuth {
  import opened Wrappers
  import opened Base64Url

  const LinearAuthUrl: string := "https://linear.app/oauth/authorize"
  const LinearTokenUrl: string := "https://api.linear.app/oauth/token"
  const RedirectUrl: string := "http://127.0.0.1:8793/callback"

  const VerifierLength: nat := 64
  const StateLength: nat := 32
  const TimeoutReason: string := "timeout waiting for authorization"

  // ---------------------------------------------------------------------------
  // Random strings and PKCE values

  /** What `crypto/rand.Read` did with a buffer: failed, or filled all of it. */
  datatype RandomRead = ReadFailed(cause: string) | Filled(bytes: seq<Byte>)

  /** `generateRandomString(length)`: `length` random bytes, base64url-encoded,
      cut to `length` characters. The encoding of n bytes has at least n
      characters, so the cut is always within bounds. */
  function GenerateRandomString(length: nat, read: RandomRead): (r: Result<string, string>)
    requires read.Filled? ==> |read.bytes| == length
    ensures read.ReadFailed? ==> r == Failure(read.cause)
    ensures read.Filled? ==> r.Success?
    // exactly `length` characters, all from the URL-safe alphabet
    ensures r.Success? ==> |r.value| == length && AllUrlChars(r.value)
    // the leading full groups of the string still decode to the leading random bytes
    ensures r.Success? ==> Decode(r.value[..4 * (length / 4)]) == Some(read.bytes[..3 * (length / 4)])
  {
    match read
    case ReadFailed(cause) => Failure(cause)
    case Filled(bytes) =>
      var s := Encode(bytes)[..length];
      EncodePrefix(bytes, length / 4);
      DecodeEncode(bytes[..3 * (length / 4)]);
      assert s[..4 * (length / 4)] == Encode(bytes)[..4 * (length / 4)];
      Success(s)
  }

  /** The first `k` groups of the encoding are the encoding of the first 3k bytes. */
  lemma EncodePrefix(b: seq<Byte>, k: nat)
    requires 3 * k <= |b|
    ensures 4 * k <= |Encode(b)|
    ensures Encode(b)[..4 * k] == Encode(b[..3 * k])
  {
    assert b == b[..3 * k] + b[3 * k..];
    EncodeAppend(b[..3 * k], b[3 * k..], k);
  }

  /** Bytes that fill whole groups encode independently of what follows them. */
  lemma {:induction false} EncodeAppend(a: seq<Byte>, c: seq<Byte>, k: nat)
    requires |a| == 3 * k
    ensures Encode(a + c) == Encode(a) + Encode(c)
    decreases k
  {
    if k == 0 {
      assert a + c == c;
    } else if |c| == 0 {
      assert a + c == a;
    } else {
      var ac := a + c;
      assert ac[..3] == a[..3] && ac[3..] == a[3..] + c;
      assert Encode(ac) == EncodeGroup(a[..3]) + Encode(a[3..] + c);
      EncodeAppend(a[3..], c, k - 1);
      if k == 1 {
        assert a[..3] == a;
      } else {
        assert Encode(a) == EncodeGroup(a[..3]) + Encode(a[3..]);
      }
    }
  }

  /** The characters a PKCE code verifier may use (section 4.1 of RFC 7636):
      letters, digits, '-', '.', '_' and '~'. */
  predicate IsUnreserved(c: char) {
    ('A' <= c <= 'Z') || ('a' <= c <= 'z') || ('0' <= c <= '9') || c == '-' || c == '.' || c == '_' || c == '~'
  }

  /** A well-formed code verifier: 43 to 128 unreserved characters (section 4.1 of RFC 7636). */
  predicate IsCodeVerifier(v: string) {
    43 <= |v| <= 128 && forall i :: 0 <= i < |v| ==> IsUnreserved(v[i])
  }

  /** `generateCodeVerifier`: 64 random characters. */
  function GenerateCodeVerifier(read: RandomRead): (r: Result<string, string>)
    requires read.Filled? ==> |read.bytes| == VerifierLength
    ensures read.ReadFailed? ==> r == Failure(read.cause)
    ensures read.Filled? ==> r.Success?
    ensures r.Success? ==> |r.value| == VerifierLength && IsCodeVerifier(r.value)
  {
    GenerateRandomString(VerifierLength, read)
  }

  /** A SHA-256 digest: 32 bytes. The hash itself is an input of the model. */
  type Digest = d: seq<Byte> | |d| == 32 witness seq(32, _ => 0)

  /** `generateCodeChallenge` once the verifier is hashed: the unpadded
      base64url encoding of the digest, the S256 method of section 4.2 of RFC 7636. */
  function CodeChallenge(digest: Digest): (c: string)
    ensures |c| == 43 && AllUrlChars(c)
    ensures Decode(c) == Some(digest)
  {
    DecodeEncode(digest);
    Encode(digest)
  }

  /** The authorisation server's S256 check (section 4.6 of RFC 7636). */
  predicate ServerAccepts(sha256: string -> Digest, verifier: string, challenge: string) {
    CodeChallenge(sha256(verifier)) == challenge
  }

  /** The challenge binds the exchange to the verifier: the server accepts the
      verifier the client generated, and any verifier with another digest is refused. */
  lemma ChallengeBindsVerifier(sha256: string -> Digest, verifier: string, other: string)
    requires sha256(other) != sha256(verifier)
    ensures ServerAccepts(sha256, verifier, CodeChallenge(sha256(verifier)))
    ensures !ServerAccepts(sha256, other, CodeChallenge(sha256(verifier)))
  {
    if ServerAccepts(sha256, other, CodeChallenge(sha256(verifier))) {
      EncodeInjective(sha256(other), sha256(verifier));
    }
  }

  // ---------------------------------------------------------------------------
  // Requests

  /** What the authorisation URL carries besides the constants. */
  datatype AuthRequest = AuthRequest(clientId: string, challenge: string, state: string)

  /** What the token request carries besides the constants. */
  datatype TokenRequest = TokenRequest(code: string, verifier: string, clientId: string, clientSecret: string)

  /** The query parameters of the authorisation URL (`buildAuthURL`); the URL is
      `LinearAuthUrl` followed by "?" and these parameters, form-encoded. */
  function AuthParams(a: AuthRequest): (p: map<string, string>)
    ensures p.Keys == {"client_id", "redirect_uri", "response_type", "state", "scope",
                       "code_challenge", "code_challenge_method", "prompt"}
    ensures p["client_id"] == a.clientId && p["redirect_uri"] == RedirectUrl
    ensures p["response_type"] == "code" && p["scope"] == "read write" && p["prompt"] == "consent"
    ensures p["state"] == a.state
    ensures p["code_challenge"] == a.challenge && p["code_challenge_method"] == "S256"
  {
    map["client_id" := a.clientId, "redirect_uri" := RedirectUrl, "response_type" := "code",
        "state" := a.state, "scope" := "read write", "code_challenge" := a.challenge,
        "code_challenge_method" := "S256", "prompt" := "consent"]
  }

  /** The form fields of the token request (`exchangeToken`). */
  function TokenParams(t: TokenRequest): (p: map<string, string>)
    ensures p.Keys == {"grant_type", "code", "redirect_uri", "client_id", "client_secret", "code_verifier"}
    ensures p["grant_type"] == "authorization_code" && p["code"] == t.code
    ensures p["redirect_uri"] == RedirectUrl
    ensures p["client_id"] == t.clientId && p["client_secret"] == t.clientSecret
    ensures p["code_verifier"] == t.verifier
  {
    map["grant_type" := "authorization_code", "code" := t.code, "redirect_uri" := RedirectUrl,
        "client_id" := t.clientId, "client_secret" := t.clientSecret, "code_verifier" := t.verifier]
  }

  /** Both requests of one client name the same client and redirect URI, as
      section 4.1.3 of RFC 6749 requires of a token request following an
      authorisation request. */
  lemma RequestsAgree(a: AuthRequest, t: TokenRequest)
    requires a.clientId == t.clientId
    ensures AuthParams(a)["redirect_uri"] == TokenParams(t)["redirect_uri"]
    ensures AuthParams(a)["client_id"] == TokenParams(t)["client_id"]
  {
  }

  // ---------------------------------------------------------------------------
  // The callback

  /** The query parameters the callback handler reads; absent ones are "". */
  datatype AuthorizationResponse = AuthorizationResponse(code: string, state: string, error: string)

  /** How the wait for the callback ended: a request arrived, or five minutes passed. */
  datatype CallbackWait = Received(response: AuthorizationResponse) | TimedOut

  datatype CallbackError = AuthorizationDenied(reason: string) | StateMismatch | NoCode

  function CallbackMessage(e: CallbackError): string {
    match e
    case AuthorizationDenied(reason) => "authorization error: " + reason
    case StateMismatch => "state mismatch: possible CSRF attack"
    case NoCode => "no authorization code received"
  }

  /** The checks after the wait: an error parameter first, then the state,
      then the presence of a code. */
  function ValidateCallback(resp: AuthorizationResponse, expectedState: string): (r: Result<string, CallbackError>)
    // a code is accepted only from an error-free callback carrying the expected state
    ensures r.Success? <==> resp.error == "" && resp.state == expectedState && resp.code != ""
    ensures r.Success? ==> r.value == resp.code
    ensures resp.error != "" ==> r == Failure(AuthorizationDenied(resp.error))
    ensures resp.error == "" && resp.state != expectedState ==> r == Failure(StateMismatch)
    ensures resp.error == "" && resp.state == expectedState && resp.code == "" ==> r == Failure(NoCode)
  {
    if resp.error != "" then Failure(AuthorizationDenied(resp.error))
    else if resp.state != expectedState then Failure(StateMismatch)
    else if resp.code == "" then Failure(NoCode)
    else Success(resp.code)
  }

  /** The response the wait leaves behind, AS WRITTEN: on a timeout the
      timeout response goes into the channel, not into `result`, so the
      checks see an all-empty response. */
  function WaitResultAsWritten(w: CallbackWait): AuthorizationResponse {
    match w
    case Received(resp) => resp
    case TimedOut => AuthorizationResponse("", "", "")
  }

  function AwaitCallbackAsWritten(w: CallbackWait, expectedState: string): Result<string, CallbackError> {
    ValidateCallback(WaitResultAsWritten(w), expectedState)
  }

  /** As written, a timeout is reported as a CSRF attack whenever a state was
      expected, and the generated state (32 characters) always is. */
  lemma TimeoutReportedAsStateMismatch(expectedState: string)
    requires expectedState != ""
    ensures AwaitCallbackAsWritten(TimedOut, expectedState) == Failure(StateMismatch)
  {
  }

  /** `startCallbackServer` after the wait, as evidently intended: a timeout
      reports the timeout. */
  function AwaitCallback(w: CallbackWait, expectedState: string): (r: Result<string, CallbackError>)
    ensures w.TimedOut? ==> r == Failure(AuthorizationDenied(TimeoutReason))
    ensures w.Received? ==> r == ValidateCallback(w.response, expectedState)
  {
    match w
    case Received(resp) => ValidateCallback(resp, expectedState)
    case TimedOut => ValidateCallback(AuthorizationResponse("", "", TimeoutReason), expectedState)
  }

  /** The correction changes nothing but the timeout, which now says what happened. */
  lemma AwaitCallbackCorrectsOnlyTimeout(w: CallbackWait, expectedState: string)
    ensures w.Received? ==> AwaitCallback(w, expectedState) == AwaitCallbackAsWritten(w, expectedState)
    ensures w.TimedOut? ==> CallbackMessage(AwaitCallback(w, expectedState).error) == "authorization error: " + TimeoutReason
  {
  }

  // ---------------------------------------------------------------------------
  // Token exchange

  datatype TokenData = TokenData(accessToken: string, refreshToken: string, tokenType: string, expiresIn: int)

  datatype TokenParse = Parsed(token: TokenData) | Unparsable(cause: string)

  /** What the token endpoint did. `statusLine` is Go's `resp.Status`, e.g. "400 Bad Request". */
  datatype TokenReply =
    | TokenTransportFailed(cause: string)
    | TokenBodyUnreadable(cause: string)
    | TokenAnswered(status: int, statusLine: string, body: string, parse: TokenParse)

  datatype TokenError =
    | TokenRequestFailed(cause: string)
    | TokenReadFailed(cause: string)
    | TokenRejected(statusLine: string, body: string)
    | TokenUnparsable(cause: string)

  /** Transport and read errors are returned without a prefix of their own. */
  function TokenMessage(e: TokenError): string {
    match e
    case TokenRequestFailed(c) => c
    case TokenReadFailed(c) => c
    case TokenRejected(line, body) => "token exchange failed: " + line + " - " + body
    case TokenUnparsable(c) => "failed to parse token response: " + c
  }

  /** `exchangeToken`'s reading of the reply. */
  function ExchangeToken(reply: TokenReply): (r: Result<TokenData, TokenError>)
    ensures r.Success? <==> reply.TokenAnswered? && reply.status == 200 && reply.parse.Parsed?
    ensures r.Success? ==> r.value == reply.parse.token
    ensures reply.TokenTransportFailed? ==> r == Failure(TokenRequestFailed(reply.cause))
    ensures reply.TokenBodyUnreadable? ==> r == Failure(TokenReadFailed(reply.cause))
    // any status but 200 is refused with the status line and body, whatever the body holds
    ensures reply.TokenAnswered? && reply.status != 200 ==> r == Failure(TokenRejected(reply.statusLine, reply.body))
    ensures reply.TokenAnswered? && reply.status == 200 && reply.parse.Unparsable? ==>
              r == Failure(TokenUnparsable(reply.parse.cause))
  {
    match reply
    case TokenTransportFailed(c) => Failure(TokenRequestFailed(c))
    case TokenBodyUnreadable(c) => Failure(TokenReadFailed(c))
    case TokenAnswered(status, line, body, parse) =>
      if status != 200 then Failure(TokenRejected(line, body))
      else match parse
        case Unparsable(c) => Failure(TokenUnparsable(c))
        case Parsed(t) => Success(t)
  }

  // ---------------------------------------------------------------------------
  // Authenticate

  datatype OAuthError =
    | VerifierFailed(cause: string)
    | StateFailed(cause: string)
    | AuthenticationFailed(callback: CallbackError)
    | ExchangeFailed(token: TokenError)
    | SaveFailed(cause: string)

  function OAuthMessage(e: OAuthError): string {
    match e
    case VerifierFailed(c) => "failed to generate code verifier: " + c
    case StateFailed(c) => "failed to generate state: " + c
    case AuthenticationFailed(ce) => "authentication failed: " + CallbackMessage(ce)
    case ExchangeFailed(te) => "failed to exchange token: " + TokenMessage(te)
    case SaveFailed(c) => "failed to save token: " + c
  }

  datatype OAuthClient = OAuthClient(clientId: string, clientSecret: string)

  /** The world `Authenticate` runs in: the two random reads (verifier, then
      state), the hash, how the wait for the browser ends, the token endpoint
      (which sees the form fields), and the token store (`None` on success). */
  datatype Environment = Environment(
    verifierRead: RandomRead,
    stateRead: RandomRead,
    sha256: string -> Digest,
    callback: CallbackWait,
    tokenEndpoint: map<string, string> -> TokenReply,
    saveToken: TokenData -> Option<string>)

  predicate WellFormed(env: Environment) {
    && (env.verifierRead.Filled? ==> |env.verifierRead.bytes| == VerifierLength)
    && (env.stateRead.Filled? ==> |env.stateRead.bytes| == StateLength)
  }

  /** What one run did: the outcome, the authorisation request shown (if it got
      that far), the token request sent, and the token handed to the store. */
  datatype Trace = Trace(
    result: Outcome<OAuthError>,
    shown: Option<AuthRequest>,
    sent: Option<TokenRequest>,
    stored: Option<TokenData>)

  /** Which wait the flow runs: `startCallbackServer` as written, whose timeout
      reaches the checks as an empty response, or as evidently intended. */
  datatype WaitReading = AsWritten | Intended

  function Await(reading: WaitReading, w: CallbackWait, expectedState: string): Result<string, CallbackError> {
    match reading
    case AsWritten => AwaitCallbackAsWritten(w, expectedState)
    case Intended => AwaitCallback(w, expectedState)
  }

  /** `Authenticate`; `Authenticate(client, env, AsWritten)` is the program. */
  function Authenticate(client: OAuthClient, env: Environment, reading: WaitReading): (t: Trace)
    requires WellFormed(env)
    // random failures stop the flow before anything is shown or sent
    ensures env.verifierRead.ReadFailed? ==> t == Trace(Fail(VerifierFailed(env.verifierRead.cause)), None, None, None)
    ensures env.verifierRead.Filled? && env.stateRead.ReadFailed? ==>
              t == Trace(Fail(StateFailed(env.stateRead.cause)), None, None, None)
    // the state is fresh: 32 URL-safe characters, never the empty state of a bare callback
    ensures t.shown.Some? ==> |t.shown.value.state| == StateLength && AllUrlChars(t.shown.value.state)
    ensures t.shown.Some? ==> t.shown.value.clientId == client.clientId
    // nothing is sent to the token endpoint unless the callback passed every check
    ensures t.sent.Some? ==>
              && t.shown.Some?
              && env.callback.Received?
              && env.callback.response.error == ""
              && env.callback.response.state == t.shown.value.state
              && t.sent.value.code == env.callback.response.code != ""
              && t.sent.value.clientId == client.clientId && t.sent.value.clientSecret == client.clientSecret
    // PKCE: the verifier sent with the code is one the server accepts for the challenge shown
    ensures t.sent.Some? ==> ServerAccepts(env.sha256, t.sent.value.verifier, t.shown.value.challenge)
    ensures t.sent.Some? ==> IsCodeVerifier(t.sent.value.verifier)
    // with both random reads filled the request is shown, carrying the challenge of the verifier and the state
    ensures env.verifierRead.Filled? && env.stateRead.Filled? ==>
              t.shown == Some(AuthRequest(client.clientId,
                                          CodeChallenge(env.sha256(GenerateCodeVerifier(env.verifierRead).value)),
                                          GenerateRandomString(StateLength, env.stateRead).value))
    // a failed wait ends the flow with its error; a passed one sends its code with the verifier
    ensures t.shown.Some? && Await(reading, env.callback, t.shown.value.state).Failure? ==>
              t == Trace(Fail(AuthenticationFailed(Await(reading, env.callback, t.shown.value.state).error)), t.shown, None, None)
    ensures t.shown.Some? && Await(reading, env.callback, t.shown.value.state).Success? ==>
              t.sent == Some(TokenRequest(Await(reading, env.callback, t.shown.value.state).value,
                                          GenerateCodeVerifier(env.verifierRead).value,
                                          client.clientId, client.clientSecret))
    // what the endpoint answers decides the rest: an exchange error, or the token handed to the store
    ensures t.sent.Some? && ExchangeToken(env.tokenEndpoint(TokenParams(t.sent.value))).Failure? ==>
              t.result == Fail(ExchangeFailed(ExchangeToken(env.tokenEndpoint(TokenParams(t.sent.value))).error))
              && t.stored.None?
    ensures t.sent.Some? && ExchangeToken(env.tokenEndpoint(TokenParams(t.sent.value))).Success? ==>
              t.stored == Some(ExchangeToken(env.tokenEndpoint(TokenParams(t.sent.value))).value)
    ensures t.stored.Some? && env.saveToken(t.stored.value).Some? ==>
              t.result == Fail(SaveFailed(env.saveToken(t.stored.value).value))
    // a timeout after the request was shown: as written, the CSRF error; as intended, the timeout
    ensures t.shown.Some? && env.callback.TimedOut? && reading.AsWritten? ==>
              t.result == Fail(AuthenticationFailed(StateMismatch))
    ensures t.shown.Some? && env.callback.TimedOut? && reading.Intended? ==>
              t.result == Fail(AuthenticationFailed(AuthorizationDenied(TimeoutReason)))
    // a token is stored only after the endpoint returned it for the request sent
    ensures t.stored.Some? ==>
              t.sent.Some? && ExchangeToken(env.tokenEndpoint(TokenParams(t.sent.value))) == Success(t.stored.value)
    ensures t.result.Pass? <==> t.stored.Some? && env.saveToken(t.stored.value).None?
  {
    match GenerateCodeVerifier(env.verifierRead)
    case Failure(c) => Trace(Fail(VerifierFailed(c)), None, None, None)
    case Success(verifier) =>
      match GenerateRandomString(StateLength, env.stateRead)
      case Failure(c) => Trace(Fail(StateFailed(c)), None, None, None)
      case Success(state) =>
        var shown := AuthRequest(client.clientId, CodeChallenge(env.sha256(verifier)), state);
        match Await(reading, env.callback, state)
        case Failure(ce) => Trace(Fail(AuthenticationFailed(ce)), Some(shown), None, None)
        case Success(code) =>
          var sent := TokenRequest(code, verifier, client.clientId, client.clientSecret);
          match ExchangeToken(env.tokenEndpoint(TokenParams(sent)))
          case Failure(te) => Trace(Fail(ExchangeFailed(te)), Some(shown), Some(sent), None)
          case Success(token) =>
            match env.saveToken(token)
            case Some(c) => Trace(Fail(SaveFailed(c)), Some(shown), Some(sent), Some(token))
            case None => Trace(Pass, Some(shown), Some(sent), Some(token))
  }

  /** A forged callback, one whose state is not the generated one, never reaches
      the token endpoint and fails with the CSRF message. */
  lemma ForgedCallbackRejected(client: OAuthClient, env: Environment, reading: WaitReading)
    requires WellFormed(env)
    requires env.verifierRead.Filled? && env.stateRead.Filled?
    requires env.callback.Received? && env.callback.response.error == ""
    requires env.callback.response.state != GenerateRandomString(StateLength, env.stateRead).value
    ensures Authenticate(client, env, reading).sent.None?
    ensures Authenticate(client, env, reading).result.Fail?
    ensures Authenticate(client, env, reading).result.error == AuthenticationFailed(StateMismatch)
  {
  }

  /** The corrected wait changes the flow only where a timeout follows the
      shown request: the same request, nothing sent or stored, and the timeout
      reported instead of the CSRF error. */
  lemma AuthenticateReadingsDifferOnlyOnTimeout(client: OAuthClient, env: Environment)
    requires WellFormed(env)
    ensures var w, i := Authenticate(client, env, AsWritten), Authenticate(client, env, Intended);
      && (env.callback.Received? || w.shown.None? ==> w == i)
      && (env.callback.TimedOut? && w.shown.Some? ==>
            && w.result == Fail(AuthenticationFailed(StateMismatch))
            && i == w.(result := Fail(AuthenticationFailed(AuthorizationDenied(TimeoutReason)))))
  {
  }
}

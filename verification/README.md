# Linear CLI — a Dafny model of its decision logic

This project models the pure decision logic of `linear`, a command-line client for
the Linear issue tracker written in Go. The model covers these parts:

- the output formatter (rune-aware truncation, white-space collapsing, tables);
- the GraphQL transport's request and response classification, and the older `api` client's variant of it;
- the issue, project and user queries: variables, cursor pagination, UUID detection and first-match selection;
- API-key resolution over the environment and the system keyring;
- the OAuth 2.0 authorisation-code flow with PKCE (section 4 of RFC 7636);
- the `auth` and `issue` commands: flag validation, lookups, mutation inputs and table rows.

Every network call, keyring, random source, hash and clock is an input. Client calls
are function parameters such as `Vars -> Result<T, ClientError>`. The keyring is a
datatype holding an open error, a map of items, and read/write errors. Randomness is
the bytes `crypto/rand` filled. SHA-256 is a parameter `string -> Digest`. The wait
for the browser is `Received(response) | TimedOut`. Go strings are `seq<char>`, sequences of Unicode scalar values.
Where Go counts bytes (`len(s)` in `isUUID` and in the table separators), the model
counts UTF-8 bytes through `Text.ByteLen`.

Modules, one per source component:

- `Wrappers`: `Option`, `Result` and `Outcome`.
- `Text`: the Go `strings`/`unicode` helpers the code relies on (`unicode.IsSpace`, `Fields`, `Join`, `TrimSpace`, `HasPrefix`, UTF-8 widths, `%d`).
- `Formatter`: internal/output/formatter.go.
- `GraphQL`: internal/client/graphql.go.
- `Issues`: internal/client/issues.go.
- `Projects`: internal/client/projects.go.
- `Users`: internal/client/users.go.
- `Auth`: internal/auth/auth.go.
- `Base64Url`: the unpadded base64url encoding of section 5 of RFC 4648, which the OAuth code uses through Go's `base64.RawURLEncoding`.
- `OAuth`: internal/auth/oauth.go.
- `Api`: internal/api/client.go.
- `AuthCommand`: cmd/auth.go.
- `IssueCommand`: cmd/issue.go.

Notes on where the code and the surrounding material disagree. In each case the model follows the code.

- The repository's tests call `nextPageCursor`, which internal/client/issues.go does not define. `Issues.NextPageCursor` models the guard as the tests describe it, separately from `ListAllIssues`, which has no such guard. The two error messages keep the tested phrases "endCursor is empty" and "did not advance"; the rest of their wording is the model's own.
- cmd/issue.go calls `ListAllIssues(ctx, opts)`. It also sets a `ProjectID` on the list options and an `AssigneeID` on the create input. The client in internal/client/issues.go has `ListAllIssues(ctx, teamKey)`, and its option and input types have neither field. The model keeps the command's view, as `IssueCommand.ListOptions` and `IssueCommand.CreateIssueInput`, and keeps the client's view in `Issues`.
- `Api.Query` unmarshals `data` whenever the caller wants a result, even when `data` is absent. `GraphQL.Do` skips absent data. `Api.Query` parses the whole body with `json.Unmarshal` and so rejects bytes after the JSON value, such as `{"data":{}}x`; `GraphQL.Do` uses a stream decoder, which ignores them. That decoder also stops reading once the first JSON value is complete, so a 200 response whose body fails only after that value is a success for `GraphQL.Do`; `Api.Query` reads the whole body with `io.ReadAll` first and reports "failed to read response". `Api.QueryAgreesWithDo` states that these three are the only differences in their success cases.
- The test files refer to symbols the shown sources lack, for example `keyringOpener`, `removeAPIKey`, `UpdateIssue` and `selectProjectByIdentifier`. Those tests are not modelled. In particular, `Projects.GetProjectByIdentifier` returns the first match unranked, as projects.go:147-148 does, not the exact-name match those tests expect.

## Model

| member | source | states |
|---|---|---|
| Formatter.TruncateString | internal/output/formatter.go:67-82 | the result has at most max(maxLen,0) runes and is "" when maxLen ≤ 0; a string that fits is unchanged; a longer one is cut to exactly maxLen runes: the first maxLen runes when maxLen ≤ 3, else the first maxLen−3 runes followed by "..." |
| Formatter.TruncateIdempotent | internal/output/formatter.go:67-82 | truncating a truncated string again changes nothing |
| Formatter.CollapseWhitespace | internal/output/formatter.go:87-89 | the result is the fields of the input, `strings.Fields` of the text before the line-break replacements, joined by single spaces; it has single inner spaces only, keeps every non-space character in order, and is empty exactly for white-space-only input |
| Formatter.FormatMultilineString | internal/output/formatter.go:85-92 | the result is the collapsed text truncated to maxLen runes like any other string; it has no line break and at most max(maxLen,0) runes, is "" for white-space-only input and is the collapsed string itself when that fits |
| Formatter.CollapseIdempotent | internal/output/formatter.go:87-89 | collapsing collapsed text changes nothing |
| Formatter.CollapseIsJoinOfFields | internal/output/formatter.go:87-89 | the line-break replacements do not change the fields, so the collapsed string is the fields of the input joined by single spaces |
| Formatter.AddRow | internal/output/formatter.go:35-37 | one row is appended at the end; the headers and earlier rows are unchanged |
| Formatter.Lines | internal/output/formatter.go:45-64 | the printed lines are the header line, a separator whose i-th cell is '-' repeated len(header i) bytes, then one line per row, in insertion order |
| Formatter.AddRowAppendsLine | internal/output/formatter.go:35-37 | adding a row adds exactly one line at the end of the output (see also lines 59-61) |
| Formatter.EmptyTablePrintsHeader | internal/output/formatter.go:49-56 | a table without rows prints only the header and the separator |
| Formatter.TruncateExamples | internal/output/formatter.go:67-82 | concrete truncations: "hello world" to 8 is "hello...", maxLen 2 and 3 cut without an ellipsis, and runes, not bytes, are counted |
| Text.TrimSpace | cmd/auth.go:41 | `strings.TrimSpace`: the result is a slice of the input with no white space at either end, and it is empty exactly for white-space-only input |
| Text.TrimTrailingPadding | cmd/auth.go:35-41 | a trimmed key followed by white space, such as the newline `ReadString` keeps, trims back to the key |
| GraphQL.RequestBody | internal/client/graphql.go:38-41 | the body carries the query verbatim, and carries the variables verbatim exactly when there are any (see also lines 54-57) |
| GraphQL.BuildRequest | internal/client/graphql.go:54-70 | a POST to the endpoint with exactly the headers Authorization = the API key and Content-Type = application/json |
| GraphQL.Do | internal/client/graphql.go:53-99 | a transport failure decodes nothing; a status other than 200 is "unexpected status" with code and body before any decoding; an undecodable body is a decode error; the first GraphQL error wins over data; success means a clean 200 whose present data, if wanted, unmarshals; a nil result or empty data skips unmarshalling |
| GraphQL.GraphQLErrorMessage | internal/client/graphql.go:88-90 | the error's message is exactly the first GraphQL error's message |
| GraphQL.UnexpectedStatusExample | internal/client/graphql.go:78-81 | status 401 reads "unexpected status 401: Unauthorized" |
| Issues.EffectiveLimit | internal/client/issues.go:130-138 | the page size is the limit when positive, else 50 |
| Issues.ListIssuesVars | internal/client/issues.go:130-152 | `first` is always sent; `after` is sent exactly when the cursor is non-empty; `filter` is sent exactly when the team key is non-empty, as {team:{key:{eq:key}}}; nothing else is sent |
| Issues.ListIssuesVarsRoundTrip | internal/client/issues.go:130-152 | the variables carry team key, cursor and defaulted limit losslessly |
| Issues.Paginate | internal/client/issues.go:170-183 | each request keeps the team key and page size; request k+1 is made only after page k claimed a next page and starts at its end cursor |
| Issues.ListAllIssues | internal/client/issues.go:163-186 | every request asks for 100 issues of the given team, and the first one has no cursor |
| Issues.PaginateOutcome | internal/client/issues.go:170-185 | at the first page that stops (an error, or no next page) at index k, the run has made k+1 requests and returns the nodes of pages 0..k concatenated in server order, or that error with no partial result; with no stopping page it uses up the script |
| Issues.StalledServerNeverFinishes | internal/client/issues.go:170-183 | a server that repeats one cursor while claiming a next page keeps the loop requesting for as long as the script lasts |
| Issues.NextPageCursor | internal/client/issues_test.go:641-683 | no next page gives ("", false); a claimed next page with an empty end cursor fails with the missing-cursor error, and one with a non-empty end cursor equal to the current cursor fails with the did-not-advance error naming that cursor; these are the only failures; otherwise the new cursor |
| Issues.NextPageCursorTestedMessages | internal/client/issues_test.go:641-667 | the empty-cursor error's message contains "endCursor is empty" and the unchanged-cursor error's message contains "did not advance" |
| Issues.GuardRejectsExactlyTheStalls | internal/client/issues_test.go:641-683 | the guard rejects exactly the steps where `ListAllIssues` would re-request with an empty or unchanged cursor |
| Issues.TwoPageScenario | internal/client/issues_test.go:619-638 | two pages give two requests, the second after "cursor-1", and both pages' issues in order |
| Projects.IsUuidIff | internal/client/projects.go:152-169 | `isUUID` holds exactly for 36 characters with '-' at 8, 13, 18 and 23 and a hex digit of either case everywhere else |
| Projects.ScanUuidSpec | internal/client/projects.go:158-167 | the byte-offset scan accepts exactly when every character fits its position |
| Projects.IsUuidRejectsLength | internal/client/projects.go:154-156 | any length other than 36 is rejected |
| Projects.GroupsFormUuid | internal/client/projects.go:152-169 | hex groups of 8, 4, 4, 4 and 12 joined by dashes are accepted |
| Projects.IsUuidAcceptsCanonical | internal/client/projects.go:152-169 | a canonical UUID is accepted |
| Projects.IsUuidRejectsExamples | internal/client/projects.go:152-169 | the undashed 32-digit form, a name and "" are rejected |
| Projects.ProjectsByTeamVars | internal/client/projects.go:49-59 | the only filter is accessibleTeams.some.id.eq = teamID |
| Projects.GetProjectsByTeam | internal/client/projects.go:37-67 | the nodes or the error of the query are returned unchanged |
| Projects.NameFilter | internal/client/projects.go:117-132 | the filter always holds name.containsIgnoreCase = identifier, and holds the accessibleTeams clause exactly when teamID is non-empty |
| Projects.GetProjectByIdentifier | internal/client/projects.go:72-149 | a UUID is looked up by id, and a null project is "project not found: <identifier>"; any other identifier is searched by name, where an empty list is "project not found" and otherwise the first node is returned; query errors pass through |
| Projects.GetProjectAnswersFromServer | internal/client/projects.go:72-149 | a found project is one the server answered, and "project not found" occurs exactly when the server answered nothing |
| Projects.NameSearchUsesTeamClause | internal/client/projects.go:49-59 | the scoped name search uses the same team clause as the team listing (see also lines 124-132) |
| Users.EmailVars | internal/client/users.go:27-29 | the only variable is `email`, verbatim |
| Users.GetUserByEmail | internal/client/users.go:14-43 | errors propagate unchanged; an empty list is "no user found with the provided email"; otherwise the first node |
| Users.GetUserByEmailAnswersFromServer | internal/client/users.go:33-42 | a found user is one the server listed; "no user found" occurs only for an empty answer |
| Auth.GetAPIKey | internal/auth/auth.go:18-39 | a non-empty LINEAR_API_KEY wins without touching the keyring; otherwise an open failure, a missing key and other read failures each give their own error, and a present key is returned as stored |
| Auth.SaveAPIKey | internal/auth/auth.go:42-59 | on success exactly the "api-key" item is set to the key; on failure the keyring is untouched, with distinct open and write errors |
| Auth.GetAuthStatus | internal/auth/auth.go:62-83 | the source strings "Environment variable (LINEAR_API_KEY)", "System keyring" and "Not authenticated", with the same precedence as `GetAPIKey` |
| Auth.StatusAgreesWithGetAPIKey | internal/auth/auth.go:18-39 | the status is authenticated exactly when `GetAPIKey` succeeds, and an unauthenticated status describes the failure `GetAPIKey` reports (see also lines 62-83) |
| Auth.SaveThenGet | internal/auth/auth.go:42-59 | after a successful save, `GetAPIKey` with the variable unset returns the saved key (see also lines 18-39) |
| Auth.EnvShadowsSavedKey | internal/auth/auth.go:20-22 | the environment variable shadows the keyring |
| Auth.SaveOverwrites | internal/auth/auth.go:48-53 | saving twice is saving the later key once |
| Base64Url.Encode | internal/auth/oauth.go:238 | n bytes encode to ⌈4n/3⌉ ≥ n characters of the URL-safe alphabet |
| Base64Url.DecodeEncode | internal/auth/oauth.go:238 | decoding inverts encoding (see also line 229) |
| Base64Url.EncodeInjective | internal/auth/oauth.go:229 | distinct byte strings have distinct encodings |
| OAuth.GenerateRandomString | internal/auth/oauth.go:233-239 | a read failure is returned; otherwise exactly `length` URL-safe characters, because the cut stays within the encoding; their full groups decode to the leading random bytes |
| OAuth.EncodePrefix | internal/auth/oauth.go:238 | the first k groups of an encoding encode the first 3k bytes |
| OAuth.EncodeAppend | internal/auth/oauth.go:238 | bytes that fill whole three-byte groups encode independently of the bytes after them |
| OAuth.GenerateCodeVerifier | internal/auth/oauth.go:222-224 | the verifier has 64 unreserved characters, inside the 43..128 range of section 4.1 of RFC 7636 |
| OAuth.CodeChallenge | internal/auth/oauth.go:227-230 | the S256 challenge is 43 base64url characters that decode to the verifier's digest |
| OAuth.ChallengeBindsVerifier | internal/auth/oauth.go:227-230 | the server's S256 check accepts the client's verifier and rejects any verifier with another digest |
| OAuth.AuthParams | internal/auth/oauth.go:86-99 | exactly client_id, redirect_uri = the redirect URL, response_type=code, state, scope, code_challenge, code_challenge_method=S256 and prompt |
| OAuth.TokenParams | internal/auth/oauth.go:181-188 | grant_type=authorization_code, the code, the same redirect_uri, client id and secret, and code_verifier = the verifier |
| OAuth.RequestsAgree | internal/auth/oauth.go:86-99 | both requests of one client name the same client and redirect URI (see also lines 181-188) |
| OAuth.ValidateCallback | internal/auth/oauth.go:164-176 | a provider error comes first, then a state mismatch, then a missing code; a code is returned only from an error-free callback with the expected state |
| OAuth.TimeoutReportedAsStateMismatch | internal/auth/oauth.go:155-170 | as written, a timeout leaves `result` empty and is reported as a state mismatch |
| OAuth.AwaitCallback | internal/auth/oauth.go:155-176 | as intended, a timeout reports "timeout waiting for authorization"; a received callback is validated |
| OAuth.AwaitCallbackCorrectsOnlyTimeout | internal/auth/oauth.go:155-176 | the correction changes only the timeout outcome |
| OAuth.ExchangeToken | internal/auth/oauth.go:198-218 | transport and read errors pass through; any status other than 200 is "token exchange failed" with status and body; an unparsable body is an error; otherwise the parsed token |
| OAuth.Authenticate | internal/auth/oauth.go:41-83 | with the as-written wait (the program), a timeout after the request was shown fails with the CSRF state-mismatch error; with the corrected wait it fails with the timeout. In both readings: random failures stop the flow before anything is shown or sent; with both reads filled the request shown carries the verifier's challenge and the generated state; a failed wait ends the flow with its error and sends nothing; a passed wait sends its code with the verifier, client id and secret; an exchange error ends the flow, and an exchanged token is always handed to the store, whose failure is reported; the state is 32 fresh URL-safe characters; the code is sent only after a callback with that state and no error; the verifier sent is accepted for the challenge shown; a token is stored only after the endpoint returned it; success iff stored and saved |
| OAuth.AuthenticateReadingsDifferOnlyOnTimeout | internal/auth/oauth.go:155-176 | the program's flow and the corrected flow give the same trace except when the wait times out after the request was shown, where only the error differs: state mismatch as written, the timeout as intended |
| OAuth.ForgedCallbackRejected | internal/auth/oauth.go:164-170 | a callback with a foreign state never reaches the token endpoint and fails with the CSRF error |
| Api.QueryRequest | internal/api/client.go:52-68 | a POST with exactly Authorization = the token and Content-Type = application/json |
| Api.Query | internal/api/client.go:51-101 | request and read failures, "API error: <status> - <body>" for a status other than 200, parse failures (trailing bytes after the JSON value included), "GraphQL error: " with the first message, and unmarshalling exactly when a result is wanted |
| Api.QueryAgreesWithDo | internal/api/client.go:51-101 | `Query` succeeds only where `Do` does, and fails where `Do` succeeds only on a read error after the first JSON value (reported as "failed to read response"), on trailing bytes after that value (a parse failure), or on absent data; GraphQL errors differ only by the "GraphQL error: " prefix |
| Api.ListIssuesVars | internal/api/client.go:169-174 | `first` is always sent, and `filter` exactly when one is given |
| Api.ListIssuesVarsAgree | internal/api/client.go:169-174 | for a positive size and a team filter, both clients send the same variables |
| Api.CreateIssue | internal/api/client.go:237-272 | query errors pass through; success=false is "failed to create issue" even though the query succeeded; otherwise the returned issue |
| AuthCommand.Login | cmd/auth.go:30-59 | the first line of standard input is read through its newline, and input that stops before one fails with the read's error ("EOF" at end of file) and saves nothing; the line is trimmed; a white-space-only line is refused and nothing is saved; a missing "lin_api_" prefix only warns; the saved value is the trimmed line, and the keyring changes only on success |
| AuthCommand.ReadLine | cmd/auth.go:34-39 | `ReadString('\n')`: a line is returned exactly when the input holds a newline, and it is the input's prefix through the first one; otherwise the error the input stops with, "EOF" at end of file |
| AuthCommand.ReadLineFirst | cmd/auth.go:34-35 | a first line without a newline is read as that line plus its newline, whatever follows |
| AuthCommand.KeyWithoutNewlineRefused | cmd/auth.go:34-39 | a key typed without a final newline fails with "EOF" and leaves the keyring untouched |
| AuthCommand.LoginSeesTrimmedLine | cmd/auth.go:41-51 | two inputs whose first lines trim alike give the same login run |
| AuthCommand.LoginIgnoresPadding | cmd/auth.go:35-41 | white space typed after the key, and anything after the first line, make no difference to the login |
| AuthCommand.LoginThenGetAPIKey | cmd/auth.go:41-51 | after login the key reads back as the trimmed first line |
| AuthCommand.StatusLines | cmd/auth.go:66-77 | "Status: Authenticated" then "Source: <source>"; or "Status: Not authenticated", a blank line, and the two login hints |
| AuthCommand.StatusMatchesGetAPIKey | cmd/auth.go:66-77 | the status reads authenticated exactly when a key can be found, and names its source |
| IssueCommand.Connect | internal/client/graphql.go:24-35 | `client.NewClient` fails exactly when no API key is found, and the command's error then carries the key lookup's error |
| IssueCommand.TeamIdOf | cmd/issue.go:267-277 | a team lookup error and an empty team list give distinct errors; otherwise the first team's id |
| IssueCommand.ResolveListProject | cmd/issue.go:55-80 | no project filter means no lookup; otherwise the project is looked up, scoped to the `--team` team when one is given |
| IssueCommand.PlanList | cmd/issue.go:45-106 | the client is created first and its failure is reported before any lookup; the plan succeeds exactly when the client and the project lookup do; the options carry the team, the resolved project and `--limit`; `--all` selects every page, otherwise a single page |
| IssueCommand.FetchIssues | cmd/issue.go:90-106 | either call's error becomes "Error fetching issues"; otherwise all pages' issues, or the single page's nodes |
| IssueCommand.DefaultListRequest | cmd/issue.go:84-106 | without flags, once the client is created, a single page of 50 issues is requested, as it is for any non-positive limit (see also lines 472-473) |
| IssueCommand.IssueRow | cmd/issue.go:118-140 | a row is [identifier, title cut to 50, state name or "-", assignee name or "-", priority label or "-"] |
| IssueCommand.IssueTable | cmd/issue.go:117-141 | the table has the five headers and one row per issue, in server order |
| IssueCommand.IssueTableLines | cmd/issue.go:117-142 | the printed lines are the header, the separator and one five-cell line per issue |
| IssueCommand.ValidateCreate | cmd/issue.go:247-255 | an empty title is rejected before the team is checked, then an empty team |
| IssueCommand.AssigneeIdOf | cmd/issue.go:304-311 | no assignee means no lookup; a lookup error is "Error fetching user by email"; otherwise the user's id |
| IssueCommand.PlanCreate | cmd/issue.go:246-312 | validation comes first, then client creation, then the team, project and assignee lookups, and the first failure is the command's error (no API key, the team error, "Error fetching project", "Error fetching user by email"); the plan succeeds exactly when validation and every call made succeed; the input carries the title, description, team id, the project found within that team, and the assignee's id |
| IssueCommand.CreateSendsOnlyGivenFields | cmd/issue.go:292-312 | a description is sent exactly when one was given; a project or assignee only when one was asked for |
| IssueCommand.CheckMutation | cmd/issue.go:314-328 | a request error, success=false and a missing issue each give their own error, in that order; otherwise the reported issue (see also lines 436-450) |
| IssueCommand.ValidateUpdate | cmd/issue.go:362-385 | accepted exactly when some field changed, a changed title or project is non-empty, and a changed priority lies in 0..4; the first failing check in the order nothing changed, empty title, empty project, priority out of range names the error |
| IssueCommand.UpdateValidationExamples | cmd/issue.go:382-385 | priorities 0 and 4 pass and -1 and 5 fail; an empty description may be set; an empty title may not (see also lines 402-404) |
| IssueCommand.PlanUpdate | cmd/issue.go:359-434 | validation comes first, then client creation, then, for a changed project, the issue fetch ("Error fetching issue", or not found) and the project lookup ("Error fetching project"), and the first failure is the command's error; the plan succeeds exactly when validation and every call made succeed; each input field is set exactly when its flag changed; a changed project is resolved within the issue's team, or with no team when it has none, after the issue is found |
| IssueCommand.UpdateSetsExactlyChangedFields | cmd/issue.go:396-408 | an update input sets exactly the fields whose flags changed, and never none (see also line 433) |

## Left out

- Network, JSON and HTTP: the transports are function parameters. A decoded outcome stands for the bytes on the wire, and the GraphQL query strings are not modelled.
- internal/config/config.go (token encryption and file storage) is not part of this model. Saving the OAuth token is a parameter.
- The OAuth loopback server, its goroutine, the channel and the five-minute `time.After` race, the browser prompt and the HTTP POST of the token exchange are not modelled. The wait is an input: a received callback or a timeout. SHA-256 is a parameter.
- `openKeyring`'s backend configuration is a foreign library. The keyring is an abstract store.
- `buildAuthURL`'s form encoding of the URL: the model states the parameter map, not its `url.Values.Encode` text.
- Contexts, the 30-second timeouts and cancellation are not modelled. A cancelled request is a transport failure.
- `PrintJSON`, the `--json` output, tab-writer column alignment, cobra wiring, `os.Exit`, the `issue view` command and the success messages after a mutation are presentation glue.
- internal/client/teams.go, `ListProjects`, internal/client/client.go and internal/api/types.go are pass-through queries or data declarations.
- `IssueCommand.ListOptions`: the project id reaches the client's one-page request only through the command's options record. `IssueCommand.PageRequest` drops it, because the client's `ListIssuesOptions` has no such field.
- Issues.ListAllIssues: termination is not claimed. The loop is modelled over a finite script of replies, and a script that runs out while a next page is still claimed ends in `ScriptExhausted`.
- Invalid UTF-8 in a Go string is not represented. Strings are sequences of Unicode scalar values, so the `[]rune` conversion in `TruncateString`, which maps each invalid byte to U+FFFD, is modelled only for valid text.
- Base64Url.Decode is the partner of the encoder only. The model does not restate Go's decoder, which `generateRandomString` never calls.

## Findings

| source | as written | input that shows it | evidently intended | confidence | as-written member | corrected member |
|---|---|---|---|---|---|---|
| internal/auth/oauth.go:155-170 | on a timeout, the response with the error "timeout waiting for authorization" is sent into the buffered channel, not assigned to `result`; the checks then see an empty response and, because the expected state is 32 characters, report "state mismatch: possible CSRF attack" | the wait ends by `TimedOut` with any non-empty expected state | the timeout is reported as "authorization error: timeout waiting for authorization" | high; not executed | OAuth.TimeoutReportedAsStateMismatch | OAuth.AwaitCallback |

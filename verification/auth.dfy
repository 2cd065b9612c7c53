/** API-key storage of the `auth` package (internal/auth/auth.go): the
    environment variable takes precedence over the system keyring. The keyring
    backend is a value: whether it opens, what it holds, and whether reads or
    writes fail. */
module Auth {
  import opened Wrappers
  import opened Text

  const KeyringService: string := "linear-cli"
  const KeyringKey: string := "api-key"
  const EnvVarName: string := "LINEAR_API_KEY"

  /** A keyring as seen by one call. `openError`: the backend cannot be opened;
      `getError`/`setError`: reads or writes of an item fail with that cause
      (a missing item is not a read error). */
  datatype Keyring = Keyring(
    openError: Option<string>,
    items: map<string, string>,
    getError: Option<string>,
    setError: Option<string>)

  /** The answer of `ring.Get`: the item, `ErrKeyNotFound`, or another error. */
  datatype Lookup = Found(data: string) | KeyNotFound | ReadFault(cause: string)

  function Get(ring: Keyring, key: string): (l: Lookup)
    ensures l.Found? ==> key in ring.items && l.data == ring.items[key]
    ensures l.KeyNotFound? <==> ring.getError.None? && key !in ring.items
  {
    if ring.getError.Some? then ReadFault(ring.getError.value)
    else if key in ring.items then Found(ring.items[key])
    else KeyNotFound
  }

  datatype AuthError =
    | KeyringUnavailable(cause: string)
    | NoApiKey
    | KeyringReadFailed(cause: string)
    | KeyringWriteFailed(cause: string)

  function Message(e: AuthError): string {
    match e
    case KeyringUnavailable(c) => "failed to access keyring: " + c
    case NoApiKey => "no API key found. Run 'linear auth login' or set LINEAR_API_KEY environment variable"
    case KeyringReadFailed(c) => "failed to retrieve API key from keyring: " + c
    case KeyringWriteFailed(c) => "failed to save API key to keyring: " + c
  }

  /** `GetAPIKey`. `env` is the value of LINEAR_API_KEY, "" when unset (Go's
      `os.Getenv` does not tell the two apart). */
  function GetAPIKey(env: string, ring: Keyring): (r: Result<string, AuthError>)
    // a non-empty environment value wins without touching the keyring
    ensures env != "" ==> r == Success(env)
    // otherwise the keyring decides, and each failure has its own error
    ensures env == "" && ring.openError.Some? ==> r == Failure(KeyringUnavailable(ring.openError.value))
    ensures env == "" && ring.openError.None? ==>
      match Get(ring, KeyringKey)
      case Found(d) => r == Success(d)
      case KeyNotFound => r == Failure(NoApiKey)
      case ReadFault(c) => r == Failure(KeyringReadFailed(c))
    // only reads: a write failure never shows here
    ensures r.Failure? ==> !r.error.KeyringWriteFailed?
  {
    if env != "" then Success(env)
    else if ring.openError.Some? then Failure(KeyringUnavailable(ring.openError.value))
    else match Get(ring, KeyringKey)
      case Found(d) => Success(d)
      case KeyNotFound => Failure(NoApiKey)
      case ReadFault(c) => Failure(KeyringReadFailed(c))
  }

  /** `SaveAPIKey`: the keyring afterwards, and whether the save succeeded. */
  function SaveAPIKey(ring: Keyring, apiKey: string): (res: (Keyring, Outcome<AuthError>))
    // on success exactly the "api-key" item is set, to the key verbatim
    ensures res.1.Pass? ==> res.0 == ring.(items := ring.items[KeyringKey := apiKey])
    // on failure the keyring is untouched
    ensures res.1.Fail? ==> res.0 == ring
    ensures res.1.Pass? <==> ring.openError.None? && ring.setError.None?
    ensures ring.openError.Some? ==> res.1 == Fail(KeyringUnavailable(ring.openError.value))
    ensures ring.openError.None? && ring.setError.Some? ==> res.1 == Fail(KeyringWriteFailed(ring.setError.value))
  {
    if ring.openError.Some? then (ring, Fail(KeyringUnavailable(ring.openError.value)))
    else if ring.setError.Some? then (ring, Fail(KeyringWriteFailed(ring.setError.value)))
    else (ring.(items := ring.items[KeyringKey := apiKey]), Pass)
  }

  /** `GetAuthStatus`: a description of the credential source, and whether there is one. */
  function GetAuthStatus(env: string, ring: Keyring): (status: (string, bool))
    ensures env != "" ==> status == ("Environment variable (LINEAR_API_KEY)", true)
    ensures env == "" && ring.openError.Some? ==> status == ("Error accessing keyring: " + ring.openError.value, false)
    ensures env == "" && ring.openError.None? ==>
      match Get(ring, KeyringKey)
      case Found(_) => status == ("System keyring", true)
      case KeyNotFound => status == ("Not authenticated", false)
      case ReadFault(c) => status == ("Error reading keyring: " + c, false)
  {
    if env != "" then ("Environment variable (LINEAR_API_KEY)", true)
    else if ring.openError.Some? then ("Error accessing keyring: " + ring.openError.value, false)
    else match Get(ring, KeyringKey)
      case Found(_) => ("System keyring", true)
      case KeyNotFound => ("Not authenticated", false)
      case ReadFault(c) => ("Error reading keyring: " + c, false)
  }

  /** How the status line describes a failed key lookup. */
  function StatusText(e: AuthError): string {
    match e
    case KeyringUnavailable(c) => "Error accessing keyring: " + c
    case NoApiKey => "Not authenticated"
    case KeyringReadFailed(c) => "Error reading keyring: " + c
    case KeyringWriteFailed(c) => Message(e)  // a lookup never fails on a write
  }

  /** The status reports "authenticated" exactly when `GetAPIKey` yields a key,
      and an unauthenticated status describes the very failure `GetAPIKey` reports. */
  lemma StatusAgreesWithGetAPIKey(env: string, ring: Keyring)
    ensures GetAuthStatus(env, ring).1 <==> GetAPIKey(env, ring).Success?
    ensures GetAPIKey(env, ring).Failure? ==> GetAuthStatus(env, ring).0 == StatusText(GetAPIKey(env, ring).error)
    ensures GetAPIKey(env, ring).Success? ==>
      GetAuthStatus(env, ring).0 == (if env != "" then "Environment variable (LINEAR_API_KEY)" else "System keyring")
  {
  }

  /** Saving then reading back, with the variable unset, yields the saved key. */
  lemma SaveThenGet(ring: Keyring, apiKey: string)
    requires ring.getError.None?
    requires SaveAPIKey(ring, apiKey).1.Pass?
    ensures GetAPIKey("", SaveAPIKey(ring, apiKey).0) == Success(apiKey)
    ensures GetAuthStatus("", SaveAPIKey(ring, apiKey).0) == ("System keyring", true)
  {
  }

  /** The environment variable shadows whatever a save put in the keyring. */
  lemma EnvShadowsSavedKey(env: string, ring: Keyring, apiKey: string)
    requires env != "" && env != apiKey
    ensures GetAPIKey(env, SaveAPIKey(ring, apiKey).0) != Success(apiKey)
  {
  }

  /** Saving twice is saving once with the later key. */
  lemma SaveOverwrites(ring: Keyring, first: string, second: string)
    requires SaveAPIKey(ring, first).1.Pass?
    ensures SaveAPIKey(SaveAPIKey(ring, first).0, second) == SaveAPIKey(ring, second)
  {
    assert ring.items[KeyringKey := first][KeyringKey := second] == ring.items[KeyringKey := second];
  }
}

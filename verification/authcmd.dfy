/** The `auth` commands (cmd/auth.go): `login` reads one line, trims it and
    saves it as the API key; `status` prints the credential source. */
module AuthCommand {
  import opened Wrappers
  import opened Text
  import Auth

  const KeyPrefix: string := "lin_api_"

  /** Standard input: the text the reads deliver, and how they stop after it
      (`None`: end of file; `Some(cause)`: a read error). */
  datatype Stdin = Stdin(text: string, stop: Option<string>)

  /** What reading the line from standard input gave. */
  datatype LineRead = LineFailed(cause: string) | Line(text: string)

  /** One line as `ReadString('\n')` returns it: ending with its only newline. */
  predicate IsLine(t: string) {
    |t| > 0 && t[|t| - 1] == '\n' && forall i :: 0 <= i < |t| - 1 ==> t[i] != '\n'
  }

  /** Go's message for end of file. */
  const EofCause: string := "EOF"

  /** `bufio.Reader.ReadString('\n')`: the text through the first newline, or,
      when the input stops before one, the error it stops with. */
  function ReadLine(stdin: Stdin): (r: LineRead)
    ensures r.Line? <==> !NoNewline(stdin.text)
    ensures r.Line? ==> IsLine(r.text) && |r.text| <= |stdin.text| && stdin.text[..|r.text|] == r.text
    ensures r.LineFailed? ==> r.cause == (if stdin.stop.Some? then stdin.stop.value else EofCause)
    decreases |stdin.text|
  {
    if |stdin.text| == 0 then LineFailed(if stdin.stop.Some? then stdin.stop.value else EofCause)
    else if stdin.text[0] == '\n' then Line("\n")
    else match ReadLine(stdin.(text := stdin.text[1..]))
      case LineFailed(c) => LineFailed(c)
      case Line(rest) =>
        assert forall i :: 1 <= i < |stdin.text| ==> stdin.text[i] == stdin.text[1..][i - 1];
        Line([stdin.text[0]] + rest)
  }

  /** A first line without a newline in it is read up to and including the newline that ends it. */
  lemma {:induction false} ReadLineFirst(line: string, rest: string, stop: Option<string>)
    requires NoNewline(line)
    ensures ReadLine(Stdin(line + "\n" + rest, stop)) == Line(line + "\n")
    decreases |line|
  {
    var s := line + "\n" + rest;
    if |line| > 0 {
      assert s[1..] == line[1..] + "\n" + rest;
      ReadLineFirst(line[1..], rest, stop);
      assert [line[0]] + (line[1..] + "\n") == line + "\n";
    }
  }

  /** How `login` ended. */
  datatype LoginExit = LoggedIn | InputFailed(cause: string) | EmptyKey | SaveFailed(error: Auth.AuthError)

  /** The error line `login` prints before exiting with status 1. */
  function LoginErrorLine(e: LoginExit): string {
    match e
    case LoggedIn => ""
    case InputFailed(c) => "Error reading input: " + c
    case EmptyKey => "Error: API key cannot be empty"
    case SaveFailed(err) => "Error saving API key: " + Auth.Message(err)
  }

  /** One run of `login`: the keyring afterwards, whether the prefix warning was
      printed, and how it ended. */
  datatype LoginRun = LoginRun(ring: Auth.Keyring, warned: bool, exit: LoginExit)

  /** `login`: read one line from standard input, trim it and save it. */
  function Login(stdin: Stdin, ring: Auth.Keyring): (run: LoginRun)
    // the keyring changes only by a successful save of the trimmed line
    ensures run.exit != LoggedIn ==> run.ring == ring
    ensures run.exit == LoggedIn ==>
              ReadLine(stdin).Line? && run.ring == Auth.SaveAPIKey(ring, TrimSpace(ReadLine(stdin).text)).0
              && Auth.SaveAPIKey(ring, TrimSpace(ReadLine(stdin).text)).1 == Pass
    // an empty or white-space-only line is refused before the keyring is touched
    ensures ReadLine(stdin).Line? ==> (run.exit == EmptyKey <==> AllSpace(ReadLine(stdin).text))
    // the prefix is only advised: a key without it is still saved
    ensures run.warned <==>
              ReadLine(stdin).Line? && !AllSpace(ReadLine(stdin).text) && !HasPrefix(TrimSpace(ReadLine(stdin).text), KeyPrefix)
    ensures ReadLine(stdin).Line? && !AllSpace(ReadLine(stdin).text) ==>
              (run.exit == LoggedIn <==> ring.openError.None? && ring.setError.None?)
    // input that stops before a newline is an error, even when a key was typed
    ensures ReadLine(stdin).LineFailed? ==> run.exit == InputFailed(ReadLine(stdin).cause)
  {
    match ReadLine(stdin)
    case LineFailed(c) => LoginRun(ring, false, InputFailed(c))
    case Line(text) =>
      var key := TrimSpace(text);
      if key == "" then LoginRun(ring, false, EmptyKey)
      else
        var warned := !HasPrefix(key, KeyPrefix);
        var (ring', outcome) := Auth.SaveAPIKey(ring, key);
        match outcome
        case Fail(err) => LoginRun(ring', warned, SaveFailed(err))
        case Pass => LoginRun(ring', warned, LoggedIn)
  }

  /** After a successful login the key reads back as the trimmed first line
      (with the variable unset). */
  lemma LoginThenGetAPIKey(stdin: Stdin, ring: Auth.Keyring)
    requires ring.getError.None?
    ensures var run := Login(stdin, ring);
      run.exit == LoggedIn ==> Auth.GetAPIKey("", run.ring) == Success(TrimSpace(ReadLine(stdin).text))
  {
  }

  /** What `login` does depends on the line read only through its trimmed text. */
  lemma LoginSeesTrimmedLine(a: Stdin, b: Stdin, ring: Auth.Keyring)
    requires ReadLine(a).Line? && ReadLine(b).Line?
    requires TrimSpace(ReadLine(a).text) == TrimSpace(ReadLine(b).text)
    ensures Login(a, ring) == Login(b, ring)
  {
  }

  predicate NoNewline(s: string) {
    forall i :: 0 <= i < |s| ==> s[i] != '\n'
  }

  lemma TrimKeepsNoNewline(key: string)
    requires NoNewline(key)
    ensures NoNewline(TrimSpace(key))
  {
    var k := TrimSpace(key);
    forall i | 0 <= i < |k| ensures k[i] != '\n' {
      assert k[i] == key[SkipSpaces(key, 0) + i];
    }
  }

  lemma ConcatKeepsNoNewline(a: string, b: string)
    requires NoNewline(a) && NoNewline(b)
    ensures NoNewline(a + b)
  {
    forall i | 0 <= i < |a + b| ensures (a + b)[i] != '\n' {
      if i < |a| { assert (a + b)[i] == a[i]; } else { assert (a + b)[i] == b[i - |a|]; }
    }
  }

  /** A trimmed key followed by white space and the newline trims back to the key. */
  lemma PaddedLineTrims(k: string, padding: string)
    requires TrimSpace(k) == k && AllSpace(padding)
    ensures TrimSpace(k + padding + "\n") == k
  {
    assert AllSpace(padding + "\n") by {
      forall i | 0 <= i < |padding + "\n"| ensures IsSpace((padding + "\n")[i]) {
        if i < |padding| { assert (padding + "\n")[i] == padding[i]; }
      }
    }
    assert k + padding + "\n" == k + (padding + "\n");
    TrimTrailingPadding(k, padding + "\n");
  }

  /** White space typed after the key, and whatever follows the first line,
      make no difference. */
  lemma LoginIgnoresPadding(key: string, padding: string, rest: string, stop: Option<string>, ring: Auth.Keyring)
    requires NoNewline(key)
    requires AllSpace(padding) && NoNewline(padding)
    ensures Login(Stdin(TrimSpace(key) + padding + "\n" + rest, stop), ring) == Login(Stdin(TrimSpace(key) + "\n", None), ring)
  {
    var k := TrimSpace(key);
    TrimKeepsNoNewline(key);
    ConcatKeepsNoNewline(k, padding);
    ReadLineFirst(k + padding, rest, stop);
    ReadLineFirst(k, "", None);
    assert k + "\n" + "" == k + "\n";
    TrimSpaceIdempotent(key);
    PaddedLineTrims(k, padding);
    PaddedLineTrims(k, "");
    assert k + "" + "\n" == k + "\n";
    LoginSeesTrimmedLine(Stdin(k + padding + "\n" + rest, stop), Stdin(k + "\n", None), ring);
  }

  /** A key typed without a final newline is not saved: `ReadString` reports end of file. */
  lemma KeyWithoutNewlineRefused(key: string, ring: Auth.Keyring)
    requires NoNewline(key)
    ensures Login(Stdin(key, None), ring) == LoginRun(ring, false, InputFailed("EOF"))
  {
  }

  /** The lines `status` prints for a source and an authentication flag. */
  function StatusLines(source: string, authenticated: bool): (lines: seq<string>)
    ensures authenticated ==> lines == ["Status: Authenticated", "Source: " + source]
    // the hints follow a blank line, which `Println("\nTo authenticate…")` prints
    ensures !authenticated ==> lines == ["Status: Not authenticated", "",
                                         "To authenticate, run: linear auth login",
                                         "Or set the LINEAR_API_KEY environment variable"]
  {
    if authenticated then ["Status: Authenticated", "Source: " + source]
    else ["Status: Not authenticated", "", "To authenticate, run: linear auth login",
          "Or set the LINEAR_API_KEY environment variable"]
  }

  function Status(env: string, ring: Auth.Keyring): seq<string> {
    var (source, ok) := Auth.GetAuthStatus(env, ring);
    StatusLines(source, ok)
  }

  /** `status` says "Authenticated" exactly when a command could find a key, and
      then names the source the key would come from; the failure detail of an
      unauthenticated status is not printed. */
  lemma StatusMatchesGetAPIKey(env: string, ring: Auth.Keyring)
    ensures Status(env, ring)[0] == "Status: Authenticated" <==> Auth.GetAPIKey(env, ring).Success?
    ensures Auth.GetAPIKey(env, ring).Success? ==>
      Status(env, ring)[1] == "Source: " + (if env != "" then "Environment variable (LINEAR_API_KEY)" else "System keyring")
    ensures Auth.GetAPIKey(env, ring).Failure? ==> |Status(env, ring)| == 4
  {
    Auth.StatusAgreesWithGetAPIKey(env, ring);
  }
}

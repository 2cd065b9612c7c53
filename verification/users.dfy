/** User lookup by e-mail of the `client` package (internal/client/users.go). */
module Users {
  import opened Wrappers
  import opened GraphQL
  import opened Issues

  /** The only variable sent: the address itself, matched exactly by the server. */
  function EmailVars(email: string): (vars: Vars)
    ensures vars.Keys == {"email"} && vars["email"] == JStr(email)
  {
    map["email" := JStr(email)]
  }

  /** `GetUserByEmail`: the first user the server lists for the address.
      `fetch` stands for `Do` with the `users` query. */
  function GetUserByEmail(email: string, fetch: Vars -> Result<seq<User>, ClientError>): (r: Result<User, ClientError>)
    // a transport or GraphQL error is returned as it is
    ensures fetch(EmailVars(email)).Failure? ==> r == Failure(fetch(EmailVars(email)).error)
    // no node: the fixed "no user found" error
    ensures fetch(EmailVars(email)) == Success([]) ==> r == Failure(UserNotFound)
    // otherwise the first node, whatever the others are
    ensures r.Success? <==> fetch(EmailVars(email)).Success? && |fetch(EmailVars(email)).value| > 0
    ensures r.Success? ==> r.value == fetch(EmailVars(email)).value[0]
  {
    var nodes :- fetch(EmailVars(email));
    if |nodes| == 0 then Failure(UserNotFound) else Success(nodes[0])
  }

  /** A found user is one the server returned, and the lookup reports
      "no user found with the provided email" only when the server returned
      no user (or itself failed with that error). */
  lemma GetUserByEmailAnswersFromServer(email: string, fetch: Vars -> Result<seq<User>, ClientError>)
    ensures var r := GetUserByEmail(email, fetch);
      && (r.Success? ==> r.value in fetch(EmailVars(email)).value)
      && (r == Failure(UserNotFound) <==> fetch(EmailVars(email)) in {Success([]), Failure(UserNotFound)})
      && (r.Failure? && r.error == UserNotFound ==> Message(r.error) == "no user found with the provided email")
  {
  }
}

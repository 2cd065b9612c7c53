/** Issue listing of the `client` package (internal/client/issues.go): the
    variables `ListIssues` sends and the cursor pagination of `ListAllIssues`,
    driven by a finite script of server replies. */
module Issues {
  import opened Wrappers
  import opened GraphQL
  import Text

  datatype State = State(name: string, color: string, kind: string)
  datatype User = User(id: string, name: string, email: string)
  datatype Team = Team(id: string, key: string, name: string)
  datatype Project = Project(id: string, name: string)

  /** The fields of an issue the command layer reads; nil pointers are `None`. */
  datatype Issue = Issue(
    id: string,
    identifier: string,
    title: string,
    priorityLabel: string,
    state: Option<State>,
    assignee: Option<User>,
    team: Option<Team>,
    project: Option<Project>)

  datatype PageInfo = PageInfo(hasNextPage: bool, endCursor: string)

  /** One page of the `issues` connection. */
  datatype IssuesPage = IssuesPage(nodes: seq<Issue>, pageInfo: PageInfo)

  datatype ListIssuesOptions = ListIssuesOptions(teamKey: string, limit: int, after: string)

  const DefaultLimit: nat := 50
  const FetchAllPageSize: nat := 100

  /** The page size `ListIssues` requests: the limit when positive, else 50. */
  function EffectiveLimit(limit: int): (n: int)
    ensures n > 0
    ensures limit > 0 ==> n == limit
    ensures limit <= 0 ==> n == DefaultLimit
  {
    if limit <= 0 then DefaultLimit else limit
  }

  /** The filter that restricts issues to one team: `{team: {key: {eq: key}}}`. */
  function TeamKeyFilter(teamKey: string): Json {
    JObj(map["team" := JObj(map["key" := JObj(map["eq" := JStr(teamKey)])])])
  }

  /** The variables `ListIssues` sends. */
  function ListIssuesVars(opts: ListIssuesOptions): (vars: Vars)
    ensures "first" in vars && vars["first"] == JInt(EffectiveLimit(opts.limit))
    ensures "after" in vars <==> opts.after != ""
    ensures "after" in vars ==> vars["after"] == JStr(opts.after)
    ensures "filter" in vars <==> opts.teamKey != ""
    ensures "filter" in vars ==> vars["filter"] == TeamKeyFilter(opts.teamKey)
    ensures vars.Keys <= {"first", "after", "filter"}
  {
    var withFirst := map["first" := JInt(EffectiveLimit(opts.limit))];
    var withAfter := if opts.after != "" then withFirst["after" := JStr(opts.after)] else withFirst;
    if opts.teamKey != "" then withAfter["filter" := TeamKeyFilter(opts.teamKey)] else withAfter
  }

  /** How a server reads the variables back into options (absent strings are ""). */
  function ReadOptions(vars: Vars): ListIssuesOptions {
    var limit := if "first" in vars && vars["first"].JInt? then vars["first"].n else 0;
    var after := if "after" in vars && vars["after"].JStr? then vars["after"].s else "";
    var teamKey :=
      if "filter" in vars && vars["filter"].JObj? && "team" in vars["filter"].fields
         && vars["filter"].fields["team"].JObj? && "key" in vars["filter"].fields["team"].fields
         && vars["filter"].fields["team"].fields["key"].JObj?
         && "eq" in vars["filter"].fields["team"].fields["key"].fields
         && vars["filter"].fields["team"].fields["key"].fields["eq"].JStr?
      then vars["filter"].fields["team"].fields["key"].fields["eq"].s
      else "";
    ListIssuesOptions(teamKey, limit, after)
  }

  /** The variables carry the options losslessly, up to the defaulted limit. */
  lemma ListIssuesVarsRoundTrip(opts: ListIssuesOptions)
    ensures ReadOptions(ListIssuesVars(opts)) == opts.(limit := EffectiveLimit(opts.limit))
  {
  }

  // ---------------------------------------------------------------------------
  // ListAllIssues

  /** A scripted server: the k-th request of a run gets the k-th reply. */
  type Script = seq<Result<IssuesPage, ClientError>>

  /** How a run over a script ends. `ScriptExhausted`: the script ran out while
      the last page still claimed a next page, so the model says nothing about
      what the loop does after that. */
  datatype FetchAll = Fetched(issues: seq<Issue>) | Aborted(error: ClientError) | ScriptExhausted

  /** The outcome of a run, and every request it made, in order. */
  datatype Run = Run(outcome: FetchAll, requests: seq<ListIssuesOptions>)

  /** The loop of `ListAllIssues`, from the request `opts` on. */
  function Paginate(opts: ListIssuesOptions, script: Script): (run: Run)
    ensures |run.requests| <= |script|
    ensures |script| > 0 ==> |run.requests| > 0 && run.requests[0] == opts
    ensures forall k :: 0 <= k < |run.requests| ==>
              run.requests[k].teamKey == opts.teamKey && run.requests[k].limit == opts.limit
    // request k+1 exists only after a page k claiming a next page, and starts at its end cursor
    ensures forall k :: 0 <= k < |run.requests| - 1 ==>
              script[k].Success? && script[k].value.pageInfo.hasNextPage
              && run.requests[k + 1].after == script[k].value.pageInfo.endCursor
    decreases |script|
  {
    if |script| == 0 then Run(ScriptExhausted, [])
    else match script[0]
      case Failure(e) => Run(Aborted(e), [opts])
      case Success(page) =>
        if !page.pageInfo.hasNextPage then Run(Fetched(page.nodes), [opts])
        else
          var rest := Paginate(opts.(after := page.pageInfo.endCursor), script[1..]);
          var outcome := match rest.outcome
            case Fetched(xs) => Fetched(page.nodes + xs)
            case other => other;
          Run(outcome, [opts] + rest.requests)
  }

  /** `ListAllIssues(teamKey)`: pages of 100 for the given team, from the start. */
  function ListAllIssues(teamKey: string, script: Script): (run: Run)
    ensures forall k :: 0 <= k < |run.requests| ==>
              run.requests[k].teamKey == teamKey && run.requests[k].limit == FetchAllPageSize
    ensures |script| > 0 ==> |run.requests| > 0 && run.requests[0].after == ""
  {
    Paginate(ListIssuesOptions(teamKey, FetchAllPageSize, ""), script)
  }

  // Reference definitions: where a script stops, and what it delivers up to there.

  /** The reply that ends a run: an error, or a page without a next page. */
  predicate Stops(reply: Result<IssuesPage, ClientError>) {
    reply.Failure? || !reply.value.pageInfo.hasNextPage
  }

  /** The index of the first stopping reply, if any. */
  function FirstStop(script: Script): (k: Option<nat>)
    ensures k.Some? ==> k.value < |script| && Stops(script[k.value])
    ensures k.Some? ==> forall j :: 0 <= j < k.value ==> !Stops(script[j])
    ensures k.None? ==> forall j :: 0 <= j < |script| ==> !Stops(script[j])
  {
    if |script| == 0 then None
    else if Stops(script[0]) then Some(0)
    else match FirstStop(script[1..])
      case None => None
      case Some(k) => Some(k + 1)
  }

  /** The nodes of the first `n` replies, all pages, in server order. */
  function NodesOf(script: Script, n: nat): seq<Issue>
    requires n <= |script|
    requires forall j :: 0 <= j < n ==> script[j].Success?
  {
    if n == 0 then [] else NodesOf(script, n - 1) + script[n - 1].value.nodes
  }

  lemma NodesOfTail(script: Script, n: nat)
    requires 0 < n <= |script|
    requires forall j :: 0 <= j < n ==> script[j].Success?
    ensures NodesOf(script, n) == script[0].value.nodes + NodesOf(script[1..], n - 1)
  {
    if n > 1 {
      NodesOfTail(script, n - 1);
    }
  }

  /** The result of a run, against the reference definitions: it stops at the
      first stopping reply k after exactly k + 1 requests, returning every node
      of pages 0..k in server order, or the error of reply k and no partial
      result; without a stopping reply it uses up the script. */
  lemma PaginateOutcome(opts: ListIssuesOptions, script: Script)
    ensures var run := Paginate(opts, script);
      match FirstStop(script)
      case None => run.outcome == ScriptExhausted && |run.requests| == |script|
      case Some(k) =>
        |run.requests| == k + 1
        && (script[k].Failure? ==> run.outcome == Aborted(script[k].error))
        && (script[k].Success? ==> run.outcome == Fetched(NodesOf(script, k + 1)))
  {
    match FirstStop(script) {
      case None => PaginateExhausts(opts, script);
      case Some(k) => PaginateStopsAt(opts, script, k);
    }
  }

  lemma {:induction false} PaginateExhausts(opts: ListIssuesOptions, script: Script)
    requires FirstStop(script).None?
    ensures Paginate(opts, script).outcome == ScriptExhausted
    ensures |Paginate(opts, script).requests| == |script|
    decreases |script|
  {
    if |script| > 0 {
      PaginateExhausts(opts.(after := script[0].value.pageInfo.endCursor), script[1..]);
    }
  }

  lemma {:induction false} PaginateStopsAt(opts: ListIssuesOptions, script: Script, k: nat)
    requires FirstStop(script) == Some(k)
    ensures var run := Paginate(opts, script);
      && |run.requests| == k + 1
      && (script[k].Failure? ==> run.outcome == Aborted(script[k].error))
      && (script[k].Success? ==> run.outcome == Fetched(NodesOf(script, k + 1)))
    decreases k
  {
    if k > 0 {
      var page := script[0].value;
      assert FirstStop(script[1..]) == Some(k - 1);
      PaginateStopsAt(opts.(after := page.pageInfo.endCursor), script[1..], k - 1);
      if script[k].Success? {
        assert forall j :: 0 <= j < k + 1 ==> script[j].Success?;
        NodesOfTail(script, k + 1);
      }
    }
  }

  /** A server that keeps claiming a next page with an unchanged cursor never
      lets the loop finish: the run uses up any finite script. */
  lemma StalledServerNeverFinishes(teamKey: string, script: Script, cursor: string)
    requires forall j :: 0 <= j < |script| ==>
               script[j].Success? && script[j].value.pageInfo == PageInfo(true, cursor)
    ensures ListAllIssues(teamKey, script).outcome == ScriptExhausted
    ensures |ListAllIssues(teamKey, script).requests| == |script|
  {
    PaginateOutcome(ListIssuesOptions(teamKey, FetchAllPageSize, ""), script);
  }

  // ---------------------------------------------------------------------------
  // nextPageCursor: the cursor guard the tests describe.

  /** The next cursor after a page read with `current`: ("", false) when there
      is no next page; an error when a next page is claimed with an empty or an
      unchanged end cursor; otherwise the end cursor and true. */
  function NextPageCursor(current: string, info: PageInfo): (r: Result<(string, bool), ClientError>)
    ensures !info.hasNextPage ==> r == Success(("", false))
    ensures r.Failure? <==> info.hasNextPage && (info.endCursor == "" || info.endCursor == current)
    ensures info.hasNextPage && info.endCursor == "" ==> r == Failure(CursorMissing)
    ensures info.hasNextPage && info.endCursor != "" && info.endCursor == current ==> r == Failure(CursorStalled(current))
    ensures r.Success? && r.value.1 ==> r.value.0 == info.endCursor && r.value.0 != "" && r.value.0 != current
    ensures r.Success? ==> (r.value.1 <==> info.hasNextPage)
  {
    if !info.hasNextPage then Success(("", false))
    else if info.endCursor == "" then Failure(CursorMissing)
    else if info.endCursor == current then Failure(CursorStalled(current))
    else Success((info.endCursor, true))
  }

  /** The two guard errors of the tests: an empty end cursor is reported with
      "endCursor is empty", an unchanged one with "did not advance". */
  lemma NextPageCursorTestedMessages()
    ensures var r := NextPageCursor("", PageInfo(true, ""));
      r.Failure? && Text.Contains(Message(r.error), "endCursor is empty")
    ensures var r := NextPageCursor("cursor-1", PageInfo(true, "cursor-1"));
      r.Failure? && Text.Contains(Message(r.error), "did not advance")
  {
    Text.ContainsEnd("pagination error: hasNextPage is true but ", "endCursor is empty");
    Text.ContainsPiece("pagination error: endCursor ", "did not advance", " past ", "cursor-1");
  }

  /** Exactly the steps where `ListAllIssues` re-requests with an empty or an
      unchanged cursor are the ones the guard rejects. */
  lemma GuardRejectsExactlyTheStalls(teamKey: string, script: Script)
    ensures var run := ListAllIssues(teamKey, script);
      forall k :: 0 <= k < |run.requests| - 1 ==>
        (NextPageCursor(run.requests[k].after, script[k].value.pageInfo).Failure?
         <==> run.requests[k + 1].after == "" || run.requests[k + 1].after == run.requests[k].after)
  {
  }

  /** The two-page scenario: two requests, the second after "cursor-1", and the
      issues of both pages in order. */
  lemma TwoPageScenario(a: Issue, b: Issue)
    ensures var script := [Success(IssuesPage([a], PageInfo(true, "cursor-1"))),
                           Success(IssuesPage([b], PageInfo(false, "cursor-2")))];
      var run := ListAllIssues("", script);
      run.outcome == Fetched([a, b]) && |run.requests| == 2 && run.requests[1].after == "cursor-1"
  {
    var p1 := Success(IssuesPage([a], PageInfo(true, "cursor-1")));
    var p2 := Success(IssuesPage([b], PageInfo(false, "cursor-2")));
    var script: Script := [p1, p2];
    assert script[1..] == [p2];
    var second := Paginate(ListIssuesOptions("", FetchAllPageSize, "cursor-1"), [p2]);
    assert second.outcome == Fetched([b]);
  }
}

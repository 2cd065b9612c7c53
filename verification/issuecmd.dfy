/** The `issue` commands (cmd/issue.go): flag validation, the lookups each
    command makes before its mutation, the input it builds, and the table rows
    `list` prints. Client calls are function parameters. */
module IssueCommand {
  import opened Wrappers
  import opened GraphQL
  import opened Issues
  import Formatter
  import Auth

  /** Why a command exits with status 1, one constructor per message. */
  datatype CommandError =
    | ClientUnavailable(reason: Auth.AuthError)
    | TitleRequired
    | TeamRequired
    | NothingToUpdate
    | EmptyTitle
    | EmptyProject
    | PriorityOutOfRange
    | TeamFetchFailed(cause: ClientError)
    | TeamNotFound(key: string)
    | ProjectFetchFailed(cause: ClientError)
    | UserFetchFailed(cause: ClientError)
    | IssueFetchFailed(cause: ClientError)
    | IssuesFetchFailed(cause: ClientError)
    | IssueNotFound(id: string)
    | MutationFailed(mutation: Mutation, cause: ClientError)
    | NotApplied(mutation: Mutation)
    | NoDetails(mutation: Mutation)

  /** The line written to standard error. */
  function ErrorLine(e: CommandError): string {
    match e
    case ClientUnavailable(c) => "Error: " + Auth.Message(c)
    case TitleRequired => "Error: --title is required"
    case TeamRequired => "Error: --team is required"
    case NothingToUpdate => "Error: specify at least one field to update (--title, --description, --priority, --project)"
    case EmptyTitle => "Error: --title cannot be empty"
    case EmptyProject => "Error: --project cannot be empty"
    case PriorityOutOfRange => "Error: --priority must be between 0 and 4"
    case TeamFetchFailed(c) => "Error fetching team: " + Message(c)
    case TeamNotFound(key) => "Team not found: " + key
    case ProjectFetchFailed(c) => "Error fetching project: " + Message(c)
    case UserFetchFailed(c) => "Error fetching user by email: " + Message(c)
    case IssueFetchFailed(c) => "Error fetching issue: " + Message(c)
    case IssuesFetchFailed(c) => "Error fetching issues: " + Message(c)
    case IssueNotFound(id) => "Issue not found: " + id
    case MutationFailed(Create, c) => "Error creating issue: " + Message(c)
    case MutationFailed(Update, c) => "Error updating issue: " + Message(c)
    case NotApplied(Create) => "Error: Failed to create issue"
    case NotApplied(Update) => "Error: Failed to update issue"
    case NoDetails(Create) => "Error: Issue was created but no details returned"
    case NoDetails(Update) => "Error: Issue was updated but no details returned"
  }

  /** The client calls a command may make: teams by key, project by identifier
      within a team (`Projects.GetProjectByIdentifier`), user by e-mail, issue by id. */
  datatype Client = Client(
    teamsByKey: string -> Result<seq<Team>, ClientError>,
    projectByIdentifier: (string, string) -> Result<Project, ClientError>,
    userByEmail: string -> Result<User, ClientError>,
    issueById: string -> Result<Option<Issue>, ClientError>)

  /** Where `client.NewClient` finds its API key: the value of LINEAR_API_KEY
      ("" when unset) and the system keyring. */
  datatype Credentials = Credentials(env: string, ring: Auth.Keyring)

  /** `client.NewClient`: it fails exactly when `auth.GetAPIKey` does, and the
      command then exits with that error. */
  function Connect(creds: Credentials): (r: Result<string, CommandError>)
    ensures r.Success? <==> Auth.GetAPIKey(creds.env, creds.ring).Success?
    ensures r.Success? ==> r.value == Auth.GetAPIKey(creds.env, creds.ring).value
    ensures r.Failure? ==> r.error == ClientUnavailable(Auth.GetAPIKey(creds.env, creds.ring).error)
  {
    match Auth.GetAPIKey(creds.env, creds.ring)
    case Failure(e) => Failure(ClientUnavailable(e))
    case Success(key) => Success(key)
  }

  /** The id of the first team with the given key. */
  function TeamIdOf(client: Client, key: string): (r: Result<string, CommandError>)
    ensures client.teamsByKey(key).Failure? ==> r == Failure(TeamFetchFailed(client.teamsByKey(key).error))
    ensures client.teamsByKey(key) == Success([]) ==> r == Failure(TeamNotFound(key))
    ensures r.Success? <==> client.teamsByKey(key).Success? && |client.teamsByKey(key).value| > 0
    ensures r.Success? ==> r.value == client.teamsByKey(key).value[0].id
  {
    match client.teamsByKey(key)
    case Failure(e) => Failure(TeamFetchFailed(e))
    case Success(teams) => if |teams| == 0 then Failure(TeamNotFound(key)) else Success(teams[0].id)
  }

  function ProjectIdOf(client: Client, identifier: string, teamId: string): (r: Result<string, CommandError>)
    ensures r.Success? <==> client.projectByIdentifier(identifier, teamId).Success?
    ensures r.Success? ==> r.value == client.projectByIdentifier(identifier, teamId).value.id
    ensures r.Failure? ==> r.error == ProjectFetchFailed(client.projectByIdentifier(identifier, teamId).error)
  {
    match client.projectByIdentifier(identifier, teamId)
    case Failure(e) => Failure(ProjectFetchFailed(e))
    case Success(p) => Success(p.id)
  }

  // ---------------------------------------------------------------------------
  // issue list

  datatype ListFlags = ListFlags(team: string, project: string, limit: int, all: bool)

  /** The flag defaults: no filters, `--limit 50`, no `--all`. */
  const DefaultListFlags: ListFlags := ListFlags("", "", 50, false)

  /** The command's options record (its `ListIssuesOptions` also carries a project id). */
  datatype ListOptions = ListOptions(teamKey: string, projectId: string, limit: int)

  /** Which client call `list` makes. */
  datatype ListPlan = AllPages(opts: ListOptions) | OnePage(opts: ListOptions)

  /** The project id to filter by: "" without `--project`; otherwise the project
      found by identifier, scoped to the `--team` team when one is given. */
  function ResolveListProject(flags: ListFlags, client: Client): (r: Result<string, CommandError>)
    ensures flags.project == "" ==> r == Success("")
    ensures flags.project != "" && flags.team == "" ==> r == ProjectIdOf(client, flags.project, "")
    ensures flags.project != "" && flags.team != "" ==>
      match TeamIdOf(client, flags.team)
      case Failure(e) => r == Failure(e)
      case Success(teamId) => r == ProjectIdOf(client, flags.project, teamId)
  {
    if flags.project == "" then Success("")
    else if flags.team == "" then ProjectIdOf(client, flags.project, "")
    else
      var teamId :- TeamIdOf(client, flags.team);
      ProjectIdOf(client, flags.project, teamId)
  }

  function PlanList(flags: ListFlags, creds: Credentials, client: Client): (r: Result<ListPlan, CommandError>)
    // without a client nothing else happens
    ensures Connect(creds).Failure? ==> r == Failure(Connect(creds).error)
    ensures Connect(creds).Success? && ResolveListProject(flags, client).Failure? ==>
              r == Failure(ResolveListProject(flags, client).error)
    ensures r.Success? <==> Connect(creds).Success? && ResolveListProject(flags, client).Success?
    // `--all` selects the paginating call, otherwise one page
    ensures r.Success? ==> (r.value.AllPages? <==> flags.all)
    ensures r.Success? ==> r.value.opts == ListOptions(flags.team, ResolveListProject(flags, client).value, flags.limit)
  {
    var _ :- Connect(creds);
    var projectId :- ResolveListProject(flags, client);
    var opts := ListOptions(flags.team, projectId, flags.limit);
    Success(if flags.all then AllPages(opts) else OnePage(opts))
  }

  /** The one-page request as the `client` package's options (which have no project id). */
  function PageRequest(opts: ListOptions): ListIssuesOptions {
    ListIssuesOptions(opts.teamKey, opts.limit, "")
  }

  /** Without flags, `list` makes no lookup and asks for one page of 50 issues,
      all teams; any `--limit` that is not positive asks for 50 as well. */
  lemma DefaultListRequest(creds: Credentials, client: Client, limit: int)
    requires limit <= 0
    ensures Connect(creds).Success? ==>
              PlanList(DefaultListFlags, creds, client) == Success(OnePage(ListOptions("", "", 50)))
    ensures ListIssuesVars(PageRequest(ListOptions("", "", 50)))
         == ListIssuesVars(PageRequest(ListOptions("", "", limit)))
         == map["first" := JInt(50)]
  {
  }

  /** The issues `list` shows: every page's issues for `--all`, otherwise the
      nodes of the one page; either call's error ends the command. */
  function FetchIssues(
    plan: ListPlan,
    allPages: ListOptions -> Result<seq<Issue>, ClientError>,
    onePage: ListOptions -> Result<IssuesPage, ClientError>): (r: Result<seq<Issue>, CommandError>)
    ensures plan.AllPages? ==>
      match allPages(plan.opts)
      case Failure(e) => r == Failure(IssuesFetchFailed(e))
      case Success(issues) => r == Success(issues)
    ensures plan.OnePage? ==>
      match onePage(plan.opts)
      case Failure(e) => r == Failure(IssuesFetchFailed(e))
      case Success(page) => r == Success(page.nodes)
  {
    match plan
    case AllPages(opts) =>
      (match allPages(opts)
       case Failure(e) => Failure(IssuesFetchFailed(e))
       case Success(issues) => Success(issues))
    case OnePage(opts) =>
      (match onePage(opts)
       case Failure(e) => Failure(IssuesFetchFailed(e))
       case Success(page) => Success(page.nodes))
  }

  // ---------------------------------------------------------------------------
  // Table rows

  const ListHeaders: seq<string> := ["ID", "TITLE", "STATUS", "ASSIGNEE", "PRIORITY"]
  const TitleWidth: int := 50

  /** One row of `list`: identifier, title cut to 50 characters, then state
      name, assignee name and priority label, each "-" when missing. */
  function IssueRow(issue: Issue): (row: seq<string>)
    ensures |row| == |ListHeaders|
    ensures row[0] == issue.identifier
    ensures |row[1]| <= TitleWidth
    ensures |issue.title| <= TitleWidth ==> row[1] == issue.title
    ensures |issue.title| > TitleWidth ==> row[1] == issue.title[..TitleWidth - 3] + "..."
    ensures row[2] == (if issue.state.Some? then issue.state.value.name else "-")
    ensures row[3] == (if issue.assignee.Some? then issue.assignee.value.name else "-")
    ensures row[4] == (if issue.priorityLabel != "" then issue.priorityLabel else "-")
  {
    var status := if issue.state.Some? then issue.state.value.name else "-";
    var assignee := if issue.assignee.Some? then issue.assignee.value.name else "-";
    var priority := if issue.priorityLabel != "" then issue.priorityLabel else "-";
    var title := Formatter.TruncateString(issue.title, TitleWidth);
    assert |issue.title| > TitleWidth ==> title == issue.title[..TitleWidth - 3] + "..." by {
      if |issue.title| > TitleWidth {
        assert title[..47] == issue.title[..47];
        assert title[47..] == "...";
        assert title == title[..47] + title[47..];
      }
    }
    [issue.identifier, title, status, assignee, priority]
  }

  /** The table `list` fills, one `AddRow` per issue in order. */
  function IssueTable(issues: seq<Issue>): (t: Formatter.Table)
    ensures t.headers == ListHeaders
    ensures |t.rows| == |issues|
    ensures forall k :: 0 <= k < |issues| ==> t.rows[k] == IssueRow(issues[k])
  {
    if |issues| == 0 then Formatter.NewTable(ListHeaders)
    else Formatter.AddRow(IssueTable(issues[..|issues| - 1]), IssueRow(issues[|issues| - 1]))
  }

  /** What `list` prints: the header, the separator, and one line per issue in
      the order the server returned them, every line with five cells. */
  lemma IssueTableLines(issues: seq<Issue>)
    ensures var ls := Formatter.Lines(IssueTable(issues));
      && |ls| == |issues| + 2
      && ls[0] == Text.Join(ListHeaders, "\t")
      && forall k :: 0 <= k < |issues| ==> ls[k + 2] == Text.Join(IssueRow(issues[k]), "\t")
  {
  }

  // ---------------------------------------------------------------------------
  // issue create

  datatype CreateFlags = CreateFlags(title: string, description: string, team: string, project: string, assignee: string)

  /** The mutation input. Its optional fields are JSON `omitempty` strings:
      an empty one is not sent. */
  datatype CreateIssueInput = CreateIssueInput(
    title: string,
    teamId: string,
    description: string,
    projectId: string,
    assigneeId: string)

  /** The JSON keys the input sends. */
  function SentFields(input: CreateIssueInput): set<string> {
    {"title", "teamId"}
    + (if input.description != "" then {"description"} else {})
    + (if input.projectId != "" then {"projectId"} else {})
    + (if input.assigneeId != "" then {"assigneeId"} else {})
  }

  /** The required flags, title first. */
  function ValidateCreate(flags: CreateFlags): (r: Outcome<CommandError>)
    ensures r.Pass? <==> flags.title != "" && flags.team != ""
    ensures flags.title == "" ==> r == Fail(TitleRequired)
    ensures flags.title != "" && flags.team == "" ==> r == Fail(TeamRequired)
  {
    if flags.title == "" then Fail(TitleRequired)
    else if flags.team == "" then Fail(TeamRequired)
    else Pass
  }

  /** The assignee's user id, "" without `--assignee`. */
  function AssigneeIdOf(client: Client, email: string): (r: Result<string, CommandError>)
    ensures email == "" ==> r == Success("")
    ensures email != "" && client.userByEmail(email).Failure? ==> r == Failure(UserFetchFailed(client.userByEmail(email).error))
    ensures email != "" && client.userByEmail(email).Success? ==> r == Success(client.userByEmail(email).value.id)
  {
    if email == "" then Success("")
    else match client.userByEmail(email)
      case Failure(e) => Failure(UserFetchFailed(e))
      case Success(u) => Success(u.id)
  }

  /** Everything `create` does before the mutation: validate, create the client,
      look up the team, the project (scoped to that team) and the assignee, then
      build the input. */
  function PlanCreate(flags: CreateFlags, creds: Credentials, client: Client): (r: Result<CreateIssueInput, CommandError>)
    // validation comes first, then the client, then the lookups in order; the first failure is reported
    ensures ValidateCreate(flags).Fail? ==> r == Failure(ValidateCreate(flags).error)
    ensures ValidateCreate(flags).Pass? && Connect(creds).Failure? ==> r == Failure(Connect(creds).error)
    ensures ValidateCreate(flags).Pass? && Connect(creds).Success? && TeamIdOf(client, flags.team).Failure? ==>
              r == Failure(TeamIdOf(client, flags.team).error)
    ensures ValidateCreate(flags).Pass? && Connect(creds).Success? && TeamIdOf(client, flags.team).Success?
            && flags.project != "" && ProjectIdOf(client, flags.project, TeamIdOf(client, flags.team).value).Failure? ==>
              r == Failure(ProjectFetchFailed(client.projectByIdentifier(flags.project, TeamIdOf(client, flags.team).value).error))
    ensures ValidateCreate(flags).Pass? && Connect(creds).Success? && TeamIdOf(client, flags.team).Success?
            && (flags.project == "" || ProjectIdOf(client, flags.project, TeamIdOf(client, flags.team).value).Success?)
            && flags.assignee != "" && client.userByEmail(flags.assignee).Failure? ==>
              r == Failure(UserFetchFailed(client.userByEmail(flags.assignee).error))
    // the plan succeeds exactly when validation and every call it makes succeed
    ensures r.Success? <==>
      && ValidateCreate(flags).Pass?
      && Connect(creds).Success?
      && TeamIdOf(client, flags.team).Success?
      && (flags.project == "" || ProjectIdOf(client, flags.project, TeamIdOf(client, flags.team).value).Success?)
      && (flags.assignee == "" || client.userByEmail(flags.assignee).Success?)
    ensures r.Success? ==>
      && ValidateCreate(flags).Pass?
      && r.value.title == flags.title
      && r.value.description == flags.description
      && TeamIdOf(client, flags.team) == Success(r.value.teamId)
      && (flags.project == "" ==> r.value.projectId == "")
      && (flags.project != "" ==> ProjectIdOf(client, flags.project, r.value.teamId) == Success(r.value.projectId))
      && AssigneeIdOf(client, flags.assignee) == Success(r.value.assigneeId)
  {
    match ValidateCreate(flags)
    case Fail(e) => Failure(e)
    case Pass =>
      var _ :- Connect(creds);
      var teamId :- TeamIdOf(client, flags.team);
      var projectId :- if flags.project == "" then Success("") else ProjectIdOf(client, flags.project, teamId);
      var assigneeId :- AssigneeIdOf(client, flags.assignee);
      Success(CreateIssueInput(flags.title, teamId, flags.description, projectId, assigneeId))
  }

  /** A planned input sends a description exactly when one was given, and a
      project or assignee only when one was asked for. */
  lemma CreateSendsOnlyGivenFields(flags: CreateFlags, creds: Credentials, client: Client)
    requires PlanCreate(flags, creds, client).Success?
    ensures {"title", "teamId"} <= SentFields(PlanCreate(flags, creds, client).value)
    ensures "description" in SentFields(PlanCreate(flags, creds, client).value) <==> flags.description != ""
    ensures "projectId" in SentFields(PlanCreate(flags, creds, client).value) ==> flags.project != ""
    ensures "assigneeId" in SentFields(PlanCreate(flags, creds, client).value) ==> flags.assignee != ""
  {
  }

  /** The two mutations `issue` makes. */
  datatype Mutation = Create | Update

  /** The issue a mutation reports. */
  datatype ChangedIssue = ChangedIssue(id: string, identifier: string, title: string, url: string)

  /** The mutation payload: `success` and a possibly nil issue. */
  datatype MutationPayload = MutationPayload(success: bool, issue: Option<ChangedIssue>)

  /** The checks after a mutation: request error, then `success`, then the issue's presence. */
  function CheckMutation(m: Mutation, resp: Result<MutationPayload, ClientError>): (r: Result<ChangedIssue, CommandError>)
    ensures resp.Failure? ==> r == Failure(MutationFailed(m, resp.error))
    ensures resp.Success? && !resp.value.success ==> r == Failure(NotApplied(m))
    ensures resp.Success? && resp.value.success && resp.value.issue.None? ==> r == Failure(NoDetails(m))
    ensures r.Success? <==> resp.Success? && resp.value.success && resp.value.issue.Some?
    ensures r.Success? ==> r.value == resp.value.issue.value
  {
    match resp
    case Failure(e) => Failure(MutationFailed(m, e))
    case Success(payload) =>
      if !payload.success then Failure(NotApplied(m))
      else if payload.issue.None? then Failure(NoDetails(m))
      else Success(payload.issue.value)
  }

  // ---------------------------------------------------------------------------
  // issue update

  /** The update flags with cobra's "changed" marks; a value whose flag did not
      change is ignored. */
  datatype UpdateFlags = UpdateFlags(
    titleChanged: bool, title: string,
    descriptionChanged: bool, description: string,
    priorityChanged: bool, priority: int,
    projectChanged: bool, project: string)

  const MinPriority: int := 0
  const MaxPriority: int := 4

  /** The validation of `update`, in the source's order. */
  function ValidateUpdate(f: UpdateFlags): (r: Outcome<CommandError>)
    ensures r.Pass? <==>
              (f.titleChanged || f.descriptionChanged || f.priorityChanged || f.projectChanged)
              && (f.titleChanged ==> f.title != "")
              && (f.projectChanged ==> f.project != "")
              && (f.priorityChanged ==> MinPriority <= f.priority <= MaxPriority)
    // the first failing check, in order, names the error
    ensures !(f.titleChanged || f.descriptionChanged || f.priorityChanged || f.projectChanged) ==> r == Fail(NothingToUpdate)
    ensures (f.titleChanged || f.descriptionChanged || f.priorityChanged || f.projectChanged)
            && f.titleChanged && f.title == "" ==>
              r == Fail(EmptyTitle)
    ensures (f.titleChanged || f.descriptionChanged || f.priorityChanged || f.projectChanged)
            && !(f.titleChanged && f.title == "")
            && f.projectChanged && f.project == "" ==>
              r == Fail(EmptyProject)
    ensures (f.titleChanged || f.descriptionChanged || f.priorityChanged || f.projectChanged)
            && !(f.titleChanged && f.title == "") && !(f.projectChanged && f.project == "")
            && f.priorityChanged && !(MinPriority <= f.priority <= MaxPriority) ==>
              r == Fail(PriorityOutOfRange)
  {
    if !(f.titleChanged || f.descriptionChanged || f.priorityChanged || f.projectChanged) then Fail(NothingToUpdate)
    else if f.titleChanged && f.title == "" then Fail(EmptyTitle)
    else if f.projectChanged && f.project == "" then Fail(EmptyProject)
    else if f.priorityChanged && (f.priority < MinPriority || f.priority > MaxPriority) then Fail(PriorityOutOfRange)
    else Pass
  }

  /** Priorities 0 and 4 pass and -1 and 5 do not; an empty description may be
      set, an empty title may not. */
  lemma UpdateValidationExamples()
    ensures ValidateUpdate(UpdateFlags(false, "", false, "", true, 0, false, "")).Pass?
    ensures ValidateUpdate(UpdateFlags(false, "", false, "", true, 4, false, "")).Pass?
    ensures ValidateUpdate(UpdateFlags(false, "", false, "", true, -1, false, "")) == Fail(PriorityOutOfRange)
    ensures ValidateUpdate(UpdateFlags(false, "", false, "", true, 5, false, "")) == Fail(PriorityOutOfRange)
    ensures ValidateUpdate(UpdateFlags(false, "", true, "", false, 0, false, "")).Pass?
    ensures ValidateUpdate(UpdateFlags(true, "", false, "", false, 0, false, "")) == Fail(EmptyTitle)
  {
  }

  /** The mutation input; `None` fields are left out (nil pointers). */
  datatype UpdateIssueInput = UpdateIssueInput(
    title: Option<string>,
    description: Option<string>,
    priority: Option<int>,
    projectId: Option<string>)

  /** The team that scopes the project lookup: the issue's team, "" when it has none. */
  function IssueTeamId(issue: Issue): string {
    if issue.team.Some? then issue.team.value.id else ""
  }

  /** Everything `update` does before the mutation: validate, create the client,
      and, for a changed project, fetch the issue and look the project up within its team. */
  function PlanUpdate(issueId: string, f: UpdateFlags, creds: Credentials, client: Client): (r: Result<UpdateIssueInput, CommandError>)
    // validation comes first, then the client, then the lookups in order; the first failure is reported
    ensures ValidateUpdate(f).Fail? ==> r == Failure(ValidateUpdate(f).error)
    ensures ValidateUpdate(f).Pass? && Connect(creds).Failure? ==> r == Failure(Connect(creds).error)
    ensures ValidateUpdate(f).Pass? && Connect(creds).Success? && f.projectChanged && client.issueById(issueId).Failure? ==>
              r == Failure(IssueFetchFailed(client.issueById(issueId).error))
    ensures ValidateUpdate(f).Pass? && Connect(creds).Success? && f.projectChanged && client.issueById(issueId) == Success(None) ==>
              r == Failure(IssueNotFound(issueId))
    ensures ValidateUpdate(f).Pass? && Connect(creds).Success? && f.projectChanged
            && client.issueById(issueId).Success? && client.issueById(issueId).value.Some?
            && ProjectIdOf(client, f.project, IssueTeamId(client.issueById(issueId).value.value)).Failure? ==>
              r == Failure(ProjectFetchFailed(client.projectByIdentifier(f.project, IssueTeamId(client.issueById(issueId).value.value)).error))
    // the plan succeeds exactly when validation and every call it makes succeed
    ensures r.Success? <==>
      && ValidateUpdate(f).Pass?
      && Connect(creds).Success?
      && (f.projectChanged ==>
            && client.issueById(issueId).Success? && client.issueById(issueId).value.Some?
            && ProjectIdOf(client, f.project, IssueTeamId(client.issueById(issueId).value.value)).Success?)
    // the issue is fetched only to resolve a changed project
    ensures r.Success? ==>
      && (r.value.title.Some? <==> f.titleChanged)
      && (r.value.title.Some? ==> r.value.title.value == f.title != "")
      && (r.value.description.Some? <==> f.descriptionChanged)
      && (r.value.description.Some? ==> r.value.description.value == f.description)
      && (r.value.priority.Some? <==> f.priorityChanged)
      && (r.value.priority.Some? ==> r.value.priority.value == f.priority && MinPriority <= f.priority <= MaxPriority)
      && (r.value.projectId.Some? <==> f.projectChanged)
    ensures r.Success? && f.projectChanged ==>
      && client.issueById(issueId).Success? && client.issueById(issueId).value.Some?
      && ProjectIdOf(client, f.project, IssueTeamId(client.issueById(issueId).value.value))
         == Success(r.value.projectId.value)
  {
    match ValidateUpdate(f)
    case Fail(e) => Failure(e)
    case Pass =>
      var _ :- Connect(creds);
      var projectId :-
        if !f.projectChanged then Success(None)
        else match client.issueById(issueId)
          case Failure(e) => Failure(IssueFetchFailed(e))
          case Success(None) => Failure(IssueNotFound(issueId))
          case Success(Some(issue)) =>
            match ProjectIdOf(client, f.project, IssueTeamId(issue))
            case Failure(e) => Failure(e)
            case Success(id) => Success(Some(id));
      Success(UpdateIssueInput(
        if f.titleChanged then Some(f.title) else None,
        if f.descriptionChanged then Some(f.description) else None,
        if f.priorityChanged then Some(f.priority) else None,
        projectId))
  }

  /** The names of the flags a user changed, and of the fields an input sets. */
  function ChangedFlags(f: UpdateFlags): set<string> {
    (if f.titleChanged then {"title"} else {})
    + (if f.descriptionChanged then {"description"} else {})
    + (if f.priorityChanged then {"priority"} else {})
    + (if f.projectChanged then {"project"} else {})
  }

  function SetFields(input: UpdateIssueInput): set<string> {
    (if input.title.Some? then {"title"} else {})
    + (if input.description.Some? then {"description"} else {})
    + (if input.priority.Some? then {"priority"} else {})
    + (if input.projectId.Some? then {"project"} else {})
  }

  /** An update sets exactly the fields whose flags changed, and never none. */
  lemma UpdateSetsExactlyChangedFields(issueId: string, f: UpdateFlags, creds: Credentials, client: Client)
    requires PlanUpdate(issueId, f, creds, client).Success?
    ensures SetFields(PlanUpdate(issueId, f, creds, client).value) == ChangedFlags(f)
    ensures SetFields(PlanUpdate(issueId, f, creds, client).value) != {}
  {
    var input := PlanUpdate(issueId, f, creds, client).value;
    assert f.titleChanged ==> "title" in SetFields(input);
    assert f.descriptionChanged ==> "description" in SetFields(input);
    assert f.priorityChanged ==> "priority" in SetFields(input);
    assert f.projectChanged ==> "project" in SetFields(input);
  }
}

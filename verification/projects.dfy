/** Project lookup of the `client` package (internal/client/projects.go): the
    UUID shape test, the filters sent, and the choice among the server's answers.
    The query transport (`Do` plus unmarshalling) is a function parameter. */
module Projects {
  import opened Wrappers
  import opened Text
  import opened GraphQL
  import opened Issues

  // ---------------------------------------------------------------------------
  // isUUID

  predicate IsHexDigit(c: char) {
    ('0' <= c <= '9') || ('a' <= c <= 'f') || ('A' <= c <= 'F')
  }

  /** The byte offsets of the four dashes of an 8-4-4-4-12 UUID. */
  predicate IsDashOffset(i: int) {
    i == 8 || i == 13 || i == 18 || i == 23
  }

  /** What the character at byte offset `offset` must be. */
  predicate FitsAt(offset: int, c: char) {
    if IsDashOffset(offset) then c == '-' else IsHexDigit(c)
  }

  /** Reference shape: 36 characters, dashes at 8, 13, 18, 23, hex digits (either case) elsewhere. */
  predicate UuidShape(s: string) {
    |s| == 36 && forall i :: 0 <= i < |s| ==> FitsAt(i, s[i])
  }

  /** The loop `for i, c := range s` of `isUUID`: `c` runs over the runes and `i`
      over their BYTE offsets; `offset` is the byte offset of `s[0]`. */
  function ScanUuid(s: string, offset: nat): bool {
    if |s| == 0 then true
    else FitsAt(offset, s[0]) && ScanUuid(s[1..], offset + Utf8Width(s[0]))
  }

  /** `isUUID`: Go's byte length must be 36, then the scan must accept every rune. */
  function IsUuid(s: string): bool {
    ByteLen(s) == 36 && ScanUuid(s, 0)
  }

  lemma {:induction false} ScanUuidSpec(s: string, offset: nat)
    ensures ScanUuid(s, offset) <==> forall i :: 0 <= i < |s| ==> FitsAt(offset + i, s[i])
    decreases |s|
  {
    if |s| > 0 {
      if FitsAt(offset, s[0]) {
        assert Utf8Width(s[0]) == 1;
        ScanUuidSpec(s[1..], offset + 1);
        if forall i :: 0 <= i < |s| - 1 ==> FitsAt(offset + 1 + i, s[1..][i]) {
          forall i | 0 <= i < |s| ensures FitsAt(offset + i, s[i]) {
            if i > 0 {
              assert s[i] == s[1..][i - 1];
            }
          }
        }
      }
    }
  }

  /** `isUUID` accepts exactly the 8-4-4-4-12 hex shape: every accepted rune is
      ASCII, so Go's byte length and byte offsets agree with character positions. */
  lemma IsUuidIff(s: string)
    ensures IsUuid(s) <==> UuidShape(s)
  {
    ScanUuidSpec(s, 0);
    if ScanUuid(s, 0) {
      assert forall i :: 0 <= i < |s| ==> IsAscii(s[i]) by {
        forall i | 0 <= i < |s| ensures IsAscii(s[i]) {
          assert FitsAt(i, s[i]);
        }
      }
      ByteLenOfAscii(s);
    }
  }

  /** Any length other than 36, the empty string and the undashed 32-digit form included, is rejected. */
  lemma IsUuidRejectsLength(s: string)
    requires |s| != 36
    ensures !IsUuid(s)
  {
    IsUuidIff(s);
  }

  predicate AllHex(g: string) {
    forall i :: 0 <= i < |g| ==> IsHexDigit(g[i])
  }

  /** Five hex groups of 8, 4, 4, 4 and 12 digits joined by dashes form a UUID. */
  lemma GroupsFormUuid(a: string, b: string, c: string, d: string, e: string)
    requires |a| == 8 && |b| == 4 && |c| == 4 && |d| == 4 && |e| == 12
    requires AllHex(a) && AllHex(b) && AllHex(c) && AllHex(d) && AllHex(e)
    ensures IsUuid(a + "-" + b + "-" + c + "-" + d + "-" + e)
  {
    var s := a + "-" + b + "-" + c + "-" + d + "-" + e;
    forall i | 0 <= i < |s| ensures FitsAt(i, s[i]) {
      if i < 8 { assert s[i] == a[i]; }
      else if i == 8 || i == 13 || i == 18 || i == 23 { }
      else if i < 13 { assert s[i] == b[i - 9]; }
      else if i < 18 { assert s[i] == c[i - 14]; }
      else if i < 23 { assert s[i] == d[i - 19]; }
      else { assert s[i] == e[i - 24]; }
    }
    IsUuidIff(s);
  }

  lemma CanonicalGroupsHex()
    ensures AllHex("4e26961e") && AllHex("967f") && AllHex("458f") && AllHex("8fa2") && AllHex("4240035aa178")
  {
  }

  /** A canonical lower-case UUID is accepted. */
  lemma IsUuidAcceptsCanonical()
    ensures IsUuid("4e26961e-967f-458f-8fa2-4240035aa178")
  {
    CanonicalGroupsHex();
    GroupsFormUuid("4e26961e", "967f", "458f", "8fa2", "4240035aa178");
    assert "4e26961e" + "-" + "967f" + "-" + "458f" + "-" + "8fa2" + "-" + "4240035aa178"
        == "4e26961e-967f-458f-8fa2-4240035aa178";
  }

  /** The undashed form, a project name and the empty string are not UUIDs. */
  lemma IsUuidRejectsExamples()
    ensures !IsUuid("4e26961e967f458f8fa24240035aa178")
    ensures !IsUuid("Mobile App")
    ensures !IsUuid("")
  {
    IsUuidRejectsLength("4e26961e967f458f8fa24240035aa178");
    IsUuidRejectsLength("Mobile App");
    IsUuidRejectsLength("");
  }

  // ---------------------------------------------------------------------------
  // Filters and lookup

  /** `{accessibleTeams: {some: {id: {eq: teamID}}}}`. */
  function AccessibleTeamFilter(teamID: string): Json {
    JObj(map["some" := JObj(map["id" := JObj(map["eq" := JStr(teamID)])])])
  }

  /** The filter of `GetProjectsByTeam`: only the team clause. */
  function ProjectsByTeamVars(teamID: string): (vars: Vars)
    ensures vars.Keys == {"filter"}
    ensures vars["filter"] == JObj(map["accessibleTeams" := AccessibleTeamFilter(teamID)])
  {
    map["filter" := JObj(map["accessibleTeams" := AccessibleTeamFilter(teamID)])]
  }

  /** `GetProjectsByTeam` sends `ProjectsByTeamVars(teamID)` and returns the
      nodes the transport decodes, or its error, unchanged. */
  function GetProjectsByTeam(teamID: string, fetch: Vars -> Result<seq<Project>, ClientError>): (r: Result<seq<Project>, ClientError>)
    ensures r.Failure? <==> fetch(ProjectsByTeamVars(teamID)).Failure?
    ensures r.Success? ==> r.value == fetch(ProjectsByTeamVars(teamID)).value
    ensures r.Failure? ==> r.error == fetch(ProjectsByTeamVars(teamID)).error
  {
    var nodes :- fetch(ProjectsByTeamVars(teamID));
    Success(nodes)
  }

  /** The name filter of `GetProjectByIdentifier`. */
  function NameFilter(identifier: string, teamID: string): (f: map<string, Json>)
    ensures "name" in f && f["name"] == JObj(map["containsIgnoreCase" := JStr(identifier)])
    ensures "accessibleTeams" in f <==> teamID != ""
    ensures "accessibleTeams" in f ==> f["accessibleTeams"] == AccessibleTeamFilter(teamID)
    ensures f.Keys <= {"name", "accessibleTeams"}
  {
    var byName := map["name" := JObj(map["containsIgnoreCase" := JStr(identifier)])];
    if teamID != "" then byName["accessibleTeams" := AccessibleTeamFilter(teamID)] else byName
  }

  function ByIdVars(identifier: string): Vars {
    map["id" := JStr(identifier)]
  }

  function ByNameVars(identifier: string, teamID: string): Vars {
    map["filter" := JObj(NameFilter(identifier, teamID))]
  }

  /** `GetProjectByIdentifier`. A UUID-shaped identifier is looked up by id
      (`byId` answers the `project` field, `None` for null); any other identifier
      is searched by name (`byName` answers the node list). */
  function GetProjectByIdentifier(
    identifier: string, teamID: string,
    byId: Vars -> Result<Option<Project>, ClientError>,
    byName: Vars -> Result<seq<Project>, ClientError>): (r: Result<Project, ClientError>)
    // the UUID branch: the identifier itself is the only variable
    ensures IsUuid(identifier) ==>
      match byId(ByIdVars(identifier))
      case Failure(e) => r == Failure(e)
      case Success(None) => r == Failure(ProjectNotFound(identifier))
      case Success(Some(p)) => r == Success(p)
    // the name branch: not found on no match, otherwise the first match, unranked
    ensures !IsUuid(identifier) ==>
      match byName(ByNameVars(identifier, teamID))
      case Failure(e) => r == Failure(e)
      case Success(ps) => r == (if |ps| == 0 then Failure(ProjectNotFound(identifier)) else Success(ps[0]))
  {
    if IsUuid(identifier) then
      match byId(ByIdVars(identifier))
      case Failure(e) => Failure(e)
      case Success(p) => if p.None? then Failure(ProjectNotFound(identifier)) else Success(p.value)
    else
      match byName(ByNameVars(identifier, teamID))
      case Failure(e) => Failure(e)
      case Success(nodes) => if |nodes| == 0 then Failure(ProjectNotFound(identifier)) else Success(nodes[0])
  }

  /** What a lookup returns is something the server answered, and the lookup
      fails with "project not found: <identifier>" exactly when the server
      answered nothing. */
  lemma GetProjectAnswersFromServer(
    identifier: string, teamID: string,
    byId: Vars -> Result<Option<Project>, ClientError>,
    byName: Vars -> Result<seq<Project>, ClientError>)
    ensures var r := GetProjectByIdentifier(identifier, teamID, byId, byName);
      && (r.Success? && IsUuid(identifier) ==> byId(ByIdVars(identifier)) == Success(Some(r.value)))
      && (r.Success? && !IsUuid(identifier) ==>
            byName(ByNameVars(identifier, teamID)).Success?
            && r.value in byName(ByNameVars(identifier, teamID)).value)
      && (r == Failure(ProjectNotFound(identifier)) <==>
            (IsUuid(identifier) && byId(ByIdVars(identifier)) in {Success(None), Failure(ProjectNotFound(identifier))})
            || (!IsUuid(identifier) && byName(ByNameVars(identifier, teamID)) in {Success([]), Failure(ProjectNotFound(identifier))}))
  {
  }

  /** A team-scoped name search restricts teams with exactly the clause the
      team listing uses, so both see the same projects of that team. */
  lemma NameSearchUsesTeamClause(identifier: string, teamID: string)
    requires teamID != ""
    ensures ByNameVars(identifier, teamID)["filter"].fields["accessibleTeams"]
         == ProjectsByTeamVars(teamID)["filter"].fields["accessibleTeams"]
  {
  }
}

/** The profile page controller: the `graphData` cache of the three chart
  * views, the graph switcher that fetches a view only when its slot is
  * empty, the initial load that substitutes a default for every failed
  * request, and the text and project cards it fills in. */
module Dashboard {
  import opened Common
  import opened Text
  import opened Records
  import opened Aggregation
  import opened Completed
  import opened Graphs
  import opened Queries

  const XPOverTimeGraph: string := "xp-over-time"
  const XPByProjectGraph: string := "xp-by-project"
  const AuditRatioGraph: string := "audit-ratio"

  const GraphErrorPrefix: string := "Error loading graph: "

  /** The query-client getters, as logged by the page each time it calls one. */
  datatype Query =
    | UserInfoQuery | TotalXPQuery | XPOverTimeQuery
    | XPByProjectQuery | AuditRatioQuery | CompletedProjectsQuery

  /** What the graph area shows. */
  datatype GraphArea =
    | Blank
    | Chart(scene: Scene)
    | ErrorMessage(text: string)
    | UnknownGraphType

  /** The audit-ratio text: the rounded percentage followed by '%', or 'N/A'. */
  datatype RatioText = Percent(ratio: real) | NotAvailable

  /** One completed-project card: the name shown and the completion time. */
  datatype Card = Card(name: string, completedAt: int)

  datatype ProjectsList = NoProjectsYet | Cards(cards: seq<Card>)

  /** The default summary that replaces a failed audit request. */
  const DefaultAuditSummary: AuditSummary := AuditSummary(0, 0, 0.0, Some(0))

  /** `auditRatio.total > 0 ? `${auditRatio.ratio}%` : 'N/A'`; an absent
    * total compares as not greater than 0. */
  function AuditRatioText(a: AuditSummary): RatioText {
    if a.total.Some? && a.total.value > 0 then Percent(a.ratio) else NotAvailable
  }

  /** The text shows a percentage exactly for a non-empty audit list, and the
    * percentage shown is within [0, 100]; the default for a failed request
    * shows 'N/A'. */
  lemma AuditRatioTextFacts(audits: seq<Audit>)
    ensures AuditRatioText(AuditSummaryOf(audits)).Percent? <==> |audits| > 0
    ensures AuditRatioText(AuditSummaryOf(audits)).Percent? ==>
      0.0 <= AuditRatioText(AuditSummaryOf(audits)).ratio <= 100.0
    ensures AuditRatioText(DefaultAuditSummary) == NotAvailable
  {
    AuditSummaryFacts(audits);
  }

  /** `project.name || project.path.split('/').pop() || 'Unknown Project'`:
    * a card always has a name, the project's own one when it has one,
    * otherwise the last non-empty '/'-free segment of its path, otherwise
    * 'Unknown Project'. */
  function CardName(p: Project): (name: string)
    ensures name != ""
    ensures p.name != "" ==> name == p.name
    ensures p.name == "" && LastSegment(p.path) != "" ==>
      && '/' !in name && |name| <= |p.path| && p.path[|p.path| - |name|..] == name
      && (|name| == |p.path| || p.path[|p.path| - |name| - 1] == '/')
    ensures p.name == "" && LastSegment(p.path) == "" ==> name == UnknownProject
  {
    if p.name != "" then p.name
    else if LastSegment(p.path) != "" then LastSegment(p.path)
    else UnknownProject
  }

  /** `displayCompletedProjects(projects)`: the "No completed projects yet"
    * message for an empty list, otherwise one card per project in order. */
  function ProjectsListing(projects: seq<Project>): ProjectsList {
    if projects == [] then NoProjectsYet
    else Cards(seq(|projects|, i requires 0 <= i < |projects| => Card(CardName(projects[i]), projects[i].completedAt)))
  }

  /** The message shows exactly when there is no project, and otherwise
    * there is one card per project, in the order given. */
  lemma ProjectsListingFacts(projects: seq<Project>)
    ensures projects == [] <==> ProjectsListing(projects) == NoProjectsYet
    ensures ProjectsListing(projects).Cards? ==>
      && |ProjectsListing(projects).cards| == |projects|
      && forall i :: 0 <= i < |projects| ==>
           ProjectsListing(projects).cards[i] == Card(CardName(projects[i]), projects[i].completedAt)
  {
  }

  /** Every project of the completed list has a name, so its card shows that
    * name and never a fallback. */
  lemma CompletedCardsShowNames(ps: seq<Completion>, rs: seq<Completion>, fallback: Settled<seq<Transaction>>)
    ensures var projects := CompletedOf(ps, rs, fallback);
      var v := ProjectsListing(projects);
      v.Cards? ==> forall i :: 0 <= i < |projects| ==> v.cards[i].name == projects[i].name
  {
    var projects := CompletedOf(ps, rs, fallback);
    CompletedAdmissible(ps, rs, fallback);
    ProjectsListingFacts(projects);
    forall i | 0 <= i < |projects| ensures CardName(projects[i]) == projects[i].name {
      assert projects[i] in projects;
    }
  }

  /** `value || 'N/A'` for the login and the id of the user row. */
  function LoginText(u: UserInfo): string { if u.login != "" then u.login else "N/A" }

  function IdText(u: UserInfo): string { if u.id != 0 then IntString(u.id) else "N/A" }

  /** The XP-over-time series held after the initial load, `[]` in place of
    * a failed request. */
  function LoadedXPOverTime(s: Session): seq<DailyXP> {
    var f := Gate(s, s.xpOverTime);
    if f.Fulfilled? then DailySeriesOf(f.value) else []
  }

  /** The XP-by-project entries held after the initial load, `[]` in place
    * of a failed request. */
  function LoadedXPByProject(s: Session): seq<ProjectXP> {
    var f := Gate(s, s.xpByProject);
    if f.Fulfilled? then TopProjectsOf(f.value) else []
  }

  /** After the initial load the two list views hold what they promise for
    * a fulfilled request (the daily series of rows in time order, the top
    * projects) and are empty for a failed one. */
  lemma LoadedViews(s: Session)
    requires OrderedAsRequested(s)
    ensures Gate(s, s.xpOverTime).Fulfilled? ==>
      IsDailySeries(Gate(s, s.xpOverTime).value, LoadedXPOverTime(s))
    ensures Gate(s, s.xpByProject).Fulfilled? ==>
      IsTopProjects(Gate(s, s.xpByProject).value, LoadedXPByProject(s))
    ensures Gate(s, s.xpOverTime).Rejected? ==> LoadedXPOverTime(s) == []
    ensures Gate(s, s.xpByProject).Rejected? ==> LoadedXPByProject(s) == []
  {
    var f, g := Gate(s, s.xpOverTime), Gate(s, s.xpByProject);
    if f.Fulfilled? {
      DailySeriesOfIsSeries(f.value);
    }
    if g.Fulfilled? {
      TopProjectsOfFacts(g.value);
    }
  }

  /** `getXPOverTime()` as settled by `Promise.allSettled`, with `[]` for a
    * rejection. */
  method LoadXPOverTime(s: Session) returns (v: seq<DailyXP>)
    requires OrderedAsRequested(s)
    ensures v == LoadedXPOverTime(s)
  {
    var fetched := GetXPOverTime(s);
    v := if fetched.Fulfilled? then fetched.value else [];
  }

  /** `getXPByProject()` as settled by `Promise.allSettled`, with `[]` for a
    * rejection. */
  method LoadXPByProject(s: Session) returns (v: seq<ProjectXP>)
    ensures v == LoadedXPByProject(s)
  {
    var fetched := GetXPByProject(s);
    v := if fetched.Fulfilled? then fetched.value else [];
  }

  /** The total XP shown after the initial load, 0 in place of a failed
    * request. */
  function LoadedTotalXP(s: Session): int {
    var f := Gate(s, s.totalXP);
    if f.Fulfilled? then TotalXP(f.value) else 0
  }

  /** The audit summary held after the initial load, the all-zero default in
    * place of a failed request. */
  function LoadedAuditSummary(s: Session): AuditSummary {
    var f := Gate(s, s.audits);
    if f.Fulfilled? then AuditSummaryOf(f.value) else DefaultAuditSummary
  }

  /** The completed projects listed after the initial load, `[]` in place of
    * a failed request. */
  function LoadedProjects(s: Session): seq<Project> {
    var f := Gate(s, s.completions);
    if f.Fulfilled? then CompletedOf(f.value.0, f.value.1, s.projectXPRows) else []
  }

  /** `getTotalXP()` as settled, with 0 for a rejection. */
  method LoadTotalXP(s: Session) returns (v: int)
    ensures v == LoadedTotalXP(s)
  {
    var fetched := GetTotalXP(s);
    v := if fetched.Fulfilled? then fetched.value else 0;
  }

  /** `getAuditRatio()` as settled, with the all-zero summary for a
    * rejection. */
  method LoadAuditRatio(s: Session) returns (v: AuditSummary)
    ensures v == LoadedAuditSummary(s)
  {
    var fetched := GetAuditRatio(s);
    v := if fetched.Fulfilled? then fetched.value else DefaultAuditSummary;
  }

  /** `getCompletedProjects()` as settled, with `[]` for a rejection. */
  method LoadCompletedProjects(s: Session) returns (v: seq<Project>)
    ensures v == LoadedProjects(s)
  {
    var fetched := GetCompletedProjects(s);
    v := if fetched.Fulfilled? then fetched.value else [];
  }

  /** The six results of the initial load, a default in place of each
    * rejected one. */
  datatype PageData = PageData(
    userInfo: Option<UserInfo>,
    totalXP: int,
    xpOverTime: seq<DailyXP>,
    xpByProject: seq<ProjectXP>,
    auditRatio: AuditSummary,
    completedProjects: seq<Project>)

  /** `Promise.allSettled` over the six getters, then the defaults `null`,
    * 0, `[]`, `[]`, the all-zero summary and `[]` for the rejected ones. */
  method FetchPageData(s: Session) returns (d: PageData)
    requires OrderedAsRequested(s)
    ensures d.userInfo == (if s.user.Fulfilled? then s.user.value else None)
    ensures d.totalXP == LoadedTotalXP(s)
    ensures d.xpOverTime == LoadedXPOverTime(s)
    ensures d.xpByProject == LoadedXPByProject(s)
    ensures d.auditRatio == LoadedAuditSummary(s)
    ensures d.completedProjects == LoadedProjects(s)
  {
    var userInfo := if s.user.Fulfilled? then s.user.value else None;
    var total := LoadTotalXP(s);
    var overTime := LoadXPOverTime(s);
    var byProject := LoadXPByProject(s);
    var audit := LoadAuditRatio(s);
    var completed := LoadCompletedProjects(s);
    d := PageData(userInfo, total, overTime, byProject, audit, completed);
  }

  /** With no stored id the page's own user query and the getters' lookups
    * are separate requests: the first may fail while `getTotalXP`'s lookup
    * succeeds, so the page holds no user row next to a real total. */
  lemma SeparateLookups()
    ensures var failed: Settled<seq<Transaction>> := Rejected("timeout");
      var s := Session("", Rejected("timeout"),
        Request(Fulfilled(Some(UserInfo(7, "ana"))), Fulfilled([Transaction(5, 0, "a", 1, ObjectInfo(1, "a", "project"))])),
        Request(Rejected("timeout"), failed), Request(Rejected("timeout"), failed),
        Request(Rejected("timeout"), Rejected("timeout")), Request(Rejected("timeout"), Rejected("timeout")),
        Request(Rejected("timeout"), Rejected("timeout")), Rejected("timeout"));
      && s.user.Rejected?
      && LoadedTotalXP(s) == 5
      && LoadedXPOverTime(s) == [] && LoadedAuditSummary(s) == DefaultAuditSummary
  {
  }

  /** What `renderAuditRatio` draws for a summary the page holds. */
  ghost predicate IsAuditRatioScene(a: AuditSummary, clientWidth: real, s: Scene) {
    && (a.total == Some(0) ==> s == Placeholder(NoAuditData))
    && (a.total.None? ==> s == NaNGeometry)
    && (a.total.Some? && a.total.value != 0 ==> IsPie(a.passed, a.failed, a.total.value, clientWidth, s))
  }

  /** The profile page: the `graphData` slots (`None` is `null`), what the
    * page shows, and the log of the getters it has called. */
  class Profile {
    var xpOverTime: Option<seq<DailyXP>>
    var xpByProject: Option<seq<ProjectXP>>
    var auditRatio: Option<AuditSummary>
    var graphArea: GraphArea
    var userLogin: Option<string>
    var userId: Option<string>
    var totalXP: Option<int>
    var auditRatioText: Option<RatioText>
    var projectsList: Option<ProjectsList>
    ghost var requests: seq<Query>

    /** All three views are cached. */
    ghost predicate Cached()
      reads this
    {
      xpOverTime.Some? && xpByProject.Some? && auditRatio.Some?
    }

    /** The page as it is first loaded: every slot `null`, nothing shown. */
    constructor ()
      ensures xpOverTime.None? && xpByProject.None? && auditRatio.None?
      ensures graphArea == Blank && requests == []
      ensures userLogin.None? && userId.None? && totalXP.None?
      ensures auditRatioText.None? && projectsList.None?
    {
      xpOverTime := None;
      xpByProject := None;
      auditRatio := None;
      graphArea := Blank;
      userLogin := None;
      userId := None;
      totalXP := None;
      auditRatioText := None;
      projectsList := None;
      requests := [];
    }

    /** The `'xp-over-time'` case of `renderGraph`. */
    method ShowXPOverTime(s: Session, clientWidth: real)
      requires OrderedAsRequested(s)
      modifies this
      ensures userLogin == old(userLogin) && userId == old(userId) && totalXP == old(totalXP)
      ensures auditRatioText == old(auditRatioText) && projectsList == old(projectsList)
      ensures xpByProject == old(xpByProject) && auditRatio == old(auditRatio)
      ensures old(xpOverTime).Some? ==> xpOverTime == old(xpOverTime) && requests == old(requests)
      ensures old(xpOverTime).None? ==>
        && requests == old(requests) + [XPOverTimeQuery]
        && var fetched := Gate(s, s.xpOverTime);
        && (fetched.Rejected? ==>
              xpOverTime.None? && graphArea == ErrorMessage(GraphErrorPrefix + fetched.reason))
        && (fetched.Fulfilled? ==> xpOverTime == Some(DailySeriesOf(fetched.value)))
      ensures xpOverTime.Some? ==> graphArea.Chart? && IsXPOverTimeScene(xpOverTime.value, clientWidth, graphArea.scene)
    {
      if xpOverTime.None? {
        requests := requests + [XPOverTimeQuery];
        var fetched := GetXPOverTime(s);
        if fetched.Rejected? {
          graphArea := ErrorMessage(GraphErrorPrefix + fetched.reason);
          return;
        }
        xpOverTime := Some(fetched.value);
      }
      var scene := RenderXPOverTime(xpOverTime.value, clientWidth);
      graphArea := Chart(scene);
    }

    /** The `'xp-by-project'` case of `renderGraph`. */
    method ShowXPByProject(s: Session, clientWidth: real)
      modifies this
      ensures userLogin == old(userLogin) && userId == old(userId) && totalXP == old(totalXP)
      ensures auditRatioText == old(auditRatioText) && projectsList == old(projectsList)
      ensures xpOverTime == old(xpOverTime) && auditRatio == old(auditRatio)
      ensures old(xpByProject).Some? ==> xpByProject == old(xpByProject) && requests == old(requests)
      ensures old(xpByProject).None? ==>
        && requests == old(requests) + [XPByProjectQuery]
        && var fetched := Gate(s, s.xpByProject);
        && (fetched.Rejected? ==>
              xpByProject.None? && graphArea == ErrorMessage(GraphErrorPrefix + fetched.reason))
        && (fetched.Fulfilled? ==> xpByProject == Some(TopProjectsOf(fetched.value)))
      ensures xpByProject.Some? ==> graphArea.Chart? && IsXPByProjectScene(xpByProject.value, clientWidth, graphArea.scene)
    {
      if xpByProject.None? {
        requests := requests + [XPByProjectQuery];
        var fetched := GetXPByProject(s);
        if fetched.Rejected? {
          graphArea := ErrorMessage(GraphErrorPrefix + fetched.reason);
          return;
        }
        xpByProject := Some(fetched.value);
      }
      var scene := RenderXPByProject(xpByProject.value, clientWidth);
      graphArea := Chart(scene);
    }

    /** The `'audit-ratio'` case of `renderGraph`. */
    method ShowAuditRatio(s: Session, clientWidth: real)
      modifies this
      ensures userLogin == old(userLogin) && userId == old(userId) && totalXP == old(totalXP)
      ensures auditRatioText == old(auditRatioText) && projectsList == old(projectsList)
      ensures xpOverTime == old(xpOverTime) && xpByProject == old(xpByProject)
      ensures old(auditRatio).Some? ==> auditRatio == old(auditRatio) && requests == old(requests)
      ensures old(auditRatio).None? ==>
        && requests == old(requests) + [AuditRatioQuery]
        && var fetched := Gate(s, s.audits);
        && (fetched.Rejected? ==>
              auditRatio.None? && graphArea == ErrorMessage(GraphErrorPrefix + fetched.reason))
        && (fetched.Fulfilled? ==> auditRatio == Some(AuditSummaryOf(fetched.value)))
      ensures auditRatio.Some? ==> graphArea.Chart? && IsAuditRatioScene(auditRatio.value, clientWidth, graphArea.scene)
    {
      if auditRatio.None? {
        requests := requests + [AuditRatioQuery];
        var fetched := GetAuditRatio(s);
        if fetched.Rejected? {
          graphArea := ErrorMessage(GraphErrorPrefix + fetched.reason);
          return;
        }
        auditRatio := Some(fetched.value);
      }
      var scene := RenderAuditRatio(Some(auditRatio.value), clientWidth);
      graphArea := Chart(scene);
    }

    /** `renderGraph(graphType)`: shows one view, fetching it first only when
      * its slot is `null`. A filled slot, even an empty list, is drawn as it
      * is; a failed fetch leaves the slot `null` and shows the error; an
      * unknown type shows 'Unknown graph type'. No other slot changes. */
    method RenderGraph(graphType: string, s: Session, clientWidth: real)
      requires OrderedAsRequested(s)
      modifies this
      ensures userLogin == old(userLogin) && userId == old(userId) && totalXP == old(totalXP)
      ensures auditRatioText == old(auditRatioText) && projectsList == old(projectsList)
      // Slots only ever go from `null` to a value, and a full cache is never refetched.
      ensures old(xpOverTime).Some? ==> xpOverTime == old(xpOverTime)
      ensures old(xpByProject).Some? ==> xpByProject == old(xpByProject)
      ensures old(auditRatio).Some? ==> auditRatio == old(auditRatio)
      ensures old(Cached()) ==> Cached() && requests == old(requests)
      ensures graphType != XPOverTimeGraph && graphType != XPByProjectGraph && graphType != AuditRatioGraph ==>
        && graphArea == UnknownGraphType && requests == old(requests)
        && xpOverTime == old(xpOverTime) && xpByProject == old(xpByProject) && auditRatio == old(auditRatio)
      ensures graphType == XPOverTimeGraph ==>
        && xpByProject == old(xpByProject) && auditRatio == old(auditRatio)
        && (old(xpOverTime).Some? ==> requests == old(requests))
        && (old(xpOverTime).None? ==>
              && requests == old(requests) + [XPOverTimeQuery]
              && var fetched := Gate(s, s.xpOverTime);
              && (fetched.Rejected? ==>
                    xpOverTime.None? && graphArea == ErrorMessage(GraphErrorPrefix + fetched.reason))
              && (fetched.Fulfilled? ==> xpOverTime == Some(DailySeriesOf(fetched.value))))
        && (xpOverTime.Some? ==> graphArea.Chart? && IsXPOverTimeScene(xpOverTime.value, clientWidth, graphArea.scene))
      ensures graphType == XPByProjectGraph ==>
        && xpOverTime == old(xpOverTime) && auditRatio == old(auditRatio)
        && (old(xpByProject).Some? ==> requests == old(requests))
        && (old(xpByProject).None? ==>
              && requests == old(requests) + [XPByProjectQuery]
              && var fetched := Gate(s, s.xpByProject);
              && (fetched.Rejected? ==>
                    xpByProject.None? && graphArea == ErrorMessage(GraphErrorPrefix + fetched.reason))
              && (fetched.Fulfilled? ==> xpByProject == Some(TopProjectsOf(fetched.value))))
        && (xpByProject.Some? ==> graphArea.Chart? && IsXPByProjectScene(xpByProject.value, clientWidth, graphArea.scene))
      ensures graphType == AuditRatioGraph ==>
        && xpOverTime == old(xpOverTime) && xpByProject == old(xpByProject)
        && (old(auditRatio).Some? ==> requests == old(requests))
        && (old(auditRatio).None? ==>
              && requests == old(requests) + [AuditRatioQuery]
              && var fetched := Gate(s, s.audits);
              && (fetched.Rejected? ==>
                    auditRatio.None? && graphArea == ErrorMessage(GraphErrorPrefix + fetched.reason))
              && (fetched.Fulfilled? ==> auditRatio == Some(AuditSummaryOf(fetched.value))))
        && (auditRatio.Some? ==> graphArea.Chart? && IsAuditRatioScene(auditRatio.value, clientWidth, graphArea.scene))
    {
      if graphType == XPOverTimeGraph {
        ShowXPOverTime(s, clientWidth);
      } else if graphType == XPByProjectGraph {
        ShowXPByProject(s, clientWidth);
      } else if graphType == AuditRatioGraph {
        ShowAuditRatio(s, clientWidth);
      } else {
        graphArea := UnknownGraphType;
      }
    }

    /** The rest of `loadProfileData()` once the requests have settled:
      * fills the three slots and the page from the results. The user row's
      * text is set only when there is a row. */
    method ShowPageData(d: PageData)
      modifies this
      ensures Cached() && requests == old(requests) && graphArea == old(graphArea)
      ensures xpOverTime == Some(d.xpOverTime) && xpByProject == Some(d.xpByProject)
      ensures auditRatio == Some(d.auditRatio)
      ensures totalXP == Some(d.totalXP)
      ensures auditRatioText == Some(AuditRatioText(d.auditRatio))
      ensures projectsList == Some(ProjectsListing(d.completedProjects))
      ensures d.userInfo.Some? ==>
        userLogin == Some(LoginText(d.userInfo.value)) && userId == Some(IdText(d.userInfo.value))
      ensures d.userInfo.None? ==> userLogin == old(userLogin) && userId == old(userId)
    {
      xpOverTime := Some(d.xpOverTime);
      xpByProject := Some(d.xpByProject);
      auditRatio := Some(d.auditRatio);
      if d.userInfo.Some? {
        userLogin := Some(LoginText(d.userInfo.value));
        userId := Some(IdText(d.userInfo.value));
      }
      totalXP := Some(d.totalXP);
      auditRatioText := Some(AuditRatioText(d.auditRatio));
      projectsList := Some(ProjectsListing(d.completedProjects));
    }

    /** `loadProfileData()`: runs the six requests, puts the fixed default in
      * place of each one that failed, fills the three slots and the page, and
      * draws the XP-over-time view from its (now filled) slot. */
    method LoadProfileData(s: Session, clientWidth: real)
      requires OrderedAsRequested(s)
      modifies this
      ensures Cached()
      ensures requests == old(requests) + [UserInfoQuery, TotalXPQuery, XPOverTimeQuery,
                                           XPByProjectQuery, AuditRatioQuery, CompletedProjectsQuery]
      ensures xpOverTime == Some(LoadedXPOverTime(s))
      ensures xpByProject == Some(LoadedXPByProject(s))
      ensures auditRatio == Some(LoadedAuditSummary(s))
      ensures totalXP == Some(LoadedTotalXP(s))
      ensures auditRatioText == Some(AuditRatioText(auditRatio.value))
      ensures projectsList == Some(ProjectsListing(LoadedProjects(s)))
      ensures s.user.Fulfilled? && s.user.value.Some? ==>
        userLogin == Some(LoginText(s.user.value.value)) && userId == Some(IdText(s.user.value.value))
      ensures !(s.user.Fulfilled? && s.user.value.Some?) ==>
        userLogin == old(userLogin) && userId == old(userId)
      ensures graphArea.Chart? && IsXPOverTimeScene(xpOverTime.value, clientWidth, graphArea.scene)
    {
      requests := requests + [UserInfoQuery, TotalXPQuery, XPOverTimeQuery,
                              XPByProjectQuery, AuditRatioQuery, CompletedProjectsQuery];
      var d := FetchPageData(s);
      ShowPageData(d);
      RenderGraph(XPOverTimeGraph, s, clientWidth);
    }
  }
}

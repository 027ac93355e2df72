/** The `get*` functions of the query client. Each one resolves the user
  * id, runs its GraphQL request and reduces the rows it gets back. The
  * request itself is not modelled: how it settles is an input, and the rows
  * are those of the user whose id was resolved. */
module Queries {
  import opened Common
  import opened Text
  import opened Records
  import opened Aggregation
  import opened Completed

  const NoUserId: string := "Unable to determine user ID"
  const InvalidUserId: string := "Invalid user ID: "

  /** One getter's request. Without a stored id the getter first calls
    * `getUserInfo()` itself, so each getter has its own user lookup
    * (`lookup`, consulted only when no id is stored) besides its own
    * GraphQL request (`rows`): the rows of its `data`, or the error that
    * `executeQuery` throws. */
  datatype Request<T> = Request(lookup: Settled<Option<UserInfo>>, rows: Settled<T>)

  /** The browser's stored user id ("" when there is none), the page's own
    * `getUserInfo()` call, and the request of each getter. `completions`
    * holds the `progress` and `result` rows of the completed-projects
    * request, `projectXPRows` the rows of its transaction fallback. */
  datatype Session = Session(
    storedUserId: string,
    user: Settled<Option<UserInfo>>,
    totalXP: Request<seq<Transaction>>,
    xpOverTime: Request<seq<Transaction>>,
    xpByProject: Request<seq<Transaction>>,
    audits: Request<seq<Audit>>,
    results: Request<seq<GradedResult>>,
    completions: Request<(seq<Completion>, seq<Completion>)>,
    projectXPRows: Settled<seq<Transaction>>)

  /** The id guard at the head of every getter: the stored id if there is
    * one, else the id of the user query's row (`String(userInfo.id)`), else
    * the error "Unable to determine user ID"; then `parseInt`, whose `NaN`
    * is the error "Invalid user ID: " followed by the text. */
  function ResolveUserId(stored: string, user: Settled<Option<UserInfo>>): Settled<int> {
    var text: Settled<string> :=
      if stored != "" then Fulfilled(stored)
      else match user
        case Rejected(e) => Rejected(e)
        case Fulfilled(None) => Rejected(NoUserId)
        case Fulfilled(Some(u)) => if u.id != 0 then Fulfilled(IntString(u.id)) else Rejected(NoUserId);
    match text
    case Rejected(e) => Rejected(e)
    case Fulfilled(s) =>
      match ParseInt(s)
      case None => Rejected(InvalidUserId + s)
      case Some(n) => Fulfilled(n)
  }

  /** A stored id decides alone, and is accepted exactly when it parses; with
    * none, the user row's id is used and always passes the `NaN` guard; with
    * no row, or a row without id, the lookup fails; a failed user query fails
    * it with the same error. */
  lemma ResolveUserIdCases(stored: string, user: Settled<Option<UserInfo>>, other: Settled<Option<UserInfo>>)
    ensures stored != "" ==> ResolveUserId(stored, user) == ResolveUserId(stored, other)
    ensures stored != "" ==>
      (ResolveUserId(stored, user).Fulfilled? <==> ParseInt(stored).Some?)
      && (ParseInt(stored).Some? ==> ResolveUserId(stored, user) == Fulfilled(ParseInt(stored).value))
      && (ParseInt(stored).None? ==> ResolveUserId(stored, user) == Rejected(InvalidUserId + stored))
    ensures stored == "" && user.Fulfilled? && user.value.Some? && user.value.value.id != 0 ==>
      ResolveUserId(stored, user) == Fulfilled(user.value.value.id)
    ensures stored == "" && user.Fulfilled? && (user.value.None? || user.value.value.id == 0) ==>
      ResolveUserId(stored, user) == Rejected(NoUserId)
    ensures stored == "" && user.Rejected? ==> ResolveUserId(stored, user) == Rejected(user.reason)
  {
    if stored == "" && user.Fulfilled? && user.value.Some? && user.value.value.id != 0 {
      ParseIntString(user.value.value.id);
    }
  }

  /** What a getter's request amounts to: the id guard's error if the id
    * cannot be resolved from the stored id or the getter's own lookup, else
    * how the request settled. */
  function Gate<T>(s: Session, r: Request<T>): Settled<T> {
    match ResolveUserId(s.storedUserId, r.lookup)
    case Rejected(e) => Rejected(e)
    case Fulfilled(_) => r.rows
  }

  /** The query of `getXPOverTime` orders its rows by `createdAt`. */
  ghost predicate OrderedAsRequested(s: Session) {
    s.xpOverTime.rows.Fulfilled? ==> SortedByTime(s.xpOverTime.rows.value)
  }

  /** `getTotalXP`. */
  method GetTotalXP(s: Session) returns (r: Settled<int>)
    ensures Gate(s, s.totalXP).Rejected? ==> r == Rejected(Gate(s, s.totalXP).reason)
    ensures Gate(s, s.totalXP).Fulfilled? ==> r == Fulfilled(TotalXP(Gate(s, s.totalXP).value))
  {
    match Gate(s, s.totalXP)
    case Rejected(e) => r := Rejected(e);
    case Fulfilled(rows) => r := Fulfilled(TotalXP(rows));
  }

  /** `getXPOverTime`. */
  method GetXPOverTime(s: Session) returns (r: Settled<seq<DailyXP>>)
    requires OrderedAsRequested(s)
    ensures Gate(s, s.xpOverTime).Rejected? ==> r == Rejected(Gate(s, s.xpOverTime).reason)
    ensures Gate(s, s.xpOverTime).Fulfilled? ==>
      r == Fulfilled(DailySeriesOf(Gate(s, s.xpOverTime).value))
  {
    match Gate(s, s.xpOverTime)
    case Rejected(e) => r := Rejected(e);
    case Fulfilled(rows) =>
      var series := XPOverTime(rows);
      r := Fulfilled(series);
  }

  /** `getXPByProject`. */
  method GetXPByProject(s: Session) returns (r: Settled<seq<ProjectXP>>)
    ensures Gate(s, s.xpByProject).Rejected? ==> r == Rejected(Gate(s, s.xpByProject).reason)
    ensures Gate(s, s.xpByProject).Fulfilled? ==>
      r == Fulfilled(TopProjectsOf(Gate(s, s.xpByProject).value))
  {
    match Gate(s, s.xpByProject)
    case Rejected(e) => r := Rejected(e);
    case Fulfilled(rows) =>
      var top := XPByProject(rows);
      r := Fulfilled(top);
  }

  /** `getAuditRatio`. */
  method GetAuditRatio(s: Session) returns (r: Settled<AuditSummary>)
    ensures Gate(s, s.audits).Rejected? ==> r == Rejected(Gate(s, s.audits).reason)
    ensures Gate(s, s.audits).Fulfilled? ==> r == Fulfilled(AuditSummaryOf(Gate(s, s.audits).value))
  {
    match Gate(s, s.audits)
    case Rejected(e) => r := Rejected(e);
    case Fulfilled(rows) =>
      var summary := AuditRatio(rows);
      r := Fulfilled(summary);
  }

  /** `getPassFailRatio`. */
  method GetPassFailRatio(s: Session) returns (r: Settled<PassFail>)
    ensures Gate(s, s.results).Rejected? ==> r == Rejected(Gate(s, s.results).reason)
    ensures Gate(s, s.results).Fulfilled? ==> r == Fulfilled(PassFailOf(Gate(s, s.results).value))
  {
    match Gate(s, s.results)
    case Rejected(e) => r := Rejected(e);
    case Fulfilled(rows) =>
      var counts := PassFailRatio(rows);
      r := Fulfilled(counts);
  }

  /** `getCompletedProjects`: the fallback request is made only when the two
    * first stages find nothing, and its failure is caught. */
  method GetCompletedProjects(s: Session) returns (r: Settled<seq<Project>>)
    ensures Gate(s, s.completions).Rejected? ==> r == Rejected(Gate(s, s.completions).reason)
    ensures Gate(s, s.completions).Fulfilled? ==>
      var rows := Gate(s, s.completions).value;
      r == Fulfilled(CompletedOf(rows.0, rows.1, s.projectXPRows))
  {
    match Gate(s, s.completions)
    case Rejected(e) => r := Rejected(e);
    case Fulfilled(rows) =>
      var projects := CompletedProjects(rows.0, rows.1, s.projectXPRows);
      r := Fulfilled(projects);
  }
}

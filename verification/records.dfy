/** The records the query service returns and the views the aggregation engine
  * derives from them.
  *
  * Representation of GraphQL `null`: every use the dashboard makes of a null
  * `amount`, `grade` or id (`x || 0`, `grade >= 1.0`, `a.grade > b.grade`, a
  * truthiness test) behaves exactly as it does for `0`, so those fields are
  * plain numbers and `0` stands for `null`. A null `path` or `name` behaves as
  * the empty string, and a null `object` as `ObjectInfo(0, "", "")`. */
module Records {
  import opened Common

  /** The linked `object { id name type }` of a record. */
  datatype ObjectInfo = ObjectInfo(id: int, name: string, kind: string)

  /** An XP transaction: `amount`, `createdAt` (milliseconds since the epoch),
    * `path`, `objectId` and `object`. */
  datatype Transaction = Transaction(
    amount: int, createdAt: int, path: string, objectId: int, obj: ObjectInfo)

  /** An audit made by the user; only its grade is queried. */
  datatype Audit = Audit(grade: real)

  /** A `result` row as the pass/fail query returns it. */
  datatype GradedResult = GradedResult(grade: real, path: string, obj: ObjectInfo)

  /** A `progress` or `result` row as the completed-projects query returns it. */
  datatype Completion = Completion(
    objectId: int, grade: real, path: string, updatedAt: int, obj: ObjectInfo)

  /** One point of the XP-over-time series: a UTC day (days since the epoch),
    * the XP earned that day, and the XP earned up to the end of that day. */
  datatype DailyXP = DailyXP(date: int, xp: int, cumulative: int)

  /** The XP earned under one path. */
  datatype ProjectXP = ProjectXP(path: string, xp: int)

  /** `{passed, failed, ratio, total}` of the audit query; `total` is absent
    * when no audit was returned. `ratio` is the pass percentage rounded to
    * one decimal. */
  datatype AuditSummary = AuditSummary(passed: nat, failed: nat, ratio: real, total: Option<nat>)

  /** `{passed, failed, total}` of the pass/fail query. */
  datatype PassFail = PassFail(passed: nat, failed: nat, total: nat)

  /** The id of a completed project: a numeric object id, or (in the
    * transaction fallback only) the path when no id is known. */
  datatype ProjectId = ObjectKey(n: int) | PathKey(p: string)

  /** A completed project as the dashboard lists it. */
  datatype Project = Project(id: ProjectId, name: string, path: string, grade: real, completedAt: int)

  /** The `user { id login }` row. */
  datatype UserInfo = UserInfo(id: int, login: string)
}

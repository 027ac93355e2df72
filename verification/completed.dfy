/** `getCompletedProjects`: the completed projects of the user, collected from
  * the `progress` rows, then the `result` rows, then (only when both gave
  * nothing) from the XP transactions, and listed newest first.
  *
  * The rows of each stage are inputs; the answer of the transaction query,
  * which is sent only when the first two stages gave nothing, is a settled
  * outcome whose rejection the source swallows. */
module Completed {
  import opened Common
  import opened Records
  import opened Text
  import opened Sorting

  const UnknownProject: string := "Unknown Project"

  /** The substrings `shouldExcludeProject` looks for. */
  const ExclusionVocabulary: seq<string> :=
    ["piscine", "piscine-", "/piscine", "check-in", "checkin", "checkpoint", "/checkpoint", "administration", "toad"]

  /** The words of the vocabulary that are not implied by another one. */
  const EssentialVocabulary: seq<string> :=
    ["piscine", "check-in", "checkin", "checkpoint", "administration", "toad"]

  // ---------------------------------------------------------------------------
  // Classification
  // ---------------------------------------------------------------------------

  /** `shouldExcludeProject(path, name)`: the lower-cased path, a space and the
    * lower-cased name mention a word of the vocabulary. */
  predicate ShouldExclude(path: string, name: string) {
    ContainsAny(Lower(path) + " " + Lower(name), ExclusionVocabulary)
  }

  /** The `isProject` test of the progress and result stages: the linked object
    * is a project, or the path exists and is neither an exercise nor a quest. */
  predicate IsProject(c: Completion) {
    c.obj.kind == "project" || (c.path != "" && !Contains(c.path, "/exercise") && !Contains(c.path, "/quest"))
  }

  /** `object.name || path.split('/').pop() || ''`. */
  function ProjectName(obj: ObjectInfo, path: string): string {
    if obj.name != "" then obj.name else LastSegment(path)
  }

  /** `projectName || 'Unknown Project'`. */
  function DisplayName(name: string): string {
    if name == "" then UnknownProject else name
  }

  /** A progress or result row that passes the stage's filter. */
  predicate Admitted(c: Completion) {
    IsProject(c) && c.objectId != 0 && !ShouldExclude(c.path, ProjectName(c.obj, c.path))
  }

  /** The entry a progress or result row contributes. */
  function EntryOf(c: Completion): Project {
    Project(ObjectKey(c.objectId), DisplayName(ProjectName(c.obj, c.path)), c.path, c.grade, c.updatedAt)
  }

  /** The replace rule of the result stage: the row is strictly later, or its
    * grade is strictly higher. */
  predicate Replaces(c: Completion, e: Project) {
    c.updatedAt > e.completedAt || c.grade > e.grade
  }

  /** A transaction the fallback stage keeps. */
  predicate FallbackAdmitted(t: Transaction) {
    t.obj.kind == "project" && t.path != "" && !ShouldExclude(t.path, ProjectName(t.obj, t.path))
  }

  /** `t.objectId || t.object?.id || pathKey`. */
  function FallbackId(t: Transaction): ProjectId {
    if t.objectId != 0 then ObjectKey(t.objectId)
    else if t.obj.id != 0 then ObjectKey(t.obj.id)
    else PathKey(t.path)
  }

  /** The entry a fallback transaction contributes: a project with XP is taken
    * as passed. */
  function FallbackEntry(t: Transaction): Project {
    Project(FallbackId(t), DisplayName(ProjectName(t.obj, t.path)), t.path, 1.0, t.createdAt)
  }

  // ---------------------------------------------------------------------------
  // The list as the stages build it
  // ---------------------------------------------------------------------------

  function IdsOf(all: seq<Project>): set<ProjectId> {
    set k | 0 <= k < |all| :: all[k].id
  }

  function PathsOf(all: seq<Project>): set<string> {
    set k | 0 <= k < |all| :: all[k].path
  }

  /** `allProjects.findIndex(p => p.id === id)`. */
  function FindIndex(all: seq<Project>, id: ProjectId): (k: int)
    ensures -1 <= k < |all|
    ensures k >= 0 ==> all[k].id == id
    ensures forall j :: 0 <= j < |all| && (k == -1 || j < k) ==> all[j].id != id
  {
    if all == [] then -1
    else if all[0].id == id then 0
    else
      var k := FindIndex(all[1..], id);
      if k == -1 then -1 else k + 1
  }

  /** One progress row: the first admitted row of each id is kept. */
  function ProgressStep(all: seq<Project>, c: Completion): seq<Project> {
    if Admitted(c) && ObjectKey(c.objectId) !in IdsOf(all) then all + [EntryOf(c)] else all
  }

  /** One result row: appended when its id is new, otherwise it takes the
    * place of the entry with its id when the replace rule holds. */
  function ResultStep(all: seq<Project>, c: Completion): seq<Project> {
    if !Admitted(c) then all
    else
      var k := FindIndex(all, ObjectKey(c.objectId));
      if k == -1 then all + [EntryOf(c)]
      else if Replaces(c, all[k]) then all[k := EntryOf(c)]
      else all
  }

  /** The list after the progress stage. */
  function AfterProgress(ps: seq<Completion>): seq<Project> {
    if ps == [] then [] else ProgressStep(AfterProgress(ps[..|ps| - 1]), ps[|ps| - 1])
  }

  /** The list after the progress and result stages. */
  function AfterResults(ps: seq<Completion>, rs: seq<Completion>): seq<Project> {
    if rs == [] then AfterProgress(ps)
    else ResultStep(AfterResults(ps, rs[..|rs| - 1]), rs[|rs| - 1])
  }

  /** One fallback transaction: the first admitted transaction of each path is kept. */
  function FallbackStep(all: seq<Project>, t: Transaction): seq<Project> {
    if FallbackAdmitted(t) && t.path !in PathsOf(all) then all + [FallbackEntry(t)] else all
  }

  /** The list the fallback stage builds from the transactions. */
  function FallbackProjects(txs: seq<Transaction>): seq<Project> {
    if txs == [] then [] else FallbackStep(FallbackProjects(txs[..|txs| - 1]), txs[|txs| - 1])
  }

  /** The list before the final sort: the fallback is consulted only when the
    * first two stages gave nothing, and a failed fallback query leaves it empty. */
  function Collected(ps: seq<Completion>, rs: seq<Completion>, fallback: Settled<seq<Transaction>>): seq<Project> {
    var merged := AfterResults(ps, rs);
    if merged != [] then merged
    else match fallback
      case Fulfilled(txs) => FallbackProjects(txs)
      case Rejected(_) => []
  }

  function CompletedKey(p: Project): int { p.completedAt }

  /** The reference definition of the answer: the collected list, newest first. */
  function CompletedOf(ps: seq<Completion>, rs: seq<Completion>, fallback: Settled<seq<Transaction>>): seq<Project> {
    SortDesc(Collected(ps, rs, fallback), CompletedKey)
  }

  // ---------------------------------------------------------------------------
  // The pipeline
  // ---------------------------------------------------------------------------

  /** The `progress` loop of `getCompletedProjects`: keeps the first
    * admitted row of each project id, recording the ids seen in a set. */
  method CollectProgress(progress: seq<Completion>) returns (all: seq<Project>, seen: set<ProjectId>)
    ensures all == AfterProgress(progress)
    ensures seen == IdsOf(all)
  {
    all, seen := [], {};
    for i := 0 to |progress|
      invariant all == AfterProgress(progress[..i])
      invariant seen == IdsOf(all)
    {
      var item := progress[i];
      assert progress[..i + 1][..i] == progress[..i];
      var name := ProjectName(item.obj, item.path);
      if IsProject(item) && item.objectId != 0 && !ShouldExclude(item.path, name) {
        var id := ObjectKey(item.objectId);
        if id !in seen {
          IdsOfAppend(all, EntryOf(item));
          seen := seen + {id};
          all := all + [Project(id, DisplayName(name), item.path, item.grade, item.updatedAt)];
        }
      }
    }
    assert progress[..|progress|] == progress;
  }

  /** The `result` loop of `getCompletedProjects`: adds the admitted rows of
    * new ids and replaces an entry when a row for its id is newer or better
    * graded. */
  method MergeResults(progress: seq<Completion>, results: seq<Completion>, all0: seq<Project>, seen0: set<ProjectId>)
    returns (all: seq<Project>)
    requires all0 == AfterProgress(progress) && seen0 == IdsOf(all0)
    ensures all == AfterResults(progress, results)
  {
    all := all0;
    var seen := seen0;
    for i := 0 to |results|
      invariant all == AfterResults(progress, results[..i])
      invariant seen == IdsOf(all)
    {
      var item := results[i];
      assert results[..i + 1][..i] == results[..i];
      var name := ProjectName(item.obj, item.path);
      if IsProject(item) && item.objectId != 0 && !ShouldExclude(item.path, name) {
        var id := ObjectKey(item.objectId);
        var existingIndex := FindIndex(all, id);
        var entry := Project(id, DisplayName(name), item.path, item.grade, item.updatedAt);
        if existingIndex == -1 {
          IdsOfAppend(all, entry);
          seen := seen + {id};
          all := all + [entry];
        } else {
          var existing := all[existingIndex];
          if item.updatedAt > existing.completedAt || item.grade > existing.grade {
            IdsOfUpdate(all, existingIndex, entry);
            all := all[existingIndex := entry];
          }
        }
      }
    }
    assert results[..|results|] == results;
  }

  /** The transaction fallback of `getCompletedProjects`: one entry per
    * admitted project path, the first transaction of each path kept. */
  method CollectFallback(txs: seq<Transaction>) returns (all: seq<Project>)
    ensures all == FallbackProjects(txs)
  {
    all := [];
    var projectPaths: set<string> := {};
    for i := 0 to |txs|
      invariant all == FallbackProjects(txs[..i])
      invariant projectPaths == PathsOf(all)
    {
      var t := txs[i];
      assert txs[..i + 1][..i] == txs[..i];
      var name := ProjectName(t.obj, t.path);
      if t.obj.kind == "project" && t.path != "" && !ShouldExclude(t.path, name) {
        if t.path !in projectPaths {
          PathsOfAppend(all, FallbackEntry(t));
          projectPaths := projectPaths + {t.path};
          all := all + [FallbackEntry(t)];
        }
      }
    }
    assert txs[..|txs|] == txs;
  }

  /** `getCompletedProjects` after its first query: `progress` and `results`
    * are the rows of that query, `fallback` the outcome of the transaction
    * query, made only when the two first stages found nothing. */
  method CompletedProjects(progress: seq<Completion>, results: seq<Completion>, fallback: Settled<seq<Transaction>>)
    returns (r: seq<Project>)
    ensures r == CompletedOf(progress, results, fallback)
  {
    var all, seen := CollectProgress(progress);
    all := MergeResults(progress, results, all, seen);
    if |all| == 0 {
      match fallback {
        case Rejected(_) =>
        case Fulfilled(txs) =>
          all := CollectFallback(txs);
      }
    }
    r := SortDesc(all, CompletedKey);
  }

  lemma IdsOfAppend(all: seq<Project>, e: Project)
    ensures IdsOf(all + [e]) == IdsOf(all) + {e.id}
  {
    var s := all + [e];
    forall x | x in IdsOf(s) ensures x in IdsOf(all) + {e.id} {
      var k :| 0 <= k < |s| && s[k].id == x;
      if k < |all| { assert all[k] == s[k]; }
    }
    forall x | x in IdsOf(all) ensures x in IdsOf(s) {
      var k :| 0 <= k < |all| && all[k].id == x;
      assert s[k] == all[k];
    }
    assert s[|all|] == e;
  }

  lemma IdsOfUpdate(all: seq<Project>, k: nat, e: Project)
    requires k < |all| && all[k].id == e.id
    ensures IdsOf(all[k := e]) == IdsOf(all)
  {
    var s := all[k := e];
    forall x | x in IdsOf(s) ensures x in IdsOf(all) {
      var j :| 0 <= j < |s| && s[j].id == x;
      assert all[j].id == x;
    }
    forall x | x in IdsOf(all) ensures x in IdsOf(s) {
      var j :| 0 <= j < |all| && all[j].id == x;
      assert s[j].id == x;
    }
  }

  lemma PathsOfAppend(all: seq<Project>, e: Project)
    ensures PathsOf(all + [e]) == PathsOf(all) + {e.path}
  {
    var s := all + [e];
    forall x | x in PathsOf(s) ensures x in PathsOf(all) + {e.path} {
      var k :| 0 <= k < |s| && s[k].path == x;
      if k < |all| { assert all[k] == s[k]; }
    }
    forall x | x in PathsOf(all) ensures x in PathsOf(s) {
      var k :| 0 <= k < |all| && all[k].path == x;
      assert s[k] == all[k];
    }
    assert s[|all|] == e;
  }

  // ---------------------------------------------------------------------------
  // What the pipeline promises
  // ---------------------------------------------------------------------------

  /** Of the nine words, six suffice: "piscine-" and "/piscine" contain
    * "piscine", and "/checkpoint" contains "checkpoint". */
  lemma VocabularyReduces(s: string)
    ensures ContainsAny(s, ExclusionVocabulary) <==> ContainsAny(s, EssentialVocabulary)
  {
    if ContainsAny(s, ExclusionVocabulary) {
      var w :| w in ExclusionVocabulary && Contains(s, w);
      if w == "piscine-" {
        assert StartsWith("piscine-"[0..], "piscine");
        ContainsAt(w, "piscine", 0);
        ContainsTransitive(s, w, "piscine");
        assert "piscine" in EssentialVocabulary;
      } else if w == "/piscine" {
        assert StartsWith("/piscine"[1..], "piscine");
        ContainsAt(w, "piscine", 1);
        ContainsTransitive(s, w, "piscine");
        assert "piscine" in EssentialVocabulary;
      } else if w == "/checkpoint" {
        assert StartsWith("/checkpoint"[1..], "checkpoint");
        ContainsAt(w, "checkpoint", 1);
        ContainsTransitive(s, w, "checkpoint");
        assert "checkpoint" in EssentialVocabulary;
      } else {
        assert w in EssentialVocabulary;
      }
    }
    if ContainsAny(s, EssentialVocabulary) {
      var w :| w in EssentialVocabulary && Contains(s, w);
      assert w in ExclusionVocabulary;
    }
  }

  /** A path excluded on its own is excluded whatever the name. */
  lemma ExcludedPathExcludesAll(path: string, name: string)
    requires ShouldExclude(path, "")
    ensures ShouldExclude(path, name)
  {
    var w :| w in ExclusionVocabulary && Contains(Lower(path) + " " + Lower(""), w);
    assert Lower(path) + " " + Lower("") == Lower(path) + " ";
    ContainsAppendRight(Lower(path) + " ", Lower(name), w);
  }

  ghost predicate DistinctIds(all: seq<Project>) {
    forall i, j :: 0 <= i < j < |all| ==> all[i].id != all[j].id
  }

  ghost predicate DistinctPaths(all: seq<Project>) {
    forall i, j :: 0 <= i < j < |all| ==> all[i].path != all[j].path
  }

  /** The entries of the admitted rows of `src`. */
  ghost function AdmittedEntries(src: seq<Completion>): set<Project> {
    if src == [] then {}
    else AdmittedEntries(src[..|src| - 1]) + (if Admitted(src[|src| - 1]) then {EntryOf(src[|src| - 1])} else {})
  }

  /** The entries of the admitted transactions of `txs`. */
  ghost function FallbackEntries(txs: seq<Transaction>): set<Project> {
    if txs == [] then {}
    else FallbackEntries(txs[..|txs| - 1]) + (if FallbackAdmitted(txs[|txs| - 1]) then {FallbackEntry(txs[|txs| - 1])} else {})
  }

  /** Every entry of `all` is one of `entries`. */
  ghost predicate EntriesIn(all: seq<Project>, entries: set<Project>) {
    forall i :: 0 <= i < |all| ==> all[i] in entries
  }

  /** An admitted entry is the entry of an admitted row, found at index `j`. */
  lemma {:induction false} AdmittedEntryWitness(src: seq<Completion>, e: Project) returns (j: nat)
    requires e in AdmittedEntries(src)
    ensures j < |src| && Admitted(src[j]) && EntryOf(src[j]) == e
  {
    var init := src[..|src| - 1];
    if e in AdmittedEntries(init) {
      j := AdmittedEntryWitness(init, e);
      assert src[j] == init[j];
    } else {
      j := |src| - 1;
    }
  }

  /** The entry of every admitted row is an admitted entry. */
  lemma {:induction false} AdmittedEntryOf(src: seq<Completion>, j: nat)
    requires j < |src| && Admitted(src[j])
    ensures EntryOf(src[j]) in AdmittedEntries(src)
  {
    var init := src[..|src| - 1];
    if j < |init| {
      AdmittedEntryOf(init, j);
      assert init[j] == src[j];
    }
  }

  lemma {:induction false} ProgressDistinct(ps: seq<Completion>)
    ensures DistinctIds(AfterProgress(ps))
  {
    if ps != [] {
      ProgressDistinct(ps[..|ps| - 1]);
    }
  }

  lemma {:induction false} ProgressFromAdmitted(ps: seq<Completion>)
    ensures EntriesIn(AfterProgress(ps), AdmittedEntries(ps))
  {
    if ps != [] {
      ProgressFromAdmitted(ps[..|ps| - 1]);
    }
  }

  lemma {:induction false} ProgressCovers(ps: seq<Completion>)
    ensures forall e :: e in AdmittedEntries(ps) ==> e.id in IdsOf(AfterProgress(ps))
  {
    if ps != [] {
      var init := ps[..|ps| - 1];
      ProgressCovers(init);
      IdsOfAppend(AfterProgress(init), EntryOf(ps[|ps| - 1]));
    }
  }

  lemma ResultStepDistinct(all: seq<Project>, c: Completion)
    requires DistinctIds(all)
    ensures DistinctIds(ResultStep(all, c))
  {
  }

  lemma ResultStepFromAdmitted(all: seq<Project>, c: Completion, entries: set<Project>)
    requires EntriesIn(all, entries)
    ensures EntriesIn(ResultStep(all, c), entries + (if Admitted(c) then {EntryOf(c)} else {}))
  {
  }

  lemma ResultStepCovers(all: seq<Project>, c: Completion)
    ensures IdsOf(all) <= IdsOf(ResultStep(all, c))
    ensures Admitted(c) ==> EntryOf(c).id in IdsOf(ResultStep(all, c))
  {
    if Admitted(c) {
      var k := FindIndex(all, ObjectKey(c.objectId));
      if k == -1 {
        IdsOfAppend(all, EntryOf(c));
      } else if Replaces(c, all[k]) {
        IdsOfUpdate(all, k, EntryOf(c));
      } else {
        assert all[k].id == EntryOf(c).id;
      }
    }
  }

  /** The result stage's rule for any list and row: a row that is not
    * admitted changes nothing; an admitted row with a new id is appended;
    * otherwise only the entry with its id may change, and it becomes the
    * row's entry exactly when the row is strictly later or strictly better
    * graded. */
  lemma ResultStepRule(all: seq<Project>, c: Completion)
    ensures !Admitted(c) ==> ResultStep(all, c) == all
    ensures Admitted(c) && ObjectKey(c.objectId) !in IdsOf(all) ==> ResultStep(all, c) == all + [EntryOf(c)]
    ensures Admitted(c) && ObjectKey(c.objectId) in IdsOf(all) ==>
      var k := FindIndex(all, ObjectKey(c.objectId));
      && 0 <= k < |all| && all[k].id == ObjectKey(c.objectId)
      && |ResultStep(all, c)| == |all|
      && (forall j :: 0 <= j < |all| && j != k ==> ResultStep(all, c)[j] == all[j])
      && ResultStep(all, c)[k] == (if Replaces(c, all[k]) then EntryOf(c) else all[k])
  {
    if Admitted(c) && ObjectKey(c.objectId) in IdsOf(all) {
      var j :| 0 <= j < |all| && all[j].id == ObjectKey(c.objectId);
      assert FindIndex(all, ObjectKey(c.objectId)) != -1;
    }
  }

  /** After the progress and result stages no id occurs twice. */
  lemma {:induction false} MergedDistinct(ps: seq<Completion>, rs: seq<Completion>)
    ensures DistinctIds(AfterResults(ps, rs))
  {
    if rs == [] {
      ProgressDistinct(ps);
    } else {
      MergedDistinct(ps, rs[..|rs| - 1]);
      ResultStepDistinct(AfterResults(ps, rs[..|rs| - 1]), rs[|rs| - 1]);
    }
  }

  /** After the progress and result stages every entry is the entry of an
    * admitted progress or result row. */
  lemma {:induction false} MergedFromAdmitted(ps: seq<Completion>, rs: seq<Completion>)
    ensures EntriesIn(AfterResults(ps, rs), AdmittedEntries(ps) + AdmittedEntries(rs))
  {
    if rs == [] {
      ProgressFromAdmitted(ps);
    } else {
      MergedFromAdmitted(ps, rs[..|rs| - 1]);
      ResultStepFromAdmitted(AfterResults(ps, rs[..|rs| - 1]), rs[|rs| - 1],
                             AdmittedEntries(ps) + AdmittedEntries(rs[..|rs| - 1]));
    }
  }

  /** After the progress and result stages the id of every admitted progress
    * or result row is listed. */
  lemma {:induction false} MergedCovers(ps: seq<Completion>, rs: seq<Completion>)
    ensures forall e :: e in AdmittedEntries(ps) + AdmittedEntries(rs) ==> e.id in IdsOf(AfterResults(ps, rs))
  {
    if rs == [] {
      ProgressCovers(ps);
    } else {
      MergedCovers(ps, rs[..|rs| - 1]);
      ResultStepCovers(AfterResults(ps, rs[..|rs| - 1]), rs[|rs| - 1]);
    }
  }

  /** Within the progress stage the first admitted row of an id wins. */
  lemma {:induction false} ProgressFirstWins(ps: seq<Completion>, i: nat)
    requires i < |ps| && Admitted(ps[i])
    requires forall j :: 0 <= j < i && Admitted(ps[j]) ==> ps[j].objectId != ps[i].objectId
    ensures EntryOf(ps[i]) in AfterProgress(ps)
  {
    var init := ps[..|ps| - 1];
    if i == |ps| - 1 {
      var prev := AfterProgress(init);
      ProgressFromAdmitted(init);
      if ObjectKey(ps[i].objectId) in IdsOf(prev) {
        var k :| 0 <= k < |prev| && prev[k].id == ObjectKey(ps[i].objectId);
        var j := AdmittedEntryWitness(init, prev[k]);
        assert false;
      }
    } else {
      ProgressFirstWins(init, i);
    }
  }

  /** A one-letter path and a one-letter name are never excluded: every word
    * of the vocabulary is longer than the text it would have to occur in. */
  lemma ShortTextNotExcluded(path: string, name: string)
    requires |path| == 1 && |name| == 1
    ensures !ShouldExclude(path, name)
  {
    var s := Lower(path) + " " + Lower(name);
    forall w | w in ExclusionVocabulary ensures !Contains(s, w) {
      LongerNotContained(s, w);
    }
  }

  /** A word longer than the text does not occur in it. */
  lemma {:induction false} LongerNotContained(s: string, w: string)
    requires |w| > |s|
    ensures !Contains(s, w)
    decreases |s|
  {
    if |s| > 0 {
      LongerNotContained(s[1..], w);
    }
  }

  /** A result row later than the progress row of the same project replaces
    * it; an earlier one with the same grade does not, and an earlier one with a
    * higher grade does. */
  lemma ReplaceRuleExample()
    ensures var p := Completion(7, 1.0, "a", 100, ObjectInfo(7, "a", "project"));
      && AfterResults([p], [p.(updatedAt := 200)]) == [EntryOf(p.(updatedAt := 200))]
      && AfterResults([p], [p.(updatedAt := 50)]) == [EntryOf(p)]
      && AfterResults([p], [p.(updatedAt := 50, grade := 1.5)]) == [EntryOf(p.(updatedAt := 50, grade := 1.5))]
  {
    var p := Completion(7, 1.0, "a", 100, ObjectInfo(7, "a", "project"));
    ShortTextNotExcluded("a", "a");
    assert [p][..0] == [];
    assert AfterProgress([p]) == [EntryOf(p)];
  }

  /** The fallback lists no path twice. */
  lemma {:induction false} FallbackDistinct(txs: seq<Transaction>)
    ensures DistinctPaths(FallbackProjects(txs))
  {
    if txs != [] {
      var prev := FallbackProjects(txs[..|txs| - 1]);
      FallbackDistinct(txs[..|txs| - 1]);
      assert forall k :: 0 <= k < |prev| ==> prev[k].path in PathsOf(prev);
    }
  }

  /** Every fallback entry is the entry of an admitted transaction. */
  lemma {:induction false} FallbackFromAdmitted(txs: seq<Transaction>)
    ensures EntriesIn(FallbackProjects(txs), FallbackEntries(txs))
  {
    if txs != [] {
      FallbackFromAdmitted(txs[..|txs| - 1]);
    }
  }

  /** The path of every admitted transaction is listed by the fallback. */
  lemma {:induction false} FallbackCovers(txs: seq<Transaction>)
    ensures forall e :: e in FallbackEntries(txs) ==> e.path in PathsOf(FallbackProjects(txs))
  {
    if txs != [] {
      var init := txs[..|txs| - 1];
      FallbackCovers(init);
      PathsOfAppend(FallbackProjects(init), FallbackEntry(txs[|txs| - 1]));
    }
  }

  /** The fallback keeps one entry per path, not per id: two transactions of
    * one object under two paths give two entries with the same id. */
  lemma FallbackIdsMayRepeat()
    ensures var t := Transaction(10, 0, "a", 5, ObjectInfo(5, "a", "project"));
      var ps := FallbackProjects([t, t.(path := "b")]);
      |ps| == 2 && ps[0].id == ps[1].id == ObjectKey(5)
  {
    var t := Transaction(10, 0, "a", 5, ObjectInfo(5, "a", "project"));
    var u := t.(path := "b");
    ShortTextNotExcluded("a", "a");
    ShortTextNotExcluded("b", "a");
    assert [t, u][..1] == [t];
    assert [t][..0] == [];
    assert FallbackProjects([t]) == [FallbackEntry(t)];
    PathsOfSingle(FallbackEntry(t));
    assert FallbackProjects([t, u]) == [FallbackEntry(t), FallbackEntry(u)];
  }

  lemma PathsOfSingle(e: Project)
    ensures PathsOf([e]) == {e.path}
  {
    assert [e][0] == e;
  }

  /** An admitted fallback entry is the entry of an admitted transaction. */
  lemma {:induction false} FallbackEntryWitness(txs: seq<Transaction>, e: Project) returns (j: nat)
    requires e in FallbackEntries(txs)
    ensures j < |txs| && FallbackAdmitted(txs[j]) && FallbackEntry(txs[j]) == e
  {
    var init := txs[..|txs| - 1];
    if e in FallbackEntries(init) {
      j := FallbackEntryWitness(init, e);
      assert txs[j] == init[j];
    } else {
      j := |txs| - 1;
    }
  }

  // ---------------------------------------------------------------------------
  // The answer
  // ---------------------------------------------------------------------------

  /** The answer lists the collected entries, each as often as collected,
    * newest first. */
  lemma CompletedNewestFirst(ps: seq<Completion>, rs: seq<Completion>, fallback: Settled<seq<Transaction>>)
    ensures Descending(CompletedOf(ps, rs, fallback), CompletedKey)
    ensures multiset(CompletedOf(ps, rs, fallback)) == multiset(Collected(ps, rs, fallback))
  {
    SortDescending(Collected(ps, rs, fallback), CompletedKey);
    SortPermutes(Collected(ps, rs, fallback), CompletedKey);
  }

  /** Sorting newest first keeps unique ids unique, keeps every entry in
    * the set it came from, and lists the same ids. */
  lemma SortKeepsIds(all: seq<Project>, entries: set<Project>)
    requires DistinctIds(all) && EntriesIn(all, entries)
    ensures var r := SortDesc(all, CompletedKey);
      DistinctIds(r) && EntriesIn(r, entries) && IdsOf(all) <= IdsOf(r)
  {
    var r := SortDesc(all, CompletedKey);
    var byId := (p: Project) => p.id;
    assert DistinctBy(all, byId);
    SortKeepsDistinct(all, CompletedKey, byId);
    assert DistinctBy(r, byId);
    SortElements(all, CompletedKey);
    SortPermutes(all, CompletedKey);
    forall i | 0 <= i < |r| ensures r[i] in entries {
      assert r[i] in r;
    }
    forall id | id in IdsOf(all) ensures id in IdsOf(r) {
      var k :| 0 <= k < |all| && all[k].id == id;
      assert all[k] in multiset(r);
    }
  }

  /** Sorting newest first keeps unique paths unique, keeps every entry in
    * the set it came from, and lists the same paths. */
  lemma SortKeepsPaths(all: seq<Project>, entries: set<Project>)
    requires DistinctPaths(all) && EntriesIn(all, entries)
    ensures var r := SortDesc(all, CompletedKey);
      DistinctPaths(r) && EntriesIn(r, entries) && PathsOf(all) <= PathsOf(r)
  {
    var r := SortDesc(all, CompletedKey);
    var byPath := (p: Project) => p.path;
    assert DistinctBy(all, byPath);
    SortKeepsDistinct(all, CompletedKey, byPath);
    assert DistinctBy(r, byPath);
    SortElements(all, CompletedKey);
    SortPermutes(all, CompletedKey);
    forall i | 0 <= i < |r| ensures r[i] in entries {
      assert r[i] in r;
    }
    forall path | path in PathsOf(all) ensures path in PathsOf(r) {
      var k :| 0 <= k < |all| && all[k].path == path;
      assert all[k] in multiset(r);
    }
  }

  /** When the progress and result stages found something, the answer lists
    * each id once, every entry is the entry of an admitted progress or result
    * row, and every admitted row's id is listed. */
  lemma CompletedFromStages(ps: seq<Completion>, rs: seq<Completion>, fallback: Settled<seq<Transaction>>)
    requires AfterResults(ps, rs) != []
    ensures DistinctIds(CompletedOf(ps, rs, fallback))
    ensures EntriesIn(CompletedOf(ps, rs, fallback), AdmittedEntries(ps) + AdmittedEntries(rs))
    ensures forall e :: e in AdmittedEntries(ps) + AdmittedEntries(rs) ==> e.id in IdsOf(CompletedOf(ps, rs, fallback))
  {
    var all := AfterResults(ps, rs);
    var r := CompletedOf(ps, rs, fallback);
    MergedDistinct(ps, rs);
    MergedFromAdmitted(ps, rs);
    MergedCovers(ps, rs);
    SortKeepsIds(all, AdmittedEntries(ps) + AdmittedEntries(rs));
  }

  /** When the fallback ran, the answer lists each path once, every entry is
    * the entry of an admitted transaction, and every admitted transaction's
    * path is listed. */
  lemma CompletedFromFallback(ps: seq<Completion>, rs: seq<Completion>, txs: seq<Transaction>)
    requires AfterResults(ps, rs) == []
    ensures DistinctPaths(CompletedOf(ps, rs, Fulfilled(txs)))
    ensures EntriesIn(CompletedOf(ps, rs, Fulfilled(txs)), FallbackEntries(txs))
    ensures forall e :: e in FallbackEntries(txs) ==> e.path in PathsOf(CompletedOf(ps, rs, Fulfilled(txs)))
  {
    var all := FallbackProjects(txs);
    var r := CompletedOf(ps, rs, Fulfilled(txs));
    FallbackDistinct(txs);
    FallbackFromAdmitted(txs);
    FallbackCovers(txs);
    SortKeepsPaths(all, FallbackEntries(txs));
  }

  /** A failed fallback query leaves the answer empty. */
  lemma CompletedFallbackFailed(ps: seq<Completion>, rs: seq<Completion>, reason: string)
    requires AfterResults(ps, rs) == []
    ensures CompletedOf(ps, rs, Rejected(reason)) == []
  {
  }

  /** What every listed entry satisfies: it has a name, and neither its path
    * alone nor its path with its name mentions an excluded word. */
  ghost predicate Admissible(e: Project) {
    && e.name != ""
    && !ShouldExclude(e.path, "")
    && !ShouldExclude(e.path, e.name)
  }

  /** No word of the vocabulary has a space, and each has an 'a', an 'i' or
    * an 'h'. */
  lemma VocabularyLetters(w: string)
    requires w in ExclusionVocabulary
    ensures ' ' !in w
    ensures 'a' in w || 'i' in w || 'h' in w
  {
  }

  /** "unknown project" has no 'a', 'i' or 'h'. */
  lemma UnknownLacks(c: char)
    requires c == 'a' || c == 'i' || c == 'h'
    ensures c !in Lower(UnknownProject)
  {
    if c in Lower(UnknownProject) {
      LowerHas(UnknownProject, c);
    }
  }

  /** "Unknown Project" brings no excluded word: no word straddles the
    * joining space, and every word has a letter "unknown project" lacks. */
  lemma UnknownNameNotExcluded(path: string)
    requires !ShouldExclude(path, "")
    ensures !ShouldExclude(path, UnknownProject)
  {
    if ShouldExclude(path, UnknownProject) {
      var w :| w in ExclusionVocabulary && Contains(Lower(path) + " " + Lower(UnknownProject), w);
      VocabularyLetters(w);
      ContainsAcrossSpace(Lower(path), Lower(UnknownProject), w);
      if Contains(Lower(path), w) {
        assert Lower(path) + (" " + Lower("")) == Lower(path) + " " + Lower("");
        ContainsAppendRight(Lower(path), " " + Lower(""), w);
        assert false;
      } else {
        var c := if 'a' in w then 'a' else if 'i' in w then 'i' else 'h';
        ContainsChars(Lower(UnknownProject), w, c);
        UnknownLacks(c);
      }
    }
  }

  lemma NameNotExcluded(path: string, name: string)
    requires !ShouldExclude(path, name)
    ensures !ShouldExclude(path, "")
    ensures !ShouldExclude(path, DisplayName(name))
  {
    if ShouldExclude(path, "") {
      ExcludedPathExcludesAll(path, name);
    }
    if name == "" {
      UnknownNameNotExcluded(path);
    }
  }

  /** No excluded candidate reaches the answer, in any stage. */
  lemma CompletedAdmissible(ps: seq<Completion>, rs: seq<Completion>, fallback: Settled<seq<Transaction>>)
    ensures forall e :: e in CompletedOf(ps, rs, fallback) ==> Admissible(e)
  {
    var all := Collected(ps, rs, fallback);
    CompletedNewestFirst(ps, rs, fallback);
    forall e | e in CompletedOf(ps, rs, fallback) ensures Admissible(e) {
      assert e in multiset(all);
      var i :| 0 <= i < |all| && all[i] == e;
      if AfterResults(ps, rs) != [] {
        MergedFromAdmitted(ps, rs);
        var j: nat;
        if e in AdmittedEntries(ps) {
          j := AdmittedEntryWitness(ps, e);
          NameNotExcluded(ps[j].path, ProjectName(ps[j].obj, ps[j].path));
        } else {
          j := AdmittedEntryWitness(rs, e);
          NameNotExcluded(rs[j].path, ProjectName(rs[j].obj, rs[j].path));
        }
      } else {
        var txs := fallback.value;
        FallbackFromAdmitted(txs);
        var j := FallbackEntryWitness(txs, e);
        NameNotExcluded(txs[j].path, ProjectName(txs[j].obj, txs[j].path));
      }
    }
  }
}

/**
 * The route algebra of the repository views: the five `repo.*` routes and the
 * two status filters they carry (src/views/repo/router.ts).
 */
module RepoRoutes {

  datatype Option<+T> = None | Some(value: T)

  /** `IssueStatus`: "all" or an issue state ("open" | "closed"). */
  datatype IssueStatus = All | Open | Closed

  /** `PatchStatus`: a patch state. */
  datatype PatchStatus = Draft | Open | Archived | Merged

  /**
   * `RepoRoute`, one constructor per `resource` tag:
   *   RepoCreateIssue  "repo.createIssue"
   *   RepoIssue        "repo.issue"
   *   RepoIssues       "repo.issues"
   *   RepoPatch        "repo.patch"
   *   RepoPatches      "repo.patches"  (status?: absent is None)
   */
  datatype RepoRoute =
    | RepoCreateIssue(rid: string)
    | RepoIssue(rid: string, issue: string)
    | RepoIssues(rid: string, status: IssueStatus)
    | RepoPatch(rid: string, patch: string)
    | RepoPatches(rid: string, patchStatus: Option<PatchStatus>)

  /** The string literal a status stands for in the source. */
  function IssueStatusName(s: IssueStatus): (name: string)
    ensures name != [] && '/' !in name && '?' !in name && '&' !in name
  {
    match s
    case All => "all"
    case Open => "open"
    case Closed => "closed"
  }

  function PatchStatusName(s: PatchStatus): (name: string)
    ensures name != [] && '/' !in name && '?' !in name && '&' !in name
  {
    match s
    case Draft => "draft"
    case Open => "open"
    case Archived => "archived"
    case Merged => "merged"
  }
}

/**
 * The loaders of the repository views (src/views/repo/router.ts): each turns a
 * route into a loaded route by issuing one batch of backend commands and
 * assembling the `params` the view needs from their replies.
 *
 * The backend is a parameter: a `Gateway` gives, per command, the reply (or
 * the rejection) for an argument mapping. The data it returns is opaque.
 */
module RouteLoaders {
  import opened RepoRoutes
  import RouteCodec

  // Payloads of the backend, whose fields are not part of this model.
  type Config(==)
  type RepoInfo(==)
  type Issue(==)
  type Operation(==)
  type Patch(==)
  type Revision(==)
  type Continuation(==)

  /** One page of a listing: its `content` and where the next page starts. */
  datatype PaginatedQuery<T> = PaginatedQuery(content: T, next: Continuation)

  /** A settled backend call: its value, or the reason it was rejected. */
  datatype Result<T> = Ok(value: T) | Err(error: string)
  {
    predicate IsFailure() { Err? }

    function PropagateFailure<U>(): Result<U>
      requires Err?
    {
      Err(error)
    }

    function Extract(): T
      requires Ok?
    {
      value
    }
  }

  /** The named arguments of a command. An `undefined` argument is left out. */
  type Args = map<string, string>

  /** One `invoke(command, args)` call. */
  datatype Request = Request(command: string, args: Args)

  /** The backend: for each command the loaders use, its reply to given arguments. */
  datatype Gateway = Gateway(
    config: Args -> Result<Config>,
    repoById: Args -> Result<RepoInfo>,
    listIssues: Args -> Result<seq<Issue>>,
    issueById: Args -> Result<Issue>,
    activityById: Args -> Result<seq<Operation>>,
    listPatches: Args -> Result<PaginatedQuery<seq<Patch>>>,
    patchById: Args -> Result<Patch>,
    revisionsByPatch: Args -> Result<seq<Revision>>)

  /** `LoadedRepoRoute`: one constructor per route, holding its `params`. */
  datatype LoadedRepoRoute =
    | LoadedCreateIssue(repo: RepoInfo, config: Config, issues: seq<Issue>)
    | LoadedIssue(repo: RepoInfo, config: Config, issue: Issue, issues: seq<Issue>,
                  activity: seq<Operation>)
    | LoadedIssues(repo: RepoInfo, config: Config, issues: seq<Issue>, status: IssueStatus)
    | LoadedPatch(repo: RepoInfo, config: Config, patch: Patch, patches: seq<Patch>,
                  revisions: seq<Revision>)
    | LoadedPatches(repo: RepoInfo, config: Config, page: PaginatedQuery<seq<Patch>>,
                    patchStatus: Option<PatchStatus>)

  // ------------------------------------------------------------- the calls

  /** The rejection reason of a request, or None when the gateway answers it. */
  function Rejection(gw: Gateway, req: Request): Option<string>
  {
    match req.command
    case "config" => (match gw.config(req.args) case Ok(_) => None case Err(e) => Some(e))
    case "repo_by_id" => (match gw.repoById(req.args) case Ok(_) => None case Err(e) => Some(e))
    case "list_issues" => (match gw.listIssues(req.args) case Ok(_) => None case Err(e) => Some(e))
    case "issue_by_id" => (match gw.issueById(req.args) case Ok(_) => None case Err(e) => Some(e))
    case "activity_by_id" => (match gw.activityById(req.args) case Ok(_) => None case Err(e) => Some(e))
    case "list_patches" => (match gw.listPatches(req.args) case Ok(_) => None case Err(e) => Some(e))
    case "patch_by_id" => (match gw.patchById(req.args) case Ok(_) => None case Err(e) => Some(e))
    case "revisions_by_patch" =>
      (match gw.revisionsByPatch(req.args) case Ok(_) => None case Err(e) => Some(e))
    case _ => Some("unknown command")
  }

  /** `Promise.all` resolves only when every request of the batch resolves. */
  predicate AllSucceed(gw: Gateway, batch: seq<Request>)
  {
    forall i :: 0 <= i < |batch| ==> Rejection(gw, batch[i]).None?
  }

  /** `Promise.all` rejects with the reason of one of the requests that failed. */
  predicate RejectedBy(gw: Gateway, batch: seq<Request>, error: string)
  {
    exists i :: 0 <= i < |batch| && Rejection(gw, batch[i]) == Some(error)
  }

  /**
   * `Promise.all` is all-or-nothing: a batch either resolves, or some request
   * of it rejects, and never both.
   */
  lemma AllOrNothing(gw: Gateway, batch: seq<Request>)
    ensures AllSucceed(gw, batch) <==> !exists error :: RejectedBy(gw, batch, error)
  {
    if !AllSucceed(gw, batch) {
      var i :| 0 <= i < |batch| && Rejection(gw, batch[i]).Some?;
      assert RejectedBy(gw, batch, Rejection(gw, batch[i]).value);
    }
  }

  function Commands(batch: seq<Request>): seq<string>
  {
    seq(|batch|, i requires 0 <= i < |batch| => batch[i].command)
  }

  function ConfigRequest(): Request
  {
    Request("config", map[])
  }

  function RepoByIdRequest(rid: string): Request
  {
    Request("repo_by_id", map["rid" := rid])
  }

  function ListIssuesRequest(rid: string, status: string): Request
  {
    Request("list_issues", map["rid" := rid, "status" := status])
  }

  function IssueByIdRequest(rid: string, id: string): Request
  {
    Request("issue_by_id", map["rid" := rid, "id" := id])
  }

  function ActivityByIdRequest(rid: string, id: string): Request
  {
    Request("activity_by_id", map["rid" := rid, "typeName" := "xyz.radicle.issue", "id" := id])
  }

  /** `list_patches` with `status: route.status`; an undefined status is not sent. */
  function ListPatchesRequest(rid: string, status: Option<PatchStatus>): (req: Request)
    ensures req.command == "list_patches" && Carries(req, "rid", rid)
    ensures "status" in req.args <==> status.Some?
    ensures status.Some? ==> Carries(req, "status", PatchStatusName(status.value))
    ensures req.args.Keys <= {"rid", "status"}
  {
    match status
    case None => Request("list_patches", map["rid" := rid])
    case Some(s) => Request("list_patches", map["rid" := rid, "status" := PatchStatusName(s)])
  }

  function PatchByIdRequest(rid: string, id: string): Request
  {
    Request("patch_by_id", map["rid" := rid, "id" := id])
  }

  function RevisionsByPatchRequest(rid: string, id: string): Request
  {
    Request("revisions_by_patch", map["rid" := rid, "id" := id])
  }

  // ------------------------------------------------------------- the batches

  /** The request passes `value` as its argument `key`. */
  predicate Carries(req: Request, key: string, value: string)
  {
    key in req.args && req.args[key] == value
  }

  /** The argument names of each request, in batch order: no argument is missing and none is extra. */
  predicate ArgNames(batch: seq<Request>, names: seq<set<string>>)
  {
    |batch| == |names| && forall i :: 0 <= i < |batch| ==> batch[i].args.Keys == names[i]
  }

  /** Every request after `config` names the route's repository. */
  predicate ScopedTo(batch: seq<Request>, rid: string)
  {
    forall i :: 1 <= i < |batch| ==> Carries(batch[i], "rid", rid)
  }

  /** The batch of `loadPatch`: the patch listing is requested without a status. */
  function PatchBatch(route: RepoRoute): (batch: seq<Request>)
    requires route.RepoPatch?
    ensures Commands(batch) == ["config", "repo_by_id", "list_patches", "patch_by_id", "revisions_by_patch"]
    ensures ScopedTo(batch, route.rid)
    ensures "status" !in batch[2].args
    ensures ArgNames(batch, [{}, {"rid"}, {"rid"}, {"rid", "id"}, {"rid", "id"}])
    ensures Carries(batch[3], "id", route.patch) && Carries(batch[4], "id", route.patch)
  {
    [ConfigRequest(), RepoByIdRequest(route.rid), ListPatchesRequest(route.rid, None),
     PatchByIdRequest(route.rid, route.patch), RevisionsByPatchRequest(route.rid, route.patch)]
  }

  /** The batch of `loadPatches`: the listing carries the route's status exactly when it has one. */
  function PatchesBatch(route: RepoRoute): (batch: seq<Request>)
    requires route.RepoPatches?
    ensures Commands(batch) == ["config", "repo_by_id", "list_patches"]
    ensures ScopedTo(batch, route.rid)
    ensures "status" in batch[2].args <==> route.patchStatus.Some?
    ensures ArgNames(batch, [{}, {"rid"}, if route.patchStatus.Some? then {"rid", "status"} else {"rid"}])
    ensures route.patchStatus.Some? ==>
      Carries(batch[2], "status", PatchStatusName(route.patchStatus.value))
  {
    [ConfigRequest(), RepoByIdRequest(route.rid), ListPatchesRequest(route.rid, route.patchStatus)]
  }

  /** The batch of `loadCreateIssue`: every issue, whatever its state. */
  function CreateIssueBatch(route: RepoRoute): (batch: seq<Request>)
    requires route.RepoCreateIssue?
    ensures Commands(batch) == ["config", "repo_by_id", "list_issues"]
    ensures ScopedTo(batch, route.rid)
    ensures Carries(batch[2], "status", "all")
    ensures ArgNames(batch, [{}, {"rid"}, {"rid", "status"}])
  {
    [ConfigRequest(), RepoByIdRequest(route.rid), ListIssuesRequest(route.rid, "all")]
  }

  /** The batch of `loadIssue`: five calls, the issue and its activity by id, every sibling issue. */
  function IssueBatch(route: RepoRoute): (batch: seq<Request>)
    requires route.RepoIssue?
    ensures Commands(batch) == ["config", "repo_by_id", "issue_by_id", "activity_by_id", "list_issues"]
    ensures ScopedTo(batch, route.rid)
    ensures Carries(batch[2], "id", route.issue) && Carries(batch[3], "id", route.issue)
    ensures Carries(batch[3], "typeName", "xyz.radicle.issue")
    ensures Carries(batch[4], "status", "all")
    ensures ArgNames(batch, [{}, {"rid"}, {"rid", "id"}, {"rid", "typeName", "id"}, {"rid", "status"}])
  {
    [ConfigRequest(), RepoByIdRequest(route.rid), IssueByIdRequest(route.rid, route.issue),
     ActivityByIdRequest(route.rid, route.issue), ListIssuesRequest(route.rid, "all")]
  }

  /** The batch of `loadIssues`: the listing carries the route's status unchanged. */
  function IssuesBatch(route: RepoRoute): (batch: seq<Request>)
    requires route.RepoIssues?
    ensures Commands(batch) == ["config", "repo_by_id", "list_issues"]
    ensures ScopedTo(batch, route.rid)
    ensures Carries(batch[2], "status", IssueStatusName(route.status))
    ensures ArgNames(batch, [{}, {"rid"}, {"rid", "status"}])
  {
    [ConfigRequest(), RepoByIdRequest(route.rid), ListIssuesRequest(route.rid, IssueStatusName(route.status))]
  }

  // ------------------------------------------------------------- the loaders

  /** `loadPatch`: forwards only the `content` of the patch listing. */
  function LoadPatch(gw: Gateway, route: RepoRoute): (r: Result<LoadedRepoRoute>)
    requires route.RepoPatch?
    ensures r.Ok? <==> AllSucceed(gw, PatchBatch(route))
    ensures r.Err? ==> RejectedBy(gw, PatchBatch(route), r.error)
    ensures r.Ok? ==> r.value.LoadedPatch?
    ensures r.Ok? ==> r.value.patches == gw.listPatches(PatchBatch(route)[2].args).value.content
    ensures var b := PatchBatch(route);
      r.Ok? ==> r.value == LoadedPatch(gw.repoById(b[1].args).value, gw.config(b[0].args).value,
                                       gw.patchById(b[3].args).value,
                                       gw.listPatches(b[2].args).value.content,
                                       gw.revisionsByPatch(b[4].args).value)
  {
    var batch := PatchBatch(route);
    var config :- gw.config(batch[0].args);
    var repo :- gw.repoById(batch[1].args);
    var patches :- gw.listPatches(batch[2].args);
    var patch :- gw.patchById(batch[3].args);
    var revisions :- gw.revisionsByPatch(batch[4].args);
    Ok(LoadedPatch(repo, config, patch, patches.content, revisions))
  }

  /** `loadPatches`: keeps the whole page, and the route's status unchanged. */
  function LoadPatches(gw: Gateway, route: RepoRoute): (r: Result<LoadedRepoRoute>)
    requires route.RepoPatches?
    ensures r.Ok? <==> AllSucceed(gw, PatchesBatch(route))
    ensures r.Err? ==> RejectedBy(gw, PatchesBatch(route), r.error)
    ensures r.Ok? ==> r.value.LoadedPatches? && r.value.patchStatus == route.patchStatus
    ensures r.Ok? ==> r.value.page == gw.listPatches(PatchesBatch(route)[2].args).value
    ensures var b := PatchesBatch(route);
      r.Ok? ==> r.value == LoadedPatches(gw.repoById(b[1].args).value, gw.config(b[0].args).value,
                                         gw.listPatches(b[2].args).value, route.patchStatus)
  {
    var batch := PatchesBatch(route);
    var config :- gw.config(batch[0].args);
    var repo :- gw.repoById(batch[1].args);
    var patches :- gw.listPatches(batch[2].args);
    Ok(LoadedPatches(repo, config, patches, route.patchStatus))
  }

  /** `loadCreateIssue`. */
  function LoadCreateIssue(gw: Gateway, route: RepoRoute): (r: Result<LoadedRepoRoute>)
    requires route.RepoCreateIssue?
    ensures r.Ok? <==> AllSucceed(gw, CreateIssueBatch(route))
    ensures r.Err? ==> RejectedBy(gw, CreateIssueBatch(route), r.error)
    ensures r.Ok? ==> r.value.LoadedCreateIssue?
    ensures r.Ok? ==> r.value.issues == gw.listIssues(CreateIssueBatch(route)[2].args).value
    ensures var b := CreateIssueBatch(route);
      r.Ok? ==> r.value == LoadedCreateIssue(gw.repoById(b[1].args).value, gw.config(b[0].args).value,
                                             gw.listIssues(b[2].args).value)
  {
    var batch := CreateIssueBatch(route);
    var config :- gw.config(batch[0].args);
    var repo :- gw.repoById(batch[1].args);
    var issues :- gw.listIssues(batch[2].args);
    Ok(LoadedCreateIssue(repo, config, issues))
  }

  /** `loadIssue`. */
  function LoadIssue(gw: Gateway, route: RepoRoute): (r: Result<LoadedRepoRoute>)
    requires route.RepoIssue?
    ensures r.Ok? <==> AllSucceed(gw, IssueBatch(route))
    ensures r.Err? ==> RejectedBy(gw, IssueBatch(route), r.error)
    ensures r.Ok? ==> r.value.LoadedIssue?
    ensures r.Ok? ==> r.value.issue == gw.issueById(IssueBatch(route)[2].args).value
    ensures r.Ok? ==> r.value.activity == gw.activityById(IssueBatch(route)[3].args).value
    ensures var b := IssueBatch(route);
      r.Ok? ==> r.value == LoadedIssue(gw.repoById(b[1].args).value, gw.config(b[0].args).value,
                                       gw.issueById(b[2].args).value, gw.listIssues(b[4].args).value,
                                       gw.activityById(b[3].args).value)
  {
    var batch := IssueBatch(route);
    var config :- gw.config(batch[0].args);
    var repo :- gw.repoById(batch[1].args);
    var issue :- gw.issueById(batch[2].args);
    var activity :- gw.activityById(batch[3].args);
    var issues :- gw.listIssues(batch[4].args);
    Ok(LoadedIssue(repo, config, issue, issues, activity))
  }

  /** `loadIssues`: the route's status goes to the backend and back into `params` unchanged. */
  function LoadIssues(gw: Gateway, route: RepoRoute): (r: Result<LoadedRepoRoute>)
    requires route.RepoIssues?
    ensures r.Ok? <==> AllSucceed(gw, IssuesBatch(route))
    ensures r.Err? ==> RejectedBy(gw, IssuesBatch(route), r.error)
    ensures r.Ok? ==> r.value.LoadedIssues? && r.value.status == route.status
    ensures r.Ok? ==> r.value.issues == gw.listIssues(IssuesBatch(route)[2].args).value
    ensures var b := IssuesBatch(route);
      r.Ok? ==> r.value == LoadedIssues(gw.repoById(b[1].args).value, gw.config(b[0].args).value,
                                        gw.listIssues(b[2].args).value, route.status)
  {
    var batch := IssuesBatch(route);
    var config :- gw.config(batch[0].args);
    var repo :- gw.repoById(batch[1].args);
    var issues :- gw.listIssues(batch[2].args);
    Ok(LoadedIssues(repo, config, issues, route.status))
  }

  // ------------------------------------------------------------- URL to backend

  /**
   * The issue filter of a URL reaches the backend: decoding `<rid>/issues`
   * with a status parameter and loading the route asks `list_issues` for
   * `open` or `closed` when the URL says so and for `all` otherwise, and the
   * loaded `params` report the decoded status.
   */
  lemma IssueFilterReachesBackend(gw: Gateway, rid: string, status: Option<string>)
    requires rid != ""
    ensures var route := RouteCodec.Decode([rid, "issues"], status);
      && route == Some(RepoIssues(rid, RouteCodec.IssueStatusParam(status)))
      && Carries(IssuesBatch(route.value)[2], "status",
                 if status == Some("open") || status == Some("closed") then status.value else "all")
      && (LoadIssues(gw, route.value).Ok? ==> LoadIssues(gw, route.value).value.status == route.value.status)
  {
  }

  /**
   * The patch filter of a URL reaches the backend only when it names a patch
   * state: otherwise `list_patches` is asked without a status.
   */
  lemma PatchFilterReachesBackend(gw: Gateway, rid: string, status: Option<string>)
    requires rid != ""
    ensures var route := RouteCodec.Decode([rid, "patches"], status);
      && route.Some? && route.value.RepoPatches?
      && ("status" in PatchesBatch(route.value)[2].args <==>
            status.Some? && status.value in {"draft", "open", "archived", "merged"})
      && (status.Some? && status.value in {"draft", "open", "archived", "merged"} ==>
            Carries(PatchesBatch(route.value)[2], "status", status.value))
      && (LoadPatches(gw, route.value).Ok? ==>
            LoadPatches(gw, route.value).value.patchStatus == route.value.patchStatus)
  {
  }
}

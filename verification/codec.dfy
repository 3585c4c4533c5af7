/**
 * The route <-> URL codec of the repository views: `repoRouteToPath` (route to
 * path and query) and `repoUrlToRoute` (path segments and the `status` search
 * parameter back to a route, or null).
 */
module RouteCodec {
  import opened RepoRoutes
  import opened Url

  // ------------------------------------------------------------- encoding

  /** JavaScript truthiness of a `string | undefined`: present and non-empty. */
  predicate Truthy(s: Option<string>)
  {
    s.Some? && s.value != ""
  }

  /**
   * The query step of the listing encoders: a `status` search parameter is
   * appended to the path only when the status is present and non-empty.
   */
  function AppendStatus(url: string, status: Option<string>): (r: string)
    ensures Truthy(status) ==> r == url + "?status=" + status.value
    ensures !Truthy(status) ==> r == url
  {
    if Truthy(status) then url + "?" + "status=" + status.value else url
  }

  /** `repoRouteToPath`: the path `/repos/<rid>/...` of a route, with its status query. */
  function RepoRouteToPath(route: RepoRoute): (url: string)
  {
    var pathSegments := ["/repos", route.rid];
    match route
    case RepoIssue(_, issue) => Join(pathSegments + ["issues", issue], '/')
    case RepoCreateIssue(_) => Join(pathSegments + ["issues", "create"], '/')
    case RepoIssues(_, status) =>
      AppendStatus(Join(pathSegments + ["issues"], '/'), Some(IssueStatusName(status)))
    case RepoPatch(_, patch) => Join(pathSegments + ["patches", patch], '/')
    case RepoPatches(_, status) =>
      AppendStatus(Join(pathSegments + ["patches"], '/'),
                   match status case None => None case Some(s) => Some(PatchStatusName(s)))
  }

  /** The status of a listing route as the query carries it, if any. */
  function ListingStatus(route: RepoRoute): Option<string>
  {
    match route
    case RepoIssues(_, status) => Some(IssueStatusName(status))
    case RepoPatches(_, status) =>
      (match status case None => None case Some(s) => Some(PatchStatusName(s)))
    case _ => None
  }

  // ------------------------------------------------------------- decoding

  /**
   * The status of an issue listing: `open` and `closed` are kept, any other
   * value, or none, falls back to "all".
   */
  function IssueStatusParam(status: Option<string>): (s: IssueStatus)
    ensures s == IssueStatus.Open <==> status == Some("open")
    ensures s == IssueStatus.Closed <==> status == Some("closed")
    ensures s != IssueStatus.All ==> status == Some(IssueStatusName(s))
  {
    if status == Some("open") then IssueStatus.Open
    else if status == Some("closed") then IssueStatus.Closed
    else IssueStatus.All
  }

  /**
   * The status of a patch listing: one of the four patch states, or no
   * status at all for any other value.
   */
  function PatchStatusParam(status: Option<string>): (s: Option<PatchStatus>)
    ensures s.Some? <==> status.Some? && status.value in {"draft", "open", "archived", "merged"}
    ensures s.Some? ==> status == Some(PatchStatusName(s.value))
  {
    match status
    case Some("draft") => Some(PatchStatus.Draft)
    case Some("open") => Some(PatchStatus.Open)
    case Some("archived") => Some(PatchStatus.Archived)
    case Some("merged") => Some(PatchStatus.Merged)
    case _ => None
  }

  /**
   * What `repoUrlToRoute` returns for the segments after `/repos` and the
   * `status` search parameter, read off by position: segment 0 is the rid,
   * segment 1 the resource kind, segment 2 the optional id or action.
   */
  function Decode(segments: seq<string>, status: Option<string>): (r: Option<RepoRoute>)
    ensures r.None? <==>
      |segments| < 2 || segments[0] == "" || (segments[1] != "issues" && segments[1] != "patches")
    ensures r.Some? ==> r.value.rid == segments[0]
    ensures r.Some? ==> (segments[1] == "issues" <==> r.value.RepoCreateIssue? || r.value.RepoIssue? || r.value.RepoIssues?)
  {
    if |segments| < 2 || segments[0] == "" then None
    else
      var rid := segments[0];
      var named := |segments| > 2 && segments[2] != "";
      if segments[1] == "issues" then
        if !named then Some(RepoIssues(rid, IssueStatusParam(status)))
        else if segments[2] == "create" then Some(RepoCreateIssue(rid))
        else Some(RepoIssue(rid, segments[2]))
      else if segments[1] == "patches" then
        if !named then Some(RepoPatches(rid, PatchStatusParam(status)))
        else Some(RepoPatch(rid, segments[2]))
      else None
  }

  /**
   * How many `shift()` calls `repoUrlToRoute` makes: two always, a third
   * when the rid is non-empty and the resource is `issues` or `patches`.
   */
  function ShiftCount(segments: seq<string>): (n: nat)
    ensures 2 <= n <= 3
  {
    if |segments| >= 2 && segments[0] != "" && segments[1] in {"issues", "patches"} then 3 else 2
  }

  /** `segments.shift()` over a cursor: the element under it, if any, and the new cursor. */
  method Shift(segments: array<string>, cursor: nat) returns (head: Option<string>, next: nat)
    requires cursor <= segments.Length
    ensures cursor < segments.Length ==> head == Some(segments[cursor]) && next == cursor + 1
    ensures cursor == segments.Length ==> head.None? && next == cursor
  {
    if cursor < segments.Length {
      head, next := Some(segments[cursor]), cursor + 1;
    } else {
      head, next := None, cursor;
    }
  }

  /**
   * `repoUrlToRoute`: decodes `segments[start..]` with up to three shifts.
   * `next` is the cursor after the last shift, so `segments[next..]` is what
   * the caller's array still holds.
   */
  method RepoUrlToRoute(segments: array<string>, start: nat, statusParam: Option<string>)
    returns (route: Option<RepoRoute>, next: nat)
    requires start <= segments.Length
    ensures route == Decode(segments[start..], statusParam)
    ensures next == if start + ShiftCount(segments[start..]) <= segments.Length
                    then start + ShiftCount(segments[start..]) else segments.Length
  {
    next := start;
    var rid, resource;
    rid, next := Shift(segments, next);
    resource, next := Shift(segments, next);

    if Truthy(rid) {
      if resource == Some("issues") {
        var idOrAction;
        idOrAction, next := Shift(segments, next);
        if Truthy(idOrAction) {
          if idOrAction.value == "create" {
            route := Some(RepoCreateIssue(rid.value));
          } else {
            route := Some(RepoIssue(rid.value, idOrAction.value));
          }
        } else {
          route := Some(RepoIssues(rid.value, IssueStatusParam(statusParam)));
        }
      } else if resource == Some("patches") {
        var id;
        id, next := Shift(segments, next);
        if Truthy(id) {
          route := Some(RepoPatch(rid.value, id.value));
        } else {
          route := Some(RepoPatches(rid.value, PatchStatusParam(statusParam)));
        }
      } else {
        route := None;
      }
    } else {
      route := None;
    }
  }

  // ------------------------------------------------------------- properties

  /** `["/repos", rid, resource].join("/")`. */
  lemma JoinListingPath(rid: string, resource: string)
    ensures Join(["/repos", rid, resource], '/') == "/repos/" + rid + "/" + resource
  {
    JoinThree("/repos", rid, resource, '/');
    assert "/repos" + ['/'] == "/repos/";
  }

  /** `["/repos", rid, resource, id].join("/")`. */
  lemma JoinResourcePath(rid: string, resource: string, id: string)
    ensures Join(["/repos", rid, resource, id], '/') == "/repos/" + rid + "/" + resource + "/" + id
  {
    JoinFour("/repos", rid, resource, id, '/');
    assert "/repos" + ['/'] == "/repos/";
  }

  /** The single-resource routes encode to fixed paths without a query. */
  lemma EncodeSingleResource(route: RepoRoute)
    requires route.RepoIssue? || route.RepoCreateIssue? || route.RepoPatch?
    ensures route.RepoIssue? ==>
      RepoRouteToPath(route) == "/repos/" + route.rid + "/issues/" + route.issue
    ensures route.RepoCreateIssue? ==>
      RepoRouteToPath(route) == "/repos/" + route.rid + "/issues/create"
    ensures route.RepoPatch? ==>
      RepoRouteToPath(route) == "/repos/" + route.rid + "/patches/" + route.patch
  {
    match route
    case RepoIssue(rid, issue) => EncodeIssue(rid, issue);
    case RepoCreateIssue(rid) => EncodeCreateIssue(rid);
    case RepoPatch(rid, patch) => EncodePatch(rid, patch);
  }

  lemma EncodeIssue(rid: string, issue: string)
    ensures RepoRouteToPath(RepoIssue(rid, issue)) == "/repos/" + rid + "/issues/" + issue
  {
    ResourcePath(rid, "issues", issue);
    assert "/" + "issues" + "/" == "/issues/";
  }

  lemma EncodeCreateIssue(rid: string)
    ensures RepoRouteToPath(RepoCreateIssue(rid)) == "/repos/" + rid + "/issues/create"
  {
    ResourcePath(rid, "issues", "create");
    assert "/" + "issues" + "/" + "create" == "/issues/create";
  }

  lemma EncodePatch(rid: string, patch: string)
    ensures RepoRouteToPath(RepoPatch(rid, patch)) == "/repos/" + rid + "/patches/" + patch
  {
    ResourcePath(rid, "patches", patch);
    assert "/" + "patches" + "/" == "/patches/";
  }

  /** The path of a single resource: `/repos/<rid>/<resource>/<id>`. */
  lemma ResourcePath(rid: string, resource: string, id: string)
    ensures Join(["/repos", rid] + [resource, id], '/') == "/repos/" + rid + "/" + resource + "/" + id
  {
    assert ["/repos", rid] + [resource, id] == ["/repos", rid, resource, id];
    JoinResourcePath(rid, resource, id);
  }

  /**
   * A listing route encodes to `/repos/<rid>/issues` or `/repos/<rid>/patches`,
   * followed by `?status=<status>` exactly when a status is set; an issue
   * listing always has one, "all" included.
   */
  lemma EncodeListing(route: RepoRoute)
    requires route.RepoIssues? || route.RepoPatches?
    ensures route.RepoIssues? ==>
      RepoRouteToPath(route) == "/repos/" + route.rid + "/issues" + "?status=" + IssueStatusName(route.status)
    ensures route.RepoPatches? && route.patchStatus.None? ==>
      RepoRouteToPath(route) == "/repos/" + route.rid + "/patches"
    ensures route.RepoPatches? && route.patchStatus.Some? ==>
      RepoRouteToPath(route) == "/repos/" + route.rid + "/patches" + "?status=" + PatchStatusName(route.patchStatus.value)
  {
    match route
    case RepoIssues(rid, status) =>
      ListingPath(rid, "issues");
    case RepoPatches(rid, status) =>
      ListingPath(rid, "patches");
  }

  /** The path of a listing before its query: `/repos/<rid>/<resource>`. */
  lemma ListingPath(rid: string, resource: string)
    ensures Join(["/repos", rid] + [resource], '/') == "/repos/" + rid + "/" + resource
  {
    assert ["/repos", rid] + [resource] == ["/repos", rid, resource];
    JoinListingPath(rid, resource);
  }

  /** With a rid free of '?', the output holds a '?' exactly when a status query was appended. */
  lemma NoQueryWithoutStatus(route: RepoRoute)
    requires route.RepoIssues? || route.RepoPatches?
    requires '?' !in route.rid
    ensures '?' in RepoRouteToPath(route) <==> ListingStatus(route).Some?
  {
    EncodeListing(route);
    var base := "/repos/" + route.rid + (if route.RepoIssues? then "/issues" else "/patches");
    assert '?' !in base;
    if ListingStatus(route).Some? {
      var name := ListingStatus(route).value;
      assert RepoRouteToPath(route) == base + "?status=" + name;
      assert RepoRouteToPath(route)[|base|] == '?';
    } else {
      assert RepoRouteToPath(route) == base;
    }
  }

  /**
   * Reading the URL back gives the status that was appended: none when it was
   * absent or empty, and the value itself otherwise, for a path without '?'
   * and a value without '&'.
   */
  lemma StatusReadBack(path: string, status: Option<string>)
    requires '?' !in path
    requires status.Some? ==> '&' !in status.value
    ensures ParseLocation(AppendStatus(path, status)).0 == Split(path, '/')
    ensures ParseLocation(AppendStatus(path, status)).1 == if Truthy(status) then status else None
  {
    if Truthy(status) {
      ParseStatusQuery(path, status.value);
    } else {
      ParsePathOnly(path);
    }
  }

  /**
   * A non-empty third segment is the id of the resource: under `issues` an
   * issue (unless it is `create`), under `patches` a patch.
   */
  lemma DecodeResourceId(rid: string, id: string, rest: seq<string>, status: Option<string>)
    requires rid != "" && id != ""
    ensures id != "create" ==> Decode([rid, "issues", id] + rest, status) == Some(RepoIssue(rid, id))
    ensures Decode([rid, "patches", id] + rest, status) == Some(RepoPatch(rid, id))
  {
    assert ([rid, "issues", id] + rest)[2] == id;
    assert ([rid, "patches", id] + rest)[2] == id;
  }

  /** Under `issues`, a `create` segment is the create-issue route, whatever follows. */
  lemma CreateIsReserved(rid: string, rest: seq<string>, status: Option<string>)
    requires rid != ""
    ensures Decode([rid, "issues", "create"] + rest, status) == Some(RepoCreateIssue(rid))
  {
  }

  /** Segments after the third are never read. */
  lemma DecodeIgnoresTrailing(segments: seq<string>, extra: seq<string>, status: Option<string>)
    requires |segments| >= 3
    ensures Decode(segments + extra, status) == Decode(segments, status)
  {
    var s := segments + extra;
    assert s[0] == segments[0] && s[1] == segments[1] && s[2] == segments[2];
  }

  /** An empty third segment counts as absent: the result is the listing route. */
  lemma EmptyIdIsAbsent(rid: string, resource: string, extra: seq<string>, status: Option<string>)
    ensures Decode([rid, resource, ""] + extra, status) == Decode([rid, resource], status)
  {
    var s := [rid, resource, ""] + extra;
    assert s[0] == rid && s[1] == resource && s[2] == "";
  }

  /** A query value a decoder cannot read leaves the listing unfiltered. */
  lemma UnknownStatus(rid: string, status: Option<string>)
    requires rid != ""
    requires status !in {Some("open"), Some("closed"), Some("draft"), Some("archived"), Some("merged")}
    ensures Decode([rid, "issues"], status) == Some(RepoIssues(rid, IssueStatus.All))
    ensures Decode([rid, "patches"], status) == Some(RepoPatches(rid, None))
  {
  }

  // ------------------------------------------------------------- round trip

  /** An identifier that survives being a path segment: non-empty, without '/' or '?'. */
  predicate Segment(s: string)
  {
    s != "" && '/' !in s && '?' !in s
  }

  /**
   * The routes whose path decodes back to them: segment-safe identifiers,
   * and an issue id other than the reserved `create`.
   */
  predicate WellFormed(route: RepoRoute)
  {
    && Segment(route.rid)
    && (route.RepoIssue? ==> Segment(route.issue) && route.issue != "create")
    && (route.RepoPatch? ==> Segment(route.patch))
  }

  /** The segments `RepoRouteToPath` joins, with "/repos" split into its two halves. */
  function PathSegments(route: RepoRoute): (segments: seq<string>)
    ensures |segments| >= 4 && segments[..3] == ["", "repos", route.rid]
  {
    match route
    case RepoIssue(rid, issue) => ["", "repos", rid, "issues", issue]
    case RepoCreateIssue(rid) => ["", "repos", rid, "issues", "create"]
    case RepoIssues(rid, _) => ["", "repos", rid, "issues"]
    case RepoPatch(rid, patch) => ["", "repos", rid, "patches", patch]
    case RepoPatches(rid, _) => ["", "repos", rid, "patches"]
  }

  /** Joining after "/repos" is a leading '/' before the join after "repos". */
  lemma JoinLeadingSlash(tail: seq<string>)
    requires |tail| >= 1
    ensures Join(["/repos"] + tail, '/') == ['/'] + Join(["repos"] + tail, '/')
  {
    var w := ['/'] + "repos";
    assert w == "/repos";
    assert [w] + tail == ["/repos"] + tail;
    JoinPrefixChar('/', "repos", tail, '/');
  }

  /** The path of a route, before any query, is '/' and the join of its segments after the first. */
  lemma PathIsJoin(route: RepoRoute)
    ensures RepoRouteToPath(route)
         == AppendStatus(['/'] + Join(PathSegments(route)[1..], '/'), ListingStatus(route))
  {
    var tail := PathSegments(route)[2..];
    assert PathSegments(route)[1..] == ["repos"] + tail;
    JoinLeadingSlash(tail);
    match route
    case RepoIssue(rid, issue) =>
      assert ["/repos", rid] + ["issues", issue] == ["/repos"] + tail;
    case RepoCreateIssue(rid) =>
      assert ["/repos", rid] + ["issues", "create"] == ["/repos"] + tail;
    case RepoIssues(rid, _) =>
      assert ["/repos", rid] + ["issues"] == ["/repos"] + tail;
    case RepoPatch(rid, patch) =>
      assert ["/repos", rid] + ["patches", patch] == ["/repos"] + tail;
    case RepoPatches(rid, _) =>
      assert ["/repos", rid] + ["patches"] == ["/repos"] + tail;
  }

  /** The path of a well-formed route splits back into its segments, and holds no '?'. */
  lemma SplitPath(route: RepoRoute)
    requires WellFormed(route)
    ensures var path := ['/'] + Join(PathSegments(route)[1..], '/');
            Split(path, '/') == PathSegments(route) && '?' !in path
  {
    var segments := PathSegments(route);
    var rest := segments[1..];
    var joined := Join(rest, '/');
    var path := ['/'] + joined;
    forall i | 0 <= i < |rest| ensures '/' !in rest[i] && '?' !in rest[i] {
      assert rest[i] == segments[i + 1];
    }
    SplitJoin(rest, '/');
    assert path[0] == '/' && path[1..] == joined;
    assert [""] + rest == segments;
    JoinAvoids(rest, '/', '?');
  }

  /** Parsing the URL of a well-formed route gives its segments and its status query. */
  lemma ParseEncoded(route: RepoRoute)
    requires WellFormed(route)
    ensures ParseLocation(RepoRouteToPath(route)) == (PathSegments(route), ListingStatus(route))
  {
    var path := ['/'] + Join(PathSegments(route)[1..], '/');
    var query := ListingStatus(route);
    PathIsJoin(route);
    SplitPath(route);
    if Truthy(query) {
      ParseStatusQuery(path, query.value);
    } else {
      ParsePathOnly(path);
    }
  }

  /** The segments after `/repos` of a well-formed route decode, with its status, to that route. */
  lemma DecodeSegments(route: RepoRoute)
    requires WellFormed(route)
    ensures Decode(PathSegments(route)[2..], ListingStatus(route)) == Some(route)
  {
    match route
    case RepoIssues(_, status) =>
      assert IssueStatusParam(Some(IssueStatusName(status))) == status;
    case RepoPatches(_, status) =>
      if status.Some? {
        assert PatchStatusParam(Some(PatchStatusName(status.value))) == status;
      }
    case _ =>
  }

  /**
   * Round trip: splitting the encoded URL gives "", "repos" and then
   * segments that decode, with the status parameter, to the same route.
   */
  lemma RoundTrip(route: RepoRoute)
    requires WellFormed(route)
    ensures var (path, status) := ParseLocation(RepoRouteToPath(route));
            |path| >= 2 && path[..2] == ["", "repos"] && Decode(path[2..], status) == Some(route)
  {
    ParseEncoded(route);
    DecodeSegments(route);
  }

  /** The one identifier outside the round trip: an issue named `create` comes back as the create route. */
  lemma CreateIssueIdDoesNotRoundTrip(rid: string)
    requires Segment(rid)
    ensures var (path, status) := ParseLocation(RepoRouteToPath(RepoIssue(rid, "create")));
            Decode(path[2..], status) == Some(RepoCreateIssue(rid))
  {
    RoundTrip(RepoCreateIssue(rid));
  }
}

# Repository view routes: URL codec and loaders

A Dafny model of the repository-view router of a desktop client for a
peer-to-peer code collaboration network (`src/views/repo/router.ts`).
A repository view is one of five routes (`repo.createIssue`, `repo.issue`,
`repo.issues`, `repo.patch`, `repo.patches`), each naming a repository by its
`rid`. The router

- encodes a route as a path `/repos/<rid>/...`, with a `?status=<status>`
  query for the listings (`repoRouteToPath`);
- decodes the path segments after `/repos` and the `status` search parameter
  back into a route, or into null when it does not recognise the shape
  (`repoUrlToRoute`). It reads the segments with up to three `shift()` calls.
  Under `issues` the segment `create` is reserved. An empty segment counts as
  absent. An unknown issue status falls back to `all`, and an unknown patch
  status means no status;
- loads a route: one batch of backend commands per route (`loadPatch`,
  `loadPatches`, `loadCreateIssue`, `loadIssue`, `loadIssues`), whose replies
  become the `params` of the loaded route.

Files:

- `types.dfy` (module `RepoRoutes`): the route union, the two status enums
  and the strings they stand for.
- `url.dfy` (module `Url`): the string primitives the codec relies on.
  These are `Array.prototype.join` and `String.prototype.split` on one
  character, cutting a location at its first `?`, and
  `URLSearchParams.get`, with the lemmas that `split` undoes `join`.
- `codec.dfy` (module `RouteCodec`): the encoder as a function and the
  decoder as a method. The method runs over an array of segments with a cursor
  standing for `shift()`. It is proved against `Decode`, a positional reading
  of the same rules. The file also holds the codec properties and the round trip.
- `loaders.dfy` (module `RouteLoaders`): the backend as a `Gateway` parameter,
  the request batches, and the five loaders. A loader succeeds exactly when
  every request of its batch does. It threads the status filter and forwards
  the content of the patch listing.

Two facts about the code worth stating up front:

- An issue listing always carries its status in the URL, `?status=all`
  included (`router.ts:237`: every issue status is a non-empty string).
- `loadIssue` makes five backend calls: `config`, `repo_by_id`,
  `issue_by_id`, `activity_by_id` and `list_issues`.

The `RepoRoute` union (`router.ts:96-101`) is the datatype
`RepoRoutes.RepoRoute`, one constructor per `resource` tag. The encoder
`repoRouteToPath` is the function `RouteCodec.RepoRouteToPath`; what it
produces for each route is stated by `EncodeSingleResource` and
`EncodeListing` below.

## Model

| member | source | states |
|---|---|---|
| `RepoRoutes.IssueStatusName` | src/views/repo/router.ts:12 | every issue status stands for a non-empty word free of `/`, `?` and `&`, so it is always appended and survives the query |
| `RepoRoutes.PatchStatusName` | src/views/repo/router.ts:61 | the same for the four patch states |
| `RouteCodec.EncodeSingleResource` | src/views/repo/router.ts:225-233 | `repo.issue` gives `/repos/<rid>/issues/<issue>`, `repo.createIssue` gives `/repos/<rid>/issues/create`, `repo.patch` gives `/repos/<rid>/patches/<patch>` |
| `RouteCodec.EncodeListing` | src/views/repo/router.ts:234-252 | the encoder on the listings: `repo.issues` gives `/repos/<rid>/issues?status=<status>`; `repo.patches` gives `/repos/<rid>/patches`, followed by `?status=<status>` exactly when a status is set |
| `RouteCodec.NoQueryWithoutStatus` | src/views/repo/router.ts:234-252 | for a rid without `?`, a listing URL contains `?` if and only if a status is set |
| `RouteCodec.StatusReadBack` | src/views/repo/router.ts:236-240 | for a path without `?` and a value without `&`, reading the URL back gives the path's segments and the status that was appended: none when it was absent or empty, the value otherwise |
| `RouteCodec.IssueStatusParam` | src/views/repo/router.ts:279-284 | the decoded issue status is `open` exactly for `open`, `closed` exactly for `closed`, and `all` for any other value or none |
| `RouteCodec.PatchStatusParam` | src/views/repo/router.ts:295-305 | a patch status is decoded exactly for `draft`, `open`, `archived` and `merged`, and it is the state of that name; any other value or none gives no status |
| `RouteCodec.Decode` | src/views/repo/router.ts:258-313 | null exactly when the rid segment is missing or empty or the second segment is neither `issues` nor `patches`; otherwise a route of that resource whose rid is the first segment |
| `RouteCodec.ShiftCount` | src/views/repo/router.ts:262-287 | the decoder shifts two or three times |
| `RouteCodec.Shift` | src/views/repo/router.ts:262-263 | `shift()` on a cursor: the element under the cursor and the cursor one further, or nothing and the same cursor at the end |
| `RouteCodec.RepoUrlToRoute` | src/views/repo/router.ts:258-313 | the shifting decoder returns `Decode` of the remaining segments; it consumes two segments, plus a third exactly when the rid is non-empty and the resource is `issues` or `patches`, never more than remain |
| `RouteCodec.DecodeResourceId` | src/views/repo/router.ts:268-293 | a non-empty third segment is the id: under `issues` it gives `repo.issue` with that id unless it is `create`, under `patches` it gives `repo.patch` with that id, whatever follows |
| `RouteCodec.CreateIsReserved` | src/views/repo/router.ts:267-270 | under `issues`, `create` always decodes to `repo.createIssue`, whatever follows |
| `RouteCodec.DecodeIgnoresTrailing` | src/views/repo/router.ts:262-287 | segments after the third never change the result |
| `RouteCodec.EmptyIdIsAbsent` | src/views/repo/router.ts:268-288 | an empty third segment decodes as if it were absent, giving the listing route |
| `RouteCodec.UnknownStatus` | src/views/repo/router.ts:279-305 | a status value outside both lists gives `repo.issues` with `all` and `repo.patches` with no status |
| `RouteCodec.ParseEncoded` | src/views/repo/router.ts:225-256 | the URL of a well-formed route splits into `""`, `repos`, its segments, and its status parameter |
| `RouteCodec.DecodeSegments` | src/views/repo/router.ts:258-313 | those segments and that status decode to the route |
| `RouteCodec.RoundTrip` | src/views/repo/router.ts:225-313 | for non-empty rid and ids free of `/` and `?` and an issue id other than `create`, decoding the split URL of a route gives back that route |
| `RouteCodec.CreateIssueIdDoesNotRoundTrip` | src/views/repo/router.ts:228-233 | an issue whose id is `create` encodes to the create-issue URL and decodes to `repo.createIssue` |
| `Url.GetParam` | src/views/repo/router.ts:279 | `searchParams.get`: nothing without a query or without a pair of that name; otherwise the value of the first pair of that name |
| `Url.FirstValueIsFirst` | src/views/repo/router.ts:295 | the pair scan stops at the first pair named `status`, and finds nothing exactly when no pair has that name |
| `Url.ParseStatusQuery` | src/views/repo/router.ts:238-239 | the query `status=<v>` that the encoder appends is read back as `v` by `searchParams.get("status")` |
| `RouteLoaders.AllOrNothing` | src/views/repo/router.ts:112-128 | `Promise.all`: a batch resolves (`AllSucceed`, every call answered) exactly when no call rejects it (`RejectedBy`) |
| `RouteLoaders.ListPatchesRequest` | src/views/repo/router.ts:144-147 | the `list_patches` call carries the rid, and a `status` argument exactly when the route has a status, then its name; no other argument |
| `RouteLoaders.PatchBatch` | src/views/repo/router.ts:112-128 | `loadPatch` calls `config`, `repo_by_id`, `list_patches`, `patch_by_id` and `revisions_by_patch` in that order. All calls but `config` carry the rid, the last two carry the patch id, and the listing carries no status. `config` has no arguments, and no call has an argument beyond these |
| `RouteLoaders.PatchesBatch` | src/views/repo/router.ts:139-148 | `loadPatches` calls `config`, `repo_by_id` and `list_patches`; the listing carries a status if and only if the route has one, and then its name; no call has other arguments |
| `RouteLoaders.CreateIssueBatch` | src/views/repo/router.ts:159-168 | `loadCreateIssue` calls `config`, `repo_by_id` and `list_issues` with status `all`, with no other arguments |
| `RouteLoaders.IssueBatch` | src/views/repo/router.ts:179-197 | `loadIssue` makes five calls. `issue_by_id` and `activity_by_id` carry the issue id, `activity_by_id` has type name `xyz.radicle.issue`, and `list_issues` has status `all`; no call has other arguments |
| `RouteLoaders.IssuesBatch` | src/views/repo/router.ts:208-217 | `loadIssues` calls `config`, `repo_by_id` and `list_issues` with the route's status name, with no other arguments |
| `RouteLoaders.LoadPatch` | src/views/repo/router.ts:109-134 | succeeds exactly when every call of the batch does, else fails with the reason of a failed call; the loaded `params` are the replies of `repo_by_id`, `config`, `patch_by_id` and `revisions_by_patch`, and the `content` of the listing page as `patches` |
| `RouteLoaders.LoadPatches` | src/views/repo/router.ts:136-154 | all-or-nothing as above; the loaded `params` are the replies of `repo_by_id` and `config`, the whole listing page, and the route's status unchanged |
| `RouteLoaders.LoadCreateIssue` | src/views/repo/router.ts:156-174 | all-or-nothing as above; the loaded `params` are the replies of `repo_by_id`, `config` and `list_issues` |
| `RouteLoaders.LoadIssue` | src/views/repo/router.ts:176-203 | all-or-nothing over the five calls; the loaded `params` are the replies of `repo_by_id`, `config`, `issue_by_id`, `list_issues` and `activity_by_id` |
| `RouteLoaders.LoadIssues` | src/views/repo/router.ts:205-223 | all-or-nothing as above; the loaded `params` are the replies of `repo_by_id`, `config` and `list_issues`, and the route's status unchanged |
| `RouteLoaders.IssueFilterReachesBackend` | src/views/repo/router.ts:213-221 | a decoded issue filter reaches `list_issues` as `open` or `closed` when the URL says so, and as `all` otherwise; the loaded status is the decoded one |
| `RouteLoaders.PatchFilterReachesBackend` | src/views/repo/router.ts:144-152 | `list_patches` receives a status if and only if the URL names one of the four patch states, and then that state; the loaded status is the decoded one |

## Left out

- `loadRoute` in `src/lib/router/definitions.ts` is not part of this model.
  It is the dispatcher over all application routes. It awaits `list_repos` and
  `config` for the home route, hands `repo.issue`, `repo.issues` and
  `repo.patches` to their loaders, and passes every other route through.
- Concurrency and timing of `Promise.all`: the calls of a batch are modelled
  as independent replies of a pure `Gateway`. Which rejection reason wins
  depends on which call settles first. The contracts only say it is the reason
  of one failed call. The loader functions pick the first failed call in batch
  order.
- The shift decoder does not shorten the caller's array in place. It advances
  a cursor, and `segments[next..]` is what the array would hold afterwards.
- The code that splits `location` into segments and search parameters
  belongs to the caller and is not part of this model. `ParseLocation`
  stands in for it: cut at the first `?`, split the path on `/`, and read the
  first `status=` pair of the query. Percent-encoding, `+` decoding and
  fragments are not modelled.
- `invoke` is generic in its reply type. The model gives each command its
  own typed reply function instead of checking a dynamic reply.
- `Config`, `RepoInfo`, `Issue`, `Operation`, `Patch` and `Revision` are
  opaque types. `PaginatedQuery` keeps only `content`; its continuation
  fields are one opaque value.
- The `unreachable(route)` branch of `repoRouteToPath` cannot be reached: the
  match over the route datatype is exhaustive.

# Arcadia Spark compute manager

This project models `ArcadiaSparkComputeManager`, the process-wide cache of
the Arcadia workspaces that a signed-in user's selected Azure
subscriptions hold, and proves properties of it in Dafny.

The model has four parts:

- `ComputeManager.Manager` (manager.dfy) is the manager itself: a class whose
  one cached field, `workSpaces`, is wiped by the sign-out and
  subscription-change listeners, replaced by a refresh, and filtered down to
  the running workspaces by every read made while a user is signed in.
- `Workspaces` (workspaces.dfy) holds the values and the pure views:
  - the values are subscriptions, workspaces, Spark computes and the outcome
    of each subscription's listing request;
  - the views are the running filter, the flattened compute list, the
    per-workspace compute refresh and the three-key lookup filter;
  - the fan-out over the selected subscriptions is a sequential fold,
    `Collect`, in which a failed request contributes nothing.
- `WorkspaceUris` (workspace_uris.dfy) builds the workspace-list URI the way
  the manager does, by resolving `"/subscriptions/"`, the subscription id and
  `"providers/Microsoft.ProjectArcadia/workspaces"` in turn.
- `Rfc3986` (rfc3986.dfy) is the URI machinery that construction needs:
  - parsing per Appendix B of RFC 3986;
  - recomposition per section 5.3;
  - strict reference resolution per sections 5.2.2 to 5.2.4.

Some things are inputs rather than lookups:

- Whether a user is signed in (`getAzureManager() != null`) is the
  `signedIn` field.
- The outcome of the selected-subscription lookup is an `Option` of
  listings, `None` when the lookup throws.
- Each listing carries `Some(items)` or `None` for a failed request.

Java's sorted sets become Dafny sets, which collapse two workspaces only
when they are equal as values. `ArcadiaWorkSpace`'s comparator is not part
of this model; a comparator on a coarser key would collapse more (see
"Left out").

## Model

| member | source | states |
|---|---|---|
| ComputeManager.Manager.constructor | Utils/hdinsight-node-common/src/com/microsoft/azure/projectarcadia/common/ArcadiaSparkComputeManager.java:78-84 | The cache starts empty; the subscription-change listener is registered exactly when a user is signed in at construction. |
| ComputeManager.Manager.SignIn | Utils/hdinsight-node-common/src/com/microsoft/azure/projectarcadia/common/ArcadiaSparkComputeManager.java:67-76 | Signing in makes the account lookup succeed and leaves the cache as it was: no listener reacts to it. |
| ComputeManager.Manager.SignOut | Utils/hdinsight-node-common/src/com/microsoft/azure/projectarcadia/common/ArcadiaSparkComputeManager.java:79 | After the sign-out event no user is signed in and the cache is empty. |
| ComputeManager.Manager.SubscriptionsChanged | Utils/hdinsight-node-common/src/com/microsoft/azure/projectarcadia/common/ArcadiaSparkComputeManager.java:80-83 | A subscription change empties the cache when its listener was registered and leaves it untouched otherwise. |
| ComputeManager.Manager.GetWorkspaces | Utils/hdinsight-node-common/src/com/microsoft/azure/projectarcadia/common/ArcadiaSparkComputeManager.java:134-139 | Returns exactly the running workspaces of the cache and stores that set back as the cache. |
| ComputeManager.Manager.GetClusters | Utils/hdinsight-node-common/src/com/microsoft/azure/projectarcadia/common/ArcadiaSparkComputeManager.java:86-98 | With no signed-in user: the empty set, cache untouched. Otherwise the cache is filtered to its running workspaces and the result is the union of their computes. |
| ComputeManager.Manager.UpdateWithResponse | Utils/hdinsight-node-common/src/com/microsoft/azure/projectarcadia/common/ArcadiaSparkComputeManager.java:187-198 | Returns the manager itself; the cache becomes the set built from the response pairs, whatever it held before. |
| ComputeManager.Manager.FetchWorkSpaces | Utils/hdinsight-node-common/src/com/microsoft/azure/projectarcadia/common/ArcadiaSparkComputeManager.java:148-185 | Emits the manager exactly when a user is signed in and the subscription lookup succeeded, and then the cache is the set the joined listings build; on the error path the cache is unchanged. |
| ComputeManager.Manager.Refresh | Utils/hdinsight-node-common/src/com/microsoft/azure/projectarcadia/common/ArcadiaSparkComputeManager.java:100-113 | Always returns the manager itself; the cache is replaced by the joined listings when signed in and the lookup succeeded, and unchanged otherwise. |
| ComputeManager.Manager.FetchClusters | Utils/hdinsight-node-common/src/com/microsoft/azure/projectarcadia/common/ArcadiaSparkComputeManager.java:115-132 | Succeeds exactly when FetchWorkSpaces does; the cache is then the running workspaces of the joined listings, each with the computes its own fetch returned, or with its previous computes when that fetch failed; on failure the cache is unchanged. |
| ComputeManager.Manager.FindCompute | Utils/hdinsight-node-common/src/com/microsoft/azure/projectarcadia/common/ArcadiaSparkComputeManager.java:205-214 | First the cached matches (none when signed out), then the matches among the computes after fetchClusters, present exactly when that fetch succeeds; both are the computes whose workspace name, tenant id and name equal the keys. |
| Workspaces.NewWorkspace | Utils/hdinsight-node-common/src/com/microsoft/azure/projectarcadia/common/ArcadiaSparkComputeManager.java:193-194 | The workspace keeps its subscription, name and running state, and its computes are exactly the named ones, each pointing back to it and to its subscription. |
| Workspaces.Running | Utils/hdinsight-node-common/src/com/microsoft/azure/projectarcadia/common/ArcadiaSparkComputeManager.java:136-137 | The result is a subset of the input holding every running workspace of it and only running ones. |
| Workspaces.RunningIdempotent | Utils/hdinsight-node-common/src/com/microsoft/azure/projectarcadia/common/ArcadiaSparkComputeManager.java:134-139 | Filtering the cache to running workspaces a second time changes nothing, so a second getWorkspaces returns the same set and leaves the cache unchanged. |
| Workspaces.RunningClusters | Utils/hdinsight-node-common/src/com/microsoft/azure/projectarcadia/common/ArcadiaSparkComputeManager.java:93-97 | A compute is listed by getClusters exactly when some running cached workspace holds it. |
| Workspaces.Clusters | Utils/hdinsight-node-common/src/com/microsoft/azure/projectarcadia/common/ArcadiaSparkComputeManager.java:93-97 | The getClusters flatten: every compute of every given workspace is listed; RunningClusters states both directions for the running set. |
| Workspaces.StoppedContributesNothing | Utils/hdinsight-node-common/src/com/microsoft/azure/projectarcadia/common/ArcadiaSparkComputeManager.java:93-97 | Adding or removing a workspace that is not running does not change the listed computes. |
| Workspaces.ClustersUnion | Utils/hdinsight-node-common/src/com/microsoft/azure/projectarcadia/common/ArcadiaSparkComputeManager.java:94-95 | The flattened compute list of a union of workspace sets is the union of their flattened lists. |
| Workspaces.ClustersOfRunningStable | Utils/hdinsight-node-common/src/com/microsoft/azure/projectarcadia/common/ArcadiaSparkComputeManager.java:88-98 | A second getClusters lists the same computes as the first. |
| Workspaces.Matching | Utils/hdinsight-node-common/src/com/microsoft/azure/projectarcadia/common/ArcadiaSparkComputeManager.java:211-213 | The result is the subset of the given computes whose workspace name, tenant id and compute name all equal the keys; every such compute is in it. |
| Workspaces.MatchLocated | Utils/hdinsight-node-common/src/com/microsoft/azure/projectarcadia/common/ArcadiaSparkComputeManager.java:209-213 | A cached match lies in a running cached workspace with the requested name, under a subscription of the requested tenant. |
| Workspaces.WithComputes | Utils/hdinsight-node-common/src/com/microsoft/azure/projectarcadia/common/ArcadiaSparkComputeManager.java:120-127 | One workspace's compute refresh keeps its subscription, name and running state; on success its computes are exactly the fetched names pointing back to it, and on failure it is unchanged. |
| Workspaces.RefreshComputes | Utils/hdinsight-node-common/src/com/microsoft/azure/projectarcadia/common/ArcadiaSparkComputeManager.java:117-129 | Every running workspace of the fetched cache appears with its refreshed computes; RefreshedClusters states what the refreshed cache lists. |
| Workspaces.RefreshedClusters | Utils/hdinsight-node-common/src/com/microsoft/azure/projectarcadia/common/ArcadiaSparkComputeManager.java:117-129 | After the per-workspace refresh a compute is listed exactly when a workspace fetched it, or failed its fetch and already held it: one failing workspace does not affect the others. |
| Workspaces.RefreshKeepsRunning | Utils/hdinsight-node-common/src/com/microsoft/azure/projectarcadia/common/ArcadiaSparkComputeManager.java:117-132 | The per-workspace refresh keeps the running state, so a later getClusters keeps every refreshed workspace. |
| Workspaces.RefreshKeepsConsistent | Utils/hdinsight-node-common/src/com/microsoft/azure/projectarcadia/common/ArcadiaSparkComputeManager.java:117-129 | After the refresh every compute still points back to its workspace and subscription. |
| Workspaces.Pairs | Utils/hdinsight-node-common/src/com/microsoft/azure/projectarcadia/common/ArcadiaSparkComputeManager.java:180 | One listing yields one pair per item; PairsMembership states that the pairs are exactly its items under its subscription. |
| Workspaces.PairsMembership | Utils/hdinsight-node-common/src/com/microsoft/azure/projectarcadia/common/ArcadiaSparkComputeManager.java:175-180 | The pairs of one successful listing are exactly its items, each paired with the listing's subscription. |
| Workspaces.Contribution | Utils/hdinsight-node-common/src/com/microsoft/azure/projectarcadia/common/ArcadiaSparkComputeManager.java:176-179 | A failed listing contributes nothing (onErrorResumeNext); a successful one contributes one pair per item. |
| Workspaces.Collect | Utils/hdinsight-node-common/src/com/microsoft/azure/projectarcadia/common/ArcadiaSparkComputeManager.java:171-183 | The joined toList result is empty when every listing failed; CollectMembership states exactly which pairs it holds. |
| Workspaces.CollectMembership | Utils/hdinsight-node-common/src/com/microsoft/azure/projectarcadia/common/ArcadiaSparkComputeManager.java:171-183 | The joined list holds a pair exactly when some listing succeeded, has that subscription and returned that item. |
| Workspaces.CollectAppend | Utils/hdinsight-node-common/src/com/microsoft/azure/projectarcadia/common/ArcadiaSparkComputeManager.java:171-183 | Joining a concatenation of listings gives the concatenation of the joined parts. |
| Workspaces.FailedListingContributesNothing | Utils/hdinsight-node-common/src/com/microsoft/azure/projectarcadia/common/ArcadiaSparkComputeManager.java:176-179 | Isolation: a failed listing anywhere in the fan-out contributes nothing and the other listings contribute exactly what they would without it. |
| Workspaces.FromResponse | Utils/hdinsight-node-common/src/com/microsoft/azure/projectarcadia/common/ArcadiaSparkComputeManager.java:188-196 | At most one workspace per pair; empty exactly when the response list is empty; every compute points back to its workspace. |
| Workspaces.FromResponseMembership | Utils/hdinsight-node-common/src/com/microsoft/azure/projectarcadia/common/ArcadiaSparkComputeManager.java:189-196 | A workspace is in the built set exactly when some response pair builds it. |
| Workspaces.RefreshedMembership | Utils/hdinsight-node-common/src/com/microsoft/azure/projectarcadia/common/ArcadiaSparkComputeManager.java:163-196 | After a refresh a workspace is cached exactly when a subscription whose listing succeeded listed it, paired with that same subscription. |
| Workspaces.OrderIndependent | Utils/hdinsight-node-common/src/com/microsoft/azure/projectarcadia/common/ArcadiaSparkComputeManager.java:171-183 | Listings completing in any order (any permutation) publish the same set. |
| Workspaces.RefreshedEmpty | Utils/hdinsight-node-common/src/com/microsoft/azure/projectarcadia/common/ArcadiaSparkComputeManager.java:171-196 | A refresh publishes the empty set exactly when every listing failed or came back empty. |
| WorkspaceUris.SubscriptionSegmentParse | Utils/hdinsight-node-common/src/com/microsoft/azure/projectarcadia/common/ArcadiaSparkComputeManager.java:61 | "/subscriptions/" parses as a path-only reference: an absolute path. |
| WorkspaceUris.WorkspacesSegmentParse | Utils/hdinsight-node-common/src/com/microsoft/azure/projectarcadia/common/ArcadiaSparkComputeManager.java:62 | "providers/Microsoft.ProjectArcadia/workspaces" parses as a path-only reference: a relative path. |
| WorkspaceUris.UriResolve | Utils/hdinsight-node-common/src/com/microsoft/azure/projectarcadia/common/ArcadiaSparkComputeManager.java:144-145 | java.net.URI.resolve: a reference with a scheme or against an opaque base is returned as it is, otherwise resolved per RFC 3986; its meaning for this code is stated by ResolveTwice and ResolveUnderDirectory. |
| WorkspaceUris.SubscriptionsUri | Utils/hdinsight-node-common/src/com/microsoft/azure/projectarcadia/common/ArcadiaSparkComputeManager.java:141-146 | getSubscriptionsUri; its shape is stated by SubscriptionsUriShape. |
| WorkspaceUris.WorkspaceListUri | Utils/hdinsight-node-common/src/com/microsoft/azure/projectarcadia/common/ArcadiaSparkComputeManager.java:165-168 | The workspace-list URI of the mapping step; its shape is stated by WorkspaceListUriShape. |
| WorkspaceUris.ResolveTwice | Utils/hdinsight-node-common/src/com/microsoft/azure/projectarcadia/common/ArcadiaSparkComputeManager.java:143-145 | Resolving an absolute directory path and then a relative name keeps the base's scheme and authority (neither for an opaque base) and yields the directory followed by the name. |
| WorkspaceUris.SubscriptionsUriShape | Utils/hdinsight-node-common/src/com/microsoft/azure/projectarcadia/common/ArcadiaSparkComputeManager.java:141-146 | For a subscription id that is one plain segment, getSubscriptionsUri has path "/subscriptions/{id}" and no query or fragment; it keeps the endpoint's scheme and authority, or has neither when the endpoint is opaque. |
| WorkspaceUris.AppendSlash | Utils/hdinsight-node-common/src/com/microsoft/azure/projectarcadia/common/ArcadiaSparkComputeManager.java:167 | Parsing the string form of such a URI with '/' appended gives the same URI with '/' appended to its path. |
| WorkspaceUris.ResolveUnderDirectory | Utils/hdinsight-node-common/src/com/microsoft/azure/projectarcadia/common/ArcadiaSparkComputeManager.java:167-168 | Resolving a relative path against that URI with '/' appended puts the path under its own path. |
| WorkspaceUris.WorkspaceListUriShape | Utils/hdinsight-node-common/src/com/microsoft/azure/projectarcadia/common/ArcadiaSparkComputeManager.java:165-168 | The workspace-list URI has path "/subscriptions/{id}/providers/Microsoft.ProjectArcadia/workspaces" and no query or fragment, whatever path the endpoint has; it keeps the endpoint's scheme and authority, or has neither when the endpoint is opaque. |
| Rfc3986.ParseRecompose | Utils/hdinsight-node-common/src/com/microsoft/azure/projectarcadia/common/ArcadiaSparkComputeManager.java:167 | Turning a parsed reference back into a string gives the original string. |
| Rfc3986.RecomposeParse | Utils/hdinsight-node-common/src/com/microsoft/azure/projectarcadia/common/ArcadiaSparkComputeManager.java:167 | Parsing the string form of a well-formed reference gives that reference back. |
| Rfc3986.ParseWellFormed | Utils/hdinsight-node-common/src/com/microsoft/azure/projectarcadia/common/ArcadiaSparkComputeManager.java:143 | Every string parses into a well-formed reference. |
| Rfc3986.DotFreeUnchanged | Utils/hdinsight-node-common/src/com/microsoft/azure/projectarcadia/common/ArcadiaSparkComputeManager.java:144-145 | Dot-segment removal leaves a path that has no "." or ".." segment unchanged. |
| Rfc3986.ResolveAbsolutePath | Utils/hdinsight-node-common/src/com/microsoft/azure/projectarcadia/common/ArcadiaSparkComputeManager.java:144 | A dot-free absolute-path reference replaces the base's path, query and fragment and keeps its scheme and authority. |
| Rfc3986.ResolveRelativePath | Utils/hdinsight-node-common/src/com/microsoft/azure/projectarcadia/common/ArcadiaSparkComputeManager.java:168 | A relative path resolved against a base path ending in '/' is appended to that path when the result is dot-free. |

## Left out

- Rx scheduling (`subscribeOn`, `Schedulers.io`, `toBlocking`, `concat` laziness) and the parallel fan-out are concurrency. The fan-out is a sequential fold, and `Workspaces.OrderIndependent` shows that the completion order does not matter.
- HTTP and REST decoding (`buildHttp`, `AzureHttpObservable`, `withUuidUserAgent`, `GetWorkspaceListResponse`) are network clients. Their outcomes are inputs: one listing per selected subscription.
- The authentication lookup (`AuthMethodManager`, `getAzureManager`, `getSubscriptionManager`) is an external call. It is the `signedIn` field and the `Option` of listings.
- The singleton holder `getInstance` is object plumbing with no logic to state.
- Logging is I/O.
- Lines 72, 110, 123-125, 170, 177 and 184 only log.
- `ArcadiaWorkSpace` and `ArcadiaSparkCompute` are not part of this model.
  - `isRunning` is a field of the listed item.
  - A workspace's computes first arrive with its listed item; the per-workspace refresh inside `fetchClusters` (lines 120-129) is an input giving each workspace's fetched compute names or a failure.
  - `compareTo` is modelled as value equality; see the lines on the membership lemmas below.
- ComputeManager.Manager.FetchClusters: the source emits the manager once per emission of a workspace's compute refresh, or once when there is none. The model emits it once, after every workspace has been refreshed.
- ComputeManager.Manager.FindCompute: in the source, each emission of fetchClusters runs getClusters again, possibly before the later workspaces have refreshed, so the fetched part can also list computes that a later refresh replaced. The model lists only the matches after every refresh.
- Workspaces.FromResponseMembership: exact only because equal-as-values is the collapsing rule. Under a comparator keyed on less than the whole value, such as (subscription, name), two listed items with the same key but different running states collapse into the first one met, and the other one is not cached.
- Workspaces.RefreshedMembership: exact for the same reason; under a coarser comparator, a workspace listed by a successful listing may be missing because an item with the same key came first.
- Workspaces.OrderIndependent: holds because value-equal elements are interchangeable. Under a coarser comparator, which of two same-key items survives depends on the order of the joined list, and so on the order the requests complete.
- Workspaces.RunningClusters: assumes the cached set holds value-distinct workspaces; a coarser comparator would have kept fewer workspaces in the cache in the first place.
- The Spark batch runner, the MFA submission helper and the storage virtual file are not part of this model: they are IDE wiring and thin wrappers around external calls.
- WorkspaceUris.WorkspaceListUriShape requires a subscription id that holds no `:`, `/`, `?` or `#` and is not `.` or `..`. An id without `/` can still hold those characters, and then it would not parse as one plain path segment. Subscription ids are GUIDs, which meet the requirement.
- WorkspaceUris.SubscriptionsUriShape has the same requirement on the id, for the same reason.
- `java.net.URI.resolve` follows RFC 2396. `UriResolve` models its two special cases, an absolute reference and an opaque base, and otherwise follows RFC 3986. For the references used here, an absolute path and a relative path against a hierarchical base whose path ends in `/`, neither with dot segments, RFC 2396 gives the same result.
- Percent-encoding, the characters `URI.create` rejects (and the exception it throws), and the URI's `toString` escaping are not modelled.
- A refresh in which some listings fail still publishes what the successful listings returned, and the empty set when all of them fail, because `toList` emits `[]` (line 183). `Workspaces.RefreshedMembership` and `Workspaces.RefreshedEmpty` state this.
- `getClusters` stores the filtered set back through `getWorkspaces` (lines 93-94, 136). `ComputeManager.Manager.GetClusters` states this.

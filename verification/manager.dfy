/** ArcadiaSparkComputeManager: the cache of the Arcadia workspaces that the
    signed-in user's selected subscriptions hold, and the operations that
    read, refresh and wipe it. Whether a user is signed in, the outcome of
    the subscription lookup and the outcome of each listing request are
    inputs of the model. */
module ComputeManager {
  import opened Wrappers
  import opened Workspaces

  /** What findCompute emits, in order: the matches among the cached
      computes, then the matches among the computes after a fresh fetch, or
      None when the fetch ended in an error. */
  datatype Lookup = Lookup(cached: set<Compute>, refetched: Option<set<Compute>>)

  class Manager {
    /** The cached workspaces; equal elements collapse as in a sorted set. */
    var workSpaces: set<Workspace>
    /** Whether the authentication manager has a signed-in account, that is,
        whether getAzureManager returns a manager. */
    var signedIn: bool
    /** Whether the subscription-change listener was registered, which
        happens only when a user was signed in at construction. */
    const subscriptionListener: bool

    /** Every cached workspace's computes point back to it. */
    ghost predicate Valid()
      reads this
    {
      forall w :: w in workSpaces ==> Consistent(w)
    }

    /** Starts with an empty cache, registers the sign-out listener, and the
        subscription-change listener only when a user is signed in. */
    constructor(signedIn: bool)
      ensures workSpaces == {} && this.signedIn == signedIn
      ensures subscriptionListener == signedIn
      ensures Valid()
    {
      workSpaces := {};
      this.signedIn := signedIn;
      subscriptionListener := signedIn;
    }

    /** A user signs in; no listener reacts, so the cache is kept. */
    method SignIn()
      modifies this`signedIn
      ensures signedIn && workSpaces == old(workSpaces)
    {
      signedIn := true;
    }

    /** The sign-out event: the user is gone and the listener empties the
        cache. */
    method SignOut()
      modifies this
      ensures !signedIn && workSpaces == {}
      ensures Valid()
    {
      signedIn := false;
      workSpaces := {};
    }

    /** The subscription-change event empties the cache when its listener was
        registered, and reaches nothing otherwise. */
    method SubscriptionsChanged()
      requires Valid()
      modifies this`workSpaces
      ensures workSpaces == if subscriptionListener then {} else old(workSpaces)
      ensures Valid()
    {
      if subscriptionListener {
        workSpaces := {};
      }
    }

    /** getWorkspaces: the running workspaces of the cache, which also
        replace the cache. */
    method GetWorkspaces() returns (r: set<Workspace>)
      requires Valid()
      modifies this`workSpaces
      ensures r == Running(old(workSpaces)) && workSpaces == r
      ensures Valid()
    {
      workSpaces := Running(workSpaces);
      r := workSpaces;
    }

    /** getClusters: nothing when no user is signed in, and the cache is left
        alone; otherwise the computes of the running workspaces, the cache
        being filtered down to them on the way. */
    method GetClusters() returns (r: set<Compute>)
      requires Valid()
      modifies this`workSpaces
      ensures !signedIn ==> r == {} && workSpaces == old(workSpaces)
      ensures signedIn ==> workSpaces == Running(old(workSpaces)) && r == Clusters(workSpaces)
      ensures Valid()
    {
      if !signedIn {
        return {};
      }
      var ws := GetWorkspaces();
      r := Clusters(ws);
    }

    /** updateWithResponse: the cache becomes one workspace per pair of the
        response list, and nothing of the previous cache is kept. */
    method UpdateWithResponse(pairs: seq<Pair>) returns (self: Manager)
      modifies this`workSpaces
      ensures self == this && workSpaces == FromResponse(pairs)
      ensures Valid()
    {
      workSpaces := FromResponse(pairs);
      self := this;
    }

    /** fetchWorkSpaces over getWorkSpacesRequest. selected is the outcome of
        the subscription lookup: None when it threw, otherwise one listing
        per selected subscription. The request fails when no user is signed
        in or the lookup threw, and the cache is then untouched; otherwise the
        joined listings replace the cache and the manager itself is emitted. */
    method FetchWorkSpaces(selected: Option<seq<Listing>>) returns (r: Option<Manager>)
      requires Valid()
      modifies this`workSpaces
      ensures r.Some? <==> signedIn && selected.Some?
      ensures r.Some? ==> r.value == this && workSpaces == FromResponse(Collect(selected.value))
      ensures r.None? ==> workSpaces == old(workSpaces)
      ensures Valid()
    {
      if !signedIn || selected.None? {
        return None;
      }
      var self := UpdateWithResponse(Collect(selected.value));
      r := Some(self);
    }

    /** refresh: always the manager itself. Nothing happens when no user is
        signed in, and a failed fetch leaves the cache as it was. */
    method Refresh(selected: Option<seq<Listing>>) returns (self: Manager)
      requires Valid()
      modifies this`workSpaces
      ensures self == this
      ensures signedIn && selected.Some? ==> workSpaces == FromResponse(Collect(selected.value))
      ensures !(signedIn && selected.Some?) ==> workSpaces == old(workSpaces)
      ensures Valid()
    {
      self := this;
      if !signedIn {
        return;
      }
      var fetched := FetchWorkSpaces(selected);
    }

    /** fetchClusters: a fetch of the workspaces, then getWorkspaces, so the
        cache keeps only the running workspaces of the response, then each of
        them refreshes its computes; fetch gives the outcome of each
        workspace's own request, and a workspace whose request fails keeps
        its computes while the others go on. */
    method FetchClusters(selected: Option<seq<Listing>>, fetch: Workspace -> Option<seq<string>>)
      returns (r: Option<Manager>)
      requires Valid()
      modifies this`workSpaces
      ensures r.Some? <==> signedIn && selected.Some?
      ensures r.Some? ==>
                r.value == this
                && workSpaces == RefreshComputes(Running(FromResponse(Collect(selected.value))), fetch)
      ensures r.None? ==> workSpaces == old(workSpaces)
      ensures Valid()
    {
      r := FetchWorkSpaces(selected);
      if r.Some? {
        var running := GetWorkspaces();
        RefreshKeepsConsistent(running, fetch);
        workSpaces := RefreshComputes(running, fetch);
      }
    }

    /** findCompute: the cached computes that match the tenant id, the
        workspace name and the compute name, then the matching computes after
        fetchClusters, which is None when that fetch fails. */
    method FindCompute(tenantId: string, workspaceName: string, computeName: string,
                       selected: Option<seq<Listing>>, fetch: Workspace -> Option<seq<string>>)
      returns (r: Lookup)
      requires Valid()
      modifies this`workSpaces
      ensures r.cached == if signedIn then Matching(Clusters(Running(old(workSpaces))), tenantId, workspaceName, computeName)
                          else {}
      ensures r.refetched.Some? <==> signedIn && selected.Some?
      ensures r.refetched.Some? ==>
                workSpaces == RefreshComputes(Running(FromResponse(Collect(selected.value))), fetch)
                && r.refetched.value == Matching(Clusters(workSpaces), tenantId, workspaceName, computeName)
      ensures r.refetched.None? ==> workSpaces == if signedIn then Running(old(workSpaces)) else old(workSpaces)
      ensures Valid()
    {
      var cached := GetClusters();
      var fetched := FetchClusters(selected, fetch);
      if fetched.None? {
        return Lookup(Matching(cached, tenantId, workspaceName, computeName), None);
      }
      RefreshKeepsRunning(FromResponse(Collect(selected.value)), fetch);
      var current := GetClusters();
      r := Lookup(Matching(cached, tenantId, workspaceName, computeName),
                  Some(Matching(current, tenantId, workspaceName, computeName)));
    }
  }
}

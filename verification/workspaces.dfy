/** The values the Arcadia compute manager works with: subscriptions,
    workspaces and their Spark computes, the per-subscription outcome of the
    workspace listing, and the pure views the manager derives from them
    (the running workspaces, the flattened compute list, the lookup filter,
    and the set a refresh publishes). */
module Workspaces {
  import opened Wrappers

  /** A selected subscription (SubscriptionDetail): its id and its tenant. */
  datatype Subscription = Subscription(id: string, tenantId: string)

  /** One item of a workspace-list response: the workspace's name, whether it
      is running, and the names of the Spark computes it holds. */
  datatype WorkspaceItem = WorkspaceItem(name: string, running: bool, computeNames: seq<string>)

  /** A Spark compute, which knows the workspace and the subscription it
      belongs to (ArcadiaSparkCompute.getWorkSpace, getSubscription). */
  datatype Compute = Compute(name: string, workspaceName: string, subscription: Subscription)

  /** A workspace paired with the subscription it was listed under
      (ArcadiaWorkSpace). */
  datatype Workspace = Workspace(subscription: Subscription, name: string, running: bool,
                                 computes: seq<Compute>)

  /** What the listing request of one selected subscription yields: the
      response's items, or None when the request failed. */
  datatype Listing = Listing(subscription: Subscription, outcome: Option<seq<WorkspaceItem>>)

  /** A (subscription, workspace item) pair of the joined response list. */
  type Pair = (Subscription, WorkspaceItem)

  /** Every compute of w points back to w and to w's subscription. */
  predicate Consistent(w: Workspace)
  {
    forall c :: c in w.computes ==> c.workspaceName == w.name && c.subscription == w.subscription
  }

  /** The computes named in a workspace item, attached to that workspace. */
  function ComputesOf(sub: Subscription, workspaceName: string, names: seq<string>): (r: seq<Compute>)
    ensures forall c :: c in r <==> c.name in names && c.workspaceName == workspaceName && c.subscription == sub
  {
    if names == [] then []
    else
      var rest := ComputesOf(sub, workspaceName, names[1..]);
      assert forall n :: n in names <==> n == names[0] || n in names[1..] by {
        assert names == [names[0]] + names[1..];
      }
      [Compute(names[0], workspaceName, sub)] + rest
  }

  /** new ArcadiaWorkSpace(subscription, workspace): the workspace, its
      running state and its computes, under the subscription it was listed in. */
  function NewWorkspace(sub: Subscription, item: WorkspaceItem): (w: Workspace)
    ensures w.subscription == sub && w.name == item.name && w.running == item.running
    ensures Consistent(w)
    ensures forall c :: c in w.computes <==> c.name in item.computeNames && c.workspaceName == item.name && c.subscription == sub
  {
    Workspace(sub, item.name, item.running, ComputesOf(sub, item.name, item.computeNames))
  }

  /** The running workspaces of ws: the filter of getWorkspaces. */
  function Running(ws: set<Workspace>): (r: set<Workspace>)
    ensures r <= ws
    ensures forall w :: w in r ==> w.running
    ensures forall w :: w in ws && w.running ==> w in r
  {
    set w | w in ws && w.running
  }

  /** Filtering twice is filtering once. */
  lemma RunningIdempotent(ws: set<Workspace>)
    ensures Running(Running(ws)) == Running(ws)
  {
  }

  /** The computes of the workspaces of ws, flattened into one set. */
  function Clusters(ws: set<Workspace>): (r: set<Compute>)
    ensures forall w, c :: w in ws && c in w.computes ==> c in r
  {
    set w, c | w in ws && c in w.computes :: c
  }

  /** What getClusters returns for a signed-in user: a compute is listed
      exactly when some running workspace of the cache holds it. */
  lemma RunningClusters(ws: set<Workspace>, c: Compute)
    ensures c in Clusters(Running(ws)) <==> exists w :: w in ws && w.running && c in w.computes
  {
    if c in Clusters(Running(ws)) {
      var w :| w in Running(ws) && c in w.computes;
      assert w in ws && w.running;
    }
  }

  /** A workspace that is not running contributes no compute. */
  lemma StoppedContributesNothing(ws: set<Workspace>, w: Workspace)
    requires !w.running
    ensures Clusters(Running(ws + {w})) == Clusters(Running(ws - {w}))
  {
    assert Running(ws + {w}) == Running(ws - {w});
  }

  /** The flattening distributes over union: each workspace contributes its
      own computes whatever else is cached. */
  lemma ClustersUnion(a: set<Workspace>, b: set<Workspace>)
    ensures Clusters(a + b) == Clusters(a) + Clusters(b)
  {
    forall c | c in Clusters(a + b)
      ensures c in Clusters(a) + Clusters(b)
    {
      var w :| w in a + b && c in w.computes;
      if w in a {
        assert c in Clusters(a);
      } else {
        assert c in Clusters(b);
      }
    }
  }

  /** The flattened list of a cache filtered down to running workspaces is
      the one of the cache itself filtered at the end: a second getClusters
      lists the same computes as the first. */
  lemma ClustersOfRunningStable(ws: set<Workspace>)
    ensures Clusters(Running(Running(ws))) == Clusters(Running(ws))
  {
    RunningIdempotent(ws);
  }

  /** The findCompute filter: the computes of cs whose workspace name, tenant
      id and own name equal the ones asked for. */
  function Matching(cs: set<Compute>, tenantId: string, workspaceName: string, computeName: string): (r: set<Compute>)
    ensures r <= cs
    ensures forall c :: c in r ==>
              c.workspaceName == workspaceName && c.subscription.tenantId == tenantId && c.name == computeName
    ensures forall c :: (c in cs && c.workspaceName == workspaceName && c.subscription.tenantId == tenantId
                         && c.name == computeName) ==> c in r
  {
    set c | c in cs && c.workspaceName == workspaceName && c.subscription.tenantId == tenantId
            && c.name == computeName
  }

  /** A compute that findCompute finds among the cached computes sits in a
      running workspace of the cache with the name asked for, listed under a
      subscription of the tenant asked for. */
  lemma MatchLocated(ws: set<Workspace>, tenantId: string, workspaceName: string, computeName: string, c: Compute)
    requires forall w :: w in ws ==> Consistent(w)
    requires c in Matching(Clusters(Running(ws)), tenantId, workspaceName, computeName)
    ensures exists w :: w in ws && w.running && c in w.computes
                        && w.name == workspaceName && w.subscription.tenantId == tenantId
  {
    var w :| w in Running(ws) && c in w.computes;
    assert Consistent(w);
  }

  /** The pairs one listing contributes to the joined list: every item of a
      successful response, paired with the listing's subscription. */
  function Pairs(sub: Subscription, items: seq<WorkspaceItem>): (r: seq<Pair>)
    ensures |r| == |items|
  {
    if items == [] then [] else [(sub, items[0])] + Pairs(sub, items[1..])
  }

  lemma {:induction false} PairsMembership(sub: Subscription, items: seq<WorkspaceItem>, p: Pair)
    ensures p in Pairs(sub, items) <==> p.0 == sub && p.1 in items
  {
    if items != [] {
      PairsMembership(sub, items[1..], p);
      assert items == [items[0]] + items[1..];
    }
  }

  /** One listing's part of the joined list: a failed request is turned into
      an empty contribution (onErrorResumeNext). */
  function Contribution(l: Listing): (r: seq<Pair>)
    ensures l.outcome.None? ==> r == []
    ensures l.outcome.Some? ==> |r| == |l.outcome.value|
  {
    match l.outcome
    case None => []
    case Some(items) => Pairs(l.subscription, items)
  }

  /** The fan-out over the selected subscriptions, joined by toList, as a
      sequential fold. */
  function Collect(ls: seq<Listing>): (r: seq<Pair>)
    ensures AllFailed(ls) ==> r == []
  {
    if ls == [] then [] else Contribution(ls[0]) + Collect(ls[1..])
  }

  /** Every request of the fan-out failed. */
  predicate AllFailed(ls: seq<Listing>)
  {
    ls == [] || (ls[0].outcome.None? && AllFailed(ls[1..]))
  }

  /** Listing l supplies pair p: its request succeeded and p is one of its
      items under its own subscription. */
  predicate Supplies(l: Listing, p: Pair)
  {
    l.outcome.Some? && p.0 == l.subscription && p.1 in l.outcome.value
  }

  /** The joined list holds exactly the pairs some listing supplies. */
  lemma {:induction false} CollectMembership(ls: seq<Listing>, p: Pair)
    ensures p in Collect(ls) <==> exists l :: l in ls && Supplies(l, p)
  {
    if ls != [] {
      CollectMembership(ls[1..], p);
      if ls[0].outcome.Some? {
        PairsMembership(ls[0].subscription, ls[0].outcome.value, p);
      }
      assert p in Contribution(ls[0]) <==> Supplies(ls[0], p);
      assert ls == [ls[0]] + ls[1..];
      assert forall l :: l in ls <==> l == ls[0] || l in ls[1..];
    }
  }

  /** The fold over a concatenation is the concatenation of the folds. */
  lemma {:induction false} CollectAppend(a: seq<Listing>, b: seq<Listing>)
    ensures Collect(a + b) == Collect(a) + Collect(b)
  {
    if a == [] {
      assert a + b == b;
    } else {
      assert (a + b)[0] == a[0];
      assert (a + b)[1..] == a[1..] + b;
      CollectAppend(a[1..], b);
    }
  }

  /** Isolation: a subscription whose listing fails contributes nothing, and
      the others contribute exactly what they would without it. */
  lemma FailedListingContributesNothing(a: seq<Listing>, sub: Subscription, b: seq<Listing>)
    ensures Collect(a + [Listing(sub, None)] + b) == Collect(a + b)
  {
    CollectAppend(a + [Listing(sub, None)], b);
    CollectAppend(a, [Listing(sub, None)]);
    CollectAppend(a, b);
  }

  /** updateWithResponse's set: one workspace per (subscription, item) pair,
      elements that compare equal collapsing into one. */
  function FromResponse(pairs: seq<Pair>): (r: set<Workspace>)
    ensures |r| <= |pairs|
    ensures r == {} <==> pairs == []
    ensures forall w :: w in r ==> Consistent(w)
  {
    if pairs == [] then {}
    else {NewWorkspace(pairs[0].0, pairs[0].1)} + FromResponse(pairs[1..])
  }

  /** The set built from a response list holds a workspace exactly when some
      pair of the list builds it. */
  lemma {:induction false} FromResponseMembership(pairs: seq<Pair>, w: Workspace)
    ensures w in FromResponse(pairs) <==> exists p :: p in pairs && w == NewWorkspace(p.0, p.1)
  {
    if pairs != [] {
      FromResponseMembership(pairs[1..], w);
      if p :| p in pairs[1..] && w == NewWorkspace(p.0, p.1) {
        assert p in pairs;
      }
      forall p | p in pairs && w == NewWorkspace(p.0, p.1)
        ensures w in FromResponse(pairs)
      {
        if p != pairs[0] {
          assert pairs == [pairs[0]] + pairs[1..];
          assert p in pairs[1..];
        }
      }
    }
  }

  /** What a refresh publishes: a workspace is in the new set exactly when a
      subscription whose listing succeeded listed it, and it is paired with
      that subscription. */
  lemma RefreshedMembership(ls: seq<Listing>, w: Workspace)
    ensures w in FromResponse(Collect(ls)) <==>
            exists l, item :: l in ls && Supplies(l, (l.subscription, item)) && w == NewWorkspace(l.subscription, item)
  {
    FromResponseMembership(Collect(ls), w);
    if w in FromResponse(Collect(ls)) {
      var p :| p in Collect(ls) && w == NewWorkspace(p.0, p.1);
      CollectMembership(ls, p);
      var l :| l in ls && Supplies(l, p);
      assert Supplies(l, (l.subscription, p.1));
    }
    if l, item :| l in ls && Supplies(l, (l.subscription, item)) && w == NewWorkspace(l.subscription, item) {
      CollectMembership(ls, (l.subscription, item));
    }
  }

  /** The joined result does not depend on the order in which the
      subscriptions' requests complete. */
  lemma OrderIndependent(a: seq<Listing>, b: seq<Listing>)
    requires multiset(a) == multiset(b)
    ensures FromResponse(Collect(a)) == FromResponse(Collect(b))
  {
    forall w | w in FromResponse(Collect(a))
      ensures w in FromResponse(Collect(b))
    {
      RefreshedMembership(a, w);
      RefreshedMembership(b, w);
      var l, item :| l in a && Supplies(l, (l.subscription, item)) && w == NewWorkspace(l.subscription, item);
      assert l in multiset(a);
    }
    forall w | w in FromResponse(Collect(b))
      ensures w in FromResponse(Collect(a))
    {
      RefreshedMembership(a, w);
      RefreshedMembership(b, w);
      var l, item :| l in b && Supplies(l, (l.subscription, item)) && w == NewWorkspace(l.subscription, item);
      assert l in multiset(b);
    }
  }

  /** A refresh publishes the empty set exactly when every listing failed or
      came back empty. */
  lemma {:induction false} RefreshedEmpty(ls: seq<Listing>)
    ensures FromResponse(Collect(ls)) == {} <==>
            forall l :: l in ls ==> l.outcome.None? || l.outcome.value == []
  {
    if ls != [] {
      RefreshedEmpty(ls[1..]);
      assert ls == [ls[0]] + ls[1..];
    }
  }

  /** ArcadiaWorkSpace.fetchClusters for one workspace: outcome holds the
      names of the computes its own request returned, or None when that
      request failed (onErrorResumeNext), in which case the workspace keeps
      the computes it had. */
  function WithComputes(w: Workspace, outcome: Option<seq<string>>): (v: Workspace)
    ensures v.subscription == w.subscription && v.name == w.name && v.running == w.running
    ensures outcome.None? ==> v == w
    ensures outcome.Some? ==>
              forall c :: c in v.computes <==>
                c.name in outcome.value && c.workspaceName == w.name && c.subscription == w.subscription
    ensures Consistent(w) ==> Consistent(v)
  {
    match outcome
    case None => w
    case Some(names) => w.(computes := ComputesOf(w.subscription, w.name, names))
  }

  /** The per-workspace compute refresh of fetchClusters over the cached
      workspaces; fetch gives each workspace's outcome. */
  function RefreshComputes(ws: set<Workspace>, fetch: Workspace -> Option<seq<string>>): (r: set<Workspace>)
    ensures forall w :: w in ws ==> WithComputes(w, fetch(w)) in r
  {
    set w | w in ws :: WithComputes(w, fetch(w))
  }

  /** After the per-workspace refresh a compute is listed exactly when some
      workspace either fetched it, or failed its fetch and already held it:
      a failing workspace keeps its computes and the others are replaced. */
  lemma RefreshedClusters(ws: set<Workspace>, fetch: Workspace -> Option<seq<string>>, c: Compute)
    ensures c in Clusters(RefreshComputes(ws, fetch)) <==>
            exists w :: w in ws &&
              (if fetch(w).Some?
               then c.name in fetch(w).value && c.workspaceName == w.name && c.subscription == w.subscription
               else c in w.computes)
  {
  }

  /** The refresh keeps every workspace's running state, so the running
      workspaces stay running and a later filter drops none of them. */
  lemma RefreshKeepsRunning(ws: set<Workspace>, fetch: Workspace -> Option<seq<string>>)
    ensures Running(RefreshComputes(Running(ws), fetch)) == RefreshComputes(Running(ws), fetch)
  {
  }

  /** The refresh keeps every compute pointing back to its workspace. */
  lemma RefreshKeepsConsistent(ws: set<Workspace>, fetch: Workspace -> Option<seq<string>>)
    requires forall w :: w in ws ==> Consistent(w)
    ensures forall v :: v in RefreshComputes(ws, fetch) ==> Consistent(v)
  {
  }
}

/** The workspace-list request URI that the compute manager builds for each
    selected subscription (ArcadiaSparkComputeManager.getSubscriptionsUri and
    the mapping step of getWorkSpacesRequest). */
module WorkspaceUris {
  import opened Wrappers
  import opened Rfc3986

  /** The path segments of the two constants below. */
  const Subscriptions: string := "subscriptions"
  const Providers: string := "providers"
  const Namespace: string := "Microsoft.ProjectArcadia"
  const WorkspacesSegmentName: string := "workspaces"

  /** REST_SEGMENT_SUBSCRIPTION, "/subscriptions/": an absolute-path reference. */
  const SubscriptionSegment: string := "/" + Subscriptions + "/"
  /** REST_SEGMENT_WORKSPACES, "providers/Microsoft.ProjectArcadia/workspaces":
      a relative-path reference. */
  const WorkspacesSegment: string := Providers + "/" + Namespace + "/" + WorkspacesSegmentName

  /** java.net.URI's opaque URIs: a scheme, no authority, and a part after
      the scheme that does not start with '/' ("mailto:x"). */
  predicate Opaque(u: Uri)
  {
    u.scheme.Some? && u.authority.None? && (u.path == [] || u.path[0] != '/')
  }

  /** java.net.URI.resolve: a reference with a scheme, or any reference
      against an opaque base, is returned as it is; otherwise the reference
      is resolved against the base. */
  function UriResolve(base: Uri, r: Uri): Uri
  {
    if r.scheme.Some? || Opaque(base) then r else Resolve(base, r)
  }

  /** The scheme and authority that the built URIs keep: the endpoint's, or
      none at all when the endpoint is opaque. */
  function Kept(base: Uri): Uri
  {
    if Opaque(base) then Uri(None, None, [], None, None) else base
  }

  /** getSubscriptionsUri: the resource-manager endpoint resolved against
      "/subscriptions/", then the subscription id resolved against that. */
  function SubscriptionsUri(endpoint: string, subscriptionId: string): Uri
  {
    UriResolve(UriResolve(Parse(endpoint), Parse(SubscriptionSegment)), Parse(subscriptionId))
  }

  /** The workspace-list URI: the string form of SubscriptionsUri with a '/'
      appended, parsed again, with WorkspacesSegment resolved against it. */
  function WorkspaceListUri(endpoint: string, subscriptionId: string): Uri
  {
    var dir := Parse(Recompose(SubscriptionsUri(endpoint, subscriptionId)) + "/");
    UriResolve(dir, Parse(WorkspacesSegment))
  }

  /** A subscription id that parses as one plain path segment: not empty, no
      ':', '/', '?' or '#', and not "." or "..". Subscription ids are GUIDs. */
  predicate SimpleId(id: string)
  {
    |id| > 0 && Free(id, SchemeEnd) && id != "." && id != ".."
  }

  /** A string with no ':', '?' or '#' that does not start with "//" parses
      as a reference with a path only. */
  lemma ParsePathOnly(s: string)
    requires Free(s, {':', '?', '#'})
    requires NoAuthority(s)
    ensures Parse(s) == Uri(None, None, s, None, None)
  {
    SplitPathOf(s, []);
    assert s + [] == s;
    SplitQueryOf(None, None);
  }

  lemma SegmentsArePlain()
    ensures PlainSegment(Subscriptions) && PlainSegment(Providers)
    ensures PlainSegment(Namespace) && PlainSegment(WorkspacesSegmentName)
  {
  }

  lemma SegmentsAreFree()
    ensures Free(Subscriptions, {':', '?', '#'}) && Free(Providers, {':', '?', '#'})
    ensures Free(Namespace, {':', '?', '#'}) && Free(WorkspacesSegmentName, {':', '?', '#'})
  {
  }

  lemma SubscriptionSegmentParse()
    ensures Parse(SubscriptionSegment) == Uri(None, None, SubscriptionSegment, None, None)
  {
    var cs := {':', '?', '#'};
    SegmentsAreFree();
    FreeConcat("/", Subscriptions, cs);
    FreeConcat("/" + Subscriptions, "/", cs);
    assert SubscriptionSegment[1] == Subscriptions[0] != '/';
    ParsePathOnly(SubscriptionSegment);
  }

  lemma WorkspacesSegmentParse()
    ensures Parse(WorkspacesSegment) == Uri(None, None, WorkspacesSegment, None, None)
  {
    var cs := {':', '?', '#'};
    SegmentsAreFree();
    FreeConcat(Providers, "/", cs);
    FreeConcat(Providers + "/", Namespace, cs);
    FreeConcat(Providers + "/" + Namespace, "/", cs);
    FreeConcat(Providers + "/" + Namespace + "/", WorkspacesSegmentName, cs);
    assert WorkspacesSegment[0] == Providers[0] != '/';
    ParsePathOnly(WorkspacesSegment);
  }

  lemma SimpleIdIsPlain(id: string)
    requires SimpleId(id)
    ensures PlainSegment(id) && Free(id, {':', '?', '#'}) && Free(id, PathEnd)
    ensures NoAuthority(id)
  {
    assert |id| >= 2 ==> id[0] == id[..2][0];
  }

  /** The absolute path made of the given segments. */
  function Join(segments: seq<string>): string
  {
    if segments == [] then [] else "/" + segments[0] + Join(segments[1..])
  }

  /** A path made of plain segments has no dot segments. */
  lemma {:induction false} JoinDotFree(segments: seq<string>)
    requires forall i :: 0 <= i < |segments| ==> PlainSegment(segments[i])
    ensures DotFree(Join(segments))
  {
    if segments != [] {
      JoinDotFree(segments[1..]);
      DotFreeCons(segments[0], Join(segments[1..]));
    }
  }

  lemma SubscriptionSegmentJoin()
    ensures SubscriptionSegment == Join([Subscriptions, ""])
  {
    assert Join([""]) == "/" + "" + Join([]);
  }

  lemma SubscriptionPathJoin(id: string)
    ensures SubscriptionSegment + id == Join([Subscriptions, id])
  {
    assert Join([id]) == "/" + id + Join([]);
  }

  lemma WorkspaceListPathJoin(id: string)
    ensures SubscriptionSegment + id + "/" + WorkspacesSegment
         == Join([Subscriptions, id, Providers, Namespace, WorkspacesSegmentName])
  {
    assert Join([WorkspacesSegmentName]) == "/" + WorkspacesSegmentName;
    assert Join([Namespace, WorkspacesSegmentName]) == "/" + Namespace + "/" + WorkspacesSegmentName;
    assert Join([Providers, Namespace, WorkspacesSegmentName]) == "/" + WorkspacesSegment;
    assert Join([id, Providers, Namespace, WorkspacesSegmentName]) == "/" + id + "/" + WorkspacesSegment;
  }

  /** Resolving an absolute path and then a relative one against any base,
      for paths that dot-segment removal leaves as they are. */
  lemma ResolveTwice(base: Uri, dir: string, name: string)
    requires dir != [] && dir[0] == '/' && dir[|dir| - 1] == '/' && RemoveDotSegments(dir) == dir
    requires name != [] && name[0] != '/' && RemoveDotSegments(dir + name) == dir + name
    requires Parse(dir) == Uri(None, None, dir, None, None)
    requires Parse(name) == Uri(None, None, name, None, None)
    ensures UriResolve(UriResolve(base, Parse(dir)), Parse(name))
         == Uri(Kept(base).scheme, Kept(base).authority, dir + name, None, None)
  {
  }

  /** getSubscriptionsUri keeps the endpoint's scheme and authority and has
      the path "/subscriptions/{id}", with no query and no fragment: the
      endpoint's own path and query are dropped by the absolute-path
      reference. An opaque endpoint is dropped as a whole. */
  lemma SubscriptionsUriShape(endpoint: string, id: string)
    requires SimpleId(id)
    ensures var base := Parse(endpoint);
            !Opaque(base) ==>
              SubscriptionsUri(endpoint, id) == Uri(base.scheme, base.authority, SubscriptionSegment + id, None, None)
    ensures Opaque(Parse(endpoint)) ==>
              SubscriptionsUri(endpoint, id) == Uri(None, None, SubscriptionSegment + id, None, None)
  {
    SubscriptionsUriKept(endpoint, id);
  }

  lemma SubscriptionsUriKept(endpoint: string, id: string)
    requires SimpleId(id)
    ensures var k := Kept(Parse(endpoint));
            SubscriptionsUri(endpoint, id) == Uri(k.scheme, k.authority, SubscriptionSegment + id, None, None)
  {
    SubscriptionSegmentUnchanged();
    SubscriptionPathUnchanged(id);
    assert Parse(id) == Uri(None, None, id, None, None) by {
      SimpleIdIsPlain(id);
      ParsePathOnly(id);
    }
    SubscriptionSegmentParse();
    ResolveTwice(Parse(endpoint), SubscriptionSegment, id);
  }

  /** Neither "/subscriptions/" nor "/subscriptions/{id}" has a dot segment
      to remove. */
  lemma SubscriptionSegmentUnchanged()
    ensures RemoveDotSegments(SubscriptionSegment) == SubscriptionSegment
  {
    SegmentsArePlain();
    SubscriptionSegmentJoin();
    JoinDotFree([Subscriptions, ""]);
    DotFreeUnchanged(SubscriptionSegment, []);
  }

  lemma SubscriptionPathUnchanged(id: string)
    requires SimpleId(id)
    ensures RemoveDotSegments(SubscriptionSegment + id) == SubscriptionSegment + id
  {
    SimpleIdIsPlain(id);
    SegmentsArePlain();
    SubscriptionPathJoin(id);
    JoinDotFree([Subscriptions, id]);
    DotFreeUnchanged(SubscriptionSegment + id, []);
  }

  /** Appending '/' to the string form of a URI with no query and no
      fragment, and parsing the result again, appends '/' to its path. */
  lemma AppendSlash(u: Uri)
    requires WellFormed(u) && u.query.None? && u.fragment.None?
    requires |u.path| >= 2 && u.path[0] == '/' && NoAuthority(u.path)
    ensures Parse(Recompose(u) + "/") == u.(path := u.path + "/")
  {
    var v := u.(path := u.path + "/");
    assert Recompose(u) + "/" == Recompose(v);
    assert v.path[..2] == u.path[..2];
    IndexOfAnyIs(v.path, 0, SchemeEnd, 0);
    FreeConcat(u.path, "/", PathEnd);
    RecomposeParse(v);
  }

  /** Resolving a relative path against the string form of u with '/'
      appended puts the path under u's path. */
  lemma ResolveUnderDirectory(u: Uri, name: string)
    requires WellFormed(u) && u.query.None? && u.fragment.None?
    requires |u.path| >= 2 && u.path[0] == '/' && NoAuthority(u.path)
    requires name != [] && name[0] != '/' && DotFree(u.path + "/" + name)
    requires Parse(name) == Uri(None, None, name, None, None)
    ensures UriResolve(Parse(Recompose(u) + "/"), Parse(name)) == u.(path := u.path + "/" + name)
  {
    AppendSlash(u);
    ResolveRelativePath(u.(path := u.path + "/"), name);
  }

  /** For a subscription id that is one plain path segment, the
      workspace-list URI keeps the scheme and the authority of the
      resource-manager endpoint, has the path
      "/subscriptions/{id}/providers/Microsoft.ProjectArcadia/workspaces",
      and has no query and no fragment, whatever path, query or fragment the
      endpoint has. An opaque endpoint leaves the path alone. */
  lemma WorkspaceListUriShape(endpoint: string, id: string)
    requires SimpleId(id)
    ensures var base := Parse(endpoint);
            !Opaque(base) ==>
              WorkspaceListUri(endpoint, id)
                == Uri(base.scheme, base.authority, SubscriptionSegment + id + "/" + WorkspacesSegment, None, None)
    ensures Opaque(Parse(endpoint)) ==>
              WorkspaceListUri(endpoint, id)
                == Uri(None, None, SubscriptionSegment + id + "/" + WorkspacesSegment, None, None)
  {
    WorkspaceListUriKept(endpoint, id);
  }

  lemma WorkspaceListUriKept(endpoint: string, id: string)
    requires SimpleId(id)
    ensures var k := Kept(Parse(endpoint));
            WorkspaceListUri(endpoint, id)
              == Uri(k.scheme, k.authority, SubscriptionSegment + id + "/" + WorkspacesSegment, None, None)
  {
    var k := Kept(Parse(endpoint));
    var u := Uri(k.scheme, k.authority, SubscriptionSegment + id, None, None);
    SubscriptionsUriKept(endpoint, id);
    assert WellFormed(k) by {
      ParseWellFormed(endpoint);
      IndexOfAnyIs([], 0, SchemeEnd, 0);
    }
    SubscriptionPathRooted(id);
    RootedPathWellFormed(k, u.path);
    WorkspaceListPathDotFree(id);
    WorkspacesSegmentParse();
    ResolveUnderDirectory(u, WorkspacesSegment);
  }

  /** A rooted path whose first segment is not empty may stand in for the
      path of any well-formed URI. */
  lemma RootedPathWellFormed(base: Uri, p: string)
    requires WellFormed(base)
    requires |p| >= 2 && p[0] == '/' && p[1] != '/' && Free(p, PathEnd)
    ensures WellFormed(Uri(base.scheme, base.authority, p, None, None)) && NoAuthority(p)
  {
    assert p[..2][1] == p[1];
    IndexOfAnyIs(p, 0, SchemeEnd, 0);
  }

  lemma SubscriptionPathRooted(id: string)
    requires SimpleId(id)
    ensures var p := SubscriptionSegment + id;
            |p| >= 2 && p[0] == '/' && p[1] != '/' && Free(p, PathEnd)
  {
    SimpleIdIsPlain(id);
    SegmentsAreFree();
    FreeConcat("/", Subscriptions, PathEnd);
    FreeConcat("/" + Subscriptions, "/", PathEnd);
    FreeConcat(SubscriptionSegment, id, PathEnd);
    assert (SubscriptionSegment + id)[1] == Subscriptions[0];
  }

  lemma WorkspaceListPathDotFree(id: string)
    requires SimpleId(id)
    ensures DotFree(SubscriptionSegment + id + "/" + WorkspacesSegment)
  {
    SimpleIdIsPlain(id);
    SegmentsArePlain();
    WorkspaceListPathJoin(id);
    JoinDotFree([Subscriptions, id, Providers, Namespace, WorkspacesSegmentName]);
  }
}

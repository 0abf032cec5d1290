/** URI references as RFC 3986 defines them: splitting a string into its five
    components (Appendix B), putting them back together (section 5.3), and
    resolving a reference against a base URI (sections 5.2.2 to 5.2.4). */
module Rfc3986 {
  import opened Wrappers

  /** The five components of a URI reference (section 3). An undefined
      component is None, which is not the same as an empty one. */
  datatype Uri = Uri(scheme: Option<string>, authority: Option<string>, path: string,
                     query: Option<string>, fragment: Option<string>)

  /** Characters that end the scheme, the authority, the path and the query. */
  const SchemeEnd: set<char> := {':', '/', '?', '#'}
  const AuthorityEnd: set<char> := {'/', '?', '#'}
  const PathEnd: set<char> := {'?', '#'}
  const QueryEnd: set<char> := {'#'}

  /** No character of s is in cs. */
  predicate Free(s: string, cs: set<char>)
  {
    forall k :: 0 <= k < |s| ==> s[k] !in cs
  }

  lemma FreeConcat(a: string, b: string, cs: set<char>)
    requires Free(a, cs) && Free(b, cs)
    ensures Free(a + b, cs)
  {
    forall k | 0 <= k < |a + b|
      ensures (a + b)[k] !in cs
    {
      if k >= |a| {
        assert (a + b)[k] == b[k - |a|];
      }
    }
  }

  /** The index of the first character of s at or after from that is in cs,
      or |s| when there is none. */
  function IndexOfAny(s: string, from: nat, cs: set<char>): (i: nat)
    requires from <= |s|
    ensures from <= i <= |s|
    ensures forall k :: from <= k < i ==> s[k] !in cs
    ensures i < |s| ==> s[i] in cs
    decreases |s| - from
  {
    if from == |s| then from
    else if s[from] in cs then from
    else IndexOfAny(s, from + 1, cs)
  }

  /** The first index is unique: any index with its two properties is it. */
  lemma IndexOfAnyIs(s: string, from: nat, cs: set<char>, i: nat)
    requires from <= i <= |s|
    requires forall k :: from <= k < i ==> s[k] !in cs
    requires i < |s| ==> s[i] in cs
    ensures IndexOfAny(s, from, cs) == i
  {
  }

  /** The scheme and what follows its ':' (Appendix B, `^(([^:/?#]+):)?`). */
  function SplitScheme(s: string): (r: (Option<string>, string))
    ensures (if r.0.Some? then r.0.value + ":" else "") + r.1 == s
    ensures r.0.Some? ==> |r.0.value| > 0 && Free(r.0.value, SchemeEnd)
    ensures r.0.None? ==> NotSchemeLike(s)
  {
    var c := IndexOfAny(s, 0, SchemeEnd);
    if 0 < c < |s| && s[c] == ':' then
      assert s == s[..c] + ":" + s[c + 1..];
      (Some(s[..c]), s[c + 1..])
    else (None, s)
  }

  /** The authority and what follows it (`(//([^/?#]*))?`). */
  function SplitAuthority(s: string): (r: (Option<string>, string))
    ensures (if r.0.Some? then "//" + r.0.value else "") + r.1 == s
    ensures r.0.Some? ==> Free(r.0.value, AuthorityEnd) && (r.1 == [] || r.1[0] in AuthorityEnd)
    ensures r.0.None? ==> NoAuthority(s)
  {
    if |s| >= 2 && s[..2] == "//" then
      var a := IndexOfAny(s, 2, AuthorityEnd);
      assert s == "//" + s[2..a] + s[a..];
      (Some(s[2..a]), s[a..])
    else (None, s)
  }

  /** The path and what follows it (`([^?#]*)`). */
  function SplitPath(s: string): (r: (string, string))
    ensures r.0 + r.1 == s
    ensures Free(r.0, PathEnd)
    ensures r.1 == [] || r.1[0] in PathEnd
  {
    var p := IndexOfAny(s, 0, PathEnd);
    (s[..p], s[p..])
  }

  /** The query and the fragment (`(\?([^#]*))?(#(.*))?`), of what follows a
      path: a string that is empty or starts with '?' or '#'. */
  function SplitQuery(s: string): (r: (Option<string>, Option<string>))
    requires s == [] || s[0] in PathEnd
    ensures (if r.0.Some? then "?" + r.0.value else "") + (if r.1.Some? then "#" + r.1.value else "") == s
    ensures r.0.Some? ==> Free(r.0.value, QueryEnd)
  {
    var f := IndexOfAny(s, 0, QueryEnd);
    if f > 0 then
      if f < |s| then
        assert s == "?" + s[1..f] + "#" + s[f + 1..];
        (Some(s[1..f]), Some(s[f + 1..]))
      else
        assert s == "?" + s[1..f];
        (Some(s[1..f]), None)
    else if f < |s| then
      assert s == "#" + s[f + 1..];
      (None, Some(s[f + 1..]))
    else (None, None)
  }

  /** Splits a URI reference into its components, as the regular expression
      of Appendix B does: `^(([^:/?#]+):)?(//([^/?#]*))?([^?#]*)(\?([^#]*))?(#(.*))?` */
  function Parse(s: string): Uri
  {
    var (scheme, rest) := SplitScheme(s);
    var (authority, tail) := SplitAuthority(rest);
    var (path, after) := SplitPath(tail);
    var (query, fragment) := SplitQuery(after);
    Uri(scheme, authority, path, query, fragment)
  }

  /** Component recomposition (section 5.3): the string form of a URI. */
  function Recompose(u: Uri): string
  {
    (if u.scheme.Some? then u.scheme.value + ":" else "") + AfterScheme(u)
  }

  /** The string form from the authority on. */
  function AfterScheme(u: Uri): string
  {
    (if u.authority.Some? then "//" + u.authority.value else "") + AfterAuthority(u)
  }

  /** The string form from the path on. */
  function AfterAuthority(u: Uri): string
  {
    u.path + AfterPath(u)
  }

  /** The string form of the query and the fragment. */
  function AfterPath(u: Uri): string
  {
    (if u.query.Some? then "?" + u.query.value else "")
    + (if u.fragment.Some? then "#" + u.fragment.value else "")
  }

  /** A path with no scheme or authority in front of it must not look like a
      scheme: its first ':' may not come before its first '/', '?' or '#'. */
  predicate NotSchemeLike(p: string)
  {
    var c := IndexOfAny(p, 0, SchemeEnd);
    c == 0 || c == |p| || p[c] != ':'
  }

  /** s does not start with "//", so that it holds no authority. */
  predicate NoAuthority(s: string)
  {
    !(|s| >= 2 && s[..2] == "//")
  }

  /** The components that Parse can produce, so that recomposing them and
      parsing again gives them back. */
  predicate WellFormed(u: Uri)
  {
    && (u.scheme.Some? ==> |u.scheme.value| > 0 && Free(u.scheme.value, SchemeEnd))
    && (u.authority.Some? ==> Free(u.authority.value, AuthorityEnd))
    && Free(u.path, PathEnd)
    && (u.authority.Some? ==> u.path == [] || u.path[0] == '/')
    && (u.authority.None? ==> NoAuthority(u.path))
    && (u.scheme.None? && u.authority.None? ==> NotSchemeLike(u.path))
    && (u.query.Some? ==> Free(u.query.value, QueryEnd))
  }

  /** Recomposition undoes parsing: no character of the reference is lost. */
  lemma ParseRecompose(s: string)
    ensures Recompose(Parse(s)) == s
  {
  }

  lemma SplitSchemePresent(scheme: string, rest: string)
    requires |scheme| > 0 && Free(scheme, SchemeEnd)
    ensures SplitScheme(scheme + ":" + rest) == (Some(scheme), rest)
  {
    var s := scheme + ":" + rest;
    IndexOfAnyIs(s, 0, SchemeEnd, |scheme|);
    assert s[..|scheme|] == scheme && s[|scheme| + 1..] == rest;
  }

  lemma SplitSchemeAbsent(s: string)
    requires NotSchemeLike(s)
    ensures SplitScheme(s) == (None, s)
  {
  }

  /** Text that follows a path cannot make it look like a scheme. */
  lemma NotSchemeLikeExtend(path: string, rest: string)
    requires NotSchemeLike(path)
    requires rest == [] || rest[0] in PathEnd
    ensures NotSchemeLike(path + rest)
  {
    var c := IndexOfAny(path, 0, SchemeEnd);
    IndexOfAnyIs(path + rest, 0, SchemeEnd, c);
  }

  lemma SplitAuthorityPresent(authority: string, rest: string)
    requires Free(authority, AuthorityEnd)
    requires rest == [] || rest[0] in AuthorityEnd
    ensures SplitAuthority("//" + authority + rest) == (Some(authority), rest)
  {
    var s := "//" + authority + rest;
    assert s[..2] == "//";
    IndexOfAnyIs(s, 2, AuthorityEnd, 2 + |authority|);
    assert s[2..2 + |authority|] == authority && s[2 + |authority|..] == rest;
  }

  lemma SplitPathOf(path: string, rest: string)
    requires Free(path, PathEnd)
    requires rest == [] || rest[0] in PathEnd
    ensures SplitPath(path + rest) == (path, rest)
  {
    IndexOfAnyIs(path + rest, 0, PathEnd, |path|);
    assert (path + rest)[..|path|] == path && (path + rest)[|path|..] == rest;
  }

  lemma SplitQueryOf(query: Option<string>, fragment: Option<string>)
    requires query.Some? ==> Free(query.value, QueryEnd)
    ensures var s := (if query.Some? then "?" + query.value else "") + (if fragment.Some? then "#" + fragment.value else "");
            (s == [] || s[0] in PathEnd) && SplitQuery(s) == (query, fragment)
  {
    var qp := if query.Some? then "?" + query.value else "";
    var fp := if fragment.Some? then "#" + fragment.value else "";
    var s := qp + fp;
    IndexOfAnyIs(s, 0, QueryEnd, |qp|);
    if query.Some? {
      assert s[1..|qp|] == query.value;
    }
    if fragment.Some? {
      assert s[|qp| + 1..] == fragment.value;
    }
  }

  /** Text that follows a path cannot make it start with "//". */
  lemma NoAuthorityPrefix(path: string, rest: string)
    requires NoAuthority(path)
    requires rest == [] || rest[0] in PathEnd
    ensures NoAuthority(path + rest)
  {
    var s := path + rest;
    if |path| >= 2 {
      assert s[..2] == path[..2];
    } else if |path| == 1 && |rest| > 0 {
      assert s[1] == rest[0];
    } else if |path| == 0 && |rest| > 0 {
      assert s[0] == rest[0];
    }
  }

  lemma AfterAuthoritySplit(u: Uri)
    requires WellFormed(u)
    ensures AfterPath(u) == [] || AfterPath(u)[0] in PathEnd
    ensures SplitQuery(AfterPath(u)) == (u.query, u.fragment)
    ensures SplitPath(AfterAuthority(u)) == (u.path, AfterPath(u))
  {
    SplitQueryOf(u.query, u.fragment);
    SplitPathOf(u.path, AfterPath(u));
  }

  lemma AfterSchemeSplit(u: Uri)
    requires WellFormed(u)
    ensures SplitAuthority(AfterScheme(u)) == (u.authority, AfterAuthority(u))
  {
    AfterAuthoritySplit(u);
    var tail := AfterAuthority(u);
    if u.authority.Some? {
      assert tail == [] || tail[0] in AuthorityEnd;
      SplitAuthorityPresent(u.authority.value, tail);
    } else {
      NoAuthorityPrefix(u.path, AfterPath(u));
      assert AfterScheme(u) == tail;
    }
  }

  lemma RecomposeSplit(u: Uri)
    requires WellFormed(u)
    ensures SplitScheme(Recompose(u)) == (u.scheme, AfterScheme(u))
  {
    var rest := AfterScheme(u);
    if u.scheme.Some? {
      SplitSchemePresent(u.scheme.value, rest);
    } else if u.authority.Some? {
      IndexOfAnyIs(rest, 0, SchemeEnd, 0);
      SplitSchemeAbsent(rest);
    } else {
      AfterAuthoritySplit(u);
      NotSchemeLikeExtend(u.path, AfterPath(u));
      assert rest == AfterAuthority(u);
      SplitSchemeAbsent(rest);
    }
  }

  /** Parsing undoes recomposition, for the components Parse can produce. */
  lemma RecomposeParse(u: Uri)
    requires WellFormed(u)
    ensures Parse(Recompose(u)) == u
  {
    RecomposeSplit(u);
    AfterSchemeSplit(u);
    AfterAuthoritySplit(u);
  }

  /** Cutting a string before its first '?' or '#' keeps it from looking
      like a scheme. */
  lemma NotSchemeLikePrefix(s: string, p: nat)
    requires NotSchemeLike(s)
    requires p <= |s| && Free(s[..p], PathEnd)
    ensures NotSchemeLike(s[..p])
  {
    var c := IndexOfAny(s, 0, SchemeEnd);
    if c < p {
      IndexOfAnyIs(s[..p], 0, SchemeEnd, c);
    } else {
      IndexOfAnyIs(s[..p], 0, SchemeEnd, p);
    }
  }

  /** Every parse is well formed, so that recomposing it and parsing again
      gives it back. */
  lemma ParseWellFormed(s: string)
    ensures WellFormed(Parse(s))
  {
    var (scheme, rest) := SplitScheme(s);
    var (authority, tail) := SplitAuthority(rest);
    var (path, after) := SplitPath(tail);
    assert tail == path + after;
    if authority.Some? && path != [] {
      assert tail[0] == path[0];
    }
    if authority.None? && |path| >= 2 {
      assert rest[..2] == path[..2];
    }
    if scheme.None? && authority.None? {
      assert path == s[..|path|];
      NotSchemeLikePrefix(s, |path|);
    }
  }

  /** A path up to and including its last '/', or empty when it has none. */
  function Directory(p: string): (d: string)
    ensures d <= p
    ensures d == [] || d[|d| - 1] == '/'
    ensures forall k :: |d| <= k < |p| ==> p[k] != '/'
  {
    if p == [] then []
    else if p[|p| - 1] == '/' then p
    else Directory(p[..|p| - 1])
  }

  /** Merging a relative-path reference with the base path (section 5.2.3). */
  function Merge(base: Uri, refPath: string): string
  {
    if base.authority.Some? && base.path == [] then "/" + refPath
    else Directory(base.path) + refPath
  }

  /** The output buffer without its last segment and the '/' before it
      (step 2C of section 5.2.4). */
  function DropLastSegment(output: string): (r: string)
    ensures r < output || output == []
  {
    var d := Directory(output);
    if d == [] then [] else d[..|d| - 1]
  }

  /** The index just past the first segment of a path, with its leading '/'
      if it has one (step 2E of section 5.2.4). */
  function FirstSegmentEnd(input: string): (e: nat)
    requires input != []
    ensures 0 < e <= |input|
    ensures e < |input| ==> input[e] == '/'
  {
    if input[0] == '/' then IndexOfAny(input, 1, {'/'}) else IndexOfAny(input, 0, {'/'})
  }

  /** The loop of section 5.2.4 over its input and output buffers. */
  function RemoveDotSegmentsFrom(input: string, output: string): string
    decreases |input|
  {
    if input == [] then output
    else if "../" <= input then RemoveDotSegmentsFrom(input[3..], output)
    else if "./" <= input then RemoveDotSegmentsFrom(input[2..], output)
    else if "/./" <= input then RemoveDotSegmentsFrom(input[2..], output)
    else if input == "/." then RemoveDotSegmentsFrom("/", output)
    else if "/../" <= input then RemoveDotSegmentsFrom(input[3..], DropLastSegment(output))
    else if input == "/.." then RemoveDotSegmentsFrom("/", DropLastSegment(output))
    else if input == "." || input == ".." then output
    else
      var e := FirstSegmentEnd(input);
      RemoveDotSegmentsFrom(input[e..], output + input[..e])
  }

  /** Removal of the "." and ".." segments of a path (section 5.2.4). */
  function RemoveDotSegments(path: string): string
  {
    RemoveDotSegmentsFrom(path, [])
  }

  /** Transformation of a reference against a base URI (section 5.2.2, strict). */
  function Resolve(base: Uri, r: Uri): Uri
  {
    if r.scheme.Some? then
      Uri(r.scheme, r.authority, RemoveDotSegments(r.path), r.query, r.fragment)
    else if r.authority.Some? then
      Uri(base.scheme, r.authority, RemoveDotSegments(r.path), r.query, r.fragment)
    else if r.path == [] then
      Uri(base.scheme, base.authority, base.path, if r.query.Some? then r.query else base.query, r.fragment)
    else if r.path[0] == '/' then
      Uri(base.scheme, base.authority, RemoveDotSegments(r.path), r.query, r.fragment)
    else
      Uri(base.scheme, base.authority, RemoveDotSegments(Merge(base, r.path)), r.query, r.fragment)
  }

  /** A segment that is neither "." nor "..", nor holds a '/'. */
  predicate PlainSegment(seg: string)
  {
    '/' !in seg && seg != "." && seg != ".."
  }

  /** An absolute path (or the empty one) none of whose segments is "." or "..". */
  predicate DotFree(p: string)
    decreases |p|
  {
    p == [] ||
    (p[0] == '/' &&
     var e := FirstSegmentEnd(p);
     PlainSegment(p[1..e]) && DotFree(p[e..]))
  }

  lemma DotFreeCons(seg: string, rest: string)
    requires PlainSegment(seg) && DotFree(rest)
    ensures DotFree("/" + seg + rest)
  {
    var p := "/" + seg + rest;
    IndexOfAnyIs(p, 1, {'/'}, 1 + |seg|);
    assert p[1..1 + |seg|] == seg && p[1 + |seg|..] == rest;
  }

  /** The first segment of a path that starts with "/." or "/.." and one
      of those two prefixes of section 5.2.4 is "." or "..". */
  lemma DotPrefixSegment(p: string)
    requires p != [] && p[0] == '/'
    ensures ("/./" <= p || p == "/.") ==> p[1..FirstSegmentEnd(p)] == "."
    ensures ("/../" <= p || p == "/..") ==> p[1..FirstSegmentEnd(p)] == ".."
  {
    var e := FirstSegmentEnd(p);
    assert |p| >= 3 && p[1] != '/' && p[2] == '/' ==> e == 2;
    assert |p| >= 4 && p[1] != '/' && p[2] != '/' && p[3] == '/' ==> e == 3;
    if "/./" <= p || p == "/." {
      assert p[1] == '.' && e == 2;
      assert p[1..e] == [p[1]];
    }
    if "/../" <= p || p == "/.." {
      assert p[1] == '.' && p[2] == '.' && e == 3;
      assert p[1..e] == [p[1], p[2]];
    }
  }

  /** A dot-free path starts with none of the prefixes that steps 2A to 2D
      of section 5.2.4 act on. */
  lemma DotFreeNoDotPrefix(p: string)
    requires DotFree(p) && p != []
    ensures !("../" <= p) && !("./" <= p) && p != "." && p != ".."
    ensures !("/./" <= p) && p != "/." && !("/../" <= p) && p != "/.."
  {
    DotPrefixSegment(p);
  }

  /** A path that starts with none of the prefixes of steps 2A to 2D moves
      its first segment to the output buffer (step 2E). */
  lemma MoveFirstSegment(p: string, output: string)
    requires p != []
    requires !("../" <= p) && !("./" <= p) && p != "." && p != ".."
    requires !("/./" <= p) && p != "/." && !("/../" <= p) && p != "/.."
    ensures RemoveDotSegmentsFrom(p, output)
         == RemoveDotSegmentsFrom(p[FirstSegmentEnd(p)..], output + p[..FirstSegmentEnd(p)])
  {
  }

  lemma SplitAt(a: string, p: string, e: nat)
    requires e <= |p|
    ensures (a + p[..e]) + p[e..] == a + p
  {
    assert p[..e] + p[e..] == p;
  }

  /** What follows the first segment of a dot-free path is dot-free. */
  lemma DotFreeTail(p: string)
    requires DotFree(p) && p != []
    ensures DotFree(p[FirstSegmentEnd(p)..])
  {
  }

  /** Removing dot segments leaves a path without them as it is. */
  lemma {:induction false} DotFreeUnchanged(p: string, output: string)
    requires DotFree(p)
    ensures RemoveDotSegmentsFrom(p, output) == output + p
    decreases |p|
  {
    if p != [] {
      var e := FirstSegmentEnd(p);
      assert RemoveDotSegmentsFrom(p, output) == RemoveDotSegmentsFrom(p[e..], output + p[..e]) by {
        DotFreeNoDotPrefix(p);
        MoveFirstSegment(p, output);
      }
      DotFreeTail(p);
      DotFreeUnchanged(p[e..], output + p[..e]);
      SplitAt(output, p, e);
    }
  }

  /** A reference made of an absolute path without dot segments replaces the
      base's path, query and fragment and keeps its scheme and authority. */
  lemma ResolveAbsolutePath(base: Uri, p: string)
    requires p != [] && p[0] == '/' && DotFree(p)
    ensures Resolve(base, Uri(None, None, p, None, None)) == Uri(base.scheme, base.authority, p, None, None)
  {
    DotFreeUnchanged(p, []);
  }

  /** A reference made of a relative path is appended to a base path that
      ends in '/', when the result has no dot segments. */
  lemma ResolveRelativePath(base: Uri, p: string)
    requires p != [] && p[0] != '/'
    requires base.path != [] && base.path[|base.path| - 1] == '/'
    requires DotFree(base.path + p)
    ensures Resolve(base, Uri(None, None, p, None, None)) == Uri(base.scheme, base.authority, base.path + p, None, None)
  {
    assert Directory(base.path) == base.path;
    DotFreeUnchanged(base.path + p, []);
  }
}

/** Request routing and path rewriting. The proxy registers two handlers: one
    at the registry prefix followed by `v2/` and a catch-all at `/`; the
    first rebuilds the request path in the shape the upstream registry
    expects, with the API marker `/v2` in front of the project/repository
    prefix instead of after it. */
module Routing {
  import opened GoStrings
  import opened Setup

  /** The handler each inbound path is dispatched to. */
  datatype Route = Authenticated | CatchAll

  /** The pattern the authenticated handler is registered at. */
  function Pattern(proxyPath: string): (pattern: string)
    ensures HasPrefix(pattern, proxyPath) && HasSuffix(pattern, "v2/")
  {
    HasPrefixConcat(proxyPath, "v2/");
    proxyPath + "v2/"
  }

  /** Dispatch as a prefix test: the authenticated pattern ends in `/`, so it
      claims every path under it, and the catch-all takes the rest. */
  function Dispatch(proxyPath: string, path: string): (r: Route)
    ensures r == Authenticated <==>
              && |proxyPath| + 3 <= |path|
              && path[..|proxyPath|] == proxyPath
              && path[|proxyPath|..|proxyPath| + 3] == "v2/"
  {
    var n := |proxyPath|;
    assert n + 3 <= |path| ==> path[..n + 3] == path[..n] + path[n..n + 3];
    if HasPrefix(path, Pattern(proxyPath)) then Authenticated else CatchAll
  }

  /** A path reaches the authenticated handler exactly when it is the pattern
      followed by some remainder. */
  lemma DispatchAuthenticatedIff(proxyPath: string, path: string)
    ensures Dispatch(proxyPath, path) == Authenticated <==>
              exists rest :: path == Pattern(proxyPath) + rest
  {
    if Dispatch(proxyPath, path) == Authenticated {
      HasPrefixSplit(path, Pattern(proxyPath));
      var rest := path[|Pattern(proxyPath)|..];
      assert path == Pattern(proxyPath) + rest;
    }
    if exists rest :: path == Pattern(proxyPath) + rest {
      var rest :| path == Pattern(proxyPath) + rest;
      HasPrefixConcat(Pattern(proxyPath), rest);
    }
  }

  /** The rewritten path: `/v2`, the prefix, then what is left of the inbound
      path once the pattern is trimmed from its front. */
  function Rewrite(proxyPath: string, path: string): (upstreamPath: string)
    ensures HasPrefix(upstreamPath, "/v2" + proxyPath)
  {
    HasPrefixConcat("/v2" + proxyPath, TrimPrefix(path, Pattern(proxyPath)));
    "/v2" + proxyPath + TrimPrefix(path, Pattern(proxyPath))
  }

  /** On a matched path `pattern + rest` the rewrite yields `/v2` + prefix +
      `rest`: the marker moves from behind the prefix to in front of it. */
  lemma RewriteMatched(proxyPath: string, rest: string)
    ensures Rewrite(proxyPath, Pattern(proxyPath) + rest) == "/v2" + proxyPath + rest
  {
    HasPrefixConcat(Pattern(proxyPath), rest);
  }

  /** The rewritten path starts with `/v2/` whenever the prefix is rooted, so
      the upstream receives a well-formed registry API path. */
  lemma RewriteStartsWithApiMarker(proxyPath: string, path: string)
    requires |proxyPath| > 0 && proxyPath[0] == '/'
    ensures HasPrefix(Rewrite(proxyPath, path), "/v2/")
  {
    var r := Rewrite(proxyPath, path);
    assert r[..|"/v2" + proxyPath|] == "/v2" + proxyPath;
    assert r[..4] == ("/v2" + proxyPath)[..4];
  }

  /** The inverse of the rewrite: turns an upstream path back into the
      public-facing one, or fails when it does not start with `/v2` and the
      prefix. */
  function Unrewrite(proxyPath: string, upstreamPath: string): Option<string> {
    if HasPrefix(upstreamPath, "/v2" + proxyPath) then
      Some(Pattern(proxyPath) + upstreamPath[|"/v2" + proxyPath|..])
    else
      None
  }

  /** Round trip: undoing the rewrite of a matched path recovers that path. */
  lemma RewriteRoundTrip(proxyPath: string, path: string)
    requires Dispatch(proxyPath, path) == Authenticated
    ensures Unrewrite(proxyPath, Rewrite(proxyPath, path)) == Some(path)
  {
    HasPrefixSplit(path, Pattern(proxyPath));
    var rest := path[|Pattern(proxyPath)|..];
    RewriteMatched(proxyPath, rest);
    HasPrefixConcat("/v2" + proxyPath, rest);
  }

  /** The other direction: whatever `Unrewrite` accepts is a matched path that
      the rewrite maps back to the upstream path it came from. */
  lemma UnrewriteRoundTrip(proxyPath: string, upstreamPath: string, path: string)
    requires Unrewrite(proxyPath, upstreamPath) == Some(path)
    ensures Dispatch(proxyPath, path) == Authenticated
    ensures Rewrite(proxyPath, path) == upstreamPath
  {
    var rest := upstreamPath[|"/v2" + proxyPath|..];
    HasPrefixConcat(Pattern(proxyPath), rest);
    RewriteMatched(proxyPath, rest);
    HasPrefixSplit(upstreamPath, "/v2" + proxyPath);
  }

  /** Two different matched paths are never forwarded to the same upstream
      path. */
  lemma RewriteInjective(proxyPath: string, path1: string, path2: string)
    requires Dispatch(proxyPath, path1) == Authenticated
    requires Dispatch(proxyPath, path2) == Authenticated
    requires Rewrite(proxyPath, path1) == Rewrite(proxyPath, path2)
    ensures path1 == path2
  {
    RewriteRoundTrip(proxyPath, path1);
    RewriteRoundTrip(proxyPath, path2);
  }
}

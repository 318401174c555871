# Request routing and path rewriting of the Artifact Registry docker proxy

This project models the core of `gcp-artifact-registry-docker-proxy`. It is a
reverse proxy that sits in front of a Google Artifact Registry docker
repository. Clients address the repository as
`/<project>/<repository>/v2/...`. The proxy rewrites such requests to
`/v2/<project>/<repository>/...`, attaches a Google access token as
`Authorization: Bearer <token>`, and forwards them to the registry host. Every
other request is forwarded with only its `Host` changed.

The model has four modules, one per concern of `main.go`:

- `GoStrings` (`strings.dfy`) holds the three Go `strings` functions the core calls: `HasPrefix`,
  `TrimPrefix` and `Join`. It also holds `HasSuffix` and `TrimSuffix`, which
  describe the reverse proxy's path join.
- `Setup` (`setup.dfy`) covers start-up. It rejects an empty, unparsable or
  non-absolute registry address. It derives the path prefix `proxyPath` by
  joining the registry's escaped path with `""` by `/`. It clears the path of
  the upstream target.
- `Routing` (`routing.dfy`) holds the handler pattern `proxyPath + "v2/"`,
  dispatch as a prefix test, the path rewrite, and its inverse `Unrewrite`.
- `Handlers` (`handlers.dfy`) holds the pure specification `Serve` of one
  request. It also holds the in-place form: a `Request` class (host, path,
  header) whose methods are the two handler closures and the dispatch between
  them. A `TokenSource` class is the token oracle; it may fail on any call. The
  module ends with the end-to-end scenario of the repository's test table.

`url.Parse` is a function parameter `parse`. A failed token fetch is a `None`
answer of the oracle. Forwarding is the outcome `Forward(request)`.

## Model

| member | source | states |
|---|---|---|
| `GoStrings.TrimPrefix` | cmd/gcp-artifact-registry-docker-proxy/main.go:90 | when `s` has the prefix, prefix + result is `s`; otherwise the result is `s` unchanged |
| `GoStrings.Join` | cmd/gcp-artifact-registry-docker-proxy/main.go:45 | the joined length is the summed element lengths plus one separator between each neighbouring pair; no elements give `""` and one element gives that element |
| `GoStrings.JoinLast` | cmd/gcp-artifact-registry-docker-proxy/main.go:45 | the join of two or more elements is the join of all but the last, the separator, then the last element; with `Join`'s own cases this fixes the elements in order with one separator between neighbours |
| `GoStrings.JoinPair` | cmd/gcp-artifact-registry-docker-proxy/main.go:45 | joining two elements gives first + separator + second |
| `Setup.ProxyPath` | cmd/gcp-artifact-registry-docker-proxy/main.go:45 | joining the escaped path with `""` by `/` gives exactly the escaped path followed by one `/`, so the prefix always ends in `/` |
| `Setup.ProxyPathRooted` | cmd/gcp-artifact-registry-docker-proxy/main.go:45 | the prefix starts with `/` when the escaped path is empty or starts with `/` |
| `Setup.ProxyPathDoubleSlash` | cmd/gcp-artifact-registry-docker-proxy/main.go:45 | a registry path already ending in `/` gives a prefix ending in `//`, because the `/` is appended unconditionally |
| `Setup.StartUp` | cmd/gcp-artifact-registry-docker-proxy/main.go:33-46 | start-up exits for an empty registry option (main.go:138-140), an unparsable address and a non-absolute one, each exactly in its case; otherwise the target is absolute with the parsed scheme and host and an empty path, and the prefix is the parsed path plus `/` |
| `Routing.Pattern` | cmd/gcp-artifact-registry-docker-proxy/main.go:80 | the authenticated handler's pattern starts with the prefix and ends with `v2/` |
| `Routing.Dispatch` | cmd/gcp-artifact-registry-docker-proxy/main.go:80-98 | a path goes to the authenticated handler iff it starts with the prefix and the three characters after the prefix are `v2/`; every other path goes to the catch-all |
| `Routing.DispatchAuthenticatedIff` | cmd/gcp-artifact-registry-docker-proxy/main.go:80-98 | a path goes to the authenticated handler iff it is the pattern followed by some remainder; every other path goes to the catch-all |
| `Routing.Rewrite` | cmd/gcp-artifact-registry-docker-proxy/main.go:90 | every rewritten path starts with `/v2` followed by the prefix |
| `Routing.RewriteMatched` | cmd/gcp-artifact-registry-docker-proxy/main.go:90 | the matched path `prefix + "v2/" + rest` is rewritten to exactly `"/v2" + prefix + rest` |
| `Routing.RewriteStartsWithApiMarker` | cmd/gcp-artifact-registry-docker-proxy/main.go:90 | with a rooted prefix, every rewritten path starts with `/v2/` |
| `Routing.RewriteRoundTrip` | cmd/gcp-artifact-registry-docker-proxy/main.go:90 | `Unrewrite` recovers every matched path from its rewrite |
| `Routing.UnrewriteRoundTrip` | cmd/gcp-artifact-registry-docker-proxy/main.go:80-90 | whatever `Unrewrite` returns is a matched path whose rewrite is the upstream path it came from |
| `Routing.RewriteInjective` | cmd/gcp-artifact-registry-docker-proxy/main.go:90 | two matched paths with the same rewrite are equal |
| `Handlers.BearerValue` | cmd/gcp-artifact-registry-docker-proxy/main.go:91 | the header value is `Bearer ` followed by the access token |
| `Handlers.SetAuthHeader` | cmd/gcp-artifact-registry-docker-proxy/main.go:91 | the Authorization field afterwards holds exactly one value, the bearer value; every other field is kept as it was and no other field is added |
| `Handlers.AuthenticatedTransform` | cmd/gcp-artifact-registry-docker-proxy/main.go:89-91 | the authenticated handler's request has the upstream host, a path starting with `/v2` and the prefix, the received header fields plus Authorization, and exactly one Authorization value `Bearer <token>` |
| `Handlers.CatchAllTransform` | cmd/gcp-artifact-registry-docker-proxy/main.go:99 | the catch-all's request has the upstream host and the received path and header fields |
| `Handlers.Serve` | cmd/gcp-artifact-registry-docker-proxy/main.go:80-102 | a reply is always status 500; every forward goes to the upstream host; a catch-all forward keeps the received path and header fields; an authenticated forward follows a successful token fetch and carries one Authorization value `Bearer <token>` |
| `Handlers.ServeAuthenticated` | cmd/gcp-artifact-registry-docker-proxy/main.go:80-93 | a matched request with a token is forwarded to the upstream host at `"/v2" + prefix + rest`, with one Authorization value `Bearer <token>` and every other header field as received |
| `Handlers.ServeTokenFailure` | cmd/gcp-artifact-registry-docker-proxy/main.go:81-87 | the caller gets a reply instead of a forward iff the path matched and the token fetch failed, and that reply is status 500 |
| `Handlers.ServeCatchAll` | cmd/gcp-artifact-registry-docker-proxy/main.go:98-102 | an unmatched request is forwarded with the upstream host, its own path and its own header fields; an Authorization field is present only if the caller sent one |
| `Handlers.ServeForwardsUpstream` | cmd/gcp-artifact-registry-docker-proxy/main.go:89-99 | every forwarded request goes to the upstream host, and one that arrived without Authorization carries one only if it took the authenticated route |
| `Handlers.SingleJoiningSlash` | cmd/gcp-artifact-registry-docker-proxy/main.go:46-48 | the reverse proxy joins the target path and the request path with exactly one `/`: the target path without a trailing `/`, then `/`, then the request path without a leading `/` |
| `Handlers.ClearedTargetKeepsPath` | cmd/gcp-artifact-registry-docker-proxy/main.go:46-48 | with the target path cleared, the reverse proxy sends a rooted path upstream unchanged; a kept, non-empty target path would be put in front of it |
| `Handlers.TokenSource.Token` | cmd/gcp-artifact-registry-docker-proxy/main.go:81 | each call returns the oracle's answer for that call, which may be a failure, and counts the call |
| `Handlers.Request.ServeAuthenticated` | cmd/gcp-artifact-registry-docker-proxy/main.go:80-94 | asks the token source exactly once; on failure replies 500 and leaves the request as it was; on success changes the request to the authenticated transform of what it was and forwards it |
| `Handlers.Request.ServeCatchAll` | cmd/gcp-artifact-registry-docker-proxy/main.go:98-102 | changes only the host to the upstream host and forwards the request |
| `Handlers.Request.ServeHTTP` | cmd/gcp-artifact-registry-docker-proxy/main.go:80-102 | the in-place handling of a request gives the response `Serve` specifies, forwards the request as it was left, leaves it unchanged on a reply, and asks the token source once on the authenticated route and never on the catch-all |
| `Handlers.ScenarioStartUp` | cmd/gcp-artifact-registry-docker-proxy/main_test.go:72 | the test registry `http://<backend>/example-project/example-repo` starts with target `http://<backend>` and prefix `/example-project/example-repo/` |
| `Handlers.ScenarioManifest` | cmd/gcp-artifact-registry-docker-proxy/main_test.go:101-105 | the manifest request is forwarded to `/v2/example-project/example-repo/library/hello-world/manifests/latest` with `Authorization: Bearer <token>` |
| `Handlers.ScenarioFallThrough` | cmd/gcp-artifact-registry-docker-proxy/main_test.go:106-117 | the `v2library` path, the `abc` path and the upstream-shaped `/v2/...` path each reach the catch-all and are forwarded with only the host changed |

## Left out

- HTTP serving is not modelled. That covers `http.ListenAndServe`, the `ServeMux` internals (path cleaning, redirects from `.../v2` to `.../v2/`, host-specific patterns) and the reverse proxy's transport. Dispatch is a prefix test. Forwarding is the outcome `Forward(request)`; only the reverse proxy's path join (`SingleJoiningSlash`) is modelled, to show why the target path is cleared.
- The status the upstream returns for a forwarded request is not modelled. The three fall-through rows of the test table (main_test.go:106-117) expect status 404. Nothing in the code explains that status: the catch-all forwards those requests with only the host changed, and the test backend (main_test.go:59-65) answers every request with a JSON body and status 200. The model states what the code does, `Forward` with only the host changed (`Handlers.ScenarioFallThrough`), and makes no claim about the status the test expects.
- Credential discovery is left out: `metadata.OnGCE`, `metadata.ProjectID`, `auth.ComputeTokenSource`, `auth.FindDefaultCredentials` and the `only-metadata` switch between them. The start-up token fetch and its fatal exit are left out too. All of these are foreign, network-bound calls. The credential handle is the `TokenSource` oracle, which may fail on any call.
- `url.Parse` is a parameter, not an RFC 3986 parser. `IsAbs` is Go's test for a non-empty scheme.
- Paths are plain: escaped and decoded forms coincide. This covers the registry path, where `EscapedPath()` and `Path` are taken to be the same. It also covers inbound request paths: the rewrite sets `r.URL.Path` and leaves any `RawPath` the request arrived with as it was, which the model does not capture.
- Query strings and request bodies are not modelled; `Message` holds only host, path and header fields.
- `Handlers.SetAuthHeader` always writes the token type `Bearer`. The oauth2 library's normalisation of other token types is left out, because Google access tokens are bearer tokens.
- `parseConfiguration` is left out: flag, environment and default binding. Only its "registry must be set" check is kept, as `Setup.StartUp`'s `RegistryUnset` exit. The `listen` address is not modelled.
- Logging through `slog` and process termination through `os.Exit` are left out. A start-up failure is the `Exited` outcome, which stands for exit status 1.
- Concurrent handling of requests is left out. The model serves one request at a time against one token source.
- The code appends `/` unconditionally, so a registry path that already ends in `/` gives a prefix ending in `//` (`Setup.ProxyPathDoubleSlash`). The authenticated pattern then contains `//`. `ServeMux` cleans request paths and redirects any path containing `//`, so in practice no request reaches that pattern. The model has no path cleaning and routes such paths to `Authenticated`.

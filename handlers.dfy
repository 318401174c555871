/** The two request handlers and the dispatch between them. A request is
    changed in place: the authenticated handler fetches a token first, then
    rewrites the host, the path and the Authorization header; the catch-all
    only rewrites the host. Forwarding itself is an outcome, not modelled
    traffic. */
module Handlers {
  import opened GoStrings
  import opened Setup
  import opened Routing

  /** HTTP header fields by canonical name; each name may carry several
      values. */
  type Header = map<string, seq<string>>

  const Authorization: string := "Authorization"
  const StatusInternalServerError: int := 500

  /** The parts of a request the handlers read or write. */
  datatype Message = Message(host: string, path: string, header: Header)

  /** What becomes of a request: it is handed to the reverse proxy as it
      stands, or answered directly with a status code. */
  datatype Response = Forward(request: Message) | Reply(status: int)

  /** The header value an access token is presented in. */
  function BearerValue(accessToken: string): (v: string)
    ensures HasPrefix(v, "Bearer ") && v[|"Bearer "|..] == accessToken
  {
    HasPrefixConcat("Bearer ", accessToken);
    "Bearer " + accessToken
  }

  /** `token.SetAuthHeader(r)`: `Header.Set` replaces every value the field
      had with the single bearer value; no other field changes. */
  function SetAuthHeader(header: Header, accessToken: string): (h: Header)
    ensures h.Keys == header.Keys + {Authorization}
    ensures h[Authorization] == [BearerValue(accessToken)]
    ensures forall k :: k in header && k != Authorization ==> h[k] == header[k]
  {
    header[Authorization := [BearerValue(accessToken)]]
  }

  /** The request the authenticated handler forwards once it holds a token. */
  function AuthenticatedTransform(proxy: Proxy, m: Message, accessToken: string): (out: Message)
    ensures out.host == proxy.upstream.host
    ensures HasPrefix(out.path, "/v2" + proxy.proxyPath)
    ensures out.header.Keys == m.header.Keys + {Authorization}
    ensures out.header[Authorization] == ["Bearer " + accessToken]
  {
    Message(proxy.upstream.host,
            Rewrite(proxy.proxyPath, m.path),
            SetAuthHeader(m.header, accessToken))
  }

  /** The request the catch-all forwards: only the host differs. */
  function CatchAllTransform(proxy: Proxy, m: Message): (out: Message)
    ensures out.host == proxy.upstream.host
    ensures out.path == m.path && out.header == m.header
  {
    m.(host := proxy.upstream.host)
  }

  /** Dispatch and handling of one request. `fetched` is what the credential
      handle answers if it is asked for a token; only the authenticated
      handler asks. */
  function Serve(proxy: Proxy, m: Message, fetched: Option<string>): (r: Response)
    ensures r.Reply? ==> r.status == StatusInternalServerError
    ensures r.Forward? ==> r.request.host == proxy.upstream.host
    ensures r.Forward? && Dispatch(proxy.proxyPath, m.path) == CatchAll ==>
              r.request.path == m.path && r.request.header == m.header
    ensures r.Forward? && Dispatch(proxy.proxyPath, m.path) == Authenticated ==>
              && fetched.Some?
              && Authorization in r.request.header
              && r.request.header[Authorization] == ["Bearer " + fetched.value]
  {
    match Dispatch(proxy.proxyPath, m.path)
    case Authenticated =>
      (match fetched
       case None => Reply(StatusInternalServerError)
       case Some(accessToken) => Forward(AuthenticatedTransform(proxy, m, accessToken)))
    case CatchAll => Forward(CatchAllTransform(proxy, m))
  }

  /** A matched path `pattern + rest` with a token in hand is forwarded to the
      upstream host at `/v2` + prefix + `rest`, with one Authorization value
      `Bearer <token>` and every other header field as received. */
  lemma ServeAuthenticated(proxy: Proxy, m: Message, rest: string, accessToken: string)
    requires m.path == Pattern(proxy.proxyPath) + rest
    ensures Serve(proxy, m, Some(accessToken)).Forward?
    ensures var out := Serve(proxy, m, Some(accessToken)).request;
              && out.host == proxy.upstream.host
              && out.path == "/v2" + proxy.proxyPath + rest
              && Authorization in out.header
              && out.header[Authorization] == ["Bearer " + accessToken]
              && (forall k :: k != Authorization ==>
                    (k in out.header <==> k in m.header) &&
                    (k in m.header ==> out.header[k] == m.header[k]))
  {
    HasPrefixConcat(Pattern(proxy.proxyPath), rest);
    RewriteMatched(proxy.proxyPath, rest);
  }

  /** The caller gets status 500 exactly when the path is matched and no token
      could be fetched; nothing is forwarded then. */
  lemma ServeTokenFailure(proxy: Proxy, m: Message, fetched: Option<string>)
    ensures Serve(proxy, m, fetched).Reply? <==>
              Dispatch(proxy.proxyPath, m.path) == Authenticated && fetched.None?
    ensures Serve(proxy, m, fetched).Reply? ==>
              Serve(proxy, m, fetched).status == StatusInternalServerError
  {
  }

  /** Every other path is forwarded with the host rewritten and nothing else:
      path and header fields as received, so an Authorization field is present
      afterwards only if the caller sent one. */
  lemma ServeCatchAll(proxy: Proxy, m: Message, fetched: Option<string>)
    requires !HasPrefix(m.path, Pattern(proxy.proxyPath))
    ensures Serve(proxy, m, fetched).Forward?
    ensures var out := Serve(proxy, m, fetched).request;
              && out.host == proxy.upstream.host
              && out.path == m.path
              && out.header == m.header
              && (Authorization in out.header <==> Authorization in m.header)
  {
  }

  /** Whatever is forwarded goes to the upstream host, and a request carrying
      no Authorization field gains one only on the authenticated route. */
  lemma ServeForwardsUpstream(proxy: Proxy, m: Message, fetched: Option<string>)
    requires Serve(proxy, m, fetched).Forward?
    ensures Serve(proxy, m, fetched).request.host == proxy.upstream.host
    ensures Authorization !in m.header && Authorization in Serve(proxy, m, fetched).request.header ==>
              Dispatch(proxy.proxyPath, m.path) == Authenticated
  {
  }

  /** `singleJoiningSlash` of the reverse proxy: how the target's path and the
      forwarded request's path are put together. */
  function SingleJoiningSlash(a: string, b: string): (r: string)
    ensures r == TrimSuffix(a, "/") + "/" + TrimPrefix(b, "/")
  {
    var aslash := HasSuffix(a, "/");
    var bslash := HasPrefix(b, "/");
    if aslash && bslash then a + b[1..]
    else if !aslash && !bslash then a + "/" + b
    else a + b
  }

  /** The path the reverse proxy sends upstream for a forwarded request. */
  function UpstreamPath(target: Url, m: Message): string {
    SingleJoiningSlash(target.path, m.path)
  }

  /** Because start-up clears the target's path, the reverse proxy sends a
      rooted path upstream exactly as the handler left it; had the path been
      kept, the registry prefix would be sent in front of the rewritten path
      a second time. */
  lemma ClearedTargetKeepsPath(target: Url, m: Message)
    requires HasPrefix(m.path, "/")
    ensures target.path == "" ==> UpstreamPath(target, m) == m.path
    ensures target.path != "" && !HasSuffix(target.path, "/") ==>
              UpstreamPath(target, m) == target.path + m.path
  {
  }

  /** The credential handle as this model sees it: a token source that may
      fail, answering its n-th request with `answers(n)`. */
  class TokenSource {
    const answers: nat -> Option<string>
    var fetches: nat

    constructor (answers: nat -> Option<string>)
      ensures this.answers == answers && fetches == 0
    {
      this.answers := answers;
      fetches := 0;
    }

    /** `TokenSource.Token()`. */
    method Token() returns (token: Option<string>)
      modifies this
      ensures token == answers(old(fetches))
      ensures fetches == old(fetches) + 1
    {
      token := answers(fetches);
      fetches := fetches + 1;
    }
  }

  /** An inbound request, which the handlers change in place before handing
      it to the reverse proxy. */
  class Request {
    var host: string
    var path: string
    var header: Header

    constructor (host: string, path: string, header: Header)
      ensures View() == Message(host, path, header)
    {
      this.host := host;
      this.path := path;
      this.header := header;
    }

    function View(): Message
      reads this
    {
      Message(host, path, header)
    }

    /** The handler registered at the prefix followed by `v2/`. It asks for a
        token before touching the request; without one it replies 500 and
        leaves the request as it was. */
    method ServeAuthenticated(proxy: Proxy, source: TokenSource) returns (response: Response)
      modifies this, source
      ensures source.fetches == old(source.fetches) + 1
      ensures source.answers(old(source.fetches)).None? ==>
                response == Reply(StatusInternalServerError) && View() == old(View())
      ensures source.answers(old(source.fetches)).Some? ==>
                View() == AuthenticatedTransform(proxy, old(View()), source.answers(old(source.fetches)).value) &&
                response == Forward(View())
    {
      var token := source.Token();
      if token.None? {
        return Reply(StatusInternalServerError);
      }
      host := proxy.upstream.host;
      path := "/v2" + proxy.proxyPath + TrimPrefix(path, Pattern(proxy.proxyPath));
      header := SetAuthHeader(header, token.value);
      response := Forward(View());
    }

    /** The handler registered at `/`: rewrites the host and forwards. */
    method ServeCatchAll(proxy: Proxy) returns (response: Response)
      modifies this
      ensures View() == CatchAllTransform(proxy, old(View()))
      ensures response == Forward(View())
    {
      host := proxy.upstream.host;
      response := Forward(View());
    }

    /** Dispatch by prefix to one of the two handlers. The token source is
        asked once on the authenticated route and never on the catch-all. */
    method ServeHTTP(proxy: Proxy, source: TokenSource) returns (response: Response)
      modifies this, source
      ensures response == Serve(proxy, old(View()), source.answers(old(source.fetches)))
      ensures source.fetches ==
                old(source.fetches) + if Dispatch(proxy.proxyPath, old(path)) == Authenticated then 1 else 0
      ensures response.Forward? ==> response.request == View()
      ensures response.Reply? ==> View() == old(View())
    {
      if HasPrefix(path, Pattern(proxy.proxyPath)) {
        response := ServeAuthenticated(proxy, source);
      } else {
        response := ServeCatchAll(proxy);
      }
    }
  }

  // The end-to-end scenario: the registry is the test backend followed by
  // `Repository`, and clients fetch the manifest named by `Manifest`.
  const Repository: string := "/example-project/example-repo"
  const Manifest: string := "library/hello-world/manifests/latest"

  /** Start-up in the scenario: the target keeps scheme and host, and the
      prefix is the repository path with one `/` appended. */
  lemma ScenarioStartUp(backend: string, parse: string -> Option<Url>)
    requires parse("http://" + backend + Repository) == Some(Url("http", backend, Repository))
    ensures StartUp("http://" + backend + Repository, parse) ==
              Started(Proxy(Url("http", backend, ""), Repository + "/"))
  {
  }

  /** A manifest request under the prefix and `v2/` is forwarded to
      `/v2` + repository + `/` + manifest with a bearer token. */
  lemma ScenarioManifest(backend: string, client: string, header: Header, accessToken: string)
    ensures Serve(Proxy(Url("http", backend, ""), Repository + "/"),
                  Message(client, Repository + "/v2/" + Manifest, header),
                  Some(accessToken))
            == Forward(Message(backend, "/v2" + Repository + "/" + Manifest,
                               header[Authorization := ["Bearer " + accessToken]]))
  {
    var proxyPath := Repository + "/";
    assert Pattern(proxyPath) + Manifest == Repository + "/v2/" + Manifest;
    HasPrefixConcat(Pattern(proxyPath), Manifest);
    RewriteMatched(proxyPath, Manifest);
    assert "/v2" + proxyPath + Manifest == "/v2" + Repository + "/" + Manifest;
  }

  /** The same path without the `/` after `v2`, a path without the marker,
      and a path already in upstream shape reach the catch-all and are
      forwarded with only the host changed. */
  lemma ScenarioFallThrough(backend: string, client: string, header: Header, fetched: Option<string>)
    ensures var proxy := Proxy(Url("http", backend, ""), Repository + "/");
      && Serve(proxy, Message(client, Repository + "/v2" + Manifest, header), fetched)
         == Forward(Message(backend, Repository + "/v2" + Manifest, header))
      && Serve(proxy, Message(client, Repository + "/abc", header), fetched)
         == Forward(Message(backend, Repository + "/abc", header))
      && Serve(proxy, Message(client, "/v2" + Repository + "/" + Manifest, header), fetched)
         == Forward(Message(backend, "/v2" + Repository + "/" + Manifest, header))
  {
    var pattern := Pattern(Repository + "/");
    var n := |Repository|;
    var noSlash := Repository + "/v2" + Manifest;
    var noMarker := Repository + "/abc";
    var upstreamShaped := "/v2" + Repository + "/" + Manifest;
    assert !HasPrefix(noSlash, pattern) by {
      assert noSlash[n + 3] != pattern[n + 3];
    }
    assert !HasPrefix(noMarker, pattern) by {
      assert noMarker[n + 1] != pattern[n + 1];
    }
    assert !HasPrefix(upstreamShaped, pattern) by {
      assert upstreamShaped[1] != pattern[1];
    }
  }
}

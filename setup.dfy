/** Start-up of the proxy: validating the configured registry address and
    splitting it into the upstream target (scheme and host only) and the path
    prefix that the request handlers match and rebuild. */
module Setup {
  import opened GoStrings

  datatype Option<T> = None | Some(value: T)

  /** The parts of a parsed registry URL that start-up reads or writes. `path`
      stands for both `Path` and `EscapedPath()`: the model takes registry
      paths in which escaping changes nothing. */
  datatype Url = Url(scheme: string, host: string, path: string)

  /** `URL.IsAbs`: a URL is absolute when it carries a scheme. */
  predicate IsAbs(u: Url) {
    u.scheme != ""
  }

  /** Why start-up ends the process with exit status 1. */
  datatype StartupError =
    | RegistryUnset   // the `registry` option is empty
    | Unparsable      // `url.Parse` rejected the registry address
    | NotAbsolute     // the registry address has no scheme

  /** What the request handlers share once start-up has succeeded: the target
      that requests are forwarded to and the path prefix of the registry. */
  datatype Proxy = Proxy(upstream: Url, proxyPath: string)

  datatype Startup = Started(proxy: Proxy) | Exited(reason: StartupError)

  /** The path prefix: the registry's escaped path joined with an empty
      element by `/`, which is the escaped path followed by exactly one
      appended `/`. */
  function ProxyPath(escapedPath: string): (p: string)
    ensures p == escapedPath + "/"
    ensures HasSuffix(p, "/")
  {
    JoinPair(escapedPath, "", "/");
    Join([escapedPath, ""], "/")
  }

  /** The prefix starts with `/` when the path is empty or rooted. */
  lemma ProxyPathRooted(escapedPath: string)
    requires escapedPath == "" || escapedPath[0] == '/'
    ensures ProxyPath(escapedPath)[0] == '/'
  {
  }

  /** The `/` is appended unconditionally: a registry path that already ends
      in `/` gives a prefix ending in `//`. */
  lemma ProxyPathDoubleSlash(escapedPath: string)
    requires HasSuffix(escapedPath, "/")
    ensures HasSuffix(ProxyPath(escapedPath), "//")
  {
    var n := |escapedPath|;
    assert escapedPath[n - 1] == '/';
    assert (escapedPath + "/")[n - 1..] == "//";
  }

  /** Start-up: refuse an empty registry option, an address `parse` rejects
      and one that is not absolute; otherwise derive the prefix from the
      address's path and clear the path of the upstream target. */
  function StartUp(registry: string, parse: string -> Option<Url>): (r: Startup)
    ensures r == Exited(RegistryUnset) <==> registry == ""
    ensures r == Exited(Unparsable) <==> registry != "" && parse(registry).None?
    ensures r == Exited(NotAbsolute) <==>
              registry != "" && parse(registry).Some? && !IsAbs(parse(registry).value)
    ensures r.Started? ==>
              && IsAbs(r.proxy.upstream)
              && r.proxy.upstream.path == ""
              && r.proxy.upstream.scheme == parse(registry).value.scheme
              && r.proxy.upstream.host == parse(registry).value.host
              && r.proxy.proxyPath == parse(registry).value.path + "/"
  {
    if registry == "" then
      Exited(RegistryUnset)
    else
      match parse(registry)
      case None => Exited(Unparsable)
      case Some(remote) =>
        if !IsAbs(remote) then
          Exited(NotAbsolute)
        else
          var proxyPath := ProxyPath(remote.path);
          Started(Proxy(remote.(path := ""), proxyPath))
  }
}

/**
 The per-route request handler. `Make` builds a single-host reverse proxy to
 the upstream URL and, when the upstream asks for it, wraps it in the
 standard library's prefix-stripping handler, whose prefix is the route
 pattern with one trailing slash removed. Only the routing decision is
 modelled: which backend a request goes to and with which path.
 */
module UpstreamHandler {
  import opened Wrappers
  import opened GoStrings
  import opened Config

  /** An `http.Handler` as `Make` can build it: the reverse proxy to a
      backend URL, or the handler `http.StripPrefix` returns for a non-empty
      `prefix` around another handler. `WrapStripPrefix` is `http.StripPrefix`
      itself, which never builds this case with an empty prefix. The URL is
      kept as the configured string. */
  datatype Handler =
    | Proxy(target: string)
    | StripPrefix(prefix: string, next: Handler)

  /** What happens to one request: it reaches the reverse proxy of a
      backend with the given path, or is answered with 404 Not Found by the
      strip wrapper. The path is the one handed to the proxy; the proxy's
      own joining of it onto the backend URL's path is not modelled. */
  datatype Outcome = Forward(target: string, path: string) | NotFound

  /** The backend a handler ends in. */
  function Backend(h: Handler): string
  {
    match h
    case Proxy(t) => t
    case StripPrefix(_, next) => Backend(next)
  }

  /** The prefix stripped for a pattern: the pattern without one trailing
      slash, so "/a//" gives "/a/". */
  function PatternPrefix(pattern: string): (prefix: string)
    ensures HasSuffix(pattern, "/") ==> prefix + "/" == pattern
    ensures !HasSuffix(pattern, "/") ==> prefix == pattern
  {
    TrimSuffix(pattern, "/")
  }

  /** `http.StripPrefix`: the wrapped handler serves a path that begins with
      `prefix` with the prefix trimmed and answers 404 to any other path; an
      empty prefix leaves the handler as it is. */
  function WrapStripPrefix(prefix: string, h: Handler): (r: Handler)
    ensures forall path ::
              Serve(r, path) ==
                if prefix == [] then Serve(h, path)
                else if HasPrefix(path, prefix) then Serve(h, path[|prefix|..])
                else NotFound
  {
    if prefix == [] then h else StripPrefix(prefix, h)
  }

  /** Builds the handler for one upstream. The backend is the upstream URL
      whatever the strip flag says. */
  function Make(u: Upstream): (h: Handler)
    ensures Backend(h) == u.url
    ensures !u.stripPrefix ==> h == Proxy(u.url)
  {
    var proxy := Proxy(u.url);
    if u.stripPrefix then WrapStripPrefix(PatternPrefix(u.pattern), proxy) else proxy
  }

  /** Serves a request for `path`. The strip wrapper trims its prefix and
      answers 404 when the path did not get shorter; the proxy forwards. A
      forwarded request always reaches the handler's backend, with a path
      that is a suffix of the inbound one. */
  function Serve(h: Handler, path: string): (o: Outcome)
    ensures o.Forward? ==> o.target == Backend(h)
    ensures o.Forward? ==> HasSuffix(path, o.path)
  {
    match h
    case Proxy(t) => Forward(t, path)
    case StripPrefix(prefix, next) =>
      var rest := TrimPrefix(path, prefix);
      if |rest| < |path| then
        Serve(next, rest)
      else NotFound
  }

  /** The part of the inbound path that `Make(u)` removes before forwarding:
      the pattern's prefix when stripping, nothing otherwise. */
  function RemovedPrefix(u: Upstream): string
  {
    if u.stripPrefix then PatternPrefix(u.pattern) else ""
  }

  /** The path `Make(u)` forwards for an inbound `path`, or None when the
      request is answered with 404. The request is forwarded exactly when the
      path begins with the removed prefix, and the removed prefix followed by
      the forwarded path gives back the inbound path. */
  function Rewrite(u: Upstream, path: string): (r: Option<string>)
    ensures r == None <==> !HasPrefix(path, RemovedPrefix(u))
    ensures r.Some? ==> RemovedPrefix(u) + r.value == path
  {
    MakeServes(u, path);
    match Serve(Make(u), path)
    case Forward(_, p) => Some(p)
    case NotFound => None
  }

  /** `Make(u)` forwards to the upstream URL exactly the paths that begin
      with the removed prefix, trimmed of it, and answers 404 otherwise. */
  lemma MakeServes(u: Upstream, path: string)
    ensures HasPrefix(path, RemovedPrefix(u)) ==>
      Serve(Make(u), path) == Forward(u.url, TrimPrefix(path, RemovedPrefix(u)))
    ensures !HasPrefix(path, RemovedPrefix(u)) ==> Serve(Make(u), path) == NotFound
  {
  }

  /** The rewrite is undone by putting the removed prefix back: the two are
      inverse for every path. */
  lemma RewriteInverse(u: Upstream, path: string, rest: string)
    ensures Rewrite(u, path) == Some(rest) <==> path == RemovedPrefix(u) + rest
  {
  }

  /** Two inbound paths that are forwarded with the same path were equal. */
  lemma RewriteInjective(u: Upstream, path1: string, path2: string)
    requires Rewrite(u, path1) != None
    requires Rewrite(u, path1) == Rewrite(u, path2)
    ensures path1 == path2
  {
  }

  /** Without stripping, every request is forwarded to the upstream URL with
      its path unchanged. */
  lemma PassThrough(u: Upstream, path: string)
    requires !u.stripPrefix
    ensures Serve(Make(u), path) == Forward(u.url, path)
  {
  }

  /** Every request that `Make(u)` forwards goes to the upstream URL; the
      strip flag changes the path only, never the backend. */
  lemma BackendIsUpstreamUrl(u: Upstream, path: string, strip: bool)
    ensures Serve(Make(u), path).Forward? ==> Serve(Make(u), path).target == u.url
    ensures Backend(Make(u.(stripPrefix := strip))) == Backend(Make(u))
  {
  }

  /** For an accepted pattern the stripped prefix is non-empty, starts with
      a slash and is the pattern minus its final slash. */
  lemma PrefixOfValidPattern(pattern: string)
    requires ValidPattern(pattern)
    ensures PatternPrefix(pattern) != []
    ensures PatternPrefix(pattern)[0] == '/'
    ensures |PatternPrefix(pattern)| == |pattern| - 1
    ensures PatternPrefix(pattern) + "/" == pattern
  {
  }

  /** Only one trailing slash is removed. */
  lemma PatternPrefixTrimsOneSlash()
    ensures PatternPrefix("/a//") == "/a/"
    ensures PatternPrefix("/server2/") == "/server2"
  {
  }

  /** With stripping on an accepted pattern, a path under the pattern is
      forwarded to the upstream URL with a path that is still rooted at a
      slash, and putting the prefix back gives the inbound path. */
  lemma StripKeepsPathRooted(u: Upstream, path: string)
    requires u.stripPrefix && ValidPattern(u.pattern)
    requires HasPrefix(path, u.pattern)
    ensures Rewrite(u, path).Some?
    ensures
      var rest := Rewrite(u, path).value;
      && rest != [] && rest[0] == '/'
      && PatternPrefix(u.pattern) + rest == path
      && Serve(Make(u), path) == Forward(u.url, rest)
  {
  }

  /** With stripping on an accepted pattern, a path that does not begin with
      the prefix is answered with 404 and reaches no backend. */
  lemma StripRejectsForeignPath(u: Upstream, path: string)
    requires u.stripPrefix && ValidPattern(u.pattern)
    requires !HasPrefix(path, PatternPrefix(u.pattern))
    ensures Serve(Make(u), path) == NotFound
  {
  }

  /** A pattern whose prefix is empty, such as "/", makes the strip flag a
      no-op: the standard library hands back the proxy unwrapped. */
  lemma EmptyPrefixPassesThrough(url: string, path: string)
    ensures Serve(Make(Upstream("/", true, url)), path) == Forward(url, path)
  {
  }

  /** The handler cases: "/server1/" without stripping forwards
      "/server1/endpoint" as is; "/server2/" with stripping forwards
      "/server2/endpoint" as "/endpoint". */
  lemma MakeExamples(url1: string, url2: string)
    ensures Serve(Make(Upstream("/server1/", false, url1)), "/server1/endpoint") == Forward(url1, "/server1/endpoint")
    ensures Serve(Make(Upstream("/server2/", true, url2)), "/server2/endpoint") == Forward(url2, "/endpoint")
  {
  }

  /** The prefix is removed without checking what follows it: a path equal
      to the pattern minus its slash reaches the proxy as the empty path, and
      one that merely shares the prefix reaches it with an unrooted
      remainder. */
  lemma StripDoesNotReroot(url: string)
    ensures Rewrite(Upstream("/server2/", true, url), "/server2") == Some("")
    ensures Rewrite(Upstream("/server2/", true, url), "/server2x") == Some("x")
  {
  }
}

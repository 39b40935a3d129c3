/**
 The gateway's configuration: the records decoded from YAML, the defaults
 substituted for zero-valued server fields, and the validator that accepts or
 rejects the route table with one of two sentinel errors, "missing config" or
 "invalid config", checked in a fixed order.
 */
module Config {
  import opened Wrappers
  import opened GoStrings

  /** Nanoseconds in one second: Go's `time.Duration` counts nanoseconds. */
  const Second: int := 1_000_000_000

  /** Listener tuning. Durations are nanosecond counts. */
  datatype Server = Server(
    address: string,
    readTimeout: int,
    writeTimeout: int,
    idleTimeout: int,
    maxHeaderBytes: int,
    shutdownTimeout: int)

  /** One route: requests under `pattern` go to `url`, with the pattern's
      prefix removed first when `stripPrefix` is set. */
  datatype Upstream = Upstream(pattern: string, stripPrefix: bool, url: string)

  datatype Config = Config(server: Server, upstreams: seq<Upstream>)

  const DefaultServer: Server :=
    Server(":8080", 5 * Second, 10 * Second, 120 * Second, 1048576, 10 * Second)

  /** Go's zero values: the empty string and 0 everywhere, no upstreams. */
  const ZeroServer: Server := Server("", 0, 0, 0, 0, 0)
  const ZeroConfig: Config := Config(ZeroServer, [])

  /** The configuration entry an error message points at. */
  datatype Field =
    | ServerAddress
    | Services
    | ServicePattern(index: nat)
    | ServiceUrl(index: nat)

  /** An error returned while reading the configuration: one wrapping the
      "missing config" sentinel, one wrapping the "invalid config" sentinel,
      or the unwrapped error of opening or decoding the file. */
  datatype Error =
    | Missing(field: Field)
    | Invalid(field: Field)
    | ReadFailed(reason: string)

  /** Why a pattern was rejected, in the order the checks run. */
  datatype PatternError = NoLeadingSlash | NoTrailingSlash | TooShort

  /** The two library calls the validator delegates to, left uninterpreted:
      `resolvesTcp(a)` holds when `net.ResolveTCPAddr("tcp", a)` returns no
      error and `parsesUrl(u)` when `url.Parse(u)` returns no error. */
  datatype Resolver = Resolver(resolvesTcp: string -> bool, parsesUrl: string -> bool)

  // ---------------------------------------------------------------------
  // Server defaults
  // ---------------------------------------------------------------------

  /** Every field of `s` differs from its zero value. */
  predicate Complete(s: Server)
  {
    && s.address != ""
    && s.readTimeout != 0
    && s.writeTimeout != 0
    && s.idleTimeout != 0
    && s.maxHeaderBytes != 0
    && s.shutdownTimeout != 0
  }

  /** `r` keeps every non-zero field of `s` and holds the default exactly
      where `s` holds a zero. */
  predicate DefaultsApplied(s: Server, r: Server)
  {
    && (s.address == "" ==> r.address == DefaultServer.address)
    && (s.address != "" ==> r.address == s.address)
    && (s.readTimeout == 0 ==> r.readTimeout == DefaultServer.readTimeout)
    && (s.readTimeout != 0 ==> r.readTimeout == s.readTimeout)
    && (s.writeTimeout == 0 ==> r.writeTimeout == DefaultServer.writeTimeout)
    && (s.writeTimeout != 0 ==> r.writeTimeout == s.writeTimeout)
    && (s.idleTimeout == 0 ==> r.idleTimeout == DefaultServer.idleTimeout)
    && (s.idleTimeout != 0 ==> r.idleTimeout == s.idleTimeout)
    && (s.maxHeaderBytes == 0 ==> r.maxHeaderBytes == DefaultServer.maxHeaderBytes)
    && (s.maxHeaderBytes != 0 ==> r.maxHeaderBytes == s.maxHeaderBytes)
    && (s.shutdownTimeout == 0 ==> r.shutdownTimeout == DefaultServer.shutdownTimeout)
    && (s.shutdownTimeout != 0 ==> r.shutdownTimeout == s.shutdownTimeout)
  }

  /** Replaces each zero-valued field with the matching default. */
  function EnsureServerDefaults(s: Server): (r: Server)
    ensures DefaultsApplied(s, r)
    ensures Complete(r)
  {
    var s := if |s.address| == 0 then s.(address := DefaultServer.address) else s;
    var s := if s.readTimeout == 0 then s.(readTimeout := DefaultServer.readTimeout) else s;
    var s := if s.writeTimeout == 0 then s.(writeTimeout := DefaultServer.writeTimeout) else s;
    var s := if s.idleTimeout == 0 then s.(idleTimeout := DefaultServer.idleTimeout) else s;
    var s := if s.maxHeaderBytes == 0 then s.(maxHeaderBytes := DefaultServer.maxHeaderBytes) else s;
    var s := if s.shutdownTimeout == 0 then s.(shutdownTimeout := DefaultServer.shutdownTimeout) else s;
    s
  }

  /** An all-zero server becomes exactly the default server. */
  lemma DefaultsOfZeroServer()
    ensures EnsureServerDefaults(ZeroServer) == DefaultServer
  {
  }

  /** The servers left unchanged are exactly the complete ones; in
      particular applying the defaults twice changes nothing. */
  lemma EnsureServerDefaultsFixedPoints(s: Server)
    ensures EnsureServerDefaults(s) == s <==> Complete(s)
    ensures EnsureServerDefaults(EnsureServerDefaults(s)) == EnsureServerDefaults(s)
  {
  }

  // ---------------------------------------------------------------------
  // Validation
  // ---------------------------------------------------------------------

  /** A route pattern the gateway accepts: at least three characters,
      beginning and ending with a slash. */
  predicate ValidPattern(pattern: string)
  {
    |pattern| >= 3 && pattern[0] == '/' && pattern[|pattern| - 1] == '/'
  }

  /** Checks the leading slash, then the trailing slash, then the length;
      the first failing check names the error. Since both slash checks come
      first, the length check rejects exactly "/" and "//". */
  function ValidatePattern(pattern: string): (r: Option<PatternError>)
    ensures r == None <==> ValidPattern(pattern)
    ensures r == Some(NoLeadingSlash) <==> pattern == [] || pattern[0] != '/'
    ensures r == Some(NoTrailingSlash) <==> pattern != [] && pattern[0] == '/' && pattern[|pattern| - 1] != '/'
    ensures r == Some(TooShort) <==> pattern == "/" || pattern == "//"
  {
    if !HasPrefix(pattern, "/") then Some(NoLeadingSlash)
    else if !HasSuffix(pattern, "/") then Some(NoTrailingSlash)
    else if |pattern| < 3 then Some(TooShort)
    else None
  }

  /** `net.ResolveTCPAddr` accepts the address. */
  function ValidateAddress(res: Resolver, address: string): (r: Option<Error>)
    ensures r == None <==> res.resolvesTcp(address)
    ensures r != None ==> r == Some(Invalid(ServerAddress))
  {
    if !res.resolvesTcp(address) then Some(Invalid(ServerAddress)) else None
  }

  /** An upstream that passes every check of `ValidateUpstream`. */
  predicate UpstreamValid(res: Resolver, u: Upstream)
  {
    ValidPattern(u.pattern) && u.url != "" && res.parsesUrl(u.url)
  }

  /** Checks, in order: pattern present, pattern well formed, URL present,
      URL parses. A missing field is reported as missing, never as invalid,
      and the URL is looked at only once the pattern has passed. */
  function ValidateUpstream(res: Resolver, index: nat, u: Upstream): (r: Option<Error>)
    ensures u.pattern == "" ==> r == Some(Missing(ServicePattern(index)))
    ensures u.pattern != "" && !ValidPattern(u.pattern) ==> r == Some(Invalid(ServicePattern(index)))
    ensures ValidPattern(u.pattern) && u.url == "" ==> r == Some(Missing(ServiceUrl(index)))
    ensures ValidPattern(u.pattern) && u.url != "" && !res.parsesUrl(u.url) ==> r == Some(Invalid(ServiceUrl(index)))
    ensures r == None <==> UpstreamValid(res, u)
  {
    if |u.pattern| == 0 then Some(Missing(ServicePattern(index)))
    else if ValidatePattern(u.pattern) != None then Some(Invalid(ServicePattern(index)))
    else if |u.url| == 0 then Some(Missing(ServiceUrl(index)))
    else if !res.parsesUrl(u.url) then Some(Invalid(ServiceUrl(index)))
    else None
  }

  /** `k` is the first index whose upstream fails validation. */
  predicate FirstInvalid(res: Resolver, uu: seq<Upstream>, k: int)
  {
    && 0 <= k < |uu|
    && !UpstreamValid(res, uu[k])
    && forall j :: 0 <= j < k ==> UpstreamValid(res, uu[j])
  }

  /** The loop of `validateUpstreams` from index `from` on: the error of the
      first failing upstream, or none. */
  function ValidateUpstreamsFrom(res: Resolver, uu: seq<Upstream>, from: nat): (r: Option<Error>)
    requires from <= |uu|
    decreases |uu| - from
    ensures r == None <==> forall i :: from <= i < |uu| ==> UpstreamValid(res, uu[i])
    ensures r != None ==>
      exists k :: && from <= k < |uu|
                  && r == ValidateUpstream(res, k, uu[k])
                  && forall j :: from <= j < k ==> UpstreamValid(res, uu[j])
  {
    if from == |uu| then None
    else
      var err := ValidateUpstream(res, from, uu[from]);
      if err != None then err else ValidateUpstreamsFrom(res, uu, from + 1)
  }

  /** An empty route table is missing; otherwise the result is the error of
      the first upstream that fails, or none when all of them pass. */
  function ValidateUpstreams(res: Resolver, uu: seq<Upstream>): (r: Option<Error>)
    ensures uu == [] ==> r == Some(Missing(Services))
    ensures r == None <==> uu != [] && forall i :: 0 <= i < |uu| ==> UpstreamValid(res, uu[i])
    ensures uu != [] && r != None ==>
      exists k :: FirstInvalid(res, uu, k) && r == ValidateUpstream(res, k, uu[k])
  {
    if |uu| == 0 then Some(Missing(Services))
    else ValidateUpstreamsFrom(res, uu, 0)
  }

  /** The whole configuration passes: the address resolves, and the route
      table is non-empty with every upstream valid. */
  predicate Accepted(res: Resolver, s: Server, uu: seq<Upstream>)
  {
    res.resolvesTcp(s.address) && uu != [] && forall i :: 0 <= i < |uu| ==> UpstreamValid(res, uu[i])
  }

  /** The address is checked before the upstreams, so an unresolvable
      address hides whatever is wrong with the route table. */
  function Validate(res: Resolver, s: Server, uu: seq<Upstream>): (r: Option<Error>)
    ensures !res.resolvesTcp(s.address) ==> r == Some(Invalid(ServerAddress))
    ensures res.resolvesTcp(s.address) ==> r == ValidateUpstreams(res, uu)
    ensures r == None <==> Accepted(res, s, uu)
  {
    var err := ValidateAddress(res, s.address);
    if err != None then err else ValidateUpstreams(res, uu)
  }

  /** What `ReadFromYaml` does after the file has been opened and decoded:
      `decoded` is the decoded configuration or the error of opening or
      decoding the file. The server defaults are applied first and the
      result is then validated; every failure returns the zero
      configuration alongside the error. */
  function ReadFromYaml(res: Resolver, decoded: Result<Config, string>): (r: (Config, Option<Error>))
    ensures decoded.Failure? ==> r == (ZeroConfig, Some(ReadFailed(decoded.error)))
    ensures r.1 != None ==> r.0 == ZeroConfig
    ensures decoded.Success? && r.1 != None ==>
      r.1 == Validate(res, EnsureServerDefaults(decoded.value.server), decoded.value.upstreams)
    ensures r.1 == None <==>
      decoded.Success? && Accepted(res, EnsureServerDefaults(decoded.value.server), decoded.value.upstreams)
    ensures r.1 == None ==>
      && r.0.upstreams == decoded.value.upstreams
      && DefaultsApplied(decoded.value.server, r.0.server)
      && Complete(r.0.server)
  {
    match decoded
    case Failure(reason) => (ZeroConfig, Some(ReadFailed(reason)))
    case Success(c) =>
      var c := c.(server := EnsureServerDefaults(c.server));
      var err := Validate(res, c.server, c.upstreams);
      if err != None then (ZeroConfig, err) else (c, None)
  }

  // ---------------------------------------------------------------------
  // Properties of the pipeline
  // ---------------------------------------------------------------------

  /** With an unresolvable address, the route table cannot change the
      outcome. */
  lemma AddressMasksUpstreams(res: Resolver, s: Server, uu: seq<Upstream>, vv: seq<Upstream>)
    requires !res.resolvesTcp(s.address)
    ensures Validate(res, s, uu) == Validate(res, s, vv) == Some(Invalid(ServerAddress))
  {
  }

  /** Only the first failing upstream is reported: upstreams after it may be
      changed at will without changing the error. */
  lemma LaterUpstreamsDoNotMatter(res: Resolver, uu: seq<Upstream>, vv: seq<Upstream>, k: nat)
    requires FirstInvalid(res, uu, k)
    requires k < |vv| && vv[..k + 1] == uu[..k + 1]
    ensures ValidateUpstreams(res, vv) == ValidateUpstreams(res, uu) == ValidateUpstream(res, k, uu[k])
  {
    assert forall j :: 0 <= j <= k ==> vv[j] == uu[..k + 1][j] == uu[j];
    FirstInvalidUnique(res, uu, k);
    FirstInvalidUnique(res, vv, k);
  }

  /** There is at most one first failing index, and when it exists the
      validator reports that index's error. */
  lemma FirstInvalidUnique(res: Resolver, uu: seq<Upstream>, k: nat)
    requires FirstInvalid(res, uu, k)
    ensures forall k' :: FirstInvalid(res, uu, k') ==> k' == k
    ensures ValidateUpstreams(res, uu) == ValidateUpstream(res, k, uu[k])
  {
    var r := ValidateUpstreams(res, uu);
    assert r != None;
    var k' :| FirstInvalid(res, uu, k') && r == ValidateUpstream(res, k', uu[k']);
    assert k' == k;
  }

  /** A configuration that was read successfully reads back unchanged: the
      defaults are already in place and validation passes again. */
  lemma ReadFromYamlStable(res: Resolver, c: Config)
    requires ReadFromYaml(res, Success(c)).1 == None
    ensures ReadFromYaml(res, Success(ReadFromYaml(res, Success(c)).0)) == ReadFromYaml(res, Success(c))
  {
  }

  /** An omitted address is validated as the default ":8080", not as the
      empty string. */
  lemma EmptyAddressValidatedAsDefault(res: Resolver, c: Config)
    requires c.server.address == ""
    ensures ReadFromYaml(res, Success(c)).1 == Some(Invalid(ServerAddress)) <==> !res.resolvesTcp(":8080")
  {
  }

  /** The upstream-validation cases: a complete upstream passes, and an
      upstream without a pattern or without a URL is missing config. */
  lemma ValidateUpstreamExamples(res: Resolver)
    requires res.parsesUrl("http://localhost:8080")
    ensures ValidateUpstream(res, 0, Upstream("/api/", false, "http://localhost:8080")) == None
    ensures ValidateUpstream(res, 0, Upstream("", false, "http://localhost:8080")) == Some(Missing(ServicePattern(0)))
    ensures ValidateUpstream(res, 0, Upstream("/api/", false, "")) == Some(Missing(ServiceUrl(0)))
  {
  }

  /** A route table whose first entry lacks a pattern and whose second lacks
      a URL is reported as a missing pattern at index 0; an empty table is
      missing too. */
  lemma ValidateUpstreamsExamples(res: Resolver)
    ensures ValidateUpstreams(res, []) == Some(Missing(Services))
    ensures ValidateUpstreams(res, [Upstream("", false, "http://localhost:8080"), Upstream("/api/", false, "")])
      == Some(Missing(ServicePattern(0)))
  {
  }

  /** Reading the example files: the valid one comes back unchanged, the one
      with a patternless upstream yields the zero configuration and a
      missing-config error. */
  lemma ReadFromYamlExamples(res: Resolver)
    requires res.resolvesTcp(":8080") && res.parsesUrl("http://localhost:8080")
    ensures
      var valid := Config(DefaultServer, [Upstream("/api/", false, "http://localhost:8080")]);
      ReadFromYaml(res, Success(valid)) == (valid, None)
    ensures
      var missing := Config(DefaultServer, [Upstream("", false, "http://localhost:8080"), Upstream("/api/", false, "")]);
      ReadFromYaml(res, Success(missing)) == (ZeroConfig, Some(Missing(ServicePattern(0))))
  {
  }
}

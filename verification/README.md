# apigateway: configuration validation and upstream path rewriting

A Dafny model of the two pieces of pure logic inside a small Go HTTP gateway
(`ermanimer/apigateway`):

1. **Configuration normalisation and validation** (`pkg/config/config.go`).
   A decoded configuration has its zero-valued server fields replaced by
   fixed defaults. It is then validated. The server address is checked
   first, then the route table ("upstreams"), entry by entry. Each failure
   wraps one of two sentinels, "missing config" or "invalid config", in a
   fixed order. `ReadFromYaml` returns the zero configuration whenever it
   returns an error.
2. **Upstream path rewriting** (`pkg/handlers/upstreamhandler/handler.go`).
   `Make` builds a reverse proxy to the upstream URL. When `StripPrefix` is
   set, the proxy is wrapped in `http.StripPrefix`. The stripped prefix is
   the pattern with one trailing `/` removed.

Files:

- `wrappers.dfy`: module `Wrappers`, with `Option` (Go's nil-or-error) and `Result`.
- `go_strings.dfy`: module `GoStrings`, modelling `strings.HasPrefix`,
  `HasSuffix`, `TrimPrefix` and `TrimSuffix`, with standalone facts
  about them: what the prefix and suffix tests mean character by
  character, trimming a concatenated prefix, and when trimming shortens. `TrimSuffix` is called at handler.go:16.
  `TrimPrefix` is what `http.StripPrefix` applies to the request path.
- `config.dfy`: module `Config`, covering the records, the defaults, the
  validators, the post-decode part of `ReadFromYaml`, and their properties.
- `upstream_handler.dfy`: module `UpstreamHandler`. A `Handler` is either
  `Proxy(url)` or `StripPrefix(prefix, next)`. `Serve` says what a handler
  does with a request path: it forwards it to a backend with some path, or
  it answers 404.

Modelling choices:

- `net.ResolveTCPAddr` and `url.Parse` are library calls whose insides are
  not modelled. They enter as the two uninterpreted predicates of a
  `Resolver` value, one for "the address resolves" and one for "the URL
  parses". Every validation result is stated relative to them.
  `net.ResolveTCPAddr` may consult DNS, so its real answer can change over
  time. `resolvesTcp` is a fixed function of the address, so
  `ReadFromYamlStable` assumes both reads get the same answer.
- Opening and YAML-decoding the file are I/O. `ReadFromYaml` therefore takes
  the decoder's outcome as input: either a `Config`, or the error text of a
  failed open or decode. That error is returned as is, together with the
  zero configuration.
- Errors keep the sentinel (`Missing` / `Invalid`) and the entry the Go
  message names (`server.address`, `services`, `services[i].pattern`,
  `services[i].url`). The message text is not modelled.
- Durations are nanosecond counts, held in `int`. The code only compares
  them with 0 and never does arithmetic on them, so Go's 64-bit width cannot
  matter.
- Strings are sequences of characters, but Go's `len` counts bytes. The code
  only tests length for `== 0` and, on a string that begins and ends with
  `/`, for `< 3`. For a string that is valid UTF-8, byte length and
  character length give the same answer to both tests. A YAML `!!binary`
  value can decode into a configuration string that is not valid UTF-8,
  and the model does not cover such strings. Request
  paths are also modelled as character sequences. Go's decoded `URL.Path`
  may hold bytes that are not valid UTF-8, and the model does not cover
  such paths.
- A backend target is the configured URL string, left opaque. `Make`
  ignores the error from `url.Parse`. After validation that error cannot
  occur.
- The tests call `upstreamhandler.New` and `ReadConfigFromYaml`, but the code
  defines `Make` and `ReadFromYaml`. The model uses the names the code
  defines.
- The model's forwarded path is the path `http.StripPrefix` hands to the
  reverse proxy, not the path the backend finally receives. `http.StripPrefix`
  does not re-root what is left after prefix removal. With pattern
  `/server2/`, it hands the proxy the empty path for `/server2` and `x` for
  `/server2x` (`StripDoesNotReroot`). The proxy then joins that path onto
  the backend URL's path, adding a `/` where neither side has one. So a
  backend at `http://host:port` receives `/` and `/x`. That join is not
  modelled. For a path under the full pattern, the path handed to the
  proxy already begins with `/` (`StripKeepsPathRooted`). For a literal pattern, those are the only paths
  the standard mux hands to this handler. A pattern such as `/{id}/` also
  passes validation, and newer Go routers treat it as a wildcard: they pass
  `/abc/x` to the handler, and stripping the literal `/{id}` then answers
  404. The mux is not modelled, so this is not proved.

## Model

| member | source | states |
|---|---|---|
| `Config.EnsureServerDefaults` | pkg/config/config.go:71-91 | Each zero or empty field takes the matching default, every non-zero field is kept, and the result has no zero field. |
| `Config.DefaultsOfZeroServer` | pkg/config/config_test.go:137-141 | Applying the defaults to the all-zero server gives exactly the default server. |
| `Config.EnsureServerDefaultsFixedPoints` | pkg/config/config.go:71-91 | A server is left unchanged iff it has no zero field, so applying the defaults is idempotent. |
| `Config.ValidatePattern` | pkg/config/config.go:101-112 | Accepts iff the pattern has length at least 3 and begins and ends with `/`. Rejection reasons follow the check order: no leading slash, then no trailing slash, then too short, which happens exactly for `/` and `//`. |
| `Config.ValidateAddress` | pkg/config/config.go:93-99 | Rejects with invalid `server.address` exactly when the address does not resolve. |
| `Config.ValidateUpstream` | pkg/config/config.go:119-135 | An empty pattern is missing, never invalid. A non-empty bad pattern is invalid. Only after the pattern passes is an empty URL reported missing, then an unparsable URL invalid. It succeeds iff pattern and URL both pass. |
| `Config.ValidateUpstreamsFrom` | pkg/config/config.go:141-147 | The loop from index `from` returns nil iff every later entry is valid. Otherwise it returns the error of the first failing entry from there on. |
| `Config.ValidateUpstreams` | pkg/config/config.go:137-148 | An empty table is missing `services`. Otherwise the result is nil iff every entry is valid, and on failure it is the error of the first failing index. |
| `Config.Validate` | pkg/config/config.go:150-156 | An unresolvable address gives invalid `server.address` whatever the upstreams are. Otherwise the upstream result is returned. Nil iff address and every upstream pass. |
| `Config.ReadFromYaml` | pkg/config/config.go:48-69 | A read or decode error is returned with the zero configuration. Any validation error also comes with the zero configuration. A failed validation returns exactly the error `validate` gives for the defaulted server and the upstreams. Success happens iff that validation passes, and then the result keeps the upstreams and has the defaults applied. |
| `Config.AddressMasksUpstreams` | pkg/config/config.go:150-156 | With a bad address, two different route tables give the same invalid-address error. |
| `Config.FirstInvalidUnique` | pkg/config/config.go:141-147 | The first failing index is unique, and its error is the one reported. |
| `Config.LaterUpstreamsDoNotMatter` | pkg/config/config.go:141-147 | Entries after the first failing one do not affect the reported error. |
| `Config.ReadFromYamlStable` | pkg/config/config.go:61-68 | Feeding a successfully read configuration back through the pipeline returns it unchanged. |
| `Config.EmptyAddressValidatedAsDefault` | pkg/config/config.go:61-63 | Defaults are applied before validation, so an omitted address is checked as `:8080`. |
| `Config.ValidateUpstreamExamples` | pkg/config/config_test.go:58-93 | Test cases: the complete upstream passes, a missing pattern or a missing URL is missing config. |
| `Config.ValidateUpstreamsExamples` | pkg/config/config_test.go:95-135 | Test cases: an empty table is missing. A table whose first entry lacks a pattern is missing `services[0].pattern`. |
| `Config.ReadFromYamlExamples` | pkg/config/config_test.go:13-56 | Test cases: the valid file reads back unchanged. The file with a patternless upstream gives the zero configuration and a missing-config error. |
| `GoStrings.HasPrefixByCharacters` | pkg/config/config.go:102 | `s` begins with `prefix` iff `prefix` is no longer than `s` and agrees with `s` character by character from the start. |
| `GoStrings.HasSuffixByCharacters` | pkg/config/config.go:105 | `s` ends with `suffix` iff `suffix` is no longer than `s` and agrees with the last characters of `s`, one by one. |
| `GoStrings.TrimSuffix` | pkg/handlers/upstreamhandler/handler.go:16 | When the string ends with the suffix, the result followed by the suffix is the string. Otherwise the string is returned unchanged. |
| `GoStrings.TrimPrefix` | pkg/handlers/upstreamhandler/handler.go:17 | When the string begins with the prefix, the prefix followed by the result is the string. Otherwise the string is returned unchanged. |
| `UpstreamHandler.PatternPrefix` | pkg/handlers/upstreamhandler/handler.go:16 | The prefix plus `/` gives back a pattern ending in `/`. Any other pattern is its own prefix. |
| `UpstreamHandler.WrapStripPrefix` | pkg/handlers/upstreamhandler/handler.go:17 | For every path, the wrapped handler serves a path that begins with the prefix with the prefix trimmed, and answers 404 otherwise. An empty prefix leaves the handler's behaviour unchanged. |
| `UpstreamHandler.Make` | pkg/handlers/upstreamhandler/handler.go:12-20 | The handler's backend is the upstream URL, and without stripping it is the bare proxy. |
| `UpstreamHandler.Serve` | pkg/handlers/upstreamhandler/handler.go:14-19 | A forwarded request goes to the handler's backend, with a path that is a suffix of the inbound path. |
| `UpstreamHandler.MakeServes` | pkg/handlers/upstreamhandler/handler.go:12-20 | The built handler forwards to the upstream URL exactly the paths that begin with the removed prefix, with that prefix trimmed. It answers 404 otherwise. |
| `UpstreamHandler.Rewrite` | pkg/handlers/upstreamhandler/handler.go:15-19 | A path is rewritten iff it begins with the removed prefix, and prefix plus rewritten path equals the inbound path. |
| `UpstreamHandler.RewriteInverse` | pkg/handlers/upstreamhandler/handler.go:16-17 | The rewrite maps `path` to `rest` iff `path` is the removed prefix followed by `rest`. |
| `UpstreamHandler.RewriteInjective` | pkg/handlers/upstreamhandler/handler.go:16-17 | Distinct inbound paths are never forwarded with the same path. |
| `UpstreamHandler.PassThrough` | pkg/handlers/upstreamhandler/handler.go:14-19 | Without stripping, every path is forwarded unchanged to the upstream URL. |
| `UpstreamHandler.BackendIsUpstreamUrl` | pkg/handlers/upstreamhandler/handler.go:13-14 | Every forwarded request reaches the upstream URL, and the strip flag does not change the backend. |
| `UpstreamHandler.PrefixOfValidPattern` | pkg/handlers/upstreamhandler/handler.go:16 | For an accepted pattern, the prefix is non-empty, begins with `/`, and is one character shorter than the pattern. |
| `UpstreamHandler.PatternPrefixTrimsOneSlash` | pkg/handlers/upstreamhandler/handler.go:16 | Only one trailing slash is removed: `/a//` becomes `/a/`. |
| `UpstreamHandler.StripKeepsPathRooted` | pkg/handlers/upstreamhandler/handler.go:15-18 | With stripping on an accepted pattern, a path under the pattern is forwarded to the upstream URL with a path that begins with `/`. The prefix followed by that path is the inbound path. |
| `UpstreamHandler.StripRejectsForeignPath` | pkg/handlers/upstreamhandler/handler.go:15-18 | With stripping on an accepted pattern, a path not beginning with the prefix gets 404. |
| `UpstreamHandler.EmptyPrefixPassesThrough` | pkg/handlers/upstreamhandler/handler.go:15-18 | For pattern `/` the prefix is empty, so stripping is a no-op and paths are forwarded unchanged. |
| `UpstreamHandler.MakeExamples` | pkg/handlers/upstreamhandler/handler_test.go:18-41 | Test cases: `/server1/endpoint` is forwarded unchanged without stripping. With pattern `/server2/` and stripping, `/server2/endpoint` becomes `/endpoint`. |
| `UpstreamHandler.StripDoesNotReroot` | pkg/handlers/upstreamhandler/handler.go:16-17 | The path handed to the proxy is not re-rooted: for `/server2` it is the empty path, and for `/server2x` it is `x`. The proxy's later join with the backend URL is not modelled. |

## Left out

- Opening the file and decoding YAML (pkg/config/config.go:49-59) are I/O and a foreign decoder. Their outcome is an input.
- How `net.ResolveTCPAddr` and `url.Parse` decide are library internals. They are uninterpreted predicates.
- Error message text: the wrapped detail (`%v` of the library error, the pattern reason) is not carried in `Error`. Only the sentinel and the entry are.
- `pkg/server/server.go` is not part of this model: the `http.Server` wrapper, `ServeMux` dispatch, listening, timeouts and graceful shutdown are concurrency and library behaviour.
- The actual forwarding by `httputil.NewSingleHostReverseProxy`: joining the target URL's path with the request path, rewriting headers, relaying the response, and the bad-gateway mapping are network I/O inside a library. A forwarded request is modelled as the pair of backend URL and the path handed to the proxy.
- `http.StripPrefix` also trims the escaped `RawPath`. Escaped paths are not modelled, so only the decoded path is trimmed.
- `pkg/handlers/healthcheckhandler/handler.go` always writes 200 and has no logic to model.
- `cmd/apigateway/main.go` and `cmd/server/main.go`: process bootstrap, signal handling and logging.

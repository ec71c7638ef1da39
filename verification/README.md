# cloudflare-docker-proxy: routing and auth-relay model

A Dafny model of the request-handling core of a Cloudflare Worker that fronts several
container registries (Docker Hub, Quay, GCR, the Kubernetes registries, GHCR, Cloudsmith and
the public ECR). Each proxy host name maps to one upstream registry. The Worker relays the
registry's bearer-token handshake so that pull clients only ever talk to the proxy. The core
lives in `src/index.ts`. It covers these pieces:

- the compiled-in route table and the host lookup, with its debug-mode fallback;
- the fixed-order dispatch of `handleRequest` over the request path. Its outcomes are the help
  page, the 404 route listing, the `/v2/` probe, the `/v2/auth` token relay, the Docker Hub
  `library` redirect and the plain forward;
- what happens after the `/v2/` probe returns. On `/v2/`, a 401 is replaced by a challenge that
  points at the proxy's own `/v2/auth`. On `/v2/auth`, the upstream's real challenge is parsed
  and the token request goes to the upstream's realm;
- the positional `WWW-Authenticate` parser. It is a scanner that matches the source's regular
  expression exactly: the look-behind, the greedy value with backslash escapes, the
  look-ahead, and how the global search resumes after each match;
- Docker Hub's implicit `library/` namespace, both in token scopes and in manifest and blob
  paths;
- the shape of the token request: realm, optional `service` and `scope` parameters, and an
  optional Authorization header.

Network calls are not performed. `HandleRequest` names the call to make. The continuations
`OnV2Probe` and `OnAuthProbe` take the upstream's probe response as a parameter. Mode and the
fallback upstream are parameters too, not module state. URLs arrive already split into
protocol, host, host name, path, raw query string and the decoded `scope` parameter. Header
maps are keyed by lower-case header name.

Files: `wrappers.dfy` (Option, Result), `strings.dfy` (JavaScript `split`/`join` on one
character), `http.dfy` (URL, request, upstream response, Authorization headers),
`url_scheme.dfy` (whether the URL parser finds a scheme), `route_table.dfy`,
`www_authenticate.dfy`, `scope_normalizer.dfy`, `library_redirect.dfy`, `token_relay.dfy`
and `router.dfy`.

Failure paths and edge cases the model keeps as the code has them:

- A `WWW-Authenticate` value with fewer than two quoted values makes `parseAuthenticate`
  throw (`src/index.ts:178`). Nothing in `handleRequest` catches it (line 129), so the model
  answers `Reply.Thrown`.
- `fetchToken` starts with `new URL(wwwAuthenticate.realm)` (line 187). A realm in which the
  URL parser finds no scheme, such as the empty realm of `Bearer realm="",service="x"`,
  makes it throw, and nothing catches that either. `FetchToken` fails with `InvalidRealm`
  and the relay answers `Reply.RealmThrown`.
- The plain forward targets `upstream + url.pathname` (line 147), so the query string is
  dropped. The `library` redirect keeps it (lines 161-162).
- The token request sets `scope` only for a non-empty scope (line 191), not for any present
  one. An empty Authorization value is not copied into the `/v2/` probe (line 52) or the
  token request (line 196). The plain forward passes the request's headers unchanged
  (line 150), an empty Authorization header included.

The parser reads values by position only. The model also shows a further consequence of the
pattern: when the first value ends in `=`, its closing quote opens a new match. The "service"
is then the text between the first value and the next quote
(`EqualsBeforeQuoteShiftsService`).

## Model

| member | source | states |
|---|---|---|
| Strings.Split | src/index.ts:158 | `split` on one character always gives at least one part, no part holds the separator, and joining the parts with the separator gives back the input; this is why a scope that is not rewritten comes back unchanged |
| Strings.JoinEnds | src/index.ts:162 | the joined text starts with the first part, has the separator right after it when there is a second part, and ends with the last part |
| Strings.JoinCons | src/index.ts:209 | joining a part in front of at least one other puts exactly one separator between them |
| Strings.SplitJoin | src/index.ts:205-209 | splitting undoes joining when no part holds the separator; this is why the rewritten scope splits back into its qualified parts |
| RouteTable.RouteByHosts | src/index.ts:45-47 | a mapped host gets its table entry in either mode; an unmapped host gets `""` in production and the fallback upstream in debug |
| RouteTable.RoutesNonEmpty | src/index.ts:22-35 | every table entry is a non-empty origin |
| RouteTable.ProductionResolvesOnlyTable | src/index.ts:45-47 | in production a host resolves exactly when it is a table key |
| RouteTable.DebugUnresolvedIff | src/index.ts:45-47 | in debug a host stays unresolved exactly when it is unmapped and the fallback is empty |
| RouteTable.ResolvedIsConfigured | src/index.ts:45-47 | the resolved upstream is a table value, the debug fallback, or `""` |
| Http.Get | src/index.ts:124 | a header lookup finds a value exactly when the header is present, and the value is the stored one |
| Http.Request.Authorization | src/index.ts:51 | the caller's Authorization value is present exactly when the request carries the header, and is its stored value |
| Http.AuthorizationHeaders | src/index.ts:49-56 | the probe headers hold the caller's Authorization value, unchanged, exactly when it is non-empty, and nothing else |
| WwwAuthenticate.ValueEnd | src/index.ts:168 | the greedy value part covers escaped text (no bare quote; each backslash with the character after it, verbatim) and stops only at a quote, at the end, or at a backslash that is last or followed by a line terminator |
| WwwAuthenticate.ValueEndEscaped | src/index.ts:168 | over escaped text the value part runs exactly to the closing quote: it neither stops at an escaped quote nor runs past the closing one |
| WwwAuthenticate.Scan | src/index.ts:168-176 | every value the global match returns is escaped text |
| WwwAuthenticate.ScanEscapedValue | src/index.ts:168-176 | an escaped value between `="` and `"` is returned whole, and the search resumes at its closing quote |
| WwwAuthenticate.Matches | src/index.ts:176 | every value `match` returns for the header is escaped text |
| WwwAuthenticate.NoQuoteNoMatches | src/index.ts:176-178 | a header without a double quote has no match and fails to parse |
| WwwAuthenticate.ParseAuthenticate | src/index.ts:175-184 | parsing fails, with an error naming the header, exactly when fewer than two values match; otherwise realm and service are the first and second match, both escaped text |
| WwwAuthenticate.ParseTwoValues | src/index.ts:168-184 | two escaped values, each opened by `="` and closed by `"`, with no opener before or between them, become realm and service |
| WwwAuthenticate.ParseHeader | src/index.ts:168-184 | a header `<lead>="<realm>"<middle>="<service>"` with escaped values parses to that realm and service verbatim, provided there is no double quote in `<lead>` or `<middle>` and the realm does not end in `=` |
| WwwAuthenticate.EscapedQuoteKept | src/index.ts:168-183 | a realm holding an escaped quote, `a\"b`, is returned whole with its backslash |
| WwwAuthenticate.NamesAreIgnored | src/index.ts:180-183 | attribute names are not checked: `service="a",realm="b"` parses to realm `a` and service `b` |
| WwwAuthenticate.EqualsBeforeQuoteShiftsService | src/index.ts:168 | when the first value ends in `=`, the second match is the text between the first value and the next quote |
| UrlScheme.TrimLeading | src/index.ts:187 | the URL parser's leading trim removes exactly a prefix of C0 controls and spaces and leaves a text that starts with neither |
| UrlScheme.RemoveTabsAndNewlines | src/index.ts:187 | the cleaned text holds no tab or newline, keeps every other character of the input, adds none, and is the input itself when the input has none |
| UrlScheme.NoColonNoScheme | src/index.ts:187 | a realm without a colon, the empty realm included, has no scheme, so `new URL` throws on it |
| UrlScheme.HttpSchemes | src/index.ts:187 | realms starting with `http:` or `https:` have a scheme, whatever follows |
| ScopeNormalizer.NormalizeScopeForDockerHub | src/index.ts:203-210 | an absent or empty scope becomes absent; a three-part scope whose name has no `/` is split again into the same parts with `library/` before the name; every other scope comes back unchanged |
| ScopeNormalizer.NormalizedIsQualified | src/index.ts:205-209 | a normalized scope is non-empty and never asks for the namespace again |
| ScopeNormalizer.NormalizeIdempotent | src/index.ts:203-210 | normalizing twice equals normalizing once |
| ScopeNormalizer.NormalizeAddsLibrary | src/index.ts:205-207 | `<type>:<name>:<actions>` with a slash-free name becomes `<type>:library/<name>:<actions>` |
| ScopeNormalizer.NormalizeKeepsNamespaced | src/index.ts:206-209 | a scope whose name already has a namespace is returned unchanged |
| LibraryRedirect.InsertLibrary | src/index.ts:160 | the spliced parts are one longer, have `library` at index 2, and removing it gives back the original parts |
| LibraryRedirect.RedirectDockerHubLibraryImages | src/index.ts:157-166 | a redirect exists exactly when the slash-split path has five parts and none is `library`; it changes only the path, whose parts are the original parts with `library` inserted at index 2 |
| LibraryRedirect.RedirectShape | src/index.ts:158-162 | the rewritten path has six parts, `library` third, and dropping it gives back the original parts |
| LibraryRedirect.RedirectOnce | src/index.ts:157-166 | a rewritten URL never qualifies for a second redirect |
| LibraryRedirect.ReservedPathParts | src/index.ts:158-159 | `/`, `/v2/` and `/v2/auth` split into at most three parts, so none of them could be redirected |
| LibraryRedirect.RedirectUnqualifiedImage | src/index.ts:157-166 | `/v2/<image>/manifests/<ref>` is redirected to `/v2/library/<image>/manifests/<ref>` when neither `<image>` nor `<ref>` holds a `/` or equals `library` |
| LibraryRedirect.NoRedirectForQualifiedImage | src/index.ts:159 | a path naming a namespace, `library` included, has six parts and is not redirected |
| TokenRelay.FetchToken | src/index.ts:186-201 | the call fails, naming the realm, exactly when the realm has no scheme; otherwise the request is a GET to the challenge's realm, `service` is set exactly for a non-empty service, `scope` exactly for a non-empty scope, and the headers are exactly the Authorization headers |
| TokenRelay.TokenRequest.Query | src/index.ts:188-193 | the realm URL's parameters are `service` and `scope`, each present exactly when the request holds it, with its value, and `service` set before `scope` |
| TokenRelay.QueryOfFetch | src/index.ts:188-193 | the query of a built token request has `service` exactly for a non-empty challenge service and `scope` exactly for a non-empty client scope, `scope` last |
| TokenRelay.RealmWithoutSchemeThrows | src/index.ts:187 | an empty realm, or any realm without a colon, fails before a request is built |
| TokenRelay.EmptyIsAbsent | src/index.ts:188-198 | an empty scope or Authorization value gives the same request as a missing one |
| TokenRelay.OnlyAuthorizationSent | src/index.ts:195-200 | no header but Authorization reaches the realm, and it is unchanged |
| Router.HandleRequest | src/index.ts:58-155 | `/` always gets the help page; otherwise a missing upstream gets the 404 listing of the full table; `/v2/` and `/v2/auth` probe `upstream + "/v2/"`, and the relay carries the resolved upstream; a redirect happens exactly for Docker Hub paths that need `library`; the forward goes to `upstream + pathname` with the request's method and headers |
| Router.Action.LocalStatus | src/index.ts:65-142 | the proxy answers by itself with 200 exactly for the help page (line 65), 404 exactly for the route listing (line 78) and 301 exactly for the redirect (line 142); every fetch has no local status |
| Router.DispatchStatus | src/index.ts:63-144 | the local status of a request is 200 exactly on `/`, 404 exactly off `/` with no upstream, and 301 exactly on a non-reserved Docker Hub path that needs `library` |
| Router.Reply.Status | src/index.ts:104 | a passed-through probe keeps its status, the proxy's own challenge answers 401, and the relay and throw outcomes carry no status of their own |
| Router.ProxyRealm | src/index.ts:97-99 | the proxy's own realm ends in `/v2/auth` |
| Router.ProxyRealmHasScheme | src/index.ts:97-99 | the proxy's own realm starts with a scheme in both modes |
| Router.ProxyChallenge | src/index.ts:97-99 | the synthesized challenge is the two-attribute header `Bearer realm="<proxy realm>",service="cloudflare-docker-proxy"` |
| Router.OnV2Probe | src/index.ts:86-110 | a non-401 probe passes through unchanged; on a 401 the Headers object handed to the proxy's 401 response holds `www-authenticate` set to the proxy challenge, the caller's Authorization header when it is non-empty, and nothing else |
| Router.V2ProbeKeepsStatus | src/index.ts:96-109 | on `/v2/` the client sees the upstream's status, passed through or as the proxy's own 401 |
| Router.ScopeFor | src/index.ts:133 | away from Docker Hub the scope is passed as given; for Docker Hub it is exactly the client's scope with `library/` completed as `normalizeScopeForDockerHub` does it, absent exactly when the client's is absent or empty, and never asks for the `library` namespace again |
| Router.OnAuthProbe | src/index.ts:113-136 | a non-401 probe, or a 401 without a non-empty challenge, passes through unchanged; an unparsable challenge throws with that header; a parsed realm without a scheme throws with that realm; otherwise the token request is the one `FetchToken` builds from the parsed challenge, the scope normalized only for Docker Hub, and the caller's Authorization header |
| Router.DocsWithoutUpstream | src/index.ts:63-70 | path `/` gets the help page with status 200 even for a host with no upstream |
| Router.UnknownHostNotFound | src/index.ts:72-81 | in production an unmapped host gets 404 with the full table on every path but `/` |
| Router.RedirectOnlyForDockerHub | src/index.ts:139-144 | only requests whose upstream is Docker Hub are redirected |
| Router.ForwardDropsQuery | src/index.ts:147 | the forward does not depend on the query string |
| Router.RedirectKeepsQuery | src/index.ts:161-162 | the redirect location keeps protocol, host, query string and scope of the request URL |
| Router.RedirectThenForward | src/index.ts:139-154 | requesting the redirect location leads to a plain forward of the rewritten path to Docker Hub |
| Router.ProxyChallengeParses | src/index.ts:97-99 | the synthesized challenge parses back to the proxy's own realm (`http://<host>/v2/auth` in debug, `https://<hostname>/v2/auth` otherwise) and service `cloudflare-docker-proxy` |
| Router.ChallengeLeadsToRelay | src/index.ts:96-113 | a `/v2/auth` request on the host of a `/v2/` probe, where the synthesized realm points, reaches the token relay for the same upstream |
| Router.DockerHubAuthPath | src/index.ts:113-114 | `/v2/auth` on the Docker Hub host starts the relay against Docker Hub's `/v2/` |
| Router.DockerHubTokenRelay | src/index.ts:113-135 | on Docker Hub, a challenge `Bearer realm="r",service="s"` with escaped values and a realm that has a scheme, and scope `t:img:a`, produce a GET to `r` with service `s` (when non-empty), both taken verbatim, scope `t:library/img:a` and the caller's Authorization header |
| Router.RealmWithoutSchemeNotRelayed | src/index.ts:129-135 | a challenge `Bearer realm="",service="x"`, or any escaped realm without a colon, makes the relay throw with that realm instead of requesting a token |
| Router.OtherRegistriesKeepScope | src/index.ts:133 | away from Docker Hub the client's scope reaches the realm as given, and an empty one is dropped |

## Left out

- Network I/O: the `fetch` calls, following redirects, and the `Response`, `Request` and
  `Headers` objects. Probe results are parameters. Forwarded and token responses are returned
  unchanged, so the model stops at the request it would send.
- The static help page (line 1) and the JSON serialization of the 404 and 401 bodies. They are
  static content and library calls.
- The Worker entry point and the module-level `MODE` and `TARGET_UPSTREAM` (lines 8-9 and
  37-43). Both are parameters. In the source, any `MODE` other than `debug` behaves as
  production, and the model's `Mode` has only the two outcomes.
- WHATWG URL parsing, `toString` and `searchParams` encoding. URLs are taken as already-split
  fields.
- HandleRequest: `new URL(upstream + …)` throws when a debug fallback is not a valid URL. The
  model does not represent that failure.
- RedirectDockerHubLibraryImages: the `pathname` setter's percent-encoding of the joined path
  is not modelled.
- FetchToken: the parameters are kept apart from the realm URL. When the realm already carries
  a `service` or `scope` parameter, `searchParams.set` replaces it, and the model does not
  represent that.
- Scan: JavaScript regular expressions work on UTF-16 code units, and the model works on
  Unicode scalar values. For headers outside the Basic Multilingual Plane, the two can split
  text differently.
- Scan: its contract states only the shape of each matched value. Which values are found is
  proved by the parsing lemmas for two-attribute headers whose values are escaped text, and
  for a first value ending in `=` only when it holds no quote or backslash. Arbitrary text
  is not covered.
- Matches: like Scan, its contract states only the shape of each value, not which values are
  found. Which values are found is proved by the two-value lemmas (`ParseTwoValues`,
  `ParseHeader`, `EqualsBeforeQuoteShiftsService`), not for arbitrary headers.
- ProxyChallengeParses: stated for host names without quotes or backslashes. The host is
  read from the request URL, which the model does not parse.
- OnV2Probe: the `Response` built from a string body also gets
  `content-type: text/plain;charset=UTF-8` from the Fetch API. That header is not modelled.
- FetchToken: only the missing-scheme failure of `new URL(realm)` is modelled. A realm with
  a scheme can still be rejected by the later parser states (for example `https://` with an
  empty host). The model treats such a realm as accepted.
- Indexing `routes` with inherited property names such as `constructor`. The table is exactly
  the nine listed entries.

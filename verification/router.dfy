/** `handleRequest`: the fixed-order dispatch over the request path, and what the proxy does
    with the upstream's answer to its `/v2/` probe. The network calls themselves are not
    modelled: the dispatch names the call to make, and the continuations take its response
    as a parameter. */
module Router {
  import opened Wrappers
  import opened Strings
  import opened Http
  import opened RouteTable
  import opened WwwAuthenticate
  import opened ScopeNormalizer
  import opened LibraryRedirect
  import opened TokenRelay
  import opened UrlScheme

  /** What the proxy does with a request before any upstream answers. */
  datatype Action =
    | Docs                                                  // 200, the static help page
    | NotFound(routes: map<string, string>)                 // 404, JSON listing of the table
    | ProbeV2(probeUrl: string, probeHeaders: Headers)      // GET the upstream's `/v2/`
    | RelayToken(upstream: string, probeUrl: string)        // GET `/v2/` unauthenticated, then relay
    | Redirect(location: Url)                               // 301 to the rewritten URL
    | Forward(target: string, httpMethod: string, headers: Headers)  // the upstream's answer as is
  {
    /** The status of the responses the proxy builds itself: 200 for the help page, 404 for
        the route listing and 301 for the redirect; the other actions answer with whatever an
        upstream returns. */
    function LocalStatus(): (status: Option<int>)
      ensures status.Some? <==> this.Docs? || this.NotFound? || this.Redirect?
      ensures status == Some(200) <==> this.Docs?
      ensures status == Some(404) <==> this.NotFound?
      ensures status == Some(301) <==> this.Redirect?
    {
      match this
      case Docs => Some(200)
      case NotFound(_) => Some(404)
      case Redirect(_) => Some(301)
      case _ => None
    }
  }

  /** The upstream registry origin for the request's host name, `""` when there is none. */
  function Upstream(mode: Mode, targetUpstream: string, url: Url): string
  {
    RouteByHosts(mode, targetUpstream, url.hostname)
  }

  /** The dispatch of `handleRequest`, in the source's order: the help page, the missing
      upstream, the `/v2/` probe, the token relay, the Docker Hub library redirect, and
      the plain forward to the upstream origin followed by the path (the query string is
      not carried over). */
  function HandleRequest(mode: Mode, targetUpstream: string, req: Request): (a: Action)
    ensures a.Docs? <==> req.url.pathname == "/"
    ensures a.NotFound? <==> req.url.pathname != "/" && Upstream(mode, targetUpstream, req.url) == ""
    ensures a.NotFound? ==> a.routes == Routes
    ensures a.ProbeV2? <==> req.url.pathname == "/v2/" && Upstream(mode, targetUpstream, req.url) != ""
    ensures a.ProbeV2? ==>
      && a.probeUrl == Upstream(mode, targetUpstream, req.url) + "/v2/"
      && a.probeHeaders == AuthorizationHeaders(req.Authorization())
    ensures a.RelayToken? <==> req.url.pathname == "/v2/auth" && Upstream(mode, targetUpstream, req.url) != ""
    ensures a.RelayToken? ==>
      && a.upstream == Upstream(mode, targetUpstream, req.url)
      && a.probeUrl == a.upstream + "/v2/"
    ensures a.Redirect? <==>
      && Upstream(mode, targetUpstream, req.url) == DockerHub
      && RedirectDockerHubLibraryImages(req.url).Some?
    ensures a.Redirect? ==> RedirectDockerHubLibraryImages(req.url) == Some(a.location)
    ensures a.Forward? ==>
      && a.target == Upstream(mode, targetUpstream, req.url) + req.url.pathname
      && a.httpMethod == req.httpMethod
      && a.headers == req.headers
  {
    var url := req.url;
    var upstream := Upstream(mode, targetUpstream, url);
    if url.pathname == "/" then
      ReservedPathParts(url.pathname);
      Docs
    else if upstream == "" then
      NotFound(Routes)
    else if url.pathname == "/v2/" then
      ReservedPathParts(url.pathname);
      ProbeV2(upstream + "/v2/", AuthorizationHeaders(req.Authorization()))
    else if url.pathname == "/v2/auth" then
      ReservedPathParts(url.pathname);
      RelayToken(upstream, upstream + "/v2/")
    else if upstream == DockerHub && RedirectDockerHubLibraryImages(url).Some? then
      Redirect(RedirectDockerHubLibraryImages(url).value)
    else
      Forward(upstream + url.pathname, req.httpMethod, req.headers)
  }

  /** The service name the proxy advertises in its own challenge. */
  const ProxyService: string := "cloudflare-docker-proxy"

  /** The proxy's own token endpoint: plain HTTP on `host` (with the port) in debug mode,
      HTTPS on `hostname` otherwise. */
  function ProxyRealm(mode: Mode, url: Url): (realm: string)
    ensures |realm| >= 8 && realm[|realm| - 8..] == "/v2/auth"
  {
    if mode == Debug then "http://" + url.host + "/v2/auth"
    else "https://" + url.hostname + "/v2/auth"
  }

  /** The `Www-Authenticate` value the proxy sends in place of the upstream's. */
  function ProxyChallenge(mode: Mode, url: Url): (challenge: string)
    ensures challenge == Header("Bearer realm", ProxyRealm(mode, url), ",service", ProxyService)
  {
    ChallengeLayout(ProxyRealm(mode, url));
    "Bearer realm=\"" + ProxyRealm(mode, url) + "\",service=\"" + ProxyService + "\""
  }

  /** The challenge text has the two-parameter layout the header parser reads. */
  lemma ChallengeLayout(realm: string)
    ensures "Bearer realm=\"" + realm + "\",service=\"" + ProxyService + "\""
         == Header("Bearer realm", realm, ",service", ProxyService)
  {
    assert "Bearer realm=\"" == "Bearer realm" + "=\"";
    assert "\",service=\"" == "\"" + ",service" + "=\"";
  }

  /** What the proxy answers once an upstream probe has returned. */
  datatype Reply =
    | PassThrough(response: UpstreamResponse)   // the probe response, unchanged
    | Unauthorized(headers: Headers)            // 401 with body {"message":"UNAUTHORIZED"}
    | RequestToken(request: TokenRequest)       // the token endpoint's response, unchanged
    | Thrown(error: ParseError)                 // `parseAuthenticate` threw; nothing catches it
    | RealmThrown(realmError: TokenError)       // `new URL(realm)` threw; nothing catches it
  {
    /** The status the client sees, when the reply is a response whose status is known: the
        probe's own status when it is passed through, 401 for the proxy's challenge. */
    function Status(): (status: Option<int>)
      ensures status.Some? <==> this.PassThrough? || this.Unauthorized?
      ensures this.PassThrough? ==> status == Some(this.response.status)
      ensures this.Unauthorized? ==> status == Some(401)
    {
      match this
      case PassThrough(response) => Some(response.status)
      case Unauthorized(_) => Some(UnauthorizedStatus)
      case _ => None
    }
  }

  /** The `/v2/` probe: a 401 is replaced by the proxy's own challenge, carrying the caller's
      Authorization header along; any other response is returned unchanged. */
  function OnV2Probe(mode: Mode, req: Request, probe: UpstreamResponse): (r: Reply)
    ensures r.PassThrough? <==> probe.status != UnauthorizedStatus
    ensures r.PassThrough? ==> r.response == probe
    ensures r.Unauthorized? <==> probe.status == UnauthorizedStatus
    ensures r.Unauthorized? ==>
      && "www-authenticate" in r.headers
      && r.headers["www-authenticate"] == ProxyChallenge(mode, req.url)
      && ("authorization" in r.headers <==> Truthy(req.Authorization()))
      && ("authorization" in r.headers ==> r.headers["authorization"] == req.Authorization().value)
      && (forall name :: name in r.headers ==> name == "authorization" || name == "www-authenticate")
  {
    if probe.status == UnauthorizedStatus then
      Unauthorized(AuthorizationHeaders(req.Authorization())["www-authenticate" := ProxyChallenge(mode, req.url)])
    else
      PassThrough(probe)
  }

  /** The scope sent to the realm: normalized for Docker Hub, as given otherwise. */
  function ScopeFor(upstream: string, scope: Option<string>): (sent: Option<string>)
    ensures upstream != DockerHub ==> sent == scope
    ensures upstream == DockerHub ==> sent == NormalizeScopeForDockerHub(scope)
    ensures upstream == DockerHub ==> (sent.None? <==> !Truthy(scope))
    ensures upstream == DockerHub && sent.Some? ==> !Unqualified(Split(sent.value, ':'))
  {
    NormalizedIsQualified(scope);
    if upstream == DockerHub then NormalizeScopeForDockerHub(scope) else scope
  }

  /** The `/v2/auth` relay: without a 401 carrying a non-empty challenge the probe response is
      returned unchanged; a challenge with fewer than two quoted values throws, and so does a
      realm without a scheme; otherwise the token request goes to the upstream's realm with
      the (Docker Hub-normalized) scope and the caller's Authorization header. `upstream` is the
      one the dispatch resolved for the request's host, which `RelayToken` carries, so the
      Docker Hub decision is made on the same upstream that was probed. */
  function OnAuthProbe(upstream: string, req: Request, probe: UpstreamResponse): (r: Reply)
    ensures !r.Unauthorized?
    ensures r.PassThrough? <==>
      probe.status != UnauthorizedStatus || !Truthy(Get(probe.headers, "www-authenticate"))
    ensures r.PassThrough? ==> r.response == probe
    ensures r.Thrown? <==>
      && probe.status == UnauthorizedStatus
      && Truthy(Get(probe.headers, "www-authenticate"))
      && |Matches(probe.headers["www-authenticate"])| < 2
    ensures r.Thrown? ==> r.error == InvalidHeader(probe.headers["www-authenticate"])
    ensures r.RealmThrown? <==>
      && probe.status == UnauthorizedStatus
      && Truthy(Get(probe.headers, "www-authenticate"))
      && ParseAuthenticate(probe.headers["www-authenticate"]).Success?
      && !HasScheme(ParseAuthenticate(probe.headers["www-authenticate"]).value.realm)
    ensures r.RealmThrown? ==>
      r.realmError == InvalidRealm(ParseAuthenticate(probe.headers["www-authenticate"]).value.realm)
    ensures r.RequestToken? ==>
      var challenge := ParseAuthenticate(probe.headers["www-authenticate"]);
      && challenge.Success?
      && FetchToken(challenge.value, ScopeFor(upstream, req.url.scope), req.Authorization()) == Success(r.request)
  {
    if probe.status != UnauthorizedStatus then PassThrough(probe)
    else
      var header := Get(probe.headers, "www-authenticate");
      if !Truthy(header) then PassThrough(probe)
      else
        match ParseAuthenticate(header.value)
        case Failure(e) => Thrown(e)
        case Success(challenge) =>
          match FetchToken(challenge, ScopeFor(upstream, req.url.scope), req.Authorization())
          case Failure(e) => RealmThrown(e)
          case Success(request) => RequestToken(request)
  }

  /** The client sees the upstream probe's status on `/v2/`, whether the response is passed
      through or replaced by the proxy's own challenge. */
  lemma V2ProbeKeepsStatus(mode: Mode, req: Request, probe: UpstreamResponse)
    ensures OnV2Probe(mode, req, probe).Status() == Some(probe.status)
  {
  }

  /** A path `/` is always answered with the help page, even for a host with no upstream. */
  lemma DocsWithoutUpstream(mode: Mode, targetUpstream: string, req: Request)
    requires req.url.pathname == "/"
    ensures HandleRequest(mode, targetUpstream, req) == Docs
    ensures HandleRequest(mode, targetUpstream, req).LocalStatus() == Some(200)
  {
  }

  /** In production an unmapped host gets the 404 route listing on every path but `/`. */
  lemma UnknownHostNotFound(targetUpstream: string, req: Request)
    requires req.url.hostname !in Routes && req.url.pathname != "/"
    ensures HandleRequest(Production, targetUpstream, req) == NotFound(Routes)
    ensures HandleRequest(Production, targetUpstream, req).LocalStatus() == Some(404)
  {
  }

  /** Only Docker Hub requests are ever redirected. */
  lemma RedirectOnlyForDockerHub(mode: Mode, targetUpstream: string, req: Request)
    requires HandleRequest(mode, targetUpstream, req).Redirect?
    ensures Upstream(mode, targetUpstream, req.url) == DockerHub
    ensures mode == Production ==> Routes[req.url.hostname] == DockerHub
  {
  }

  /** The redirect keeps the query string, but a forwarded request does not depend on it:
      the forward target is the upstream origin followed by the path alone. */
  lemma ForwardDropsQuery(mode: Mode, targetUpstream: string, req: Request, search: string)
    requires HandleRequest(mode, targetUpstream, req).Forward?
    ensures HandleRequest(mode, targetUpstream, req.(url := req.url.(search := search)))
         == HandleRequest(mode, targetUpstream, req)
  {
    var other := req.(url := req.url.(search := search));
    assert Split(other.url.pathname, '/') == Split(req.url.pathname, '/');
  }

  /** The URL a request is redirected to keeps protocol, host, query string and scope. */
  lemma RedirectKeepsQuery(mode: Mode, targetUpstream: string, req: Request)
    requires HandleRequest(mode, targetUpstream, req).Redirect?
    ensures var location := HandleRequest(mode, targetUpstream, req).location;
      location == req.url.(pathname := location.pathname)
  {
  }

  /** Following the redirect leads to a plain forward of the rewritten path: the rewritten
      URL is neither redirected again nor mistaken for one of the reserved paths. */
  lemma RedirectThenForward(mode: Mode, targetUpstream: string, req: Request)
    requires HandleRequest(mode, targetUpstream, req).Redirect?
    ensures var next := req.(url := HandleRequest(mode, targetUpstream, req).location);
      HandleRequest(mode, targetUpstream, next)
        == Forward(DockerHub + next.url.pathname, req.httpMethod, req.headers)
  {
    var location := HandleRequest(mode, targetUpstream, req).location;
    RedirectShape(req.url);
    RedirectOnce(req.url);
    if location.pathname == "/" || location.pathname == "/v2/" || location.pathname == "/v2/auth" {
      ReservedPathParts(location.pathname);
      assert false;
    }
  }

  /** The proxy's realm holds no quote or backslash when its host text holds none, and it
      ends in `h`, not `=`. */
  lemma ProxyRealmPlain(mode: Mode, url: Url)
    requires Plain(if mode == Debug then url.host else url.hostname)
    ensures Plain(ProxyRealm(mode, url))
    ensures ProxyRealm(mode, url)[|ProxyRealm(mode, url)| - 1] == 'h'
  {
    var realm := ProxyRealm(mode, url);
    var host := if mode == Debug then url.host else url.hostname;
    var scheme := if mode == Debug then "http://" else "https://";
    var path := "/v2/auth";
    assert realm == scheme + host + path;
    assert Plain(scheme) && Plain(path);
    forall k | 0 <= k < |realm| ensures realm[k] != '"' && realm[k] != '\\' {
      if k < |scheme| {
        assert realm[k] == scheme[k];
      } else if k < |scheme| + |host| {
        assert realm[k] == host[k - |scheme|];
      } else {
        assert realm[k] == path[k - |scheme| - |host|];
      }
    }
    assert realm[|realm| - 1] == path[|path| - 1];
  }

  /** The proxy's realm is an absolute URL as far as the scheme goes, so a client's
      `new URL(realm)` on it does not fail for want of a scheme. */
  lemma ProxyRealmHasScheme(mode: Mode, url: Url)
    ensures HasScheme(ProxyRealm(mode, url))
  {
    var realm := ProxyRealm(mode, url);
    var scheme := if mode == Debug then "http://" else "https://";
    assert realm[..|scheme|] == scheme;
    assert realm[0] == scheme[0] && realm[1] == scheme[1] && realm[2] == scheme[2];
    assert realm[3] == scheme[3] && realm[4] == scheme[4] && realm[5] == scheme[5];
    HttpSchemes(realm);
  }

  /** The challenge the proxy synthesizes parses, by the proxy's own parser, to the proxy's
      realm and service whenever the host text holds no quote or backslash. */
  lemma ProxyChallengeParses(mode: Mode, url: Url)
    requires Plain(if mode == Debug then url.host else url.hostname)
    ensures ParseAuthenticate(ProxyChallenge(mode, url)) == Success(Challenge(ProxyRealm(mode, url), ProxyService))
  {
    ProxyRealmPlain(mode, url);
    assert Plain(ProxyService);
    ParsePlainHeader("Bearer realm", ProxyRealm(mode, url), ",service", ProxyService);
  }

  /** A `/v2/auth` request on the host name of a `/v2/` probe, which is where the synthesized
      challenge's realm points, reaches the token relay against the same upstream. The realm
      names the host itself; that the client resolves it to this host is not modelled. */
  lemma ChallengeLeadsToRelay(mode: Mode, targetUpstream: string, req: Request, next: Request)
    requires HandleRequest(mode, targetUpstream, req).ProbeV2?
    requires next.url.hostname == req.url.hostname && next.url.pathname == "/v2/auth"
    ensures HandleRequest(mode, targetUpstream, next) == RelayToken(Upstream(mode, targetUpstream, req.url), HandleRequest(mode, targetUpstream, req).probeUrl)
  {
  }

  /** The statuses the proxy answers with itself follow the dispatch order: 200 exactly for
      `/`, 404 exactly for another path on a host without upstream, and 301 exactly for a
      Docker Hub path that needs the `library` namespace. */
  lemma DispatchStatus(mode: Mode, targetUpstream: string, req: Request)
    ensures var status := HandleRequest(mode, targetUpstream, req).LocalStatus();
      var upstream := Upstream(mode, targetUpstream, req.url);
      && (status == Some(200) <==> req.url.pathname == "/")
      && (status == Some(404) <==> req.url.pathname != "/" && upstream == "")
      && (status == Some(301) <==>
            req.url.pathname !in {"/", "/v2/", "/v2/auth"} && upstream == DockerHub
            && RedirectDockerHubLibraryImages(req.url).Some?)
  {
    var path := req.url.pathname;
    if path == "/" || path == "/v2/" || path == "/v2/auth" {
      ReservedPathParts(path);
    }
  }

  /** The token relay for Docker Hub: with the upstream challenging as
      `Bearer realm="<realm>",service="<service>"` and the client asking for
      `<type>:<image>:<actions>`, the proxy asks the realm for `<type>:library/<image>:<actions>`
      on behalf of the caller's Authorization header. */
  lemma DockerHubTokenRelay(
    mode: Mode, targetUpstream: string, req: Request, probe: UpstreamResponse,
    realm: string, service: string, resourceType: string, image: string, actions: string)
    requires req.url.hostname == "docker.ns2kracy.com" && req.url.pathname == "/v2/auth"
    requires ':' !in resourceType && ':' !in image && ':' !in actions && '/' !in image
    requires req.url.scope == Some(ScopeOf(resourceType, image, actions))
    requires EscapedText(realm) && EscapedText(service) && (|realm| == 0 || realm[|realm| - 1] != '=')
    requires HasScheme(realm)
    requires probe.status == 401
    requires Get(probe.headers, "www-authenticate") == Some(Header("Bearer realm", realm, ",service", service))
    ensures HandleRequest(mode, targetUpstream, req) == RelayToken(DockerHub, DockerHub + "/v2/")
    ensures OnAuthProbe(DockerHub, req, probe) == RequestToken(TokenRequest(
      "GET",
      realm,
      if service != "" then Some(service) else None,
      Some(ScopeOf(resourceType, LibraryPrefix + image, actions)),
      AuthorizationHeaders(req.Authorization())))
  {
    DockerHubAuthPath(mode, targetUpstream, req);
    var header := Header("Bearer realm", realm, ",service", service);
    ParseChallengeHeader(realm, service);
    DockerHubRelayParsed(req, probe, header, realm, service, resourceType, image, actions);
  }

  /** The relay step of `DockerHubTokenRelay`, from a header already parsed into its realm and
      service. */
  lemma DockerHubRelayParsed(
    req: Request, probe: UpstreamResponse, header: string,
    realm: string, service: string, resourceType: string, image: string, actions: string)
    requires ':' !in resourceType && ':' !in image && ':' !in actions && '/' !in image
    requires req.url.scope == Some(ScopeOf(resourceType, image, actions))
    requires HasScheme(realm)
    requires probe.status == 401
    requires |header| > 0 && Get(probe.headers, "www-authenticate") == Some(header)
    requires ParseAuthenticate(header) == Success(Challenge(realm, service))
    ensures OnAuthProbe(DockerHub, req, probe) == RequestToken(TokenRequest(
      "GET",
      realm,
      if service != "" then Some(service) else None,
      Some(ScopeOf(resourceType, LibraryPrefix + image, actions)),
      AuthorizationHeaders(req.Authorization())))
  {
    var scope := Some(ScopeOf(resourceType, LibraryPrefix + image, actions));
    assert ScopeFor(DockerHub, req.url.scope) == scope by {
      NormalizeAddsLibrary(resourceType, image, actions);
    }
    assert Truthy(Get(probe.headers, "www-authenticate"));
    assert FetchToken(Challenge(realm, service), scope, req.Authorization())
        == Success(TokenRequest(
             "GET",
             realm,
             if service != "" then Some(service) else None,
             scope,
             AuthorizationHeaders(req.Authorization())));
  }

  /** `/v2/auth` on the Docker Hub host starts the token relay against Docker Hub's `/v2/`. */
  lemma DockerHubAuthPath(mode: Mode, targetUpstream: string, req: Request)
    requires req.url.hostname == "docker.ns2kracy.com" && req.url.pathname == "/v2/auth"
    ensures HandleRequest(mode, targetUpstream, req) == RelayToken(DockerHub, DockerHub + "/v2/")
  {
  }

  /** An upstream challenge whose realm has no colon, such as `Bearer realm="",service="x"`,
      makes the relay throw instead of requesting a token. */
  lemma RealmWithoutSchemeNotRelayed(upstream: string, req: Request, probe: UpstreamResponse, realm: string, service: string)
    requires ':' !in realm
    requires EscapedText(realm) && EscapedText(service) && (|realm| == 0 || realm[|realm| - 1] != '=')
    requires probe.status == 401
    requires Get(probe.headers, "www-authenticate") == Some(Header("Bearer realm", realm, ",service", service))
    ensures OnAuthProbe(upstream, req, probe) == RealmThrown(InvalidRealm(realm))
  {
    ParseChallengeHeader(realm, service);
    NoColonNoScheme(realm);
    RealmThrownParsed(upstream, req, probe, Header("Bearer realm", realm, ",service", service), realm, service);
  }

  /** The failing step of `RealmWithoutSchemeNotRelayed`, from a header already parsed. */
  lemma RealmThrownParsed(upstream: string, req: Request, probe: UpstreamResponse, header: string, realm: string, service: string)
    requires !HasScheme(realm)
    requires probe.status == 401
    requires |header| > 0 && Get(probe.headers, "www-authenticate") == Some(header)
    requires ParseAuthenticate(header) == Success(Challenge(realm, service))
    ensures OnAuthProbe(upstream, req, probe) == RealmThrown(InvalidRealm(realm))
  {
    assert Truthy(Get(probe.headers, "www-authenticate"));
  }

  /** Away from Docker Hub the client's scope reaches the realm as given (an empty one is
      dropped). */
  lemma OtherRegistriesKeepScope(upstream: string, req: Request, probe: UpstreamResponse)
    requires upstream != DockerHub
    requires OnAuthProbe(upstream, req, probe).RequestToken?
    ensures var sent := OnAuthProbe(upstream, req, probe).request.scope;
      (sent.Some? <==> Truthy(req.url.scope)) && (sent.Some? ==> sent == req.url.scope)
  {
  }
}

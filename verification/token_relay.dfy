/** The token request the proxy sends to the upstream's real authentication realm. Sending
    it and reading its response are not modelled: the proxy returns that response as is. */
module TokenRelay {
  import opened Wrappers
  import opened Http
  import opened WwwAuthenticate
  import opened UrlScheme

  /** A GET to `realm` with the query parameters the proxy sets on it (`service`, then
      `scope`, each only when present) and the request headers. */
  datatype TokenRequest = TokenRequest(
    httpMethod: string,
    realm: string,
    service: Option<string>,
    scope: Option<string>,
    headers: Headers)
  {
    /** The parameters in the order they are set on the realm URL. */
    function Query(): (params: seq<(string, string)>)
      ensures |params| <= 2
      ensures forall i :: 0 <= i < |params| ==>
        (params[i].0 == "service" && service == Some(params[i].1))
        || (params[i].0 == "scope" && scope == Some(params[i].1))
      ensures service.Some? ==> ("service", service.value) in params
      ensures scope.Some? ==> ("scope", scope.value) in params
      ensures forall i, j :: 0 <= i < j < |params| ==> params[i].0 == "service" && params[j].0 == "scope"
    {
      (if service.Some? then [("service", service.value)] else [])
      + (if scope.Some? then [("scope", scope.value)] else [])
    }
  }

  /** `new URL(realm)` threw: without a base URL, a realm in which the URL parser finds no
      scheme is rejected. */
  datatype TokenError = InvalidRealm(realm: string)

  /** `fetchToken`: a realm without a scheme makes the URL constructor throw; otherwise the
      request is a GET to the challenge's realm, `service` is set only for a non-empty
      service, `scope` only for a non-empty scope, and the only header is the caller's
      Authorization value, only when it is non-empty. */
  function FetchToken(challenge: Challenge, scope: Option<string>, authorization: Option<string>): (r: Result<TokenRequest, TokenError>)
    ensures r.Failure? <==> !HasScheme(challenge.realm)
    ensures r.Failure? ==> r.error == InvalidRealm(challenge.realm)
    ensures r.Success? ==>
      var req := r.value;
      && req.httpMethod == "GET" && req.realm == challenge.realm
      && (req.service.Some? <==> challenge.service != "")
      && (req.service.Some? ==> req.service.value == challenge.service)
      && (req.scope.Some? <==> Truthy(scope))
      && (req.scope.Some? ==> req.scope == scope)
      && req.headers == AuthorizationHeaders(authorization)
  {
    if !HasScheme(challenge.realm) then Failure(InvalidRealm(challenge.realm))
    else
      Success(TokenRequest(
        "GET",
        challenge.realm,
        if challenge.service != "" then Some(challenge.service) else None,
        if Truthy(scope) then scope else None,
        AuthorizationHeaders(authorization)))
  }

  /** The empty realm, and any realm without a colon such as a bare path, throws before
      anything is sent. */
  lemma RealmWithoutSchemeThrows(challenge: Challenge, scope: Option<string>, authorization: Option<string>)
    requires ':' !in challenge.realm
    ensures FetchToken(challenge, scope, authorization) == Failure(InvalidRealm(challenge.realm))
  {
    NoColonNoScheme(challenge.realm);
  }

  /** The realm URL's query carries `service` exactly when the challenge names a non-empty
      service and `scope` exactly when the client sent a non-empty one, `service` first. */
  lemma QueryOfFetch(challenge: Challenge, scope: Option<string>, authorization: Option<string>)
    requires HasScheme(challenge.realm)
    ensures var params := FetchToken(challenge, scope, authorization).value.Query();
      && |params| == (if challenge.service != "" then 1 else 0) + (if Truthy(scope) then 1 else 0)
      && (("service", challenge.service) in params <==> challenge.service != "")
      && (Truthy(scope) <==> exists i :: 0 <= i < |params| && params[i].0 == "scope")
      && (Truthy(scope) ==> params[|params| - 1] == ("scope", scope.value))
  {
  }

  /** An empty scope or Authorization value is treated exactly like a missing one. */
  lemma EmptyIsAbsent(challenge: Challenge, scope: Option<string>, authorization: Option<string>)
    ensures FetchToken(challenge, Some(""), authorization) == FetchToken(challenge, None, authorization)
    ensures FetchToken(challenge, scope, Some("")) == FetchToken(challenge, scope, None)
  {
  }

  /** Nothing but the Authorization header is ever sent to the realm, and it is sent
      unchanged. */
  lemma OnlyAuthorizationSent(challenge: Challenge, scope: Option<string>, authorization: Option<string>)
    ensures var r := FetchToken(challenge, scope, authorization);
      r.Success? ==>
        && (forall name :: name in r.value.headers ==> name == "authorization")
        && (Truthy(authorization) ==> r.value.headers["authorization"] == authorization.value)
  {
  }
}

/** The compiled-in table from proxy host name to upstream registry origin. */
module RouteTable {

  datatype Mode = Production | Debug

  /** The default registry, whose unqualified image names live in the `library` namespace. */
  const DockerHub: string := "https://registry-1.docker.io"

  const Routes: map<string, string> := map[
    "docker.ns2kracy.com" := DockerHub,
    "quay.ns2kracy.com" := "https://quay.io",
    "gcr.ns2kracy.com" := "https://gcr.io",
    "k8s-gcr.ns2kracy.com" := "https://k8s.gcr.io",
    "k8s.ns2kracy.com" := "https://registry.k8s.io",
    "ghcr.ns2kracy.com" := "https://ghcr.io",
    "cloudsmith.ns2kracy.com" := "https://docker.cloudsmith.io",
    "ecr.ns2kracy.com" := "https://public.ecr.aws",
    "docker-staging.ns2kracy.com" := DockerHub
  ]

  /** Exact-match lookup; an unmapped host falls back to `targetUpstream` in debug mode and
      to the empty string ("no upstream") in production. */
  function RouteByHosts(mode: Mode, targetUpstream: string, host: string): (upstream: string)
    ensures host in Routes ==> upstream == Routes[host]
    ensures host !in Routes && mode == Production ==> upstream == ""
    ensures host !in Routes && mode == Debug ==> upstream == targetUpstream
  {
    if host in Routes then Routes[host]
    else if mode == Debug then targetUpstream
    else ""
  }

  /** Every table entry names a real origin, so no mapped host ever reads as unresolved. */
  lemma RoutesNonEmpty()
    ensures forall host :: host in Routes ==> Routes[host] != ""
  {
  }

  /** In production a host resolves exactly when it is a key of the table. */
  lemma ProductionResolvesOnlyTable(targetUpstream: string, host: string)
    ensures RouteByHosts(Production, targetUpstream, host) != "" <==> host in Routes
  {
    RoutesNonEmpty();
  }

  /** In debug mode a host is unresolved exactly when it is unmapped and the fallback is empty. */
  lemma DebugUnresolvedIff(targetUpstream: string, host: string)
    ensures RouteByHosts(Debug, targetUpstream, host) == "" <==> host !in Routes && targetUpstream == ""
  {
    RoutesNonEmpty();
  }

  /** The resolved upstream is either a table entry, the debug fallback, or unresolved. */
  lemma ResolvedIsConfigured(mode: Mode, targetUpstream: string, host: string)
    ensures var u := RouteByHosts(mode, targetUpstream, host);
      u in Routes.Values || (mode == Debug && u == targetUpstream) || u == ""
  {
  }
}

/** Docker Hub's implicit `library/` namespace in token scopes (`type:name:actions`). */
module ScopeNormalizer {
  import opened Wrappers
  import opened Strings
  import opened Http

  const LibraryPrefix: string := "library/"

  /** Colon-split scope parts naming an image without a namespace. */
  predicate Unqualified(parts: seq<string>)
  {
    |parts| == 3 && '/' !in parts[1]
  }

  /** The parts with `library/` put in front of the image name. */
  function Qualify(parts: seq<string>): (qualified: seq<string>)
    requires Unqualified(parts)
  {
    [parts[0], LibraryPrefix + parts[1], parts[2]]
  }

  /** `normalizeScopeForDockerHub`: an absent or empty scope becomes absent; an unqualified
      image name gets the `library/` namespace; any other scope is returned as it came. */
  function NormalizeScopeForDockerHub(scope: Option<string>): (r: Option<string>)
    ensures r.None? <==> !Truthy(scope)
    ensures Truthy(scope) && !Unqualified(Split(scope.value, ':')) ==> r == scope
    ensures Truthy(scope) && Unqualified(Split(scope.value, ':')) ==>
      r.Some? && Split(r.value, ':') == Qualify(Split(scope.value, ':'))
  {
    match scope
    case None => None
    case Some(s) =>
      if s == "" then None
      else
        var parts := Split(s, ':');
        if Unqualified(parts) then
          var qualified := Qualify(parts);
          assert ':' !in LibraryPrefix;
          SplitJoin(qualified, ':');
          Some(Join(qualified, ':'))
        else Some(Join(parts, ':'))
  }

  /** A normalized scope never asks for the namespace again. */
  lemma NormalizedIsQualified(scope: Option<string>)
    ensures var r := NormalizeScopeForDockerHub(scope);
      r.Some? ==> r.value != "" && !Unqualified(Split(r.value, ':'))
  {
    var r := NormalizeScopeForDockerHub(scope);
    if r.Some? && Truthy(scope) && Unqualified(Split(scope.value, ':')) {
      var q := Qualify(Split(scope.value, ':'));
      assert q[1][|LibraryPrefix| - 1] == '/';
      assert Join(Split(r.value, ':'), ':') == r.value;
    }
  }

  /** Normalizing twice is normalizing once. */
  lemma NormalizeIdempotent(scope: Option<string>)
    ensures NormalizeScopeForDockerHub(NormalizeScopeForDockerHub(scope))
         == NormalizeScopeForDockerHub(scope)
  {
    NormalizedIsQualified(scope);
  }

  /** The scope `<type>:<name>:<actions>`. */
  function ScopeOf(resourceType: string, name: string, actions: string): string
  {
    resourceType + ":" + name + ":" + actions
  }

  /** A three-part scope splits into its parts when none of them holds a colon. */
  lemma ScopeParts(resourceType: string, name: string, actions: string)
    requires ':' !in resourceType && ':' !in name && ':' !in actions
    ensures Split(ScopeOf(resourceType, name, actions), ':') == [resourceType, name, actions]
  {
    var parts := [resourceType, name, actions];
    JoinCons(name, [actions], ':');
    JoinCons(resourceType, [name, actions], ':');
    assert Join(parts, ':') == ScopeOf(resourceType, name, actions);
    SplitJoin(parts, ':');
  }

  /** An image name without a namespace is moved into `library`:
      `repository:nginx:pull` becomes `repository:library/nginx:pull`. */
  lemma NormalizeAddsLibrary(resourceType: string, name: string, actions: string)
    requires ':' !in resourceType && ':' !in name && ':' !in actions
    requires '/' !in name
    ensures NormalizeScopeForDockerHub(Some(ScopeOf(resourceType, name, actions)))
         == Some(ScopeOf(resourceType, LibraryPrefix + name, actions))
  {
    ScopeParts(resourceType, name, actions);
    assert ':' !in LibraryPrefix;
    ScopeParts(resourceType, LibraryPrefix + name, actions);
    var r := NormalizeScopeForDockerHub(Some(ScopeOf(resourceType, name, actions)));
    assert Split(r.value, ':') == Split(ScopeOf(resourceType, LibraryPrefix + name, actions), ':');
  }

  /** A name that already has a namespace is kept: `repository:library/nginx:pull` and
      `repository:org/nginx:pull` are returned as they came. */
  lemma NormalizeKeepsNamespaced(resourceType: string, namespace: string, name: string, actions: string)
    requires ':' !in resourceType && ':' !in namespace && ':' !in name && ':' !in actions
    ensures var scope := ScopeOf(resourceType, namespace + "/" + name, actions);
      NormalizeScopeForDockerHub(Some(scope)) == Some(scope)
  {
    ScopeParts(resourceType, namespace + "/" + name, actions);
    assert (namespace + "/" + name)[|namespace|] == '/';
  }
}

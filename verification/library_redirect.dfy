/** The permanent redirect that moves unqualified Docker Hub image paths into the
    `library` namespace: `/v2/<image>/manifests/<tag>` becomes
    `/v2/library/<image>/manifests/<tag>`. */
module LibraryRedirect {
  import opened Wrappers
  import opened Strings
  import opened Http

  const Library: string := "library"

  /** Slash-split path parts that call for the redirect: exactly five, none `library`. */
  predicate NeedsLibrary(parts: seq<string>)
  {
    |parts| == 5 && Library !in parts
  }

  /** `pathParts.splice(2, 0, 'library')`. */
  function InsertLibrary(parts: seq<string>): (inserted: seq<string>)
    requires |parts| >= 2
    ensures |inserted| == |parts| + 1
    ensures inserted[2] == Library
    ensures inserted[..2] + inserted[3..] == parts
  {
    assert parts == parts[..2] + parts[2..];
    parts[..2] + [Library] + parts[2..]
  }

  /** `redirectDockerHubLibraryImages`: the request URL with `library` inserted as the third
      path part when the path needs it, and nothing otherwise. Protocol, host, query string
      and every other field of the URL are kept. */
  function RedirectDockerHubLibraryImages(url: Url): (r: Option<Url>)
    ensures r.Some? <==> NeedsLibrary(Split(url.pathname, '/'))
    ensures r.Some? ==> r.value == url.(pathname := r.value.pathname)
    ensures r.Some? ==> Split(r.value.pathname, '/') == InsertLibrary(Split(url.pathname, '/'))
  {
    var parts := Split(url.pathname, '/');
    if NeedsLibrary(parts) then
      var inserted := InsertLibrary(parts);
      assert forall i :: 0 <= i < |inserted| ==> '/' !in inserted[i] by {
        assert '/' !in Library;
        forall i | 0 <= i < |inserted| ensures '/' !in inserted[i] {
          if i > 2 {
            assert inserted[i] == parts[i - 1];
          }
        }
      }
      SplitJoin(inserted, '/');
      Some(url.(pathname := Join(inserted, '/')))
    else None
  }

  /** The rewritten path has six parts, `library` third, and dropping that part gives back
      the original parts. */
  lemma RedirectShape(url: Url)
    requires RedirectDockerHubLibraryImages(url).Some?
    ensures var parts := Split(url.pathname, '/');
      var rewritten := Split(RedirectDockerHubLibraryImages(url).value.pathname, '/');
      && |rewritten| == 6
      && rewritten[2] == Library
      && rewritten[..2] + rewritten[3..] == parts
  {
  }

  /** A redirected URL is never redirected again. */
  lemma RedirectOnce(url: Url)
    requires RedirectDockerHubLibraryImages(url).Some?
    ensures RedirectDockerHubLibraryImages(RedirectDockerHubLibraryImages(url).value).None?
  {
  }

  /** The paths the router answers before the redirect, `/`, `/v2/` and `/v2/auth`, split into
      two or three parts, so none of them could be redirected. */
  lemma ReservedPathParts(path: string)
    requires path == "/" || path == "/v2/" || path == "/v2/auth"
    ensures |Split(path, '/')| <= 3
    ensures !NeedsLibrary(Split(path, '/'))
  {
    if path == "/" {
      var parts := ["", ""];
      assert Join(parts, '/') == path;
      SplitJoin(parts, '/');
    } else if path == "/v2/" {
      var parts := ["", "v2", ""];
      assert Join(parts, '/') == path;
      SplitJoin(parts, '/');
    } else {
      var parts := ["", "v2", "auth"];
      assert Join(parts, '/') == path;
      SplitJoin(parts, '/');
    }
  }

  /** The path of a manifest request, `/v2/<name>/manifests/<reference>`. */
  function ManifestPath(name: string, reference: string): string
  {
    "/v2/" + name + "/manifests/" + reference
  }

  /** Five parts joined, grouped so that the fixed text around the third part stands apart. */
  lemma JoinFive(a: string, b: string, c: string, d: string, e: string, sep: char)
    ensures Join([a, b, c, d, e], sep) == (a + [sep] + b + [sep]) + c + ([sep] + d + [sep]) + e
  {
    JoinCons(d, [e], sep);
    JoinCons(c, [d, e], sep);
    JoinCons(b, [c, d, e], sep);
    JoinCons(a, [b, c, d, e], sep);
  }

  /** Joining six parts is joining five with the third and fourth already joined. */
  lemma JoinMergeTwo(a: string, b: string, c: string, d: string, e: string, f: string, sep: char)
    ensures Join([a, b, c, d, e, f], sep) == Join([a, b, c + [sep] + d, e, f], sep)
  {
    JoinCons(e, [f], sep);
    JoinCons(d, [e, f], sep);
    JoinCons(c, [d, e, f], sep);
    JoinCons(b, [c, d, e, f], sep);
    JoinCons(a, [b, c, d, e, f], sep);
    JoinCons(c + [sep] + d, [e, f], sep);
    JoinCons(b, [c + [sep] + d, e, f], sep);
    JoinCons(a, [b, c + [sep] + d, e, f], sep);
  }

  /** The manifest path is its five parts joined with slashes. */
  lemma ManifestJoin(name: string, reference: string)
    ensures Join(["", "v2", name, "manifests", reference], '/') == ManifestPath(name, reference)
  {
    JoinFive("", "v2", name, "manifests", reference, '/');
    assert "" + ['/'] + "v2" + ['/'] == "/v2/";
    assert ['/'] + "manifests" + ['/'] == "/manifests/";
  }

  /** A manifest path splits into its five parts when neither variable part holds a slash. */
  lemma ManifestPathParts(name: string, reference: string)
    requires '/' !in name && '/' !in reference
    ensures Split(ManifestPath(name, reference), '/') == ["", "v2", name, "manifests", reference]
  {
    var parts := ["", "v2", name, "manifests", reference];
    ManifestJoin(name, reference);
    assert forall i :: 0 <= i < |parts| ==> '/' !in parts[i] by {
      assert '/' !in "v2" && '/' !in "manifests";
    }
    SplitJoin(parts, '/');
  }

  /** Joining the parts with `library` inserted gives the manifest path of `library/<image>`. */
  lemma InsertedManifestPath(image: string, reference: string)
    ensures Join(["", "v2", Library, image, "manifests", reference], '/')
         == ManifestPath(Library + "/" + image, reference)
  {
    JoinMergeTwo("", "v2", Library, image, "manifests", reference, '/');
    ManifestJoin(Library + "/" + image, reference);
  }

  /** An image name without a namespace, `/v2/<image>/manifests/<reference>`, is redirected
      to `/v2/library/<image>/manifests/<reference>`. */
  lemma RedirectUnqualifiedImage(url: Url, image: string, reference: string)
    requires '/' !in image && '/' !in reference
    requires image != Library && reference != Library
    requires url.pathname == ManifestPath(image, reference)
    ensures RedirectDockerHubLibraryImages(url)
         == Some(url.(pathname := ManifestPath(Library + "/" + image, reference)))
  {
    var parts := ["", "v2", image, "manifests", reference];
    ManifestPathParts(image, reference);
    assert NeedsLibrary(parts) by {
      assert forall i :: 0 <= i < |parts| && i != 2 && i != 4 ==> |parts[i]| != |Library|;
    }
    assert InsertLibrary(parts) == ["", "v2", Library, image, "manifests", reference];
    InsertedManifestPath(image, reference);
  }

  /** A path that already names `library`, or one with a namespace (six parts), is not
      redirected. */
  lemma NoRedirectForQualifiedImage(url: Url, namespace: string, image: string, reference: string)
    requires '/' !in namespace && '/' !in image && '/' !in reference
    requires url.pathname == ManifestPath(namespace + "/" + image, reference)
    ensures RedirectDockerHubLibraryImages(url).None?
  {
    QualifiedManifestPathParts(namespace, image, reference);
  }

  /** A manifest path whose name holds one slash splits into six parts. */
  lemma QualifiedManifestPathParts(namespace: string, image: string, reference: string)
    requires '/' !in namespace && '/' !in image && '/' !in reference
    ensures Split(ManifestPath(namespace + "/" + image, reference), '/')
         == ["", "v2", namespace, image, "manifests", reference]
  {
    var parts := ["", "v2", namespace, image, "manifests", reference];
    assert Join(parts, '/') == ManifestPath(namespace + "/" + image, reference) by {
      JoinMergeTwo("", "v2", namespace, image, "manifests", reference, '/');
      ManifestJoin(namespace + "/" + image, reference);
    }
    assert forall i :: 0 <= i < |parts| ==> '/' !in parts[i] by {
      assert '/' !in "v2" && '/' !in "manifests";
    }
    SplitJoin(parts, '/');
  }
}

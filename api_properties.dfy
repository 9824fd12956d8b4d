/** Properties of the Aptly client that relate several calls or several
    inputs: host normalisation, the shape of endpoint URLs, and where the
    `prefix` and `filename` keyword arguments end up. */
module ApiProperties {
  import opened Values
  import opened Paths
  import opened Api
  import Utils

  // ---------------------------------------------------------------------
  // Host normalisation
  // ---------------------------------------------------------------------

  lemma RStripNoTrailing(s: string, c: char)
    requires s == "" || s[|s| - 1] != c
    ensures RStrip(s, c) == s
  {
  }

  lemma {:induction false} RStripAppended(s: string, c: char)
    ensures RStrip(s + [c], c) == RStrip(s, c)
  {
    assert (s + [c])[..|s + [c]| - 1] == s;
  }

  /** Trailing slashes never matter: the host with one more slash is
      stored as the same host. */
  lemma NormalizedHostIgnoresTrailingSlash(host: string)
    ensures NormalizedHost(host + "/") == NormalizedHost(host)
  {
    RStripAppended(host, '/');
  }

  /** A host that already has a scheme and no trailing slash is kept. */
  lemma NormalizedHostKeepsScheme(host: string)
    requires HasScheme(host)
    requires host[|host| - 1] != '/'
    ensures NormalizedHost(host) == host
  {
    RStripNoTrailing(host, '/');
  }

  /** A host without a scheme and without a trailing slash gets `http://`. */
  lemma NormalizedHostAddsHttp(host: string)
    requires !HasScheme(host)
    requires host == "" || host[|host| - 1] != '/'
    ensures NormalizedHost(host) == "http://" + host
  {
    RStripNoTrailing(host, '/');
  }

  /** A host made only of slashes passes the emptiness check and is stored
      as the bare scheme "http://", the one stored host that ends in a slash. */
  lemma NormalizedHostOfSlashes(host: string)
    requires forall i :: 0 <= i < |host| ==> host[i] == '/'
    ensures NormalizedHost(host) == "http://"
  {
    assert RStrip(host, '/') == "";
  }

  lemma NormalizedHostTrailingSlash(host: string)
    ensures NormalizedHost(host)[|NormalizedHost(host)| - 1] == '/' <==> RStrip(host, '/') == ""
  {
    var h := RStrip(host, '/');
    var r := NormalizedHost(host);
    if h != "" {
      assert r[|r| - 1] == h[|h| - 1];
    }
  }

  /** Normalising a stored host again changes nothing, unless the stored
      host is the bare "http://", whose slashes the second pass strips. */
  lemma NormalizedHostIdempotent(host: string)
    requires RStrip(host, '/') != ""
    ensures NormalizedHost(NormalizedHost(host)) == NormalizedHost(host)
  {
    var h := RStrip(host, '/');
    var r := NormalizedHost(host);
    assert r[|r| - 1] == h[|h| - 1];
    RStripNoTrailing(r, '/');
  }

  /** A bare scheme loses its slashes and is read as a host name: "http://"
      is stored as "http://http:", so the stored "http://" of an all-slash
      host is not a fixed point either. */
  lemma NormalizedHostSchemeOnly(scheme: string)
    requires scheme == "http:" || scheme == "https:"
    ensures NormalizedHost(scheme + "//") == "http://" + scheme
  {
    assert scheme + "//" == (scheme + "/") + ['/'];
    RStripAppended(scheme + "/", '/');
    RStripAppended(scheme, '/');
    RStripNoTrailing(scheme, '/');
  }

  /** Every table entry of a constructed client sits under `<host>/api/`. */
  lemma ClientUrlTable(c: Aptly)
    requires c.Valid()
    ensures forall k: Resource :: k in c.apiUrl && c.apiUrl[k] == c.host + "/api/" + k.Name()
  {
    UrlTableEntries(c.api);
  }

  // ---------------------------------------------------------------------
  // URL structure
  // ---------------------------------------------------------------------

  /** Slash-free segments address distinct URLs: the resource kind and the
      segments can be read back from the URL. */
  lemma ResourceUrlInjective(c: Aptly, k1: Resource, s1: seq<string>, k2: Resource, s2: seq<string>)
    requires c.Valid()
    requires NoSlash(s1) && NoSlash(s2)
    requires c.ResourceUrl(k1, s1) == c.ResourceUrl(k2, s2)
    ensures k1 == k2 && s1 == s2
  {
    var p1, p2 := [k1.Name()] + s1, [k2.Name()] + s2;
    assert NoSlash(p1) by {
      forall i | 0 <= i < |p1| ensures '/' !in p1[i] {
        if i > 0 { assert p1[i] == s1[i - 1]; }
      }
    }
    assert NoSlash(p2) by {
      forall i | 0 <= i < |p2| ensures '/' !in p2[i] {
        if i > 0 { assert p2[i] == s2[i - 1]; }
      }
    }
    assert (c.api + Join(p1))[|c.api|..] == Join(p1);
    assert (c.api + Join(p2))[|c.api|..] == Join(p2);
    JoinInjective(p1, p2);
    assert p1[0] == p2[0];
    ResourceNameInjective(k1, k2);
    assert s1 == p1[1..];
  }

  /** Path segments are not percent-encoded, so a name holding a slash
      reaches another endpoint: showing the repository "main/packages"
      requests the package list of repository "main". */
  lemma UnescapedNameReachesOtherEndpoint(c: Aptly, name: string)
    requires c.Valid()
    ensures c.ShowLocalRepo(name + "/packages").value.url == c.ShowRepoPackages(name, map[]).value.url
  {
    JoinTwo("repos", name + "/packages");
    JoinThree("repos", name, "packages");
    var head := "/" + "repos" + "/";
    Regroup(head, name, "/packages");
    Regroup(head + name, "/", "packages");
    assert "/" + "packages" == "/packages";
  }

  // ---------------------------------------------------------------------
  // Publish endpoints and the prefix
  // ---------------------------------------------------------------------

  /** The popped prefix never reaches the body or the query of a publish call. */
  lemma PrefixNeverSent(c: Aptly, distr: string, kwargs: Kwargs)
    requires c.Valid()
    ensures c.Publish(kwargs).Success? ==>
              (c.Publish(kwargs).value.data.Some? && "prefix" !in c.Publish(kwargs).value.data.value)
    ensures c.UpdatePublish(distr, kwargs).Success? ==>
              (c.UpdatePublish(distr, kwargs).value.data.Some?
               && "prefix" !in c.UpdatePublish(distr, kwargs).value.data.value)
    ensures c.DeletePublish(distr, kwargs).Success? ==>
              (c.DeletePublish(distr, kwargs).value.params.Some?
               && "prefix" !in c.DeletePublish(distr, kwargs).value.params.value
               && c.DeletePublish(distr, kwargs).value.data.None?)
  {
  }

  /** A string prefix, whatever slashes it holds, occupies exactly one path
      segment after `publish`, and that segment is the sanitised prefix;
      so the distribution after it can be read back too. */
  lemma PublishPrefixIsOneSegment(c: Aptly, p: string, kwargs: Kwargs)
    requires c.Valid()
    requires p != ""
    requires "prefix" in kwargs && kwargs["prefix"] == Str(p)
    requires !RepeatsParameter(kwargs, {"self"})
    ensures c.Publish(kwargs).Success?
    ensures var u := c.Publish(kwargs).value.url;
      StartsWith(u, c.api) && Split(u[|c.api|..]) == ["publish", Utils.PrefixSanitized(p)]
  {
    var q := Utils.PrefixSanitized(p);
    assert PrefixSegment(kwargs["prefix"]) == Success(q);
    var two := ["publish", q];
    assert NoSlash(two);
    UrlReadBack(c.api, two);
  }

  /** The same for update_publish and delete_publish, whose distribution
      follows the prefix segment and can be read back after it. */
  lemma UpdatePublishPrefixIsOneSegment(c: Aptly, p: string, distr: string, kwargs: Kwargs)
    requires c.Valid()
    requires p != "" && '/' !in distr
    requires "prefix" in kwargs && kwargs["prefix"] == Str(p)
    requires !RepeatsParameter(kwargs, {"self", "distr"})
    ensures c.UpdatePublish(distr, kwargs).Success? && c.DeletePublish(distr, kwargs).Success?
    ensures var u := c.UpdatePublish(distr, kwargs).value.url;
      StartsWith(u, c.api) && Split(u[|c.api|..]) == ["publish", Utils.PrefixSanitized(p), distr]
    ensures c.DeletePublish(distr, kwargs).value.url == c.UpdatePublish(distr, kwargs).value.url
  {
    var q := Utils.PrefixSanitized(p);
    assert PrefixSegment(kwargs["prefix"]) == Success(q);
    var three := ["publish", q, distr];
    assert NoSlash(three);
    UrlReadBack(c.api, three);
  }

  /** A URL built from slash-free segments under a root gives the
      segments back once the root is cut off. */
  lemma UrlReadBack(root: string, segments: seq<string>)
    requires NoSlash(segments)
    ensures StartsWith(root + Join(segments), root)
    ensures Split((root + Join(segments))[|root|..]) == segments
  {
    PrefixOfConcat(root, Join(segments));
    assert (root + Join(segments))[|root|..] == Join(segments);
    SplitJoin(segments);
  }

  /** Without a truthy prefix the segment is empty: `publish` posts to
      `.../publish/` and the other two address `.../publish//<distr>`. */
  lemma PublishWithoutPrefix(c: Aptly, kwargs: Kwargs)
    requires c.Valid()
    requires "prefix" in kwargs ==> !Truthy(kwargs["prefix"])
    requires !RepeatsParameter(kwargs, {"self"})
    ensures c.Publish(kwargs).Success? && c.Publish(kwargs).value.url == c.api + "/publish/"
  {
    var prefix := if "prefix" in kwargs then kwargs["prefix"] else Null;
    assert PrefixSegment(prefix) == Success("");
    JoinTwo("publish", "");
    assert "/" + "publish" + "/" + "" == "/publish/";
  }

  /** The same empty segment puts two slashes before the distribution. */
  lemma UpdatePublishWithoutPrefix(c: Aptly, distr: string, kwargs: Kwargs)
    requires c.Valid()
    requires "prefix" in kwargs ==> !Truthy(kwargs["prefix"])
    requires !RepeatsParameter(kwargs, {"self", "distr"})
    ensures c.UpdatePublish(distr, kwargs).Success?
      && c.UpdatePublish(distr, kwargs).value.url == c.api + "/publish//" + distr
    ensures c.DeletePublish(distr, kwargs).Success?
      && c.DeletePublish(distr, kwargs).value.url == c.api + "/publish//" + distr
  {
    var prefix := if "prefix" in kwargs then kwargs["prefix"] else Null;
    assert PrefixSegment(prefix) == Success("");
    JoinThree("publish", "", distr);
    assert "/" + "publish" + "/" + "" + "/" == "/publish//";
    Regroup(c.api, "/publish//", distr);
  }

  /** A truthy prefix that is not a string fails as `re.sub` does. */
  lemma PublishNonStringPrefixFails(c: Aptly, distr: string, kwargs: Kwargs)
    requires c.Valid()
    requires "prefix" in kwargs && Truthy(kwargs["prefix"]) && !kwargs["prefix"].Str?
    ensures c.Publish(kwargs).Failure? && c.Publish(kwargs).error.TypeError?
    ensures c.UpdatePublish(distr, kwargs).Failure? && c.DeletePublish(distr, kwargs).Failure?
  {
  }

  // ---------------------------------------------------------------------
  // add_uploaded_pkg and the filename
  // ---------------------------------------------------------------------

  /** `filename` is popped: it never reaches the query, and every other
      keyword argument does. */
  lemma AddUploadedPkgDropsFilename(c: Aptly, name: string, dirname: string, kwargs: Kwargs)
    requires c.Valid()
    requires "filename" in kwargs ==> Display(kwargs["filename"]).Some?
    requires !RepeatsParameter(kwargs, {"self", "name", "dirname"})
    ensures c.AddUploadedPkg(name, dirname, kwargs).Success?
    ensures var q := c.AddUploadedPkg(name, dirname, kwargs).value;
      q.verb == Post && q.params == Some(kwargs - {"filename"}) && "filename" !in q.params.value
  {
  }

  /** A non-empty string filename without slashes is the fifth segment
      after the API root: `repos`, the name, `file`, the directory, the file. */
  lemma AddUploadedPkgFileTarget(c: Aptly, name: string, dirname: string, f: string, kwargs: Kwargs)
    requires c.Valid()
    requires '/' !in name && '/' !in dirname && '/' !in f && f != ""
    requires "filename" in kwargs && kwargs["filename"] == Str(f)
    requires !RepeatsParameter(kwargs, {"self", "name", "dirname"})
    ensures c.AddUploadedPkg(name, dirname, kwargs).Success?
    ensures var u := c.AddUploadedPkg(name, dirname, kwargs).value.url;
      StartsWith(u, c.api) && Split(u[|c.api|..]) == ["repos", name, "file", dirname, f]
  {
    var segs := ["repos", name, "file", dirname, f];
    assert c.AddUploadedPkg(name, dirname, kwargs).value.url == c.api + Join(segs);
    assert NoSlash(segs);
    UrlReadBack(c.api, segs);
  }

  /** Without a truthy filename the directory is the last segment. */
  lemma AddUploadedPkgDirTarget(c: Aptly, name: string, dirname: string, kwargs: Kwargs)
    requires c.Valid()
    requires '/' !in name && '/' !in dirname
    requires "filename" in kwargs ==> !Truthy(kwargs["filename"])
    requires !RepeatsParameter(kwargs, {"self", "name", "dirname"})
    ensures c.AddUploadedPkg(name, dirname, kwargs).Success?
    ensures var u := c.AddUploadedPkg(name, dirname, kwargs).value.url;
      StartsWith(u, c.api) && Split(u[|c.api|..]) == ["repos", name, "file", dirname]
  {
    var segs := ["repos", name, "file", dirname];
    assert c.AddUploadedPkg(name, dirname, kwargs).value.url == c.api + Join(segs);
    assert NoSlash(segs);
    UrlReadBack(c.api, segs);
  }

  // ---------------------------------------------------------------------
  // Keyword arguments that repeat a parameter
  // ---------------------------------------------------------------------

  /** A keyword named like a positional parameter makes the call fail with
      TypeError before any request is built. */
  lemma RepeatedNameFails(c: Aptly, name: string, dirname: string, kwargs: Kwargs)
    requires c.Valid()
    requires "name" in kwargs
    ensures c.CreateLocalRepo(name, kwargs) == Failure(TypeError(MultipleValuesMessage))
    ensures c.ShowRepoPackages(name, kwargs) == Failure(TypeError(MultipleValuesMessage))
    ensures c.EditLocalRepo(name, kwargs) == Failure(TypeError(MultipleValuesMessage))
    ensures c.DeleteLocalRepo(name, kwargs) == Failure(TypeError(MultipleValuesMessage))
    ensures c.AddUploadedPkg(name, dirname, kwargs) == Failure(TypeError(MultipleValuesMessage))
    ensures c.AddPkgByKey(name, kwargs) == Failure(TypeError(MultipleValuesMessage))
    ensures c.DeletePkgByKey(name, kwargs) == Failure(TypeError(MultipleValuesMessage))
  {
  }

  /** The same for the distribution, the snapshot names and `self`, which
      every method has. */
  lemma RepeatedOtherParameterFails(c: Aptly, name: string, kwargs: Kwargs)
    requires c.Valid()
    ensures "distr" in kwargs ==> c.UpdatePublish(name, kwargs) == Failure(TypeError(MultipleValuesMessage))
    ensures "distr" in kwargs ==> c.DeletePublish(name, kwargs) == Failure(TypeError(MultipleValuesMessage))
    ensures "rep_name" in kwargs ==> c.CreateSnapshotFromRepo(name, kwargs) == Failure(TypeError(MultipleValuesMessage))
    ensures "snap_name" in kwargs ==> c.UpdateSnapshot(name, kwargs) == Failure(TypeError(MultipleValuesMessage))
    ensures "snap_name" in kwargs ==> c.DeleteSnapshot(name, kwargs) == Failure(TypeError(MultipleValuesMessage))
    ensures "snap_name" in kwargs ==> c.ShowSnapshotPackages(name, kwargs) == Failure(TypeError(MultipleValuesMessage))
    ensures "self" in kwargs ==> c.Publish(kwargs) == Failure(TypeError(MultipleValuesMessage))
    ensures "self" in kwargs ==> c.GetSnapshots(kwargs) == Failure(TypeError(MultipleValuesMessage))
    ensures "self" in kwargs ==> c.CreateSnapshotFromPkg(kwargs) == Failure(TypeError(MultipleValuesMessage))
  {
  }

  // ---------------------------------------------------------------------
  // Bodies and headers
  // ---------------------------------------------------------------------

  /** Every call with a JSON body sends the JSON content type unless the
      client's own headers name a different one, which then wins. */
  lemma JsonBodyContentType(c: Aptly, name: string, kwargs: Kwargs)
    requires c.Valid()
    requires !RepeatsParameter(kwargs, {"self", "name", "snap_name"})
    ensures var h := c.CreateLocalRepo(name, kwargs).value.headers;
      h["Content-Type"] == "application/json" <==>
        ("Content-Type" !in c.headers || c.headers["Content-Type"] == "application/json")
    ensures c.EditLocalRepo(name, kwargs).value.headers == c.CreateLocalRepo(name, kwargs).value.headers
    ensures c.UpdateSnapshot(name, kwargs).value.headers == c.CreateLocalRepo(name, kwargs).value.headers
  {
  }

  /** Calls without a body use the client's headers exactly as they are. */
  lemma PlainCallsUseClientHeaders(c: Aptly, name: string, kwargs: Kwargs)
    requires c.Valid()
    requires !RepeatsParameter(kwargs, {"self", "name"})
    ensures c.ShowLocalRepo(name).value.headers == c.headers
    ensures c.DeleteLocalRepo(name, kwargs).value.headers == c.headers
    ensures c.GetGraph("", "png").0.headers == c.headers
  {
  }

  /** The repository-creation scenario: a name and no keyword arguments
      give one POST to `<api>/repos` with the body `{'Name': name}`, and
      deleting it with no keyword arguments is a DELETE on
      `<api>/repos/<name>` with an empty query. */
  lemma CreateThenDeleteRepo(c: Aptly, name: string)
    requires c.Valid()
    ensures c.CreateLocalRepo(name, map[]).value.verb == Post
    ensures c.CreateLocalRepo(name, map[]).value.url == c.api + "/repos"
    ensures c.CreateLocalRepo(name, map[]).value.data == Some(map["Name" := Str(name)])
    ensures c.DeleteLocalRepo(name, map[]).value.verb == Delete
    ensures c.DeleteLocalRepo(name, map[]).value.url == c.api + "/repos/" + name
    ensures c.DeleteLocalRepo(name, map[]).value.params == Some(map[])
  {
    JoinTwo("repos", name);
    assert "/" + "repos" + "/" == "/repos/";
    Regroup(c.api, "/repos/", name);
    var d := c.CreateLocalRepo(name, map[]).value.data.value;
    assert d.Keys == {"Name"};
  }

  /** The graph is saved to the given path, or to `graph.<ext>` when the
      path is empty. */
  lemma GraphPathDefault(c: Aptly, ext: string)
    requires c.Valid()
    ensures c.GetGraph("", ext).1 == map["Path" := "graph." + ext]
    ensures c.GetGraph("", "png").1 == map["Path" := "graph.png"]
  {
    assert c.GetGraph("", ext).1.Keys == {"Path"};
    assert "graph." + "png" == "graph.png";
  }
}

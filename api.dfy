/** pyptly.api: the Aptly client. Every endpoint builds one HTTP request;
    here `_call` returns that request as a descriptor instead of sending it. */
module Api {
  import opened Values
  import opened Paths
  import Utils

  /** The five kinds in the client's resource URL table. */
  datatype Resource = Repos | Snapshots | Publish | Files | Packages {
    function Name(): (r: string)
      ensures r != "" && '/' !in r
    {
      match this
      case Repos => "repos"
      case Snapshots => "snapshots"
      case Publish => "publish"
      case Files => "files"
      case Packages => "packages"
    }
  }

  lemma ResourceNameInjective(a: Resource, b: Resource)
    requires a.Name() == b.Name()
    ensures a == b
  {
  }

  datatype Verb = Get | Post | Put | Delete

  function VerbName(v: Verb): string
  {
    match v
    case Get => "GET"
    case Post => "POST"
    case Put => "PUT"
    case Delete => "DELETE"
  }

  /** `verb_map[verb]`: the four verbs `_call` knows; anything else is a
      missing key. */
  function LookupVerb(name: string): (r: Option<Verb>)
    ensures r.Some? <==> name in {"GET", "POST", "PUT", "DELETE"}
    ensures r.Some? ==> VerbName(r.value) == name
  {
    if name == "GET" then Some(Get)
    else if name == "POST" then Some(Post)
    else if name == "PUT" then Some(Put)
    else if name == "DELETE" then Some(Delete)
    else None
  }

  /** Every verb is found under its own name. */
  lemma LookupVerbName(v: Verb)
    ensures LookupVerb(VerbName(v)) == Some(v)
  {
  }

  /** The `auth` pair handed to the transport unchanged. */
  datatype Credentials = Credentials(user: string, password: string)

  /** The `files` argument of an upload, each open file stood for by its path. */
  datatype Upload =
    | UploadList(pairs: seq<(string, string)>)
    | UploadDict(fields: map<string, string>)

  /** The `files` parameter of upload_files: one path or a list of paths. */
  datatype FileArg = OnePath(path: string) | PathList(paths: seq<string>)

  /** The keyword arguments an endpoint hands to `_call`. */
  datatype CallArgs = CallArgs(
    params: Option<Kwargs>,
    data: Option<Kwargs>,
    files: Option<Upload>,
    headers: Option<map<string, string>>)

  /** The request the transport is asked to perform. */
  datatype Request = Request(
    verb: Verb,
    url: string,
    params: Option<Kwargs>,
    data: Option<Kwargs>,
    files: Option<Upload>,
    headers: map<string, string>,
    verify: bool,
    auth: Option<Credentials>,
    timeout: Option<int>)

  datatype ApiError =
    | ValueError(message: string)
    | KeyError(key: string)
    | TypeError(message: string)
    | UnrenderedValue

  const EmptyHostMessage := "host argument may not be empty"
  const MultipleValuesMessage := "got multiple values for argument"
  const JsonContentType := map["Content-Type" := "application/json"]

  predicate StartsWith(s: string, prefix: string)
  {
    |prefix| <= |s| && s[..|prefix|] == prefix
  }

  predicate HasScheme(s: string)
  {
    StartsWith(s, "http://") || StartsWith(s, "https://")
  }

  /** Whether a keyword argument carries the name of one of the method's
      own parameters (`self` included). Python binds such a keyword to the
      parameter, and when that parameter was already given positionally
      the call raises TypeError before the body runs. */
  predicate RepeatsParameter(kwargs: Kwargs, parameters: set<string>)
  {
    exists k :: k in parameters && k in kwargs
  }

  /** `s.rstrip(c)`: `s` without its trailing run of `c`. */
  function RStrip(s: string, c: char): (r: string)
    ensures |r| <= |s| && r == s[..|r|]
    ensures r == "" || r[|r| - 1] != c
    ensures forall i :: |r| <= i < |s| ==> s[i] == c
  {
    if s == "" || s[|s| - 1] != c then s else RStrip(s[..|s| - 1], c)
  }

  /** The host the constructor stores: trailing slashes removed, then
      `http://` put in front unless one of the two schemes is there. */
  function NormalizedHost(host: string): (r: string)
    ensures HasScheme(r)
    ensures HasScheme(RStrip(host, '/')) ==> r == RStrip(host, '/')
    ensures !HasScheme(RStrip(host, '/')) ==> r == "http://" + RStrip(host, '/')
  {
    var h := RStrip(host, '/');
    if HasScheme(h) then h else "http://" + h
  }

  /** `base.update(kw)` as Python's `dict.update` does it: keys of `kw`
      win. `if kwargs:` guards the update in the source,
      which makes no difference to the result. */
  function Updated(base: Kwargs, kw: Kwargs): (r: Kwargs)
    ensures r.Keys == base.Keys + kw.Keys
    ensures forall k :: k in r ==> r[k] == if k in kw then kw[k] else base[k]
    ensures base == map[] ==> r == kw
  {
    if kw != map[] then base + kw else base
  }

  /** `kwargs.pop(key, None)`: the value (None when absent) and what is left. */
  function Pop(kw: Kwargs, key: string): (r: (Value, Kwargs))
    ensures r.0 == if key in kw then kw[key] else Null
    ensures r.1.Keys == kw.Keys - {key}
    ensures forall k :: k in r.1 ==> r.1[k] == kw[k]
  {
    (if key in kw then kw[key] else Null, kw - {key})
  }

  /** The publish path segment for a popped `prefix`: sanitised when
      truthy, empty otherwise; a truthy non-string makes `re.sub` raise. */
  function PrefixSegment(prefix: Value): (r: Result<string, ApiError>)
    ensures !Truthy(prefix) ==> r == Success("")
    ensures Truthy(prefix) && prefix.Str? ==> r == Success(Utils.PrefixSanitized(prefix.s))
    ensures Truthy(prefix) && !prefix.Str? ==> r.Failure? && r.error.TypeError?
    ensures r.Success? ==> '/' !in r.value
    ensures r.Success? ==> (r.value != "" <==> Truthy(prefix))
  {
    if !Truthy(prefix) then Success("")
    else if prefix.Str? then
      // the format argument `prefix if prefix else ''` always takes its
      // first branch here: a truthy string never sanitises to ""
      Utils.SanitizedNonEmpty(prefix.s);
      Success(Utils.PrefixSanitized(prefix.s))
    else Failure(TypeError("expected string or bytes-like object"))
  }

  /** The URL table the constructor builds under the API root. */
  function UrlTable(api: string): map<Resource, string>
  {
    map[Repos := api + "/repos",
        Snapshots := api + "/snapshots",
        Publish := api + "/publish",
        Files := api + "/files",
        Packages := api + "/packages"]
  }

  lemma UrlTableEntry(api: string, kind: Resource)
    ensures kind in UrlTable(api) && UrlTable(api)[kind] == api + "/" + kind.Name()
  {
    Regroup(api, "/", kind.Name());
    match kind {
      case Repos => assert "/" + "repos" == "/repos";
      case Snapshots => assert "/" + "snapshots" == "/snapshots";
      case Publish => assert "/" + "publish" == "/publish";
      case Files => assert "/" + "files" == "/files";
      case Packages => assert "/" + "packages" == "/packages";
    }
  }

  /** Every kind has an entry, and each entry is the API root, a slash
      and the kind's name. */
  lemma UrlTableEntries(api: string)
    ensures forall k: Resource :: k in UrlTable(api) && UrlTable(api)[k] == api + "/" + k.Name()
  {
    forall k: Resource ensures k in UrlTable(api) && UrlTable(api)[k] == api + "/" + k.Name() {
      UrlTableEntry(api, k);
    }
  }

  /** A table entry followed by joined segments is the API root followed
      by the kind's name and the segments, and it starts with `<host>/api/`. */
  lemma ResourceUrlShape(host: string, kind: Resource, segments: seq<string>)
    ensures UrlTable(host + "/api")[kind] + Join(segments) == host + "/api" + Join([kind.Name()] + segments)
    ensures StartsWith(UrlTable(host + "/api")[kind] + Join(segments), host + "/api/")
  {
    var api, name, tail := host + "/api", kind.Name(), Join(segments);
    UrlTableEntry(api, kind);
    JoinCons(name, segments);
    Regroup(api, "/" + name, tail);
    Regroup(host + "/api", "/", name + tail);
    Regroup("/", name, tail);
    PrefixOfConcat(host + "/api/", name + tail);
  }

  lemma JoinCons(name: string, segments: seq<string>)
    ensures Join([name] + segments) == "/" + name + Join(segments)
  {
    JoinAppend([name], segments);
    JoinOne(name);
  }

  lemma Regroup(a: string, b: string, c: string)
    ensures a + b + c == a + (b + c)
  {
  }

  lemma PrefixOfConcat(a: string, b: string)
    ensures StartsWith(a + b, a)
  {
    assert (a + b)[..|a|] == a;
  }

  /** The `files` argument upload_files builds: a list of `('file', f)`
      pairs in the caller's order, or `{'file': f}` for a single path. */
  function UploadOf(files: FileArg): (r: Upload)
    ensures files.PathList? ==> r.UploadList? && |r.pairs| == |files.paths|
    ensures files.PathList? ==> forall i :: 0 <= i < |files.paths| ==> r.UploadList? && r.pairs[i] == ("file", files.paths[i])
    ensures files.OnePath? ==> r == UploadDict(map["file" := files.path])
  {
    match files
    case PathList(paths) => UploadList(seq(|paths|, i requires 0 <= i < |paths| => ("file", paths[i])))
    case OnePath(path) => UploadDict(map["file" := path])
  }

  class Aptly {
    const timeout: Option<int>
    /** Default headers; a public attribute that callers may reassign. */
    var headers: map<string, string>
    const auth: Option<Credentials>
    const host: string
    const api: string
    const apiUrl: map<Resource, string>
    const verifySsl: bool

    ghost predicate Valid()
    {
      HasScheme(host) && api == host + "/api" && apiUrl == UrlTable(api)
    }

    /** `Aptly(host, auth, verify_ssl, timeout)`: fails with ValueError on
        a missing or empty host, before any host-derived field exists. */
    static method Create(host: Option<string>, auth: Option<Credentials>, verifySsl: bool, timeout: Option<int>)
      returns (r: Result<Aptly, ApiError>)
      ensures r.Failure? <==> host.None? || host.value == ""
      ensures r.Failure? ==> r.error == ValueError(EmptyHostMessage)
      ensures r.Success? ==> fresh(r.value) && r.value.Valid()
      ensures r.Success? ==> r.value.host == NormalizedHost(host.value)
      ensures r.Success? ==> r.value.headers == map[] && r.value.auth == auth
      ensures r.Success? ==> r.value.verifySsl == verifySsl && r.value.timeout == timeout
    {
      if host.None? || host.value == "" {
        return Failure(ValueError(EmptyHostMessage));
      }
      var client := new Aptly(host.value, auth, verifySsl, timeout);
      return Success(client);
    }

    /** The constructor once the emptiness check has passed. */
    constructor (host: string, auth: Option<Credentials>, verifySsl: bool, timeout: Option<int>)
      requires host != ""
      ensures Valid()
      ensures this.host == NormalizedHost(host)
      ensures headers == map[] && this.auth == auth
      ensures this.verifySsl == verifySsl && this.timeout == timeout
    {
      this.timeout := timeout;
      headers := map[];
      this.auth := auth;
      var h := RStrip(host, '/');
      if !(StartsWith(h, "http://") || StartsWith(h, "https://")) {
        h := "http://" + h;
      }
      this.host := h;
      api := h + "/api";
      apiUrl := UrlTable(h + "/api");
      this.verifySsl := verifySsl;
    }

    /** The URL of a resource kind followed by path segments, as the
        endpoints' format strings build it. */
    function ResourceUrl(kind: Resource, segments: seq<string>): (r: string)
      requires Valid()
      ensures r == api + Join([kind.Name()] + segments)
      ensures StartsWith(r, host + "/api/")
    {
      ResourceUrlShape(host, kind, segments);
      apiUrl[kind] + Join(segments)
    }

    /** The request the transport receives for these call settings. */
    function Sent(verb: Verb, url: string, params: Option<Kwargs>, data: Option<Kwargs>,
                  files: Option<Upload>, hdrs: map<string, string>): Request
    {
      Request(verb, url, params, data, files, hdrs, verifySsl, auth, timeout)
    }

    /** `_call`: look the verb up, default the headers to `self.headers`,
        and hand everything to the transport together with the client's
        TLS, auth and timeout settings. */
    function Call(url: string, verb: string, args: CallArgs): (r: Result<Request, ApiError>)
      reads this
      ensures r.Failure? <==> verb !in {"GET", "POST", "PUT", "DELETE"}
      ensures r.Failure? ==> r.error == KeyError(verb)
      ensures r.Success? ==> VerbName(r.value.verb) == verb && r.value.url == url
      ensures r.Success? ==> r.value.headers == if args.headers.Some? then args.headers.value else headers
      ensures r.Success? ==> r.value.params == args.params && r.value.data == args.data && r.value.files == args.files
      ensures r.Success? ==> r.value.verify == verifySsl && r.value.auth == auth && r.value.timeout == timeout
    {
      var callHeaders := if args.headers.None? then headers else args.headers.value;
      match LookupVerb(verb)
      case None => Failure(KeyError(verb))
      case Some(v) => Success(Sent(v, url, args.params, args.data, args.files, callHeaders))
    }

    /** `dict({'Content-Type': 'application/json'}, **self.headers)`: the
        default headers win over the JSON content type. */
    function JsonHeaders(): (r: map<string, string>)
      reads this
      ensures r.Keys == headers.Keys + {"Content-Type"}
      ensures forall k :: k in headers ==> r[k] == headers[k]
      ensures r["Content-Type"] == if "Content-Type" in headers then headers["Content-Type"] else "application/json"
    {
      JsonContentType + headers
    }

    // ---------------------------------------------------------------
    // Local repositories
    // ---------------------------------------------------------------

    function GetLocalRepos(): (r: Result<Request, ApiError>)
      reads this
      requires Valid()
      ensures r == Success(Sent(Get, api + Join(["repos"]), None, None, None, headers))
    {
      Call(ResourceUrl(Repos, []), "GET", CallArgs(None, None, None, None))
    }

    function CreateLocalRepo(name: string, kwargs: Kwargs): (r: Result<Request, ApiError>)
      reads this
      requires Valid()
      ensures RepeatsParameter(kwargs, {"self", "name"}) ==> r == Failure(TypeError(MultipleValuesMessage))
      ensures !RepeatsParameter(kwargs, {"self", "name"}) ==> r.Success? && r.value.verb == Post && r.value.url == api + "/repos"
      ensures !RepeatsParameter(kwargs, {"self", "name"}) ==>
        r.value.headers == JsonHeaders() && r.value.params == None && r.value.files == None
      ensures !RepeatsParameter(kwargs, {"self", "name"}) ==>
        r.value.verify == verifySsl && r.value.auth == auth && r.value.timeout == timeout
      ensures !RepeatsParameter(kwargs, {"self", "name"}) ==>
        r.value.data.Some? && r.value.data.value.Keys == {"Name"} + kwargs.Keys
      ensures !RepeatsParameter(kwargs, {"self", "name"}) ==>
        r.value.data.value["Name"] == if "Name" in kwargs then kwargs["Name"] else Str(name)
      ensures !RepeatsParameter(kwargs, {"self", "name"}) ==>
        forall k :: k in kwargs ==> r.value.data.value[k] == kwargs[k]
    {
      if RepeatsParameter(kwargs, {"self", "name"}) then Failure(TypeError(MultipleValuesMessage))
      else
        var data := Updated(map["Name" := Str(name)], kwargs);
        Call(ResourceUrl(Repos, []), "POST", CallArgs(None, Some(data), None, Some(JsonHeaders())))
    }

    function ShowLocalRepo(name: string): (r: Result<Request, ApiError>)
      reads this
      requires Valid()
      ensures r == Success(Sent(Get, api + Join(["repos", name]), None, None, None, headers))
    {
      Call(ResourceUrl(Repos, [name]), "GET", CallArgs(None, None, None, None))
    }

    function ShowRepoPackages(name: string, kwargs: Kwargs): (r: Result<Request, ApiError>)
      reads this
      requires Valid()
      ensures RepeatsParameter(kwargs, {"self", "name"}) ==> r == Failure(TypeError(MultipleValuesMessage))
      ensures !RepeatsParameter(kwargs, {"self", "name"}) ==>
        r == Success(Sent(Get, api + Join(["repos", name, "packages"]), Some(kwargs), None, None, headers))
    {
      if RepeatsParameter(kwargs, {"self", "name"}) then Failure(TypeError(MultipleValuesMessage))
      else
        Call(ResourceUrl(Repos, [name, "packages"]), "GET", CallArgs(Some(Updated(map[], kwargs)), None, None, None))
    }

    function EditLocalRepo(name: string, kwargs: Kwargs): (r: Result<Request, ApiError>)
      reads this
      requires Valid()
      ensures RepeatsParameter(kwargs, {"self", "name"}) ==> r == Failure(TypeError(MultipleValuesMessage))
      ensures !RepeatsParameter(kwargs, {"self", "name"}) ==>
        r == Success(Sent(Put, api + Join(["repos", name]), None, Some(kwargs), None, JsonHeaders()))
    {
      if RepeatsParameter(kwargs, {"self", "name"}) then Failure(TypeError(MultipleValuesMessage))
      else
        Call(ResourceUrl(Repos, [name]), "PUT", CallArgs(None, Some(Updated(map[], kwargs)), None, Some(JsonHeaders())))
    }

    function DeleteLocalRepo(name: string, kwargs: Kwargs): (r: Result<Request, ApiError>)
      reads this
      requires Valid()
      ensures RepeatsParameter(kwargs, {"self", "name"}) ==> r == Failure(TypeError(MultipleValuesMessage))
      ensures !RepeatsParameter(kwargs, {"self", "name"}) ==>
        r == Success(Sent(Delete, api + Join(["repos", name]), Some(kwargs), None, None, headers))
    {
      if RepeatsParameter(kwargs, {"self", "name"}) then Failure(TypeError(MultipleValuesMessage))
      else
        Call(ResourceUrl(Repos, [name]), "DELETE", CallArgs(Some(Updated(map[], kwargs)), None, None, None))
    }

    /** add_uploaded_pkg: `filename` is popped from the keyword arguments
        and, when truthy, becomes the last path segment. */
    function AddUploadedPkg(name: string, dirname: string, kwargs: Kwargs): (r: Result<Request, ApiError>)
      reads this
      requires Valid()
      ensures RepeatsParameter(kwargs, {"self", "name", "dirname"}) ==> r == Failure(TypeError(MultipleValuesMessage))
      ensures !RepeatsParameter(kwargs, {"self", "name", "dirname"}) ==> (
        var filename := if "filename" in kwargs then kwargs["filename"] else Null;
          (!Truthy(filename) ==> r == Success(Sent(Post, api + Join(["repos", name, "file", dirname]),
                                                   Some(kwargs - {"filename"}), None, None, headers)))
          && (Truthy(filename) && Display(filename).Some? ==>
                r == Success(Sent(Post, api + Join(["repos", name, "file", dirname, Display(filename).value]),
                                  Some(kwargs - {"filename"}), None, None, headers)))
          && (Truthy(filename) && Display(filename).None? ==> r == Failure(UnrenderedValue)))
    {
      if RepeatsParameter(kwargs, {"self", "name", "dirname"}) then Failure(TypeError(MultipleValuesMessage))
      else
        var (filename, rest) := Pop(kwargs, "filename");
        var params := Updated(map[], rest);
        if Truthy(filename) then
          match Display(filename)
          case None => Failure(UnrenderedValue)
          case Some(f) => Call(ResourceUrl(Repos, [name, "file", dirname, f]), "POST", CallArgs(Some(params), None, None, None))
        else
          Call(ResourceUrl(Repos, [name, "file", dirname]), "POST", CallArgs(Some(params), None, None, None))
    }

    function AddPkgByKey(name: string, kwargs: Kwargs): (r: Result<Request, ApiError>)
      reads this
      requires Valid()
      ensures RepeatsParameter(kwargs, {"self", "name"}) ==> r == Failure(TypeError(MultipleValuesMessage))
      ensures !RepeatsParameter(kwargs, {"self", "name"}) ==>
        r == Success(Sent(Post, api + Join(["repos", name, "packages"]), None, Some(kwargs), None, JsonHeaders()))
    {
      if RepeatsParameter(kwargs, {"self", "name"}) then Failure(TypeError(MultipleValuesMessage))
      else
        Call(ResourceUrl(Repos, [name, "packages"]), "POST", CallArgs(None, Some(Updated(map[], kwargs)), None, Some(JsonHeaders())))
    }

    function DeletePkgByKey(name: string, kwargs: Kwargs): (r: Result<Request, ApiError>)
      reads this
      requires Valid()
      ensures RepeatsParameter(kwargs, {"self", "name"}) ==> r == Failure(TypeError(MultipleValuesMessage))
      ensures !RepeatsParameter(kwargs, {"self", "name"}) ==>
        r == Success(Sent(Delete, api + Join(["repos", name, "packages"]), None, Some(kwargs), None, JsonHeaders()))
    {
      if RepeatsParameter(kwargs, {"self", "name"}) then Failure(TypeError(MultipleValuesMessage))
      else
        Call(ResourceUrl(Repos, [name, "packages"]), "DELETE", CallArgs(None, Some(Updated(map[], kwargs)), None, Some(JsonHeaders())))
    }

    // ---------------------------------------------------------------
    // Packages and uploaded files
    // ---------------------------------------------------------------

    function ShowPkgByKey(key: string): (r: Result<Request, ApiError>)
      reads this
      requires Valid()
      ensures r == Success(Sent(Get, api + Join(["packages", key]), None, None, None, headers))
    {
      Call(ResourceUrl(Packages, [key]), "GET", CallArgs(None, None, None, None))
    }

    function GetDirs(): (r: Result<Request, ApiError>)
      reads this
      requires Valid()
      ensures r == Success(Sent(Get, api + Join(["files"]), None, None, None, headers))
    {
      Call(ResourceUrl(Files, []), "GET", CallArgs(None, None, None, None))
    }

    function GetFiles(dirname: string): (r: Result<Request, ApiError>)
      reads this
      requires Valid()
      ensures r == Success(Sent(Get, api + Join(["files", dirname]), None, None, None, headers))
    {
      Call(ResourceUrl(Files, [dirname]), "GET", CallArgs(None, None, None, None))
    }

    function DeleteDir(dirname: string): (r: Result<Request, ApiError>)
      reads this
      requires Valid()
      ensures r == Success(Sent(Delete, api + Join(["files", dirname]), None, None, None, headers))
    {
      Call(ResourceUrl(Files, [dirname]), "DELETE", CallArgs(None, None, None, None))
    }

    function DeleteFile(dirname: string, filename: string): (r: Result<Request, ApiError>)
      reads this
      requires Valid()
      ensures r == Success(Sent(Delete, api + Join(["files", dirname, filename]), None, None, None, headers))
    {
      Call(ResourceUrl(Files, [dirname, filename]), "DELETE", CallArgs(None, None, None, None))
    }

    /** upload_files: one multipart request carrying every file, in order. */
    function UploadFiles(dirname: string, files: FileArg): (r: Result<Request, ApiError>)
      reads this
      requires Valid()
      ensures r == Success(Sent(Post, api + Join(["files", dirname]), None, None, Some(UploadOf(files)), headers))
    {
      Call(ResourceUrl(Files, [dirname]), "POST", CallArgs(None, None, Some(UploadOf(files)), None))
    }

    // ---------------------------------------------------------------
    // Publish endpoints
    // ---------------------------------------------------------------

    function GetPublish(): (r: Result<Request, ApiError>)
      reads this
      requires Valid()
      ensures r == Success(Sent(Get, api + Join(["publish"]), None, None, None, headers))
    {
      Call(ResourceUrl(Resource.Publish, []), "GET", CallArgs(None, None, None, None))
    }

    /** publish: `prefix` leaves the body and becomes the one path segment
        after `publish` (empty when missing or falsy). */
    function Publish(kwargs: Kwargs): (r: Result<Request, ApiError>)
      reads this
      requires Valid()
      ensures RepeatsParameter(kwargs, {"self"}) ==> r == Failure(TypeError(MultipleValuesMessage))
      ensures !RepeatsParameter(kwargs, {"self"}) ==> (
        var prefix := if "prefix" in kwargs then kwargs["prefix"] else Null;
          match PrefixSegment(prefix)
          case Failure(e) => r == Failure(e)
          case Success(segment) =>
            r == Success(Sent(Post, api + Join(["publish", segment]), None, Some(kwargs - {"prefix"}), None, JsonHeaders())))
    {
      if RepeatsParameter(kwargs, {"self"}) then Failure(TypeError(MultipleValuesMessage))
      else
        var (prefix, rest) := Pop(kwargs, "prefix");
        match PrefixSegment(prefix)
        case Failure(e) => Failure(e)
        case Success(segment) =>
          Call(ResourceUrl(Resource.Publish, [segment]), "POST", CallArgs(None, Some(rest), None, Some(JsonHeaders())))
    }

    function UpdatePublish(distr: string, kwargs: Kwargs): (r: Result<Request, ApiError>)
      reads this
      requires Valid()
      ensures RepeatsParameter(kwargs, {"self", "distr"}) ==> r == Failure(TypeError(MultipleValuesMessage))
      ensures !RepeatsParameter(kwargs, {"self", "distr"}) ==> (
        var prefix := if "prefix" in kwargs then kwargs["prefix"] else Null;
          match PrefixSegment(prefix)
          case Failure(e) => r == Failure(e)
          case Success(segment) =>
            r == Success(Sent(Put, api + Join(["publish", segment, distr]), None, Some(kwargs - {"prefix"}), None, JsonHeaders())))
    {
      if RepeatsParameter(kwargs, {"self", "distr"}) then Failure(TypeError(MultipleValuesMessage))
      else
        var (prefix, rest) := Pop(kwargs, "prefix");
        match PrefixSegment(prefix)
        case Failure(e) => Failure(e)
        case Success(segment) =>
          Call(ResourceUrl(Resource.Publish, [segment, distr]), "PUT", CallArgs(None, Some(Updated(map[], rest)), None, Some(JsonHeaders())))
    }

    function DeletePublish(distr: string, kwargs: Kwargs): (r: Result<Request, ApiError>)
      reads this
      requires Valid()
      ensures RepeatsParameter(kwargs, {"self", "distr"}) ==> r == Failure(TypeError(MultipleValuesMessage))
      ensures !RepeatsParameter(kwargs, {"self", "distr"}) ==> (
        var prefix := if "prefix" in kwargs then kwargs["prefix"] else Null;
          match PrefixSegment(prefix)
          case Failure(e) => r == Failure(e)
          case Success(segment) =>
            r == Success(Sent(Delete, api + Join(["publish", segment, distr]), Some(kwargs - {"prefix"}), None, None, headers)))
    {
      if RepeatsParameter(kwargs, {"self", "distr"}) then Failure(TypeError(MultipleValuesMessage))
      else
        var (prefix, rest) := Pop(kwargs, "prefix");
        match PrefixSegment(prefix)
        case Failure(e) => Failure(e)
        case Success(segment) =>
          Call(ResourceUrl(Resource.Publish, [segment, distr]), "DELETE", CallArgs(Some(Updated(map[], rest)), None, None, None))
    }

    // ---------------------------------------------------------------
    // Snapshots
    // ---------------------------------------------------------------

    function GetSnapshots(kwargs: Kwargs): (r: Result<Request, ApiError>)
      reads this
      requires Valid()
      ensures RepeatsParameter(kwargs, {"self"}) ==> r == Failure(TypeError(MultipleValuesMessage))
      ensures !RepeatsParameter(kwargs, {"self"}) ==>
        r == Success(Sent(Get, api + Join(["snapshots"]), Some(kwargs), None, None, headers))
    {
      if RepeatsParameter(kwargs, {"self"}) then Failure(TypeError(MultipleValuesMessage))
      else
        Call(ResourceUrl(Snapshots, []), "GET", CallArgs(Some(Updated(map[], kwargs)), None, None, None))
    }

    function CreateSnapshotFromRepo(repName: string, kwargs: Kwargs): (r: Result<Request, ApiError>)
      reads this
      requires Valid()
      ensures RepeatsParameter(kwargs, {"self", "rep_name"}) ==> r == Failure(TypeError(MultipleValuesMessage))
      ensures !RepeatsParameter(kwargs, {"self", "rep_name"}) ==>
        r == Success(Sent(Post, api + Join(["repos", repName, "snapshots"]), None, Some(kwargs), None, JsonHeaders()))
    {
      if RepeatsParameter(kwargs, {"self", "rep_name"}) then Failure(TypeError(MultipleValuesMessage))
      else
        Call(ResourceUrl(Repos, [repName, "snapshots"]), "POST", CallArgs(None, Some(Updated(map[], kwargs)), None, Some(JsonHeaders())))
    }

    /** The source builds a copy of the keyword arguments but sends the
        arguments themselves; both have the same content. */
    function CreateSnapshotFromPkg(kwargs: Kwargs): (r: Result<Request, ApiError>)
      reads this
      requires Valid()
      ensures RepeatsParameter(kwargs, {"self"}) ==> r == Failure(TypeError(MultipleValuesMessage))
      ensures !RepeatsParameter(kwargs, {"self"}) ==>
        r == Success(Sent(Post, api + Join(["snapshots"]), None, Some(kwargs), None, JsonHeaders()))
    {
      if RepeatsParameter(kwargs, {"self"}) then Failure(TypeError(MultipleValuesMessage))
      else
        Call(ResourceUrl(Snapshots, []), "POST", CallArgs(None, Some(kwargs), None, Some(JsonHeaders())))
    }

    function UpdateSnapshot(snapName: string, kwargs: Kwargs): (r: Result<Request, ApiError>)
      reads this
      requires Valid()
      ensures RepeatsParameter(kwargs, {"self", "snap_name"}) ==> r == Failure(TypeError(MultipleValuesMessage))
      ensures !RepeatsParameter(kwargs, {"self", "snap_name"}) ==>
        r == Success(Sent(Put, api + Join(["snapshots", snapName]), None, Some(kwargs), None, JsonHeaders()))
    {
      if RepeatsParameter(kwargs, {"self", "snap_name"}) then Failure(TypeError(MultipleValuesMessage))
      else
        Call(ResourceUrl(Snapshots, [snapName]), "PUT", CallArgs(None, Some(Updated(map[], kwargs)), None, Some(JsonHeaders())))
    }

    function ShowSnapshot(snapName: string): (r: Result<Request, ApiError>)
      reads this
      requires Valid()
      ensures r == Success(Sent(Get, api + Join(["snapshots", snapName]), None, None, None, headers))
    {
      Call(ResourceUrl(Snapshots, [snapName]), "GET", CallArgs(None, None, None, None))
    }

    function DeleteSnapshot(snapName: string, kwargs: Kwargs): (r: Result<Request, ApiError>)
      reads this
      requires Valid()
      ensures RepeatsParameter(kwargs, {"self", "snap_name"}) ==> r == Failure(TypeError(MultipleValuesMessage))
      ensures !RepeatsParameter(kwargs, {"self", "snap_name"}) ==>
        r == Success(Sent(Delete, api + Join(["snapshots", snapName]), Some(kwargs), None, None, headers))
    {
      if RepeatsParameter(kwargs, {"self", "snap_name"}) then Failure(TypeError(MultipleValuesMessage))
      else
        Call(ResourceUrl(Snapshots, [snapName]), "DELETE", CallArgs(Some(Updated(map[], kwargs)), None, None, None))
    }

    function ShowSnapshotPackages(snapName: string, kwargs: Kwargs): (r: Result<Request, ApiError>)
      reads this
      requires Valid()
      ensures RepeatsParameter(kwargs, {"self", "snap_name"}) ==> r == Failure(TypeError(MultipleValuesMessage))
      ensures !RepeatsParameter(kwargs, {"self", "snap_name"}) ==>
        r == Success(Sent(Get, api + Join(["snapshots", snapName, "packages"]), Some(kwargs), None, None, headers))
    {
      if RepeatsParameter(kwargs, {"self", "snap_name"}) then Failure(TypeError(MultipleValuesMessage))
      else
        Call(ResourceUrl(Snapshots, [snapName, "packages"]), "GET", CallArgs(Some(Updated(map[], kwargs)), None, None, None))
    }

    function SnapshotsDiff(snapshot1: string, snapshot2: string): (r: Result<Request, ApiError>)
      reads this
      requires Valid()
      ensures r == Success(Sent(Get, api + Join(["snapshots", snapshot1, "diff", snapshot2]), None, None, None, headers))
    {
      Call(ResourceUrl(Snapshots, [snapshot1, "diff", snapshot2]), "GET", CallArgs(None, None, None, None))
    }

    // ---------------------------------------------------------------
    // Miscellaneous
    // ---------------------------------------------------------------

    function AptlyVersion(): (r: Result<Request, ApiError>)
      reads this
      requires Valid()
      ensures r == Success(Sent(Get, api + Join(["version"]), None, None, None, headers))
    {
      JoinOne("version");
      assert "/" + "version" == "/version";
      Call(api + "/version", "GET", CallArgs(None, None, None, None))
    }

    /** get_graph: the request it sends directly (not through `_call`) and
        the dictionary it returns; `path` defaults to `graph.<ext>`. */
    function GetGraph(path: string, ext: string): (r: (Request, map<string, string>))
      reads this
      requires Valid()
      ensures r.0 == Sent(Get, api + Join(["graph." + ext]), None, None, None, headers)
      ensures r.1.Keys == {"Path"}
      ensures path != "" ==> r.1["Path"] == path
      ensures path == "" ==> r.1["Path"] == "graph." + ext
    {
      var target := if path != "" then path else "graph." + ext;
      (Sent(Get, api + "/graph." + ext, None, None, None, headers), map["Path" := target])
    }
  }
}

# pyptly in Dafny

A model of pyptly, a Python client for the REST API of Aptly, the Debian
repository manager. The model covers two parts of the library:

- `pyptly/utils.py`: `prefix_sanitized`, which rewrites a publish prefix
  into the form Aptly expects in URLs. It runs three regular-expression
  substitutions in order. `response` returns the parsed JSON body, or
  `{'error': err}` when parsing fails.
- `pyptly/api.py`: the `Aptly` client. Its constructor checks the host,
  normalises it and builds the resource URL table. `_call` looks up the
  verb and defaults the headers. Every endpoint method fills in a fixed
  template: verb, URL path, query parameters, JSON body and headers.

The model does not send requests. `_call` returns a request descriptor
(`Api.Request`) that holds the verb, URL, params, body, upload, headers
and the client's TLS, auth and timeout settings. Python's exceptions
become `Failure` values: `ValueError` for an empty host, `KeyError` for
an unknown verb, `TypeError` for a non-string prefix or for a keyword
argument that repeats one of the method's parameters. Keyword arguments
are a `map<string, Value>`. `dict.update` and `dict(a, **b)` are
right-biased map unions.

Files:

- `values.dfy` (module `Values`): Python values, truthiness, `str()` of scalars, `Option`/`Result`.
- `utils.dfy` (module `Utils`): the sanitiser; a one-pass reference
  encoding proved equal to it outside the lone-dot case; a left-to-right
  scanner proved equal to the underscore-doubling step; and `response`.
- `paths.dfy` (module `Paths`): URL paths as joined segments, and the split that inverts the join.
- `api.dfy` (module `Api`): the `Aptly` class with its constructor, `_call` and every endpoint.
- `api_properties.dfy` (module `ApiProperties`): lemmas that span
  several calls or inputs.

In these places the code behaves in ways a reader may not expect, and the model follows the code:

- Path segments are inserted verbatim. There is no percent-encoding.
- In JSON-body calls, `self.headers` overrides the call's own
  `Content-Type`. The call's value does not win.
- A host made only of slashes is stored as `http://`, with a trailing
  slash. The stored host is not always free of trailing slashes.
- With no prefix, the publish methods keep an empty path segment
  (`.../publish/`, `.../publish//<distr>`). They do not drop it.
- With no keyword arguments, every JSON-body endpoint except
  `create_local_repo` still sends the empty object `{}`;
  `create_local_repo` sends `{'Name': name}`. No call omits its body.
- The error value of `response` holds only the parse error. It has no
  status code and no context message.

## Model

| member | source | states |
|---|---|---|
| `Utils.ReplaceLoneDot` | pyptly/utils.py:13-14 | `^\.$` matches only "." and ".\n" (Python's `$` before a final newline); these become ":." and ":.\n", and every other input is unchanged |
| `Utils.Flatten` | pyptly/utils.py:17-18 | the output has the input's length; each `/` becomes `_`, every other character is kept in place, and no `/` remains |
| `Utils.PrefixSanitized` | pyptly/utils.py:9-19 | total on every string; the result never contains `/` |
| `Utils.SanitizedIsEncoding` | pyptly/utils.py:14-18 | for every input except the lone dot, the three ordered rewrites equal a one-pass encoding judged on the original input: `/` becomes `_`, a lone `_` becomes `__`, anything else is kept; so doubling sees the underscores before any slash is flattened |
| `Utils.SanitizedNonEmpty` | pyptly/utils.py:13-19 | a non-empty prefix never sanitises to the empty string |
| `Utils.SanitizedLength` | pyptly/utils.py:14-18 | except for the lone dot, output length equals input length plus the number of lone underscores |
| `Utils.SanitizedKeepsOtherCharacters` | pyptly/utils.py:14-18 | except for the lone dot, the characters other than `_` and `/` come out unchanged and in their order |
| `Utils.SanitizedPlainUnchanged` | pyptly/utils.py:14 | an input with no `_` or `/` is returned unchanged, except "." (and ".\n"), which gain a leading colon |
| `Utils.SanitizedWithoutUnderscore` | pyptly/utils.py:14-18 | without underscores, only the dot rewrite and the slash flattening act |
| `Utils.DoubleLoneFromIsScan` | pyptly/utils.py:16 | the positional lookaround rewrite equals a left-to-right scan that remembers whether the previous character was `_` |
| `Utils.ScanDoubleIdempotent` | pyptly/utils.py:16 | the left-to-right underscore scanner, from either start state, leaves its own output unchanged |
| `Utils.DoubleLone` | pyptly/utils.py:16 | the second substitution (every lone `_` doubled) agrees with the left-to-right scanner, and a string without `_` passes through unchanged |
| `Utils.DoubleLoneIdempotent` | pyptly/utils.py:16 | the second substitution leaves its own output unchanged |
| `Utils.SanitizedIdempotentWithoutSlash` | pyptly/utils.py:9-19 | sanitising a slash-free prefix twice gives the same result as sanitising it once |
| `Utils.LoneDotPreimage` | pyptly/utils.py:16 | only a lone dot turns into a lone dot under the underscore rewrite |
| `Utils.LoneDotExample` | tests/test_utils.py:6 | "." becomes ":." |
| `Utils.TrailingDotExample` | tests/test_utils.py:7 | "a." is returned unchanged |
| `Utils.InnerDotExample` | tests/test_utils.py:8 | "a.a" is returned unchanged |
| `Utils.LeadingDotExample` | tests/test_utils.py:9 | ".a" is returned unchanged |
| `Utils.ColonDotExample` | tests/test_utils.py:10 | ":." is returned unchanged |
| `Utils.DotDigitExample` | tests/test_utils.py:11 | ".1" is returned unchanged |
| `Utils.TwoDotsExample` | tests/test_utils.py:12 | ".." is returned unchanged |
| `Utils.OneUnderscoreExample` | tests/test_utils.py:13 | "_" becomes "__" |
| `Utils.TrailingUnderscoreExample` | tests/test_utils.py:14 | "a_" becomes "a__" |
| `Utils.LeadingUnderscoreExample` | tests/test_utils.py:15 | "_a" becomes "__a" |
| `Utils.UnderscorePairExample` | tests/test_utils.py:16 | "__" is returned unchanged |
| `Utils.PairBeforeDotExample` | tests/test_utils.py:17 | "__." is returned unchanged |
| `Utils.UnderscoresAroundExample` | tests/test_utils.py:18 | "_a_" becomes "__a__" |
| `Utils.LeadingPairExample` | tests/test_utils.py:19 | "__a" is returned unchanged |
| `Utils.TrailingPairExample` | tests/test_utils.py:20 | "a__" is returned unchanged |
| `Utils.UnderscoresAroundDotExample` | tests/test_utils.py:21 | "_._" becomes "__.__" |
| `Utils.OneSlashExample` | tests/test_utils.py:22 | "/" becomes "_" |
| `Utils.TrailingSlashExample` | tests/test_utils.py:23 | "a/" becomes "a_" |
| `Utils.LeadingSlashExample` | tests/test_utils.py:24 | "/a" becomes "_a" |
| `Utils.SlashUnderscoreExample` | tests/test_utils.py:25 | "/_" becomes "___" |
| `Utils.UnderscoreSlashExample` | tests/test_utils.py:26 | "_/" becomes "___" |
| `Utils.SlashDashExample` | tests/test_utils.py:27 | "/-" becomes "_-" |
| `Utils.DashSlashExample` | tests/test_utils.py:28 | "-/" becomes "-_" |
| `Utils.DotSlashDotExample` | tests/test_utils.py:29 | "./." becomes "._." |
| `Utils.TwoSlashesExample` | tests/test_utils.py:30 | "//" becomes "__" |
| `Utils.TwoSlashesUnderscoreExample` | tests/test_utils.py:31 | "//_" becomes "____" |
| `Utils.Response` | pyptly/utils.py:22-29 | a parsed body is returned unchanged; a parse failure gives a map with the single key `error` that holds the exception |
| `Utils.ResponseDistinguishesOutcomes` | pyptly/utils.py:25-29 | for JSON bodies, the result has the failure shape exactly when parsing failed, and the error message can be read back |
| `Values.Display` | pyptly/api.py:172-173 | `str()` of a string is the string itself; lists, dictionaries and exception objects are the values without a modelled rendering |
| `Values.NatToStringRoundTrip` | pyptly/api.py:172-173 | the decimal rendering used by `str()` on integers reads back as the same number |
| `Paths.SplitJoin` | pyptly/api.py:89 | path segments without slashes can be read back from the joined path |
| `Paths.JoinInjective` | pyptly/api.py:89 | different lists of slash-free segments give different paths |
| `Api.LookupVerb` | pyptly/api.py:38-45 | `verb_map[verb]` finds exactly GET, POST, PUT and DELETE, each under its own name; any other verb is missing |
| `Api.LookupVerbName` | pyptly/api.py:38-41 | every verb is found under its own name |
| `Api.ResourceNameInjective` | pyptly/api.py:27-31 | the five resource names are distinct |
| `Api.RStrip` | pyptly/api.py:20 | `rstrip('/')` returns a prefix of the input that does not end in `/`; every removed character is `/` |
| `Api.NormalizedHost` | pyptly/api.py:20-24 | the stored host starts with `http://` or `https://`; a host that has a scheme once trailing slashes are stripped is kept as stripped, any other stripped host gets `http://` in front |
| `Api.Updated` | pyptly/api.py:72-74 | `dict.update`: the keys are the union; a caller key replaces the base value, and other base entries are kept |
| `Api.Pop` | pyptly/api.py:165 | `kwargs.pop(key, None)` gives the value, or None when the key is absent, and leaves every other entry as it was |
| `Api.PrefixSegment` | pyptly/api.py:331-333 | a falsy prefix gives the empty segment; a string prefix gives its sanitised form; a truthy non-string raises TypeError; the segment never contains `/`, and it is empty exactly when the prefix was falsy |
| `Api.UrlTableEntries` | pyptly/api.py:26-31 | the table has an entry for each of the five kinds: the API root, `/`, and the kind's name |
| `Api.UploadOf` | pyptly/api.py:304-307 | a list of paths becomes `('file', path)` pairs in the caller's order; a single path becomes `{'file': path}` |
| `Api.Aptly.Create` | pyptly/api.py:14-32 | a missing or empty host raises ValueError; otherwise a fresh valid client with the normalised host, empty headers and the given auth, TLS flag and timeout |
| `Api.Aptly.constructor` | pyptly/api.py:15-32 | past the emptiness check, the fields are set: the normalised host, `api` = host + `/api`, and the URL table under it |
| `Api.Aptly.ResourceUrl` | pyptly/api.py:26-31 | a resource URL is the API root, the resource name and then the segments, each after a `/`; it starts with `<host>/api/` |
| `Api.Aptly.Call` | pyptly/api.py:35-51 | fails with KeyError unless the verb is one of the four; otherwise it sends `self.headers` when no headers are given and the given headers unchanged, with params, data and files as passed, and the client's TLS, auth and timeout settings |
| `Api.Aptly.JsonHeaders` | pyptly/api.py:71 | the keys are the client's headers plus `Content-Type`; a `Content-Type` among the client's headers wins over `application/json` |
| `Api.Aptly.GetLocalRepos` | pyptly/api.py:54-62 | GET `<api>/repos` with the client's headers |
| `Api.Aptly.CreateLocalRepo` | pyptly/api.py:65-81 | POST `<api>/repos` with JSON headers; the body has exactly `Name` plus the caller's keys, and a caller `Name` replaces the positional name; the client's TLS, auth and timeout settings go with it; a keyword argument named `self`, `name` raises TypeError instead |
| `Api.Aptly.ShowLocalRepo` | pyptly/api.py:84-91 | GET `<api>/repos/<name>` |
| `Api.Aptly.ShowRepoPackages` | pyptly/api.py:94-108 | GET `<api>/repos/<name>/packages` with the keyword arguments as query; a keyword argument named `self`, `name` raises TypeError instead |
| `Api.Aptly.EditLocalRepo` | pyptly/api.py:111-127 | PUT `<api>/repos/<name>` with the keyword arguments as JSON body; a keyword argument named `self`, `name` raises TypeError instead |
| `Api.Aptly.DeleteLocalRepo` | pyptly/api.py:130-147 | DELETE `<api>/repos/<name>` with the keyword arguments as query; a keyword argument named `self`, `name` raises TypeError instead |
| `Api.Aptly.AddUploadedPkg` | pyptly/api.py:150-183 | POST with `filename` removed from the query; `.../repos/<name>/file/<dir>/<filename>` when filename is truthy, `.../repos/<name>/file/<dir>` otherwise; a keyword argument named `self`, `name`, `dirname` raises TypeError instead |
| `Api.Aptly.AddPkgByKey` | pyptly/api.py:186-211 | POST `<api>/repos/<name>/packages` with the keyword arguments as JSON body; a keyword argument named `self`, `name` raises TypeError instead |
| `Api.Aptly.DeletePkgByKey` | pyptly/api.py:214-234 | DELETE `<api>/repos/<name>/packages` with the keyword arguments as JSON body; a keyword argument named `self`, `name` raises TypeError instead |
| `Api.Aptly.ShowPkgByKey` | pyptly/api.py:237-247 | GET `<api>/packages/<key>`, with the key inserted verbatim |
| `Api.Aptly.GetDirs` | pyptly/api.py:250-256 | GET `<api>/files` |
| `Api.Aptly.GetFiles` | pyptly/api.py:259-267 | GET `<api>/files/<dir>` |
| `Api.Aptly.DeleteDir` | pyptly/api.py:270-278 | DELETE `<api>/files/<dir>` |
| `Api.Aptly.DeleteFile` | pyptly/api.py:281-290 | DELETE `<api>/files/<dir>/<file>` |
| `Api.Aptly.UploadFiles` | pyptly/api.py:293-313 | one POST to `<api>/files/<dir>` carrying every file, in the caller's order |
| `Api.Aptly.GetPublish` | pyptly/api.py:316-322 | GET `<api>/publish` |
| `Api.Aptly.Publish` | pyptly/api.py:325-342 | POST `<api>/publish/<segment>`; the body is the keyword arguments without `prefix`, with JSON headers; a truthy non-string prefix fails; a keyword argument named `self` raises TypeError instead |
| `Api.Aptly.UpdatePublish` | pyptly/api.py:345-369 | PUT `<api>/publish/<segment>/<distr>`; the body is the keyword arguments without `prefix`; a keyword argument named `self`, `distr` raises TypeError instead |
| `Api.Aptly.DeletePublish` | pyptly/api.py:372-392 | DELETE `<api>/publish/<segment>/<distr>`; the query is the keyword arguments without `prefix`; the client's headers; a keyword argument named `self`, `distr` raises TypeError instead |
| `Api.Aptly.GetSnapshots` | pyptly/api.py:395-408 | GET `<api>/snapshots` with the keyword arguments as query; a keyword argument named `self` raises TypeError instead |
| `Api.Aptly.CreateSnapshotFromRepo` | pyptly/api.py:411-427 | POST `<api>/repos/<name>/snapshots` with the keyword arguments as JSON body; a keyword argument named `self`, `rep_name` raises TypeError instead |
| `Api.Aptly.CreateSnapshotFromPkg` | pyptly/api.py:430-449 | POST `<api>/snapshots` with the keyword arguments as JSON body; a keyword argument named `self` raises TypeError instead |
| `Api.Aptly.UpdateSnapshot` | pyptly/api.py:452-467 | PUT `<api>/snapshots/<name>` with the keyword arguments as JSON body; a keyword argument named `self`, `snap_name` raises TypeError instead |
| `Api.Aptly.ShowSnapshot` | pyptly/api.py:470-475 | GET `<api>/snapshots/<name>` |
| `Api.Aptly.DeleteSnapshot` | pyptly/api.py:478-494 | DELETE `<api>/snapshots/<name>` with the keyword arguments as query; a keyword argument named `self`, `snap_name` raises TypeError instead |
| `Api.Aptly.ShowSnapshotPackages` | pyptly/api.py:497-511 | GET `<api>/snapshots/<name>/packages` with the keyword arguments as query; a keyword argument named `self`, `snap_name` raises TypeError instead |
| `Api.Aptly.SnapshotsDiff` | pyptly/api.py:514-522 | GET `<api>/snapshots/<left>/diff/<right>` |
| `Api.Aptly.AptlyVersion` | pyptly/api.py:525-531 | GET `<api>/version` |
| `Api.Aptly.GetGraph` | pyptly/api.py:534-552 | GET `<api>/graph.<ext>` with the client's headers; returns `{'Path': path}`, where an empty path becomes `graph.<ext>` |
| `ApiProperties.NormalizedHostIgnoresTrailingSlash` | pyptly/api.py:20 | one more trailing slash on the host does not change the stored host |
| `ApiProperties.NormalizedHostKeepsScheme` | pyptly/api.py:21-22 | a host that already has a scheme and no trailing slash is stored unchanged |
| `ApiProperties.NormalizedHostAddsHttp` | pyptly/api.py:23-24 | a host with neither scheme and no trailing slash gets `http://` in front |
| `ApiProperties.NormalizedHostOfSlashes` | pyptly/api.py:18-24 | a host made only of slashes passes the emptiness check and is stored as `http://` |
| `ApiProperties.NormalizedHostTrailingSlash` | pyptly/api.py:20-24 | the stored host ends in `/` exactly when stripping left nothing |
| `ApiProperties.NormalizedHostIdempotent` | pyptly/api.py:20-24 | normalising a stored host again changes nothing, unless stripping had left nothing |
| `ApiProperties.NormalizedHostSchemeOnly` | pyptly/api.py:20-24 | a bare `http://` or `https://` loses its slashes and is then read as a host name: it becomes `http://http:` or `http://https:`; so the `http://` stored for an all-slash host is not a fixed point |
| `ApiProperties.ClientUrlTable` | pyptly/api.py:26-31 | each of a valid client's five table entries is `<host>/api/<kind>` |
| `ApiProperties.ResourceUrlInjective` | pyptly/api.py:89 | with slash-free segments, the URL determines both the resource kind and the segments |
| `ApiProperties.UnescapedNameReachesOtherEndpoint` | pyptly/api.py:84-108 | names are not escaped: showing the repository `<name>/packages` requests the same URL as listing the packages of `<name>` |
| `ApiProperties.PrefixNeverSent` | pyptly/api.py:331-391 | `prefix` never appears in the body of publish/update_publish or in the query of delete_publish |
| `ApiProperties.PublishPrefixIsOneSegment` | pyptly/api.py:325-343 | publishing with a non-empty string prefix, even one with slashes, succeeds and its path after `publish` is exactly one segment, the sanitised prefix |
| `ApiProperties.UpdatePublishPrefixIsOneSegment` | pyptly/api.py:345-393 | updating and deleting a publication under a string prefix both succeed on the same url, whose path is `publish`, the sanitised prefix as one segment, and the distribution |
| `ApiProperties.PublishWithoutPrefix` | pyptly/api.py:331-338 | with no truthy prefix, publish posts to `<api>/publish/`, keeping the empty segment |
| `ApiProperties.UpdatePublishWithoutPrefix` | pyptly/api.py:354-389 | with no truthy prefix, update_publish and delete_publish address `<api>/publish//<distr>` |
| `ApiProperties.PublishNonStringPrefixFails` | pyptly/api.py:331-333 | a truthy non-string prefix makes all three publish methods fail with TypeError |
| `ApiProperties.AddUploadedPkgDropsFilename` | pyptly/api.py:165-183 | for any `filename` that renders as text (None, bool, int or str), the request is a POST whose query is exactly the keyword arguments without `filename` |
| `ApiProperties.AddUploadedPkgFileTarget` | pyptly/api.py:170-176 | a non-empty string filename without slashes is read back as the fifth segment: `repos`, name, `file`, directory, file |
| `ApiProperties.AddUploadedPkgDirTarget` | pyptly/api.py:177-183 | with a falsy or missing filename, the segments are `repos`, name, `file` and the directory |
| `ApiProperties.JsonBodyContentType` | pyptly/api.py:65-81 | create_local_repo sends `application/json` exactly when the client's headers have no other `Content-Type`; edit_local_repo and update_snapshot send the same headers |
| `ApiProperties.PlainCallsUseClientHeaders` | pyptly/api.py:43-44 | calls without their own headers send the client's headers unchanged |
| `ApiProperties.CreateThenDeleteRepo` | pyptly/api.py:65-147 | creating a repository with no keyword arguments POSTs `{'Name': name}` to `<api>/repos`; deleting it sends DELETE to `<api>/repos/<name>` with an empty query |
| `ApiProperties.GraphPathDefault` | pyptly/api.py:541-552 | an empty path is reported as `graph.<ext>` |
| `ApiProperties.RepeatedNameFails` | pyptly/api.py:65-234 | every endpoint with a positional `name` raises TypeError, and sends nothing, when the keyword arguments also carry `name` |
| `ApiProperties.RepeatedOtherParameterFails` | pyptly/api.py:325-511 | a keyword `distr`, `rep_name` or `snap_name` makes the endpoints that take that parameter raise TypeError, and a keyword `self` does the same for the endpoints that take only keywords |

## Left out

- HTTP transport: sending requests, TLS verification, timeouts and the
  `auth` tuple. These are calls into the `requests` library. `_call`
  returns the request it would send.
- JSON encoding of bodies and decoding of responses. The body is kept as
  a map. `Utils.Response` takes the parser's outcome as a parameter.
- Opening files in `upload_files`, and the status check and
  chunk-writing loop in `get_graph`. Both are filesystem I/O. A file
  handle is represented by its path.
- Api.Aptly.AddUploadedPkg: a truthy `filename` that is a list, a
  dictionary or an exception object is put into the URL by Python's
  `str()`. The model returns `UnrenderedValue` instead, because it does
  not model Python's rendering of containers and exceptions.
- Api.Aptly.Create: a truthy host that is not a string fails in
  `rstrip` in Python. The host is modelled as an optional string, so
  this case does not arise.
- The text of the repeated-keyword TypeError. Every such error carries
  the one fixed text `MultipleValuesMessage`. Python's message also names the function and the
  parameter (`update_publish() got multiple values for argument
  'distr'`). The model only distinguishes the error kind.
- Python default arguments (`auth=None, verify_ssl=True, timeout=None`
  in the constructor, `path=''` and `ext='png'` in `get_graph`). Every
  argument is explicit in the model; a caller passes the default value.
- Positional path arguments (names, keys, directories, distributions)
  are modelled as strings. Python would format any object with `str()`.
- Python floats, tuples and bytes are not in `Values.Value`. The timeout
  is modelled as an optional integer.
- The `@property` endpoints (`get_local_repos`, `get_dirs`,
  `get_publish`, `aptly_version`) are modelled as functions with no
  arguments. Attribute access is not modelled.
- `self.headers` is set to `{}` by the constructor. It is a public
  attribute, so it is modelled as a mutable field that callers may
  reassign. No method of the class changes it.
- The `meta` field checked by the response test. This revision's `response`
  takes no such parameter.
- The live-server tests in tests/test_api.py and tests/conf.py, and the
  packaging in setup.py.
- A Basic authentication header built from a user name and password.
  This revision passes `auth` to the transport unchanged.

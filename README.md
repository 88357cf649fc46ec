# Galyleo publication server: a Dafny model

The publication server lets a user register and publish named dashboard documents
(JSON) into a per-user folder of a blob bucket, and answers the blob names and public
URLs of those dashboards. It exists in two variants:

- `server.py` (Flask): a user registry (records of kind `User`, keyed by the lower-cased
  user name, holding a folder number `count` and the `userid`) and a bucket of blobs named
  `dashboards/<count>/<name>`, with `dashboards/0` for anonymous publishing.
- `node/server.js` (Express): one directory `static/dashboards` of dashboard files, with
  publishing gated by a shared `studio_secret`.

The model keeps the stores abstract: the registry is a `map<string, UserRecord>`, the
bucket a `map<string, Blob>`, the directory a `map<string, string>`. The three routes that
change a store are methods of a class (`Publication.PublicationServer.AddUser`,
`Publication.PublicationServer.AddUserDashboard`, `NodeServer.DashboardServer.AddDashboard`);
everything else is a function over the store's contents. Every `abort(400, ...)` and every
400 response is an `Outcome.Error` variant, and so is every runtime exception the code can
reach:

- `add_user` calls `max` on the counts of all records, which raises ValueError when
  the registry is empty (`Error.ValueError`). So the registry must be seeded with at least
  one record outside this code.
- `_user_folder_prefix_or_default` with a non-empty name that is not registered
  subscripts `None` and raises TypeError (`Error.TypeError`). Its comment (server.py:82)
  says it returns 0 for an unknown user; the code has no such fallback.
- A truthy `user` in the `/add_dashboard` body that is not a string has no `.lower()`
  (`Error.AttributeError`).
- The Express success branch writes the file, sets the implicit global `dashboardFile`,
  and then builds its reply from `publishURL`, an identifier that is never declared (line 38
  declares `publishUrl`). The resulting ReferenceError is modelled as
  `Error.ReferenceError("publishURL")`, so no admitted request whose write succeeds receives a reply.

server.py has no secret check and does not create users on publication: a
dashboard for an unknown user fails with TypeError rather than provisioning that user.
Only the Express variant examines a secret.

Serialisation (`json.dumps`, `JSON.stringify`) is an uninterpreted function-valued field
of each server class. So is the language's own conversion of a non-string JSON value
inside an f-string or template literal (Python's `str`, JavaScript's `String`). String
values render as themselves (`Json.Render`). Python and JavaScript truthiness are modelled
separately (`Json.PyTruthy`, `Json.JsTruthy`), because they differ on empty arrays and objects.

Modules: `Outcome` (Option, Result, errors), `Text` (ASCII lower-casing, decimal rendering
and parsing), `Json` (request values), `Registry` (lookup and numbering of users), `Paths`
(folders, blob names, URLs, the get routes), `Listing` (the blob listing), `Publication`
(the Flask server class and the publication checks), `NodeServer` (the Express variant).

## Model

| member | source | states |
|---|---|---|
| `Text.Lower` | server.py:37 | lower-casing keeps the length, maps each upper-case ASCII letter to its lower-case counterpart, keeps every other character, and leaves no upper-case letter |
| `Text.LowerIdempotent` | server.py:63-64 | lower-casing an already lower-cased name changes nothing, so `add_user` looks up the name it stores |
| `Text.IntToStringRoundTrip` | server.py:79 | the decimal rendering of a count parses back to that count |
| `Text.IntToStringInjective` | server.py:79 | different counts render differently |
| `Registry.FindUser` | server.py:35-39 | a record is found exactly when the lower-cased name is a key, and it is that key's record |
| `Registry.FindUserIgnoresCase` | server.py:37-39 | a name and its lower-case form find the same record |
| `Registry.FindUserNamesRecord` | server.py:70-72 | in a valid registry the record found carries the lower-cased name as `userid` |
| `Registry.FindUserOrAbort` | server.py:42-47 | answers the stored record when the name is registered, otherwise the 400 naming the user and the route |
| `Registry.MaxCount` | server.py:67-69 | ValueError exactly on an empty registry; otherwise a count that some record has and no record exceeds |
| `Registry.AddKeepsRegistryValid` | server.py:67-73 | a new canonical name with number max + 1 keeps keys canonical, `userid` equal to the key, and counts distinct |
| `Publication.PublicationServer.AddUser` | server.py:51-74 | a missing form field or an already registered name is a 400 and an empty registry is ValueError, each leaving the registry unchanged; on success exactly one record is added under the lower-cased name, with that `userid` and count max + 1 (above every existing count), all others unchanged, and registry validity is kept |
| `Paths.UserFolderPrefix` | server.py:76-79 | `dashboards/<count>` for a registered user, otherwise the 400 of the lookup; no anonymous fallback |
| `Paths.FoldersOfDistinctUsersDiffer` | server.py:76-79 | in a valid registry two different users never share a folder |
| `Paths.UserFolderPrefixOrDefault` | server.py:81-88 | `dashboards/0` for an absent or falsy name; AttributeError for a truthy non-string; `dashboards/<count>` for a registered name (`dashboards/0` when the count is 0); TypeError for a non-empty unregistered name |
| `Paths.PrefixOrDefaultAgreesForRegistered` | server.py:76-88 | for a registered non-empty name both folder resolvers give the same folder |
| `Paths.MakeUrl` | server.py:100-101 | the URL is `https://galyleo.app/` followed by exactly the blob name |
| `Paths.BlobOfUrl` | server.py:100-101 | recovers the blob name from any URL under `https://galyleo.app/` |
| `Paths.UrlRoundTrip` | server.py:100-101 | `BlobOfUrl` and `MakeUrl` are inverse to each other |
| `Paths.NameFromRequest` | server.py:134-140 | a 400 naming the route when `name` is absent or empty; `dashboards/0/<name>` without a user; `dashboards/<count>/<name>` for a registered user; TypeError for an unknown user |
| `Paths.GetDashboard` | server.py:143-154 | answers unchanged the path `_get_name_from_request` resolves for `/get_dashboard`: inside `dashboards/` and ending in `/<name>`, or a 400 for a missing name |
| `Paths.GetDashboardLink` | server.py:157-166 | answers `MakeUrl` of the path `_get_name_from_request` resolves for `/get_dashboard_url`, a URL under `https://galyleo.app/dashboards/` ending in `/<name>`; otherwise exactly that resolver's error (the 400 for a missing name, TypeError for a non-empty unregistered user) |
| `Paths.LinkIsUrlOfDashboard` | server.py:152-166 | the link route succeeds exactly when the get route does, with `MakeUrl` of the same path |
| `Listing.ListBlobs` | server.py:32-33 | the listing has at most as many entries as blobs and no empty entry |
| `Listing.ListBlobsAppend` | server.py:33 | listing distributes over concatenation, so the listing keeps the blob order |
| `Listing.ListBlobsSkipsFolderMarkers` | server.py:32-33 | a blob named exactly the prefix, or the prefix and `/`, contributes nothing |
| `Listing.ListBlobsSound` | server.py:33 | each entry is `name[len(prefix)+1:]` of a blob that starts with the prefix and is longer than `len(prefix)+1` |
| `Listing.ListBlobsComplete` | server.py:33 | each such blob is listed, stripped |
| `Listing.ListBlobsLeaksSiblingFolder` | server.py:32-33 | for prefix `dashboards/1`, the blob `dashboards/12/chart` is listed as `/chart` |
| `Listing.ListBlobsUnder` | server.py:32-33 | the intended listing: the stripped names of the blobs inside `prefix/`, at most one per blob |
| `Listing.ListBlobsUnderExact` | server.py:32-33 | a name is listed exactly when it is non-empty and `prefix/name` is a blob |
| `Listing.ListingsAgreeWithoutSiblings` | server.py:32-33 | when every blob that passes the filter has `/` after the prefix, the code as written and the intended listing agree |
| `Listing.ListBlobsMembership` | server.py:33 | a name is listed exactly when some blob passes the filter and strips to it |
| `Listing.ListUserDashboards` | server.py:90-98 | a 400 for an unknown user; for a registered user, exactly the names `n` such that some blob starts with `dashboards/<count>`, is longer than that prefix plus one, and strips to `n` (the filter as written, sibling folders included) |
| `Listing.ListUserDashboardsIntended` | server.py:90-98 | the route with the corrected filter: a 400 for an unknown user; otherwise exactly the non-empty names `n` with a blob `dashboards/<count>/n` |
| `Listing.ListUserDashboardsLeaks` | server.py:90-98 | for user `alice` with count 1 and the blob `dashboards/12/chart`, the route lists `/chart`, and the intended route lists nothing |
| `Publication.Missing` | server.py:118-121 | the missing set is the part of {name, dashboard} that the body lacks; it is empty exactly when both are present |
| `Publication.PublishTarget` | server.py:113-127 | a content type other than exactly `application/json` is a 400; then a missing required field is a 400 naming the missing set; then the folder resolver's failure; otherwise the blob name `<folder>/<name>` |
| `Publication.PublishMatchesGetRoutes` | server.py:122-131 | for a non-empty string name and the same user, publishing targets the very path `get_dashboard` resolves, and answers the URL `get_dashboard_url` answers |
| `Publication.PublishedDashboardIsListed` | server.py:127-131 | a dashboard published under a non-empty name for a non-empty registered user name, once in the bucket listing, is listed under that name by the route as written |
| `Publication.PublicationServer.AddUserDashboard` | server.py:103-131 | a failed check is answered with its error and writes nothing; otherwise exactly the one blob `<folder>/<name>` is set to the serialised dashboard with content type `application/json` (overwriting), no other blob changes, and the answer is `MakeUrl` of that blob name |
| `NodeServer.ListDashboards` | node/server.js:48-58 | the list has at most as many entries as the directory and each ends in `.gd.json` |
| `NodeServer.ListDashboardsAppend` | node/server.js:54 | the filter distributes over concatenation, so the directory order is kept |
| `NodeServer.ListDashboardsExact` | node/server.js:54 | an entry is listed exactly when it is in the directory and ends in `.gd.json` |
| `NodeServer.CheckRequest` | node/server.js:69-77 | a 400 for missing fields when `name` or `dashboard` is falsy, before the secret is examined; then `Invalid studio_secret` unless the secret is truthy and strictly equal to the configured one; otherwise admitted |
| `NodeServer.SecretGateCloses` | node/server.js:77 | with no configured secret nothing is admitted; an admitted request carries exactly the configured, non-empty secret |
| `NodeServer.FilePath` | node/server.js:36 | the path string is `static/dashboards/<name>`, so it begins with `static/` |
| `NodeServer.DashboardFileIsServedPath` | node/server.js:36-39 | as strings, the dashboard URL is `http://localhost:8080/dashboards/<name>`, which is the write path string with its leading `static` replaced by the server base |
| `NodeServer.DashboardServer.AddDashboard` | node/server.js:69-97 | a rejected request changes nothing; an admitted one overwrites exactly the key `static/dashboards/<name>` of the file map with the serialised dashboard, sets `dashboardFile` to the dashboard URL, and then fails with the ReferenceError for `publishURL` |

## Findings

| source | as written | input that shows it | evidently intended | confidence | as-written member | corrected member |
|---|---|---|---|---|---|---|
| server.py:32-33 | keeps blobs that start with the prefix string, so a folder number that is a decimal prefix of another lets one user's listing show another user's dashboards | prefix `dashboards/1` and the blob `dashboards/12/chart`, which is listed as `/chart` | list only blobs inside `prefix/` (the `+ 1` in `prefix_len` accounts for that separator) | high, not executed | `Listing.ListBlobs` (`Listing.ListBlobsLeaksSiblingFolder`, `Listing.ListUserDashboardsLeaks`) | `Listing.ListBlobsUnder` (`Listing.ListBlobsUnderExact`), and the route over it `Listing.ListUserDashboardsIntended` |

## Left out

- HTTP plumbing: routing, request parsing, `jsonify`, CORS middleware, static-file serving
  and the route descriptions (`show_routes`, `getRoutesInfo`) are not modelled. A request
  is given to the model as its decoded parts (form field, content type, JSON body as a map,
  query parameters).
- A JSON body that is not an object, malformed JSON, and non-integer JSON numbers are not modelled.
- The record store and blob store clients, and `fs.readdir`/`fs.writeFile`, are replaced by
  maps. Their failures (network errors, the Express 500 branches for a failed read or
  write) are not modelled. The listings are given as a sequence of names in the store's order.
- `NodeServer.FilePath`: paths are strings that the model never resolves. So it does not
  model `.` and `..` segments in `name` (a name such as `../../server.js` writes outside
  `static/`), two spellings of one file (`a/../x.gd.json` and `x.gd.json` are different keys
  of the file map but one file on disk, so "no other file changes" holds only for keys), or
  the URL encoding of `name` (a name containing `#`, `?` or `%` gives a dashboard URL that
  `express.static` does not map back to the written file).
- `delete_dashboard` has no body and does nothing, so it is not modelled.
- Lower-casing is ASCII only: Unicode case mapping in `str.lower` is not modelled.
- `json.dumps`, `JSON.stringify`, and the string conversion of non-string values are
  uninterpreted functions. JSON objects keep their members in insertion order, so
  the serialised text can depend on key order; duplicate keys, which the decoders
  collapse, are not modelled as a distinct case.
- `Publication.PublishMatchesGetRoutes`, `Publication.PublishedDashboardIsListed`: both need a
  non-empty name (the second also a non-empty user name). A dashboard published with an empty
  name is written to `dashboards/<n>/` but can be neither fetched (server.py:137 answers a 400)
  nor listed (server.py:33 drops a blob of exactly `prefix_len` characters); one published for
  the registered key `""` lands in `dashboards/0` (server.py:84), not in that key's folder.
- Concurrency is not modelled: the read-all-then-put race in `add_user` and last-write-wins
  between uploads. Each method runs atomically.
- Process startup, port selection and reading `process.env` are not modelled: the secret is
  a constant of the Express server object.
- The registry invariant `Registry.RegistryValid` is not promised by the store: `AddUser` keeps it when it held,
  and does not require it.
- `NodeServer.DashboardServer.AddDashboard`: the uncaught exception ends the Node process
  in the write callback; the model returns it as an error and does not model the process exit.

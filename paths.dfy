/** Folder prefixes, blob paths and public URLs of server.py. */
module Paths {
  import opened Outcome
  import opened Text
  import opened Json
  import opened Registry

  /** Every user folder lives under this directory of the bucket. */
  const Dashboards := "dashboards/"
  /** The folder of anonymous dashboards. */
  const AnonymousFolder := "dashboards/0"
  /** The base that `_make_url` and `get_dashboard_link` put in front of a blob name. */
  const SiteBase := "https://galyleo.app/"

  /** `_user_folder_prefix`: `dashboards/<count>` for a registered user; otherwise the
      400 of `_find_user_or_abort`. There is no anonymous fallback. */
  function UserFolderPrefix(users: Users, user: string, route: string): (r: Result<string>)
    ensures r.Ok? <==> Lower(user) in users
    ensures r.Ok? ==> r.value == Dashboards + IntToString(users[Lower(user)].count)
    ensures r.Err? ==> r.error == NoSuchUser(user, route)
  {
    match FindUserOrAbort(users, user, route)
    case Ok(record) => Ok(Dashboards + IntToString(record.count))
    case Err(e) => Err(e)
  }

  /** In a valid registry two different users never share a folder. */
  lemma FoldersOfDistinctUsersDiffer(users: Users, a: string, b: string, route: string)
    requires RegistryValid(users)
    requires Lower(a) in users && Lower(b) in users && Lower(a) != Lower(b)
    ensures UserFolderPrefix(users, a, route).value != UserFolderPrefix(users, b, route).value
  {
    if UserFolderPrefix(users, a, route).value == UserFolderPrefix(users, b, route).value {
      CancelPrefix(Dashboards, IntToString(users[Lower(a)].count), IntToString(users[Lower(b)].count));
      IntToStringInjective(users[Lower(a)].count, users[Lower(b)].count);
    }
  }

  /** `_user_folder_prefix_or_default`. A falsy name (absent, None, empty) gives the
      anonymous folder; a truthy name that is not a string has no `.lower()`; a name
      that is not registered makes `_find_user` return None, and `None["count"]`
      raises TypeError: the code does not fall back to `dashboards/0` there. */
  function UserFolderPrefixOrDefault(users: Users, user: Option<Json>): (r: Result<string>)
    ensures !PyTruthy(user) ==> r == Ok(AnonymousFolder)
    ensures PyTruthy(user) && !user.value.Str? ==> r == Err(AttributeError)
    ensures PyTruthy(user) && user.value.Str? ==>
              if Lower(user.value.s) in users
              then r == Ok(Dashboards + IntToString(users[Lower(user.value.s)].count))
              else r == Err(TypeError)
  {
    if !PyTruthy(user) then Ok(AnonymousFolder)
    else if !user.value.Str? then Err(AttributeError)
    else
      match FindUser(users, user.value.s)
      case None => Err(TypeError)
      case Some(record) =>
        var folder := if record.count != 0 then record.count else 0;
        Ok(Dashboards + IntToString(folder))
  }

  /** For a registered name the defaulting resolver agrees with `_user_folder_prefix`. */
  lemma PrefixOrDefaultAgreesForRegistered(users: Users, user: string, route: string)
    requires user != "" && Lower(user) in users
    ensures UserFolderPrefixOrDefault(users, Some(Str(user))) == UserFolderPrefix(users, user, route)
  {
  }

  /** `_make_url`: the public address of a blob. */
  function MakeUrl(blobName: string): (r: string)
    ensures StartsWith(r, SiteBase)
    ensures r[|SiteBase|..] == blobName
  {
    SiteBase + blobName
  }

  /** The blob name a public address points to: the inverse of `MakeUrl`. */
  function BlobOfUrl(url: string): (r: Option<string>)
    ensures r.Some? <==> StartsWith(url, SiteBase)
    ensures r.Some? ==> SiteBase + r.value == url
  {
    if StartsWith(url, SiteBase) then Some(url[|SiteBase|..]) else None
  }

  lemma UrlRoundTrip(blobName: string, url: string)
    ensures BlobOfUrl(MakeUrl(blobName)) == Some(blobName)
    ensures BlobOfUrl(url).Some? ==> MakeUrl(BlobOfUrl(url).value) == url
  {
  }

  /** A query-string parameter, as the value `_user_folder_prefix_or_default` receives. */
  function QueryValue(arg: Option<string>): Option<Json>
  {
    match arg
    case None => None
    case Some(s) => Some(Str(s))
  }

  /** `_get_name_from_request`: `<folder>/<name>` for the query parameters `user` and
      `name`, or a 400 naming the route when `name` is absent or empty. */
  function NameFromRequest(users: Users, user: Option<string>, name: Option<string>, route: string): (r: Result<string>)
    ensures (name.None? || name.value == "") ==> r == Err(NameRequired(route))
    ensures name.Some? && name.value != "" && (user.None? || user.value == "") ==>
              r == Ok(AnonymousFolder + "/" + name.value)
    ensures name.Some? && name.value != "" && user.Some? && user.value != "" && Lower(user.value) in users ==>
              r == Ok(Dashboards + IntToString(users[Lower(user.value)].count) + "/" + name.value)
    ensures name.Some? && name.value != "" && user.Some? && user.value != "" && Lower(user.value) !in users ==>
              r == Err(TypeError)
  {
    if name.Some? && name.value != "" then
      match UserFolderPrefixOrDefault(users, QueryValue(user))
      case Ok(prefix) => Ok(prefix + "/" + name.value)
      case Err(e) => Err(e)
    else
      Err(NameRequired(route))
  }

  /** A resolved path lies in the dashboards directory and ends in `/<name>`. */
  lemma ResolvedPathShape(users: Users, user: Option<string>, name: Option<string>, route: string)
    requires NameFromRequest(users, user, name, route).Ok?
    ensures name.Some?
    ensures StartsWith(NameFromRequest(users, user, name, route).value, Dashboards)
    ensures EndsWith(NameFromRequest(users, user, name, route).value, "/" + name.value)
  {
    var folder := UserFolderPrefixOrDefault(users, QueryValue(user)).value;
    var path := folder + "/" + name.value;
    assert path[|path| - |"/" + name.value|..] == "/" + name.value;
    assert StartsWith(folder, Dashboards);
    assert path[..|Dashboards|] == folder[..|Dashboards|];
  }

  /** Putting the same text in front keeps a prefix and a suffix. */
  lemma PrependKeepsShape(base: string, s: string, p: string, suffix: string)
    requires StartsWith(s, p) && EndsWith(s, suffix)
    ensures StartsWith(base + s, base + p) && EndsWith(base + s, suffix)
  {
    assert (base + s)[..|base + p|] == base + s[..|p|];
    assert (base + s)[|base + s| - |suffix|..] == s[|s| - |suffix|..];
  }

  /** `get_dashboard`: the blob name it resolves is what it answers (the blob itself
      is not fetched): a path in the dashboards directory ending in `/<name>`. */
  function GetDashboard(users: Users, user: Option<string>, name: Option<string>): (r: Result<string>)
    ensures r == NameFromRequest(users, user, name, "/get_dashboard")
    ensures (name.None? || name.value == "") ==> r == Err(NameRequired("/get_dashboard"))
    ensures r.Ok? ==> StartsWith(r.value, Dashboards) && EndsWith(r.value, "/" + name.value)
  {
    var r := NameFromRequest(users, user, name, "/get_dashboard");
    if r.Ok? then
      ResolvedPathShape(users, user, name, "/get_dashboard");
      r
    else r
  }

  /** `get_dashboard_link`: the public URL of the resolved blob name. */
  function GetDashboardLink(users: Users, user: Option<string>, name: Option<string>): (r: Result<string>)
    ensures (name.None? || name.value == "") ==> r == Err(NameRequired("/get_dashboard_url"))
    ensures r.Ok? <==> NameFromRequest(users, user, name, "/get_dashboard_url").Ok?
    ensures r.Ok? ==> r.value == MakeUrl(NameFromRequest(users, user, name, "/get_dashboard_url").value)
    ensures r.Err? ==> r.error == NameFromRequest(users, user, name, "/get_dashboard_url").error
    ensures r.Ok? ==> StartsWith(r.value, SiteBase + Dashboards) && EndsWith(r.value, "/" + name.value)
  {
    match NameFromRequest(users, user, name, "/get_dashboard_url")
    case Ok(blobName) =>
      ResolvedPathShape(users, user, name, "/get_dashboard_url");
      PrependKeepsShape(SiteBase, blobName, Dashboards, "/" + name.value);
      Ok(SiteBase + blobName)
    case Err(e) => Err(e)
  }

  /** The link route answers `_make_url` of exactly the path the get route answers;
      the two differ only in the route named by a missing-name error. */
  lemma LinkIsUrlOfDashboard(users: Users, user: Option<string>, name: Option<string>)
    ensures GetDashboard(users, user, name).Ok? <==> GetDashboardLink(users, user, name).Ok?
    ensures GetDashboard(users, user, name).Ok? ==>
              GetDashboardLink(users, user, name).value == MakeUrl(GetDashboard(users, user, name).value)
    ensures GetDashboard(users, user, name).Ok? ==>
              BlobOfUrl(GetDashboardLink(users, user, name).value) == Some(GetDashboard(users, user, name).value)
  {
  }
}

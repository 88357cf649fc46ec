/** The Flask publication server of server.py, over its two stores: the user
    registry and the bucket of dashboard blobs. */
module Publication {
  import opened Outcome
  import opened Text
  import opened Json
  import opened Registry
  import opened Paths
  import opened Listing

  const JsonContentType := "application/json"
  const RequiredFields: set<string> := {"name", "dashboard"}

  /** A stored blob: its text and the content type it was uploaded with. */
  datatype Blob = Blob(text: string, contentType: string)

  /** `required_fields.difference(request_body.keys())`. */
  function Missing(body: Body): (r: set<string>)
    ensures r <= RequiredFields
    ensures r == {} <==> "name" in body && "dashboard" in body
    ensures "name" in r <==> "name" !in body
    ensures "dashboard" in r <==> "dashboard" !in body
  {
    var r := RequiredFields - body.Keys;
    assert "name" in body && "dashboard" in body ==> r == {};
    assert "name" !in body ==> "name" in r;
    assert "dashboard" !in body ==> "dashboard" in r;
    r
  }

  /** Steps 1 to 4 of `add_user_dashboard`: the content-type gate, the required
      fields, the optional user and its folder; the result is the blob name
      `<folder>/<name>`. `render` is Python's `str` for a non-string name. */
  function PublishTarget(users: Users, contentType: Option<string>, body: Body, render: Json -> string): (r: Result<string>)
    ensures contentType != Some(JsonContentType) ==> r == Err(NotJson)
    ensures contentType == Some(JsonContentType) && Missing(body) != {} ==>
              r == Err(MissingFields(Missing(body)))
    ensures r.Ok? <==> && contentType == Some(JsonContentType)
                       && "name" in body && "dashboard" in body
                       && UserFolderPrefixOrDefault(users, Field(body, "user")).Ok?
    ensures r.Ok? ==> r.value == UserFolderPrefixOrDefault(users, Field(body, "user")).value
                                 + "/" + Render(body["name"], render)
    ensures r.Err? && contentType == Some(JsonContentType) && Missing(body) == {} ==>
              r.error == UserFolderPrefixOrDefault(users, Field(body, "user")).error
  {
    if contentType != Some(JsonContentType) then Err(NotJson)
    else
      var missing := Missing(body);
      if |missing| > 0 then Err(MissingFields(missing))
      else
        match UserFolderPrefixOrDefault(users, Field(body, "user"))
        case Err(e) => Err(e)
        case Ok(prefix) => Ok(prefix + "/" + Render(body["name"], render))
  }

  /** A dashboard published under a string name and an optional user goes to the
      blob that the get routes resolve for the same user and name, so the URL
      `add_dashboard` answers is the one `get_dashboard_url` answers. */
  lemma PublishMatchesGetRoutes(users: Users, body: Body, render: Json -> string,
                                user: Option<string>, name: string)
    requires "dashboard" in body && "name" in body && body["name"] == Str(name) && name != ""
    requires Field(body, "user") == QueryValue(user)
    ensures PublishTarget(users, Some(JsonContentType), body, render).Ok? <==> GetDashboard(users, user, Some(name)).Ok?
    ensures PublishTarget(users, Some(JsonContentType), body, render).Ok? ==>
              && PublishTarget(users, Some(JsonContentType), body, render).value == GetDashboard(users, user, Some(name)).value
              && MakeUrl(PublishTarget(users, Some(JsonContentType), body, render).value)
                 == GetDashboardLink(users, user, Some(name)).value
  {
  }

  /** A registered user's published dashboard, once its blob is in the bucket's
      listing, is listed by `list_user_dashboards` under its name. */
  lemma PublishedDashboardIsListed(users: Users, body: Body, render: Json -> string,
                                   names: seq<string>, user: string, name: string)
    requires "dashboard" in body && "name" in body && body["name"] == Str(name) && name != ""
    requires "user" in body && body["user"] == Str(user) && user != "" && Lower(user) in users
    requires PublishTarget(users, Some(JsonContentType), body, render).value in names
    ensures ListUserDashboards(users, names, user).Ok?
    ensures name in ListUserDashboards(users, names, user).value
  {
    var folder := Dashboards + IntToString(users[Lower(user)].count);
    var path := folder + "/" + name;
    assert PublishTarget(users, Some(JsonContentType), body, render).value == path;
    assert path[..|folder|] == folder;
    assert path[|folder| + 1..] == name;
    assert Listed(path, folder);
  }

  class PublicationServer {
    /** The 'User' kind of the record store. */
    var users: Users
    /** The bucket 'user-galyleo-dashboards', by blob name. */
    var blobs: map<string, Blob>
    /** `json.dumps`, left uninterpreted. */
    const dumps: Json -> string
    /** Python's `str` for values that are not strings, left uninterpreted. */
    const render: Json -> string

    constructor (users0: Users, blobs0: map<string, Blob>, dumps: Json -> string, render: Json -> string)
      ensures users == users0 && blobs == blobs0
      ensures this.dumps == dumps && this.render == render
    {
      users := users0;
      blobs := blobs0;
      this.dumps := dumps;
      this.render := render;
    }

    /** `add_user`: register the lower-cased form field `user` with the folder
        number one past the largest existing one, and answer the new record. */
    method AddUser(form: Option<string>) returns (r: Result<UserRecord>)
      modifies this`users
      ensures form.None? ==> r == Err(FormFieldMissing("user"))
      ensures form.Some? && Lower(form.value) in old(users) ==> r == Err(UserExists(Lower(form.value)))
      ensures form.Some? && Lower(form.value) !in old(users) && old(users) == map[] ==> r == Err(ValueError)
      ensures r.Ok? <==> form.Some? && Lower(form.value) !in old(users) && old(users) != map[]
      ensures r.Ok? ==> r.value.userid == Lower(form.value) && IsMaxCount(old(users), r.value.count - 1)
      ensures r.Ok? ==> forall k :: k in old(users) ==> old(users)[k].count < r.value.count
      ensures r.Ok? ==> users == old(users)[r.value.userid := r.value]
      ensures r.Err? ==> users == old(users)
      ensures old(RegistryValid(users)) ==> RegistryValid(users)
    {
      if form.None? {
        return Err(FormFieldMissing("user"));
      }
      var userName := Lower(form.value);
      LowerIdempotent(form.value);
      if FindUser(users, userName).Some? {
        return Err(UserExists(userName));
      }
      var maxCount := MaxCount(users);
      if maxCount.Err? {
        return Err(maxCount.error);
      }
      var entity := UserRecord(maxCount.value + 1, userName);
      if RegistryValid(users) {
        AddKeepsRegistryValid(users, userName, maxCount.value);
      }
      users := users[userName := entity];
      return Ok(entity);
    }

    /** `add_user_dashboard`: after the checks of `PublishTarget`, overwrite one blob
        with the serialised dashboard and answer its public URL. A failed check
        writes nothing. */
    method AddUserDashboard(contentType: Option<string>, body: Body) returns (r: Result<string>)
      modifies this`blobs
      ensures r.Ok? <==> PublishTarget(users, contentType, body, render).Ok?
      ensures r.Err? ==> r.error == PublishTarget(users, contentType, body, render).error
      ensures r.Err? ==> blobs == old(blobs)
      ensures r.Ok? ==>
                var blobName := PublishTarget(users, contentType, body, render).value;
                && r.value == MakeUrl(blobName)
                && blobs == old(blobs)[blobName := Blob(dumps(body["dashboard"]), JsonContentType)]
    {
      var target := PublishTarget(users, contentType, body, render);
      if target.Err? {
        return Err(target.error);
      }
      var blobName := target.value;
      blobs := blobs[blobName := Blob(dumps(body["dashboard"]), JsonContentType)];
      return Ok(MakeUrl(blobName));
    }
  }
}

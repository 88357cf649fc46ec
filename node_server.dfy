/** The Express variant of the publication server (node/server.js): dashboards are
    files in one directory, publishing is gated by a shared studio secret. */
module NodeServer {
  import opened Outcome
  import opened Text
  import opened Json

  const DirectoryPath := "static/dashboards"
  const ServerUrl := "http://localhost:8080"
  const DashboardUrl := ServerUrl + "/dashboards"
  const DashboardSuffix := ".gd.json"

  /** `/list_dashboards/`: the entries of the directory listing that end in
      `.gd.json`, in listing order. */
  function ListDashboards(fileList: seq<string>): (r: seq<string>)
    ensures |r| <= |fileList|
    ensures forall j :: 0 <= j < |r| ==> EndsWith(r[j], DashboardSuffix)
    decreases |fileList|
  {
    if fileList == [] then []
    else
      var rest := ListDashboards(fileList[1..]);
      if EndsWith(fileList[0], DashboardSuffix) then [fileList[0]] + rest else rest
  }

  /** The filter distributes over concatenation: it keeps the listing order. */
  lemma {:induction false} ListDashboardsAppend(a: seq<string>, b: seq<string>)
    ensures ListDashboards(a + b) == ListDashboards(a) + ListDashboards(b)
    decreases |a|
  {
    if a == [] {
      assert a + b == b;
    } else {
      assert (a + b)[0] == a[0];
      assert (a + b)[1..] == a[1..] + b;
      ListDashboardsAppend(a[1..], b);
    }
  }

  /** Exactly the `.gd.json` entries are kept. */
  lemma {:induction false} ListDashboardsExact(fileList: seq<string>, f: string)
    ensures f in ListDashboards(fileList) <==> f in fileList && EndsWith(f, DashboardSuffix)
    decreases |fileList|
  {
    if fileList != [] {
      ListDashboardsExact(fileList[1..], f);
      assert fileList == [fileList[0]] + fileList[1..];
    }
  }

  /** The secret gate `studio_secret && studio_secret === process.env.studio_secret`:
      a truthy value that is the very string configured. */
  predicate SecretAccepted(candidate: Option<Json>, secret: Option<string>)
  {
    JsTruthy(candidate) && secret.Some? && candidate == Some(Str(secret.value))
  }

  /** The two checks of `/add_dashboard`, in their order: `None` admits the request. */
  function CheckRequest(body: Body, secret: Option<string>): (r: Option<Error>)
    ensures r == Some(FieldsRequired) <==>
              !JsTruthy(Field(body, "name")) || !JsTruthy(Field(body, "dashboard"))
    ensures r == Some(InvalidSecret) <==>
              && JsTruthy(Field(body, "name")) && JsTruthy(Field(body, "dashboard"))
              && !SecretAccepted(Field(body, "studio_secret"), secret)
    ensures r.None? <==>
              && JsTruthy(Field(body, "name")) && JsTruthy(Field(body, "dashboard"))
              && SecretAccepted(Field(body, "studio_secret"), secret)
  {
    if !JsTruthy(Field(body, "name")) || !JsTruthy(Field(body, "dashboard")) then Some(FieldsRequired)
    else if SecretAccepted(Field(body, "studio_secret"), secret) then None
    else Some(InvalidSecret)
  }

  /** Without a configured secret no request is admitted; no secret value other
      than the configured one is admitted either. */
  lemma SecretGateCloses(body: Body, secret: Option<string>)
    ensures secret.None? ==> CheckRequest(body, secret).Some?
    ensures CheckRequest(body, secret).None? ==>
              secret.Some? && secret.value != "" && body["studio_secret"] == Str(secret.value)
  {
  }

  /** Where the dashboard named `name` is written. */
  function FilePath(name: string): (r: string)
    ensures StartsWith(r, "static/")
  {
    DirectoryPath + "/" + name
  }

  /** `dashboardFile`, the URL the success branch computes for `name`. */
  function DashboardFile(name: string): (r: string)
  {
    DashboardUrl + "/" + name
  }

  /** As strings, the URL recorded for a written dashboard is
      `http://localhost:8080/dashboards/<name>`: the write path string with its
      leading `static` replaced by the server base. */
  lemma DashboardFileIsServedPath(name: string)
    ensures DashboardFile(name) == ServerUrl + "/" + FilePath(name)[|"static/"|..]
    ensures DashboardFile(name) == "http://localhost:8080/dashboards/" + name
  {
    assert FilePath(name)[|"static/"|..] == "dashboards/" + name;
  }

  /** The reply the success branch builds. */
  datatype Reply = Reply(dashboard: string, view: string)

  class DashboardServer {
    /** The files on disk, by path. */
    var files: map<string, string>
    /** The implicit global that the assignment to `dashboardFile` creates. */
    var dashboardFile: Option<string>
    /** `process.env.studio_secret`. */
    const secret: Option<string>
    /** `JSON.stringify`, left uninterpreted. */
    const stringify: Json -> string
    /** JavaScript's `String` for values that are not strings, left uninterpreted. */
    const render: Json -> string

    constructor (files0: map<string, string>, secret: Option<string>, stringify: Json -> string, render: Json -> string)
      ensures files == files0 && dashboardFile.None?
      ensures this.secret == secret && this.stringify == stringify && this.render == render
    {
      files := files0;
      dashboardFile := None;
      this.secret := secret;
      this.stringify := stringify;
      this.render := render;
    }

    /** `/add_dashboard`. A rejected request writes nothing. An admitted one
        overwrites one file with the serialised dashboard and sets
        `dashboardFile`; building the reply then reads the undeclared `publishURL`
        (line 38 declares only `publishUrl`, the viewer page
        `http://localhost:8080/published/index.html`), which throws, so no reply is ever sent. */
    method AddDashboard(body: Body) returns (r: Result<Reply>)
      modifies this`files, this`dashboardFile
      ensures r.Err?
      ensures CheckRequest(body, secret).Some? ==>
                && r.error == CheckRequest(body, secret).value
                && files == old(files) && dashboardFile == old(dashboardFile)
      ensures CheckRequest(body, secret).None? ==>
                var name := Render(body["name"], render);
                && r.error == ReferenceError("publishURL")
                && files == old(files)[FilePath(name) := stringify(body["dashboard"])]
                && dashboardFile == Some(DashboardFile(name))
    {
      var check := CheckRequest(body, secret);
      if check.Some? {
        return Err(check.value);
      }
      var name := Render(body["name"], render);
      var filePath := FilePath(name);
      files := files[filePath := stringify(body["dashboard"])];
      dashboardFile := Some(DashboardFile(name));
      return Err(ReferenceError("publishURL"));
    }
  }
}

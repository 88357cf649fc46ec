/** The blob listing of server.py: `_list_blobs` and `list_user_dashboards`. */
module Listing {
  import opened Outcome
  import opened Text
  import opened Registry
  import opened Paths

  /** The condition of the comprehension in `_list_blobs`. */
  predicate Listed(name: string, prefix: string)
  {
    StartsWith(name, prefix) && |name| > |prefix| + 1
  }

  /** The filter and strip of `_list_blobs` as written: every blob name that starts
      with `prefix` and is longer than `len(prefix) + 1`, with its first
      `len(prefix) + 1` characters removed, in listing order. The character after
      the prefix is never inspected. */
  function ListBlobs(names: seq<string>, prefix: string): (r: seq<string>)
    ensures |r| <= |names|
    ensures forall j :: 0 <= j < |r| ==> r[j] != ""
    decreases |names|
  {
    if names == [] then []
    else
      var rest := ListBlobs(names[1..], prefix);
      if Listed(names[0], prefix) then [names[0][|prefix| + 1..]] + rest else rest
  }

  /** Listing distributes over concatenation, so the output keeps the input order. */
  lemma {:induction false} ListBlobsAppend(a: seq<string>, b: seq<string>, prefix: string)
    ensures ListBlobs(a + b, prefix) == ListBlobs(a, prefix) + ListBlobs(b, prefix)
    decreases |a|
  {
    if a == [] {
      assert a + b == b;
    } else {
      assert (a + b)[0] == a[0];
      assert (a + b)[1..] == a[1..] + b;
      ListBlobsAppend(a[1..], b, prefix);
    }
  }

  /** A blob named exactly `prefix`, or `prefix + "/"`, is never listed. */
  lemma ListBlobsSkipsFolderMarkers(a: seq<string>, b: seq<string>, prefix: string)
    ensures ListBlobs(a + [prefix] + b, prefix) == ListBlobs(a + b, prefix)
    ensures ListBlobs(a + [prefix + "/"] + b, prefix) == ListBlobs(a + b, prefix)
  {
    ListBlobsAppend(a + [prefix], b, prefix);
    ListBlobsAppend(a, [prefix], prefix);
    ListBlobsAppend(a + [prefix + "/"], b, prefix);
    ListBlobsAppend(a, [prefix + "/"], prefix);
    ListBlobsAppend(a, b, prefix);
  }

  /** Every listed entry is the stripped form of some input name that passes the filter. */
  lemma {:induction false} ListBlobsSound(names: seq<string>, prefix: string, j: nat)
    requires j < |ListBlobs(names, prefix)|
    ensures exists i :: 0 <= i < |names| && Listed(names[i], prefix) &&
                        ListBlobs(names, prefix)[j] == names[i][|prefix| + 1..]
    decreases |names|
  {
    var rest := ListBlobs(names[1..], prefix);
    if Listed(names[0], prefix) && j == 0 {
      assert Listed(names[0], prefix);
    } else {
      var j' := if Listed(names[0], prefix) then j - 1 else j;
      ListBlobsSound(names[1..], prefix, j');
      var i :| 0 <= i < |names[1..]| && Listed(names[1..][i], prefix) && rest[j'] == names[1..][i][|prefix| + 1..];
      assert names[i + 1] == names[1..][i];
    }
  }

  /** Every input name that passes the filter is listed, stripped. */
  lemma {:induction false} ListBlobsComplete(names: seq<string>, prefix: string, i: nat)
    requires i < |names| && Listed(names[i], prefix)
    ensures names[i][|prefix| + 1..] in ListBlobs(names, prefix)
    decreases |names|
  {
    if i > 0 {
      assert names[1..][i - 1] == names[i];
      ListBlobsComplete(names[1..], prefix, i - 1);
    }
  }

  /** The filter does not check the separator: the folder of user 1 lists, as "/chart",
      a dashboard of user 12. */
  lemma ListBlobsLeaksSiblingFolder()
    ensures ListBlobs(["dashboards/12/chart"], "dashboards/1") == ["/chart"]
  {
    assert StartsWith("dashboards/12/chart", "dashboards/1");
  }

  /** The evidently intended listing: the names of the blobs inside the folder
      `prefix`, that is, those starting with `prefix + "/"` and having something
      after it, stripped of `prefix + "/"`, in listing order. */
  function ListBlobsUnder(names: seq<string>, prefix: string): (r: seq<string>)
    ensures |r| <= |names|
    decreases |names|
  {
    if names == [] then []
    else
      var rest := ListBlobsUnder(names[1..], prefix);
      if StartsWith(names[0], prefix + "/") && |names[0]| > |prefix| + 1
      then [names[0][|prefix| + 1..]] + rest
      else rest
  }

  /** A name is listed in a folder exactly when a non-empty blob of that name is
      stored inside the folder. */
  lemma {:induction false} ListBlobsUnderExact(names: seq<string>, prefix: string, n: string)
    ensures n in ListBlobsUnder(names, prefix) <==> n != "" && prefix + "/" + n in names
    decreases |names|
  {
    if names != [] {
      ListBlobsUnderExact(names[1..], prefix, n);
      var head := names[0];
      var sep := prefix + "/";
      assert names == [head] + names[1..];
      if StartsWith(head, sep) && |head| > |prefix| + 1 {
        assert head == sep + head[|sep|..];
        if n == head[|prefix| + 1..] {
          assert prefix + "/" + n == head;
        }
      }
      if n != "" && head == prefix + "/" + n {
        assert head[..|sep|] == sep;
        assert head[|prefix| + 1..] == n;
      }
    }
  }

  /** Where every name under the prefix has the separator after it, the code as
      written and the intended listing agree. */
  lemma {:induction false} ListingsAgreeWithoutSiblings(names: seq<string>, prefix: string)
    requires forall i :: 0 <= i < |names| && Listed(names[i], prefix) ==> names[i][|prefix|] == '/'
    ensures ListBlobs(names, prefix) == ListBlobsUnder(names, prefix)
    decreases |names|
  {
    if names != [] {
      var head := names[0];
      var sep := prefix + "/";
      if Listed(head, prefix) {
        assert head[|prefix|] == '/';
        assert head[..|sep|] == head[..|prefix|] + [head[|prefix|]];
        assert StartsWith(head, sep);
      }
      if StartsWith(head, sep) && |head| > |prefix| + 1 {
        assert head[..|prefix|] == head[..|sep|][..|prefix|];
        assert Listed(head, prefix);
      }
      forall i | 0 <= i < |names[1..]| && Listed(names[1..][i], prefix)
        ensures names[1..][i][|prefix|] == '/'
      {
        assert names[1..][i] == names[i + 1];
      }
      ListingsAgreeWithoutSiblings(names[1..], prefix);
    }
  }

  /** Membership in the listing as written: `n` is listed exactly when some blob
      passes the filter and strips to `n`. */
  lemma ListBlobsMembership(names: seq<string>, prefix: string, n: string)
    ensures n in ListBlobs(names, prefix) <==>
              exists b :: b in names && Listed(b, prefix) && b[|prefix| + 1..] == n
  {
    var r := ListBlobs(names, prefix);
    if n in r {
      var j :| 0 <= j < |r| && r[j] == n;
      ListBlobsSound(names, prefix, j);
      var i :| 0 <= i < |names| && Listed(names[i], prefix) && r[j] == names[i][|prefix| + 1..];
      assert names[i] in names;
    }
    if exists b :: b in names && Listed(b, prefix) && b[|prefix| + 1..] == n {
      var b :| b in names && Listed(b, prefix) && b[|prefix| + 1..] == n;
      var i :| 0 <= i < |names| && names[i] == b;
      ListBlobsComplete(names, prefix, i);
    }
  }

  /** `list_user_dashboards`: the dashboards `_list_blobs` lists for a registered
      user's folder, or the 400 for an unknown user (no anonymous fallback). The
      listing `names` is the bucket's blob names in the store's order. As written,
      blobs of a sibling folder whose number extends this one's are listed too. */
  function ListUserDashboards(users: Users, names: seq<string>, user: string): (r: Result<seq<string>>)
    ensures r.Ok? <==> Lower(user) in users
    ensures r.Err? ==> r.error == NoSuchUser(user, "/list_user_dashboards")
    ensures r.Ok? ==>
              var prefix := Dashboards + IntToString(users[Lower(user)].count);
              forall n :: n in r.value <==>
                exists b :: b in names && Listed(b, prefix) && b[|prefix| + 1..] == n
  {
    match UserFolderPrefix(users, user, "/list_user_dashboards")
    case Err(e) => Err(e)
    case Ok(prefix) =>
      var listed := ListBlobs(names, prefix);
      assert forall n :: n in listed <==>
               exists b :: b in names && Listed(b, prefix) && b[|prefix| + 1..] == n by {
        forall n ensures n in listed <==>
                   exists b :: b in names && Listed(b, prefix) && b[|prefix| + 1..] == n {
          ListBlobsMembership(names, prefix, n);
        }
      }
      Ok(listed)
  }

  /** The route as evidently intended: exactly the names of the blobs inside the
      user's folder, through the corrected filter. */
  function ListUserDashboardsIntended(users: Users, names: seq<string>, user: string): (r: Result<seq<string>>)
    ensures r.Ok? <==> Lower(user) in users
    ensures r.Err? ==> r.error == NoSuchUser(user, "/list_user_dashboards")
    ensures r.Ok? ==> forall n :: n in r.value <==>
              n != "" && Dashboards + IntToString(users[Lower(user)].count) + "/" + n in names
  {
    match UserFolderPrefix(users, user, "/list_user_dashboards")
    case Err(e) => Err(e)
    case Ok(prefix) =>
      var listed := ListBlobsUnder(names, prefix);
      assert forall n :: n in listed <==> n != "" && prefix + "/" + n in names by {
        forall n ensures n in listed <==> n != "" && prefix + "/" + n in names {
          ListBlobsUnderExact(names, prefix, n);
        }
      }
      Ok(listed)
  }

  /** For user 1, the route as written lists user 12's dashboard `chart` as `/chart`;
      the intended route does not list it. */
  lemma ListUserDashboardsLeaks()
    ensures ListUserDashboards(map["alice" := UserRecord(1, "alice")], ["dashboards/12/chart"], "alice")
            == Ok(["/chart"])
    ensures ListUserDashboardsIntended(map["alice" := UserRecord(1, "alice")], ["dashboards/12/chart"], "alice")
            == Ok([])
  {
    var users := map["alice" := UserRecord(1, "alice")];
    LowerOfLowerCase("alice");
    assert Lower("alice") == "alice";
    assert DigitChar(1) == '1';
    assert IntToString(1) == "1";
    assert Dashboards + "1" == "dashboards/1";
    assert UserFolderPrefix(users, "alice", "/list_user_dashboards") == Ok("dashboards/1");
    ListBlobsLeaksSiblingFolder();
    var sep := "dashboards/1/";
    assert "dashboards/12/chart"[..|sep|] != sep by {
      assert "dashboards/12/chart"[12] == '2' && sep[12] == '/';
    }
  }
}

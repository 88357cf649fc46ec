/** The user registry of server.py: a record store of kind 'User', keyed by the
    canonical (lower-case) user name. */
module Registry {
  import opened Outcome
  import opened Text

  /** A stored user entity: its folder number and its canonical name. */
  datatype UserRecord = UserRecord(count: int, userid: string)

  type Users = map<string, UserRecord>

  /** What `add_user` maintains: every key is canonical and is the record's
      `userid`, and no two users share a folder number. */
  predicate RegistryValid(users: Users)
  {
    && (forall k :: k in users ==> Lower(k) == k && users[k].userid == k)
    && (forall k, k' :: k in users && k' in users && k != k' ==> users[k].count != users[k'].count)
  }

  /** `_find_user`: look the record up under the lower-cased name. */
  function FindUser(users: Users, user: string): (r: Option<UserRecord>)
    ensures r.Some? <==> Lower(user) in users
    ensures r.Some? ==> r.value == users[Lower(user)]
  {
    var key := Lower(user);
    if key in users then Some(users[key]) else None
  }

  /** Lookup ignores case: a name and its lower-case form find the same record. */
  lemma FindUserIgnoresCase(users: Users, user: string)
    ensures FindUser(users, user) == FindUser(users, Lower(user))
  {
    LowerIdempotent(user);
  }

  /** In a valid registry the record found for a name carries that name, lower-cased. */
  lemma FindUserNamesRecord(users: Users, user: string)
    requires RegistryValid(users)
    requires FindUser(users, user).Some?
    ensures FindUser(users, user).value.userid == Lower(user)
  {
  }

  /** `_find_user_or_abort`: the record, or a 400 naming the user and the route.
      (A stored entity always has properties, so `if record:` is true exactly when
      the lookup found one.) */
  function FindUserOrAbort(users: Users, user: string, route: string): (r: Result<UserRecord>)
    ensures r.Ok? <==> Lower(user) in users
    ensures r.Ok? ==> r.value == users[Lower(user)]
    ensures r.Err? ==> r.error == NoSuchUser(user, route)
  {
    match FindUser(users, user)
    case Some(record) => Ok(record)
    case None => Err(NoSuchUser(user, route))
  }

  /** `m` is `max(counts)` over all records. */
  predicate IsMaxCount(users: Users, m: int)
  {
    && (exists k :: k in users && users[k].count == m)
    && (forall k :: k in users ==> users[k].count <= m)
  }

  /** `max([record["count"] for record in all_users])`, raising ValueError on an
      empty registry. The records are visited in an unspecified order. */
  method MaxCount(users: Users) returns (r: Result<int>)
    ensures r.Err? <==> users == map[]
    ensures r.Err? ==> r.error == ValueError
    ensures r.Ok? ==> IsMaxCount(users, r.value)
  {
    if users == map[] {
      return Err(ValueError);
    }
    var first :| first in users;
    var best := users[first].count;
    ghost var holder := first;
    var rest := users.Keys - {first};
    while rest != {}
      invariant rest <= users.Keys
      invariant holder in users && users[holder].count == best
      invariant forall k :: k in users && k !in rest ==> users[k].count <= best
      decreases rest
    {
      var k :| k in rest;
      if users[k].count > best {
        best := users[k].count;
        holder := k;
      }
      rest := rest - {k};
    }
    return Ok(best);
  }

  /** Adding a new canonical name with number max + 1 keeps the registry valid. */
  lemma AddKeepsRegistryValid(users: Users, name: string, m: int)
    requires RegistryValid(users)
    requires Lower(name) == name && name !in users
    requires IsMaxCount(users, m)
    ensures RegistryValid(users[name := UserRecord(m + 1, name)])
  {
    var users' := users[name := UserRecord(m + 1, name)];
    forall k, k' | k in users' && k' in users' && k != k'
      ensures users'[k].count != users'[k'].count
    {
      if k != name && k' != name {
        assert users'[k] == users[k] && users'[k'] == users[k'];
      } else if k == name {
        assert users[k'].count <= m;
      } else {
        assert users[k].count <= m;
      }
    }
  }
}

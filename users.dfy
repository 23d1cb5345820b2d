/** The two credential pools of users/users.py. Each maps a symbolic user
    key to a username and a password; the password comes from an
    environment variable and is therefore absent (`None`) when that
    variable is not set. Python dictionaries keep insertion order, so a pool
    is an ordered sequence of entries. */
module Users {
  import opened Wrappers

  datatype UserRecord = UserRecord(username: string, password: Option<string>)

  datatype UserEntry = UserEntry(key: string, record: UserRecord)

  type Pool = seq<UserEntry>

  /** PRODUCTION_USERS, every password being PROD_SAUCEDEMO_USER_PASSWORD. */
  function ProductionUsers(productionPassword: Option<string>): (users: Pool)
    ensures Keys(users) == ["standard_user", "locked_out_user", "problem_user"]
    ensures forall i :: 0 <= i < |users| ==>
      users[i].record.username == users[i].key && users[i].record.password == productionPassword
  {
    [ UserEntry("standard_user", UserRecord("standard_user", productionPassword)),
      UserEntry("locked_out_user", UserRecord("locked_out_user", productionPassword)),
      UserEntry("problem_user", UserRecord("problem_user", productionPassword)) ]
  }

  /** CI_USERS, every password being CI_SAUCEDEMO_USER_PASSWORD. */
  function CiUsers(ciPassword: Option<string>): (users: Pool)
    ensures Keys(users) == ["standard_user", "locked_out_user", "problem_user"]
    ensures forall i :: 0 <= i < |users| ==>
      users[i].record.username == users[i].key && users[i].record.password == ciPassword
  {
    [ UserEntry("standard_user", UserRecord("standard_user", ciPassword)),
      UserEntry("locked_out_user", UserRecord("locked_out_user", ciPassword)),
      UserEntry("problem_user", UserRecord("problem_user", ciPassword)) ]
  }

  /** `list(users.keys())`, in insertion order. */
  function Keys(users: Pool): (ks: seq<string>)
    ensures |ks| == |users|
    ensures forall i :: 0 <= i < |users| ==> ks[i] == users[i].key
  {
    if users == [] then [] else [users[0].key] + Keys(users[1..])
  }

  /** `users[key]`: the record stored under `key`, or `None` for the
      `KeyError` of an unknown key. */
  function Lookup(users: Pool, key: string): (r: Option<UserRecord>)
    ensures r.None? <==> key !in Keys(users)
    ensures r.Some? ==> exists i :: 0 <= i < |users| && users[i].key == key && users[i].record == r.value
  {
    if users == [] then None
    else if users[0].key == key then Some(users[0].record)
    else Lookup(users[1..], key)
  }
}

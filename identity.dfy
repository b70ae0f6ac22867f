/** The identity directory (core/identity.py): maps a sender id to a role. */
module Identity {
  import opened Wrappers

  datatype Role = ADMIN | MANAGER | EMPLOYEE | GUEST

  datatype UserIdentity = UserIdentity(userId: string, role: Role, username: Option<string>)

  /** The directory the constructor builds from the configured allowed users:
      every one of them is an ADMIN. */
  function ConfiguredDb(allowedUsers: seq<string>): (db: map<string, Role>)
    ensures forall u :: u in db <==> u in allowedUsers
    ensures forall u | u in db :: db[u] == ADMIN
  {
    map u | u in allowedUsers :: ADMIN
  }

  /** `get_identity` over a directory: a known id yields its stored role,
      an unknown id yields None (the caller then drops the command). */
  function Lookup(db: map<string, Role>, userId: string): (r: Option<UserIdentity>)
    ensures r.Some? <==> userId in db
    ensures r.Some? ==> r.value.userId == userId && r.value.role == db[userId]
    ensures r.Some? ==> r.value.username.None?
  {
    if userId in db then Some(UserIdentity(userId, db[userId], None)) else None
  }

  /** A directory built from configuration yields only ADMIN identities, and
      exactly for the configured ids. */
  lemma ConfiguredOnlyAdmins(allowedUsers: seq<string>, userId: string)
    ensures Lookup(ConfiguredDb(allowedUsers), userId).Some? <==> userId in allowedUsers
    ensures Lookup(ConfiguredDb(allowedUsers), userId).Some? ==>
              Lookup(ConfiguredDb(allowedUsers), userId).value.role == ADMIN
  {
  }

  class IdentityManager {
    const userDb: map<string, Role>

    /** Fills `user_db` from the allowed-user list, one entry per id. */
    constructor (allowedUsers: seq<string>)
      ensures userDb == ConfiguredDb(allowedUsers)
    {
      var db: map<string, Role> := map[];
      var i := 0;
      while i < |allowedUsers|
        invariant 0 <= i <= |allowedUsers|
        invariant db == ConfiguredDb(allowedUsers[..i])
      {
        assert allowedUsers[..i + 1] == allowedUsers[..i] + [allowedUsers[i]];
        db := db[allowedUsers[i] := ADMIN];
        i := i + 1;
      }
      assert allowedUsers[..i] == allowedUsers;
      userDb := db;
    }

    /** Lookup never changes the directory: `userDb` is never reassigned. */
    function GetIdentity(userId: string): (r: Option<UserIdentity>)
      ensures r.Some? <==> userId in userDb
      ensures r.Some? ==> r.value.userId == userId && r.value.role == userDb[userId]
    {
      Lookup(userDb, userId)
    }
  }
}

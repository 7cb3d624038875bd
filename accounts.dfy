/**
 * Accounts: registration with its duplicate-username check, the login
 * credential check and the three `update_*_by_username` setters, all
 * addressed by username.
 */
module Accounts {
  import opened Types

  /**
   * No two stored users share a username. `create_user` is the only
   * operation that adds users and it refuses a taken name, so every store the
   * backend builds has this property; lookups by username rely on it.
   */
  ghost predicate UniqueUsernames(users: UserStore)
  {
    forall a, b :: a in users && b in users && users[a].username == users[b].username ==> a == b
  }

  predicate HasUsername(users: UserStore, username: string)
  {
    exists k :: k in users && users[k].username == username
  }

  /** `find_one({username})`: the user holding that username, if any. */
  function FindByUsername(users: UserStore, username: string): (r: Option<User>)
    requires UniqueUsernames(users)
    ensures r.Some? <==> HasUsername(users, username)
    ensures r.Some? ==>
      r.value.username == username && exists k :: k in users && users[k] == r.value
  {
    if HasUsername(users, username) then
      var k :| k in users && users[k].username == username;
      Some(users[k])
    else
      None
  }

  /** `get_user_by_username`: the stored user, when the password matches. */
  function GetUserByUsername(users: UserStore, username: string, password: string): (r: Option<User>)
    requires UniqueUsernames(users)
    ensures r.Some? <==>
      exists k :: k in users && users[k].username == username && users[k].password == password
    ensures r.Some? ==> r.value.username == username && r.value.password == password
    ensures r.Some? ==> exists k :: k in users && users[k] == r.value
  {
    match FindByUsername(users, username)
    case Some(u) => if u.password == password then Some(u) else None
    case None => None
  }

  /** The record `create_user` inserts. */
  function NewUser(id: ObjectId, username: string, password: string, name: string): User
  {
    User(id, username, password, name, "", [], [], [])
  }

  /**
   * `create_user`: the new store and the returned id. A taken username
   * yields the sentinel id and no insert.
   */
  function CreateUser(users: UserStore, username: string, password: string, name: string,
                      freshId: ObjectId): (UserStore, ObjectId)
  {
    if HasUsername(users, username) then (users, DuplicateUsernameId)
    else (users[freshId := NewUser(freshId, username, password, name)], freshId)
  }

  /** A taken username: the sentinel id comes back and the store is unchanged. */
  lemma CreateUserDuplicate(users: UserStore, username: string, password: string, name: string,
                            freshId: ObjectId)
    requires exists k :: k in users && users[k].username == username
    ensures CreateUser(users, username, password, name, freshId) == (users, DuplicateUsernameId)
  {
  }

  /**
   * A free username: exactly one user is added under the fresh id, with the
   * given credentials, an empty description and no edges or notes.
   */
  lemma CreateUserInserts(users: UserStore, username: string, password: string, name: string,
                          freshId: ObjectId)
    requires freshId !in users
    requires forall k :: k in users ==> users[k].username != username
    ensures var (r, id) := CreateUser(users, username, password, name, freshId);
      && id == freshId
      && r.Keys == users.Keys + {freshId}
      && (forall k :: k in users ==> r[k] == users[k])
      && r[id].id == id && r[id].username == username && r[id].password == password
      && r[id].name == name && r[id].description == ""
      && r[id].followers == [] && r[id].following == [] && r[id].voiceNotes == []
  {
  }

  /** Registration keeps usernames unique. */
  lemma CreateUserKeepsUnique(users: UserStore, username: string, password: string, name: string,
                              freshId: ObjectId)
    requires UniqueUsernames(users) && freshId !in users
    ensures UniqueUsernames(CreateUser(users, username, password, name, freshId).0)
  {
  }

  /** The user fields the setters write. */
  datatype Setting = Name | Password | Description

  function WithSetting(u: User, s: Setting, v: string): User
  {
    match s
    case Name => u.(name := v)
    case Password => u.(password := v)
    case Description => u.(description := v)
  }

  /** A `$set` of one field on the user holding the username; with unique usernames there is at most one. */
  function UpdateByUsername(users: UserStore, username: string, s: Setting, v: string): UserStore
  {
    map k | k in users :: if users[k].username == username then WithSetting(users[k], s, v) else users[k]
  }

  /**
   * A setter changes one field of the user holding the username, changes
   * nothing when no user holds it, and keeps usernames unique.
   */
  lemma UpdateByUsernameEffect(users: UserStore, username: string, s: Setting, v: string)
    ensures var r := UpdateByUsername(users, username, s, v);
      && r.Keys == users.Keys
      && (forall k :: k in users && users[k].username != username ==> r[k] == users[k])
      && (forall k :: k in users && users[k].username == username ==> r[k] == WithSetting(users[k], s, v))
      && (!HasUsername(users, username) ==> r == users)
      && (UniqueUsernames(users) ==> UniqueUsernames(r))
  {
    var r := UpdateByUsername(users, username, s, v);
    if !HasUsername(users, username) {
      assert forall k :: k in users ==> r[k] == users[k];
    }
  }

  /** After a password change the new password logs in and a different old one does not. */
  lemma {:induction false} PasswordChangeThenLogin(users: UserStore, username: string,
                                                   oldPassword: string, newPassword: string)
    requires UniqueUsernames(users)
    requires HasUsername(users, username)
    requires oldPassword != newPassword
    ensures var r := UpdateByUsername(users, username, Password, newPassword);
      && UniqueUsernames(r)
      && GetUserByUsername(r, username, newPassword).Some?
      && GetUserByUsername(r, username, oldPassword).None?
  {
    var r := UpdateByUsername(users, username, Password, newPassword);
    UpdateByUsernameEffect(users, username, Password, newPassword);
    var k :| k in users && users[k].username == username;
    assert r[k].username == username && r[k].password == newPassword;
  }

  /**
   * Registering "alice" twice is refused with the sentinel id; a wrong
   * password fails to log in and the right one returns Alice's record.
   */
  lemma {:induction false} RegisterAndLoginScenario(users: UserStore, id1: ObjectId, id2: ObjectId)
    requires UniqueUsernames(users)
    requires id1 !in users && id2 != id1 && id2 !in users
    requires !HasUsername(users, "alice")
    ensures var (s1, r1) := CreateUser(users, "alice", "pw1", "Alice", id1);
      var (s2, r2) := CreateUser(s1, "alice", "pw1", "Alice", id2);
      && r1 == id1 && r2 == DuplicateUsernameId && s2 == s1 && id2 !in s2
      && GetUserByUsername(s2, "alice", "wrongpw") == None
      && GetUserByUsername(s2, "alice", "pw1") == Some(NewUser(id1, "alice", "pw1", "Alice"))
  {
    var (s1, r1) := CreateUser(users, "alice", "pw1", "Alice", id1);
    CreateUserKeepsUnique(users, "alice", "pw1", "Alice", id1);
    assert s1[id1].username == "alice";
    assert HasUsername(s1, "alice");
    var found := FindByUsername(s1, "alice");
    assert found == Some(s1[id1]);
  }
}

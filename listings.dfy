/**
 * The profile listings. `get_all_following` and `get_all_followers` copy a
 * user's id array. The two `*_profile` functions look up each id in turn,
 * skip ids with no stored user and the caller's own record, and number what
 * they emit with a counter `refNo` starting at 0. `find_users_by_names` runs
 * the same numbering over the users holding a username and keeps the last
 * entry.
 */
module Listings {
  import opened Types
  import opened Accounts

  /** The following array of the user, or nothing when no such user is stored. */
  function FollowingOf(users: UserStore, userId: ObjectId): seq<ObjectId>
  {
    if userId in users then users[userId].following else []
  }

  /** The followers array of the user, or nothing when no such user is stored. */
  function FollowersOf(users: UserStore, userId: ObjectId): seq<ObjectId>
  {
    if userId in users then users[userId].followers else []
  }

  /** The records that a `find({_id})` per id returns: ids with no stored user yield nothing. */
  function Found(users: UserStore, ids: seq<ObjectId>): seq<User>
  {
    if ids == [] then []
    else
      var last := ids[|ids| - 1];
      Found(users, ids[..|ids| - 1]) + (if last in users then [users[last]] else [])
  }

  /** The records other than the caller's, in order. */
  function NonSelf(records: seq<User>, self: ObjectId): seq<User>
  {
    if records == [] then []
    else
      var last := records[|records| - 1];
      NonSelf(records[..|records| - 1], self) + (if last.id != self then [last] else [])
  }

  /** The listing loops' output for a run of records: the non-self ones, the k-th numbered k. */
  function Numbered(records: seq<User>, self: ObjectId): seq<PublicUser>
  {
    var l := NonSelf(records, self);
    seq(|l|, k requires 0 <= k < |l| => ToPublic(l[k], k))
  }

  /** The profile listing of an id array, as the caller `self` sees it. */
  function ProfileListing(users: UserStore, ids: seq<ObjectId>, self: ObjectId): seq<PublicUser>
  {
    Numbered(Found(users, ids), self)
  }

  lemma {:induction false} FoundMembers(users: UserStore, ids: seq<ObjectId>)
    ensures |Found(users, ids)| <= |ids|
    ensures forall u :: u in Found(users, ids) <==> exists x :: x in ids && x in users && users[x] == u
  {
    if ids != [] {
      var n := |ids| - 1;
      FoundMembers(users, ids[..n]);
      assert ids == ids[..n] + [ids[n]];
      forall u | u in Found(users, ids)
        ensures exists x :: x in ids && x in users && users[x] == u
      {
        if u !in Found(users, ids[..n]) {
          assert ids[n] in ids;
        }
      }
    }
  }

  /** Looking ids up keeps their order: a concatenation of id arrays yields the concatenation. */
  lemma {:induction false} FoundConcat(users: UserStore, a: seq<ObjectId>, b: seq<ObjectId>)
    ensures Found(users, a + b) == Found(users, a) + Found(users, b)
  {
    if b == [] {
      assert a + b == a;
    } else {
      var n := |b| - 1;
      assert (a + b)[..|a + b| - 1] == a + b[..n];
      FoundConcat(users, a, b[..n]);
    }
  }

  lemma {:induction false} NonSelfMembers(records: seq<User>, self: ObjectId)
    ensures |NonSelf(records, self)| <= |records|
    ensures forall u :: u in NonSelf(records, self) <==> u in records && u.id != self
  {
    if records != [] {
      var n := |records| - 1;
      NonSelfMembers(records[..n], self);
      assert records == records[..n] + [records[n]];
    }
  }

  lemma NonSelfAppend(records: seq<User>, u: User, self: ObjectId)
    ensures NonSelf(records + [u], self) == NonSelf(records, self) + (if u.id != self then [u] else [])
  {
    assert (records + [u])[..|records + [u]| - 1] == records;
  }

  lemma NumberedAppend(records: seq<User>, u: User, self: ObjectId)
    ensures Numbered(records + [u], self)
         == Numbered(records, self) + (if u.id != self then [ToPublic(u, |NonSelf(records, self)|)] else [])
  {
    NonSelfAppend(records, u, self);
  }

  /**
   * Listing one more id appends at most one entry at the end: the stored,
   * non-caller user it names, numbered after every earlier entry. So entries
   * follow the order of the id array, and an id listed twice is listed twice.
   */
  lemma {:induction false} ProfileListingAppend(users: UserStore, ids: seq<ObjectId>, x: ObjectId, self: ObjectId)
    ensures ProfileListing(users, ids + [x], self)
         == ProfileListing(users, ids, self)
            + (if x in users && users[x].id != self
               then [ToPublic(users[x], |ProfileListing(users, ids, self)|)] else [])
  {
    FoundConcat(users, ids, [x]);
    assert [x][..0] == [];
    var found := Found(users, ids);
    if x in users {
      assert Found(users, [x]) == [users[x]];
      NumberedAppend(found, users[x], self);
    } else {
      assert Found(users, [x]) == [];
      assert found + [] == found;
    }
  }

  /** A user followed twice appears twice, numbered 0 and 1. */
  lemma {:induction false} ProfileListingRepeats(users: UserStore, x: ObjectId, self: ObjectId)
    requires x in users && users[x].id != self
    ensures ProfileListing(users, [x, x], self) == [ToPublic(users[x], 0), ToPublic(users[x], 1)]
  {
    assert ProfileListing(users, [], self) == [];
    ProfileListingAppend(users, [], x, self);
    assert [] + [x] == [x];
    ProfileListingAppend(users, [x], x, self);
    assert [x] + [x] == [x, x];
  }

  /**
   * A profile listing: the k-th entry has `refNo == k`, no entry is the
   * caller, every entry is the projection of a stored user named in the id
   * array, and every stored non-caller user named there has an entry.
   */
  lemma {:induction false} ProfileListingSpec(users: UserStore, ids: seq<ObjectId>, self: ObjectId)
    ensures var r := ProfileListing(users, ids, self);
      && |r| <= |ids|
      && (forall k :: 0 <= k < |r| ==> r[k].refNo == k && r[k].id != self)
      && (forall k :: 0 <= k < |r| ==> exists x :: x in ids && x in users && r[k] == ToPublic(users[x], k))
      && (forall x :: x in ids && x in users && users[x].id != self ==>
            exists k :: 0 <= k < |r| && r[k] == ToPublic(users[x], k))
  {
    var found := Found(users, ids);
    var l := NonSelf(found, self);
    var r := ProfileListing(users, ids, self);
    FoundMembers(users, ids);
    NonSelfMembers(found, self);
    forall k | 0 <= k < |r|
      ensures r[k].refNo == k && r[k].id != self
      ensures exists x :: x in ids && x in users && r[k] == ToPublic(users[x], k)
    {
      assert r[k] == ToPublic(l[k], k);
      assert l[k] in l;
    }
    forall x | x in ids && x in users && users[x].id != self
      ensures exists k :: 0 <= k < |r| && r[k] == ToPublic(users[x], k)
    {
      assert users[x] in l;
      var k :| 0 <= k < |l| && l[k] == users[x];
      assert r[k] == ToPublic(users[x], k);
    }
  }

  /** `get_all_following`: a copy of the user's following array. */
  method GetAllFollowing(users: UserStore, userId: ObjectId) returns (following: seq<ObjectId>)
    ensures following == FollowingOf(users, userId)
  {
    following := [];
    if userId in users {
      var user := users[userId];
      for i := 0 to |user.following|
        invariant following == user.following[..i]
      {
        following := following + [user.following[i]];
      }
    }
  }

  /** `get_all_followers`: a copy of the user's followers array. */
  method GetAllFollowers(users: UserStore, userId: ObjectId) returns (followers: seq<ObjectId>)
    ensures followers == FollowersOf(users, userId)
  {
    followers := [];
    if userId in users {
      var user := users[userId];
      for i := 0 to |user.followers|
        invariant followers == user.followers[..i]
      {
        followers := followers + [user.followers[i]];
      }
    }
  }

  /** The loop both profile functions share: look up each id, skip the caller, number the rest. */
  method ListProfiles(users: UserStore, ids: seq<ObjectId>, self: ObjectId) returns (r: seq<PublicUser>)
    ensures r == ProfileListing(users, ids, self)
    ensures forall k :: 0 <= k < |r| ==> r[k].refNo == k && r[k].id != self
  {
    r := [];
    var refNo := 0;
    for i := 0 to |ids|
      invariant refNo == |NonSelf(Found(users, ids[..i]), self)|
      invariant r == ProfileListing(users, ids[..i], self)
    {
      assert ids[..i + 1] == ids[..i] + [ids[i]];
      FoundConcat(users, ids[..i], [ids[i]]);
      if ids[i] in users {
        var user := users[ids[i]];
        assert Found(users, [ids[i]]) == [user];
        NumberedAppend(Found(users, ids[..i]), user, self);
        NonSelfAppend(Found(users, ids[..i]), user, self);
        if user.id != self {
          r := r + [ToPublic(user, refNo)];
          refNo := refNo + 1;
        }
      } else {
        assert Found(users, [ids[i]]) == [];
        assert Found(users, ids[..i + 1]) == Found(users, ids[..i]);
      }
    }
    assert ids[..|ids|] == ids;
    ProfileListingSpec(users, ids, self);
  }

  /** `get_all_following_profile`. */
  method GetAllFollowingProfile(users: UserStore, userId: ObjectId) returns (r: seq<PublicUser>)
    ensures r == ProfileListing(users, FollowingOf(users, userId), userId)
  {
    var ids := GetAllFollowing(users, userId);
    r := ListProfiles(users, ids, userId);
  }

  /** `get_all_followers_profile`. */
  method GetAllFollowersProfile(users: UserStore, userId: ObjectId) returns (r: seq<PublicUser>)
    ensures r == ProfileListing(users, FollowersOf(users, userId), userId)
  {
    var ids := GetAllFollowers(users, userId);
    r := ListProfiles(users, ids, userId);
  }

  /** The cursor of `find({username})`: the user holding the username, if any. */
  function UsersNamed(users: UserStore, username: string): seq<User>
    requires UniqueUsernames(users)
  {
    match FindByUsername(users, username)
    case Some(u) => [u]
    case None => []
  }

  /** The record `find_users_by_names` starts from: refNo 0, a fresh id, everything else empty. */
  function Placeholder(freshId: ObjectId): PublicUser
  {
    PublicUser(0, freshId, "", "", "", [], [], [])
  }

  /**
   * `find_users_by_names`: the last numbered non-caller entry among the
   * users holding the username. With unique usernames that is the holder
   * itself, numbered 0, unless it is the caller or there is none; then the
   * placeholder comes back.
   */
  method FindUsersByNames(users: UserStore, username: string, userId: ObjectId, freshId: ObjectId)
    returns (r: PublicUser)
    requires UniqueUsernames(users)
    ensures var l := Numbered(UsersNamed(users, username), userId);
      r == if l == [] then Placeholder(freshId) else l[|l| - 1]
    ensures r.refNo == 0
    ensures var found := FindByUsername(users, username);
      if found.Some? && found.value.id != userId then r == ToPublic(found.value, 0)
      else r == Placeholder(freshId)
  {
    var cursor := UsersNamed(users, username);
    r := Placeholder(freshId);
    var refNo := 0;
    for i := 0 to |cursor|
      invariant refNo == |NonSelf(cursor[..i], userId)|
      invariant var l := Numbered(cursor[..i], userId);
        r == if l == [] then Placeholder(freshId) else l[|l| - 1]
    {
      assert cursor[..i + 1] == cursor[..i] + [cursor[i]];
      NumberedAppend(cursor[..i], cursor[i], userId);
      NonSelfAppend(cursor[..i], cursor[i], userId);
      if cursor[i].id != userId {
        r := ToPublic(cursor[i], refNo);
        refNo := refNo + 1;
      }
    }
    assert cursor[..|cursor|] == cursor;
    if cursor != [] {
      assert cursor == [] + [cursor[0]];
      NonSelfAppend([], cursor[0], userId);
    }
  }
}

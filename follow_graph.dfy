/**
 * The follow graph: `follow`, `unfollow` and `remove_follower` each issue two
 * single-document updates, a `$push` or `$pull` on one user's `following`
 * and on the other user's `followers`. The two writes are applied one after
 * the other to the users map; a filter that matches no document changes
 * nothing.
 */
module FollowGraph {
  import opened Types
  import opened ArrayOps
  import opened UserArrays
  import Accounts

  /** `follow(user_id, fuser_id)`. */
  function FollowEdges(users: UserStore, userId: ObjectId, fuserId: ObjectId): UserStore
  {
    Push(Push(users, userId, Following, fuserId), fuserId, Followers, userId)
  }

  /** The two writes of `unfollow(user_id, fuser_id)`. */
  function UnfollowEdges(users: UserStore, userId: ObjectId, fuserId: ObjectId): UserStore
  {
    PullFrom(PullFrom(users, userId, Following, fuserId), fuserId, Followers, userId)
  }

  /** The two writes of `remove_follower(user_id, follower_id)`. */
  function RemoveFollowerEdges(users: UserStore, userId: ObjectId, followerId: ObjectId): UserStore
  {
    PullFrom(PullFrom(users, userId, Followers, followerId), followerId, Following, userId)
  }

  /** Only the two id arrays of the follow graph differ between the two stores. */
  ghost predicate OnlyEdgesChanged(users: UserStore, r: UserStore)
  {
    && r.Keys == users.Keys
    && forall k :: k in users ==>
         r[k].(followers := users[k].followers, following := users[k].following) == users[k]
  }

  /**
   * Every directed edge is recorded as often in the follower's `following`
   * as in the followed user's `followers`.
   */
  ghost predicate Symmetric(users: UserStore)
  {
    forall a, b :: a in users && b in users ==>
      multiset(users[a].following)[b] == multiset(users[b].followers)[a]
  }

  /** `follow` appends at the end of both arrays, without any duplicate check. */
  lemma FollowAppends(users: UserStore, u: ObjectId, f: ObjectId)
    ensures var r := FollowEdges(users, u, f);
      && OnlyEdgesChanged(users, r)
      && (u in users ==> r[u].following == users[u].following + [f])
      && (f in users ==> r[f].followers == users[f].followers + [u])
      && (forall k :: k in users && k != u ==> r[k].following == users[k].following)
      && (forall k :: k in users && k != f ==> r[k].followers == users[k].followers)
  {
    forall k | k in users {
      FollowAt(users, u, f, k);
    }
  }

  /** `follow`, seen from one stored user. */
  lemma FollowAt(users: UserStore, u: ObjectId, f: ObjectId, k: ObjectId)
    requires k in users
    ensures k in FollowEdges(users, u, f)
    ensures FollowEdges(users, u, f)[k].following
         == if k == u then users[k].following + [f] else users[k].following
    ensures FollowEdges(users, u, f)[k].followers
         == if k == f then users[k].followers + [u] else users[k].followers
    ensures FollowEdges(users, u, f)[k].(followers := users[k].followers, following := users[k].following)
         == users[k]
  {
    PushAt(users, u, Following, f, k);
    PushAt(Push(users, u, Following, f), f, Followers, u, k);
  }

  /** Following twice records the edge twice on both sides. */
  lemma FollowTwiceDuplicates(users: UserStore, u: ObjectId, f: ObjectId)
    requires u in users && f in users
    ensures var r := FollowEdges(FollowEdges(users, u, f), u, f);
      && multiset(r[u].following)[f] == multiset(users[u].following)[f] + 2
      && multiset(r[f].followers)[u] == multiset(users[f].followers)[u] + 2
  {
    var once := FollowEdges(users, u, f);
    FollowAppends(users, u, f);
    FollowAppends(once, u, f);
    assert users[u].following + [f] + [f] == users[u].following + [f, f];
    assert users[f].followers + [u] + [u] == users[f].followers + [u, u];
  }

  /** `unfollow` removes every occurrence of the edge on both sides and nothing else. */
  lemma UnfollowRemoves(users: UserStore, u: ObjectId, f: ObjectId)
    ensures var r := UnfollowEdges(users, u, f);
      && OnlyEdgesChanged(users, r)
      && (u in users ==> f !in r[u].following)
      && (f in users ==> u !in r[f].followers)
      && (forall k, x :: k in users && (k, x) != (u, f) ==>
            multiset(r[k].following)[x] == multiset(users[k].following)[x])
      && (forall k, x :: k in users && (k, x) != (f, u) ==>
            multiset(r[k].followers)[x] == multiset(users[k].followers)[x])
  {
    var r := UnfollowEdges(users, u, f);
    forall k | k in users {
      UnfollowAt(users, u, f, k);
    }
    forall k, x | k in users && (k, x) != (u, f)
      ensures multiset(r[k].following)[x] == multiset(users[k].following)[x]
    {
      UnfollowAt(users, u, f, k);
    }
    forall k, x | k in users && (k, x) != (f, u)
      ensures multiset(r[k].followers)[x] == multiset(users[k].followers)[x]
    {
      UnfollowAt(users, u, f, k);
    }
  }

  /** `unfollow`, seen from one stored user. */
  lemma UnfollowAt(users: UserStore, u: ObjectId, f: ObjectId, k: ObjectId)
    requires k in users
    ensures k in UnfollowEdges(users, u, f)
    ensures UnfollowEdges(users, u, f)[k].following
         == if k == u then Pull(users[k].following, f) else users[k].following
    ensures UnfollowEdges(users, u, f)[k].followers
         == if k == f then Pull(users[k].followers, u) else users[k].followers
    ensures UnfollowEdges(users, u, f)[k].(followers := users[k].followers, following := users[k].following)
         == users[k]
  {
    PullFromAt(users, u, Following, f, k);
    PullFromAt(PullFrom(users, u, Following, f), f, Followers, u, k);
  }

  /** Removing an edge that is recorded on neither side is a no-op. */
  lemma UnfollowAbsentEdge(users: UserStore, u: ObjectId, f: ObjectId)
    requires u in users ==> f !in users[u].following
    requires f in users ==> u !in users[f].followers
    ensures UnfollowEdges(users, u, f) == users
  {
    if u in users {
      PullAbsent(users[u].following, f);
    }
    var mid := PullFrom(users, u, Following, f);
    if f in users {
      PullAbsent(mid[f].followers, u);
    }
  }

  /** A `$pull` right after a `$push` of a value the array did not hold cancels it. */
  lemma PullCancelsPush(users: UserStore, id: ObjectId, f: Field, x: ObjectId)
    requires id in users ==> x !in ArrayOf(users[id], f)
    ensures PullFrom(Push(users, id, f, x), id, f, x) == users
  {
    var pushed := Push(users, id, f, x);
    var back := PullFrom(pushed, id, f, x);
    forall k | k in users
      ensures back[k] == users[k]
    {
      PushAt(users, id, f, x, k);
      PullFromAt(pushed, id, f, x, k);
      if k == id {
        var u := users[k];
        PullUndoesPush(ArrayOf(u, f), x);
        WithArrayTwice(u, f, ArrayOf(u, f) + [x], ArrayOf(u, f));
        WithArraySame(u, f);
      }
    }
  }

  /** Updates of two different arrays commute. */
  lemma PushPullCommute(users: UserStore, id1: ObjectId, f1: Field, x1: ObjectId,
                        id2: ObjectId, f2: Field, x2: ObjectId)
    requires f1 != f2
    ensures PullFrom(Push(users, id1, f1, x1), id2, f2, x2)
         == Push(PullFrom(users, id2, f2, x2), id1, f1, x1)
  {
    var pushed := Push(users, id1, f1, x1);
    var pulled := PullFrom(users, id2, f2, x2);
    var a := PullFrom(pushed, id2, f2, x2);
    var b := Push(pulled, id1, f1, x1);
    forall k | k in users
      ensures a[k] == b[k]
    {
      PushAt(users, id1, f1, x1, k);
      PullFromAt(pushed, id2, f2, x2, k);
      PullFromAt(users, id2, f2, x2, k);
      PushAt(pulled, id1, f1, x1, k);
      if k == id1 && k == id2 {
        var u := users[k];
        WithArrayCommute(u, f1, ArrayOf(u, f1) + [x1], f2, Pull(ArrayOf(u, f2), x2));
      }
    }
  }

  /** `unfollow` undoes a `follow` of an edge that was not there before. */
  lemma UnfollowUndoesFollow(users: UserStore, u: ObjectId, f: ObjectId)
    requires u in users ==> f !in users[u].following
    requires f in users ==> u !in users[f].followers
    ensures UnfollowEdges(FollowEdges(users, u, f), u, f) == users
  {
    var pushed := Push(users, u, Following, f);
    PushPullCommute(pushed, f, Followers, u, u, Following, f);
    PullCancelsPush(users, u, Following, f);
    PullCancelsPush(users, f, Followers, u);
  }

  /** `remove_follower(u, x)` performs the same two pulls as `unfollow(x, u)`. */
  lemma RemoveFollowerIsReverseUnfollow(users: UserStore, u: ObjectId, follower: ObjectId)
    ensures RemoveFollowerEdges(users, u, follower) == UnfollowEdges(users, follower, u)
  {
    var r1 := RemoveFollowerEdges(users, u, follower);
    var r2 := UnfollowEdges(users, follower, u);
    forall k | k in users
      ensures r1[k] == r2[k]
    {
    }
  }

  lemma FollowKeepsSymmetric(users: UserStore, u: ObjectId, f: ObjectId)
    requires Symmetric(users)
    ensures Symmetric(FollowEdges(users, u, f))
  {
    var r := FollowEdges(users, u, f);
    forall a, b | a in r && b in r
      ensures multiset(r[a].following)[b] == multiset(r[b].followers)[a]
    {
      FollowAt(users, u, f, a);
      FollowAt(users, u, f, b);
      var before := multiset(users[a].following)[b];
      assert before == multiset(users[b].followers)[a];
      var added := if (a, b) == (u, f) then 1 else 0;
      if a == u {
        assert multiset(r[a].following) == multiset(users[a].following) + multiset{f};
      }
      if b == f {
        assert multiset(r[b].followers) == multiset(users[b].followers) + multiset{u};
      }
      assert multiset(r[a].following)[b] == before + added;
    }
  }

  lemma UnfollowKeepsSymmetric(users: UserStore, u: ObjectId, f: ObjectId)
    requires Symmetric(users)
    ensures Symmetric(UnfollowEdges(users, u, f))
  {
    var r := UnfollowEdges(users, u, f);
    forall a, b | a in r && b in r
      ensures multiset(r[a].following)[b] == multiset(r[b].followers)[a]
    {
      UnfollowAt(users, u, f, a);
      UnfollowAt(users, u, f, b);
      assert multiset(users[a].following)[b] == multiset(users[b].followers)[a];
    }
  }

  lemma RemoveFollowerKeepsSymmetric(users: UserStore, u: ObjectId, follower: ObjectId)
    requires Symmetric(users)
    ensures Symmetric(RemoveFollowerEdges(users, u, follower))
  {
    RemoveFollowerIsReverseUnfollow(users, u, follower);
    UnfollowKeepsSymmetric(users, follower, u);
  }

  /**
   * Registration keeps edge symmetry when the fresh id is new to the graph,
   * as an `ObjectId::new()` is: no stored user follows it or is followed by it.
   */
  lemma CreateUserKeepsSymmetric(users: UserStore, username: string, password: string, name: string,
                                 freshId: ObjectId)
    requires Symmetric(users) && freshId !in users
    requires forall k :: k in users ==> freshId !in users[k].following && freshId !in users[k].followers
    ensures Symmetric(Accounts.CreateUser(users, username, password, name, freshId).0)
  {
    var r := Accounts.CreateUser(users, username, password, name, freshId).0;
    if !Accounts.HasUsername(users, username) {
      forall a, b | a in r && b in r
        ensures multiset(r[a].following)[b] == multiset(r[b].followers)[a]
      {
        if a == freshId {
          assert r[a].following == [];
          if b != freshId {
            assert freshId !in multiset(users[b].followers);
          }
        } else if b == freshId {
          assert r[b].followers == [];
          assert freshId !in multiset(users[a].following);
        } else {
          assert multiset(users[a].following)[b] == multiset(users[b].followers)[a];
        }
      }
    }
  }

  /** The three setters write no id array, so they keep edge symmetry. */
  lemma SettingKeepsSymmetric(users: UserStore, username: string, s: Accounts.Setting, v: string)
    requires Symmetric(users)
    ensures Symmetric(Accounts.UpdateByUsername(users, username, s, v))
  {
    var r := Accounts.UpdateByUsername(users, username, s, v);
    forall k | k in users
      ensures r[k].following == users[k].following && r[k].followers == users[k].followers
    {
      Accounts.UpdateByUsernameEffect(users, username, s, v);
    }
    forall a, b | a in r && b in r
      ensures multiset(r[a].following)[b] == multiset(r[b].followers)[a]
    {
      assert multiset(users[a].following)[b] == multiset(users[b].followers)[a];
    }
  }

  /** A push onto or a pull from `voice_notes` keeps edge symmetry. */
  lemma VoiceNotesWriteKeepsSymmetric(users: UserStore, id: ObjectId, x: ObjectId)
    requires Symmetric(users)
    ensures Symmetric(Push(users, id, VoiceNotes, x))
    ensures Symmetric(PullFrom(users, id, VoiceNotes, x))
  {
    var pushed := Push(users, id, VoiceNotes, x);
    var pulled := PullFrom(users, id, VoiceNotes, x);
    forall k | k in users
      ensures pushed[k].following == users[k].following && pushed[k].followers == users[k].followers
      ensures pulled[k].following == users[k].following && pulled[k].followers == users[k].followers
    {
      PushAt(users, id, VoiceNotes, x, k);
      PullFromAt(users, id, VoiceNotes, x, k);
      assert users[k].following == ArrayOf(users[k], Following);
      assert users[k].followers == ArrayOf(users[k], Followers);
      assert pushed[k].following == ArrayOf(pushed[k], Following);
      assert pushed[k].followers == ArrayOf(pushed[k], Followers);
      assert pulled[k].following == ArrayOf(pulled[k], Following);
      assert pulled[k].followers == ArrayOf(pulled[k], Followers);
    }
    forall a, b | a in users && b in users
      ensures multiset(pushed[a].following)[b] == multiset(pushed[b].followers)[a]
      ensures multiset(pulled[a].following)[b] == multiset(pulled[b].followers)[a]
    {
      assert multiset(users[a].following)[b] == multiset(users[b].followers)[a];
    }
  }
}

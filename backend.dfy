/**
 * The backend over its two collections. `Store` holds the `users` and the
 * `Voice Notes` collections as maps keyed by id; each operation that writes
 * performs the source's store calls in order, and its postcondition ties the
 * new maps to the specification functions of FollowGraph, Accounts,
 * Reactions and Content. Fresh ids and the current time are parameters.
 */
module Backend {
  import opened Types
  import UserArrays
  import FollowGraph
  import Accounts
  import Reactions
  import Content
  import Listings

  class Store {
    var users: UserStore
    var notes: NoteStore

    /**
     * Usernames stay unique, because `create_user` refuses a taken one, and
     * every follow edge is recorded on both of its ends equally often.
     */
    ghost predicate Valid()
      reads this
    {
      Accounts.UniqueUsernames(users) && FollowGraph.Symmetric(users)
    }

    constructor ()
      ensures Valid() && users == map[] && notes == map[]
    {
      users := map[];
      notes := map[];
    }

    /** `create_user`: the fresh id is one no stored user holds, follows or is followed by. */
    method CreateUser(username: string, password: string, name: string, freshId: ObjectId)
      returns (id: ObjectId)
      requires Valid() && freshId !in users
      requires forall k :: k in users ==> freshId !in users[k].following && freshId !in users[k].followers
      modifies this
      ensures Valid()
      ensures (users, id) == Accounts.CreateUser(old(users), username, password, name, freshId)
      ensures notes == old(notes)
    {
      Accounts.CreateUserKeepsUnique(users, username, password, name, freshId);
      FollowGraph.CreateUserKeepsSymmetric(users, username, password, name, freshId);
      if Accounts.HasUsername(users, username) {
        id := DuplicateUsernameId;
      } else {
        users := users[freshId := Accounts.NewUser(freshId, username, password, name)];
        id := freshId;
      }
    }

    /** The three `update_*_by_username` setters: a store without errors always answers true. */
    method UpdateByUsername(username: string, setting: Accounts.Setting, value: string) returns (ok: bool)
      requires Valid()
      modifies this
      ensures Valid() && ok
      ensures users == Accounts.UpdateByUsername(old(users), username, setting, value)
      ensures notes == old(notes)
    {
      Accounts.UpdateByUsernameEffect(users, username, setting, value);
      FollowGraph.SettingKeepsSymmetric(users, username, setting, value);
      users := Accounts.UpdateByUsername(users, username, setting, value);
      ok := true;
    }

    /** `update_user_name_by_username`. */
    method UpdateUserNameByUsername(username: string, newName: string) returns (ok: bool)
      requires Valid()
      modifies this
      ensures Valid() && ok
      ensures users == Accounts.UpdateByUsername(old(users), username, Accounts.Name, newName)
      ensures notes == old(notes)
    {
      ok := UpdateByUsername(username, Accounts.Name, newName);
    }

    /** `update_password_by_username`. */
    method UpdatePasswordByUsername(username: string, newPassword: string) returns (ok: bool)
      requires Valid()
      modifies this
      ensures Valid() && ok
      ensures users == Accounts.UpdateByUsername(old(users), username, Accounts.Password, newPassword)
      ensures notes == old(notes)
    {
      ok := UpdateByUsername(username, Accounts.Password, newPassword);
    }

    /** `update_description_by_username`. */
    method UpdateDescriptionByUsername(username: string, newDesc: string) returns (ok: bool)
      requires Valid()
      modifies this
      ensures Valid() && ok
      ensures users == Accounts.UpdateByUsername(old(users), username, Accounts.Description, newDesc)
      ensures notes == old(notes)
    {
      ok := UpdateByUsername(username, Accounts.Description, newDesc);
    }

    /**
     * `react_to_quote`: the positional replace reports how many documents it
     * modified; when that is none, the reaction is pushed.
     */
    method ReactToQuote(vId: ObjectId, userId: ObjectId, kind: ReactionType)
      requires Valid()
      modifies this
      ensures Valid()
      ensures notes == Reactions.ReactToQuote(old(notes), vId, userId, kind)
      ensures users == old(users)
    {
      var mine := Reaction(userId, kind);
      var modifiedCount := 0;
      if vId in notes {
        var post := notes[vId];
        var matched := Reactions.FirstReactionOf(post.reactions, userId);
        if matched.Some? && post.reactions[matched.value] != mine {
          notes := notes[vId := post.(reactions := post.reactions[matched.value := mine])];
          modifiedCount := 1;
        }
      }
      if modifiedCount == 0 && vId in notes {
        notes := notes[vId := notes[vId].(reactions := notes[vId].reactions + [mine])];
      }
    }

    /** `save_voice_note`. */
    method SaveVoiceNote(userId: ObjectId, vId: ObjectId)
      requires Valid()
      modifies this
      ensures Valid()
      ensures users == Content.SaveVoiceNote(old(users), userId, vId)
      ensures notes == old(notes)
    {
      UserArrays.UsernamesKept(users, userId, UserArrays.VoiceNotes, vId);
      FollowGraph.VoiceNotesWriteKeepsSymmetric(users, userId, vId);
      users := UserArrays.Push(users, userId, UserArrays.VoiceNotes, vId);
    }

    /** `create_post`: the author must exist and the note id must be new. */
    method CreatePost(userId: ObjectId, data: seq<Sample>, voiceId: ObjectId, now: Timestamp)
      requires Valid() && userId in users && voiceId !in notes
      modifies this
      ensures Valid()
      ensures (users, notes) == Content.CreatePost(old(users), old(notes), userId, data, voiceId, now)
    {
      var user := users[userId];
      notes := notes[voiceId := Content.NewNote(voiceId, userId, user.name, true, data, now)];
      SaveVoiceNote(userId, voiceId);
    }

    /** `add_reply`. */
    method AddReply(voiceId: ObjectId, commentId: ObjectId)
      requires Valid()
      modifies this
      ensures Valid()
      ensures notes == Content.AddReply(old(notes), voiceId, commentId)
      ensures users == old(users)
    {
      if voiceId in notes {
        notes := notes[voiceId := notes[voiceId].(replies := notes[voiceId].replies + [commentId])];
      }
    }

    /** `create_comment`: the author must exist and the comment id must be new. */
    method CreateComment(userId: ObjectId, voiceId: ObjectId, commentId: ObjectId, data: seq<Sample>,
                         now: Timestamp)
      requires Valid() && userId in users && commentId !in notes
      modifies this
      ensures Valid()
      ensures notes == Content.CreateComment(old(users), old(notes), userId, voiceId, commentId, data, now)
      ensures users == old(users)
    {
      var user := users[userId];
      notes := notes[commentId := Content.NewNote(commentId, userId, user.name, false, data, now)];
      AddReply(voiceId, commentId);
    }

    /** `delete_post`. */
    method DeletePost(voiceNoteId: ObjectId, userId: ObjectId)
      requires Valid()
      modifies this
      ensures Valid()
      ensures (users, notes) == Content.DeletePost(old(users), old(notes), voiceNoteId, userId)
    {
      notes := notes - {voiceNoteId};
      UserArrays.UsernamesKept(users, userId, UserArrays.VoiceNotes, voiceNoteId);
      FollowGraph.VoiceNotesWriteKeepsSymmetric(users, userId, voiceNoteId);
      users := UserArrays.PullFrom(users, userId, UserArrays.VoiceNotes, voiceNoteId);
    }

    /** `follow`. */
    method Follow(userId: ObjectId, fuserId: ObjectId)
      requires Valid()
      modifies this
      ensures Valid()
      ensures users == FollowGraph.FollowEdges(old(users), userId, fuserId)
      ensures notes == old(notes)
    {
      FollowGraph.FollowKeepsSymmetric(users, userId, fuserId);
      UserArrays.UsernamesKept(users, userId, UserArrays.Following, fuserId);
      users := UserArrays.Push(users, userId, UserArrays.Following, fuserId);
      UserArrays.UsernamesKept(users, fuserId, UserArrays.Followers, userId);
      users := UserArrays.Push(users, fuserId, UserArrays.Followers, userId);
    }

    /** `unfollow`: returns the caller's following listing afterwards. */
    method Unfollow(userId: ObjectId, fuserId: ObjectId) returns (r: seq<PublicUser>)
      requires Valid()
      modifies this
      ensures Valid()
      ensures users == FollowGraph.UnfollowEdges(old(users), userId, fuserId)
      ensures notes == old(notes)
      ensures r == Listings.ProfileListing(users, Listings.FollowingOf(users, userId), userId)
    {
      FollowGraph.UnfollowKeepsSymmetric(users, userId, fuserId);
      UserArrays.UsernamesKept(users, userId, UserArrays.Following, fuserId);
      users := UserArrays.PullFrom(users, userId, UserArrays.Following, fuserId);
      UserArrays.UsernamesKept(users, fuserId, UserArrays.Followers, userId);
      users := UserArrays.PullFrom(users, fuserId, UserArrays.Followers, userId);
      r := Listings.GetAllFollowingProfile(users, userId);
    }

    /** `remove_follower`: returns the caller's followers listing afterwards. */
    method RemoveFollower(userId: ObjectId, followerId: ObjectId) returns (r: seq<PublicUser>)
      requires Valid()
      modifies this
      ensures Valid()
      ensures users == FollowGraph.RemoveFollowerEdges(old(users), userId, followerId)
      ensures notes == old(notes)
      ensures r == Listings.ProfileListing(users, Listings.FollowersOf(users, userId), userId)
    {
      FollowGraph.RemoveFollowerKeepsSymmetric(users, userId, followerId);
      UserArrays.UsernamesKept(users, userId, UserArrays.Followers, followerId);
      users := UserArrays.PullFrom(users, userId, UserArrays.Followers, followerId);
      UserArrays.UsernamesKept(users, followerId, UserArrays.Following, userId);
      users := UserArrays.PullFrom(users, followerId, UserArrays.Following, userId);
      r := Listings.GetAllFollowersProfile(users, userId);
    }
  }
}

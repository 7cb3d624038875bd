/**
 * The content lifecycle: posts and comments are inserted into the notes map;
 * a post's id is pushed onto its author's `voice_notes`, a comment's id onto
 * its parent's `replies`. Deleting a note removes it and pulls it from the
 * given user's `voice_notes` only. The conversation view reads a post and
 * looks up the author of each of its direct replies.
 */
module Content {
  import opened Types
  import opened UserArrays
  import opened Listings
  import opened Feed

  /** A note as `create_post` and `create_comment` build it: no replies, no reactions. */
  function NewNote(id: ObjectId, userId: ObjectId, name: string, isPost: bool,
                   data: seq<Sample>, now: Timestamp): VoiceNote
  {
    VoiceNote(id, userId, name, isPost, data, [], [], now)
  }

  /** `save_voice_note`: push the note id onto the user's `voice_notes`. */
  function SaveVoiceNote(users: UserStore, userId: ObjectId, vId: ObjectId): UserStore
  {
    Push(users, userId, VoiceNotes, vId)
  }

  /** `add_reply`: push the comment id onto the parent's `replies`; no such parent, no change. */
  function AddReply(notes: NoteStore, voiceId: ObjectId, commentId: ObjectId): (r: NoteStore)
    ensures r.Keys == notes.Keys
  {
    if voiceId in notes then notes[voiceId := notes[voiceId].(replies := notes[voiceId].replies + [commentId])]
    else notes
  }

  /** `create_post`: both stores afterwards. */
  function CreatePost(users: UserStore, notes: NoteStore, userId: ObjectId, data: seq<Sample>,
                      voiceId: ObjectId, now: Timestamp): (UserStore, NoteStore)
    requires userId in users
  {
    var note := NewNote(voiceId, userId, users[userId].name, true, data, now);
    (SaveVoiceNote(users, userId, voiceId), notes[voiceId := note])
  }

  /** `create_comment`: the notes map afterwards; the users map is not written. */
  function CreateComment(users: UserStore, notes: NoteStore, userId: ObjectId, voiceId: ObjectId,
                         commentId: ObjectId, data: seq<Sample>, now: Timestamp): NoteStore
    requires userId in users
  {
    var comment := NewNote(commentId, userId, users[userId].name, false, data, now);
    AddReply(notes[commentId := comment], voiceId, commentId)
  }

  /** `delete_post`: both stores afterwards. */
  function DeletePost(users: UserStore, notes: NoteStore, voiceNoteId: ObjectId, userId: ObjectId)
    : (UserStore, NoteStore)
  {
    (PullFrom(users, userId, VoiceNotes, voiceNoteId), notes - {voiceNoteId})
  }

  /**
   * `create_post` stores a post carrying the author's current name and
   * appends its id to the author's `voice_notes`; nothing else changes.
   */
  lemma CreatePostEffect(users: UserStore, notes: NoteStore, userId: ObjectId, data: seq<Sample>,
                         voiceId: ObjectId, now: Timestamp)
    requires userId in users && voiceId !in notes
    ensures var (us, ns) := CreatePost(users, notes, userId, data, voiceId, now);
      && ns.Keys == notes.Keys + {voiceId}
      && (forall k :: k in notes ==> ns[k] == notes[k])
      && ns[voiceId].isPost && ns[voiceId].userId == userId && ns[voiceId].name == users[userId].name
      && ns[voiceId].data == data && ns[voiceId].timestamp == now
      && ns[voiceId].replies == [] && ns[voiceId].reactions == []
      && us.Keys == users.Keys
      && us[userId] == users[userId].(voiceNotes := users[userId].voiceNotes + [voiceId])
      && (forall k :: k in users && k != userId ==> us[k] == users[k])
  {
  }

  /**
   * `create_comment` stores a comment and appends its id to the parent's
   * `replies`; the author's `voice_notes` are not touched.
   */
  lemma CreateCommentEffect(users: UserStore, notes: NoteStore, userId: ObjectId, voiceId: ObjectId,
                            commentId: ObjectId, data: seq<Sample>, now: Timestamp)
    requires userId in users && commentId !in notes && voiceId != commentId
    ensures var ns := CreateComment(users, notes, userId, voiceId, commentId, data, now);
      && ns.Keys == notes.Keys + {commentId}
      && !ns[commentId].isPost && ns[commentId].userId == userId && ns[commentId].name == users[userId].name
      && ns[commentId].replies == [] && ns[commentId].reactions == []
      && (voiceId in notes ==> ns[voiceId] == notes[voiceId].(replies := notes[voiceId].replies + [commentId]))
      && (forall k :: k in notes && k != voiceId ==> ns[k] == notes[k])
  {
  }

  /**
   * `delete_post` removes the note and every occurrence of its id in the
   * given user's `voice_notes`, but leaves it in any parent's `replies`.
   */
  lemma DeletePostEffect(users: UserStore, notes: NoteStore, voiceNoteId: ObjectId, userId: ObjectId)
    ensures var (us, ns) := DeletePost(users, notes, voiceNoteId, userId);
      && ns.Keys == notes.Keys - {voiceNoteId}
      && (forall k :: k in ns ==> ns[k] == notes[k])
      && us.Keys == users.Keys
      && (userId in users ==> voiceNoteId !in us[userId].voiceNotes)
      && (userId in users ==> forall x :: x != voiceNoteId ==>
            multiset(us[userId].voiceNotes)[x] == multiset(users[userId].voiceNotes)[x])
      && (forall k :: k in users && k != userId ==> us[k] == users[k])
  {
  }

  /** After deleting a reply its parent still lists it: the id dangles. */
  lemma {:induction false} DeleteLeavesDanglingReply(users: UserStore, notes: NoteStore, parent: ObjectId,
                                                     reply: ObjectId, userId: ObjectId)
    requires parent in notes && parent != reply && reply in notes[parent].replies
    ensures var ns := DeletePost(users, notes, reply, userId).1;
      parent in ns && reply in ns[parent].replies && reply !in ns
  {
    DeletePostEffect(users, notes, reply, userId);
  }

  /** A new post shows up in the feed of every user who follows its author. */
  lemma {:induction false} NewPostReachesFollowers(users: UserStore, notes: NoteStore, author: ObjectId,
                                                   data: seq<Sample>, voiceId: ObjectId, now: Timestamp,
                                                   follower: ObjectId)
    requires author in users && voiceId !in notes
    requires follower in users && author in users[follower].following
    ensures var (us, ns) := CreatePost(users, notes, author, data, voiceId, now);
      ns[voiceId] in Gathered(us, ns, FollowingOf(us, follower))
  {
    var (us, ns) := CreatePost(users, notes, author, data, voiceId, now);
    CreatePostEffect(users, notes, author, data, voiceId, now);
    assert us[follower].following == users[follower].following;
    assert voiceId in us[author].voiceNotes;
    GatheredMembers(us, ns, FollowingOf(us, follower));
  }

  /** A comment never enters anyone's feed. */
  lemma CommentsStayOutOfFeeds(users: UserStore, notes: NoteStore, userId: ObjectId, voiceId: ObjectId,
                               commentId: ObjectId, data: seq<Sample>, now: Timestamp, reader: ObjectId)
    requires userId in users && commentId !in notes && voiceId != commentId
    ensures var ns := CreateComment(users, notes, userId, voiceId, commentId, data, now);
      ns[commentId] !in Gathered(users, ns, FollowingOf(users, reader))
  {
    var ns := CreateComment(users, notes, userId, voiceId, commentId, data, now);
    CreateCommentEffect(users, notes, userId, voiceId, commentId, data, now);
    GatheredMembers(users, ns, FollowingOf(users, reader));
  }

  /** `get_user_of_vn`: the author id and name stored on a note. */
  function GetUserOfVn(notes: NoteStore, vId: ObjectId): (r: Option<(ObjectId, string)>)
    ensures r.Some? <==> vId in notes
  {
    if vId in notes then Some((notes[vId].userId, notes[vId].name)) else None
  }

  /** Every reply id the post lists is stored: `create_conversation` unwraps each author lookup. */
  ghost predicate RepliesStored(notes: NoteStore, vId: ObjectId)
  {
    vId in notes ==> forall c :: c in notes[vId].replies ==> c in notes
  }

  /**
   * `create_conversation`: the post's id, author and reactions, and one
   * entry per stored reply, in stored order, with the reply's author. A post
   * that is not stored yields the freshly made empty note's ids and nothing else.
   */
  method CreateConversation(notes: NoteStore, vId: ObjectId, freshId: ObjectId, freshUserId: ObjectId)
    returns (c: Conversation)
    requires RepliesStored(notes, vId)
    ensures vId !in notes ==> c == Conversation(freshId, freshUserId, [], [])
    ensures vId in notes ==>
      && c.vId == notes[vId].id && c.vUserId == notes[vId].userId
      && c.reactions == notes[vId].reactions
      && |c.replies| == |notes[vId].replies|
      && forall k :: 0 <= k < |c.replies| ==>
           var id := notes[vId].replies[k];
           c.replies[k] == Reply(id, (notes[id].userId, notes[id].name))
  {
    // the timestamp of the stand-in note is never read, so any value will do
    var post := if vId in notes then notes[vId] else NewNote(freshId, freshUserId, "", false, [], 0);
    var conReplies: seq<Reply> := [];
    for i := 0 to |post.replies|
      invariant |conReplies| == i
      invariant forall k :: 0 <= k < i ==>
        post.replies[k] in notes &&
        conReplies[k] == Reply(post.replies[k], (notes[post.replies[k]].userId, notes[post.replies[k]].name))
    {
      var item := post.replies[i];
      assert item in post.replies;
      var author := GetUserOfVn(notes, item);
      conReplies := conReplies + [Reply(item, author.value)];
    }
    c := Conversation(post.id, post.userId, post.reactions, conReplies);
  }
}

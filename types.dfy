/**
 * The records of the speaker backend: the documents of the `users` and
 * `Voice Notes` collections, the read projections built from them, and the
 * two collections themselves as maps keyed by document id.
 */
module Types {

  /** A MongoDB ObjectId is 12 bytes; it is modelled as the 96-bit number they spell. */
  const ObjectIdLimit: int := 0x1_0000_0000_0000_0000_0000_0000
  type ObjectId = x: int | 0 <= x < ObjectIdLimit

  /** The id `create_user` returns when the username is taken: the bytes f0 f0 ... f0. */
  const DuplicateUsernameId: ObjectId := 0xf0f0_f0f0_f0f0_f0f0_f0f0_f0f0

  /** An `i16` audio sample. */
  newtype Sample = x: int | -0x8000 <= x < 0x8000

  /** Timestamps are stored as whole seconds since the epoch. */
  type Timestamp = int

  datatype Option<+T> = None | Some(value: T)

  datatype User = User(
    id: ObjectId,
    username: string,
    password: string,
    name: string,
    description: string,
    followers: seq<ObjectId>,
    following: seq<ObjectId>,
    voiceNotes: seq<ObjectId>)

  datatype ReactionType = SpeakUp | ShutUp

  datatype Reaction = Reaction(userId: ObjectId, reaction: ReactionType)

  datatype VoiceNote = VoiceNote(
    id: ObjectId,
    userId: ObjectId,
    name: string,          // the author's name when the note was created
    isPost: bool,          // true: a top-level post; false: a comment
    data: seq<Sample>,
    replies: seq<ObjectId>,
    reactions: seq<Reaction>,
    timestamp: Timestamp)

  /** A user without the password, numbered within one listing. */
  datatype PublicUser = PublicUser(
    refNo: nat,
    id: ObjectId,
    username: string,
    name: string,
    description: string,
    followers: seq<ObjectId>,
    following: seq<ObjectId>,
    voiceNotes: seq<ObjectId>)

  /** One reply of a conversation with its author's id and name. */
  datatype Reply = Reply(id: ObjectId, userId: (ObjectId, string))

  datatype Conversation = Conversation(
    vId: ObjectId,
    vUserId: ObjectId,
    reactions: seq<Reaction>,
    replies: seq<Reply>)

  /** The `users` collection, keyed by `_id`. */
  type UserStore = map<ObjectId, User>

  /** The `Voice Notes` collection, keyed by `_id`. */
  type NoteStore = map<ObjectId, VoiceNote>

  /** The `Users` to `publicUser` projection: every field but the password. */
  function ToPublic(u: User, refNo: nat): (p: PublicUser)
  {
    PublicUser(refNo, u.id, u.username, u.name, u.description, u.followers, u.following, u.voiceNotes)
  }
}

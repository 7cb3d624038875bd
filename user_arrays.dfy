/**
 * The id arrays of a user document and the two single-document array
 * updates the backend issues on them: a `$push` appends, a `$pull` removes
 * every occurrence. An update whose filter matches no user changes nothing.
 */
module UserArrays {
  import opened Types
  import opened ArrayOps

  /** The id arrays of a user document that the backend pushes to and pulls from. */
  datatype Field = Followers | Following | VoiceNotes

  function ArrayOf(u: User, f: Field): seq<ObjectId>
  {
    match f
    case Followers => u.followers
    case Following => u.following
    case VoiceNotes => u.voiceNotes
  }

  function WithArray(u: User, f: Field, s: seq<ObjectId>): (r: User)
    ensures ArrayOf(r, f) == s
    ensures forall g :: g != f ==> ArrayOf(r, g) == ArrayOf(u, g)
    ensures r.id == u.id && r.username == u.username && r.password == u.password
    ensures r.name == u.name && r.description == u.description
  {
    match f
    case Followers => u.(followers := s)
    case Following => u.(following := s)
    case VoiceNotes => u.(voiceNotes := s)
  }

  /** A `$push` of `x` onto array `f` of the user with id `id`; no such user, no change. */
  function Push(users: UserStore, id: ObjectId, f: Field, x: ObjectId): (r: UserStore)
    ensures r.Keys == users.Keys
  {
    if id in users then users[id := WithArray(users[id], f, ArrayOf(users[id], f) + [x])] else users
  }

  /** A `$pull` of every `x` from array `f` of the user with id `id`; no such user, no change. */
  function PullFrom(users: UserStore, id: ObjectId, f: Field, x: ObjectId): (r: UserStore)
    ensures r.Keys == users.Keys
  {
    if id in users then users[id := WithArray(users[id], f, Pull(ArrayOf(users[id], f), x))] else users
  }

  /** Neither write touches a username: the users map keeps its usernames key by key. */
  lemma UsernamesKept(users: UserStore, id: ObjectId, f: Field, x: ObjectId)
    ensures forall k :: k in users ==> Push(users, id, f, x)[k].username == users[k].username
    ensures forall k :: k in users ==> PullFrom(users, id, f, x)[k].username == users[k].username
  {
  }

  /** One `$push`, seen from one stored user. */
  lemma PushAt(users: UserStore, id: ObjectId, f: Field, x: ObjectId, k: ObjectId)
    requires k in users
    ensures k in Push(users, id, f, x)
    ensures Push(users, id, f, x)[k]
         == if k == id then WithArray(users[k], f, ArrayOf(users[k], f) + [x]) else users[k]
  {
  }

  /** One `$pull`, seen from one stored user. */
  lemma PullFromAt(users: UserStore, id: ObjectId, f: Field, x: ObjectId, k: ObjectId)
    requires k in users
    ensures k in PullFrom(users, id, f, x)
    ensures PullFrom(users, id, f, x)[k]
         == if k == id then WithArray(users[k], f, Pull(ArrayOf(users[k], f), x)) else users[k]
  {
  }

  /** Writing an array back unchanged gives the same user. */
  lemma WithArraySame(u: User, f: Field)
    ensures WithArray(u, f, ArrayOf(u, f)) == u
  {
  }

  /** A second write of the same array overrides the first. */
  lemma WithArrayTwice(u: User, f: Field, s1: seq<ObjectId>, s2: seq<ObjectId>)
    ensures WithArray(WithArray(u, f, s1), f, s2) == WithArray(u, f, s2)
  {
  }

  /** Writes of two different arrays commute. */
  lemma WithArrayCommute(u: User, f1: Field, s1: seq<ObjectId>, f2: Field, s2: seq<ObjectId>)
    requires f1 != f2
    ensures WithArray(WithArray(u, f1, s1), f2, s2) == WithArray(WithArray(u, f2, s2), f1, s1)
  {
  }
}

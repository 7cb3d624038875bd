/**
 * The reaction resolver of `react_to_quote`. A positional `$set` on
 * `reactions.$`, filtered by the post id and an element whose `user_id` is
 * the caller, overwrites the first such element. When the store reports that
 * no document was modified, or reports an error, a `$push` appends the
 * reaction instead.
 *
 * A positional `$set` that writes the value already stored modifies
 * nothing, so reacting again with the same kind takes the append path.
 * `React` models the code as written, duplicate included. `ReactUpsert` is
 * the intended rule: replace when any reaction of the caller matched.
 */
module Reactions {
  import opened Types

  /** The position the positional operator `$` resolves to: the first reaction by `userId`. */
  function FirstReactionOf(rs: seq<Reaction>, userId: ObjectId): (r: Option<nat>)
    ensures r.Some? ==> r.value < |rs| && rs[r.value].userId == userId
    ensures r.Some? ==> forall j :: 0 <= j < r.value ==> rs[j].userId != userId
    ensures r.None? ==> forall j :: 0 <= j < |rs| ==> rs[j].userId != userId
  {
    if rs == [] then None
    else if rs[0].userId == userId then Some(0)
    else
      match FirstReactionOf(rs[1..], userId)
      case None => None
      case Some(i) => Some(i + 1)
  }

  /** The number of reactions by `userId`. */
  function ReactionsBy(rs: seq<Reaction>, userId: ObjectId): nat
  {
    if rs == [] then 0
    else ReactionsBy(rs[..|rs| - 1], userId) + (if rs[|rs| - 1].userId == userId then 1 else 0)
  }

  /** At most one reaction per user: the invariant the resolver is meant to keep. */
  ghost predicate AtMostOnePerUser(rs: seq<Reaction>)
  {
    forall u :: ReactionsBy(rs, u) <= 1
  }

  /** `react_to_quote` on the reactions of an existing post, as written. */
  function React(rs: seq<Reaction>, userId: ObjectId, kind: ReactionType): seq<Reaction>
  {
    var mine := Reaction(userId, kind);
    match FirstReactionOf(rs, userId)
    case Some(i) =>
      // modified_count is 1 only when the stored element differs
      if rs[i] != mine then rs[i := mine] else rs + [mine]
    case None => rs + [mine]
  }

  /** The intended resolver: decide on the match, not on the modification. */
  function ReactUpsert(rs: seq<Reaction>, userId: ObjectId, kind: ReactionType): seq<Reaction>
  {
    var mine := Reaction(userId, kind);
    match FirstReactionOf(rs, userId)
    case Some(i) => rs[i := mine]
    case None => rs + [mine]
  }

  /** `react_to_quote` on the `Voice Notes` map: a post that is not stored stays absent. */
  function ReactToQuote(notes: NoteStore, vId: ObjectId, userId: ObjectId, kind: ReactionType): (r: NoteStore)
    ensures r.Keys == notes.Keys
  {
    if vId in notes then notes[vId := notes[vId].(reactions := React(notes[vId].reactions, userId, kind))]
    else notes
  }

  lemma {:induction false} ReactionsByAppend(rs: seq<Reaction>, x: Reaction, u: ObjectId)
    ensures ReactionsBy(rs + [x], u) == ReactionsBy(rs, u) + (if x.userId == u then 1 else 0)
  {
    assert (rs + [x])[..|rs + [x]| - 1] == rs;
  }

  /** Overwriting one element changes the counts of the old and the new owner only. */
  lemma {:induction false} ReactionsByUpdate(rs: seq<Reaction>, i: nat, x: Reaction, u: ObjectId)
    requires i < |rs|
    ensures ReactionsBy(rs[i := x], u)
         == ReactionsBy(rs, u) - (if rs[i].userId == u then 1 else 0) + (if x.userId == u then 1 else 0)
  {
    var n := |rs| - 1;
    if i == n {
      assert rs[i := x] == rs[..n] + [x];
      assert rs == rs[..n] + [rs[n]];
      ReactionsByAppend(rs[..n], x, u);
      ReactionsByAppend(rs[..n], rs[n], u);
    } else {
      assert rs[i := x][..n] == rs[..n][i := x];
      ReactionsByUpdate(rs[..n], i, x, u);
    }
  }

  /** A user with no matching element has no reactions. */
  lemma {:induction false} NoneMeansNoReactions(rs: seq<Reaction>, u: ObjectId)
    requires forall j :: 0 <= j < |rs| ==> rs[j].userId != u
    ensures ReactionsBy(rs, u) == 0
  {
    if rs != [] {
      NoneMeansNoReactions(rs[..|rs| - 1], u);
    }
  }

  /** A changed kind overwrites the caller's first reaction in place; the length is kept. */
  lemma ReactReplacesChangedKind(rs: seq<Reaction>, userId: ObjectId, kind: ReactionType)
    requires FirstReactionOf(rs, userId).Some?
    requires rs[FirstReactionOf(rs, userId).value].reaction != kind
    ensures var i := FirstReactionOf(rs, userId).value;
      var r := React(rs, userId, kind);
      && |r| == |rs|
      && r[i] == Reaction(userId, kind)
      && forall j :: 0 <= j < |rs| && j != i ==> r[j] == rs[j]
  {
  }

  /**
   * No reaction by the caller, or a first one of the same kind: the reaction
   * is appended.
   */
  lemma ReactAppendsOtherwise(rs: seq<Reaction>, userId: ObjectId, kind: ReactionType)
    requires FirstReactionOf(rs, userId).Some? ==>
      rs[FirstReactionOf(rs, userId).value].reaction == kind
    ensures React(rs, userId, kind) == rs + [Reaction(userId, kind)]
  {
  }

  /** The code as written and the intended rule differ only on a repeated kind. */
  lemma ReactAgreesWithUpsert(rs: seq<Reaction>, userId: ObjectId, kind: ReactionType)
    requires FirstReactionOf(rs, userId).Some? ==>
      rs[FirstReactionOf(rs, userId).value].reaction != kind
    ensures React(rs, userId, kind) == ReactUpsert(rs, userId, kind)
  {
  }

  /** As written: reacting twice with the same kind leaves two reactions by that user. */
  lemma {:induction false} ReactSameKindTwiceDuplicates(userId: ObjectId, kind: ReactionType)
    ensures React(React([], userId, kind), userId, kind) == [Reaction(userId, kind), Reaction(userId, kind)]
    ensures ReactionsBy(React(React([], userId, kind), userId, kind), userId) == 2
  {
    var once := React([], userId, kind);
    assert once == [Reaction(userId, kind)];
    assert FirstReactionOf(once, userId) == Some(0);
    var twice := React(once, userId, kind);
    assert twice == [Reaction(userId, kind), Reaction(userId, kind)];
    ReactionsByAppend([], Reaction(userId, kind), userId);
    ReactionsByAppend(once, Reaction(userId, kind), userId);
  }

  /**
   * The intended rule leaves exactly one reaction by the caller, of the new
   * kind, and keeps every other user's reactions.
   */
  lemma {:induction false} ReactUpsertExactlyOne(rs: seq<Reaction>, userId: ObjectId, kind: ReactionType)
    requires ReactionsBy(rs, userId) <= 1
    ensures var r := ReactUpsert(rs, userId, kind);
      && ReactionsBy(r, userId) == 1
      && (forall j :: 0 <= j < |r| && r[j].userId == userId ==> r[j].reaction == kind)
      && (forall u :: u != userId ==> ReactionsBy(r, u) == ReactionsBy(rs, u))
  {
    var mine := Reaction(userId, kind);
    match FirstReactionOf(rs, userId)
    case Some(i) =>
      forall u ensures ReactionsBy(rs[i := mine], u)
        == ReactionsBy(rs, u) - (if rs[i].userId == u then 1 else 0) + (if mine.userId == u then 1 else 0)
      {
        ReactionsByUpdate(rs, i, mine, u);
      }
      AtLeastOne(rs, userId, i);
      var r := rs[i := mine];
      forall j | 0 <= j < |r| && r[j].userId == userId
        ensures r[j].reaction == kind
      {
        if j != i {
          TwoReactions(rs, userId, i, j);
          assert false;
        }
      }
    case None =>
      NoneMeansNoReactions(rs, userId);
      forall u ensures ReactionsBy(rs + [mine], u) == ReactionsBy(rs, u) + (if mine.userId == u then 1 else 0)
      {
        ReactionsByAppend(rs, mine, u);
      }
  }

  /** Two distinct positions held by the same user mean at least two reactions. */
  lemma {:induction false} TwoReactions(rs: seq<Reaction>, u: ObjectId, i: nat, j: nat)
    requires i < |rs| && j < |rs| && i != j
    requires rs[i].userId == u && rs[j].userId == u
    ensures ReactionsBy(rs, u) >= 2
  {
    var n := |rs| - 1;
    if i == n || j == n {
      var other := if i == n then j else i;
      AtLeastOne(rs[..n], u, other);
    } else {
      TwoReactions(rs[..n], u, i, j);
    }
  }

  lemma {:induction false} AtLeastOne(rs: seq<Reaction>, u: ObjectId, i: nat)
    requires i < |rs| && rs[i].userId == u
    ensures ReactionsBy(rs, u) >= 1
  {
    var n := |rs| - 1;
    if i < n {
      AtLeastOne(rs[..n], u, i);
    }
  }

  /** The intended rule keeps at most one reaction per user. */
  lemma ReactUpsertKeepsAtMostOne(rs: seq<Reaction>, userId: ObjectId, kind: ReactionType)
    requires AtMostOnePerUser(rs)
    ensures AtMostOnePerUser(ReactUpsert(rs, userId, kind))
  {
    ReactUpsertExactlyOne(rs, userId, kind);
  }

  /** The intended rule: react with one kind, then another: one reaction, the last kind. */
  lemma ReactUpsertTwice(rs: seq<Reaction>, userId: ObjectId, k1: ReactionType, k2: ReactionType)
    requires ReactionsBy(rs, userId) <= 1
    ensures var r := ReactUpsert(ReactUpsert(rs, userId, k1), userId, k2);
      && ReactionsBy(r, userId) == 1
      && forall j :: 0 <= j < |r| && r[j].userId == userId ==> r[j].reaction == k2
  {
    ReactUpsertExactlyOne(rs, userId, k1);
    ReactUpsertExactlyOne(ReactUpsert(rs, userId, k1), userId, k2);
  }
}

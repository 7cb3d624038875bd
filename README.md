# Speaker backend: social graph, reactions and feed

This project is a Dafny model of the backend of Speaker, a social network of
voice notes (`src/backend.rs`). The backend keeps two MongoDB collections:

- `users`, holding accounts with their `followers`, `following` and
  `voice_notes` id arrays;
- `Voice Notes`, holding posts and comments with their samples, `replies`,
  `reactions` and timestamp.

The model replaces each collection with an in-memory map from id to record.
Each `$push` becomes an append. Each `$pull` becomes `ArrayOps.Pull`, which
removes every occurrence. Each positional `$set` overwrites the first matching
element. An update whose filter matches no document changes nothing.

Modules:

- `Types`: the records `User`, `VoiceNote`, `Reaction`, `PublicUser`,
  `Reply` and `Conversation`, modelling the Rust structs `Users`,
  `VoiceNote`, `Reaction`, `publicUser`, `replies` and `conversation`. Ids
  are 96-bit naturals and timestamps are whole seconds.
- `ArrayOps`: the `$pull` operator.
- `UserArrays`: the `$push` and `$pull` updates on one user's `followers`,
  `following` or `voice_notes` array. Both the follow graph and the content
  operations use them.
- `FollowGraph`: `follow`, `unfollow` and `remove_follower` as two writes
  each, and the edge-symmetry invariant they keep.
- `Accounts`: registration, the credential check and the three setters.
- `Reactions`: the reaction resolver of `react_to_quote`, as written and as
  intended.
- `Listings`: the id-array copies, the profile listings with their `refNo`
  counter, and `find_users_by_names`.
- `Feed`: gathering followees' posts and the stable newest-first sort. The
  sort is an in-place insertion sort on an array.
- `Content`: posts, comments, replies, deletion and the conversation view.
- `Backend`: the class `Store`, holding both maps. Each of its methods
  performs a writing operation step by step, and its postcondition ties the
  new maps to the specification functions above. Every method keeps the
  store invariant `Valid()`: usernames are unique, and every follow edge is
  recorded as often in the follower's `following` as in the followed user's
  `followers`.

Fresh ids (`ObjectId::new()`) and the current time (`Utc::now()`) are method
parameters.

Behaviours of the code worth noting:

- `unfollow` returns the caller's *following* listing (line 486), not the
  followers listing.
- `sort_by` is stable (line 699), so notes with equal timestamps keep their
  gathering order. This is proved in `Feed.SortDescStable`.
- For a post that is not stored, `create_conversation` returns the ids of the
  note it made with `ObjectId::new()` (line 371), not zero values.
- `create_comment` does not record the comment in the author's
  `voice_notes`, because that call is commented out (line 354).
- `followers`, `following` and `voice_notes` are arrays that may hold
  duplicates, not sets, because `follow` pushes without checking
  (lines 464-474).

## Model

| member | source | states |
|---|---|---|
| ArrayOps.Pull | src/backend.rs:476-487 | `$pull` removes every occurrence of the value, keeps every other value's count, and shrinks the array by the number of occurrences |
| ArrayOps.PullUndoesPush | src/backend.rs:464-487 | pulling a value just pushed onto an array that did not hold it restores the array |
| FollowGraph.FollowAppends | src/backend.rs:464-474 | `follow(u, f)` appends `f` to `u.following` and `u` to `f.followers`; every other array and user is unchanged |
| FollowGraph.FollowTwiceDuplicates | src/backend.rs:464-474 | following twice records the edge twice on both sides: there is no duplicate check |
| FollowGraph.UnfollowRemoves | src/backend.rs:476-487 | `unfollow(u, f)` removes every `f` from `u.following` and every `u` from `f.followers`; no other count or field changes |
| FollowGraph.UnfollowAbsentEdge | src/backend.rs:476-487 | unfollowing an edge recorded on neither side is a no-op |
| FollowGraph.UnfollowUndoesFollow | src/backend.rs:464-487 | `unfollow` after `follow` of a new edge gives back the original store |
| FollowGraph.RemoveFollowerIsReverseUnfollow | src/backend.rs:652-664 | `remove_follower(u, x)` writes exactly what `unfollow(x, u)` writes |
| FollowGraph.FollowKeepsSymmetric | src/backend.rs:464-474 | `follow` keeps every edge recorded equally often in `following` and in `followers` |
| FollowGraph.UnfollowKeepsSymmetric | src/backend.rs:476-487 | `unfollow` keeps edge symmetry |
| FollowGraph.RemoveFollowerKeepsSymmetric | src/backend.rs:652-664 | `remove_follower` keeps edge symmetry |
| FollowGraph.CreateUserKeepsSymmetric | src/backend.rs:140-169 | registration under an id that no stored user follows or is followed by keeps edge symmetry |
| FollowGraph.SettingKeepsSymmetric | src/backend.rs:454-507 | the three setters write no id array and keep edge symmetry |
| FollowGraph.VoiceNotesWriteKeepsSymmetric | src/backend.rs:545-554 | a push onto or a pull from `voice_notes`, as `save_voice_note` and `delete_post` do, keeps edge symmetry |
| Accounts.FindByUsername | src/backend.rs:154-156 | under unique usernames, the lookup finds a user exactly when one holds the username, and returns a stored user with that username |
| Accounts.GetUserByUsername | src/backend.rs:428-452 | returns `Some(u)` exactly when a stored user has both that username and that password; `u` is that stored user |
| Accounts.CreateUserDuplicate | src/backend.rs:154-160 | a taken username returns the sentinel id `f0f0…f0` and leaves the store unchanged |
| Accounts.CreateUserInserts | src/backend.rs:140-169 | a free username inserts exactly one user under the fresh id, with an empty description and no edges or notes, and returns that id |
| Accounts.CreateUserKeepsUnique | src/backend.rs:154-166 | registration keeps usernames unique |
| Accounts.UpdateByUsernameEffect | src/backend.rs:454-462 | a setter changes only the chosen field of the holder of the username, changes nothing when nobody holds it, and keeps usernames unique |
| Accounts.PasswordChangeThenLogin | src/backend.rs:489-497 | after a password change the new password logs in and the old one does not |
| Accounts.RegisterAndLoginScenario | src/backend.rs:140-169 | registering "alice" twice returns the sentinel the second time; a wrong password fails and the right one returns the stored record |
| Reactions.FirstReactionOf | src/backend.rs:173-193 | the positional `$` resolves to the first reaction by the caller, and is absent when the caller has none |
| Reactions.ReactToQuote | src/backend.rs:172-243 | the set of stored notes is unchanged: reacting to a missing post creates nothing |
| Reactions.ReactReplacesChangedKind | src/backend.rs:172-202 | a different kind overwrites the caller's first reaction in place and keeps the length |
| Reactions.ReactAppendsOtherwise | src/backend.rs:202-241 | with no reaction by the caller, or a first one of the same kind, the reaction is appended |
| Reactions.ReactAgreesWithUpsert | src/backend.rs:172-243 | except for a repeated kind, the code agrees with the intended replace-or-append rule |
| Reactions.ReactSameKindTwiceDuplicates | src/backend.rs:202-216 | reacting twice with the same kind leaves two reactions by the caller |
| Reactions.ReactUpsertExactlyOne | src/backend.rs:172-243 | the intended rule leaves exactly one reaction by the caller, of the new kind, and keeps every other user's count |
| Reactions.ReactUpsertKeepsAtMostOne | src/backend.rs:172-243 | the intended rule keeps at most one reaction per user |
| Reactions.ReactUpsertTwice | src/backend.rs:172-243 | under the intended rule, reacting twice leaves one reaction, of the last kind |
| Listings.GetAllFollowing | src/backend.rs:556-571 | the copy equals the user's `following` array, or is empty when the user is not stored |
| Listings.GetAllFollowers | src/backend.rs:573-588 | the copy equals the user's `followers` array, or is empty when the user is not stored |
| Listings.ListProfiles | src/backend.rs:594-616 | the loop yields the profile listing of the id array: entry k has `refNo == k`, and no entry is the caller |
| Listings.ProfileListingAppend | src/backend.rs:594-616 | one more id appends at most one entry, at the end: the stored non-caller user it names, numbered after every earlier entry; so entries follow the array's order |
| Listings.ProfileListingRepeats | src/backend.rs:590-619 | a user listed twice in the id array appears twice, numbered 0 and 1 |
| Listings.ProfileListingSpec | src/backend.rs:590-619 | every entry projects a stored user named in the array; every stored non-caller user named there has an entry; entry k is numbered k |
| Listings.GetAllFollowingProfile | src/backend.rs:590-619 | the result is the profile listing of the caller's `following` |
| Listings.GetAllFollowersProfile | src/backend.rs:621-650 | the result is the profile listing of the caller's `followers` |
| Listings.FindUsersByNames | src/backend.rs:101-137 | the result is the last numbered non-caller holder of the username, otherwise the placeholder; with unique usernames it is the holder numbered 0 unless the holder is the caller |
| Feed.SortDescSorts | src/backend.rs:697-700 | the sort returns a permutation of its input with non-increasing timestamps |
| Feed.SortDescStable | src/backend.rs:697-700 | notes with equal timestamps keep their relative order |
| Feed.SortByTimestampDesc | src/backend.rs:697-700 | the in-place sort leaves the array equal to the stable newest-first sort of its old contents |
| Feed.CollectPosts | src/backend.rs:674-686 | the inner loop collects, in `voice_notes` order, exactly the stored posts the array names |
| Feed.GatheredMembers | src/backend.rs:666-690 | a note is gathered exactly when it is a stored post named in the `voice_notes` of a stored followee |
| Feed.GatheredConcat | src/backend.rs:670-690 | gathering keeps followee order: each followee contributes one contiguous block |
| Feed.GetAllVoiceIdsFromFollowing | src/backend.rs:666-695 | the feed is the stable newest-first sort of the gathered posts: sorted, a permutation of them with multiplicity, and holding only posts |
| Content.AddReply | src/backend.rs:358-366 | `add_reply` keeps the set of stored notes |
| Content.CreatePostEffect | src/backend.rs:245-275 | `create_post` stores a post with the author's name, empty replies and reactions, and appends its id to the author's `voice_notes`; nothing else changes |
| Content.CreateCommentEffect | src/backend.rs:325-356 | `create_comment` stores a non-post note and appends its id to the parent's `replies`; every other note is unchanged |
| Content.DeletePostEffect | src/backend.rs:278-298 | `delete_post` removes the note and every occurrence of its id from the given user's `voice_notes`; nothing else changes |
| Content.DeleteLeavesDanglingReply | src/backend.rs:278-298 | a deleted comment stays listed in its parent's `replies` |
| Content.NewPostReachesFollowers | src/backend.rs:245-275 | a new post is in the gathered feed of every user who follows its author |
| Content.CommentsStayOutOfFeeds | src/backend.rs:325-356 | a new comment is in nobody's gathered feed |
| Content.GetUserOfVn | src/backend.rs:407-426 | the author lookup succeeds exactly when the note is stored |
| Content.CreateConversation | src/backend.rs:368-405 | the conversation carries the post's id, author and reactions, and one entry per reply in stored order with that reply's author; a missing post gives a fresh note's ids and no entries |
| Backend.Store.CreateUser | src/backend.rs:140-169 | the store becomes `Accounts.CreateUser` of the old one; usernames stay unique and follow edges stay symmetric |
| Backend.Store.UpdateUserNameByUsername | src/backend.rs:454-462 | sets the name of the holder of the username, returns true and keeps `Valid()` |
| Backend.Store.UpdatePasswordByUsername | src/backend.rs:489-497 | sets the password of the holder of the username, returns true and keeps `Valid()` |
| Backend.Store.UpdateDescriptionByUsername | src/backend.rs:499-507 | sets the description of the holder of the username, returns true and keeps `Valid()` |
| Backend.Store.ReactToQuote | src/backend.rs:172-243 | the positional replace, counting modified documents, then the push fallback, leaves the notes equal to `Reactions.ReactToQuote` of the old notes; users are untouched |
| Backend.Store.SaveVoiceNote | src/backend.rs:545-554 | pushes the note id onto the user's `voice_notes` |
| Backend.Store.CreatePost | src/backend.rs:245-275 | the insert followed by `save_voice_note` yields both stores of `Content.CreatePost` |
| Backend.Store.AddReply | src/backend.rs:358-366 | pushes the comment id onto the parent's `replies`; a missing parent is left as is |
| Backend.Store.CreateComment | src/backend.rs:325-356 | the insert followed by `add_reply` yields `Content.CreateComment`; users are untouched |
| Backend.Store.DeletePost | src/backend.rs:278-298 | the delete followed by the pull yields both stores of `Content.DeletePost` |
| Backend.Store.Follow | src/backend.rs:464-474 | the two pushes yield `FollowGraph.FollowEdges` of the old users |
| Backend.Store.Unfollow | src/backend.rs:476-487 | the two pulls yield `FollowGraph.UnfollowEdges`; returns the caller's new following listing |
| Backend.Store.RemoveFollower | src/backend.rs:652-664 | the two pulls yield `FollowGraph.RemoveFollowerEdges`; returns the caller's new followers listing |

## Left out

- `connect_to_mongodb`: environment and network setup. The model starts from an empty `Store`.
- `sign_up` and `login`: they prompt on standard input. The model covers `create_user` and `get_user_by_username`, which they call.
- `convert_audio_to_vec`, `convert_vec_to_audio` and `download_voice_notes`: audio conversion with floating point and file output. `download_voice_notes` only reads the notes collection, so leaving it out of `create_conversation` and the feed changes no stored state.
- Store errors: the in-memory maps never fail. The `Err` branches that print and return, or fall through, are therefore unreachable. The one exception is `react_to_quote`, whose positional update with `upsert` fails when nothing matches; its fallback push is modelled.
- Panics: `unwrap` on a missing author (`create_post`, `create_comment`), on a duplicate `_id` insert, and on a missing reply in `create_conversation` are preconditions of the methods instead.
- `add_reply` and `create_comment` take the parent id as a hex string and panic when it does not parse. The model takes an id, so that parse step is not modelled.
- Id encoding: pushes and pulls store ids as hex strings (`to_hex()`). The model uses one abstract id type and assumes a stored hex string reads back as the same id.
- Concurrency: the awaits between the two writes of `follow`, `unfollow`, `remove_follower` and `react_to_quote` are not modelled. Each operation is one sequential step.
- Logging: every `println!` is dropped.
- Backend.Store.CreateUser: requires that no stored user follows or is followed by the fresh id. `ObjectId::new()` yields an id never seen before, and the model takes that id as a parameter.
- Listings.ListProfiles: `refNo` is an `i32` in the source. The model numbers with unbounded naturals and does not model overflow after 2^31 entries.
- Feed.SortByTimestampDesc: the source calls the library's stable sort. The model sorts by stable insertion, which yields the same order for a stable sort but not the library's running time.
- Accounts.UpdateByUsername: `find_one_and_update` writes the first matching user. The model writes every holder of the username, which is the same single user whenever usernames are unique, as every reachable store guarantees.
- Accounts.FindByUsername: `find_one` by username is modelled only on stores with unique usernames, where the result does not depend on document order.

## Findings

| source | as written | input that shows it | evidently intended | confidence | as-written member | corrected member |
|---|---|---|---|---|---|---|
| src/backend.rs:192-216 | the fallback push runs when `modified_count == 0`, and a positional `$set` that writes the value already stored modifies nothing | a user reacts `SpeakUp` to a post, then reacts `SpeakUp` again: the post ends up with two identical reactions by that user | decide on whether a reaction matched (`matched_count`), so each user keeps at most one reaction, of the latest kind | not executed | Reactions.ReactSameKindTwiceDuplicates | Reactions.ReactUpsertExactlyOne |

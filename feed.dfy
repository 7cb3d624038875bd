/**
 * The feed of `get_all_voice_ids_from_following`: for each id in the user's
 * `following` array, look the followee up and collect, in `voice_notes`
 * order, every stored note that is a post; then sort the collection newest
 * first with a stable sort.
 */
module Feed {
  import opened Types
  import opened Listings

  /** The posts among the notes an id array names, in array order, repeats kept. */
  function PostsAmong(notes: NoteStore, ids: seq<ObjectId>): seq<VoiceNote>
  {
    if ids == [] then []
    else
      var last := ids[|ids| - 1];
      PostsAmong(notes, ids[..|ids| - 1]) + (if last in notes && notes[last].isPost then [notes[last]] else [])
  }

  /** The posts a followee's `voice_notes` array names; nothing when the followee is not stored. */
  function PostsOf(users: UserStore, notes: NoteStore, followee: ObjectId): seq<VoiceNote>
  {
    if followee in users then PostsAmong(notes, users[followee].voiceNotes) else []
  }

  /** What the gathering loops collect, followee by followee. */
  function Gathered(users: UserStore, notes: NoteStore, following: seq<ObjectId>): seq<VoiceNote>
  {
    if following == [] then []
    else Gathered(users, notes, following[..|following| - 1]) + PostsOf(users, notes, following[|following| - 1])
  }

  ghost predicate NewestFirst(s: seq<VoiceNote>)
  {
    forall i, j :: 0 <= i < j < |s| ==> s[i].timestamp >= s[j].timestamp
  }

  /** Inserts `x` after every element at least as new as it: one step of a stable sort. */
  function InsertDesc(s: seq<VoiceNote>, x: VoiceNote): (r: seq<VoiceNote>)
    ensures |r| == |s| + 1
  {
    if s == [] || s[|s| - 1].timestamp >= x.timestamp then s + [x]
    else InsertDesc(s[..|s| - 1], x) + [s[|s| - 1]]
  }

  /** The stable sort of the feed on descending timestamps, newest first. */
  function SortDesc(s: seq<VoiceNote>): (r: seq<VoiceNote>)
    ensures |r| == |s|
  {
    if s == [] then [] else InsertDesc(SortDesc(s[..|s| - 1]), s[|s| - 1])
  }

  /** The notes with timestamp `t`, in order. */
  function WithTimestamp(s: seq<VoiceNote>, t: Timestamp): seq<VoiceNote>
  {
    if s == [] then []
    else WithTimestamp(s[..|s| - 1], t) + (if s[|s| - 1].timestamp == t then [s[|s| - 1]] else [])
  }

  lemma WithTimestampAppend(s: seq<VoiceNote>, x: VoiceNote, t: Timestamp)
    ensures WithTimestamp(s + [x], t) == WithTimestamp(s, t) + (if x.timestamp == t then [x] else [])
  {
    assert (s + [x])[..|s + [x]| - 1] == s;
  }

  lemma {:induction false} InsertDescPermutes(s: seq<VoiceNote>, x: VoiceNote)
    ensures multiset(InsertDesc(s, x)) == multiset(s) + multiset{x}
  {
    if !(s == [] || s[|s| - 1].timestamp >= x.timestamp) {
      var n := |s| - 1;
      assert s == s[..n] + [s[n]];
      InsertDescPermutes(s[..n], x);
    }
  }

  lemma InsertDescMembers(s: seq<VoiceNote>, x: VoiceNote)
    ensures forall e :: e in InsertDesc(s, x) ==> e in s || e == x
  {
    InsertDescPermutes(s, x);
    forall e | e in InsertDesc(s, x) ensures e in s || e == x {
      assert e in multiset(InsertDesc(s, x));
    }
  }

  lemma {:induction false} InsertDescSorted(s: seq<VoiceNote>, x: VoiceNote)
    requires NewestFirst(s)
    ensures NewestFirst(InsertDesc(s, x))
  {
    if !(s == [] || s[|s| - 1].timestamp >= x.timestamp) {
      var n := |s| - 1;
      var init, last := s[..n], s[n];
      InsertDescSorted(init, x);
      InsertDescMembers(init, x);
      var head := InsertDesc(init, x);
      forall e | e in head ensures e.timestamp >= last.timestamp {
        if e != x {
          var k :| 0 <= k < n && init[k] == e;
        }
      }
      forall i | 0 <= i < |head| ensures head[i].timestamp >= last.timestamp {
        assert head[i] in head;
      }
    }
  }

  lemma {:induction false} InsertDescStable(s: seq<VoiceNote>, x: VoiceNote, t: Timestamp)
    ensures WithTimestamp(InsertDesc(s, x), t) == WithTimestamp(s, t) + (if x.timestamp == t then [x] else [])
  {
    if s == [] || s[|s| - 1].timestamp >= x.timestamp {
      WithTimestampAppend(s, x, t);
    } else {
      var n := |s| - 1;
      var init, last := s[..n], s[n];
      assert s == init + [last];
      InsertDescStable(init, x, t);
      WithTimestampAppend(InsertDesc(init, x), last, t);
      WithTimestampAppend(init, last, t);
    }
  }

  /** The sort is a permutation into newest-first order. */
  lemma {:induction false} SortDescSorts(s: seq<VoiceNote>)
    ensures NewestFirst(SortDesc(s))
    ensures multiset(SortDesc(s)) == multiset(s)
  {
    if s != [] {
      var n := |s| - 1;
      SortDescSorts(s[..n]);
      InsertDescPermutes(SortDesc(s[..n]), s[n]);
      InsertDescSorted(SortDesc(s[..n]), s[n]);
      assert s == s[..n] + [s[n]];
    }
  }

  /** The sort is stable: notes with equal timestamps keep their relative order. */
  lemma {:induction false} SortDescStable(s: seq<VoiceNote>, t: Timestamp)
    ensures WithTimestamp(SortDesc(s), t) == WithTimestamp(s, t)
  {
    if s != [] {
      var n := |s| - 1;
      SortDescStable(s[..n], t);
      InsertDescStable(SortDesc(s[..n]), s[n], t);
    }
  }

  /**
   * The gathered notes are exactly the stored posts named by a followee's
   * `voice_notes`: comments never enter the feed.
   */
  lemma {:induction false} PostsAmongMembers(notes: NoteStore, ids: seq<ObjectId>)
    ensures forall v :: v in PostsAmong(notes, ids) <==>
      v.isPost && exists k :: k in ids && k in notes && notes[k] == v
  {
    if ids != [] {
      var n := |ids| - 1;
      PostsAmongMembers(notes, ids[..n]);
      assert ids == ids[..n] + [ids[n]];
      forall v | v in PostsAmong(notes, ids)
        ensures exists k :: k in ids && k in notes && notes[k] == v
      {
        if v !in PostsAmong(notes, ids[..n]) {
          assert ids[n] in ids;
        }
      }
    }
  }

  lemma {:induction false} GatheredMembers(users: UserStore, notes: NoteStore, following: seq<ObjectId>)
    ensures forall v :: v in Gathered(users, notes, following) <==>
      v.isPost && exists f, k :: f in following && f in users && k in users[f].voiceNotes && k in notes && notes[k] == v
  {
    if following != [] {
      var n := |following| - 1;
      var f := following[n];
      GatheredMembers(users, notes, following[..n]);
      assert following == following[..n] + [f];
      if f in users {
        PostsAmongMembers(notes, users[f].voiceNotes);
      }
      forall v | v in Gathered(users, notes, following)
        ensures exists f, k :: f in following && f in users && k in users[f].voiceNotes && k in notes && notes[k] == v
      {
        if v !in Gathered(users, notes, following[..n]) {
          assert f in following;
        }
      }
    }
  }

  /** Gathering keeps followee order: each followee's posts form one block. */
  lemma {:induction false} GatheredConcat(users: UserStore, notes: NoteStore, a: seq<ObjectId>, b: seq<ObjectId>)
    ensures Gathered(users, notes, a + b) == Gathered(users, notes, a) + Gathered(users, notes, b)
  {
    if b == [] {
      assert a + b == a;
    } else {
      var n := |b| - 1;
      assert (a + b)[..|a + b| - 1] == a + b[..n];
      GatheredConcat(users, notes, a, b[..n]);
    }
  }

  /**
   * Where the insertion lands: after the notes at least as new as `x`,
   * before the run of strictly older ones that ends the sequence.
   */
  lemma {:induction false} InsertDescAt(sorted: seq<VoiceNote>, x: VoiceNote, j: nat)
    requires j <= |sorted|
    requires forall k :: j <= k < |sorted| ==> sorted[k].timestamp < x.timestamp
    requires j == 0 || sorted[j - 1].timestamp >= x.timestamp
    ensures InsertDesc(sorted, x) == sorted[..j] + [x] + sorted[j..]
    decreases |sorted|
  {
    if |sorted| == j {
      assert sorted[..j] == sorted && sorted[j..] == [];
    } else {
      var n := |sorted| - 1;
      InsertDescAt(sorted[..n], x, j);
      assert sorted[..n][..j] == sorted[..j];
      assert sorted[..n][j..] + [sorted[n]] == sorted[j..];
    }
  }

  /** One pass of the insertion sort: moves `a[i]` into place within `a[..i + 1]`. */
  method InsertInPlace(a: array<VoiceNote>, i: nat)
    requires i < a.Length
    modifies a
    ensures a[..i + 1] == InsertDesc(old(a[..i]), old(a[i]))
    ensures forall k :: i < k < a.Length ==> a[k] == old(a[k])
  {
    ghost var sorted := a[..i];
    var x := a[i];
    var j := i;
    while j > 0 && a[j - 1].timestamp < x.timestamp
      invariant 0 <= j <= i
      invariant forall k :: 0 <= k < j ==> a[k] == sorted[k]
      invariant forall k :: j < k <= i ==> a[k] == sorted[k - 1]
      invariant forall k :: j <= k < i ==> sorted[k].timestamp < x.timestamp
      invariant forall k :: i < k < a.Length ==> a[k] == old(a[k])
    {
      a[j] := a[j - 1];
      j := j - 1;
    }
    a[j] := x;
    InsertDescAt(sorted, x, j);
    PlacedIsInserted(a[..i + 1], sorted, x, i, j);
  }

  /** After the shifting loop, the array prefix is the sorted prefix with `x` placed at `j`. */
  lemma PlacedIsInserted(b: seq<VoiceNote>, sorted: seq<VoiceNote>, x: VoiceNote, i: nat, j: nat)
    requires |sorted| == i && |b| == i + 1 && j <= i
    requires forall k :: 0 <= k < j ==> b[k] == sorted[k]
    requires b[j] == x
    requires forall k :: j < k <= i ==> b[k] == sorted[k - 1]
    ensures b == sorted[..j] + [x] + sorted[j..]
  {
  }

  /** `sort_voice_notes_by_timestamp_desc`: an in-place insertion sort, stable, newest first. */
  method SortByTimestampDesc(a: array<VoiceNote>)
    modifies a
    ensures a[..] == SortDesc(old(a[..]))
  {
    ghost var input := a[..];
    for i := 0 to a.Length
      invariant a[..i] == SortDesc(input[..i])
      invariant forall k :: i <= k < a.Length ==> a[k] == input[k]
    {
      ghost var prefix := a[..i];
      assert a[i] == input[i];
      InsertInPlace(a, i);
      assert input[..i + 1][..i] == input[..i];
      assert SortDesc(input[..i + 1]) == InsertDesc(prefix, input[i]);
    }
    assert input[..a.Length] == input;
    assert a[..] == a[..a.Length];
  }

  /** The stored posts among one followee's `voice_notes`, in array order. */
  method CollectPosts(notes: NoteStore, vns: seq<ObjectId>) returns (posts: seq<VoiceNote>)
    ensures posts == PostsAmong(notes, vns)
  {
    posts := [];
    for k := 0 to |vns|
      invariant posts == PostsAmong(notes, vns[..k])
    {
      assert vns[..k + 1][..k] == vns[..k];
      if vns[k] in notes && notes[vns[k]].isPost {
        posts := posts + [notes[vns[k]]];
      }
    }
    assert vns[..|vns|] == vns;
  }

  /** The sorted feed holds only posts, newest first, and every gathered post as often as gathered. */
  lemma {:induction false} SortedFeed(users: UserStore, notes: NoteStore, following: seq<ObjectId>)
    ensures var feed := SortDesc(Gathered(users, notes, following));
      && NewestFirst(feed)
      && multiset(feed) == multiset(Gathered(users, notes, following))
      && forall v :: v in feed ==> v.isPost
  {
    var g := Gathered(users, notes, following);
    var feed := SortDesc(g);
    SortDescSorts(g);
    GatheredMembers(users, notes, following);
    forall v | v in feed ensures v.isPost {
      assert v in multiset(feed);
    }
  }

  /**
   * `get_all_voice_ids_from_following`: the gathered posts of the user's
   * followees, stably sorted newest first.
   */
  method GetAllVoiceIdsFromFollowing(users: UserStore, notes: NoteStore, userId: ObjectId)
    returns (feed: seq<VoiceNote>)
    ensures feed == SortDesc(Gathered(users, notes, FollowingOf(users, userId)))
    ensures NewestFirst(feed)
    ensures multiset(feed) == multiset(Gathered(users, notes, FollowingOf(users, userId)))
    ensures forall v :: v in feed ==> v.isPost
  {
    var following := GetAllFollowing(users, userId);
    var voiceIds: seq<VoiceNote> := [];
    for i := 0 to |following|
      invariant voiceIds == Gathered(users, notes, following[..i])
    {
      assert following[..i + 1][..i] == following[..i];
      assert Gathered(users, notes, following[..i + 1])
          == Gathered(users, notes, following[..i]) + PostsOf(users, notes, following[i]);
      if following[i] in users {
        var posts := CollectPosts(notes, users[following[i]].voiceNotes);
        voiceIds := voiceIds + posts;
      }
    }
    assert following[..|following|] == following;
    var a := new VoiceNote[|voiceIds|](j requires 0 <= j < |voiceIds| => voiceIds[j]);
    assert a[..] == voiceIds;
    SortByTimestampDesc(a);
    feed := a[..];
    SortedFeed(users, notes, following);
  }
}

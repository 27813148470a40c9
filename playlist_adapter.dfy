/** The playlist store adapter. The remote "playlists" collection is a sequence
    of flat documents in the store's read order; each document is one song filed
    under one list name for one user. A playlist is never stored: it is the
    grouping of a user's documents by list name, recomputed on every read. */
module PlaylistStore {
  import opened Domain

  /** One stored document: the store-assigned document id, then the keys
      written by addSongToList (the song's own keys, the owner's uid and the
      list name). */
  datatype Doc = Doc(
    docId: string,
    id: string,
    name: string,
    artists: string,
    album: string,
    imageUrl: string,
    previewUrl: Option<string>,
    uid: string,
    listName: string)

  datatype PlaylistError = NoAuthenticatedUser

  /** The document addSongToList writes: the song spread into the record,
      followed by the owner's uid and the target list name. */
  function NewDoc(docId: string, song: Song, uid: string, listName: string): Doc
  {
    Doc(docId, song.id, song.name, song.artists, song.album, song.imageUrl, song.previewUrl,
        uid, listName)
  }

  /** The song getPlaylists builds from a document: the document id replaces
      the song id, and the preview URL is read from the key `preview_url`,
      which no write ever sets, so it is always absent. */
  function ReadSong(d: Doc): Song
  {
    Song(d.docId, d.name, d.artists, d.album, d.imageUrl, None)
  }

  /** No two documents share a document id. */
  ghost predicate UniqueDocIds(docs: seq<Doc>)
  {
    forall i, j :: 0 <= i < j < |docs| ==> docs[i].docId != docs[j].docId
  }

  /** The query `where('uid', '==', uid)`: the documents owned by `uid`, in
      read order. */
  function Query(docs: seq<Doc>, uid: string): (r: seq<Doc>)
    ensures |r| <= |docs|
    ensures forall d :: d in r <==> d in docs && d.uid == uid
  {
    if docs == [] then []
    else
      var prefix := Query(docs[..|docs| - 1], uid);
      var last := docs[|docs| - 1];
      assert docs == docs[..|docs| - 1] + [last];
      if last.uid == uid then prefix + [last] else prefix
  }

  /** `deleteDoc` on the document id `id`: every document with that id goes,
      the others stay in order (deleting a missing id changes nothing). */
  function RemoveId(docs: seq<Doc>, id: string): (r: seq<Doc>)
    ensures |r| <= |docs|
    ensures forall d :: d in r <==> d in docs && d.docId != id
  {
    if docs == [] then []
    else
      var prefix := RemoveId(docs[..|docs| - 1], id);
      var last := docs[|docs| - 1];
      assert docs == docs[..|docs| - 1] + [last];
      if last.docId != id then prefix + [last] else prefix
  }

  /** A document whose list is `name` occurs in `snapshot`. */
  predicate HasList(snapshot: seq<Doc>, name: string)
  {
    exists k :: 0 <= k < |snapshot| && snapshot[k].listName == name
  }

  /** The songs of list `name` as getPlaylists reads them from `snapshot`:
      one per document of that list, in read order. */
  function SongsIn(snapshot: seq<Doc>, name: string): (r: seq<Song>)
    ensures |r| <= |snapshot|
  {
    if snapshot == [] then []
    else
      var last := snapshot[|snapshot| - 1];
      SongsIn(snapshot[..|snapshot| - 1], name) + (if last.listName == name then [ReadSong(last)] else [])
  }

  // ---------------------------------------------------------------------------
  // Facts about the specification functions

  /** The last document of a snapshot contributes to its own list only. */
  lemma SongsInSnoc(snapshot: seq<Doc>, d: Doc, name: string)
    ensures SongsIn(snapshot + [d], name)
         == SongsIn(snapshot, name) + (if d.listName == name then [ReadSong(d)] else [])
  {
    assert (snapshot + [d])[..|snapshot|] == snapshot;
  }

  /** Appending a document adds its list and no other. */
  lemma HasListSnoc(snapshot: seq<Doc>, d: Doc, name: string)
    ensures HasList(snapshot + [d], name) <==> HasList(snapshot, name) || d.listName == name
  {
    var s := snapshot + [d];
    if HasList(snapshot, name) {
      var k :| 0 <= k < |snapshot| && snapshot[k].listName == name;
      assert s[k] == snapshot[k];
    }
    if d.listName == name {
      assert s[|snapshot|] == d;
    }
    if HasList(s, name) && d.listName != name {
      var k :| 0 <= k < |s| && s[k].listName == name;
      assert k < |snapshot| && snapshot[k] == s[k];
    }
  }

  /** A list has songs exactly when some document is filed under it. */
  lemma {:induction false} SongsInEmptyIff(snapshot: seq<Doc>, name: string)
    ensures SongsIn(snapshot, name) == [] <==> !HasList(snapshot, name)
    decreases |snapshot|
  {
    if snapshot != [] {
      var prefix := snapshot[..|snapshot| - 1];
      var last := snapshot[|snapshot| - 1];
      assert prefix + [last] == snapshot;
      SongsInEmptyIff(prefix, name);
      HasListSnoc(prefix, last, name);
    }
  }

  /** A song is in list `name` exactly when it is read from a document of
      that list. */
  lemma {:induction false} SongsInMember(snapshot: seq<Doc>, name: string, s: Song)
    ensures s in SongsIn(snapshot, name)
        <==> exists k :: 0 <= k < |snapshot| && snapshot[k].listName == name && ReadSong(snapshot[k]) == s
    decreases |snapshot|
  {
    if snapshot != [] {
      var prefix := snapshot[..|snapshot| - 1];
      SongsInMember(prefix, name, s);
      assert forall k :: 0 <= k < |prefix| ==> prefix[k] == snapshot[k];
      if s in SongsIn(snapshot, name) && s !in SongsIn(prefix, name) {
        assert snapshot[|snapshot| - 1].listName == name && ReadSong(snapshot[|snapshot| - 1]) == s;
      }
    }
  }

  /** The query of a store with one more document appended. */
  lemma QuerySnoc(docs: seq<Doc>, d: Doc, uid: string)
    ensures Query(docs + [d], uid) == Query(docs, uid) + (if d.uid == uid then [d] else [])
  {
    assert (docs + [d])[..|docs|] == docs;
  }

  /** The query of a concatenation is the concatenation of the queries. */
  lemma {:induction false} QueryAppend(a: seq<Doc>, b: seq<Doc>, uid: string)
    ensures Query(a + b, uid) == Query(a, uid) + Query(b, uid)
    decreases |b|
  {
    if b == [] {
      assert a + b == a;
    } else {
      var b' := b[..|b| - 1];
      var x := b[|b| - 1];
      var tail := if x.uid == uid then [x] else [];
      assert b == b' + [x];
      assert a + b == (a + b') + [x];
      calc {
        Query(a + b, uid);
        { QuerySnoc(a + b', x, uid); }
        Query(a + b', uid) + tail;
        { QueryAppend(a, b', uid); }
        (Query(a, uid) + Query(b', uid)) + tail;
        Query(a, uid) + (Query(b', uid) + tail);
        { QuerySnoc(b', x, uid); }
        Query(a, uid) + Query(b, uid);
      }
    }
  }

  /** The songs of a list in a concatenation are those of each part, in order. */
  lemma {:induction false} SongsInAppend(a: seq<Doc>, b: seq<Doc>, name: string)
    ensures SongsIn(a + b, name) == SongsIn(a, name) + SongsIn(b, name)
    decreases |b|
  {
    if b == [] {
      assert a + b == a;
    } else {
      var b' := b[..|b| - 1];
      var x := b[|b| - 1];
      var tail := if x.listName == name then [ReadSong(x)] else [];
      assert b == b' + [x];
      assert a + b == (a + b') + [x];
      calc {
        SongsIn(a + b, name);
        { SongsInSnoc(a + b', x, name); }
        SongsIn(a + b', name) + tail;
        { SongsInAppend(a, b', name); }
        (SongsIn(a, name) + SongsIn(b', name)) + tail;
        SongsIn(a, name) + (SongsIn(b', name) + tail);
        { SongsInSnoc(b', x, name); }
        SongsIn(a, name) + SongsIn(b, name);
      }
    }
  }

  /** The songs of list `other` that `reader` sees in `a + [d] + b`. */
  lemma InsertedSongs(a: seq<Doc>, d: Doc, b: seq<Doc>, reader: string, other: string)
    ensures SongsIn(Query(a + [d] + b, reader), other)
         == SongsIn(Query(a, reader), other)
          + (if d.uid == reader && d.listName == other then [ReadSong(d)] else [])
          + SongsIn(Query(b, reader), other)
  {
    var qa, qb := Query(a, reader), Query(b, reader);
    var qd := if d.uid == reader then [d] else [];
    var added := if d.uid == reader && d.listName == other then [ReadSong(d)] else [];
    assert SongsIn(qd, other) == added by {
      if d.uid == reader {
        SongsInSnoc([], d, other);
        assert [] + [d] == [d];
      }
    }
    calc {
      SongsIn(Query(a + [d] + b, reader), other);
      { QueryAppend(a + [d], b, reader); }
      SongsIn(Query(a + [d], reader) + qb, other);
      { QuerySnoc(a, d, reader); }
      SongsIn(qa + qd + qb, other);
      { SongsInAppend(qa + qd, qb, other); SongsInAppend(qa, qd, other); }
      SongsIn(qa, other) + added + SongsIn(qb, other);
    }
  }

  /** Adding a document for `uid` to list `name`, wherever the store places it
      in its read order, adds exactly one song to that list of `uid`, at the
      place of the new document, and leaves every other list of every user as
      it was; there is no duplicate check, so the same song added twice is
      listed twice. */
  lemma AddGrowsOneList(docs: seq<Doc>, pos: nat, docId: string, song: Song, uid: string, name: string,
                        reader: string, other: string)
    requires pos <= |docs|
    ensures var d := NewDoc(docId, song, uid, name);
            var added := if reader == uid && other == name then [ReadSong(d)] else [];
            var after := SongsIn(Query(docs[..pos] + [d] + docs[pos..], reader), other);
            && after == SongsIn(Query(docs[..pos], reader), other) + added + SongsIn(Query(docs[pos..], reader), other)
            && multiset(after) == multiset(SongsIn(Query(docs, reader), other)) + multiset(added)
            && |after| == |SongsIn(Query(docs, reader), other)| + |added|
  {
    var d := NewDoc(docId, song, uid, name);
    InsertedSongs(docs[..pos], d, docs[pos..], reader, other);
    SongsInSplit(docs, pos, reader, other);
    var added := if reader == uid && other == name then [ReadSong(d)] else [];
    MultisetMiddle(SongsIn(Query(docs[..pos], reader), other), added, SongsIn(Query(docs[pos..], reader), other));
  }

  /** What `reader` sees of list `other` splits at any position of the store. */
  lemma SongsInSplit(docs: seq<Doc>, pos: nat, reader: string, other: string)
    requires pos <= |docs|
    ensures SongsIn(Query(docs, reader), other)
         == SongsIn(Query(docs[..pos], reader), other) + SongsIn(Query(docs[pos..], reader), other)
  {
    assert docs == docs[..pos] + docs[pos..];
    QueryAppend(docs[..pos], docs[pos..], reader);
    SongsInAppend(Query(docs[..pos], reader), Query(docs[pos..], reader), other);
  }

  /** Putting `m` between `a` and `b` adds its elements and its length. */
  lemma MultisetMiddle(a: seq<Song>, m: seq<Song>, b: seq<Song>)
    ensures multiset(a + m + b) == multiset(a + b) + multiset(m)
    ensures |a + m + b| == |a + b| + |m|
  {
  }

  /** Adding the same song twice to one list of the reading user gives that
      list two more entries, one per document, wherever they are placed. */
  lemma AddTwiceTwoEntries(docs: seq<Doc>, pos1: nat, pos2: nat, id1: string, id2: string,
                           song: Song, uid: string, name: string)
    requires pos1 <= |docs| && pos2 <= |docs| + 1
    ensures var once := docs[..pos1] + [NewDoc(id1, song, uid, name)] + docs[pos1..];
            var twice := once[..pos2] + [NewDoc(id2, song, uid, name)] + once[pos2..];
            |SongsIn(Query(twice, uid), name)| == |SongsIn(Query(docs, uid), name)| + 2
  {
    var once := docs[..pos1] + [NewDoc(id1, song, uid, name)] + docs[pos1..];
    AddGrowsOneList(docs, pos1, id1, song, uid, name, uid, name);
    AddGrowsOneList(once, pos2, id2, song, uid, name, uid, name);
  }

  /** Placing a document with a fresh id anywhere keeps the ids unique. */
  lemma InsertUnique(docs: seq<Doc>, pos: nat, d: Doc)
    requires UniqueDocIds(docs) && pos <= |docs|
    requires forall k :: 0 <= k < |docs| ==> docs[k].docId != d.docId
    ensures UniqueDocIds(docs[..pos] + [d] + docs[pos..])
  {
    var r := docs[..pos] + [d] + docs[pos..];
    forall i | 0 <= i < |r| ensures r[i] == (if i < pos then docs[i] else if i == pos then d else docs[i - 1]) {
      if i > pos {
        assert r[i] == docs[pos..][i - pos - 1];
      }
    }
  }

  /** The preview URL does not survive a store round trip: the write keeps the
      song's `previewUrl` key and the read looks for `preview_url`. */
  lemma PreviewUrlLost(docId: string, song: Song, uid: string, name: string)
    requires song.previewUrl.Some?
    ensures ReadSong(NewDoc(docId, song, uid, name)).previewUrl != song.previewUrl
    ensures ReadSong(NewDoc(docId, song, uid, name)).id == docId
  {
  }

  /** Deleting from a store with one more document appended. */
  lemma RemoveIdSnoc(docs: seq<Doc>, d: Doc, id: string)
    ensures RemoveId(docs + [d], id) == RemoveId(docs, id) + (if d.docId != id then [d] else [])
  {
    assert (docs + [d])[..|docs|] == docs;
  }

  /** Deleting from a concatenation deletes from each part. */
  lemma {:induction false} RemoveIdAppend(a: seq<Doc>, b: seq<Doc>, id: string)
    ensures RemoveId(a + b, id) == RemoveId(a, id) + RemoveId(b, id)
    decreases |b|
  {
    if b == [] {
      assert a + b == a;
    } else {
      var b' := b[..|b| - 1];
      var x := b[|b| - 1];
      var tail := if x.docId != id then [x] else [];
      assert b == b' + [x];
      assert a + b == (a + b') + [x];
      calc {
        RemoveId(a + b, id);
        { RemoveIdSnoc(a + b', x, id); }
        RemoveId(a + b', id) + tail;
        { RemoveIdAppend(a, b', id); }
        (RemoveId(a, id) + RemoveId(b', id)) + tail;
        RemoveId(a, id) + (RemoveId(b', id) + tail);
        { RemoveIdSnoc(b', x, id); }
        RemoveId(a, id) + RemoveId(b, id);
      }
    }
  }

  /** Deleting the id of a document `x` that no other document carries (as in
      a store with unique ids) removes exactly `x` and keeps every other
      document in order. */
  lemma RemoveIdSplit(before: seq<Doc>, x: Doc, after: seq<Doc>)
    requires forall k :: 0 <= k < |before| ==> before[k].docId != x.docId
    requires forall k :: 0 <= k < |after| ==> after[k].docId != x.docId
    ensures RemoveId(before + [x] + after, x.docId) == before + after
  {
    RemoveIdAbsent(before, x.docId);
    RemoveIdAbsent(after, x.docId);
    RemoveIdSnoc(before, x, x.docId);
    RemoveIdAppend(before + [x], after, x.docId);
  }

  /** Removing keeps the document ids unique. */
  lemma {:induction false} RemoveIdUnique(docs: seq<Doc>, id: string)
    requires UniqueDocIds(docs)
    ensures UniqueDocIds(RemoveId(docs, id))
    decreases |docs|
  {
    if docs != [] {
      var prefix := docs[..|docs| - 1];
      var last := docs[|docs| - 1];
      assert forall k :: 0 <= k < |prefix| ==> prefix[k] == docs[k];
      RemoveIdUnique(prefix, id);
      var rest := RemoveId(prefix, id);
      forall k | 0 <= k < |rest| ensures rest[k].docId != last.docId {
        var m :| 0 <= m < |prefix| && prefix[m] == rest[k];
      }
    }
  }

  /** The query keeps the document ids unique. */
  lemma {:induction false} QueryUnique(docs: seq<Doc>, uid: string)
    requires UniqueDocIds(docs)
    ensures UniqueDocIds(Query(docs, uid))
    decreases |docs|
  {
    if docs != [] {
      var prefix := docs[..|docs| - 1];
      var last := docs[|docs| - 1];
      assert forall k :: 0 <= k < |prefix| ==> prefix[k] == docs[k];
      QueryUnique(prefix, uid);
      var rest := Query(prefix, uid);
      forall k | 0 <= k < |rest| ensures rest[k].docId != last.docId {
        var m :| 0 <= m < |prefix| && prefix[m] == rest[k];
      }
    }
  }

  /** Removing an id no document carries changes nothing. */
  lemma {:induction false} RemoveIdAbsent(docs: seq<Doc>, id: string)
    requires forall k :: 0 <= k < |docs| ==> docs[k].docId != id
    ensures RemoveId(docs, id) == docs
    decreases |docs|
  {
    if docs != [] {
      RemoveIdAbsent(docs[..|docs| - 1], id);
      assert docs[..|docs| - 1] + [docs[|docs| - 1]] == docs;
    }
  }

  /** Every song of every list carries the document id of a document of the
      snapshot, never the stored song id. */
  lemma SongIdsAreDocIds(snapshot: seq<Doc>, name: string, s: Song)
    requires s in SongsIn(snapshot, name)
    ensures exists k :: 0 <= k < |snapshot| && snapshot[k].docId == s.id
  {
    SongsInMember(snapshot, name, s);
  }

  // ---------------------------------------------------------------------------
  // What getPlaylists returns

  /** `r` groups `snapshot` by list name: one group per list that occurs, none
      for a list that does not, names pairwise distinct, and each group holds
      exactly that list's songs in read order. Group order is not stated. */
  ghost predicate IsGrouping(r: seq<Playlist>, snapshot: seq<Doc>)
  {
    && (forall i, j :: 0 <= i < j < |r| ==> r[i].listName != r[j].listName)
    && (forall i :: 0 <= i < |r| ==> HasList(snapshot, r[i].listName))
    && (forall i :: 0 <= i < |r| ==> r[i].songs == SongsIn(snapshot, r[i].listName))
    && (forall k :: 0 <= k < |snapshot| ==> HasGroup(r, snapshot[k].listName))
  }

  /** Some group of `r` is named `name`. */
  predicate HasGroup(r: seq<Playlist>, name: string)
  {
    exists i :: 0 <= i < |r| && r[i].listName == name
  }

  /** Every group of a grouping has at least one song. */
  lemma GroupsNonEmpty(r: seq<Playlist>, snapshot: seq<Doc>)
    requires IsGrouping(r, snapshot)
    ensures forall i :: 0 <= i < |r| ==> |r[i].songs| > 0
  {
    forall i | 0 <= i < |r| ensures |r[i].songs| > 0 {
      SongsInEmptyIff(snapshot, r[i].listName);
    }
  }

  /** With unique document ids, each document's song is in a group exactly
      when that group is the document's list; as names are distinct and every
      list has a group, each document appears in exactly one group. */
  lemma DocInExactlyItsGroup(r: seq<Playlist>, snapshot: seq<Doc>, k: nat, i: nat)
    requires IsGrouping(r, snapshot) && UniqueDocIds(snapshot)
    requires k < |snapshot| && i < |r|
    ensures ReadSong(snapshot[k]) in r[i].songs <==> r[i].listName == snapshot[k].listName
  {
    SongsInMember(snapshot, r[i].listName, ReadSong(snapshot[k]));
    if ReadSong(snapshot[k]) in r[i].songs {
      var k' :| 0 <= k' < |snapshot| && snapshot[k'].listName == r[i].listName
                && ReadSong(snapshot[k']) == ReadSong(snapshot[k]);
      assert snapshot[k'].docId == snapshot[k].docId;
      assert k' == k;
    }
  }

  /** The number of songs over all groups. */
  function TotalSongs(r: seq<Playlist>): nat
  {
    if r == [] then 0 else |r[0].songs| + TotalSongs(r[1..])
  }

  /** The list names of a grouping, in its order. */
  function Names(r: seq<Playlist>): (ns: seq<string>)
    ensures |ns| == |r| && forall i :: 0 <= i < |r| ==> ns[i] == r[i].listName
  {
    if r == [] then [] else [r[0].listName] + Names(r[1..])
  }

  /** The number of songs `snapshot` files under the names `ns`. */
  function CountUnder(snapshot: seq<Doc>, ns: seq<string>): nat
  {
    if ns == [] then 0 else |SongsIn(snapshot, ns[0])| + CountUnder(snapshot, ns[1..])
  }

  /** How many times `name` occurs in `ns`. */
  function Occurrences(ns: seq<string>, name: string): nat
  {
    if ns == [] then 0 else (if ns[0] == name then 1 else 0) + Occurrences(ns[1..], name)
  }

  lemma {:induction false} OccurrencesDistinct(ns: seq<string>, name: string)
    requires forall i, j :: 0 <= i < j < |ns| ==> ns[i] != ns[j]
    requires name in ns
    ensures Occurrences(ns, name) == 1
  {
    if ns[0] == name {
      OccurrencesAbsent(ns[1..], name);
    } else {
      OccurrencesDistinct(ns[1..], name);
    }
  }

  lemma {:induction false} OccurrencesAbsent(ns: seq<string>, name: string)
    requires name !in ns
    ensures Occurrences(ns, name) == 0
  {
    if ns != [] {
      OccurrencesAbsent(ns[1..], name);
    }
  }

  lemma {:induction false} CountUnderEmpty(ns: seq<string>)
    ensures CountUnder([], ns) == 0
  {
    if ns != [] {
      CountUnderEmpty(ns[1..]);
    }
  }

  lemma {:induction false} CountUnderSnoc(snapshot: seq<Doc>, d: Doc, ns: seq<string>)
    ensures CountUnder(snapshot + [d], ns) == CountUnder(snapshot, ns) + Occurrences(ns, d.listName)
  {
    if ns != [] {
      SongsInSnoc(snapshot, d, ns[0]);
      CountUnderSnoc(snapshot, d, ns[1..]);
    }
  }

  /** Distinct names covering every document of a snapshot count each of its
      documents once. */
  lemma {:induction false} CountUnderCovering(snapshot: seq<Doc>, ns: seq<string>)
    requires forall i, j :: 0 <= i < j < |ns| ==> ns[i] != ns[j]
    requires forall k :: 0 <= k < |snapshot| ==> snapshot[k].listName in ns
    ensures CountUnder(snapshot, ns) == |snapshot|
    decreases |snapshot|
  {
    if snapshot == [] {
      CountUnderEmpty(ns);
    } else {
      var prefix := snapshot[..|snapshot| - 1];
      var last := snapshot[|snapshot| - 1];
      assert prefix + [last] == snapshot;
      assert forall k :: 0 <= k < |prefix| ==> prefix[k] == snapshot[k];
      CountUnderCovering(prefix, ns);
      CountUnderSnoc(prefix, last, ns);
      OccurrencesDistinct(ns, last.listName);
    }
  }

  lemma {:induction false} TotalSongsIsCountUnder(r: seq<Playlist>, snapshot: seq<Doc>)
    requires forall i :: 0 <= i < |r| ==> r[i].songs == SongsIn(snapshot, r[i].listName)
    ensures TotalSongs(r) == CountUnder(snapshot, Names(r))
  {
    if r != [] {
      TotalSongsIsCountUnder(r[1..], snapshot);
      assert Names(r)[1..] == Names(r[1..]);
    }
  }

  /** The group sizes of a grouping add up to the number of documents grouped. */
  lemma GroupSizesSum(r: seq<Playlist>, snapshot: seq<Doc>)
    requires IsGrouping(r, snapshot)
    ensures TotalSongs(r) == |snapshot|
  {
    var ns := Names(r);
    forall k | 0 <= k < |snapshot| ensures snapshot[k].listName in ns {
      assert HasGroup(r, snapshot[k].listName);
      var i :| 0 <= i < |r| && r[i].listName == snapshot[k].listName;
      assert ns[i] == snapshot[k].listName;
    }
    TotalSongsIsCountUnder(r, snapshot);
    CountUnderCovering(snapshot, ns);
  }

  /** Deletion visibility: a grouping read after removing `id` lists no song
      with that id. */
  lemma RemovedSongInvisible(r: seq<Playlist>, docs: seq<Doc>, uid: string, id: string)
    requires IsGrouping(r, Query(RemoveId(docs, id), uid))
    ensures forall i, s :: 0 <= i < |r| && s in r[i].songs ==> s.id != id
  {
    var snapshot := Query(RemoveId(docs, id), uid);
    forall i, s | 0 <= i < |r| && s in r[i].songs ensures s.id != id {
      SongIdsAreDocIds(snapshot, r[i].listName, s);
    }
  }

  /** The state of getPlaylists's forEach after reading `s`: `grouped` maps
      each list met so far to its songs so far, and `order` holds its keys in
      insertion order. */
  ghost predicate GroupedState(grouped: map<string, seq<Song>>, order: seq<string>, s: seq<Doc>)
  {
    && (forall n :: n in grouped <==> HasList(s, n))
    && (forall n :: n in grouped ==> grouped[n] == SongsIn(s, n))
    && (forall n :: n in grouped <==> n in order)
    && (forall a, b :: 0 <= a < b < |order| ==> order[a] != order[b])
  }

  /** One step of the forEach: create the list if it is missing, then push. */
  lemma GroupStep(grouped: map<string, seq<Song>>, order: seq<string>, s: seq<Doc>, d: Doc)
    requires GroupedState(grouped, order, s)
    ensures var g := if d.listName !in grouped then grouped[d.listName := []] else grouped;
            var o := if d.listName !in grouped then order + [d.listName] else order;
            GroupedState(g[d.listName := g[d.listName] + [ReadSong(d)]], o, s + [d])
  {
    var name := d.listName;
    var g := if name !in grouped then grouped[name := []] else grouped;
    var o := if name !in grouped then order + [name] else order;
    var g2 := g[name := g[name] + [ReadSong(d)]];
    GroupStepKeys(grouped, s, d);
    GroupStepSongs(grouped, s, d);
    assert forall n :: n in g2 <==> n in o;
    assert forall a, b :: 0 <= a < b < |o| ==> o[a] != o[b];
  }

  /** After one step the dictionary's keys are the lists read so far. */
  lemma GroupStepKeys(grouped: map<string, seq<Song>>, s: seq<Doc>, d: Doc)
    requires forall n :: n in grouped <==> HasList(s, n)
    ensures var g := if d.listName !in grouped then grouped[d.listName := []] else grouped;
            forall n :: n in g[d.listName := g[d.listName] + [ReadSong(d)]] <==> HasList(s + [d], n)
  {
    forall n ensures HasList(s + [d], n) <==> HasList(s, n) || n == d.listName {
      HasListSnoc(s, d, n);
    }
  }

  /** After one step every entry holds the songs of its list read so far. */
  lemma GroupStepSongs(grouped: map<string, seq<Song>>, s: seq<Doc>, d: Doc)
    requires forall n :: n in grouped <==> HasList(s, n)
    requires forall n :: n in grouped ==> grouped[n] == SongsIn(s, n)
    ensures var g := if d.listName !in grouped then grouped[d.listName := []] else grouped;
            var g2 := g[d.listName := g[d.listName] + [ReadSong(d)]];
            forall n :: n in g2 ==> g2[n] == SongsIn(s + [d], n)
  {
    var name := d.listName;
    var g := if name !in grouped then grouped[name := []] else grouped;
    var g2 := g[name := g[name] + [ReadSong(d)]];
    forall n | n in g2 ensures g2[n] == SongsIn(s + [d], n) {
      SongsInSnoc(s, d, n);
      if n == name && name !in grouped {
        SongsInEmptyIff(s, name);
      }
    }
  }


  /** The entries of the final state, as playlists, are a grouping. */
  lemma GroupingFromState(grouped: map<string, seq<Song>>, order: seq<string>, s: seq<Doc>, r: seq<Playlist>)
    requires GroupedState(grouped, order, s)
    requires |r| == |order|
    requires forall a :: 0 <= a < |r| ==> order[a] in grouped && r[a] == Playlist(order[a], grouped[order[a]])
    ensures IsGrouping(r, s)
  {
    forall k | 0 <= k < |s|
      ensures HasGroup(r, s[k].listName)
    {
      assert s[k].listName in grouped by {
        assert HasList(s, s[k].listName);
      }
      var w :| 0 <= w < |order| && order[w] == s[k].listName;
      assert 0 <= w < |r| && r[w].listName == s[k].listName;
    }
  }

  // ---------------------------------------------------------------------------
  // What getUserPlaylists returns

  /** The distinct non-empty list names of `snapshot`, each at its first
      occurrence; an empty name is falsy and is skipped. */
  function DistinctNames(snapshot: seq<Doc>): (r: seq<string>)
    ensures forall i, j :: 0 <= i < j < |r| ==> r[i] != r[j]
    ensures forall n :: n in r <==> n != "" && HasList(snapshot, n)
  {
    if snapshot == [] then []
    else
      var prefix := snapshot[..|snapshot| - 1];
      var p := DistinctNames(prefix);
      var n := snapshot[|snapshot| - 1].listName;
      assert prefix + [snapshot[|snapshot| - 1]] == snapshot;
      assert forall m :: HasList(snapshot, m) <==> HasList(prefix, m) || m == n by {
        forall m { HasListSnoc(prefix, snapshot[|snapshot| - 1], m); }
      }
      if n == "" || n in p then p else p + [n]
  }

  /** Wherever a later name of `r` occurs in the snapshot, an earlier name of
      `r` has occurred before it: `r` is in first-occurrence order. */
  ghost predicate FirstOccurrenceOrdered(r: seq<string>, snapshot: seq<Doc>)
  {
    forall i, j, k :: 0 <= i < j < |r| && 0 <= k < |snapshot| && snapshot[k].listName == r[j]
      ==> exists k' :: 0 <= k' < k && snapshot[k'].listName == r[i]
  }

  /** Reading one more document adds its list name at the end, unless it is
      empty or already listed. */
  lemma DistinctNamesSnoc(prefix: seq<Doc>, d: Doc)
    ensures DistinctNames(prefix + [d])
         == if d.listName == "" || d.listName in DistinctNames(prefix) then DistinctNames(prefix)
            else DistinctNames(prefix) + [d.listName]
  {
    assert (prefix + [d])[..|prefix|] == prefix;
  }

  /** The names of DistinctNames come in first-occurrence order. */
  lemma {:induction false} DistinctNamesFirstOccurrenceOrder(snapshot: seq<Doc>)
    ensures FirstOccurrenceOrdered(DistinctNames(snapshot), snapshot)
    decreases |snapshot|
  {
    if snapshot != [] {
      var prefix := snapshot[..|snapshot| - 1];
      var d := snapshot[|snapshot| - 1];
      assert prefix + [d] == snapshot;
      DistinctNamesFirstOccurrenceOrder(prefix);
      var r := DistinctNames(snapshot);
      forall i, j, k | 0 <= i < j < |r| && 0 <= k < |snapshot| && snapshot[k].listName == r[j]
        ensures exists k' :: 0 <= k' < k && snapshot[k'].listName == r[i]
      {
        FirstOccurrenceStep(prefix, d, i, j, k);
      }
    }
  }

  /** The inductive step of DistinctNamesFirstOccurrenceOrder for one triple
      of positions. */
  lemma FirstOccurrenceStep(prefix: seq<Doc>, d: Doc, i: nat, j: nat, k: nat)
    requires FirstOccurrenceOrdered(DistinctNames(prefix), prefix)
    requires i < j < |DistinctNames(prefix + [d])| && k <= |prefix|
    requires (prefix + [d])[k].listName == DistinctNames(prefix + [d])[j]
    ensures exists k' :: 0 <= k' < k && (prefix + [d])[k'].listName == DistinctNames(prefix + [d])[i]
  {
    var s := prefix + [d];
    var p := DistinctNames(prefix);
    var r := DistinctNames(s);
    DistinctNamesSnoc(prefix, d);
    assert i < |p| && r[i] == p[i];
    assert p[i] in p;
    assert HasList(prefix, p[i]);
    var k' :| 0 <= k' < |prefix| && prefix[k'].listName == p[i];
    assert s[k'] == prefix[k'];
    if k < |prefix| {
      assert s[k] == prefix[k];
      assert r[j] in r;
      assert HasList(prefix, r[j]);
      assert r[j] in p;
      assert j < |p| && r[j] == p[j];
      var k'' :| 0 <= k'' < k && prefix[k''].listName == p[i];
      assert s[k''] == prefix[k''];
    }
  }

  // ---------------------------------------------------------------------------
  // The finding: grouping into a `{}` object literal

  /** The properties a fresh `{}` object inherits from Object.prototype. */
  const ObjectPrototypeKeys: set<string> := {
    "constructor", "__proto__", "__defineGetter__", "__defineSetter__",
    "__lookupGetter__", "__lookupSetter__", "hasOwnProperty", "isPrototypeOf",
    "propertyIsEnumerable", "toLocaleString", "toString", "valueOf"
  }

  /** What `grouped[key]` evaluates to on the `{}` literal getPlaylists fills:
      its own array, an inherited (truthy, non-array) member, or undefined. */
  datatype PropertyLookup = Undefined | OwnArray(songs: seq<Song>) | Inherited

  function LookupAsWritten(grouped: map<string, seq<Song>>, key: string): PropertyLookup
  {
    if key in grouped then OwnArray(grouped[key])
    else if key in ObjectPrototypeKeys then Inherited
    else Undefined
  }

  /** The forEach of getPlaylists as written: a missing (falsy) entry is
      created, then the song is pushed; None where `push` is called on an
      inherited member, which throws a TypeError. */
  function GroupAsWritten(snapshot: seq<Doc>): Option<map<string, seq<Song>>>
  {
    if snapshot == [] then Some(map[])
    else
      match GroupAsWritten(snapshot[..|snapshot| - 1])
      case None => None
      case Some(grouped) =>
        var d := snapshot[|snapshot| - 1];
        var g := if LookupAsWritten(grouped, d.listName) == Undefined then grouped[d.listName := []] else grouped;
        match LookupAsWritten(g, d.listName)
        case OwnArray(songs) => Some(g[d.listName := songs + [ReadSong(d)]])
        case _ => None
  }

  /** A document filed under an Object.prototype name occurs in `snapshot`. */
  predicate HasPrototypeName(snapshot: seq<Doc>)
  {
    exists k :: 0 <= k < |snapshot| && snapshot[k].listName in ObjectPrototypeKeys
  }

  /** The code as written throws exactly when some list is named after an
      Object.prototype member, and otherwise builds exactly the grouping. */
  lemma {:induction false} GroupAsWrittenCharacterized(snapshot: seq<Doc>)
    ensures GroupAsWritten(snapshot).None? <==> HasPrototypeName(snapshot)
    ensures GroupAsWritten(snapshot).Some? ==>
              var g := GroupAsWritten(snapshot).value;
              && (forall n :: n in g <==> HasList(snapshot, n))
              && (forall n :: n in g ==> g[n] == SongsIn(snapshot, n))
    decreases |snapshot|
  {
    if snapshot != [] {
      var prefix := snapshot[..|snapshot| - 1];
      var d := snapshot[|snapshot| - 1];
      assert prefix + [d] == snapshot;
      assert forall k :: 0 <= k < |prefix| ==> prefix[k] == snapshot[k];
      forall m ensures HasList(snapshot, m) <==> HasList(prefix, m) || m == d.listName {
        HasListSnoc(prefix, d, m);
      }
      assert HasPrototypeName(snapshot) <==> HasPrototypeName(prefix) || d.listName in ObjectPrototypeKeys;
      GroupAsWrittenCharacterized(prefix);
      forall n ensures SongsIn(snapshot, n) == SongsIn(prefix, n) + (if d.listName == n then [ReadSong(d)] else []) {
        SongsInSnoc(prefix, d, n);
      }
      if GroupAsWritten(prefix).Some? {
        var grouped := GroupAsWritten(prefix).value;
        if d.listName !in grouped {
          SongsInEmptyIff(prefix, d.listName);
        }
      }
    }
  }

  /** The input that shows it: one song filed under "constructor". The code
      as written throws, while the intended grouping has one group. */
  lemma ConstructorListBreaksGrouping(d: Doc)
    requires d.listName == "constructor"
    ensures GroupAsWritten([d]) == None
    ensures IsGrouping([Playlist("constructor", [ReadSong(d)])], [d])
  {
    assert [d][..0] == [];
    assert [d][0].listName == "constructor";
    assert HasList([d], "constructor");
    assert HasGroup([Playlist("constructor", [ReadSong(d)])], [d][0].listName) by {
      assert [Playlist("constructor", [ReadSong(d)])][0].listName == [d][0].listName;
    }
  }

  // ---------------------------------------------------------------------------
  // The adapter

  /** The adapter over the store: `docs` is the collection in read order and
      `currentUser` the uid of the signed-in user, if any. */
  class PlaylistAdapter {
    var docs: seq<Doc>
    var currentUser: Option<string>

    ghost predicate Valid()
      reads this
    {
      UniqueDocIds(docs)
    }

    constructor (docs: seq<Doc>, currentUser: Option<string>)
      requires UniqueDocIds(docs)
      ensures Valid()
      ensures this.docs == docs && this.currentUser == currentUser
    {
      this.docs := docs;
      this.currentUser := currentUser;
    }

    /** addSongToList: fails without a signed-in user and writes nothing;
        otherwise stores one document for the song under `listName`, with the
        new document id `docId` the store assigns. The store reads documents
        back ordered by id and the id is random, so where the new document
        falls in the read order, `pos`, is the store's choice too. */
    method AddSongToList(song: Song, listName: string, docId: string, pos: nat)
      returns (outcome: Outcome<PlaylistError>)
      requires Valid() && pos <= |docs|
      requires forall k :: 0 <= k < |docs| ==> docs[k].docId != docId
      modifies this`docs
      ensures Valid()
      ensures currentUser.None? ==> outcome == Fail(NoAuthenticatedUser) && docs == old(docs)
      ensures currentUser.Some? ==>
                && outcome == Pass
                && docs == old(docs)[..pos] + [NewDoc(docId, song, currentUser.value, listName)] + old(docs)[pos..]
    {
      if currentUser.None? {
        return Fail(NoAuthenticatedUser);
      }
      var d := NewDoc(docId, song, currentUser.value, listName);
      InsertUnique(docs, pos, d);
      docs := docs[..pos] + [d] + docs[pos..];
      outcome := Pass;
    }

    /** getPlaylists: nothing without a signed-in user; otherwise the grouping
        of that user's documents by list name. */
    method GetPlaylists() returns (r: seq<Playlist>)
      requires Valid()
      ensures currentUser.None? ==> r == []
      ensures currentUser.Some? ==> IsGrouping(r, Query(docs, currentUser.value))
      ensures currentUser.Some? ==>
                var snapshot := Query(docs, currentUser.value);
                forall k, i :: 0 <= k < |snapshot| && 0 <= i < |r| ==>
                  (ReadSong(snapshot[k]) in r[i].songs <==> r[i].listName == snapshot[k].listName)
    {
      if currentUser.None? {
        return [];
      }
      var snapshot := Query(docs, currentUser.value);
      QueryUnique(docs, currentUser.value);
      var grouped: map<string, seq<Song>> := map[];
      var order: seq<string> := [];  // the insertion order of grouped's keys
      var i := 0;
      while i < |snapshot|
        invariant 0 <= i <= |snapshot|
        invariant GroupedState(grouped, order, snapshot[..i])
      {
        var d := snapshot[i];
        assert snapshot[..i + 1] == snapshot[..i] + [d];
        GroupStep(grouped, order, snapshot[..i], d);
        if d.listName !in grouped {
          grouped := grouped[d.listName := []];
          order := order + [d.listName];
        }
        grouped := grouped[d.listName := grouped[d.listName] + [ReadSong(d)]];
        i := i + 1;
      }
      assert snapshot[..i] == snapshot;
      r := [];
      var j := 0;
      while j < |order|
        invariant 0 <= j <= |order|
        invariant |r| == j
        invariant forall a :: 0 <= a < j ==> order[a] in grouped && r[a] == Playlist(order[a], grouped[order[a]])
      {
        r := r + [Playlist(order[j], grouped[order[j]])];
        j := j + 1;
      }
      GroupingFromState(grouped, order, snapshot, r);
      forall k, i | 0 <= k < |snapshot| && 0 <= i < |r|
        ensures ReadSong(snapshot[k]) in r[i].songs <==> r[i].listName == snapshot[k].listName
      {
        DocInExactlyItsGroup(r, snapshot, k, i);
      }
    }

    /** removeSongFromList: deletes the document with that id, whoever owns
        it, and keeps every other document. */
    method RemoveSongFromList(songId: string)
      requires Valid()
      modifies this`docs
      ensures Valid()
      ensures docs == RemoveId(old(docs), songId)
    {
      RemoveIdUnique(docs, songId);
      docs := RemoveId(docs, songId);
    }

    /** getUserPlaylists: the distinct non-empty list names of `userId`'s
        documents, in first-occurrence order. */
    method GetUserPlaylists(userId: string) returns (names: seq<string>)
      ensures names == DistinctNames(Query(docs, userId))
    {
      var snapshot := Query(docs, userId);
      var seen: set<string> := {};
      names := [];
      var i := 0;
      while i < |snapshot|
        invariant 0 <= i <= |snapshot|
        invariant names == DistinctNames(snapshot[..i])
        invariant forall n :: n in seen <==> n in names
      {
        var name := snapshot[i].listName;
        assert snapshot[..i + 1][..i] == snapshot[..i];
        if name != "" && name !in seen {
          seen := seen + {name};
          names := names + [name];
        }
        i := i + 1;
      }
      assert snapshot[..i] == snapshot;
    }
  }
}

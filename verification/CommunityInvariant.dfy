/** Every operation keeps the community store's invariant, and leaves the lasting part of every entry alone. */
module CommunityInvariant {
  import opened Wrappers
  import opened Community

  // ---------- What never changes about an entry ----------

  ghost predicate SameIdentity(a: Entry, b: Entry) {
    && a.id == b.id && a.author == b.author && a.original == b.original
    && a.requestId == b.requestId && a.number == b.number && a.postAuthor == b.postAuthor
  }

  /** Entries are only added, deletion is final, and nothing else of an entry's identity moves. */
  ghost predicate Extends(a: seq<Entry>, b: seq<Entry>) {
    |a| <= |b| && forall i :: 0 <= i < |a| ==> SameIdentity(a[i], b[i]) && (a[i].deleted ==> b[i].deleted)
  }

  lemma {:induction false} ParticipantsLocal(a: seq<Entry>, b: seq<Entry>, post: int, n: int)
    requires 1 <= post <= n <= |a| && Extends(a, b)
    ensures Participants(a, post, n) == Participants(b, post, n)
    decreases n
  {
    assert SameIdentity(a[n - 1], b[n - 1]);
    if n > post {
      ParticipantsLocal(a, b, post, n - 1);
    }
  }

  lemma {:induction false} IdentityKeepsStructure(a: seq<Entry>, b: seq<Entry>)
    requires Structure(a) && Extends(a, b) && |a| == |b|
    ensures Structure(b)
  {
    forall i | 0 <= i < |b| ensures SameIdentity(a[i], b[i]) {
    }
    forall i | 0 <= i < |b| ensures ParentIsPost(b, i) && ReplyToComment(b, i) {
      assert ParentIsPost(a, i) && ReplyToComment(a, i);
    }
  }

  lemma {:induction false} NumberKept(a: seq<Entry>, b: seq<Entry>, i: int)
    requires ParentsArePosts(a) && ParentsArePosts(b) && Extends(a, b)
    requires 0 <= i < |a| && NumberedAt(a, i)
    ensures NumberedAt(b, i)
  {
    assert SameIdentity(a[i], b[i]);
    if a[i].parent.Some? {
      var post := a[i].parent.value;
      assert SameIdentity(a[post - 1], b[post - 1]);
      ParticipantsLocal(a, b, post, i + 1);
    }
  }

  lemma {:induction false} IdentityKeepsNumbers(a: seq<Entry>, b: seq<Entry>)
    requires ParentsArePosts(a) && ParentsArePosts(b) && Numbered(a) && Extends(a, b) && |a| == |b|
    ensures Numbered(b)
  {
    forall i | 0 <= i < |b| ensures NumberedAt(b, i) {
      NumberKept(a, b, i);
    }
  }

  /** A notice depends only on the identity of the entry it answers. */
  lemma {:induction false} NoticeLocal(a: seq<Entry>, b: seq<Entry>, id: int, author: Participant, original: Original)
    requires Extends(a, b)
    requires var target := if original.replyTo.Some? then original.replyTo else original.parent;
             target.Some? ==> 1 <= target.value <= |a|
    ensures NoticeFor(a, id, author, original) == NoticeFor(b, id, author, original)
  {
    var target := if original.replyTo.Some? then original.replyTo else original.parent;
    if target.Some? {
      assert SameIdentity(a[target.value - 1], b[target.value - 1]);
    }
  }

  lemma {:induction false} NoticesLocal(a: seq<Entry>, b: seq<Entry>, n: int)
    requires Structure(a) && Extends(a, b) && 0 <= n <= |a|
    ensures Notices(a, n) == Notices(b, n)
  {
    if n > 0 {
      NoticesLocal(a, b, n - 1);
      assert SameIdentity(a[n - 1], b[n - 1]) && ReplyToComment(a, n - 1) && ParentIsPost(a, n - 1);
      NoticeLocal(a, b, n, a[n - 1].author, a[n - 1].original);
    }
  }

  // ---------- Counting live comments ----------

  lemma {:induction false} LiveCommentsAgree(a: seq<Entry>, b: seq<Entry>, post: int)
    requires |a| == |b| && forall i :: 0 <= i < |a| ==> LiveComment(a[i], post) == LiveComment(b[i], post)
    ensures LiveComments(a, post) == LiveComments(b, post)
  {
    if a != [] {
      LiveCommentsAgree(a[..|a| - 1], b[..|b| - 1], post);
    }
  }

  lemma {:induction false} LiveCommentsDrop(a: seq<Entry>, i: int, post: int)
    requires 0 <= i < |a| && !a[i].deleted
    ensures LiveComments(a[i := a[i].(deleted := true)], post) ==
            LiveComments(a, post) - if a[i].parent == Some(post) then 1 else 0
  {
    var b, n := a[i := a[i].(deleted := true)], |a| - 1;
    if i < n {
      assert b[..n] == a[..n][i := a[i].(deleted := true)];
      LiveCommentsDrop(a[..n], i, post);
    } else {
      assert b[..n] == a[..n];
    }
  }

  // ---------- Editing and removing ----------

  lemma {:induction false} EditExtends(s: Store, id: int, owner: string, content: Option<Content>)
    requires 1 <= id <= |s.entries|
    ensures var t := EditHeld(s, id, owner, content).0;
            && Extends(s.entries, t.entries) && |s.entries| == |t.entries| && s.sequence == t.sequence
            && t.notices == s.notices
            && forall i :: 0 <= i < |t.entries| ==>
                 t.entries[i].commentCount == s.entries[i].commentCount && t.entries[i].deleted == s.entries[i].deleted
  {
  }

  /** A change that leaves every identity, the notices and the length alone keeps all but the counts. */
  lemma {:induction false} IdentityKeepsInv(s: Store, t: Store)
    requires Inv(s) && Extends(s.entries, t.entries) && |s.entries| == |t.entries|
    requires s.sequence == t.sequence && s.notices == t.notices
    requires CountsExact(t.entries)
    ensures Inv(t)
  {
    IdentityKeepsStructure(s.entries, t.entries);
    IdentityKeepsNumbers(s.entries, t.entries);
    NoticesLocal(s.entries, t.entries, |s.entries|);
  }

  /** Whether or not the entry has been deleted since it was looked up. */
  lemma {:induction false} EditKeepsInv(s: Store, id: int, owner: string, content: Option<Content>)
    requires Inv(s) && 1 <= id <= |s.entries|
    ensures Inv(EditHeld(s, id, owner, content).0)
  {
    var t := EditHeld(s, id, owner, content).0;
    EditExtends(s, id, owner, content);
    forall i | 0 <= i < |t.entries| && t.entries[i].parent.None?
      ensures t.entries[i].commentCount == LiveComments(t.entries, i + 1)
    {
      assert SameIdentity(s.entries[i], t.entries[i]);
      LiveCommentsAgree(s.entries, t.entries, i + 1);
    }
    IdentityKeepsInv(s, t);
  }

  lemma {:induction false} RemoveExtends(s: Store, postId: Option<int>, id: int, owner: string)
    requires ParentsArePosts(s.entries)
    ensures var t := Remove(s, postId, id, owner).0;
            && Extends(s.entries, t.entries) && |s.entries| == |t.entries|
            && s.sequence == t.sequence && t.notices == s.notices
  {
  }

  lemma {:induction false} CountIgnored(a: seq<Entry>, b: seq<Entry>, post: int)
    requires |a| == |b| && forall i :: 0 <= i < |a| ==> b[i].(commentCount := 0) == a[i].(commentCount := 0)
    ensures LiveComments(a, post) == LiveComments(b, post)
  {
    forall i | 0 <= i < |a| ensures LiveComment(a[i], post) == LiveComment(b[i], post) {
      assert b[i].(commentCount := 0) == a[i].(commentCount := 0);
    }
    LiveCommentsAgree(a, b, post);
  }

  lemma {:induction false} DeletionCounted(a: seq<Entry>, marked: seq<Entry>, b: seq<Entry>, i: int, post: int)
    requires 0 <= i < |a| && !a[i].deleted && marked == a[i := a[i].(deleted := true)]
    requires |b| == |marked| && forall j :: 0 <= j < |b| ==> b[j].(commentCount := 0) == marked[j].(commentCount := 0)
    ensures LiveComments(b, post) == LiveComments(a, post) - if a[i].parent == Some(post) then 1 else 0
  {
    LiveCommentsDrop(a, i, post);
    CountIgnored(marked, b, post);
  }

  /** Marking a live comment deleted and lowering its post's count by one keep all counts exact. */
  lemma {:induction false} DeletionKeepsCounts(a: seq<Entry>, i: int)
    requires ParentsArePosts(a) && CountsExact(a) && 0 <= i < |a| && !a[i].deleted
    ensures var marked := a[i := a[i].(deleted := true)];
            CountsExact(if a[i].parent.Some? then ChangeCount(marked, a[i].parent.value, -1) else marked)
  {
    var marked := a[i := a[i].(deleted := true)];
    var b := if a[i].parent.Some? then ChangeCount(marked, a[i].parent.value, -1) else marked;
    forall k | 0 <= k < |b| && b[k].parent.None? ensures b[k].commentCount == LiveComments(b, k + 1) {
      DeletionCounted(a, marked, b, i, k + 1);
      assert a[k].commentCount == LiveComments(a, k + 1);
    }
  }

  lemma {:induction false} RemoveKeepsInv(s: Store, postId: Option<int>, id: int, owner: string)
    requires Inv(s)
    ensures Inv(Remove(s, postId, id, owner).0)
  {
    var t := Remove(s, postId, id, owner).0;
    RemoveExtends(s, postId, id, owner);
    if t != s {
      DeletionKeepsCounts(s.entries, id - 1);
    }
    IdentityKeepsInv(s, t);
  }

  // ---------- Creating ----------

  /** What the checks before an insertion establish. */
  ghost predicate Insertable(s: Store, requestId: string, original: Original) {
    && (forall i :: 0 <= i < |s.entries| ==> s.entries[i].requestId != requestId)
    && (original.parent.Some? ==>
          1 <= original.parent.value <= |s.entries| && s.entries[original.parent.value - 1].parent.None?)
    && (original.replyTo.Some? ==>
          && original.parent.Some? && 1 <= original.replyTo.value <= |s.entries|
          && s.entries[original.replyTo.value - 1].parent == original.parent
          && s.entries[original.replyTo.value - 1].replyTo.None?)
  }

  lemma {:induction false} InsertedExtends(s: Store, author: Participant, requestId: string, original: Original)
    requires Insertable(s, requestId, original)
    ensures var t, entry := Inserted(s, author, requestId, original), NewEntry(s, author, requestId, original);
            && Extends(s.entries, t.entries) && |t.entries| == |s.entries| + 1
            && SameIdentity(t.entries[|s.entries|], entry) && !t.entries[|s.entries|].deleted
  {
  }

  lemma {:induction false} AppendKeepsStructure(s: Store, e: Entry)
    requires Structure(s.entries) && Insertable(s, e.requestId, e.original) && e.id == |s.entries| + 1
    ensures Structure(s.entries + [e])
  {
    var b := s.entries + [e];
    assert forall i :: 0 <= i < |s.entries| ==> b[i] == s.entries[i];
    forall i | 0 <= i < |b| ensures ParentIsPost(b, i) && ReplyToComment(b, i) {
      assert i < |s.entries| ==> ParentIsPost(s.entries, i) && ReplyToComment(s.entries, i);
    }
  }

  lemma {:induction false} InsertedKeepsStructure(s: Store, author: Participant, requestId: string, original: Original)
    requires s.sequence == |s.entries| && Structure(s.entries) && Insertable(s, requestId, original)
    ensures Structure(Inserted(s, author, requestId, original).entries)
  {
    var e := NewEntry(s, author, requestId, original);
    AppendKeepsStructure(s, e);
    IdentityKeepsStructure(s.entries + [e], Inserted(s, author, requestId, original).entries);
  }

  lemma {:induction false} NewcomerNumbered(s: Store, author: Participant, requestId: string, original: Original)
    requires Structure(s.entries) && Insertable(s, requestId, original)
    requires ParentsArePosts(Inserted(s, author, requestId, original).entries)
    ensures NumberedAt(Inserted(s, author, requestId, original).entries, |s.entries|)
  {
    var t, n := Inserted(s, author, requestId, original).entries, |s.entries|;
    InsertedExtends(s, author, requestId, original);
    if original.parent.Some? {
      var post := original.parent.value;
      assert SameIdentity(s.entries[post - 1], t[post - 1]);
      ParticipantsLocal(s.entries, t, post, n);
    }
  }

  lemma {:induction false} InsertedKeepsNumbers(s: Store, author: Participant, requestId: string, original: Original)
    requires Structure(s.entries) && Numbered(s.entries) && Insertable(s, requestId, original)
    requires ParentsArePosts(Inserted(s, author, requestId, original).entries)
    ensures Numbered(Inserted(s, author, requestId, original).entries)
  {
    var t, n := Inserted(s, author, requestId, original).entries, |s.entries|;
    InsertedExtends(s, author, requestId, original);
    NewcomerNumbered(s, author, requestId, original);
    forall i | 0 <= i < |t| ensures NumberedAt(t, i) {
      if i < n {
        NumberKept(s.entries, t, i);
      }
    }
  }

  lemma {:induction false} NoCommentsYet(entries: seq<Entry>, post: int)
    requires forall i :: 0 <= i < |entries| ==> entries[i].parent != Some(post)
    ensures LiveComments(entries, post) == 0
  {
    if entries != [] {
      NoCommentsYet(entries[..|entries| - 1], post);
    }
  }

  lemma {:induction false} InsertedKeepsCounts(s: Store, author: Participant, requestId: string, original: Original)
    requires ParentsArePosts(s.entries) && CountsExact(s.entries) && Insertable(s, requestId, original)
    ensures CountsExact(Inserted(s, author, requestId, original).entries)
  {
    var t, n := Inserted(s, author, requestId, original).entries, |s.entries|;
    var appended := s.entries + [NewEntry(s, author, requestId, original)];
    assert appended[..n] == s.entries;
    forall i | 0 <= i < |t| && t[i].parent.None? ensures t[i].commentCount == LiveComments(t, i + 1) {
      LiveCommentsAgree(appended, t, i + 1);
      InsertedCount(s, author, requestId, original, i);
      if i < n {
        assert s.entries[i].parent.None?;
      } else {
        NoCommentsYet(s.entries, n + 1);
      }
    }
  }

  /** Only the count of the post that is commented on changes. */
  lemma {:induction false} InsertedCount(s: Store, author: Participant, requestId: string, original: Original, i: nat)
    requires original.parent.Some? ==> 1 <= original.parent.value <= |s.entries|
    requires i <= |s.entries|
    ensures var t, n := Inserted(s, author, requestId, original).entries, |s.entries|;
            && i < |t| && t[i].parent == (if i < n then s.entries[i].parent else original.parent)
            && t[i].commentCount == (if i < n then s.entries[i].commentCount else 0)
                                    + if original.parent == Some(i + 1) then 1 else 0
    ensures LiveComments(s.entries + [NewEntry(s, author, requestId, original)], i + 1) ==
            LiveComments(s.entries, i + 1) + if original.parent == Some(i + 1) then 1 else 0
  {
    assert (s.entries + [NewEntry(s, author, requestId, original)])[..|s.entries|] == s.entries;
  }

  lemma {:induction false} FirstWithRequestExact(entries: seq<Entry>, requestId: string)
    ensures match FirstWithRequest(entries, requestId)
            case None => forall i :: 0 <= i < |entries| ==> entries[i].requestId != requestId
            case Some(e) => e in entries && e.requestId == requestId
  {
    if entries != [] {
      FirstWithRequestExact(entries[..|entries| - 1], requestId);
    }
  }

  lemma {:induction false} InsertedKeepsNotices(s: Store, author: Participant, requestId: string, original: Original)
    requires s.sequence == |s.entries| && Structure(s.entries) && s.notices == Notices(s.entries, |s.entries|)
    requires Insertable(s, requestId, original)
    ensures var t := Inserted(s, author, requestId, original); t.notices == Notices(t.entries, |t.entries|)
  {
    var t, n := Inserted(s, author, requestId, original), |s.entries|;
    InsertedExtends(s, author, requestId, original);
    NoticesLocal(s.entries, t.entries, n);
    NoticeLocal(s.entries, t.entries, n + 1, author, original);
    assert |t.entries| == n + 1 && t.entries[n].author == author && t.entries[n].original == original;
    assert t.notices == Notices(t.entries, n) + NoticeFor(t.entries, n + 1, author, original);
  }

  lemma {:induction false} InsertedKeepsInv(s: Store, author: Participant, requestId: string, original: Original)
    requires Inv(s) && Insertable(s, requestId, original)
    ensures Inv(Inserted(s, author, requestId, original))
  {
    InsertedExtends(s, author, requestId, original);
    InsertedKeepsStructure(s, author, requestId, original);
    InsertedKeepsNumbers(s, author, requestId, original);
    InsertedKeepsCounts(s, author, requestId, original);
    InsertedKeepsNotices(s, author, requestId, original);
  }

  /** A creation either leaves the store alone or passes every check an insertion relies on. */
  lemma {:induction false} CreateInserts(s: Store, parent: Option<int>, owner: string, payload: Payload,
        profileOpen: bool)
    requires Inv(s) && Create(s, parent, owner, payload, profileOpen).0 != s
    ensures payload.mode.Some? && payload.content.Some?
    ensures var original := OriginalOf(parent, payload);
            && Insertable(s, payload.requestId, original)
            && Create(s, parent, owner, payload, profileOpen) ==
               (Inserted(s, Participant(owner, payload.mode.value), payload.requestId, original), Ok(s.sequence + 1))
  {
    FirstWithRequestExact(s.entries, payload.requestId);
  }

  lemma {:induction false} CreateKeepsInv(s: Store, parent: Option<int>, owner: string, payload: Payload,
        profileOpen: bool)
    requires Inv(s)
    ensures var r := Create(s, parent, owner, payload, profileOpen).0; Inv(r) && Extends(s.entries, r.entries)
  {
    if Create(s, parent, owner, payload, profileOpen).0 != s {
      CreateInserts(s, parent, owner, payload, profileOpen);
      var original, author := OriginalOf(parent, payload), Participant(owner, payload.mode.value);
      InsertedExtends(s, author, payload.requestId, original);
      InsertedKeepsInv(s, author, payload.requestId, original);
    }
  }
}

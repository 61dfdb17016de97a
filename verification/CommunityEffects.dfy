/** What creating, editing and removing an entry do to what can be found on the board, exactly. */
module CommunityEffects {
  import opened Wrappers
  import opened Community
  import opened CommunityInvariant

  // ---------- Creating ----------

  /** The conditions on a first use of a request id. */
  predicate Acceptable(s: Store, parent: Option<int>, payload: Payload, profileOpen: bool)
    requires ParentsArePosts(s.entries)
  {
    && payload.wellFormedId && payload.mode.Some? && payload.content.Some?
    && (payload.mode == Some(PROFILE) ==> profileOpen)
    && (parent.Some? ==>
          && IsPost(s.entries, parent.value)
          && (payload.replyTo.Some? ==> CanReply(s.entries, parent.value, payload.replyTo.value)))
  }

  /** Appending keeps everything that could be found, and the new entry can be found. */
  lemma {:induction false} AppendedFound(a: seq<Entry>, b: seq<Entry>, id: int)
    requires ParentsArePosts(a) && ParentsArePosts(b) && IdsInOrder(b) && Extends(a, b) && |b| == |a| + 1
    requires forall i :: 0 <= i < |a| ==> b[i].deleted == a[i].deleted
    ensures id <= |a| ==> (Found(b, id) <==> Found(a, id))
    decreases id
  {
    if 1 <= id <= |a| {
      assert SameIdentity(a[id - 1], b[id - 1]);
      if a[id - 1].parent.Some? {
        AppendedFound(a, b, a[id - 1].parent.value);
      }
    }
  }

  /** The entry is worded, signed and placed as the request asks. */
  predicate AsAsked(e: Entry, parent: Option<int>, owner: string, payload: Payload)
    requires payload.mode.Some? && payload.content.Some?
  {
    var content := payload.content.value;
    && e.author == Participant(owner, payload.mode.value) && e.requestId == payload.requestId
    && e.content.body == content.body && e.parent == parent
    && if parent.Some? then e.replyTo == payload.replyTo && e.content.title.None? && e.content.topic.None?
       else e.replyTo.None? && e.content.title == content.title && e.content.topic.Some?
  }

  lemma {:induction false} InsertedAsAsked(s: Store, parent: Option<int>, owner: string, payload: Payload)
    requires Inv(s) && payload.mode.Some? && payload.content.Some?
    requires Insertable(s, payload.requestId, OriginalOf(parent, payload))
    requires parent.Some? ==> IsPost(s.entries, parent.value)
    ensures var t := Inserted(s, Participant(owner, payload.mode.value), payload.requestId,
            OriginalOf(parent, payload));
            && |t.entries| == |s.entries| + 1 && AsAsked(t.entries[|s.entries|], parent, owner, payload)
            && forall i :: 0 <= i < |s.entries| ==> t.entries[i].deleted == s.entries[i].deleted
  {
  }

  /** A request id used for the first time creates an entry iff the request is acceptable: a post, or a comment on a
      post that can be found, or a reply to a top-level comment of it. The entry is as asked and can be found, and
      nothing that could be found before has gone. A refusal changes nothing. */
  lemma {:induction false} FirstUseExact(s: Store, parent: Option<int>, owner: string, payload: Payload,
        profileOpen: bool)
    requires Inv(s) && forall i :: 0 <= i < |s.entries| ==> s.entries[i].requestId != payload.requestId
    ensures var (t, outcome) := Create(s, parent, owner, payload, profileOpen);
            && (outcome.Ok? <==> Acceptable(s, parent, payload, profileOpen))
            && (!outcome.Ok? ==> t == s)
            && (outcome.Ok? ==>
                  && Inv(t) && outcome.id == |t.entries| == |s.entries| + 1
                  && AsAsked(t.entries[|s.entries|], parent, owner, payload)
                  && (forall id :: Found(t.entries, id) <==> Found(s.entries, id) || id == outcome.id))
  {
    FirstWithRequestExact(s.entries, payload.requestId);
    var (t, outcome) := Create(s, parent, owner, payload, profileOpen);
    if outcome.Ok? {
      CreateInserts(s, parent, owner, payload, profileOpen);
      InsertedAsAsked(s, parent, owner, payload);
      InsertionFound(s, Participant(owner, payload.mode.value), payload.requestId, OriginalOf(parent, payload));
    }
  }

  lemma {:induction false} InsertionFound(s: Store, author: Participant, requestId: string, original: Original)
    requires Inv(s) && Insertable(s, requestId, original)
    requires original.parent.Some? ==> IsPost(s.entries, original.parent.value)
    ensures var t := Inserted(s, author, requestId, original);
            Inv(t) && forall id :: Found(t.entries, id) <==> Found(s.entries, id) || id == |s.entries| + 1
  {
    var t := Inserted(s, author, requestId, original);
    InsertedExtends(s, author, requestId, original);
    InsertedKeepsInv(s, author, requestId, original);
    forall id ensures Found(t.entries, id) <==> Found(s.entries, id) || id == |s.entries| + 1 {
      if id <= |s.entries| {
        AppendedFound(s.entries, t.entries, id);
      } else if id == |s.entries| + 1 && original.parent.Some? {
        AppendedFound(s.entries, t.entries, original.parent.value);
      }
    }
  }

  // ---------- Editing and removing ----------

  lemma {:induction false} SameFound(a: seq<Entry>, b: seq<Entry>, id: int)
    requires ParentsArePosts(a) && ParentsArePosts(b) && Extends(a, b) && |a| == |b|
    requires forall i :: 0 <= i < |a| ==> b[i].deleted == a[i].deleted
    ensures Found(b, id) <==> Found(a, id)
    decreases id
  {
    if 1 <= id <= |a| {
      assert SameIdentity(a[id - 1], b[id - 1]);
      if a[id - 1].parent.Some? {
        SameFound(a, b, a[id - 1].parent.value);
      }
    }
  }

  /** Comments never have a title or topic; a post keeps its topic unless a new one is given. */
  predicate Reworded(before: Content, given: Content, post: bool, after: Content) {
    && after.body == given.body
    && if !post then after.title.None? && after.topic.None?
       else
         && after.title == given.title && after.topic.Some?
         && (given.topic.Some? || before.topic.Some? ==>
              after.topic == if given.topic.Some? then given.topic else before.topic)
  }

  /** Once its body is there, an edit goes through iff it comes from the entry's owner with content that passes. It
      changes that entry's content alone, deleted or not, and no edit makes an entry found or lost. */
  lemma {:induction false} EditHeldExact(s: Store, id: int, owner: string, content: Option<Content>)
    requires Inv(s) && 1 <= id <= |s.entries|
    ensures var (t, outcome) := EditHeld(s, id, owner, content);
            var e := s.entries[id - 1];
            && Inv(t)
            && (outcome.Ok? <==> e.author.owner == owner && content.Some?)
            && (!outcome.Ok? ==> t == s)
            && (outcome.Ok? ==>
                  && outcome.id == id && |t.entries| == |s.entries|
                  && t == s.(entries := s.entries[id - 1 := e.(content := t.entries[id - 1].content)])
                  && Reworded(e.content, content.value, e.parent.None?, t.entries[id - 1].content))
            && forall x :: Found(t.entries, x) <==> Found(s.entries, x)
  {
    EditKeepsInv(s, id, owner, content);
    EditExtends(s, id, owner, content);
    var t := EditHeld(s, id, owner, content).0;
    forall x ensures Found(t.entries, x) <==> Found(s.entries, x) {
      SameFound(s.entries, t.entries, x);
    }
  }

  /** An edit that need not wait goes through iff the entry is addressed by its owner with content that passes. It
      changes that entry's content alone. */
  lemma {:induction false} EditExact(s: Store, postId: Option<int>, id: int, owner: string, content: Option<Content>)
    requires Inv(s)
    ensures var (t, outcome) := Edit(s, postId, id, owner, content);
            && Inv(t)
            && (outcome.Ok? <==>
                  Addressed(s.entries, postId, id) && s.entries[id - 1].author.owner == owner && content.Some?)
            && (!outcome.Ok? ==> t == s)
            && (outcome.Ok? ==>
                  && outcome.id == id && |t.entries| == |s.entries|
                  && t == s.(entries := s.entries[id - 1 := s.entries[id - 1].(content := t.entries[id - 1].content)])
                  && Reworded(s.entries[id - 1].content, content.value, postId.None?, t.entries[id - 1].content))
            && forall x :: Found(t.entries, x) <==> Found(s.entries, x)
  {
    if Addressed(s.entries, postId, id) {
      EditHeldExact(s, id, owner, content);
    }
  }

  lemma {:induction false} MarkedFound(a: seq<Entry>, b: seq<Entry>, id: int, x: int)
    requires ParentsArePosts(a) && ParentsArePosts(b) && Extends(a, b) && |a| == |b| && 1 <= id <= |a|
    requires forall i :: 0 <= i < |a| ==> b[i].deleted == (a[i].deleted || i == id - 1)
    ensures Found(b, x) <==> Found(a, x) && x != id && a[x - 1].parent != Some(id)
    decreases x
  {
    if 1 <= x <= |a| {
      assert SameIdentity(a[x - 1], b[x - 1]) && ParentIsPost(a, x - 1);
      if a[x - 1].parent.Some? {
        MarkedFound(a, b, id, a[x - 1].parent.value);
      }
    }
  }

  lemma {:induction false} RemovedFound(s: Store, postId: Option<int>, id: int, owner: string)
    requires Inv(s) && Addressed(s.entries, postId, id) && s.entries[id - 1].author.owner == owner
    ensures var t := Remove(s, postId, id, owner).0;
            Inv(t) && forall x :: Found(t.entries, x) <==>
              Found(s.entries, x) && x != id && s.entries[x - 1].parent != Some(id)
  {
    RemoveKeepsInv(s, postId, id, owner);
    RemoveExtends(s, postId, id, owner);
    var t := Remove(s, postId, id, owner).0;
    forall x ensures Found(t.entries, x) <==> Found(s.entries, x) && x != id && s.entries[x - 1].parent != Some(id) {
      MarkedFound(s.entries, t.entries, id, x);
    }
  }

  /** A removal goes through iff the entry is addressed by its owner. What can be found afterwards is everything but the
      entry and, when it is a post, its comments; so a second removal finds nothing. */
  lemma {:induction false} RemoveExact(s: Store, postId: Option<int>, id: int, owner: string)
    requires Inv(s)
    ensures var (t, outcome) := Remove(s, postId, id, owner);
            && (outcome.Ok? <==> Addressed(s.entries, postId, id) && s.entries[id - 1].author.owner == owner)
            && (!outcome.Ok? ==> t == s)
            && (outcome.Ok? ==>
                  && Inv(t)
                  && (forall x :: Found(t.entries, x) <==>
                       Found(s.entries, x) && x != id && s.entries[x - 1].parent != Some(id))
                  && Remove(t, postId, id, owner) == (t, NotFound))
  {
    if Remove(s, postId, id, owner).1.Ok? {
      RemovedFound(s, postId, id, owner);
    }
  }
}

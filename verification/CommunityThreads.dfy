/** What holds of the community store over every run of its operations. */
module CommunityThreads {
  import opened Wrappers
  import opened Community
  import opened CommunityInvariant
  import opened CommunityEffects

  /** An edit waits for its body between looking its entry up and changing it. Looking up changes nothing and no entry
      is ever taken out of the store, so `ResumedEdition` may name any entry; `Edition` is one that need not wait. */
  datatype Event =
    | Creation(parent: Option<int>, owner: string, payload: Payload, profileOpen: bool)
    | Edition(postId: Option<int>, id: int, owner: string, content: Option<Content>)
    | ResumedEdition(id: int, owner: string, content: Option<Content>)
    | Removal(postId: Option<int>, id: int, owner: string)

  function Step(s: Store, e: Event): Store
    requires ParentsArePosts(s.entries)
  {
    match e
    case Creation(parent, owner, payload, profileOpen) => Create(s, parent, owner, payload, profileOpen).0
    case Edition(postId, id, owner, content) => Edit(s, postId, id, owner, content).0
    case ResumedEdition(id, owner, content) => if 1 <= id <= |s.entries| then EditHeld(s, id, owner, content).0 else s
    case Removal(postId, id, owner) => Remove(s, postId, id, owner).0
  }

  lemma {:induction false} StepKeepsInv(s: Store, e: Event)
    requires Inv(s)
    ensures Inv(Step(s, e)) && Extends(s.entries, Step(s, e).entries)
  {
    match e
    case Creation(parent, owner, payload, profileOpen) => CreateKeepsInv(s, parent, owner, payload, profileOpen);
    case Edition(postId, id, owner, content) =>
      if Addressed(s.entries, postId, id) {
        EditKeepsInv(s, id, owner, content);
        EditExtends(s, id, owner, content);
      }
    case ResumedEdition(id, owner, content) =>
      if 1 <= id <= |s.entries| {
        EditKeepsInv(s, id, owner, content);
        EditExtends(s, id, owner, content);
      }
    case Removal(postId, id, owner) =>
      RemoveKeepsInv(s, postId, id, owner);
      RemoveExtends(s, postId, id, owner);
  }

  lemma {:induction false} ExtendsTransitive(a: seq<Entry>, b: seq<Entry>, c: seq<Entry>)
    requires Extends(a, b) && Extends(b, c)
    ensures Extends(a, c)
  {
    forall i | 0 <= i < |a| ensures SameIdentity(a[i], c[i]) && (a[i].deleted ==> c[i].deleted) {
      assert SameIdentity(a[i], b[i]) && SameIdentity(b[i], c[i]);
    }
  }

  /** Every run keeps the invariant; numbers and all else that identifies an entry never change as the board
      grows, is edited, or loses entries, and deletion is final. */
  function Run(s: Store, es: seq<Event>): (r: Store)
    requires Inv(s)
    ensures Inv(r) && Extends(s.entries, r.entries)
    decreases |es|
  {
    if es == [] then s
    else
      StepKeepsInv(s, es[0]);
      var r := Run(Step(s, es[0]), es[1..]);
      ExtendsTransitive(s.entries, Step(s, es[0]).entries, r.entries);
      r
  }

  // ---------- Edits that waited ----------

  lemma {:induction false} FoundLater(s: Store, t: Store, id: int)
    requires ParentsArePosts(s.entries) && ParentsArePosts(t.entries)
    requires Extends(s.entries, t.entries) && Found(s.entries, id)
    ensures var e := t.entries[id - 1];
            && SameIdentity(s.entries[id - 1], e)
            && (Found(t.entries, id) <==> !e.deleted && (e.parent.Some? ==> !t.entries[e.parent.value - 1].deleted))
  {
    assert SameIdentity(s.entries[id - 1], t.entries[id - 1]);
    assert ParentIsPost(t.entries, id - 1);
  }

  /** What could be addressed once still can, unless it or its post has been deleted. */
  lemma {:induction false} AddressedLater(s: Store, t: Store, postId: Option<int>, id: int)
    requires Inv(s) && Inv(t) && Extends(s.entries, t.entries) && Addressed(s.entries, postId, id)
    ensures t.entries[id - 1].author == s.entries[id - 1].author
    ensures Addressed(t.entries, postId, id) <==>
            !t.entries[id - 1].deleted && (postId.Some? ==> !t.entries[postId.value - 1].deleted)
  {
    FoundLater(s, t, id);
    if postId.Some? {
      FoundLater(s, t, postId.value);
    }
  }

  /** An edit that looked its entry up in s and whose body arrives after any run is accepted although a new edit would
      not find the entry any more exactly when it comes from the owner with content that passes, and the entry or its
      post has been deleted in between. */
  lemma {:induction false} LateEditIff(s: Store, es: seq<Event>, postId: Option<int>, id: int, owner: string,
        content: Option<Content>)
    requires Inv(s) && Addressed(s.entries, postId, id)
    ensures var t := Run(s, es);
            var e := t.entries[id - 1];
            && (EditHeld(t, id, owner, content).1.Ok? && Edit(t, postId, id, owner, content).1 == NotFound <==>
                  && s.entries[id - 1].author.owner == owner && content.Some?
                  && (e.deleted || (postId.Some? && t.entries[postId.value - 1].deleted)))
  {
    AddressedLater(s, Run(s, es), postId, id);
  }

  lemma {:induction false} RemovedIsMarked(s: Store, postId: Option<int>, id: int)
    requires ParentsArePosts(s.entries) && Addressed(s.entries, postId, id)
    ensures var owner := s.entries[id - 1].author.owner;
            var t := Remove(s, postId, id, owner).0;
            && |t.entries| == |s.entries| && t.entries[id - 1].author == s.entries[id - 1].author
            && t.entries[id - 1].deleted
  {
    assert ParentIsPost(s.entries, id - 1);
  }

  /** It does happen: an owner's edit waits, the owner removes the entry, and the edit still rewrites it. */
  lemma {:induction false} EditAfterRemoval(s: Store, postId: Option<int>, id: int, content: Content)
    requires Inv(s) && Addressed(s.entries, postId, id)
    ensures var owner := s.entries[id - 1].author.owner;
            var t := Run(s, [Removal(postId, id, owner)]);
            && Edit(t, postId, id, owner, Some(content)) == (t, NotFound)
            && EditHeld(t, id, owner, Some(content)).1 == Ok(id)
            && EditHeld(t, id, owner, Some(content)).0.entries[id - 1].content.body == content.body
  {
    var owner := s.entries[id - 1].author.owner;
    var r := Removal(postId, id, owner);
    StepKeepsInv(s, r);
    var t := Step(s, r);
    assert t == Remove(s, postId, id, owner).0;
    RemovedIsMarked(s, postId, id);
    assert Run(s, [r]) == Run(t, []) == t;
  }

  // ---------- Anonymous numbers ----------

  ghost predicate Distinct(ps: seq<Participant>) {
    forall i, j :: 0 <= i < j < |ps| ==> ps[i] != ps[j]
  }

  lemma {:induction false} ParticipantsDistinct(entries: seq<Entry>, post: int, n: int)
    requires 1 <= post <= n <= |entries|
    ensures Distinct(Participants(entries, post, n)) && [entries[post - 1].author] <= Participants(entries, post, n)
    decreases n
  {
    if n > post {
      ParticipantsDistinct(entries, post, n - 1);
    }
  }

  /** Later entries only append to the order of first appearance. */
  lemma {:induction false} ParticipantsGrow(entries: seq<Entry>, post: int, n: int, m: int)
    requires 1 <= post <= n <= m <= |entries|
    ensures Participants(entries, post, n) <= Participants(entries, post, m)
    decreases m
  {
    if n < m {
      ParticipantsGrow(entries, post, n, m - 1);
    }
  }

  /** The entries of a thread: the post itself and its comments, deleted ones included. */
  predicate InThread(entries: seq<Entry>, post: int, i: int) {
    0 <= i < |entries| && (i == post - 1 || entries[i].parent == Some(post))
  }

  lemma {:induction false} NumberIsPlace(entries: seq<Entry>, post: int, i: int)
    requires ParentsArePosts(entries) && Numbered(entries)
    requires 1 <= post <= |entries| && entries[post - 1].parent.None? && InThread(entries, post, i)
    ensures var ps := Participants(entries, post, |entries|);
            1 <= entries[i].number <= |ps| && ps[entries[i].number - 1] == entries[i].author
  {
    assert NumberedAt(entries, i);
    if i == post - 1 {
      ParticipantsGrow(entries, post, post, |entries|);
    } else {
      ParticipantsGrow(entries, post, i + 1, |entries|);
    }
  }

  /** Two entries of a thread carry the same number iff the same member wrote them in the same mode, and an
      entry is marked as the post's author's iff its number is 1. */
  lemma {:induction false} SameNumberIffSameAuthor(s: Store, post: int, i: int, j: int)
    requires Inv(s)
    requires 1 <= post <= |s.entries| && s.entries[post - 1].parent.None?
    requires InThread(s.entries, post, i) && InThread(s.entries, post, j)
    ensures s.entries[i].number == s.entries[j].number <==> s.entries[i].author == s.entries[j].author
    ensures s.entries[i].postAuthor <==> s.entries[i].number == 1
  {
    NumberIsPlace(s.entries, post, i);
    NumberIsPlace(s.entries, post, j);
    NumberIsPlace(s.entries, post, post - 1);
    ParticipantsDistinct(s.entries, post, |s.entries|);
    assert NumberedAt(s.entries, i) && NumberedAt(s.entries, post - 1);
  }

  ghost predicate HasAuthorBefore(entries: seq<Entry>, post: int, n: int, p: Participant) {
    exists i :: i < n && InThread(entries, post, i) && entries[i].author == p
  }

  lemma {:induction false} ParticipantsAppear(entries: seq<Entry>, post: int, n: int, p: Participant)
    requires 1 <= post <= n <= |entries| && ParentsArePosts(entries)
    ensures p in Participants(entries, post, n) <==> HasAuthorBefore(entries, post, n, p)
    decreases n
  {
    var ps := Participants(entries, post, n);
    if n == post {
      assert InThread(entries, post, post - 1);
    } else {
      ParticipantsAppear(entries, post, n - 1, p);
      var before := Participants(entries, post, n - 1);
      assert HasAuthorBefore(entries, post, n, p) <==>
             HasAuthorBefore(entries, post, n - 1, p) || (InThread(entries, post, n - 1) && entries[n - 1].author == p);
    }
  }

  /** A newcomer to the thread gets the next free number: one more than there are participants before it. */
  lemma {:induction false} NewcomerGetsNextNumber(s: Store, post: int, i: int)
    requires Inv(s)
    requires 1 <= post <= i < |s.entries| && s.entries[i].parent == Some(post)
    requires !HasAuthorBefore(s.entries, post, i, s.entries[i].author)
    ensures s.entries[i].number == |Participants(s.entries, post, i)| + 1
  {
    ParticipantsAppear(s.entries, post, i, s.entries[i].author);
    assert NumberedAt(s.entries, i);
    ParticipantsDistinct(s.entries, post, i + 1);
  }

  /** The numbers in use in a thread are exactly 1..k, k being the number of its participants. */
  lemma {:induction false} NumbersFormRange(s: Store, post: int, number: int)
    requires Inv(s)
    requires 1 <= post <= |s.entries| && s.entries[post - 1].parent.None?
    ensures 1 <= number <= |Participants(s.entries, post, |s.entries|)| <==>
            exists i :: InThread(s.entries, post, i) && s.entries[i].number == number
  {
    var ps := Participants(s.entries, post, |s.entries|);
    if 1 <= number <= |ps| {
      ParticipantsAppear(s.entries, post, |s.entries|, ps[number - 1]);
      var i :| i < |s.entries| && InThread(s.entries, post, i) && s.entries[i].author == ps[number - 1];
      NumberIsPlace(s.entries, post, i);
      ParticipantsDistinct(s.entries, post, |s.entries|);
      assert s.entries[i].number == number;
    }
    forall i | InThread(s.entries, post, i) && s.entries[i].number == number ensures 1 <= number <= |ps| {
      NumberIsPlace(s.entries, post, i);
    }
  }

  // ---------- At-most-once creation ----------

  /** Once a request id has been used, no later creation with it, by anyone and with any content, changes the
      store. It answers with the entry made first, or refuses. */
  lemma {:induction false} UsedRequestChangesNothing(s: Store, i: int, parent: Option<int>, owner: string,
        payload: Payload, profileOpen: bool)
    requires Inv(s) && 0 <= i < |s.entries| && s.entries[i].requestId == payload.requestId
    ensures var (t, outcome) := Create(s, parent, owner, payload, profileOpen);
            && t == s
            && (outcome.Ok? ==>
                  && outcome.id == i + 1 && s.entries[i].author.owner == owner
                  && s.entries[i].original == OriginalOf(parent, payload))
  {
    FirstWithRequestExact(s.entries, payload.requestId);
  }

  lemma {:induction false} OwnRequestReplayed(s: Store, i: int, parent: Option<int>, owner: string, payload: Payload,
        profileOpen: bool)
    requires Inv(s) && 0 <= i < |s.entries| && s.entries[i].requestId == payload.requestId
    requires Refusal(s, parent, payload, profileOpen).None?
    requires s.entries[i].author.owner == owner && s.entries[i].original == OriginalOf(parent, payload)
    requires Found(s.entries, i + 1)
    ensures Create(s, parent, owner, payload, profileOpen) == (s, Ok(i + 1))
  {
    FirstWithRequestExact(s.entries, payload.requestId);
  }

  /** Repeating a creation that succeeded returns the same entry and changes nothing. */
  lemma {:induction false} RetryReturnsFirstAnswer(s: Store, parent: Option<int>, owner: string, payload: Payload,
        profileOpen: bool)
    requires Inv(s) && Create(s, parent, owner, payload, profileOpen).1.Ok?
    ensures var (t, outcome) := Create(s, parent, owner, payload, profileOpen);
            Inv(t) && Create(t, parent, owner, payload, profileOpen) == (t, outcome)
  {
    var (t, outcome) := Create(s, parent, owner, payload, profileOpen);
    if t != s {
      CreateInserts(s, parent, owner, payload, profileOpen);
      var original, author := OriginalOf(parent, payload), Participant(owner, payload.mode.value);
      InsertedExtends(s, author, payload.requestId, original);
      InsertionFound(s, author, payload.requestId, original);
      assert parent.Some? ==> SameIdentity(s.entries[parent.value - 1], t.entries[parent.value - 1]);
      OwnRequestReplayed(t, |s.entries|, parent, owner, payload, profileOpen);
    }
  }

  /** Whatever else happens in between, a request id is honoured at most once: after a run that began with a
      successful creation, a further one with the same id finds the store as it is and leaves it so. */
  lemma {:induction false} CreatedAtMostOnce(s: Store, first: Event, es: seq<Event>, later: Event)
    requires Inv(s) && first.Creation? && later.Creation? && later.payload.requestId == first.payload.requestId
    requires Create(s, first.parent, first.owner, first.payload, first.profileOpen).1.Ok?
    ensures Inv(Step(s, first)) && Step(Run(Step(s, first), es), later) == Run(Step(s, first), es)
  {
    StepKeepsInv(s, first);
    var (t, outcome) := Create(s, first.parent, first.owner, first.payload, first.profileOpen);
    CreationUsesRequest(s, first.parent, first.owner, first.payload, first.profileOpen);
    assert Step(s, first) == t;
    RequestStaysUsed(t, es, outcome.id - 1, later);
  }

  lemma {:induction false} RequestStaysUsed(s: Store, es: seq<Event>, i: int, later: Event)
    requires Inv(s) && later.Creation? && 0 <= i < |s.entries| && s.entries[i].requestId == later.payload.requestId
    ensures Step(Run(s, es), later) == Run(s, es)
  {
    var t := Run(s, es);
    assert SameIdentity(s.entries[i], t.entries[i]);
    UsedRequestChangesNothing(t, i, later.parent, later.owner, later.payload, later.profileOpen);
  }

  lemma {:induction false} CreationUsesRequest(s: Store, parent: Option<int>, owner: string, payload: Payload,
        profileOpen: bool)
    requires Inv(s)
    ensures var (t, outcome) := Create(s, parent, owner, payload, profileOpen);
            outcome.Ok? ==> 1 <= outcome.id <= |t.entries| && t.entries[outcome.id - 1].requestId == payload.requestId
  {
    FirstWithRequestExact(s.entries, payload.requestId);
    var (t, outcome) := Create(s, parent, owner, payload, profileOpen);
    if t != s {
      CreateInserts(s, parent, owner, payload, profileOpen);
      var original, author := OriginalOf(parent, payload), Participant(owner, payload.mode.value);
      InsertedExtends(s, author, payload.requestId, original);
    }
  }
}

/** Questions that wait for their body: requests of actors who have gone. */
module TimetableLateQuestions {
  import opened TimetableSetting
  import opened Timetable
  import opened TimetableInvariant
  import opened TimetableSteps
  import opened TimetableHandlers
  import opened TimetableUpkeep
  import opened TimetableRuns
  import opened TimetableWaits

  ghost predicate Asked(requests: seq<Request>, id: int) {
    exists j :: 0 <= j < |requests| && requests[j].actorId == id
  }

  ghost predicate Orphaned(t: Timetable, id: int) {
    Asked(t.requests, id) && !HasId(t.actors, id)
  }

  /** Requests without an actor stay, and stay without one. */
  ghost predicate OrphansStay(s: State, t: State) {
    && |s.timetables| <= |t.timetables|
    && forall k, id :: 0 <= k < |s.timetables| && Orphaned(s.timetables[k], id) ==> Orphaned(t.timetables[k], id)
  }

  lemma {:induction false} RegisteredIffNoOrphan(s: State)
    ensures AllRegistered(s) <==> forall k, id :: 0 <= k < |s.timetables| ==> !Orphaned(s.timetables[k], id)
  {
    if AllRegistered(s) {
      forall k, id | 0 <= k < |s.timetables| ensures !Orphaned(s.timetables[k], id) {
        assert Registered(s.timetables[k]);
      }
    } else {
      var k :| 0 <= k < |s.timetables| && !Registered(s.timetables[k]);
      var t := s.timetables[k];
      var j :| 0 <= j < |t.requests| && !HasId(t.actors, t.requests[j].actorId);
      assert Orphaned(t, t.requests[j].actorId);
    }
  }

  lemma {:induction false} SameAskersOrphaned(t: Timetable, u: Timetable, id: int)
    requires SameIds(t.actors, u.actors) && SameAsked(t.requests, u.requests) && Orphaned(t, id)
    ensures Orphaned(u, id)
  {
    SameIdsHave(t.actors, u.actors, id);
    var j :| 0 <= j < |t.requests| && t.requests[j].actorId == id;
    assert u.requests[j].actorId == id;
  }

  /** Only timetable k changes, and keeps its orphans. */
  lemma {:induction false} OneTimetableOrphans(s: State, k: nat, u: Timetable, box: Outbox)
    requires k < |s.timetables| && forall id :: Orphaned(s.timetables[k], id) ==> Orphaned(u, id)
    ensures OrphansStay(s, With(s, k, u, box))
  {
  }

  lemma {:induction false} SameAskersStay(s: State, k: nat, u: Timetable, box: Outbox)
    requires k < |s.timetables|
    requires SameIds(s.timetables[k].actors, u.actors) && SameAsked(s.timetables[k].requests, u.requests)
    ensures OrphansStay(s, With(s, k, u, box))
  {
    forall id | Orphaned(s.timetables[k], id) ensures Orphaned(u, id) {
      SameAskersOrphaned(s.timetables[k], u, id);
    }
    OneTimetableOrphans(s, k, u, box);
  }

  lemma {:induction false} AddOrphans(s: State, k: nat, contacts: seq<Contact>)
    requires Inv(s) && k < |s.timetables|
    ensures OrphansStay(s, AddActorsAt(s, k, contacts).0)
  {
    var (r, outcome) := AddActorsAt(s, k, contacts);
    if outcome == Done {
      var t, u := s.timetables[k], r.timetables[k];
      assert IdsWithin(t, s.sequence);
      RegisteredIds(t, contacts, s.sequence);
      OneTimetableOrphans(s, k, u, Box(r));
    }
  }

  lemma {:induction false} DeleteOrphans(s: State, key: string, actorId: int)
    ensures OrphansStay(s, DeleteActor(s, key, actorId).0)
  {
    var (r, outcome) := DeleteActor(s, key, actorId);
    if outcome == Done {
      var k := Managed(s, key).value;
      var t, u := s.timetables[k], r.timetables[k];
      FindActorExact(t.actors, actorId);
      RemainingIds(t, actorId);
      WithoutRequestsExact(t.requests, actorId);
      forall id | Orphaned(t, id) ensures Orphaned(u, id) {
        var j :| 0 <= j < |t.requests| && t.requests[j].actorId == id;
        assert t.requests[j] in u.requests;
      }
      OneTimetableOrphans(s, k, u, Box(r));
    }
  }

  lemma {:induction false} AskOrphans(s: State, k: nat, actorId: int, text: string)
    requires k < |s.timetables|
    ensures OrphansStay(s, AskAt(s, k, actorId, text).0)
  {
    var (r, outcome) := AskAt(s, k, actorId, text);
    if outcome == Done {
      var t, u := s.timetables[k], r.timetables[k];
      forall id | Orphaned(t, id) ensures Orphaned(u, id) {
        var j :| 0 <= j < |t.requests| && t.requests[j].actorId == id;
        assert u.requests[j].actorId == id;
      }
      OneTimetableOrphans(s, k, u, Box(r));
    }
  }

  lemma {:induction false} NoOrphansGone(s: State)
    ensures OrphansStay(s, s)
  {
  }

  /** Refused, the store is as it was; accepted, one timetable keeps its askers. */
  lemma {:induction false} QuietOrphans(s: State, k: nat, r: State)
    requires k < |s.timetables|
    requires r == s || (k < |r.timetables| && r == With(s, k, r.timetables[k], Box(r))
                        && SameIds(s.timetables[k].actors, r.timetables[k].actors)
                        && SameAsked(s.timetables[k].requests, r.timetables[k].requests))
    ensures OrphansStay(s, r)
  {
    if r == s {
      NoOrphansGone(s);
    } else {
      SameAskersStay(s, k, r.timetables[k], Box(r));
    }
  }

  lemma {:induction false} SaveOrphans(s: State, k: nat, setting: Setting, assignments: seq<Assignment>)
    requires Inv(s) && k < |s.timetables|
    ensures OrphansStay(s, SaveBoardAt(s, k, setting, assignments).0)
  {
    var (r, outcome) := SaveBoardAt(s, k, setting, assignments);
    if outcome == Done {
      SavedOk(s, k, setting, assignments);
      assert r == With(s, k, r.timetables[k], Box(r));
    } else {
      assert r == s;
    }
    QuietOrphans(s, k, r);
  }

  lemma {:induction false} AnswerOrphans(s: State, w: Waiting)
    requires w.k < |s.timetables| && w.ForAnswer?
    ensures OrphansStay(s, Commit(s, w).0)
  {
    FindActorExact(s.timetables[w.k].actors, w.actorId);
    QuietOrphans(s, w.k, Commit(s, w).0);
  }

  lemma {:induction false} EditOrphans(s: State, w: Waiting)
    requires w.k < |s.timetables| && (w.ForProfile? || w.ForTemplate?)
    ensures OrphansStay(s, Commit(s, w).0)
  {
    QuietOrphans(s, w.k, Commit(s, w).0);
  }

  lemma {:induction false} CommitOrphans(s: State, w: Waiting)
    requires Inv(s) && w.k < |s.timetables|
    ensures OrphansStay(s, Commit(s, w).0)
  {
    match w
    case ForProfile(_, _) => EditOrphans(s, w);
    case ForTemplate(_, _) => EditOrphans(s, w);
    case ForBoard(k, setting, assignments) => SaveOrphans(s, k, setting, assignments);
    case ForContacts(k, contacts) => AddOrphans(s, k, contacts);
    case ForAnswer(_, _, _, _, _) => AnswerOrphans(s, w);
    case ForQuestion(k, actorId, text) => AskOrphans(s, k, actorId, text);
  }

  lemma {:induction false} PublishOrphans(s: State, k: nat)
    requires k < |s.timetables|
    ensures OrphansStay(s, PublishAt(s, k).0)
  {
    InviteKeepsRest(s.timetables[k].(published := true), |s.timetables[k].actors|, Box(s), true);
    QuietOrphans(s, k, PublishAt(s, k).0);
  }

  lemma {:induction false} ResolveOrphans(s: State, key: string, requestId: int)
    ensures OrphansStay(s, Resolve(s, key, requestId).0)
  {
    if Managed(s, key).Some? {
      QuietOrphans(s, Managed(s, key).value, Resolve(s, key, requestId).0);
    }
  }

  lemma {:induction false} StepOrphans(s: State, c: Call)
    requires !WaitsForBody(c)
    ensures OrphansStay(s, Step(s, c).0)
  {
    match c
    case DeletingActor(key, actorId) =>
      assert Step(s, c) == DeleteActor(s, key, actorId);
      DeleteOrphans(s, key, actorId);
    case Publishing(key) =>
      if Managed(s, key).Some? {
        assert Step(s, c) == PublishAt(s, Managed(s, key).value);
        PublishOrphans(s, Managed(s, key).value);
      }
    case Resolving(key, requestId) =>
      assert Step(s, c) == Resolve(s, key, requestId);
      ResolveOrphans(s, key, requestId);
    case Creating(_, _, _) =>
    case Completing(_) =>
  }

  lemma {:induction false} NextOrphans(w: World, e: Event)
    requires WorldOk(w)
    ensures AllFound(w) && OrphansStay(w.s, Next(w, e).s)
  {
    match e
    case Arrive(_) =>
    case Resume(j) =>
      if j < |w.waiting| {
        CommitOrphans(w.s, w.waiting[j]);
      }
    case Now(c) =>
      if !WaitsForBody(c) {
        StepOrphans(w.s, c);
      }
  }

  lemma {:induction false} CommitRegisteredIff(s: State, w: Waiting)
    requires Inv(s) && HeldOk(s, w) && AllRegistered(s)
    ensures AllRegistered(Commit(s, w).0) <==> AskerThere(s, w)
  {
    match w
    case ForProfile(k, _) => QuietCommitRegistered(s, w);
    case ForTemplate(k, _) => QuietCommitRegistered(s, w);
    case ForAnswer(_, _, _, _, _) => QuietCommitRegistered(s, w);
    case ForBoard(k, setting, assignments) => SaveKeepsRegistered(s, k, setting, assignments);
    case ForContacts(k, contacts) => AddKeepsRegistered(s, k, contacts);
    case ForQuestion(k, actorId, text) => AskRegisteredIff(s, k, actorId, text);
  }

  lemma {:induction false} QuietCommitRegistered(s: State, w: Waiting)
    requires w.k < |s.timetables| && AllRegistered(s) && (w.ForProfile? || w.ForTemplate? || w.ForAnswer?)
    ensures AllRegistered(Commit(s, w).0)
  {
    var r := Commit(s, w).0;
    if w.ForAnswer? {
      FindActorExact(s.timetables[w.k].actors, w.actorId);
    }
    forall k | 0 <= k < |r.timetables| ensures Registered(r.timetables[k]) {
      assert Registered(s.timetables[k]);
      SameAskersRegistered(s.timetables[k], r.timetables[k]);
    }
  }

  /** The handler is no question, or one that will be refused, or its actor is still registered. */
  ghost predicate AskerThere(s: State, w: Waiting)
    requires w.k < |s.timetables|
  {
    w.ForQuestion? && 1 <= |Trim(w.text)| <= MAX_REQUEST ==> HasId(s.timetables[w.k].actors, w.actorId)
  }

  ghost predicate AsksInTime(w: World, e: Event)
    requires WorldOk(w)
  {
    e.Resume? && e.j < |w.waiting| ==> HeldOk(w.s, w.waiting[e.j]) && AskerThere(w.s, w.waiting[e.j])
  }

  lemma {:induction false} NextRegisteredIff(w: World, e: Event)
    requires WorldOk(w) && AllRegistered(w.s)
    ensures AllFound(w) && (AllRegistered(Next(w, e).s) <==> AsksInTime(w, e))
  {
    match e
    case Arrive(_) =>
    case Resume(j) =>
      if j < |w.waiting| {
        CommitRegisteredIff(w.s, w.waiting[j]);
      }
    case Now(c) =>
      if !WaitsForBody(c) {
        StepKeepsRegistered(w.s, c);
      }
  }

  ghost predicate RunAsksInTime(w: World, es: seq<Event>)
    requires WorldOk(w)
    decreases |es|
  {
    es == [] || (NextKeepsWorldOk(w, es[0]); AsksInTime(w, es[0]) && RunAsksInTime(Next(w, es[0]), es[1..]))
  }

  lemma {:induction false} OrphanedRun(w: World, es: seq<Event>)
    requires WorldOk(w) && !AllRegistered(w.s)
    ensures !AllRegistered(RunWorld(w, es).s)
    decreases |es|
  {
    if es != [] {
      NextKeepsWorldOk(w, es[0]);
      NextOrphans(w, es[0]);
      RegisteredIffNoOrphan(w.s);
      RegisteredIffNoOrphan(Next(w, es[0]).s);
      OrphanedRun(Next(w, es[0]), es[1..]);
    }
  }

  /** Over every interleaved run, all requests come from registered actors at the end exactly when no accepted question
      resumed after its actor had been removed. A request left behind that way stays for good. */
  lemma {:induction false} RunRegisteredIff(w: World, es: seq<Event>)
    requires WorldOk(w) && AllRegistered(w.s)
    ensures AllRegistered(RunWorld(w, es).s) <==> RunAsksInTime(w, es)
    decreases |es|
  {
    if es != [] {
      var x := Next(w, es[0]);
      NextKeepsWorldOk(w, es[0]);
      NextRegisteredIff(w, es[0]);
      if AllRegistered(x.s) {
        RunRegisteredIff(x, es[1..]);
      } else {
        OrphanedRun(x, es[1..]);
      }
    }
  }
}

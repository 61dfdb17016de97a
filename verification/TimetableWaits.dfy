/** The timetable handlers interleaved at their waits. A handler looks its timetable or actor up, waits for the request
    body, and then works on what it found, whatever has happened in between. */
module TimetableWaits {
  import opened Wrappers
  import opened TimetableSetting
  import opened Timetable
  import opened TimetableInvariant
  import opened TimetableSteps
  import opened TimetableHandlers
  import opened TimetableUpkeep
  import opened TimetableRuns
  import opened TimetableBoard

  /** What a waiting handler holds. Timetables are never removed, so one that was found stays the same object. An actor
      object can leave its timetable: when the actor is removed, or when a board change is undone, which puts copies of
      all the actors in their place. `live` says whether the held actor is still the one in the timetable. */
  datatype Waiting =
    | ForProfile(k: nat, profile: Profile)
    | ForTemplate(k: nat, template: string)
    | ForBoard(k: nat, setting: Setting, assignments: seq<Assignment>)
    | ForContacts(k: nat, contacts: seq<Contact>)
    | ForAnswer(k: nat, actorId: int, slot: Option<Slot>, answer: Attendance, live: bool)
    | ForQuestion(k: nat, actorId: int, text: string)

  datatype World = World(s: State, waiting: seq<Waiting>)

  datatype Event = Arrive(call: Call) | Resume(j: nat) | Now(call: Call)

  /** The handlers that look something up first and wait for their body then. */
  predicate WaitsForBody(c: Call) {
    c.EditingProfile? || c.EditingTemplate? || c.SavingBoard? || c.AddingActors? || c.Attending? || c.Asking?
  }

  predicate ByKey(c: Call) {
    c.EditingProfile? || c.EditingTemplate? || c.SavingBoard? || c.AddingActors?
  }

  /** The look-up before the wait. */
  function Hold(s: State, c: Call): Option<Waiting>
    requires WaitsForBody(c)
  {
    if ByKey(c) then
      match Managed(s, c.key)
      case None => None
      case Some(k) => Some(HoldTimetable(k, c))
    else
      match Accessed(s, c.accessKey)
      case None => None
      case Some((k, i)) => Some(HoldActor(k, s.timetables[k].actors[i], c))
  }

  function HoldTimetable(k: nat, c: Call): Waiting
    requires ByKey(c)
  {
    match c
    case EditingProfile(_, profile) => ForProfile(k, profile)
    case EditingTemplate(_, template) => ForTemplate(k, template)
    case SavingBoard(_, setting, assignments) => ForBoard(k, setting, assignments)
    case AddingActors(_, contacts) => ForContacts(k, contacts)
  }

  function HoldActor(k: nat, a: Actor, c: Call): Waiting
    requires c.Attending? || c.Asking?
  {
    match c
    case Attending(_, answer) => ForAnswer(k, a.id, a.slot, answer, true)
    case Asking(_, text) => ForQuestion(k, a.id, text)
  }

  /** What is done after the wait. An answer given to an actor object that has left its timetable is kept by nobody,
      yet the handler reports success. */
  ghost function Commit(s: State, w: Waiting): (State, Outcome)
    requires w.k < |s.timetables|
  {
    match w
    case ForProfile(k, profile) => EditProfileAt(s, k, profile)
    case ForTemplate(k, template) => EditTemplateAt(s, k, template)
    case ForBoard(k, setting, assignments) => SaveBoardAt(s, k, setting, assignments)
    case ForContacts(k, contacts) => AddActorsAt(s, k, contacts)
    case ForAnswer(k, actorId, _, answer, live) =>
      FindActorExact(s.timetables[k].actors, actorId);
      var found := FindActor(s.timetables[k].actors, actorId);
      if answer == UNANSWERED then (s, Invalid)
      else if live && found.Some? then AttendAt(s, k, found.value, answer)
      else (s, Done)
    case ForQuestion(k, actorId, text) => AskAt(s, k, actorId, text)
  }

  /** The outcomes after which a board handler has put copies in the place of all actors. */
  predicate Undone(outcome: Outcome) {
    outcome == ActorNotFound || outcome == AssignmentConflict || outcome == SlotUnavailable
  }

  /** Who of timetable k loses touch: one actor, or with None all of them. */
  function DetachOne(w: Waiting, k: nat, who: Option<int>): Waiting {
    if w.ForAnswer? && w.k == k && (who.None? || who == Some(w.actorId)) then w.(live := false) else w
  }

  function Detach(waiting: seq<Waiting>, k: nat, who: Option<int>): (r: seq<Waiting>)
    ensures |r| == |waiting| && forall j :: 0 <= j < |r| ==> r[j] == DetachOne(waiting[j], k, who)
  {
    seq(|waiting|, j requires 0 <= j < |waiting| => DetachOne(waiting[j], k, who))
  }

  function Without(waiting: seq<Waiting>, j: nat): seq<Waiting>
    requires j < |waiting|
  {
    waiting[..j] + waiting[j + 1..]
  }

  ghost function Next(w: World, e: Event): World
    requires AllFound(w)
  {
    match e
    case Arrive(c) =>
      if WaitsForBody(c) && Hold(w.s, c).Some? then w.(waiting := w.waiting + [Hold(w.s, c).value]) else w
    case Resume(j) =>
      if j >= |w.waiting| then w
      else
        var x := w.waiting[j];
        var (t, outcome) := Commit(w.s, x);
        var rest := Without(w.waiting, j);
        World(t, if x.ForBoard? && Undone(outcome) then Detach(rest, x.k, None) else rest)
    case Now(c) =>
      if WaitsForBody(c) then w
      else
        var (t, outcome) := Step(w.s, c);
        World(t, if c.DeletingActor? && outcome == Done
          then Detach(w.waiting, Managed(w.s, c.key).value, Some(c.actorId))
                 else w.waiting)
  }

  ghost predicate AllFound(w: World) {
    forall j :: 0 <= j < |w.waiting| ==> w.waiting[j].k < |w.s.timetables|
  }

  // ---------- What every interleaving keeps ----------

  ghost predicate IsInvited(actors: seq<Actor>, id: int) {
    exists i :: 0 <= i < |actors| && actors[i].id == id && actors[i].invited
  }

  ghost predicate HeldOk(s: State, w: Waiting) {
    && w.k < |s.timetables|
    && (w.ForAnswer? && w.live ==> IsInvited(s.timetables[w.k].actors, w.actorId))
    && (w.ForQuestion? ==> w.actorId <= s.sequence)
  }

  ghost predicate WorldOk(w: World) {
    Inv(w.s) && forall j :: 0 <= j < |w.waiting| ==> HeldOk(w.s, w.waiting[j])
  }

  /** Nobody is lost or uninvited. */
  ghost predicate StillInvited(a: seq<Actor>, b: seq<Actor>) {
    |a| <= |b| && forall i :: 0 <= i < |a| ==> b[i].id == a[i].id && (a[i].invited ==> b[i].invited)
  }

  ghost predicate NobodyLost(s: State, t: State) {
    && |s.timetables| <= |t.timetables| && s.sequence <= t.sequence
    && forall k :: 0 <= k < |s.timetables| ==> StillInvited(s.timetables[k].actors, t.timetables[k].actors)
  }

  lemma {:induction false} SaveLosesNobody(s: State, k: nat, setting: Setting, assignments: seq<Assignment>)
    requires Inv(s) && k < |s.timetables|
    ensures NobodyLost(s, SaveBoardAt(s, k, setting, assignments).0)
  {
    var (r, outcome) := SaveBoardAt(s, k, setting, assignments);
    if outcome == Done {
      var t := s.timetables[k];
      SavedOk(s, k, setting, assignments);
      var u := t.(setting := setting, actors := MoveAll(t.actors, assignments).actors);
      assert r.timetables[k] == Announce(u, assignments, Box(s)).0;
      MovesInviteMore(t, u, assignments, Box(s));
      OneLosesNobody(s, k, r.timetables[k], Box(r));
      assert r == With(s, k, r.timetables[k], Box(r));
    } else {
      assert r == s;
    }
  }

  lemma {:induction false} MovesInviteMore(t: Timetable, u: Timetable, assignments: seq<Assignment>, box: Outbox)
    requires MoveAll(t.actors, assignments).Assigned? && u.actors == MoveAll(t.actors, assignments).actors
    ensures StillInvited(t.actors, Announce(u, assignments, box).0.actors)
  {
    MovesRelocate(t.actors, assignments);
    AnnounceKeepsBoard(u, assignments, box);
  }

  lemma {:induction false} OneLosesNobody(s: State, k: nat, u: Timetable, box: Outbox)
    requires k < |s.timetables| && s.sequence <= box.sequence && StillInvited(s.timetables[k].actors, u.actors)
    ensures NobodyLost(s, With(s, k, u, box))
  {
  }

  /** Nobody is lost, and no timetable's setting or stage changes. */
  ghost predicate Mild(s: State, t: State) {
    && NobodyLost(s, t) && |s.timetables| == |t.timetables|
    && forall k :: 0 <= k < |s.timetables| ==>
         && t.timetables[k].id == s.timetables[k].id && t.timetables[k].setting == s.timetables[k].setting
         && t.timetables[k].published == s.timetables[k].published
  }

  lemma {:induction false} OneTimetableMild(s: State, k: nat, u: Timetable, box: Outbox)
    requires k < |s.timetables| && s.sequence <= box.sequence && StillInvited(s.timetables[k].actors, u.actors)
    requires u == s.timetables[k].(profile := u.profile, template := u.template, actors := u.actors,
             requests := u.requests)
    ensures Mild(s, With(s, k, u, box))
  {
  }

  lemma {:induction false} AskMild(s: State, k: nat, actorId: int, text: string)
    requires k < |s.timetables|
    ensures Mild(s, AskAt(s, k, actorId, text).0)
  {
    var (r, outcome) := AskAt(s, k, actorId, text);
    if outcome == Done {
      OneTimetableMild(s, k, r.timetables[k], Box(r));
    }
  }

  lemma {:induction false} AddActorsMild(s: State, k: nat, contacts: seq<Contact>)
    requires k < |s.timetables|
    ensures Mild(s, AddActorsAt(s, k, contacts).0)
  {
    var (r, outcome) := AddActorsAt(s, k, contacts);
    if outcome == Done {
      OneTimetableMild(s, k, r.timetables[k], Box(r));
    }
  }

  lemma {:induction false} EditProfileMild(s: State, k: nat, profile: Profile)
    requires k < |s.timetables|
    ensures Mild(s, EditProfileAt(s, k, profile).0)
  {
    var u := s.timetables[k].(profile := profile);
    OneTimetableMild(s, k, u, Outbox(RefreshAll(u, s.messages), s.sequence));
  }

  lemma {:induction false} EditTemplateMild(s: State, k: nat, template: string)
    requires k < |s.timetables|
    ensures Mild(s, EditTemplateAt(s, k, template).0)
  {
    var normalized := Trim(template);
    var u := s.timetables[k].(template := if normalized == DEFAULT_TEMPLATE then "" else normalized);
    OneTimetableMild(s, k, u, Outbox(RefreshAll(u, s.messages), s.sequence));
  }

  lemma {:induction false} AnswerMild(s: State, w: Waiting)
    requires w.ForAnswer? && w.k < |s.timetables|
    ensures Mild(s, Commit(s, w).0)
  {
    var actors := s.timetables[w.k].actors;
    FindActorExact(actors, w.actorId);
    if w.live && FindActor(actors, w.actorId).Some? && w.answer != UNANSWERED {
      var r := Commit(s, w).0;
      OneTimetableMild(s, w.k, r.timetables[w.k], Box(r));
    }
  }

  lemma {:induction false} CommitMild(s: State, w: Waiting)
    requires w.k < |s.timetables| && !w.ForBoard?
    ensures Mild(s, Commit(s, w).0)
  {
    match w
    case ForProfile(k, profile) => EditProfileMild(s, k, profile);
    case ForTemplate(k, template) => EditTemplateMild(s, k, template);
    case ForContacts(k, contacts) => AddActorsMild(s, k, contacts);
    case ForAnswer(_, _, _, _, _) => AnswerMild(s, w);
    case ForQuestion(k, actorId, text) => AskMild(s, k, actorId, text);
  }

  lemma {:induction false} CommitLosesNobody(s: State, w: Waiting)
    requires Inv(s) && HeldOk(s, w)
    ensures NobodyLost(s, Commit(s, w).0)
  {
    if w.ForBoard? {
      SaveLosesNobody(s, w.k, w.setting, w.assignments);
    } else {
      CommitMild(s, w);
    }
  }

  lemma {:induction false} CommitKeepsInv(s: State, w: Waiting)
    requires Inv(s) && HeldOk(s, w)
    ensures Inv(Commit(s, w).0)
  {
    match w
    case ForProfile(k, profile) => EditProfileAtKeepsInv(s, k, profile);
    case ForTemplate(k, template) => EditTemplateAtKeepsInv(s, k, template);
    case ForBoard(k, setting, assignments) => SaveBoardAtKeepsInv(s, k, setting, assignments);
    case ForContacts(k, contacts) => AddActorsAtKeepsInv(s, k, contacts);
    case ForAnswer(k, actorId, _, answer, live) =>
      if answer != UNANSWERED && live {
        HeldActor(s, w);
        AttendAtKeepsInv(s, k, FindActor(s.timetables[k].actors, actorId).value, answer);
      }
    case ForQuestion(k, actorId, text) => AskAtKeepsInv(s, k, actorId, text);
  }

  /** A held actor that is live is found, and is invited. */
  lemma {:induction false} HeldActor(s: State, w: Waiting)
    requires Inv(s) && HeldOk(s, w) && w.ForAnswer? && w.live
    ensures var actors, found := s.timetables[w.k].actors, FindActor(s.timetables[w.k].actors, w.actorId);
            found.Some? && found.value < |actors| && actors[found.value].id == w.actorId && actors[found.value].invited
  {
    var t := s.timetables[w.k];
    FindActorExact(t.actors, w.actorId);
    var i :| 0 <= i < |t.actors| && t.actors[i].id == w.actorId && t.actors[i].invited;
    assert TimetableOk(t);
    ActorOfIndex(t, i);
  }

  lemma {:induction false} QuietStepLosesNobody(s: State, c: Call)
    requires c.Creating? || c.Resolving? || c.Completing?
    ensures NobodyLost(s, Step(s, c).0)
  {
  }

  lemma {:induction false} StepLosesNobody(s: State, c: Call)
    requires Inv(s) && !WaitsForBody(c) && !c.DeletingActor?
    ensures NobodyLost(s, Step(s, c).0)
  {
    if !c.Publishing? {
      QuietStepLosesNobody(s, c);
    } else if Managed(s, c.key).Some? {
      assert Step(s, c) == PublishAt(s, Managed(s, c.key).value);
      PublishLosesNobody(s, Managed(s, c.key).value);
    } else {
      assert Step(s, c).0 == s;
    }
  }

  lemma {:induction false} PublishLosesNobody(s: State, k: nat)
    requires Inv(s) && k < |s.timetables|
    ensures NobodyLost(s, PublishAt(s, k).0)
  {
    var (r, outcome) := PublishAt(s, k);
    if outcome == Done {
      var t := s.timetables[k];
      InviteKeepsRest(t.(published := true), |t.actors|, Box(s), true);
      assert IdsWithin(t, s.sequence);
      PublishedOk(t, Box(s));
      OneLosesNobody(s, k, r.timetables[k], Box(r));
      assert r == With(s, k, r.timetables[k], Box(r));
    } else {
      assert r == s;
    }
  }

  lemma {:induction false} HeldStays(s: State, t: State, w: Waiting)
    requires NobodyLost(s, t) && HeldOk(s, w)
    ensures HeldOk(t, w)
  {
    if w.ForAnswer? && w.live {
      var a, b := s.timetables[w.k].actors, t.timetables[w.k].actors;
      assert StillInvited(a, b);
      var i :| 0 <= i < |a| && a[i].id == w.actorId && a[i].invited;
      assert b[i].id == w.actorId && b[i].invited;
    }
  }

  lemma {:induction false} DeletionLeavesHeld(s: State, key: string, actorId: int, w: Waiting)
    requires HeldOk(s, w) && DeleteActor(s, key, actorId).1 == Done
    ensures HeldOk(DeleteActor(s, key, actorId).0, DetachOne(w, Managed(s, key).value, Some(actorId)))
  {
    var k, t := Managed(s, key).value, DeleteActor(s, key, actorId).0;
    var x := DetachOne(w, k, Some(actorId));
    if x.ForAnswer? && x.live && w.k == k {
      OthersStayInvited(s.timetables[k].actors, actorId, w.actorId);
    }
  }

  lemma {:induction false} OthersStayInvited(actors: seq<Actor>, gone: int, id: int)
    requires IsInvited(actors, id) && id != gone
    ensures IsInvited(WithoutActor(actors, gone), id)
  {
    var i :| 0 <= i < |actors| && actors[i].id == id && actors[i].invited;
    WithoutActorExact(actors, gone);
    assert actors[i] in WithoutActor(actors, gone);
  }

  lemma {:induction false} HoldOk(s: State, c: Call)
    requires Inv(s) && WaitsForBody(c) && Hold(s, c).Some?
    ensures HeldOk(s, Hold(s, c).value)
  {
    if c.Attending? || c.Asking? {
      var (k, i) := Accessed(s, c.accessKey).value;
      assert IdsWithin(s.timetables[k], s.sequence);
      assert s.timetables[k].actors[i].invited;
    }
  }

  lemma {:induction false} NowLeavesHeld(w: World, c: Call, i: nat)
    requires WorldOk(w) && AllFound(w) && !WaitsForBody(c) && i < |w.waiting|
    ensures HeldOk(Next(w, Now(c)).s, Next(w, Now(c)).waiting[i])
  {
    if c.DeletingActor? {
      if Step(w.s, c).1 == Done {
        DeletionLeavesHeld(w.s, c.key, c.actorId, w.waiting[i]);
      }
    } else {
      StepLosesNobody(w.s, c);
      HeldStays(w.s, Next(w, Now(c)).s, w.waiting[i]);
    }
  }

  lemma {:induction false} AllHeldFound(w: World)
    requires WorldOk(w)
    ensures AllFound(w)
  {
    forall j | 0 <= j < |w.waiting| ensures w.waiting[j].k < |w.s.timetables| {
      assert HeldOk(w.s, w.waiting[j]);
    }
  }

  lemma {:induction false} ArrivalKeepsWorldOk(w: World, c: Call)
    requires WorldOk(w) && AllFound(w)
    ensures WorldOk(Next(w, Arrive(c)))
  {
    if WaitsForBody(c) && Hold(w.s, c).Some? {
      HoldOk(w.s, c);
      assert Next(w, Arrive(c)) == w.(waiting := w.waiting + [Hold(w.s, c).value]);
    } else {
      assert Next(w, Arrive(c)) == w;
    }
  }

  lemma {:induction false} DetachingKeepsOk(s: State, waiting: seq<Waiting>, k: nat, who: Option<int>)
    requires forall i :: 0 <= i < |waiting| ==> HeldOk(s, waiting[i])
    ensures forall i :: 0 <= i < |waiting| ==> HeldOk(s, Detach(waiting, k, who)[i])
  {
    forall i | 0 <= i < |waiting| ensures HeldOk(s, Detach(waiting, k, who)[i]) {
      assert HeldOk(s, waiting[i]);
    }
  }

  lemma {:induction false} RestStaysOk(s: State, t: State, waiting: seq<Waiting>, j: nat)
    requires NobodyLost(s, t) && j < |waiting| && forall i :: 0 <= i < |waiting| ==> HeldOk(s, waiting[i])
    ensures forall i :: 0 <= i < |waiting| - 1 ==> HeldOk(t, Without(waiting, j)[i])
  {
    forall i | 0 <= i < |waiting| - 1 ensures HeldOk(t, Without(waiting, j)[i]) {
      HeldStays(s, t, waiting[if i < j then i else i + 1]);
    }
  }

  lemma {:induction false} ResumeKeepsWorldOk(w: World, j: nat)
    requires WorldOk(w) && AllFound(w) && j < |w.waiting|
    ensures WorldOk(Next(w, Resume(j)))
  {
    var x, h := Next(w, Resume(j)), w.waiting[j];
    assert HeldOk(w.s, h) && x.s == Commit(w.s, h).0;
    var rest := Without(w.waiting, j);
    assert x.waiting == rest || x.waiting == Detach(rest, h.k, None);
    CommitKeepsInv(w.s, h);
    CommitLosesNobody(w.s, h);
    RestStaysOk(w.s, x.s, w.waiting, j);
    DetachingKeepsOk(x.s, rest, h.k, None);
  }

  lemma {:induction false} NowKeepsWorldOk(w: World, c: Call)
    requires WorldOk(w) && AllFound(w)
    ensures WorldOk(Next(w, Now(c)))
  {
    if !WaitsForBody(c) {
      var x := Next(w, Now(c));
      assert x.s == Step(w.s, c).0 && |x.waiting| == |w.waiting|;
      StepKeepsInv(w.s, c);
      forall i | 0 <= i < |x.waiting| ensures HeldOk(x.s, x.waiting[i]) {
        NowLeavesHeld(w, c, i);
      }
    }
  }

  lemma {:induction false} NextKeepsWorldOk(w: World, e: Event)
    requires WorldOk(w)
    ensures AllFound(w) && WorldOk(Next(w, e))
  {
    AllHeldFound(w);
    match e
    case Arrive(c) => ArrivalKeepsWorldOk(w, c);
    case Resume(j) =>
      if j < |w.waiting| {
        ResumeKeepsWorldOk(w, j);
      }
    case Now(c) => NowKeepsWorldOk(w, c);
  }

  /** Any number of handlers, arriving, waiting and resuming in any order: the whole invariant of timetables and
      messages holds at every moment. */
  ghost function RunWorld(w: World, es: seq<Event>): (x: World)
    requires WorldOk(w)
    ensures WorldOk(x)
    decreases |es|
  {
    if es == [] then w
    else
      NextKeepsWorldOk(w, es[0]);
      RunWorld(Next(w, es[0]), es[1..])
  }

  /** A handler run in one go is the interleaving in which its arrival is resumed at once. */
  lemma {:induction false} AtomicIsInterleaving(w: World, c: Call)
    requires WorldOk(w) && WaitsForBody(c)
    ensures AllFound(w) && AllFound(Next(w, Arrive(c)))
    ensures Next(Next(w, Arrive(c)), Resume(|w.waiting|)).s == Step(w.s, c).0
  {
    NextKeepsWorldOk(w, Arrive(c));
    if Hold(w.s, c).Some? {
      HeldAtOnce(w.s, c);
    }
  }

  lemma {:induction false} HeldAtOnce(s: State, c: Call)
    requires Inv(s) && WaitsForBody(c) && Hold(s, c).Some?
    ensures Hold(s, c).value.k < |s.timetables| && Commit(s, Hold(s, c).value).0 == Step(s, c).0
  {
    if c.Attending? {
      AnswerAtOnce(s, c.accessKey, c.answer);
    } else if c.Asking? {
      assert Step(s, c) == Ask(s, c.accessKey, c.text);
    } else {
      TimetableAtOnce(s, c);
    }
  }

  lemma {:induction false} TimetableAtOnce(s: State, c: Call)
    requires ByKey(c) && Managed(s, c.key).Some?
    ensures Commit(s, HoldTimetable(Managed(s, c.key).value, c)).0 == Step(s, c).0
  {
  }

  lemma {:induction false} AnswerAtOnce(s: State, key: string, answer: Attendance)
    requires Inv(s) && Accessed(s, key).Some?
    ensures var (k, i) := Accessed(s, key).value;
            Commit(s, HoldActor(k, s.timetables[k].actors[i], Attending(key, answer))).0 == Attend(s, key, answer).0
  {
    var (k, i) := Accessed(s, key).value;
    assert TimetableOk(s.timetables[k]);
    ActorIndex(s.timetables[k], i);
  }

  lemma {:induction false} ActorIndex(t: Timetable, i: nat)
    requires ActorsOk(t) && i < |t.actors|
    ensures FindActor(t.actors, t.actors[i].id) == Some(i)
  {
    FindActorExact(t.actors, t.actors[i].id);
  }

  // ---------- Offered slots only grow, interleaved too ----------

  lemma {:induction false} CommitGrows(s: State, w: Waiting)
    requires w.k < |s.timetables|
    ensures OnlyGrows(s.timetables, Commit(s, w).0.timetables)
  {
    if w.ForBoard? && SaveBoardAt(s, w.k, w.setting, w.assignments).1 == Done {
      SaveBoardAtGrows(s, w.k, w.setting, w.assignments);
    } else if w.ForBoard? {
      GrowsReflexive(s.timetables);
    } else {
      CommitMild(s, w);
      SameSettingsGrow(s.timetables, Commit(s, w).0.timetables);
    }
  }

  lemma {:induction false} NextGrows(w: World, e: Event)
    requires WorldOk(w)
    ensures AllFound(w) && OnlyGrows(w.s.timetables, Next(w, e).s.timetables)
  {
    match e
    case Arrive(_) => GrowsReflexive(w.s.timetables);
    case Resume(j) =>
      if j < |w.waiting| {
        CommitGrows(w.s, w.waiting[j]);
      } else {
        GrowsReflexive(w.s.timetables);
      }
    case Now(c) =>
      StepGrows(w.s, c);
      GrowsReflexive(w.s.timetables);
  }

  /** Over every interleaved run timetables are never lost or unpublished, the slot length never changes, and offered
      slots and capacity only grow. */
  lemma {:induction false} RunWorldGrows(w: World, es: seq<Event>)
    requires WorldOk(w)
    ensures OnlyGrows(w.s.timetables, RunWorld(w, es).s.timetables)
    decreases |es|
  {
    if es == [] {
      GrowsReflexive(w.s.timetables);
    } else {
      NextKeepsWorldOk(w, es[0]);
      NextGrows(w, es[0]);
      RunWorldGrows(Next(w, es[0]), es[1..]);
      GrowsTransitive(w.s.timetables, Next(w, es[0]).s.timetables, RunWorld(w, es).s.timetables);
    }
  }
}

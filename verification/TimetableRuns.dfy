/** Runs of a timetable store, and what holds after every one of them. */
module TimetableRuns {
  import opened Wrappers
  import opened TimetableSetting
  import opened Timetable
  import opened TimetableInvariant
  import opened TimetableSteps
  import opened TimetableHandlers
  import opened TimetableUpkeep

  datatype Call =
    | Creating(manageKey: string, profile: Profile, setting: Setting)
    | EditingProfile(key: string, profile: Profile)
    | EditingTemplate(key: string, template: string)
    | SavingBoard(key: string, setting: Setting, assignments: seq<Assignment>)
    | AddingActors(key: string, contacts: seq<Contact>)
    | DeletingActor(key: string, actorId: int)
    | Publishing(key: string)
    | Resolving(key: string, requestId: int)
    | Attending(accessKey: string, answer: Attendance)
    | Asking(accessKey: string, text: string)
    | Completing(ids: seq<int>)

  ghost function Step(s: State, c: Call): (State, Outcome) {
    match c
    case Creating(manageKey, profile, setting) => Create(s, manageKey, profile, setting)
    case EditingProfile(key, profile) => EditProfile(s, key, profile)
    case EditingTemplate(key, template) => EditTemplate(s, key, template)
    case SavingBoard(key, setting, assignments) => SaveBoard(s, key, setting, assignments)
    case AddingActors(key, contacts) => AddActors(s, key, contacts)
    case DeletingActor(key, actorId) => DeleteActor(s, key, actorId)
    case Publishing(key) => Publish(s, key)
    case Resolving(key, requestId) => Resolve(s, key, requestId)
    case Attending(accessKey, answer) => Attend(s, accessKey, answer)
    case Asking(accessKey, text) => Ask(s, accessKey, text)
    case Completing(ids) => Complete(s, ids)
  }

  lemma {:induction false} EditProfileAtKeepsInv(s: State, k: nat, profile: Profile)
    requires Inv(s) && k < |s.timetables|
    ensures Inv(EditProfileAt(s, k, profile).0)
  {
    RefreshKeepsInv(s, k, s.timetables[k].(profile := profile));
  }

  lemma {:induction false} EditTemplateAtKeepsInv(s: State, k: nat, template: string)
    requires Inv(s) && k < |s.timetables|
    ensures Inv(EditTemplateAt(s, k, template).0)
  {
    var normalized := Trim(template);
    RefreshKeepsInv(s, k, s.timetables[k].(template := if normalized == DEFAULT_TEMPLATE then "" else normalized));
  }

  lemma {:induction false} EditsKeepInv(s: State, c: Call)
    requires Inv(s) && (c.EditingProfile? || c.EditingTemplate?)
    ensures Inv(Step(s, c).0)
  {
    var found := Managed(s, c.key);
    if found.Some? {
      if c.EditingProfile? {
        EditProfileAtKeepsInv(s, found.value, c.profile);
      } else {
        EditTemplateAtKeepsInv(s, found.value, c.template);
      }
    }
  }

  lemma {:induction false} OrganizerStepKeepsInv(s: State, c: Call)
    requires Inv(s)
    requires c.Creating? || c.SavingBoard? || c.AddingActors? || c.DeletingActor? || c.Publishing? || c.Resolving?
    ensures Inv(Step(s, c).0)
  {
    match c
    case Creating(manageKey, profile, setting) =>
      assert Step(s, c) == Create(s, manageKey, profile, setting);
      CreateKeepsInv(s, manageKey, profile, setting);
    case SavingBoard(key, setting, assignments) =>
      assert Step(s, c) == SaveBoard(s, key, setting, assignments);
      SaveBoardKeepsInv(s, key, setting, assignments);
    case AddingActors(key, contacts) =>
      assert Step(s, c) == AddActors(s, key, contacts);
      AddActorsKeepsInv(s, key, contacts);
    case DeletingActor(key, actorId) =>
      assert Step(s, c) == DeleteActor(s, key, actorId);
      DeleteActorKeepsInv(s, key, actorId);
    case Publishing(key) =>
      assert Step(s, c) == Publish(s, key);
      PublishKeepsInv(s, key);
    case Resolving(key, requestId) =>
      assert Step(s, c) == Resolve(s, key, requestId);
      ResolveKeepsInv(s, key, requestId);
  }

  lemma {:induction false} ActorStepKeepsInv(s: State, c: Call)
    requires Inv(s) && (c.Attending? || c.Asking? || c.Completing?)
    ensures Inv(Step(s, c).0)
  {
    match c
    case Attending(accessKey, answer) =>
      assert Step(s, c) == Attend(s, accessKey, answer);
      AttendKeepsInv(s, accessKey, answer);
    case Asking(accessKey, text) =>
      assert Step(s, c) == Ask(s, accessKey, text);
      AskKeepsInv(s, accessKey, text);
    case Completing(ids) =>
      assert Step(s, c) == Complete(s, ids);
      CompleteKeepsInv(s, ids);
  }

  lemma {:induction false} StepKeepsInv(s: State, c: Call)
    requires Inv(s)
    ensures Inv(Step(s, c).0)
  {
    if c.EditingProfile? || c.EditingTemplate? {
      EditsKeepInv(s, c);
    } else if c.Attending? || c.Asking? || c.Completing? {
      ActorStepKeepsInv(s, c);
    } else {
      OrganizerStepKeepsInv(s, c);
    }
  }

  /** A call that is refused leaves the store as it is. */
  lemma {:induction false} RefusedChangesNothing(s: State, c: Call)
    ensures Step(s, c).1 != Done ==> Step(s, c).0 == s
  {
  }

  /** The state after a run of calls, accepted or refused, on any store in order: the empty one, the seeded one, or what
      an earlier run has left. */
  ghost function After(s0: State, calls: seq<Call>): (s: State)
    requires Inv(s0)
    ensures Inv(s)
  {
    if calls == [] then s0
    else
      var before := After(s0, calls[..|calls| - 1]);
      StepKeepsInv(before, calls[|calls| - 1]);
      Step(before, calls[|calls| - 1]).0
  }

  // ---------- What the invariant says to a reader ----------

  predicate InvitationTo(m: Message, actorId: int) {
    m.kind == ACTOR_INVITATION && m.actorId == Some(actorId)
  }

  /** An invited actor has exactly one invitation, waiting or sent; anyone else none. A waiting one carries the
      text the current profile, template and slot give. */
  lemma {:induction false} InvitationPerActor(s: State, k: nat, i: nat)
    requires Inv(s) && k < |s.timetables| && i < |s.timetables[k].actors|
    ensures var t, a, ms := s.timetables[k], s.timetables[k].actors[i], s.messages;
            && (a.invited <==> exists j :: 0 <= j < |ms| && InvitationTo(ms[j], a.id))
            && (forall j, l :: 0 <= j < l < |ms| ==> !(InvitationTo(ms[j], a.id) && InvitationTo(ms[l], a.id)))
            && (forall j :: 0 <= j < |ms| && InvitationTo(ms[j], a.id) && ms[j].pending ==>
                  ms[j].body == Body(t, ACTOR_INVITATION, Some(a)))
  {
    var t, ms := s.timetables[k], s.messages;
    var a := t.actors[i];
    assert Fits(t, ms, {}) && ActorFits(t, a, ms, {});
    forall j | 0 <= j < |ms| && ms[j].actorId == Some(a.id) ensures Matches(t, a, ms[j], false) {
    }
    forall j, l | 0 <= j < l < |ms| ensures !(InvitationTo(ms[j], a.id) && InvitationTo(ms[l], a.id)) {
      assert !Clash(Box(s).messages[j], Box(s).messages[l]);
    }
    if a.invited {
      var j :| 0 <= j < |ms| && ms[j].kind == ACTOR_INVITATION && ms[j].actorId == Some(a.id);
      assert InvitationTo(ms[j], a.id);
    }
  }

  /** At most one notice, invitation or change, waits for an actor, and it is to somebody who is there. */
  lemma {:induction false} OneWaitingNotice(s: State, actorId: int, j: nat, l: nat)
    requires Inv(s) && j < |s.messages| && l < |s.messages|
    requires PendingNotice(s.messages[j], actorId) && PendingNotice(s.messages[l], actorId)
    ensures j == l && IsLive(s.timetables, actorId)
  {
    var ms := Box(s).messages;
    assert forall a, b :: 0 <= a < b < |ms| ==> !Clash(ms[a], ms[b]);
    assert Clash(ms[j], ms[l]) && Clash(ms[l], ms[j]);
  }

  /** Assigned slots are offered, no slot is over capacity, only published timetables have invited anyone, and once
      published an actor has a slot iff invited. */
  lemma {:induction false} BoardInOrder(s: State, k: nat, slot: Slot)
    requires Inv(s) && k < |s.timetables|
    ensures var t := s.timetables[k];
            && Holders(t.actors, slot) <= t.setting.capacity
            && (forall i :: 0 <= i < |t.actors| ==>
                  && (t.actors[i].slot.Some? ==> t.actors[i].slot.value in SlotsOf(t.setting))
                  && (t.actors[i].invited ==> t.published)
                  && (t.published ==> (t.actors[i].slot.Some? <==> t.actors[i].invited)))
  {
    var t := s.timetables[k];
    assert TimetableOk(t);
    forall i | 0 <= i < |t.actors| ensures ActorPlaced(t, t.actors[i]) {
    }
    if Holders(t.actors, slot) > 0 {
      var i := SomeHolder(t.actors, slot);
      assert ActorPlaced(t, t.actors[i]);
    }
  }

  lemma {:induction false} SomeHolder(actors: seq<Actor>, slot: Slot) returns (i: nat)
    requires Holders(actors, slot) > 0
    ensures i < |actors| && actors[i].slot == Some(slot)
  {
    if actors[|actors| - 1].slot == Some(slot) {
      i := |actors| - 1;
    } else {
      i := SomeHolder(actors[..|actors| - 1], slot);
    }
  }

  // ---------- What only grows ----------

  lemma {:induction false} ExtendsContains(a: Setting, b: Setting, slot: Slot)
    requires Extends(a, b) && slot in SlotsOf(b)
    ensures slot in SlotsOf(a)
  {
    var k :| 0 <= k < |SlotsOf(b)| && SlotsOf(b)[k] == slot;
  }

  lemma {:induction false} ExtendsTransitive(a: Setting, b: Setting, c: Setting)
    requires Extends(a, b) && Extends(b, c)
    ensures Extends(a, c)
  {
    forall k | 0 <= k < |SlotsOf(c)| ensures SlotsOf(c)[k] in SlotsOf(a) {
      ExtendsContains(a, b, SlotsOf(c)[k]);
    }
  }

  lemma {:induction false} ExtendsReflexive(a: Setting)
    ensures Extends(a, a)
  {
  }

  ghost predicate OnlyGrows(a: seq<Timetable>, b: seq<Timetable>) {
    |a| <= |b| && forall k :: 0 <= k < |a| ==>
      b[k].id == a[k].id && Extends(b[k].setting, a[k].setting) && (a[k].published ==> b[k].published)
  }

  lemma {:induction false} SameSettingGrows(s: State, k: nat, u: Timetable, box: Outbox)
    requires k < |s.timetables| && u.id == s.timetables[k].id && Extends(u.setting, s.timetables[k].setting)
    requires s.timetables[k].published ==> u.published
    ensures OnlyGrows(s.timetables, With(s, k, u, box).timetables)
  {
    forall l | 0 <= l < |s.timetables| ensures Extends(s.timetables[l].setting, s.timetables[l].setting) {
      ExtendsReflexive(s.timetables[l].setting);
    }
  }

  lemma {:induction false} SaveBoardAtGrows(s: State, k: nat, setting: Setting, assignments: seq<Assignment>)
    requires k < |s.timetables| && SaveBoardAt(s, k, setting, assignments).1 == Done
    ensures OnlyGrows(s.timetables, SaveBoardAt(s, k, setting, assignments).0.timetables)
  {
    var u := s.timetables[k].(setting := setting, actors := MoveAll(s.timetables[k].actors, assignments).actors);
    var told := NotifyMoved(u, assignments, Box(s));
    InviteKeepsRest(u, |u.actors|, told, false);
    var (v, box) := Announce(u, assignments, Box(s));
    SameSettingGrows(s, k, v, box);
  }

  lemma {:induction false} PublishGrows(s: State, key: string)
    requires Publish(s, key).1 == Done
    ensures OnlyGrows(s.timetables, Publish(s, key).0.timetables)
  {
    var k := Managed(s, key).value;
    var p := s.timetables[k].(published := true);
    InviteKeepsRest(p, |p.actors|, Box(s), true);
    ExtendsReflexive(p.setting);
    var (u, box) := Invite(p, |p.actors|, Box(s), true);
    SameSettingGrows(s, k, u, box);
  }

  lemma {:induction false} StepGrows(s: State, c: Call)
    requires Inv(s)
    ensures OnlyGrows(s.timetables, Step(s, c).0.timetables)
  {
    if Step(s, c).1 != Done {
      RefusedChangesNothing(s, c);
      GrowsReflexive(s.timetables);
    } else if c.Publishing? {
      PublishGrows(s, c.key);
    } else if c.SavingBoard? {
      SaveBoardAtGrows(s, Managed(s, c.key).value, c.setting, c.assignments);
    } else if c.Creating? || c.Attending? || c.Asking? || c.Completing? {
      OtherStepKeepsSettings(s, c);
    } else {
      ManagedStepKeepsSettings(s, c);
    }
  }

  lemma {:induction false} SameSettingsGrow(a: seq<Timetable>, b: seq<Timetable>)
    requires |a| <= |b| && forall k :: 0 <= k < |a| ==>
               b[k].id == a[k].id && b[k].setting == a[k].setting && b[k].published == a[k].published
    ensures OnlyGrows(a, b)
  {
    forall k | 0 <= k < |a| ensures Extends(b[k].setting, a[k].setting) {
      ExtendsReflexive(a[k].setting);
    }
  }

  lemma {:induction false} ManagedStepKeepsSettings(s: State, c: Call)
    requires c.EditingProfile? || c.EditingTemplate? || c.AddingActors? || c.DeletingActor? || c.Resolving?
    ensures OnlyGrows(s.timetables, Step(s, c).0.timetables)
  {
    SameSettingsGrow(s.timetables, Step(s, c).0.timetables);
  }

  lemma {:induction false} OtherStepKeepsSettings(s: State, c: Call)
    requires c.Creating? || c.Attending? || c.Asking? || c.Completing?
    ensures OnlyGrows(s.timetables, Step(s, c).0.timetables)
  {
    SameSettingsGrow(s.timetables, Step(s, c).0.timetables);
  }

  lemma {:induction false} GrowsReflexive(a: seq<Timetable>)
    ensures OnlyGrows(a, a)
  {
    forall k | 0 <= k < |a| ensures Extends(a[k].setting, a[k].setting) {
      ExtendsReflexive(a[k].setting);
    }
  }

  lemma {:induction false} GrowsTransitive(a: seq<Timetable>, b: seq<Timetable>, c: seq<Timetable>)
    requires OnlyGrows(a, b) && OnlyGrows(b, c)
    ensures OnlyGrows(a, c)
  {
    forall k | 0 <= k < |a|
      ensures c[k].id == a[k].id && Extends(c[k].setting, a[k].setting) && (a[k].published ==> c[k].published)
    {
      ExtendsTransitive(c[k].setting, b[k].setting, a[k].setting);
    }
  }

  /** Over every run: timetables are never lost or unpublished, the slot length never changes, and offered slots and
      capacity only grow. */
  lemma {:induction false} RunGrows(s0: State, calls: seq<Call>, n: nat)
    requires Inv(s0) && n <= |calls|
    ensures OnlyGrows(After(s0, calls[..n]).timetables, After(s0, calls).timetables)
  {
    if n == |calls| {
      assert calls[..n] == calls;
      GrowsReflexive(After(s0, calls).timetables);
    } else {
      var init := calls[..|calls| - 1];
      RunGrows(s0, init, n);
      assert init[..n] == calls[..n];
      StepGrows(After(s0, init), calls[|calls| - 1]);
      GrowsTransitive(After(s0, calls[..n]).timetables, After(s0, init).timetables, After(s0, calls).timetables);
    }
  }

  // ---------- Requests of registered actors ----------

  /** Every request comes from an actor who is registered. */
  ghost predicate Registered(t: Timetable) {
    forall j :: 0 <= j < |t.requests| ==> HasId(t.actors, t.requests[j].actorId)
  }

  ghost predicate AllRegistered(s: State) {
    forall k :: 0 <= k < |s.timetables| ==> Registered(s.timetables[k])
  }

  lemma {:induction false} SameAskersRegistered(t: Timetable, u: Timetable)
    requires Registered(t) && SameIds(t.actors, u.actors) && SameAsked(t.requests, u.requests)
    ensures Registered(u)
  {
    forall j | 0 <= j < |u.requests| ensures HasId(u.actors, u.requests[j].actorId) {
      SameIdsHave(t.actors, u.actors, t.requests[j].actorId);
    }
  }

  lemma {:induction false} SaveKeepsRegistered(s: State, k: nat, setting: Setting, assignments: seq<Assignment>)
    requires AllRegistered(s) && k < |s.timetables|
    ensures AllRegistered(SaveBoardAt(s, k, setting, assignments).0)
  {
    var t, r := s.timetables[k], SaveBoardAt(s, k, setting, assignments).0;
    if r != s {
      var u := t.(setting := setting, actors := MoveAll(t.actors, assignments).actors);
      MovesRelocate(t.actors, assignments);
      InviteKeepsRest(u, |u.actors|, NotifyMoved(u, assignments, Box(s)), false);
      SameAskersRegistered(t, r.timetables[k]);
    }
  }

  lemma {:induction false} PublishKeepsRegistered(s: State, k: nat)
    requires AllRegistered(s) && k < |s.timetables|
    ensures AllRegistered(PublishAt(s, k).0)
  {
    var t, r := s.timetables[k], PublishAt(s, k).0;
    if r != s {
      InviteKeepsRest(t.(published := true), |t.actors|, Box(s), true);
      SameAskersRegistered(t, r.timetables[k]);
    }
  }

  lemma {:induction false} AddKeepsRegistered(s: State, k: nat, contacts: seq<Contact>)
    requires AllRegistered(s) && k < |s.timetables|
    ensures AllRegistered(AddActorsAt(s, k, contacts).0)
  {
    var t, u := s.timetables[k], AddActorsAt(s, k, contacts).0.timetables[k];
    assert Registered(t);
    forall j | 0 <= j < |u.requests| ensures HasId(u.actors, u.requests[j].actorId) {
      var i :| 0 <= i < |t.actors| && t.actors[i].id == t.requests[j].actorId;
      assert u.actors[i].id == u.requests[j].actorId;
    }
  }

  lemma {:induction false} DeleteKeepsRegistered(s: State, key: string, actorId: int)
    requires AllRegistered(s)
    ensures AllRegistered(DeleteActor(s, key, actorId).0)
  {
    if DeleteActor(s, key, actorId).1 == Done {
      var k := Managed(s, key).value;
      var t, u := s.timetables[k], DeleteActor(s, key, actorId).0.timetables[k];
      WithoutRequestsExact(t.requests, actorId);
      RemainingIds(t, actorId);
      forall j | 0 <= j < |u.requests| ensures HasId(u.actors, u.requests[j].actorId) {
        assert u.requests[j] in t.requests;
        var l :| 0 <= l < |t.requests| && t.requests[l] == u.requests[j];
        assert HasId(t.actors, t.requests[l].actorId);
      }
    }
  }

  /** A question keeps all requests to registered actors exactly when it is refused or its own actor is registered. */
  lemma {:induction false} AskRegisteredIff(s: State, k: nat, actorId: int, text: string)
    requires AllRegistered(s) && k < |s.timetables|
    ensures AllRegistered(AskAt(s, k, actorId, text).0) <==>
            (1 <= |Trim(text)| <= MAX_REQUEST ==> HasId(s.timetables[k].actors, actorId))
  {
    var t := s.timetables[k];
    var (r, outcome) := AskAt(s, k, actorId, text);
    assert Registered(t);
    if outcome == Done {
      var u := r.timetables[k];
      assert u.actors == t.actors;
      match FindOpen(t.requests, actorId) {
        case Some(j) => SameAskersRegistered(t, u);
        case None =>
          assert u.requests[|t.requests|].actorId == actorId;
          assert Registered(u) <==> HasId(t.actors, actorId) by {
            if HasId(t.actors, actorId) {
              forall j | 0 <= j < |u.requests| ensures HasId(u.actors, u.requests[j].actorId) {
                assert j < |t.requests| ==> HasId(t.actors, t.requests[j].actorId);
              }
            }
          }
      }
    }
  }

  lemma {:induction false} StepKeepsRegistered(s: State, c: Call)
    requires AllRegistered(s)
    ensures AllRegistered(Step(s, c).0)
  {
    match c
    case SavingBoard(key, setting, assignments) =>
      if Managed(s, key).Some? {
        SaveKeepsRegistered(s, Managed(s, key).value, setting, assignments);
      }
    case AddingActors(key, contacts) =>
      if Managed(s, key).Some? {
        AddKeepsRegistered(s, Managed(s, key).value, contacts);
      }
    case DeletingActor(key, actorId) => DeleteKeepsRegistered(s, key, actorId);
    case Publishing(key) =>
      if Managed(s, key).Some? {
        PublishKeepsRegistered(s, Managed(s, key).value);
      }
    case Asking(accessKey, text) =>
      if Accessed(s, accessKey).Some? {
        var (k, i) := Accessed(s, accessKey).value;
        assert HasId(s.timetables[k].actors, s.timetables[k].actors[i].id);
        AskRegisteredIff(s, k, s.timetables[k].actors[i].id, text);
      }
    case Resolving(_, _) => QuietStepKeepsRegistered(s, c);
    case Attending(_, _) => QuietStepKeepsRegistered(s, c);
    case Completing(_) => QuietStepKeepsRegistered(s, c);
    case _ => EditStepKeepsRegistered(s, c);
  }

  lemma {:induction false} SameAskersEverywhere(s: State, r: State)
    requires AllRegistered(s) && |s.timetables| <= |r.timetables|
    requires forall k :: 0 <= k < |s.timetables| ==>
               && SameIds(s.timetables[k].actors, r.timetables[k].actors)
               && SameAsked(s.timetables[k].requests, r.timetables[k].requests)
    requires forall k :: |s.timetables| <= k < |r.timetables| ==> r.timetables[k].requests == []
    ensures AllRegistered(r)
  {
    forall k | 0 <= k < |r.timetables| ensures Registered(r.timetables[k]) {
      if k < |s.timetables| {
        SameAskersRegistered(s.timetables[k], r.timetables[k]);
      }
    }
  }

  lemma {:induction false} EditStepKeepsRegistered(s: State, c: Call)
    requires AllRegistered(s) && (c.Creating? || c.EditingProfile? || c.EditingTemplate?)
    ensures AllRegistered(Step(s, c).0)
  {
    SameAskersEverywhere(s, Step(s, c).0);
  }

  lemma {:induction false} QuietStepKeepsRegistered(s: State, c: Call)
    requires AllRegistered(s) && (c.Resolving? || c.Attending? || c.Completing?)
    ensures AllRegistered(Step(s, c).0)
  {
    if c.Resolving? {
      ResolveKeepsRegistered(s, c.key, c.requestId);
    } else {
      SameAskersEverywhere(s, Step(s, c).0);
    }
  }

  lemma {:induction false} ResolveKeepsRegistered(s: State, key: string, requestId: int)
    requires AllRegistered(s)
    ensures AllRegistered(Resolve(s, key, requestId).0)
  {
    SameAskersEverywhere(s, Resolve(s, key, requestId).0);
  }

  /** With handlers run in one go, every request comes from a registered actor at all times. */
  lemma {:induction false} RunKeepsRegistered(s0: State, calls: seq<Call>)
    requires Inv(s0) && AllRegistered(s0)
    ensures AllRegistered(After(s0, calls))
  {
    if calls != [] {
      RunKeepsRegistered(s0, calls[..|calls| - 1]);
      StepKeepsRegistered(After(s0, calls[..|calls| - 1]), calls[|calls| - 1]);
    }
  }
}

/** When waiting change notices say what their timetable would say now. */
module TimetableChanges {
  import opened Wrappers
  import opened TimetableSetting
  import opened Timetable
  import opened TimetableInvariant
  import opened TimetableSteps
  import opened TimetableHandlers
  import opened TimetableUpkeep
  import opened TimetableRuns

  predicate IsWaitingChange(m: Message) {
    m.pending && m.kind == ACTOR_SCHEDULE_CHANGED
  }

  predicate WaitingChange(m: Message, actorId: int) {
    IsWaitingChange(m) && m.actorId == Some(actorId)
  }

  /** Waiting change notices carry the text their timetable gives now. */
  ghost predicate ChangesCurrent(t: Timetable, ms: seq<Message>) {
    forall i, j :: 0 <= i < |t.actors| && 0 <= j < |ms| && WaitingChange(ms[j], t.actors[i].id) ==>
      ms[j].body == Body(t, ACTOR_SCHEDULE_CHANGED, Some(t.actors[i]))
  }

  ghost predicate AllChangesCurrent(s: State) {
    forall k :: 0 <= k < |s.timetables| ==> ChangesCurrent(s.timetables[k], s.messages)
  }

  ghost predicate NoneWaiting(t: Timetable, ms: seq<Message>) {
    forall i, j :: 0 <= i < |t.actors| && 0 <= j < |ms| ==> !WaitingChange(ms[j], t.actors[i].id)
  }

  // ---------- What decides whether notices stay current ----------

  /** The parts of an actor that a change notice shows. */
  predicate SameBadge(a: Actor, b: Actor) {
    a.id == b.id && a.name == b.name && a.accessKey == b.accessKey
  }

  ghost predicate HasBadge(actors: seq<Actor>, a: Actor) {
    exists i :: 0 <= i < |actors| && SameBadge(actors[i], a)
  }

  predicate SameHead(p: Profile, q: Profile) {
    p.title == q.title && p.organizer == q.organizer
  }

  lemma {:induction false} NoNewChanges(t: Timetable, ms: seq<Message>, u: Timetable, ns: seq<Message>)
    requires ChangesCurrent(t, ms) && SameHead(t.profile, u.profile)
    requires forall i :: 0 <= i < |u.actors| ==>
               HasBadge(t.actors, u.actors[i]) || forall j :: 0 <= j < |ns| ==> ns[j].actorId != Some(u.actors[i].id)
    requires forall j :: 0 <= j < |ns| && IsWaitingChange(ns[j]) ==> ns[j] in ms
    ensures ChangesCurrent(u, ns)
  {
    forall i, j | 0 <= i < |u.actors| && 0 <= j < |ns| && WaitingChange(ns[j], u.actors[i].id)
      ensures ns[j].body == Body(u, ACTOR_SCHEDULE_CHANGED, Some(u.actors[i]))
    {
      var l :| 0 <= l < |t.actors| && SameBadge(t.actors[l], u.actors[i]);
      assert ns[j] in ms;
      var n :| 0 <= n < |ms| && ms[n] == ns[j];
      assert WaitingChange(ms[n], t.actors[l].id);
    }
  }

  /** The same actors as far as a notice shows them, and no other change notices. */
  lemma {:induction false} SameBadgesCurrent(t: Timetable, ms: seq<Message>, u: Timetable, ns: seq<Message>)
    requires ChangesCurrent(t, ms) && SameHead(t.profile, u.profile) && |t.actors| == |u.actors|
    requires forall i :: 0 <= i < |u.actors| ==> SameBadge(t.actors[i], u.actors[i])
    requires forall j :: 0 <= j < |ns| && IsWaitingChange(ns[j]) ==> ns[j] in ms
    ensures ChangesCurrent(u, ns)
  {
    forall i | 0 <= i < |u.actors| ensures HasBadge(t.actors, u.actors[i]) {
      assert SameBadge(t.actors[i], u.actors[i]);
    }
    NoNewChanges(t, ms, u, ns);
  }

  lemma {:induction false} OtherStaysCurrent(u: Timetable, ms: seq<Message>, ns: seq<Message>, ids: set<int>)
    requires ChangesCurrent(u, ms) && SameFor(ms, ns, ids)
    requires forall i :: 0 <= i < |u.actors| ==> u.actors[i].id !in ids
    ensures ChangesCurrent(u, ns)
  {
    forall i, j | 0 <= i < |u.actors| && 0 <= j < |ns| && WaitingChange(ns[j], u.actors[i].id)
      ensures ns[j].body == Body(u, ACTOR_SCHEDULE_CHANGED, Some(u.actors[i]))
    {
      assert ns[j] in ms;
      var n :| 0 <= n < |ms| && ms[n] == ns[j];
      assert WaitingChange(ms[n], u.actors[i].id);
    }
  }

  /** Changing one timetable and messages to its own actors: only its own notices can go stale. */
  lemma {:induction false} OneTimetableDecides(s: State, k: nat, u: Timetable, box: Outbox)
    requires Inv(s) && AllChangesCurrent(s) && k < |s.timetables|
    requires SameFor(s.messages, box.messages, IdsOf(s.timetables[k].actors))
    ensures AllChangesCurrent(With(s, k, u, box)) <==> ChangesCurrent(u, box.messages)
  {
    var r, ids := With(s, k, u, box), IdsOf(s.timetables[k].actors);
    forall x | x in ids ensures HasId(s.timetables[k].actors, x) {
      IdsOfExact(s.timetables[k].actors, x);
    }
    forall l | 0 <= l < |s.timetables| && l != k ensures ChangesCurrent(r.timetables[l], r.messages) {
      IdsOutside(s, k, l, ids);
      OtherStaysCurrent(s.timetables[l], s.messages, box.messages, ids);
    }
    assert r.timetables[k] == u;
  }

  // ---------- Board changes and publication ----------

  lemma {:induction false} NotifyKeepsCurrent(t: Timetable, x: int, box: Outbox)
    requires ActorsOk(t) && ChangesCurrent(t, box.messages)
    ensures ChangesCurrent(t, NotifyOne(t, x, box).messages)
  {
    var a := ActorOf(t, Some(x));
    FindActorExact(t.actors, x);
    if a.Some? && a.value.invited {
      SameIdSameActor(t, FindActor(t.actors, x).value);
      QueueKeepsCurrent(t, a.value, box);
    }
  }

  lemma {:induction false} QueueKeepsCurrent(t: Timetable, a: Actor, box: Outbox)
    requires ChangesCurrent(t, box.messages)
    requires forall i :: 0 <= i < |t.actors| && t.actors[i].id == a.id ==> t.actors[i] == a
    ensures ChangesCurrent(t, Queue(box, t, ACTOR_SCHEDULE_CHANGED, Some(a)).messages)
  {
    var ns := Queue(box, t, ACTOR_SCHEDULE_CHANGED, Some(a)).messages;
    forall i, j | 0 <= i < |t.actors| && 0 <= j < |ns| && WaitingChange(ns[j], t.actors[i].id)
      ensures ns[j].body == Body(t, ACTOR_SCHEDULE_CHANGED, Some(t.actors[i]))
    {
      if j < |box.messages| && ns[j] == box.messages[j] {
        assert WaitingChange(box.messages[j], t.actors[i].id);
      }
    }
  }

  lemma {:induction false} NotifyMovedKeepsCurrent(t: Timetable, moved: seq<Assignment>, box: Outbox)
    requires ActorsOk(t) && ChangesCurrent(t, box.messages)
    ensures ChangesCurrent(t, NotifyMoved(t, moved, box).messages)
  {
    if moved != [] {
      NotifyMovedKeepsCurrent(t, moved[..|moved| - 1], box);
      NotifyKeepsCurrent(t, moved[|moved| - 1].actorId, NotifyMoved(t, moved[..|moved| - 1], box));
    }
  }

  lemma {:induction false} InviteKeepsCurrent(t: Timetable, n: nat, box: Outbox, everyone: bool)
    requires n <= |t.actors| && ChangesCurrent(t, box.messages)
    ensures var (u, r) := Invite(t, n, box, everyone); ChangesCurrent(u, r.messages)
  {
    if n > 0 {
      InviteKeepsCurrent(t, n - 1, box, everyone);
      var (u, before) := Invite(t, n - 1, box, everyone);
      var (v, after) := InviteOne(u, n - 1, before, everyone);
      assert Invite(t, n, box, everyone) == (v, after);
      SameBadgesCurrent(u, before.messages, v, after.messages);
    }
  }

  lemma {:induction false} AnnounceKeepsCurrent(t: Timetable, moved: seq<Assignment>, box: Outbox)
    requires ActorsOk(t) && ChangesCurrent(t, box.messages)
    ensures var (u, r) := Announce(t, moved, box); ChangesCurrent(u, r.messages)
  {
    if t.published {
      var told := NotifyMoved(t, moved, box);
      NotifyMovedKeepsCurrent(t, moved, box);
      InviteKeepsCurrent(t, |t.actors|, told, false);
      var (u, r) := Invite(t, |t.actors|, told, false);
      SameBadgesCurrent(u, r.messages, Announce(t, moved, box).0, r.messages);
    }
  }

  lemma {:induction false} SaveKeepsCurrent(s: State, k: nat, setting: Setting, assignments: seq<Assignment>)
    requires Inv(s) && AllChangesCurrent(s) && k < |s.timetables|
    ensures AllChangesCurrent(SaveBoardAt(s, k, setting, assignments).0)
  {
    var (r, outcome) := SaveBoardAt(s, k, setting, assignments);
    if outcome == Done {
      var t := s.timetables[k];
      var u := t.(setting := setting, actors := MoveAll(t.actors, assignments).actors);
      assert TimetableOk(t) && ChangesCurrent(t, s.messages);
      MovesRelocate(t.actors, assignments);
      RelocatedOk(t, u, MovedIds(assignments));
      SameBadgesCurrent(t, s.messages, u, s.messages);
      AnnounceKeepsCurrent(u, assignments, Box(s));
      SavedOk(s, k, setting, assignments);
      OneTimetableDecides(s, k, r.timetables[k], Box(r));
    }
  }

  lemma {:induction false} PublishKeepsCurrent(s: State, k: nat)
    requires Inv(s) && AllChangesCurrent(s) && k < |s.timetables|
    ensures AllChangesCurrent(PublishAt(s, k).0)
  {
    var (r, outcome) := PublishAt(s, k);
    if outcome == Done {
      var t := s.timetables[k];
      var p := t.(published := true);
      assert IdsWithin(t, s.sequence);
      PublishedOk(t, Box(s));
      SameBadgesCurrent(t, s.messages, p, s.messages);
      InviteKeepsCurrent(p, |p.actors|, Box(s), true);
      OneTimetableDecides(s, k, r.timetables[k], Box(r));
    }
  }

  // ---------- The other handlers ----------

  lemma {:induction false} RefreshCurrentIff(s: State, k: nat, u: Timetable)
    requires Inv(s) && AllChangesCurrent(s) && k < |s.timetables|
    requires u.id == s.timetables[k].id && u.actors == s.timetables[k].actors
    ensures AllChangesCurrent(Refresh(s, k, u)) <==>
            SameHead(u.profile, s.timetables[k].profile) || NoneWaiting(s.timetables[k], s.messages)
  {
    var t, ns := s.timetables[k], RefreshAll(u, s.messages);
    RefreshLeavesOthers(s, k, u);
    OneTimetableDecides(s, k, u, Outbox(ns, s.sequence));
    assert ChangesCurrent(t, s.messages);
    RefreshedCurrentIff(t, u, s.messages);
  }

  lemma {:induction false} RefreshedCurrentIff(t: Timetable, u: Timetable, ms: seq<Message>)
    requires u.id == t.id && u.actors == t.actors && ChangesCurrent(t, ms)
    ensures ChangesCurrent(u, RefreshAll(u, ms)) <==> SameHead(u.profile, t.profile) || NoneWaiting(t, ms)
  {
    var ns := RefreshAll(u, ms);
    forall i, j | 0 <= i < |t.actors| && 0 <= j < |ms|
      ensures WaitingChange(ns[j], t.actors[i].id) <==> WaitingChange(ms[j], t.actors[i].id)
      ensures WaitingChange(ms[j], t.actors[i].id) ==>
                (ns[j].body == Body(u, ACTOR_SCHEDULE_CHANGED, Some(t.actors[i])) <==> SameHead(u.profile, t.profile))
    {
      assert ns[j] == Refreshed(u, ms[j]);
    }
  }

  lemma {:induction false} AddKeepsCurrent(s: State, k: nat, contacts: seq<Contact>)
    requires Inv(s) && AllChangesCurrent(s) && k < |s.timetables|
    ensures AllChangesCurrent(AddActorsAt(s, k, contacts).0)
  {
    var (r, outcome) := AddActorsAt(s, k, contacts);
    if outcome == Done {
      var t, u := s.timetables[k], r.timetables[k];
      forall i | 0 <= i < |u.actors|
        ensures HasBadge(t.actors, u.actors[i]) || forall j :: 0 <= j < |s.messages| ==>
                s.messages[j].actorId != Some(u.actors[i].id)
      {
        if i < |t.actors| {
          assert SameBadge(t.actors[i], u.actors[i]);
        } else {
          forall j | 0 <= j < |s.messages| ensures s.messages[j].actorId != Some(u.actors[i].id) {
            assert MessageOk(Box(s).messages[j], s.sequence);
          }
        }
      }
      assert ChangesCurrent(t, s.messages);
      NoNewChanges(t, s.messages, u, s.messages);
      SameForItself(s.messages, IdsOf(t.actors));
      OneTimetableDecides(s, k, u, Box(r));
    }
  }

  lemma {:induction false} DeleteKeepsCurrent(s: State, key: string, actorId: int)
    requires Inv(s) && AllChangesCurrent(s)
    ensures AllChangesCurrent(DeleteActor(s, key, actorId).0)
  {
    var (r, outcome) := DeleteActor(s, key, actorId);
    if outcome == Done {
      var k := Managed(s, key).value;
      var t, u := s.timetables[k], r.timetables[k];
      FindActorExact(t.actors, actorId);
      WithoutActorExact(t.actors, actorId);
      WithoutPendingExact(s.messages, actorId);
      RemainingIds(t, actorId);
      forall i | 0 <= i < |u.actors| ensures HasBadge(t.actors, u.actors[i]) {
        assert u.actors[i] in t.actors;
        var l :| 0 <= l < |t.actors| && t.actors[l] == u.actors[i];
        assert SameBadge(t.actors[l], u.actors[i]);
      }
      assert forall j :: 0 <= j < |r.messages| ==> r.messages[j] in r.messages;
      assert ChangesCurrent(t, s.messages);
      NoNewChanges(t, s.messages, u, r.messages);
      OneTimetableDecides(s, k, u, Box(r));
    }
  }

  /** A change that touches no actor's badge, and queues at most a message to the organizer. */
  lemma {:induction false} QuietChangeCurrent(s: State, k: nat, u: Timetable, box: Outbox)
    requires Inv(s) && AllChangesCurrent(s) && k < |s.timetables|
    requires SameHead(s.timetables[k].profile, u.profile) && |s.timetables[k].actors| == |u.actors|
    requires forall i :: 0 <= i < |u.actors| ==> SameBadge(s.timetables[k].actors[i], u.actors[i])
    requires box.messages == s.messages ||
             exists m: Message :: m.actorId.None? && m.kind == ORGANIZER_TIME_REQUEST
               && box.messages == s.messages + [m]
    ensures AllChangesCurrent(With(s, k, u, box))
  {
    var ids := IdsOf(s.timetables[k].actors);
    if box.messages == s.messages {
      SameForItself(s.messages, ids);
    } else {
      var m: Message :| m.actorId.None? && m.kind == ORGANIZER_TIME_REQUEST && box.messages == s.messages + [m];
      AppendLeavesOthers(s.messages, m, ids);
    }
    assert ChangesCurrent(s.timetables[k], s.messages);
    SameBadgesCurrent(s.timetables[k], s.messages, u, box.messages);
    OneTimetableDecides(s, k, u, box);
  }

  lemma {:induction false} AskKeepsCurrent(s: State, k: nat, actorId: int, text: string)
    requires Inv(s) && AllChangesCurrent(s) && k < |s.timetables|
    ensures AllChangesCurrent(AskAt(s, k, actorId, text).0)
  {
    var (r, outcome) := AskAt(s, k, actorId, text);
    if outcome == Done {
      var u := r.timetables[k];
      assert HasPendingTimeRequest(s.messages, u.id) ==> r.messages == s.messages;
      if !HasPendingTimeRequest(s.messages, u.id) {
        var m := r.messages[|s.messages|];
        assert m.actorId.None? && m.kind == ORGANIZER_TIME_REQUEST && r.messages == s.messages + [m];
      }
      QuietChangeCurrent(s, k, u, Box(r));
    }
  }

  lemma {:induction false} CompleteKeepsCurrent(s: State, ids: seq<int>)
    requires AllChangesCurrent(s)
    ensures AllChangesCurrent(Complete(s, ids).0)
  {
    var ns := MarkSent(s.messages, ids);
    forall k | 0 <= k < |s.timetables| ensures ChangesCurrent(s.timetables[k], ns) {
      var t := s.timetables[k];
      assert ChangesCurrent(t, s.messages);
      forall i, j | 0 <= i < |t.actors| && 0 <= j < |ns| && WaitingChange(ns[j], t.actors[i].id)
        ensures ns[j].body == Body(t, ACTOR_SCHEDULE_CHANGED, Some(t.actors[i]))
      {
        assert WaitingChange(s.messages[j], t.actors[i].id);
      }
    }
  }

  lemma {:induction false} CreateKeepsCurrent(s: State, manageKey: string, profile: Profile, setting: Setting)
    requires AllChangesCurrent(s)
    ensures AllChangesCurrent(Create(s, manageKey, profile, setting).0)
  {
    var (r, outcome) := Create(s, manageKey, profile, setting);
    if outcome == Done {
      forall k | 0 <= k < |r.timetables| ensures ChangesCurrent(r.timetables[k], r.messages) {
        if k < |s.timetables| {
          assert ChangesCurrent(s.timetables[k], s.messages);
          SameBadgesCurrent(s.timetables[k], s.messages, r.timetables[k], r.messages);
        }
      }
    }
  }

  // ---------- One call, and a run of calls ----------

  /** The call is no profile edit, or it is refused, keeps title and organizer, or no change notice waits. */
  ghost predicate Harmless(s: State, c: Call) {
    c.EditingProfile? && Managed(s, c.key).Some? && ProfileAccepted(c.profile) ==>
      var t := s.timetables[Managed(s, c.key).value];
      SameHead(c.profile, t.profile) || NoneWaiting(t, s.messages)
  }

  lemma {:induction false} ResolveKeepsCurrent(s: State, key: string, requestId: int)
    requires Inv(s) && AllChangesCurrent(s)
    ensures AllChangesCurrent(Resolve(s, key, requestId).0)
  {
    var (r, outcome) := Resolve(s, key, requestId);
    if outcome == Done {
      var k := Managed(s, key).value;
      QuietChangeCurrent(s, k, r.timetables[k], Box(s));
      assert r == With(s, k, r.timetables[k], Box(s));
    } else {
      assert r == s;
    }
  }

  lemma {:induction false} AttendKeepsCurrent(s: State, accessKey: string, answer: Attendance)
    requires Inv(s) && AllChangesCurrent(s)
    ensures AllChangesCurrent(Attend(s, accessKey, answer).0)
  {
    var (r, outcome) := Attend(s, accessKey, answer);
    if outcome == Done {
      var (k, i) := Accessed(s, accessKey).value;
      QuietChangeCurrent(s, k, r.timetables[k], Box(s));
      assert r == With(s, k, r.timetables[k], Box(s));
    } else {
      assert r == s;
    }
  }

  lemma {:induction false} QuestionKeepsCurrent(s: State, accessKey: string, text: string)
    requires Inv(s) && AllChangesCurrent(s)
    ensures AllChangesCurrent(Ask(s, accessKey, text).0)
  {
    if Accessed(s, accessKey).Some? {
      var (k, i) := Accessed(s, accessKey).value;
      AskKeepsCurrent(s, k, s.timetables[k].actors[i].id, text);
    }
  }

  lemma {:induction false} OrganizerKeepsCurrent(s: State, c: Call)
    requires Inv(s) && AllChangesCurrent(s) && (c.Creating? || c.DeletingActor? || c.Resolving?)
    ensures AllChangesCurrent(Step(s, c).0)
  {
    match c
    case Creating(manageKey, profile, setting) =>
      assert Step(s, c) == Create(s, manageKey, profile, setting);
      CreateKeepsCurrent(s, manageKey, profile, setting);
    case DeletingActor(key, actorId) =>
      assert Step(s, c) == DeleteActor(s, key, actorId);
      DeleteKeepsCurrent(s, key, actorId);
    case Resolving(key, requestId) =>
      assert Step(s, c) == Resolve(s, key, requestId);
      ResolveKeepsCurrent(s, key, requestId);
  }

  lemma {:induction false} OthersKeepCurrent(s: State, c: Call)
    requires Inv(s) && AllChangesCurrent(s) && (c.Attending? || c.Asking? || c.Completing?)
    ensures AllChangesCurrent(Step(s, c).0)
  {
    match c
    case Attending(accessKey, answer) =>
      assert Step(s, c) == Attend(s, accessKey, answer);
      AttendKeepsCurrent(s, accessKey, answer);
    case Asking(accessKey, text) =>
      assert Step(s, c) == Ask(s, accessKey, text);
      QuestionKeepsCurrent(s, accessKey, text);
    case Completing(ids) =>
      assert Step(s, c) == Complete(s, ids);
      CompleteKeepsCurrent(s, ids);
  }

  lemma {:induction false} EditCurrentIff(s: State, c: Call)
    requires Inv(s) && AllChangesCurrent(s) && (c.EditingProfile? || c.EditingTemplate?)
    ensures AllChangesCurrent(Step(s, c).0) <==> Harmless(s, c)
  {
    match c
    case EditingProfile(key, profile) =>
      if Managed(s, key).Some? && ProfileAccepted(profile) {
        var k := Managed(s, key).value;
        RefreshCurrentIff(s, k, s.timetables[k].(profile := profile));
      }
    case EditingTemplate(key, template) =>
      if Step(s, c).1 == Done {
        var k := Managed(s, key).value;
        var normalized := Trim(template);
        var u := s.timetables[k].(template := if normalized == DEFAULT_TEMPLATE then "" else normalized);
        RefreshCurrentIff(s, k, u);
      }
  }

  lemma {:induction false} BoardKeepsCurrent(s: State, c: Call)
    requires Inv(s) && AllChangesCurrent(s) && (c.SavingBoard? || c.AddingActors? || c.Publishing?)
    ensures AllChangesCurrent(Step(s, c).0)
  {
    match c
    case SavingBoard(key, setting, assignments) =>
      if Managed(s, key).Some? {
        SaveKeepsCurrent(s, Managed(s, key).value, setting, assignments);
      }
    case AddingActors(key, contacts) =>
      if Managed(s, key).Some? {
        AddKeepsCurrent(s, Managed(s, key).value, contacts);
      }
    case Publishing(key) =>
      if Managed(s, key).Some? {
        PublishKeepsCurrent(s, Managed(s, key).value);
      }
  }

  /** From a state in which all waiting change notices are current, a call leaves them so exactly when it is harmless: a
      profile edit renders waiting invitations anew, but not change notices, and nothing else can make one stale. Texts
      are compared by what they are composed of, so at the level of text the statement is one-way: harmless calls leave
      the texts current, but organizer A with title B 'C and organizer A 'B with title C read the same. */
  lemma {:induction false} ChangesCurrentIff(s: State, c: Call)
    requires Inv(s) && AllChangesCurrent(s)
    ensures AllChangesCurrent(Step(s, c).0) <==> Harmless(s, c)
  {
    if c.EditingProfile? || c.EditingTemplate? {
      EditCurrentIff(s, c);
    } else if c.SavingBoard? || c.AddingActors? || c.Publishing? {
      BoardKeepsCurrent(s, c);
    } else if c.Creating? || c.DeletingActor? || c.Resolving? {
      OrganizerKeepsCurrent(s, c);
    } else {
      OthersKeepCurrent(s, c);
    }
  }

  ghost predicate CurrentAt(s0: State, calls: seq<Call>, n: nat)
    requires Inv(s0) && n <= |calls|
  {
    AllChangesCurrent(After(s0, calls[..n]))
  }

  ghost predicate HarmlessAt(s0: State, calls: seq<Call>, n: nat)
    requires Inv(s0) && n < |calls|
  {
    Harmless(After(s0, calls[..n]), calls[n])
  }

  lemma {:induction false} OneCallLater(s0: State, calls: seq<Call>, n: nat)
    requires Inv(s0) && 0 < n <= |calls| && CurrentAt(s0, calls, n - 1)
    ensures CurrentAt(s0, calls, n) <==> HarmlessAt(s0, calls, n - 1)
  {
    var longer := calls[..n];
    assert longer[..|longer| - 1] == calls[..n - 1] && longer[|longer| - 1] == calls[n - 1];
    assert After(s0, longer) == Step(After(s0, calls[..n - 1]), calls[n - 1]).0;
    ChangesCurrentIff(After(s0, calls[..n - 1]), calls[n - 1]);
  }

  /** Over a whole run the waiting change notices of all timetables are current at all times exactly when every call of
      the run is harmless. */
  lemma {:induction false} RunChangesCurrentIff(s0: State, calls: seq<Call>)
    requires Inv(s0) && AllChangesCurrent(s0)
    ensures (forall n :: 0 <= n <= |calls| ==> CurrentAt(s0, calls, n)) <==>
            (forall n :: 0 <= n < |calls| ==> HarmlessAt(s0, calls, n))
  {
    if forall n :: 0 <= n <= |calls| ==> CurrentAt(s0, calls, n) {
      forall n | 0 <= n < |calls| ensures HarmlessAt(s0, calls, n) {
        assert CurrentAt(s0, calls, n + 1);
        OneCallLater(s0, calls, n + 1);
      }
    }
    if forall n :: 0 <= n < |calls| ==> HarmlessAt(s0, calls, n) {
      forall n | 0 <= n <= |calls| ensures CurrentAt(s0, calls, n) {
        HarmlessRunCurrent(s0, calls, n);
      }
    }
  }

  lemma {:induction false} HarmlessRunCurrent(s0: State, calls: seq<Call>, n: nat)
    requires Inv(s0) && AllChangesCurrent(s0) && n <= |calls|
    requires forall m :: 0 <= m < n ==> HarmlessAt(s0, calls, m)
    ensures CurrentAt(s0, calls, n)
  {
    if n > 0 {
      HarmlessRunCurrent(s0, calls, n - 1);
      OneCallLater(s0, calls, n);
    } else {
      assert calls[..0] == [];
    }
  }
}

/** The timetables and the message queue as the running program holds them: handlers change them in place, undo a
    board change that fails, and reword waiting messages one by one. */
module TimetableStore {
  import opened Wrappers
  import opened TimetableSetting
  import Timetable
  import opened TimetableInvariant
  import opened TimetableHandlers
  import opened TimetableUpkeep
  import opened TimetableRuns

  type Actor = Timetable.Actor
  type Message = Timetable.Message
  type Outcome = Timetable.Outcome

  lemma {:induction false} OneReworded(t: Timetable.Timetable, a: Actor, ms: seq<Message>, n: nat)
    requires n < |ms|
    ensures (Timetable.RewordAll(t, a, ms[..n]) + ms[n..])[n := Timetable.Reworded(t, a, ms[n])] ==
            Timetable.RewordAll(t, a, ms[..n + 1]) + ms[n + 1..]
  {
  }

  lemma {:induction false} OneRefreshed(t: Timetable.Timetable, ms: seq<Message>, n: nat)
    requires n < |ms|
    ensures (Timetable.RefreshAll(t, ms[..n]) + ms[n..])[n := Timetable.Refreshed(t, ms[n])] ==
            Timetable.RefreshAll(t, ms[..n + 1]) + ms[n + 1..]
  {
  }

  /** How many actors hold each slot, as a table. */
  ghost predicate Counted(counts: map<Slot, int>, actors: seq<Actor>) {
    forall slot :: Timetable.Holders(actors, slot) == if slot in counts then counts[slot] else 0
  }

  method Counts(actors: seq<Actor>) returns (counts: map<Slot, int>)
    ensures Counted(counts, actors)
  {
    counts := map[];
    for n := 0 to |actors|
      invariant Counted(counts, actors[..n])
    {
      assert actors[..n + 1][..n] == actors[..n];
      match actors[n].slot {
        case None =>
        case Some(slot) => counts := counts[slot := (if slot in counts then counts[slot] else 0) + 1];
      }
    }
    assert actors[..|actors|] == actors;
  }

  lemma {:induction false} LegalIff(t: Timetable.Timetable, counts: map<Slot, int>)
    requires Counted(counts, t.actors) && t.setting.capacity >= 0
    requires forall i :: 0 <= i < |t.actors| ==> SlotFits(t, t.actors[i])
    ensures Timetable.BoardLegal(t) <==> forall slot :: slot in counts ==> counts[slot] <= t.setting.capacity
  {
    if forall slot :: slot in counts ==> counts[slot] <= t.setting.capacity {
      forall i | 0 <= i < |t.actors| ensures Timetable.ActorPlaced(t, t.actors[i]) {
        assert SlotFits(t, t.actors[i]);
        if t.actors[i].slot.Some? {
          HolderCounts(t.actors, i);
        }
      }
    }
    if slot :| slot in counts && counts[slot] > t.setting.capacity && Timetable.BoardLegal(t) {
      assert Timetable.Holders(t.actors, slot) == counts[slot];
      CapacityNonNegative(t, slot);
    }
  }

  lemma {:induction false} HolderCounts(actors: seq<Actor>, i: nat)
    requires i < |actors| && actors[i].slot.Some?
    ensures Timetable.Holders(actors, actors[i].slot.value) > 0
  {
    if i < |actors| - 1 {
      HolderCounts(actors[..|actors| - 1], i);
    }
  }

  lemma {:induction false} CapacityNonNegative(t: Timetable.Timetable, slot: Slot)
    requires Timetable.BoardLegal(t)
    ensures Timetable.Holders(t.actors, slot) <= t.setting.capacity || Timetable.Holders(t.actors, slot) == 0
  {
    if Timetable.Holders(t.actors, slot) > 0 {
      var i := SomeHolder(t.actors, slot);
      assert Timetable.ActorPlaced(t, t.actors[i]);
    }
  }

  predicate SlotFits(t: Timetable.Timetable, a: Actor) {
    match a.slot
    case Some(slot) => slot in SlotsOf(t.setting)
    case None => !(t.published && a.invited)
  }

  /** First every actor's slot, then every slot's number of actors. */
  method BoardProblem(t: Timetable.Timetable) returns (legal: bool)
    requires t.setting.capacity >= 0
    ensures legal <==> Timetable.BoardLegal(t)
  {
    for n := 0 to |t.actors|
      invariant forall i :: 0 <= i < n ==> SlotFits(t, t.actors[i])
    {
      if !SlotFits(t, t.actors[n]) {
        assert !Timetable.ActorPlaced(t, t.actors[n]);
        return false;
      }
    }
    var counts := Counts(t.actors);
    LegalIff(t, counts);
    var keys := counts.Keys;
    while keys != {}
      invariant keys <= counts.Keys
      invariant forall slot :: slot in counts && slot !in keys ==> counts[slot] <= t.setting.capacity
    {
      var slot :| slot in keys;
      if counts[slot] > t.setting.capacity {
        return false;
      }
      keys := keys - {slot};
    }
    legal := true;
  }

  lemma {:induction false} FailureStays(actors: seq<Actor>, assignments: seq<Timetable.Assignment>, n: nat)
    requires n <= |assignments| && Timetable.MoveAll(actors, assignments[..n]).Failed?
    ensures Timetable.MoveAll(actors, assignments) == Timetable.MoveAll(actors, assignments[..n])
    decreases |assignments|
  {
    if n == |assignments| {
      assert assignments[..n] == assignments;
    } else {
      assert assignments[..|assignments| - 1][..n] == assignments[..n];
      FailureStays(actors, assignments[..|assignments| - 1], n);
    }
  }

  lemma {:induction false} OneRemoved(ms: seq<Message>, n: nat, actorId: int)
    requires n < |ms|
    ensures Timetable.WithoutPending(ms[n..], actorId) ==
            (if ms[n].actorId == Some(actorId) && ms[n].pending then [] else [ms[n]]) +
              Timetable.WithoutPending(ms[n + 1..], actorId)
    decreases |ms|
  {
    if n < |ms| - 1 {
      OneRemoved(ms[..|ms| - 1], n, actorId);
      assert ms[..|ms| - 1][n..] == ms[n..][..|ms[n..]| - 1];
      assert ms[..|ms| - 1][n + 1..] == ms[n + 1..][..|ms[n + 1..]| - 1];
    }
  }

  /** One step of the walk: the messages behind n are done, then so is message n. */
  lemma {:induction false} OneDropped(ms: seq<Message>, n: nat, actorId: int)
    requires n < |ms|
    ensures var current := ms[..n + 1] + Timetable.WithoutPending(ms[n + 1..], actorId);
            && current[n] == ms[n]
            && (if ms[n].actorId == Some(actorId) && ms[n].pending then current[..n] + current[n + 1..] else current) ==
               ms[..n] + Timetable.WithoutPending(ms[n..], actorId)
  {
    OneRemoved(ms, n, actorId);
    var rest := Timetable.WithoutPending(ms[n + 1..], actorId);
    var current := ms[..n + 1] + rest;
    assert current[..n] == ms[..n] && current[n + 1..] == rest;
    assert current == ms[..n] + ([ms[n]] + rest);
  }

  lemma {:induction false} OneSent(ms: seq<Message>, n: nat, ids: seq<int>)
    requires n < |ms|
    ensures var sent := if ms[n].id in ids then ms[n].(pending := false) else ms[n];
            (Timetable.MarkSent(ms[..n], ids) + ms[n..])[n := sent] ==
            Timetable.MarkSent(ms[..n + 1], ids) + ms[n + 1..]
  {
  }

  /** The names by phone that the duplicate check consults. */
  ghost predicate Recording(phones: map<string, string>, actors: seq<Actor>, contacts: seq<Timetable.Contact>) {
    forall phone :: Timetable.Recorded(actors, contacts, phone) == if phone in phones then phones[phone] else ""
  }

  lemma {:induction false} ProblemStays(actors: seq<Actor>, contacts: seq<Timetable.Contact>, n: nat)
    requires n <= |contacts| && Timetable.ContactProblem(actors, contacts[..n]) != Timetable.Done
    ensures Timetable.ContactProblem(actors, contacts) == Timetable.ContactProblem(actors, contacts[..n])
    decreases |contacts|
  {
    if n == |contacts| {
      assert contacts[..n] == contacts;
    } else {
      assert contacts[..|contacts| - 1][..n] == contacts[..n];
      ProblemStays(actors, contacts[..|contacts| - 1], n);
    }
  }

  method PhonesOf(actors: seq<Actor>) returns (phones: map<string, string>)
    ensures Recording(phones, actors, [])
  {
    phones := map[];
    for n := 0 to |actors|
      invariant Recording(phones, actors[..n], [])
    {
      assert actors[..n + 1][..n] == actors[..n];
      phones := phones[actors[n].phone := actors[n].name];
    }
    assert actors[..|actors|] == actors;
  }

  lemma {:induction false} OneMoreContact(phones: map<string, string>, actors: seq<Actor>,
        contacts: seq<Timetable.Contact>, n: nat)
    requires n < |contacts| && Recording(phones, actors, contacts[..n])
    requires Timetable.ContactProblem(actors, contacts[..n]) == Timetable.Done
    ensures var c := contacts[n];
            Timetable.ContactProblem(actors, contacts[..n + 1]) ==
            if !Timetable.IsPhone(c.phone) then Timetable.Invalid
            else if c.phone in phones && phones[c.phone] != "" then Timetable.DuplicateActor
            else Timetable.Done
    ensures Recording(phones[contacts[n].phone := contacts[n].name], actors, contacts[..n + 1])
  {
    assert contacts[..n + 1][..n] == contacts[..n];
    assert Timetable.Recorded(actors, contacts[..n], contacts[n].phone) ==
           if contacts[n].phone in phones then phones[contacts[n].phone] else "";
  }

  lemma {:induction false} OneMoreActor(contacts: seq<Timetable.Contact>, n: nat, sequence: int)
    requires n < |contacts|
    ensures Timetable.NewActors(contacts[..n + 1], sequence) ==
            Timetable.NewActors(contacts[..n], sequence) +
              [Timetable.Actor.Actor(sequence + n + 1, contacts[n].accessKey, Timetable.Trim(contacts[n].name),
                                     contacts[n].phone, None, false, Timetable.UNANSWERED)]
  {
    assert contacts[..n + 1][..n] == contacts[..n];
  }

  /** Checks the contacts in order against a table of phones that grows as they pass. */
  method ContactProblem(actors: seq<Actor>, contacts: seq<Timetable.Contact>) returns (problem: Outcome)
    ensures problem == Timetable.ContactProblem(actors, contacts)
  {
    var phones := PhonesOf(actors);
    for n := 0 to |contacts|
      invariant Recording(phones, actors, contacts[..n])
      invariant Timetable.ContactProblem(actors, contacts[..n]) == Timetable.Done
    {
      var contact := contacts[n];
      OneMoreContact(phones, actors, contacts, n);
      if !Timetable.IsPhone(contact.phone) {
        ProblemStays(actors, contacts, n + 1);
        return Timetable.Invalid;
      }
      if contact.phone in phones && phones[contact.phone] != "" {
        ProblemStays(actors, contacts, n + 1);
        return Timetable.DuplicateActor;
      }
      phones := phones[contact.phone := contact.name];
    }
    assert contacts[..|contacts|] == contacts;
    problem := Timetable.Done;
  }

  class Store {
    var timetables: seq<Timetable.Timetable>
    var messages: seq<Message>
    var sequence: int

    ghost function Contents(): Timetable.State
      reads this
    {
      Timetable.State(timetables, messages, sequence)
    }

    ghost function Box(): Timetable.Outbox
      reads this
    {
      Timetable.Outbox(messages, sequence)
    }

    ghost predicate Valid()
      reads this
    {
      Inv(Contents())
    }

    constructor ()
      ensures Valid() && Contents() == Timetable.EMPTY
    {
      timetables, messages, sequence := [], [], 100;
    }

    // ---------- The queue ----------

    method RefreshPendingInvitations(t: Timetable.Timetable)
      modifies this`messages
      ensures messages == Timetable.RefreshAll(t, old(messages))
    {
      for n := 0 to |messages|
        invariant |messages| == |old(messages)|
        invariant messages == Timetable.RefreshAll(t, old(messages)[..n]) + old(messages)[n..]
      {
        OneRefreshed(t, old(messages), n);
        if Timetable.PendingInvitation(messages[n], t.id) {
          var actor := Timetable.ActorOf(t, messages[n].actorId);
          messages := messages[n := messages[n].(body := Timetable.Body(t, Timetable.ACTOR_INVITATION, actor))];
        }
      }
      assert old(messages)[..|old(messages)|] == old(messages);
    }

    method RewordNotices(t: Timetable.Timetable, a: Actor)
      modifies this`messages
      ensures messages == Timetable.RewordAll(t, a, old(messages))
    {
      for n := 0 to |messages|
        invariant |messages| == |old(messages)|
        invariant messages == Timetable.RewordAll(t, a, old(messages)[..n]) + old(messages)[n..]
      {
        OneReworded(t, a, old(messages), n);
        if Timetable.PendingNotice(messages[n], a.id) {
          messages := messages[n := messages[n].(body := Timetable.Body(t, messages[n].kind, Some(a)))];
        }
      }
      assert old(messages)[..|old(messages)|] == old(messages);
    }

    method Queue(t: Timetable.Timetable, kind: Timetable.Kind, actor: Option<Actor>)
      modifies this`messages, this`sequence
      ensures Box() == Timetable.Queue(old(Box()), t, kind, actor)
    {
      if kind == Timetable.ACTOR_SCHEDULE_CHANGED && actor.Some?
        && Timetable.HasPendingNotice(messages, actor.value.id) {
        RewordNotices(t, actor.value);
        return;
      }
      if kind == Timetable.ORGANIZER_TIME_REQUEST && Timetable.HasPendingTimeRequest(messages, t.id) {
        return;
      }
      sequence := sequence + 1;
      messages := messages + [Timetable.NewMessage(sequence, t, kind, actor)];
    }

    // ---------- Profile and template ----------

    /** The second half of the profile handler, on the timetable it looked up before its wait. */
    method EditProfileAt(k: nat, profile: Timetable.Profile) returns (outcome: Outcome)
      requires Valid() && k < |timetables|
      modifies this
      ensures Valid() && (Contents(), outcome) == Timetable.EditProfileAt(old(Contents()), k, profile)
    {
      EditProfileAtKeepsInv(Contents(), k, profile);
      if !Timetable.ProfileAccepted(profile) {
        return Timetable.Invalid;
      }
      var t := timetables[k].(profile := profile);
      timetables := timetables[k := t];
      RefreshPendingInvitations(t);
      outcome := Timetable.Done;
    }

    method EditProfile(key: string, profile: Timetable.Profile) returns (outcome: Outcome)
      requires Valid()
      modifies this
      ensures Valid() && (Contents(), outcome) == Timetable.EditProfile(old(Contents()), key, profile)
    {
      var found := Timetable.Managed(Timetable.State(timetables, messages, sequence), key);
      if found.None? {
        return Timetable.TimetableNotFound;
      }
      outcome := EditProfileAt(found.value, profile);
    }

    method EditTemplateAt(k: nat, template: string) returns (outcome: Outcome)
      requires Valid() && k < |timetables|
      modifies this
      ensures Valid() && (Contents(), outcome) == Timetable.EditTemplateAt(old(Contents()), k, template)
    {
      EditTemplateAtKeepsInv(Contents(), k, template);
      var normalized := Timetable.Trim(template);
      if |normalized| > Timetable.MAX_TEMPLATE {
        return Timetable.Invalid;
      }
      var t := timetables[k].(template := if normalized == Timetable.DEFAULT_TEMPLATE then "" else normalized);
      timetables := timetables[k := t];
      RefreshPendingInvitations(t);
      outcome := Timetable.Done;
    }

    method EditTemplate(key: string, template: string) returns (outcome: Outcome)
      requires Valid()
      modifies this
      ensures Valid() && (Contents(), outcome) == Timetable.EditTemplate(old(Contents()), key, template)
    {
      var found := Timetable.Managed(Timetable.State(timetables, messages, sequence), key);
      if found.None? {
        return Timetable.TimetableNotFound;
      }
      outcome := EditTemplateAt(found.value, template);
    }

    // ---------- The board ----------

    /** The assignments one by one, straight into the timetable; at the first that does not apply, everything done so
        far is undone. */
    method MoveActors(k: nat, setting: Setting, assignments: seq<Timetable.Assignment>) returns (outcome: Outcome)
      requires k < |timetables|
      modifies this`timetables
      ensures var t := old(timetables)[k];
              match Timetable.MoveAll(t.actors, assignments)
              case Failed(reason) => outcome == reason && timetables == old(timetables)
              case Assigned(actors) =>
                outcome == Timetable.Done
                && timetables == old(timetables)[k := t.(setting := setting, actors := actors)]
    {
      var snapshot := timetables[k];
      timetables := timetables[k := snapshot.(setting := setting)];
      for n := 0 to |assignments|
        invariant Timetable.MoveAll(snapshot.actors, assignments[..n]).Assigned?
        invariant timetables ==
                  old(timetables)[k := snapshot.(setting := setting,
                                                 actors := Timetable.MoveAll(snapshot.actors, assignments[..n]).actors)]
      {
        var a := assignments[n];
        assert assignments[..n + 1][..n] == assignments[..n];
        var found := Timetable.FindActor(timetables[k].actors, a.actorId);
        Timetable.FindActorExact(timetables[k].actors, a.actorId);
        if found.None? || timetables[k].actors[found.value].slot != a.previous {
          FailureStays(snapshot.actors, assignments, n + 1);
          timetables := timetables[k := timetables[k].(setting := snapshot.setting, actors := snapshot.actors)];
          return if found.None? then Timetable.ActorNotFound else Timetable.AssignmentConflict;
        }
        var actors := timetables[k].actors;
        actors := actors[found.value := actors[found.value].(slot := a.next, attendance := Timetable.UNANSWERED)];
        timetables := timetables[k := timetables[k].(actors := actors)];
      }
      assert assignments[..|assignments|] == assignments;
      outcome := Timetable.Done;
    }

    method NotifyMoved(k: nat, assignments: seq<Timetable.Assignment>)
      requires k < |timetables|
      modifies this`messages, this`sequence
      ensures Box() == Timetable.NotifyMoved(timetables[k], assignments, old(Box()))
    {
      for n := 0 to |assignments|
        invariant Box() == Timetable.NotifyMoved(timetables[k], assignments[..n], old(Box()))
      {
        assert assignments[..n + 1][..n] == assignments[..n];
        var a := Timetable.ActorOf(timetables[k], Some(assignments[n].actorId));
        if a.Some? && a.value.invited {
          Queue(timetables[k], Timetable.ACTOR_SCHEDULE_CHANGED, a);
        }
      }
      assert assignments[..|assignments|] == assignments;
    }

    method InviteActors(k: nat, everyone: bool)
      requires k < |timetables|
      modifies this
      ensures var (t, box) := Timetable.Invite(old(timetables)[k], |old(timetables)[k].actors|, old(Box()), everyone);
              timetables == old(timetables)[k := t] && Box() == box
    {
      ghost var t := timetables[k];
      for n := 0 to |timetables[k].actors|
        invariant |timetables| == |old(timetables)| && |timetables[k].actors| == |t.actors|
        invariant var (u, box) := Timetable.Invite(t, n, old(Box()), everyone);
                  timetables == old(timetables)[k := u] && Box() == box
      {
        if Timetable.ToInvite(timetables[k].actors[n], everyone) {
          var a := timetables[k].actors[n].(invited := true);
          timetables := timetables[k := timetables[k].(actors := timetables[k].actors[n := a])];
          Queue(timetables[k], Timetable.ACTOR_INVITATION, Some(a));
        }
      }
    }

    /** Moves the actors and looks at the resulting board, undoing the moves when it is not legal. */
    method TryBoard(k: nat, setting: Setting, assignments: seq<Timetable.Assignment>) returns (outcome: Outcome)
      requires k < |timetables| && setting.capacity >= 0
      modifies this`timetables
      ensures match Timetable.MoveAll(old(timetables)[k].actors, assignments)
              case Failed(reason) => outcome == reason && timetables == old(timetables)
              case Assigned(actors) =>
                var u := old(timetables)[k].(setting := setting, actors := actors);
                if Timetable.BoardLegal(u) then outcome == Timetable.Done && timetables == old(timetables)[k := u]
                else outcome == Timetable.SlotUnavailable && timetables == old(timetables)
    {
      var snapshot := timetables[k];
      outcome := MoveActors(k, setting, assignments);
      if outcome != Timetable.Done {
        return;
      }
      var legal := BoardProblem(timetables[k]);
      if !legal {
        timetables := timetables[k := timetables[k].(setting := snapshot.setting, actors := snapshot.actors)];
        outcome := Timetable.SlotUnavailable;
      }
    }

    method AnnounceBoard(k: nat, assignments: seq<Timetable.Assignment>)
      requires k < |timetables|
      modifies this
      ensures var (t, box) := Timetable.Announce(old(timetables)[k], assignments, old(Box()));
              timetables == old(timetables)[k := t] && Box() == box
    {
      if timetables[k].published {
        NotifyMoved(k, assignments);
        InviteActors(k, false);
        var requests := Timetable.CloseMoved(timetables[k].requests, assignments);
        timetables := timetables[k := timetables[k].(requests := requests)];
      }
    }

    method ChangeBoard(k: nat, setting: Setting, assignments: seq<Timetable.Assignment>) returns (outcome: Outcome)
      requires k < |timetables|
      modifies this
      ensures (Contents(), outcome) == Timetable.SaveBoardAt(old(Contents()), k, setting, assignments)
    {
      var problem := SettingProblem(setting);
      if problem != Fine {
        return Timetable.Invalid;
      }
      if !Timetable.Extends(setting, timetables[k].setting) {
        return Timetable.NotExtendable;
      }
      outcome := TryBoard(k, setting, assignments);
      if outcome == Timetable.Done {
        ghost var u := timetables[k];
        AnnounceBoard(k, assignments);
        assert old(timetables)[k := u][k := timetables[k]] == old(timetables)[k := timetables[k]];
      }
    }

    method SaveBoard(key: string, setting: Setting, assignments: seq<Timetable.Assignment>) returns (outcome: Outcome)
      requires Valid()
      modifies this
      ensures Valid() && (Contents(), outcome) == Timetable.SaveBoard(old(Contents()), key, setting, assignments)
    {
      SaveBoardKeepsInv(Contents(), key, setting, assignments);
      var found := Timetable.Managed(Timetable.State(timetables, messages, sequence), key);
      if found.None? {
        return Timetable.TimetableNotFound;
      }
      outcome := ChangeBoard(found.value, setting, assignments);
    }

    method PublishAt(k: nat) returns (outcome: Outcome)
      requires k < |timetables|
      modifies this
      ensures (Contents(), outcome) == Timetable.PublishAt(old(Contents()), k)
    {
      var actors := timetables[k].actors;
      if timetables[k].published || actors == [] || exists i :: 0 <= i < |actors| && actors[i].slot.None? {
        return Timetable.NotPublishable;
      }
      timetables := timetables[k := timetables[k].(published := true)];
      ghost var u := timetables[k];
      InviteActors(k, true);
      assert old(timetables)[k := u][k := timetables[k]] == old(timetables)[k := timetables[k]];
      outcome := Timetable.Done;
    }

    method Publish(key: string) returns (outcome: Outcome)
      requires Valid()
      modifies this
      ensures Valid() && (Contents(), outcome) == Timetable.Publish(old(Contents()), key)
    {
      PublishKeepsInv(Contents(), key);
      var found := Timetable.Managed(Timetable.State(timetables, messages, sequence), key);
      if found.None? {
        return Timetable.TimetableNotFound;
      }
      outcome := PublishAt(found.value);
    }

    // ---------- Actors ----------

    /** Walks the queue from the back, taking out the actor's waiting messages. */
    method DropPending(actorId: int)
      modifies this`messages
      ensures messages == Timetable.WithoutPending(old(messages), actorId)
    {
      var n := |messages|;
      while n > 0
        invariant 0 <= n <= |old(messages)|
        invariant messages == old(messages)[..n] + Timetable.WithoutPending(old(messages)[n..], actorId)
      {
        n := n - 1;
        OneDropped(old(messages), n, actorId);
        if messages[n].actorId == Some(actorId) && messages[n].pending {
          messages := messages[..n] + messages[n + 1..];
        }
      }
      assert old(messages)[0..] == old(messages);
    }

    method DeleteActor(key: string, actorId: int) returns (outcome: Outcome)
      requires Valid()
      modifies this
      ensures Valid() && (Contents(), outcome) == Timetable.DeleteActor(old(Contents()), key, actorId)
    {
      DeleteActorKeepsInv(Contents(), key, actorId);
      var found := Timetable.Managed(Timetable.State(timetables, messages, sequence), key);
      if found.None? {
        return Timetable.TimetableNotFound;
      }
      var t := timetables[found.value];
      if Timetable.FindActor(t.actors, actorId).None? {
        return Timetable.ActorNotFound;
      }
      timetables := timetables[found.value := t.(actors := Timetable.WithoutActor(t.actors, actorId),
                                                 requests := Timetable.WithoutRequests(t.requests, actorId))];
      DropPending(actorId);
      outcome := Timetable.Done;
    }

    // ---------- Opening a timetable and registering actors ----------

    method Create(manageKey: string, profile: Timetable.Profile, setting: Setting) returns (outcome: Outcome)
      requires Valid()
      modifies this
      ensures Valid() && (Contents(), outcome) == Timetable.Create(old(Contents()), manageKey, profile, setting)
    {
      ghost var s := Contents();
      CreateKeepsInv(s, manageKey, profile, setting);
      if !Timetable.ProfileAccepted(profile) || !Timetable.IsPhone(profile.phone) {
        return Timetable.Invalid;
      }
      var problem := SettingProblem(setting);
      if problem != Fine {
        return Timetable.Invalid;
      }
      sequence := sequence + 1;
      var t := Timetable.Timetable.Timetable(sequence, manageKey, profile, setting, false, "", [], []);
      timetables := timetables + [t];
      Queue(t, Timetable.ORGANIZER_LINK, None);
      outcome := Timetable.Done;
      assert (Contents(), outcome) == Timetable.Create(s, manageKey, profile, setting);
    }

    method RegisterActors(k: nat, contacts: seq<Timetable.Contact>)
      requires k < |timetables|
      modifies this`timetables, this`sequence
      ensures sequence == old(sequence) + |contacts|
      ensures var t := old(timetables)[k];
              timetables == old(timetables)[k := t.(actors := t.actors + Timetable.NewActors(contacts, old(sequence)))]
    {
      ghost var t := timetables[k];
      assert t.actors + Timetable.NewActors(contacts[..0], sequence) == t.actors;
      for n := 0 to |contacts|
        invariant sequence == old(sequence) + n
        invariant timetables ==
                  old(timetables)[k := t.(actors := t.actors + Timetable.NewActors(contacts[..n], old(sequence)))]
      {
        sequence := sequence + 1;
        var c := contacts[n];
        ghost var before := Timetable.NewActors(contacts[..n], old(sequence));
        var actor := Timetable.Actor.Actor(sequence, c.accessKey, Timetable.Trim(c.name), c.phone, None, false,
          Timetable.UNANSWERED);
        OneMoreActor(contacts, n, old(sequence));
        assert t.actors + before + [actor] == t.actors + (before + [actor]);
        timetables := timetables[k := timetables[k].(actors := timetables[k].actors + [actor])];
      }
      assert contacts[..|contacts|] == contacts;
    }

    method AddActorsAt(k: nat, contacts: seq<Timetable.Contact>) returns (outcome: Outcome)
      requires Valid() && k < |timetables|
      modifies this
      ensures Valid() && (Contents(), outcome) == Timetable.AddActorsAt(old(Contents()), k, contacts)
    {
      ghost var s := Contents();
      AddActorsAtKeepsInv(s, k, contacts);
      if contacts == [] {
        return Timetable.Invalid;
      }
      if |timetables[k].actors| + |contacts| > Timetable.MAX_ACTORS {
        return Timetable.TooManyActors;
      }
      outcome := ContactProblem(timetables[k].actors, contacts);
      if outcome == Timetable.Done {
        RegisterActors(k, contacts);
      }
      assert (Contents(), outcome) == Timetable.AddActorsAt(s, k, contacts);
    }

    method AddActors(key: string, contacts: seq<Timetable.Contact>) returns (outcome: Outcome)
      requires Valid()
      modifies this
      ensures Valid() && (Contents(), outcome) == Timetable.AddActors(old(Contents()), key, contacts)
    {
      var found := Timetable.Managed(Timetable.State(timetables, messages, sequence), key);
      if found.None? {
        return Timetable.TimetableNotFound;
      }
      outcome := AddActorsAt(found.value, contacts);
    }

    // ---------- Requests and answers ----------

    method Resolve(key: string, requestId: int) returns (outcome: Outcome)
      requires Valid()
      modifies this
      ensures Valid() && (Contents(), outcome) == Timetable.Resolve(old(Contents()), key, requestId)
    {
      ResolveKeepsInv(Contents(), key, requestId);
      var found := Timetable.Managed(Timetable.State(timetables, messages, sequence), key);
      if found.None? {
        return Timetable.TimetableNotFound;
      }
      var t := timetables[found.value];
      var target := Timetable.FindRequest(t.requests, requestId);
      if target.None? {
        return Timetable.RequestNotFound;
      }
      var requests := t.requests[target.value := t.requests[target.value].(open := false)];
      timetables := timetables[found.value := t.(requests := requests)];
      outcome := Timetable.Done;
    }

    method Attend(accessKey: string, answer: Timetable.Attendance) returns (outcome: Outcome)
      requires Valid()
      modifies this
      ensures Valid() && (Contents(), outcome) == Timetable.Attend(old(Contents()), accessKey, answer)
    {
      AttendKeepsInv(Contents(), accessKey, answer);
      var access := Timetable.Accessed(Timetable.State(timetables, messages, sequence), accessKey);
      if access.None? {
        return Timetable.TimetableNotFound;
      }
      if answer == Timetable.UNANSWERED {
        return Timetable.Invalid;
      }
      var (k, i) := access.value;
      var actors := timetables[k].actors;
      timetables := timetables[k := timetables[k].(actors := actors[i := actors[i].(attendance := answer)])];
      outcome := Timetable.Done;
    }

    method AskAt(k: nat, actorId: int, text: string) returns (outcome: Outcome)
      requires k < |timetables|
      modifies this
      ensures (Contents(), outcome) == Timetable.AskAt(old(Contents()), k, actorId, text)
    {
      var message := Timetable.Trim(text);
      if message == "" || |message| > Timetable.MAX_REQUEST {
        return Timetable.Invalid;
      }
      var t := timetables[k];
      var open := Timetable.FindOpen(t.requests, actorId);
      match open {
        case Some(j) =>
          t := t.(requests := t.requests[j := t.requests[j].(message := message)]);
        case None =>
          sequence := sequence + 1;
          t := t.(requests := t.requests + [Timetable.Request.Request(sequence, actorId, message, true)]);
      }
      timetables := timetables[k := t];
      Queue(t, Timetable.ORGANIZER_TIME_REQUEST, None);
      outcome := Timetable.Done;
    }

    method Ask(accessKey: string, text: string) returns (outcome: Outcome)
      requires Valid()
      modifies this
      ensures Valid() && (Contents(), outcome) == Timetable.Ask(old(Contents()), accessKey, text)
    {
      AskKeepsInv(Contents(), accessKey, text);
      var access := Timetable.Accessed(Timetable.State(timetables, messages, sequence), accessKey);
      if access.None? {
        return Timetable.TimetableNotFound;
      }
      var (k, i) := access.value;
      outcome := AskAt(k, timetables[k].actors[i].id, text);
    }

    // ---------- Sending ----------

    /** Counts the named messages first; only if every id names one are they marked, one by one. */
    method Complete(ids: seq<int>) returns (outcome: Outcome)
      requires Valid()
      modifies this
      ensures Valid() && (Contents(), outcome) == Timetable.Complete(old(Contents()), ids)
    {
      CompleteKeepsInv(Contents(), ids);
      if Timetable.CountNamed(messages, ids) != |set id | id in ids| {
        return Timetable.MessageNotFound;
      }
      MarkSent(ids);
      outcome := Timetable.Done;
    }

    method MarkSent(ids: seq<int>)
      modifies this`messages
      ensures messages == Timetable.MarkSent(old(messages), ids)
    {
      for n := 0 to |messages|
        invariant |messages| == |old(messages)|
        invariant messages == Timetable.MarkSent(old(messages)[..n], ids) + old(messages)[n..]
      {
        OneSent(old(messages), n, ids);
        if messages[n].id in ids && messages[n].pending {
          messages := messages[n := messages[n].(pending := false)];
        }
      }
      assert old(messages)[..|old(messages)|] == old(messages);
    }
  }
}

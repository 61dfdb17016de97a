/** The handlers that change who is on a timetable, and when. */
module TimetableHandlers {
  import opened Wrappers
  import opened TimetableSetting
  import opened Timetable
  import opened TimetableInvariant
  import opened TimetableSteps

  // ---------- Saving the board ----------

  /** After moves: only slots and answers differ, and only of actors named by an assignment. */
  ghost predicate Relocated(a: seq<Actor>, b: seq<Actor>, moved: set<int>) {
    && |a| == |b|
    && forall i :: 0 <= i < |a| ==>
         && b[i] == a[i].(slot := b[i].slot, attendance := b[i].attendance)
         && (b[i] == a[i] || (a[i].id in moved && b[i].attendance == UNANSWERED))
  }

  lemma {:induction false} MovesRelocate(actors: seq<Actor>, assignments: seq<Assignment>)
    requires MoveAll(actors, assignments).Assigned?
    ensures Relocated(actors, MoveAll(actors, assignments).actors, MovedIds(assignments))
  {
    if assignments != [] {
      var init, last := assignments[..|assignments| - 1], assignments[|assignments| - 1];
      MovesRelocate(actors, init);
      assert MovedIds(assignments) == MovedIds(init) + {last.actorId};
      var before := MoveAll(actors, init).actors;
      FindActorExact(before, last.actorId);
    }
  }

  lemma {:induction false} HoldersSame(a: seq<Actor>, b: seq<Actor>, slot: Slot)
    requires |a| == |b| && forall i :: 0 <= i < |a| ==> a[i].slot == b[i].slot
    ensures Holders(a, slot) == Holders(b, slot)
  {
    if a != [] {
      HoldersSame(a[..|a| - 1], b[..|b| - 1], slot);
    }
  }

  lemma {:induction false} RelocatedFits(t: Timetable, u: Timetable, ms: seq<Message>, moved: set<int>)
    requires Fits(t, ms, {}) && Relocated(t.actors, u.actors, moved)
    requires u == t.(setting := u.setting, actors := u.actors) && u.setting.minutes == t.setting.minutes
    ensures Fits(u, ms, moved)
  {
    forall i | 0 <= i < |u.actors| ensures ActorFits(u, u.actors[i], ms, moved) {
      assert ActorFits(t, t.actors[i], ms, {});
      forall j | 0 <= j < |ms| && ms[j].actorId == Some(u.actors[i].id)
        ensures Matches(u, u.actors[i], ms[j], u.actors[i].id in moved)
      {
        assert Matches(t, t.actors[i], ms[j], false);
      }
    }
  }

  /** A draft has invited nobody, so no message of its actors exists. */
  lemma {:induction false} DraftFits(t: Timetable, ms: seq<Message>, stale: set<int>)
    requires ActorsOk(t) && !t.published && Fits(t, ms, stale)
    ensures Fits(t, ms, {})
  {
    forall i | 0 <= i < |t.actors| ensures ActorFits(t, t.actors[i], ms, {}) {
      assert ActorFits(t, t.actors[i], ms, stale);
    }
  }

  /** The same requests, some of them reworded or closed. */
  ghost predicate SameAsked(rs: seq<Request>, qs: seq<Request>) {
    |rs| == |qs| && forall j :: 0 <= j < |rs| ==> qs[j].actorId == rs[j].actorId && (qs[j].open ==> rs[j].open)
  }

  lemma {:induction false} RequestsStayOk(rs: seq<Request>, qs: seq<Request>, sequence: int)
    requires OneOpenEach(rs) && SameAsked(rs, qs)
    ensures OneOpenEach(qs) && (AskedWithin(rs, sequence) ==> AskedWithin(qs, sequence))
  {
  }

  /** What is known of the timetable between the moves and the announcements. */
  lemma {:induction false} RelocatedOk(t: Timetable, u: Timetable, moved: set<int>)
    requires TimetableOk(t) && Relocated(t.actors, u.actors, moved) && u == t.(setting := u.setting, actors := u.actors)
    ensures ActorsOk(u) && PhonesGuarded(u.actors) && SameIds(t.actors, u.actors)
  {
  }

  lemma {:induction false} InvitedBoardLegal(t: Timetable, u: Timetable)
    requires BoardLegal(t) && MoreInvited(t, u)
    requires forall i :: 0 <= i < |t.actors| && u.actors[i].slot.None? ==> u.actors[i].invited == t.actors[i].invited
    ensures BoardLegal(u)
  {
    forall i | 0 <= i < |u.actors| ensures ActorPlaced(u, u.actors[i]) {
      assert ActorPlaced(t, t.actors[i]);
      if u.actors[i].slot.Some? {
        HoldersSame(t.actors, u.actors, u.actors[i].slot.value);
      }
    }
  }

  lemma {:induction false} BoardLegalOf(t: Timetable, u: Timetable)
    requires BoardLegal(t) && u.setting == t.setting && u.actors == t.actors && u.published == t.published
    ensures BoardLegal(u)
  {
    forall i | 0 <= i < |u.actors| ensures ActorPlaced(u, u.actors[i]) {
      assert ActorPlaced(t, t.actors[i]);
    }
  }

  /** Announcing turns a legal board into a settled one. */
  lemma {:induction false} AnnouncedOk(u: Timetable, moved: seq<Assignment>, box: Outbox)
    requires ValidSetting(u.setting) && ActorsOk(u) && BoardLegal(u) && OneOpenEach(u.requests)
             && PhonesGuarded(u.actors)
    requires QueueOk(box) && Fits(u, box.messages, MovedIds(moved)) && IdsWithin(u, box.sequence)
    ensures var (v, r) := Announce(u, moved, box);
            && v.id == u.id && SameIds(u.actors, v.actors) && TimetableOk(v) && SameAsked(u.requests, v.requests)
            && Fits(v, r.messages, {}) && QueueOk(r) && box.sequence <= r.sequence
            && SameFor(box.messages, r.messages, IdsOf(u.actors))
  {
    if !u.published {
      DraftFits(u, box.messages, MovedIds(moved));
    } else {
      MovedTold(u, moved, box);
      var told := NotifyMoved(u, moved, box);
      var (w, r) := Invite(u, |u.actors|, told, false);
      InvitedBoardLegal(u, w);
      ClosedOk(u, w, moved, r.messages);
    }
  }

  lemma {:induction false} MovedTold(u: Timetable, moved: seq<Assignment>, box: Outbox)
    requires u.published && ActorsOk(u)
    requires QueueOk(box) && Fits(u, box.messages, MovedIds(moved)) && IdsWithin(u, box.sequence)
    ensures var told := NotifyMoved(u, moved, box);
            var (w, r) := Invite(u, |u.actors|, told, false);
            && MoreInvited(u, w) && ActorsOk(w) && QueueOk(r) && Fits(w, r.messages, {}) && box.sequence <= r.sequence
            && SameFor(box.messages, r.messages, IdsOf(u.actors))
            && (forall i :: 0 <= i < |w.actors| && w.actors[i].slot.Some? ==> w.actors[i].invited)
            && forall i :: 0 <= i < |u.actors| && w.actors[i].slot.None? ==>
                 w.actors[i].invited == u.actors[i].invited
  {
    var told := NotifyMoved(u, moved, box);
    MovedNotified(u, moved, box, MovedIds(moved));
    assert MovedIds(moved) - MovedIds(moved) == {};
    InvitedInTurn(u, |u.actors|, told, false);
    SameForTrans(box.messages, told.messages, Invite(u, |u.actors|, told, false).1.messages, IdsOf(u.actors));
  }

  lemma {:induction false} ClosedOk(u: Timetable, w: Timetable, moved: seq<Assignment>, ms: seq<Message>)
    requires OneOpenEach(u.requests) && PhonesGuarded(u.actors) && ValidSetting(u.setting)
    requires MoreInvited(u, w) && ActorsOk(w) && BoardLegal(w) && Fits(w, ms, {})
    requires forall i :: 0 <= i < |w.actors| && w.actors[i].slot.Some? ==> w.actors[i].invited
    ensures var v := w.(requests := CloseMoved(w.requests, moved));
            TimetableOk(v) && Fits(v, ms, {}) && SameIds(u.actors, v.actors)
  {
    var v := w.(requests := CloseMoved(w.requests, moved));
    RequestsStayOk(u.requests, v.requests, 0);
    BoardLegalOf(w, v);
    SamePartsFit(w, v, ms);
  }

  lemma {:induction false} SamePartsFit(t: Timetable, u: Timetable, ms: seq<Message>)
    requires Fits(t, ms, {}) && u.id == t.id && u.actors == t.actors
    requires u.profile == t.profile && u.template == t.template && u.setting.minutes == t.setting.minutes
    ensures Fits(u, ms, {})
  {
    forall i | 0 <= i < |u.actors| ensures ActorFits(u, u.actors[i], ms, {}) {
      assert ActorFits(t, t.actors[i], ms, {});
      forall j | 0 <= j < |ms| && ms[j].actorId == Some(u.actors[i].id) ensures Matches(u, u.actors[i], ms[j], false) {
        assert Matches(t, t.actors[i], ms[j], false);
      }
    }
  }

  /** What a successful save makes of its timetable and the queue. */
  lemma {:induction false} SavedOk(s: State, k: nat, setting: Setting, assignments: seq<Assignment>)
    requires Inv(s) && k < |s.timetables| && SaveBoardAt(s, k, setting, assignments).1 == Done
    ensures var t, r := s.timetables[k], SaveBoardAt(s, k, setting, assignments).0;
            var u := r.timetables[k];
            && r == With(s, k, u, Box(r)) && u.id == t.id && SameIds(t.actors, u.actors)
               && SameAsked(t.requests, u.requests)
            && TimetableOk(u) && Fits(u, r.messages, {}) && QueueOk(Box(r)) && s.sequence <= r.sequence
            && SameFor(s.messages, r.messages, IdsOf(t.actors))
  {
    var t, moved := s.timetables[k], MovedIds(assignments);
    var u := t.(setting := setting, actors := MoveAll(t.actors, assignments).actors);
    MovesRelocate(t.actors, assignments);
    RelocatedOk(t, u, moved);
    RelocatedFits(t, u, s.messages, moved);
    assert IdsWithin(t, s.sequence);
    AnnouncedOk(u, assignments, Box(s));
    SameIdsSameSet(t.actors, u.actors);
  }

  lemma {:induction false} SaveBoardAtKeepsInv(s: State, k: nat, setting: Setting, assignments: seq<Assignment>)
    requires Inv(s) && k < |s.timetables|
    ensures Inv(SaveBoardAt(s, k, setting, assignments).0)
  {
    var (r, outcome) := SaveBoardAt(s, k, setting, assignments);
    if outcome == Done {
      SavedOk(s, k, setting, assignments);
      assert IdsWithin(s.timetables[k], s.sequence);
      RequestsStayOk(s.timetables[k].requests, r.timetables[k].requests, r.sequence);
      SameActorsKeepInv(s, k, r.timetables[k], Box(r));
    }
  }

  lemma {:induction false} SaveBoardKeepsInv(s: State, key: string, setting: Setting, assignments: seq<Assignment>)
    requires Inv(s)
    ensures Inv(SaveBoard(s, key, setting, assignments).0)
  {
    var found := Managed(s, key);
    if found.Some? {
      SaveBoardAtKeepsInv(s, found.value, setting, assignments);
    }
  }

  lemma {:induction false} SameIdsSameSet(a: seq<Actor>, b: seq<Actor>)
    requires SameIds(a, b)
    ensures IdsOf(a) == IdsOf(b)
  {
    forall x ensures x in IdsOf(a) <==> x in IdsOf(b) {
      IdsOfExact(a, x);
      IdsOfExact(b, x);
      SameIdsHave(a, b, x);
    }
  }

  // ---------- Publishing ----------

  lemma {:induction false} PublishedOk(t: Timetable, box: Outbox)
    requires TimetableOk(t) && !t.published && forall i :: 0 <= i < |t.actors| ==> t.actors[i].slot.Some?
    requires QueueOk(box) && Fits(t, box.messages, {}) && IdsWithin(t, box.sequence)
    ensures var (u, r) := Invite(t.(published := true), |t.actors|, box, true);
            && u.id == t.id && SameIds(t.actors, u.actors) && TimetableOk(u) && u.requests == t.requests
            && Fits(u, r.messages, {}) && QueueOk(r) && box.sequence <= r.sequence
            && SameFor(box.messages, r.messages, IdsOf(t.actors))
  {
    var p := t.(published := true);
    SamePartsFit(t, p, box.messages);
    InvitedInTurn(p, |p.actors|, box, true);
    var (u, r) := Invite(p, |p.actors|, box, true);
    forall i | 0 <= i < |p.actors| ensures ActorPlaced(p, p.actors[i]) {
      assert ActorPlaced(t, t.actors[i]);
    }
    InvitedBoardLegal(p, u);
  }

  lemma {:induction false} PublishKeepsInv(s: State, key: string)
    requires Inv(s)
    ensures Inv(Publish(s, key).0)
  {
    if Publish(s, key).1 == Done {
      var k := Managed(s, key).value;
      var t := s.timetables[k];
      assert IdsWithin(t, s.sequence);
      PublishedOk(t, Box(s));
      var (u, box) := Invite(t.(published := true), |t.actors|, Box(s), true);
      SameActorsKeepInv(s, k, u, box);
    }
  }

  // ---------- Registering ----------

  lemma {:induction false} HoldersOfUnplaced(actors: seq<Actor>, more: seq<Actor>, slot: Slot)
    requires forall j :: 0 <= j < |more| ==> more[j].slot.None?
    ensures Holders(actors + more, slot) == Holders(actors, slot)
  {
    if more == [] {
      assert actors + more == actors;
    } else {
      HoldersOfUnplaced(actors, more[..|more| - 1], slot);
      assert (actors + more)[..|actors + more| - 1] == actors + more[..|more| - 1];
    }
  }

  /** Phones are well formed, and only people without a name share one with somebody later. */
  ghost predicate OnlyNamelessRepeat(actors: seq<Actor>, contacts: seq<Contact>) {
    && (forall i :: 0 <= i < |contacts| ==> IsPhone(contacts[i].phone))
    && (forall i, j :: 0 <= i < j < |contacts| && contacts[i].phone == contacts[j].phone ==> contacts[i].name == "")
    && forall i, j :: 0 <= i < |actors| && 0 <= j < |contacts| && actors[i].phone == contacts[j].phone ==>
         actors[i].name == ""
  }

  /** The name recorded for a phone is that of its last holder, as registered before trimming. */
  lemma {:induction false} RecordedExact(actors: seq<Actor>, contacts: seq<Contact>, phone: string)
    requires Recorded(actors, contacts, phone) == "" && PhonesGuarded(actors) && OnlyNamelessRepeat(actors, contacts)
    ensures forall i :: 0 <= i < |actors| && actors[i].phone == phone ==> actors[i].name == ""
    ensures forall i :: 0 <= i < |contacts| && contacts[i].phone == phone ==> contacts[i].name == ""
    decreases |contacts|, |actors|
  {
    if contacts != [] {
      if contacts[|contacts| - 1].phone != phone {
        RecordedExact(actors, contacts[..|contacts| - 1], phone);
      }
    } else if actors != [] && actors[|actors| - 1].phone != phone {
      RecordedExact(actors[..|actors| - 1], [], phone);
    }
  }

  lemma {:induction false} OneMoreGuarded(actors: seq<Actor>, contacts: seq<Contact>, last: Contact)
    requires OnlyNamelessRepeat(actors, contacts) && IsPhone(last.phone)
    requires forall i :: 0 <= i < |actors| && actors[i].phone == last.phone ==> actors[i].name == ""
    requires forall i :: 0 <= i < |contacts| && contacts[i].phone == last.phone ==> contacts[i].name == ""
    ensures OnlyNamelessRepeat(actors, contacts + [last])
  {
  }

  /** Accepted contacts only repeat phones whose earlier holders have no name. */
  lemma {:induction false} ContactsGuarded(actors: seq<Actor>, contacts: seq<Contact>)
    requires ContactProblem(actors, contacts) == Done && PhonesGuarded(actors)
    ensures OnlyNamelessRepeat(actors, contacts)
  {
    if contacts != [] {
      var init, last := contacts[..|contacts| - 1], contacts[|contacts| - 1];
      ContactsGuarded(actors, init);
      RecordedExact(actors, init, last.phone);
      OneMoreGuarded(actors, init, last);
      assert contacts == init + [last];
    }
  }

  lemma {:induction false} RegisteredShares(actors: seq<Actor>, contacts: seq<Contact>, sequence: int)
    requires NamelessShare(actors)
    requires forall i, j :: 0 <= i < j < |contacts| && contacts[i].phone == contacts[j].phone ==> contacts[i].name == ""
    requires forall i, j :: 0 <= i < |actors| && 0 <= j < |contacts| && actors[i].phone == contacts[j].phone ==>
             actors[i].name == ""
    ensures NamelessShare(actors + NewActors(contacts, sequence))
  {
    var n, added := |actors|, NewActors(contacts, sequence);
    var all := actors + added;
    forall i, j | 0 <= i < j < |all| && all[i].phone == all[j].phone ensures all[i].name == "" {
      assert all[j] == if j < n then actors[j] else added[j - n];
      if i >= n {
        assert all[i] == added[i - n] && contacts[i - n].name == "" && Trim("") == "";
      }
    }
  }

  lemma {:induction false} RegisteredGuarded(actors: seq<Actor>, contacts: seq<Contact>, sequence: int)
    requires ContactProblem(actors, contacts) == Done && PhonesGuarded(actors)
    ensures PhonesGuarded(actors + NewActors(contacts, sequence))
  {
    ContactsGuarded(actors, contacts);
    RegisteredShares(actors, contacts, sequence);
    var n, added := |actors|, NewActors(contacts, sequence);
    forall i | 0 <= i < n + |added| ensures IsPhone((actors + added)[i].phone) {
      assert (actors + added)[i].phone == if i < n then actors[i].phone else contacts[i - n].phone;
    }
  }

  lemma {:induction false} RegisteredOk(t: Timetable, contacts: seq<Contact>, sequence: int)
    requires TimetableOk(t) && IdsWithin(t, sequence) && ContactProblem(t.actors, contacts) == Done
    ensures TimetableOk(t.(actors := t.actors + NewActors(contacts, sequence)))
  {
    var u, n := t.(actors := t.actors + NewActors(contacts, sequence)), |t.actors|;
    RegisteredGuarded(t.actors, contacts, sequence);
    forall i | 0 <= i < |u.actors| ensures ActorPlaced(u, u.actors[i]) {
      if i < n {
        assert ActorPlaced(t, t.actors[i]);
        if t.actors[i].slot.Some? {
          HoldersOfUnplaced(t.actors, NewActors(contacts, sequence), t.actors[i].slot.value);
        }
      }
    }
  }

  lemma {:induction false} RegisteredFits(t: Timetable, contacts: seq<Contact>, box: Outbox)
    requires Fits(t, box.messages, {}) && QueueOk(box)
    ensures Fits(t.(actors := t.actors + NewActors(contacts, box.sequence)), box.messages, {})
  {
    var u, n := t.(actors := t.actors + NewActors(contacts, box.sequence)), |t.actors|;
    forall i | 0 <= i < |u.actors| ensures ActorFits(u, u.actors[i], box.messages, {}) {
      if i < n {
        assert ActorFits(t, t.actors[i], box.messages, {});
      }
      forall j | 0 <= j < |box.messages| && box.messages[j].actorId == Some(u.actors[i].id)
        ensures Matches(u, u.actors[i], box.messages[j], false)
      {
        assert MessageOk(box.messages[j], box.sequence);
        assert i < n;
        assert Matches(t, t.actors[i], box.messages[j], false);
      }
    }
  }

  lemma {:induction false} RegisteredStep(t: Timetable, u: Timetable, contacts: seq<Contact>, box: Outbox)
    requires TimetableOk(t) && Fits(t, box.messages, {}) && QueueOk(box) && IdsWithin(t, box.sequence)
    requires ContactProblem(t.actors, contacts) == Done
             && u == t.(actors := t.actors + NewActors(contacts, box.sequence))
    ensures LocalStep(t, box, u, box.(sequence := box.sequence + |contacts|), IdsOf(u.actors))
    ensures forall x :: HasId(t.actors, x) ==> x in IdsOf(u.actors)
  {
    RegisteredOk(t, contacts, box.sequence);
    RegisteredFits(t, contacts, box);
    RegisteredIds(t, contacts, box.sequence);
    forall j | 0 <= j < |box.messages| ensures MessageOk(box.messages[j], box.sequence + |contacts|) {
      assert MessageOk(box.messages[j], box.sequence);
    }
  }

  lemma {:induction false} RegisteringKeepsInv(s: State, k: nat, contacts: seq<Contact>)
    requires Inv(s) && k < |s.timetables| && ContactProblem(s.timetables[k].actors, contacts) == Done
    ensures var u := s.timetables[k].(actors := s.timetables[k].actors + NewActors(contacts, s.sequence));
            Inv(With(s, k, u, Outbox(s.messages, s.sequence + |contacts|)))
  {
    var t := s.timetables[k];
    var u := t.(actors := t.actors + NewActors(contacts, s.sequence));
    assert IdsWithin(t, s.sequence);
    RegisteredStep(t, u, contacts, Box(s));
    LocalStepKeepsInv(s, k, u, Outbox(s.messages, s.sequence + |contacts|), IdsOf(u.actors));
  }

  lemma {:induction false} AddActorsAtKeepsInv(s: State, k: nat, contacts: seq<Contact>)
    requires Inv(s) && k < |s.timetables|
    ensures Inv(AddActorsAt(s, k, contacts).0)
  {
    if AddActorsAt(s, k, contacts).1 == Done {
      RegisteringKeepsInv(s, k, contacts);
    }
  }

  lemma {:induction false} AddActorsKeepsInv(s: State, key: string, contacts: seq<Contact>)
    requires Inv(s)
    ensures Inv(AddActors(s, key, contacts).0)
  {
    var found := Managed(s, key);
    if found.Some? {
      AddActorsAtKeepsInv(s, found.value, contacts);
    }
  }

  lemma {:induction false} RegisteredIds(t: Timetable, contacts: seq<Contact>, sequence: int)
    requires IdsWithin(t, sequence)
    ensures var u := t.(actors := t.actors + NewActors(contacts, sequence));
            && IdsWithin(u, sequence + |contacts|)
            && (forall x :: x in IdsOf(u.actors) <==> HasId(u.actors, x))
            && (forall x :: HasId(t.actors, x) ==> HasId(u.actors, x))
            && (forall x :: HasId(u.actors, x) ==> HasId(t.actors, x) || x > sequence)
  {
    var u, n := t.(actors := t.actors + NewActors(contacts, sequence)), |t.actors|;
    forall x ensures (x in IdsOf(u.actors) <==> HasId(u.actors, x)) && (HasId(t.actors, x) ==> HasId(u.actors, x)) {
      IdsOfExact(u.actors, x);
      if HasId(t.actors, x) {
        var i :| 0 <= i < n && t.actors[i].id == x;
        assert u.actors[i].id == x;
      }
    }
    forall x | HasId(u.actors, x) ensures HasId(t.actors, x) || x > sequence {
      var i :| 0 <= i < |u.actors| && u.actors[i].id == x;
      assert i < n ==> t.actors[i].id == x;
    }
  }
}

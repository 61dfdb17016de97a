/** Runs on an empty store that end where the checks of the timetables do not reach: two actors on one phone, and a
    waiting change notice of an older wording. */
module TimetableWitnesses {
  import opened Wrappers
  import opened TimetableSetting
  import opened Timetable
  import opened TimetableInvariant
  import opened TimetableRuns
  import opened TimetableAnswers
  import opened TimetableChanges
  import opened TimetableEffects

  const PHONE := "010-1234-5678"
  const PROFILE := Profile("T", "O", "", PHONE, "", "")
  const RENAMED := Profile("U", "O", "", PHONE, "", "")
  const SETTING := Setting(5, 1, [Window(0, 0, 10)])
  const FIRST := Slot(0, 0)
  const SECOND := Slot(0, 5)

  lemma {:induction false} EmptyInOrder()
    ensures Inv(EMPTY) && AllRegistered(EMPTY) && AllChangesCurrent(EMPTY)
  {
  }

  lemma {:induction false} PhoneFits()
    ensures IsPhone(PHONE)
  {
    assert PHONE[..2] == "01";
  }

  lemma {:induction false} SettingFits()
    ensures ValidSetting(SETTING) && FIRST in SlotsOf(SETTING) && SECOND in SlotsOf(SETTING)
  {
    var w := SETTING.windows[0];
    assert WindowSlots(w, 10, 5) == [] && WindowSlots(w, 5, 5) == [SECOND] && WindowSlots(w, 0, 5) == [FIRST, SECOND];
    assert SETTING.windows[..0] == [];
    assert SlotsFrom([], 5) == [];
    assert SlotsFrom(SETTING.windows, 5) == [] + [FIRST, SECOND];
  }

  /** One more call at the end of a run. */
  lemma {:induction false} Then(calls: seq<Call>, c: Call)
    requires Inv(EMPTY)
    ensures After(EMPTY, calls + [c]) == Step(After(EMPTY, calls), c).0
  {
    var longer := calls + [c];
    assert longer[..|longer| - 1] == calls && longer[|longer| - 1] == c;
  }

  // ---------- An empty timetable ----------

  const OPENED := Timetable(101, "K", PROFILE, SETTING, false, "", [], [])
  const LINK := Message(102, 101, None, ORGANIZER_LINK, true, "O", PHONE,
                        ToOrganizer(ORGANIZER_LINK, "O", DEFAULT_CONTACT, "T", "K"))
  const OPENING := Creating("K", PROFILE, SETTING)
  const WITH_TIMETABLE := State([OPENED], [LINK], 102)

  lemma {:induction false} Opens()
    ensures Inv(EMPTY) && After(EMPTY, [OPENING]) == WITH_TIMETABLE
  {
    EmptyInOrder();
    PhoneFits();
    SettingFits();
    Then([], OPENING);
    assert [] + [OPENING] == [OPENING] && After(EMPTY, []) == EMPTY;
  }

  lemma {:induction false} KeyOpens(s: State)
    requires |s.timetables| == 1 && s.timetables[0].manageKey == "K"
    ensures Managed(s, "K") == Some(0)
  {
    FindManagedFirst(s.timetables, "K");
  }

  // ---------- Two actors on one phone ----------

  function NewActor(id: int, name: string): Actor {
    Actor(id, name, name, PHONE, None, false, UNANSWERED)
  }

  lemma {:induction false} RegistersOne(s: State, name: string)
    requires |s.timetables| == 1 && s.timetables[0].manageKey == "K" && |s.timetables[0].actors| < MAX_ACTORS
    requires Recorded(s.timetables[0].actors, [], PHONE) == "" && Trim(name) == name
    ensures var t := s.timetables[0];
            Step(s, AddingActors("K", [Contact(name, PHONE, name)])).0 ==
            State([t.(actors := t.actors + [NewActor(s.sequence + 1, name)])], s.messages, s.sequence + 1)
  {
    var contacts := [Contact(name, PHONE, name)];
    var t := s.timetables[0];
    KeyOpens(s);
    PhoneFits();
    assert contacts[..0] == [];
    assert ContactProblem(t.actors, contacts[..0]) == Done;
    assert ContactProblem(t.actors, contacts) == Done;
    assert NewActors(contacts, s.sequence) == [NewActor(s.sequence + 1, name)];
    var u := t.(actors := t.actors + [NewActor(s.sequence + 1, name)]);
    assert s.timetables[0 := u] == [u];
  }

  const NAMELESS := AddingActors("K", [Contact("", PHONE, "")])
  const NAMED := AddingActors("K", [Contact("B", PHONE, "B")])
  const WITH_NAMELESS := State([OPENED.(actors := [NewActor(103, "")])], [LINK], 103)

  const WITH_BOTH := State([OPENED.(actors := [NewActor(103, ""), NewActor(104, "B")])], [LINK], 104)
  const BLANK := [OPENING] + [NAMELESS]
  const SHARED := BLANK + [NAMED]

  lemma {:induction false} RegistersNameless()
    ensures Step(WITH_TIMETABLE, NAMELESS).0 == WITH_NAMELESS
  {
    RegistersOne(WITH_TIMETABLE, "");
    assert OPENED.actors + [NewActor(103, "")] == [NewActor(103, "")];
  }

  lemma {:induction false} RegistersNamed()
    ensures Step(WITH_NAMELESS, NAMED).0 == WITH_BOTH
  {
    var actors := WITH_NAMELESS.timetables[0].actors;
    assert actors[..0] == [] && Recorded([], [], PHONE) == "";
    RegistersOne(WITH_NAMELESS, "B");
    assert actors + [NewActor(104, "B")] == [NewActor(103, ""), NewActor(104, "B")];
  }

  lemma {:induction false} BothShare()
    ensures !PhonesDistinct(WITH_BOTH.timetables[0].actors)
  {
    var actors := WITH_BOTH.timetables[0].actors;
    assert actors[0].phone == actors[1].phone;
  }

  /** A timetable is opened, an actor registered without a name, and then another one on the same phone. */
  lemma {:induction false} PhoneRegisteredTwice()
    ensures Inv(EMPTY) && After(EMPTY, SHARED) == WITH_BOTH && !PhonesDistinct(WITH_BOTH.timetables[0].actors)
  {
    Opens();
    RegistersNameless();
    Then([OPENING], NAMELESS);
    RegistersNamed();
    Then(BLANK, NAMED);
    BothShare();
  }

  /** One batch is enough: a contact without a name hides a later one on the same phone. */
  lemma {:induction false} PhoneTwiceInOneBatch()
    ensures var contacts := [Contact("", PHONE, "a"), Contact("B", PHONE, "b")];
            ContactProblem([], contacts) == Done && !PhonesDistinct(NewActors(contacts, 100))
  {
    var contacts := [Contact("", PHONE, "a"), Contact("B", PHONE, "b")];
    PhoneFits();
    assert contacts[..1] == [contacts[0]] && contacts[..1][..0] == [];
    assert Recorded([], [], PHONE) == "" && Recorded([], contacts[..1], PHONE) == "";
    assert ContactProblem([], contacts[..1][..0]) == Done;
    assert ContactProblem([], contacts[..1]) == Done;
    assert NewActors(contacts, 100)[0].phone == NewActors(contacts, 100)[1].phone;
  }

  // ---------- A change notice of an older wording ----------

  const HIRING := AddingActors("K", [Contact("A", PHONE, "A")])
  const PLACING := SavingBoard("K", SETTING, [Assignment(103, None, Some(FIRST))])
  const ANNOUNCING := Publishing("K")
  const SENDING := Completing([104])
  const MOVING := SavingBoard("K", SETTING, [Assignment(103, Some(FIRST), Some(SECOND))])
  const RENAMING := EditingProfile("K", RENAMED)

  const ANNA := NewActor(103, "A")
  const PLACED := ANNA.(slot := Some(FIRST))
  const INVITED := PLACED.(invited := true)
  const MOVED := INVITED.(slot := Some(SECOND))
  const PUBLISHED := OPENED.(published := true)
  const INVITATION := NewMessage(104, OPENED, ACTOR_INVITATION, Some(INVITED)).(pending := false)
  const CHANGE := NewMessage(105, OPENED, ACTOR_SCHEDULE_CHANGED, Some(MOVED))

  const WITH_ANNA := State([OPENED.(actors := [ANNA])], [LINK], 103)
  const WITH_PLACED := State([OPENED.(actors := [PLACED])], [LINK], 103)
  const WITH_INVITED := State([PUBLISHED.(actors := [INVITED])], [LINK, INVITATION.(pending := true)], 104)
  const WITH_SENT := State([PUBLISHED.(actors := [INVITED])], [LINK, INVITATION], 104)
  const WITH_MOVED := State([PUBLISHED.(actors := [MOVED])], [LINK, INVITATION, CHANGE], 105)

  lemma {:induction false} Hires()
    ensures Step(WITH_TIMETABLE, HIRING).0 == WITH_ANNA
  {
    RegistersOne(WITH_TIMETABLE, "A");
    assert OPENED.actors + [ANNA] == [ANNA];
  }

  lemma {:induction false} OneMoves(a: Actor, previous: Option<Slot>, next: Slot)
    requires a.slot == previous
    ensures MoveAll([a], [Assignment(a.id, previous, Some(next))]) ==
            Assigned.Assigned([a.(slot := Some(next), attendance := UNANSWERED)])
  {
    var batch := [Assignment(a.id, previous, Some(next))];
    assert [a][..0] == [] && batch[..0] == [];
    assert FindActor([], a.id) == None;
    assert MoveAll([a], batch[..0]) == Assigned.Assigned([a]);
  }

  lemma {:induction false} OneFits(t: Timetable, a: Actor)
    requires t.setting == SETTING && t.actors == [a] && a.slot.Some? && a.slot.value in SlotsOf(SETTING)
    ensures BoardLegal(t)
  {
    assert t.actors[..0] == [];
    assert Holders(t.actors, a.slot.value) == 1;
  }

  lemma {:induction false} Places()
    ensures Step(WITH_ANNA, PLACING).0 == WITH_PLACED
  {
    SettingFits();
    KeyOpens(WITH_ANNA);
    OneMoves(ANNA, None, FIRST);
    OneFits(OPENED.(actors := [PLACED]), PLACED);
    ExtendsReflexive(SETTING);
  }

  lemma {:induction false} Announces()
    ensures Step(WITH_PLACED, ANNOUNCING).0 == WITH_INVITED
  {
    var t := WITH_PLACED.timetables[0];
    KeyOpens(WITH_PLACED);
    PublishExact(WITH_PLACED, 0);
    InvitationsAt(t, 1, 103, 0);
    assert Invitations(t, 1, 103) == [INVITATION.(pending := true)];
    assert AllInvited(t.actors) == [INVITED];
  }

  lemma {:induction false} Sends()
    ensures Step(WITH_INVITED, SENDING).0 == WITH_SENT
  {
    var ms := WITH_INVITED.messages;
    assert ms[..1] == [LINK] && ms[..1][..0] == [];
    assert CountNamed(ms[..1], [104]) == 0 && CountNamed(ms, [104]) == 1;
    assert (set id | id in [104]) == {104};
    assert MarkSent(ms, [104]) == [LINK, INVITATION];
  }

  lemma {:induction false} Moves()
    ensures Step(WITH_SENT, MOVING).0 == WITH_MOVED
  {
    var batch := [Assignment(103, Some(FIRST), Some(SECOND))];
    var u := PUBLISHED.(actors := [MOVED]);
    SettingFits();
    KeyOpens(WITH_SENT);
    OneMoves(INVITED, Some(FIRST), SECOND);
    OneFits(u, MOVED);
    ExtendsReflexive(SETTING);
    ChangeQueuedForMoved(u, batch);
    assert Invite(u, 1, Outbox(WITH_MOVED.messages, 105), false) == (u, Outbox(WITH_MOVED.messages, 105));
    assert CloseMoved([], batch) == [];
  }

  lemma {:induction false} ChangeQueuedForMoved(u: Timetable, batch: seq<Assignment>)
    requires u == PUBLISHED.(actors := [MOVED]) && batch == [Assignment(103, Some(FIRST), Some(SECOND))]
    ensures NotifyMoved(u, batch, Outbox(WITH_SENT.messages, 104)) == Outbox(WITH_MOVED.messages, 105)
  {
    assert batch[..0] == [] && u.actors[..0] == [];
    assert FindActor(u.actors[..0], 103) == None && ActorOf(u, Some(103)) == Some(MOVED);
    assert !HasPendingNotice(WITH_SENT.messages, 103);
    assert [LINK, INVITATION] + [CHANGE] == [LINK, INVITATION, CHANGE];
  }

  // The run, call by call.
  const HIRED := [OPENING] + [HIRING]
  const PLANNED := HIRED + [PLACING]
  const PUBLIC := PLANNED + [ANNOUNCING]
  const SENT := PUBLIC + [SENDING]
  const CHANGED := SENT + [MOVING]

  lemma {:induction false} RunToPlaced()
    ensures Inv(EMPTY) && After(EMPTY, PLANNED) == WITH_PLACED
  {
    Opens();
    Hires();
    Then([OPENING], HIRING);
    Places();
    Then(HIRED, PLACING);
  }

  lemma {:induction false} RunToInvited()
    ensures Inv(EMPTY) && After(EMPTY, PUBLIC) == WITH_INVITED
  {
    RunToPlaced();
    Announces();
    Then(PLANNED, ANNOUNCING);
  }

  lemma {:induction false} RunToSent()
    ensures Inv(EMPTY) && After(EMPTY, SENT) == WITH_SENT
  {
    RunToInvited();
    Sends();
    Then(PUBLIC, SENDING);
  }

  lemma {:induction false} RunToChange()
    ensures Inv(EMPTY) && After(EMPTY, CHANGED) == WITH_MOVED
  {
    RunToSent();
    Moves();
    Then(SENT, MOVING);
  }

  lemma {:induction false} RenamingHarms()
    ensures AllChangesCurrent(WITH_MOVED) && !Harmless(WITH_MOVED, RENAMING)
  {
    KeyOpens(WITH_MOVED);
    assert WaitingChange(WITH_MOVED.messages[2], WITH_MOVED.timetables[0].actors[0].id);
  }

  /** An actor is registered, placed, invited and moved, and the timetable renamed before the change notice is sent: the
      notice that waits still carries the old title. */
  lemma {:induction false} ChangeGoesStale()
    ensures Inv(EMPTY) && AllChangesCurrent(After(EMPTY, CHANGED))
            && !AllChangesCurrent(After(EMPTY, CHANGED + [RENAMING]))
  {
    RunToChange();
    RenamingHarms();
    ChangesCurrentIff(After(EMPTY, CHANGED), RENAMING);
    Then(CHANGED, RENAMING);
  }
}

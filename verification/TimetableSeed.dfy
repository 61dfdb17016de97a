/** The two timetables the program starts with, and the messages queued for them. */
module TimetableSeed {
  import opened Wrappers
  import opened TimetableSetting
  import opened Timetable
  import opened TimetableInvariant
  import opened TimetableRuns
  import opened TimetableChanges

  const GUIDE := "지정 대사 1분과 자유 연기 1분을 준비해 주세요.\n움직이기 편한 복장으로 오세요."
  const TEMPLATE :=
    "{이름}님, 안녕하세요. {단체명}입니다.\n'{작품명}' 1차 오디션에 합격하신 것을 축하드립니다."
    + "\n\n■ 2차 오디션 일시: {오디션일시}\n■ 장소: {장소}\n■ 준비 사항\n{안내사항}"
  const LOCATION := "서울 종로구 대학로 12, 남극장 3층 연습실"
  const QUESTION := "그 주에 지방 공연이 있어서 다음 주 평일 저녁이면 좋겠습니다."
  const NAMES := ["김하늘", "이도윤", "박서연", "최민준", "정하은", "강지호", "윤채원", "임시우"]
  const DIGITS := "0123456789"

  function ProfileOf(title: string): Profile {
    Profile(title, "남극장", "김하늘", "010-9000-0000", LOCATION, GUIDE)
  }

  /** 010-g000-000n */
  function PhoneOf(g: char, n: nat): string
    requires n < 10
  {
    ['0', '1', '0', '-', g, '0', '0', '0', '-', '0', '0', '0', DIGITS[n]]
  }

  lemma {:induction false} PhoneOfFits(g: char, n: nat)
    requires n < 10 && IsDigit(g)
    ensures IsPhone(PhoneOf(g, n))
  {
    assert IsDigit(DIGITS[n]);
    assert PhoneOf(g, n)[..2] == "01";
  }

  lemma {:induction false} PhonesDiffer(g: char, m: nat, n: nat)
    requires m < n < 10
    ensures PhoneOf(g, m) != PhoneOf(g, n)
  {
    assert PhoneOf(g, m)[12] == DIGITS[m] && PhoneOf(g, n)[12] == DIGITS[n];
  }

  // ---------- The draft ----------

  /** `keys` are the access keys drawn, `first` is the day a week from now. */
  function DraftActor(keys: int -> string, i: nat): Actor
    requires i < 8
  {
    Actor(102 + i, keys(102 + i), NAMES[i], PhoneOf('1', i + 1), None, false, UNANSWERED)
  }

  function Draft(keys: int -> string, key: string, first: int): Timetable {
    Timetable(101, key, ProfileOf("남극장 정기공연 2차 오디션"),
              Setting(20, 1, [Window(first, 600, 720), Window(first, 780, 900), Window(first + 1, 840, 1020)]),
              false, "", seq(8, i requires 0 <= i < 8 => DraftActor(keys, i)), [])
  }

  lemma {:induction false} DraftGuarded(keys: int -> string, key: string, first: int)
    ensures PhonesGuarded(Draft(keys, key, first).actors)
  {
    var actors := Draft(keys, key, first).actors;
    forall i | 0 <= i < 8 ensures IsPhone(actors[i].phone) && actors[i].phone == PhoneOf('1', i + 1) {
      PhoneOfFits('1', i + 1);
    }
    forall i, j | 0 <= i < j < 8 ensures actors[i].phone != actors[j].phone {
      PhonesDiffer('1', i + 1, j + 1);
    }
  }

  lemma {:induction false} DraftOk(keys: int -> string, key: string, first: int)
    ensures TimetableOk(Draft(keys, key, first)) && Registered(Draft(keys, key, first))
  {
    DraftGuarded(keys, key, first);
    DraftBlank(Draft(keys, key, first));
  }

  /** A draft of actors none of whom has a slot. */
  lemma {:induction false} DraftBlank(t: Timetable)
    requires !t.published && forall i :: 0 <= i < |t.actors| ==>
               t.actors[i].slot.None? && !t.actors[i].invited && t.actors[i].attendance == UNANSWERED
    ensures BoardLegal(t) && Settled(t) && (IdsIncrease(t.actors) ==> ActorsOk(t))
  {
  }

  // ---------- The published timetable ----------

  function Invitee(id: int, key: string, name: string, n: nat, slot: Option<Slot>, answer: Attendance): Actor
    requires n < 10
  {
    Actor(id, key, name, PhoneOf('2', n), slot, slot.Some?, answer)
  }

  function Invitees(keys: int -> string, key: string, first: int): seq<Actor> {
    [Invitee(110, key, "김배우", 1, Some(Slot(first, 600)), ATTENDING),
     Invitee(111, keys(111), "이배우", 2, Some(Slot(first, 630)), UNANSWERED),
     Invitee(112, keys(112), "박배우", 3, Some(Slot(first, 690)), ABSENT),
     Invitee(113, keys(113), "최배우", 4, Some(Slot(first, 690)), UNANSWERED),
     Invitee(114, keys(114), "정배우", 5, None, UNANSWERED)]
  }

  function Published(keys: int -> string, manageKey: string, key: string, first: int): Timetable {
    Timetable(115, manageKey, ProfileOf("남극장 신작 리딩 오디션"),
              Setting(30, 2, [Window(first, 600, 780), Window(first + 1, 900, 1080)]),
              true, TEMPLATE, Invitees(keys, key, first), [Request(116, 113, QUESTION, true)])
  }

  lemma {:induction false} SlotsOffered(s: Setting, first: int)
    requires s == Setting(30, 2, [Window(first, 600, 780), Window(first + 1, 900, 1080)])
    ensures Slot(first, 600) in SlotsOf(s) && Slot(first, 630) in SlotsOf(s) && Slot(first, 690) in SlotsOf(s)
  {
    var w := s.windows[0];
    assert 600 == NthStart(600, 0, 30) && 630 == NthStart(600, 1, 30) && 690 == NthStart(600, 3, 30);
    assert SlotInWindow(Slot(first, 600), w, 600, 30) && SlotInWindow(Slot(first, 630), w, 600, 30);
    assert SlotInWindow(Slot(first, 690), w, 600, 30);
    SlotsExact(s.windows, 30, Slot(first, 600));
    SlotsExact(s.windows, 30, Slot(first, 630));
    SlotsExact(s.windows, 30, Slot(first, 690));
  }

  function Counts(a: Actor, slot: Slot): nat {
    if a.slot == Some(slot) then 1 else 0
  }

  lemma {:induction false} FiveHolders(actors: seq<Actor>, slot: Slot)
    requires |actors| == 5
    ensures Holders(actors, slot) == Counts(actors[0], slot) + Counts(actors[1], slot) + Counts(actors[2], slot)
                                     + Counts(actors[3], slot) + Counts(actors[4], slot)
  {
    assert actors[..4][..3] == actors[..3] && actors[..3][..2] == actors[..2] && actors[..2][..1] == actors[..1];
    assert actors[..1][..0] == [];
    assert Holders(actors[..1], slot) == Counts(actors[0], slot);
    assert Holders(actors[..2], slot) == Holders(actors[..1], slot) + Counts(actors[1], slot);
    assert Holders(actors[..3], slot) == Holders(actors[..2], slot) + Counts(actors[2], slot);
    assert Holders(actors[..4], slot) == Holders(actors[..3], slot) + Counts(actors[3], slot);
  }

  lemma {:induction false} PublishedLegal(keys: int -> string, manageKey: string, key: string, first: int)
    ensures BoardLegal(Published(keys, manageKey, key, first))
  {
    var t := Published(keys, manageKey, key, first);
    SlotsOffered(t.setting, first);
    forall i | 0 <= i < 5 ensures ActorPlaced(t, t.actors[i]) {
      if t.actors[i].slot.Some? {
        FiveHolders(t.actors, t.actors[i].slot.value);
      }
    }
  }

  lemma {:induction false} PublishedActorsOk(t: Timetable, keys: int -> string, key: string, first: int)
    requires t.published && t.actors == Invitees(keys, key, first)
    ensures ActorsOk(t) && Settled(t)
  {
  }

  lemma {:induction false} PublishedOk(keys: int -> string, manageKey: string, key: string, first: int)
    ensures TimetableOk(Published(keys, manageKey, key, first)) && Registered(Published(keys, manageKey, key, first))
  {
    var t := Published(keys, manageKey, key, first);
    PublishedLegal(keys, manageKey, key, first);
    PublishedActorsOk(t, keys, key, first);
    InviteesGuarded(keys, key, first);
    assert t.actors[3].id == 113;
  }

  lemma {:induction false} InviteesGuarded(keys: int -> string, key: string, first: int)
    ensures PhonesGuarded(Invitees(keys, key, first))
  {
    var actors := Invitees(keys, key, first);
    forall i | 0 <= i < 5 ensures IsPhone(actors[i].phone) && actors[i].phone == PhoneOf('2', i + 1) {
      PhoneOfFits('2', i + 1);
    }
    forall i, j | 0 <= i < j < 5 ensures actors[i].phone != actors[j].phone {
      PhonesDiffer('2', i + 1, j + 1);
    }
  }

  // ---------- Together ----------

  /** The invitations of the four invited actors and the notice about the open request, in this order. */
  function Queued(t: Timetable): seq<Message>
    requires |t.actors| == 5
  {
    [NewMessage(117, t, ACTOR_INVITATION, Some(t.actors[0])), NewMessage(118, t, ACTOR_INVITATION, Some(t.actors[1])),
     NewMessage(119, t, ACTOR_INVITATION, Some(t.actors[2])), NewMessage(120, t, ACTOR_INVITATION, Some(t.actors[3])),
     NewMessage(121, t, ORGANIZER_TIME_REQUEST, None)]
  }

  /** The store with those messages written down. */
  function Laid(keys: int -> string, draftKey: string, manageKey: string, key: string, first: int): State {
    var published := Published(keys, manageKey, key, first);
    State([Draft(keys, draftKey, first), published], Queued(published), 121)
  }

  /** The messages as the program queues them: the first n actors are invited one after the other. */
  function Invitations(t: Timetable, n: nat): Outbox
    requires n <= |t.actors|
  {
    if n == 0 then Outbox([], 116)
    else Queue(Invitations(t, n - 1), t, ACTOR_INVITATION, Some(t.actors[n - 1]))
  }

  function AllQueued(t: Timetable): Outbox
    requires |t.actors| == 5
  {
    Queue(Invitations(t, 4), t, ORGANIZER_TIME_REQUEST, None)
  }

  /** The store the program starts with. */
  function Seed(keys: int -> string, draftKey: string, manageKey: string, key: string, first: int): State {
    var published := Published(keys, manageKey, key, first);
    var box := AllQueued(published);
    State([Draft(keys, draftKey, first), published], box.messages, box.sequence)
  }

  lemma {:induction false} QueuedAt(t: Timetable, n: nat)
    requires |t.actors| == 5 && 0 < n <= 4
    ensures Queued(t)[n - 1] == NewMessage(116 + n, t, ACTOR_INVITATION, Some(t.actors[n - 1]))
  {
    if n == 1 {
      assert Queued(t)[0] == NewMessage(117, t, ACTOR_INVITATION, Some(t.actors[0]));
    } else if n == 2 {
      assert Queued(t)[1] == NewMessage(118, t, ACTOR_INVITATION, Some(t.actors[1]));
    } else if n == 3 {
      assert Queued(t)[2] == NewMessage(119, t, ACTOR_INVITATION, Some(t.actors[2]));
    } else {
      assert Queued(t)[3] == NewMessage(120, t, ACTOR_INVITATION, Some(t.actors[3]));
    }
  }

  lemma {:induction false} InvitationsQueued(t: Timetable, n: nat)
    requires |t.actors| == 5 && n <= 4
    ensures Invitations(t, n) == Outbox(Queued(t)[..n], 116 + n)
  {
    if n > 0 {
      InvitationsQueued(t, n - 1);
      QueuedAt(t, n);
      OneMoreOf(Queued(t), n);
      InvitationPushed(Invitations(t, n - 1), t, t.actors[n - 1]);
    }
  }

  lemma {:induction false} InvitationPushed(box: Outbox, t: Timetable, a: Actor)
    ensures Queue(box, t, ACTOR_INVITATION, Some(a)) ==
            Outbox(box.messages + [NewMessage(box.sequence + 1, t, ACTOR_INVITATION, Some(a))], box.sequence + 1)
  {
  }

  lemma {:induction false} OneMoreOf(ms: seq<Message>, n: nat)
    requires 0 < n <= |ms|
    ensures ms[..n] == ms[..n - 1] + [ms[n - 1]]
  {
  }

  lemma {:induction false} AllQueuedInOrder(t: Timetable)
    requires |t.actors| == 5
    ensures AllQueued(t) == Outbox(Queued(t), 121)
  {
    InvitationsQueued(t, 4);
    var ms := Queued(t)[..4];
    forall j | 0 <= j < 4 ensures !PendingTimeRequest(ms[j], t.id) {
      assert ms[j] == Queued(t)[j];
    }
    assert ms + [Queued(t)[4]] == Queued(t);
  }

  lemma {:induction false} SeedIdsOk(keys: int -> string, draftKey: string, manageKey: string, key: string, first: int)
    ensures var draft, published := Draft(keys, draftKey, first), Published(keys, manageKey, key, first);
            ActorsApart(draft, published) && IdsWithin(draft, 121) && IdsWithin(published, 121)
  {
    var draft, published := Draft(keys, draftKey, first), Published(keys, manageKey, key, first);
    assert forall i :: 0 <= i < 8 ==> draft.actors[i].id == 102 + i;
    assert forall i :: 0 <= i < 5 ==> published.actors[i].id == 110 + i;
  }

  lemma {:induction false} SeedFits(t: Timetable, keys: int -> string, manageKey: string, key: string, first: int)
    requires t == Published(keys, manageKey, key, first)
    ensures Fits(t, Queued(t), {})
  {
    var ms := Queued(t);
    forall i | 0 <= i < 5 ensures ActorFits(t, t.actors[i], ms, {}) {
      if i < 4 {
        assert ms[i].kind == ACTOR_INVITATION && ms[i].actorId == Some(t.actors[i].id);
      }
      forall j | 0 <= j < |ms| && ms[j].actorId == Some(t.actors[i].id) ensures Matches(t, t.actors[i], ms[j], false) {
        assert j == i;
      }
    }
  }

  lemma {:induction false} FiveInOrder(ms: seq<Message>)
    requires |ms| == 5 && forall j :: 0 <= j < 5 ==> ms[j].id == 117 + j
    requires forall j :: 0 <= j < 4 ==> ms[j].kind == ACTOR_INVITATION && ms[j].actorId == Some(110 + j)
    requires ms[4].kind == ORGANIZER_TIME_REQUEST && ms[4].actorId.None?
    ensures QueueOk(Outbox(ms, 121))
  {
    forall i, j | 0 <= i < j < 5 ensures !Clash(ms[i], ms[j]) {
      assert ms[i].actorId == Some(110 + i);
    }
  }

  lemma {:induction false} SeedQueueOk(t: Timetable)
    requires |t.actors| == 5 && forall i :: 0 <= i < 5 ==> t.actors[i].id == 110 + i
    ensures QueueOk(Outbox(Queued(t), 121))
  {
    FiveInOrder(Queued(t));
  }

  lemma {:induction false} SeedToActors(t: Timetable)
    requires |t.actors| == 5
    ensures forall j :: 0 <= j < 5 ==> !IsWaitingChange(Queued(t)[j])
    ensures forall j :: 0 <= j < 4 ==> Queued(t)[j].actorId.Some? && HasId(t.actors, Queued(t)[j].actorId.value)
  {
    forall j | 0 <= j < 4 ensures Queued(t)[j].actorId.Some? && HasId(t.actors, Queued(t)[j].actorId.value) {
      assert Queued(t)[j].actorId == Some(t.actors[j].id);
    }
  }

  lemma {:induction false} SeedNoOrphans(ts: seq<Timetable>, ms: seq<Message>)
    requires |ts| == 2 && |ms| == 5 && ms[4].actorId.None?
    requires forall j :: 0 <= j < 4 ==> ms[j].actorId.Some? && HasId(ts[1].actors, ms[j].actorId.value)
    ensures NoOrphans(ts, ms)
  {
    forall j | 0 <= j < 4 ensures IsLive(ts, ms[j].actorId.value) {
      assert HasId(ts[1].actors, ms[j].actorId.value);
    }
  }

  lemma {:induction false} DraftUntold(t: Timetable, ms: seq<Message>)
    requires forall i :: 0 <= i < |t.actors| ==> t.actors[i].id < 110 && !t.actors[i].invited
    requires forall j :: 0 <= j < |ms| ==> ms[j].actorId.None? || ms[j].actorId.value >= 110
    ensures Fits(t, ms, {})
  {
  }

  lemma {:induction false} SeedTold(keys: int -> string, draftKey: string, manageKey: string, key: string, first: int)
    ensures var s := Laid(keys, draftKey, manageKey, key, first);
            Fits(s.timetables[0], s.messages, {}) && Fits(s.timetables[1], s.messages, {})
  {
    var s := Laid(keys, draftKey, manageKey, key, first);
    assert s.messages == Queued(Published(keys, manageKey, key, first));
    SeedFits(s.timetables[1], keys, manageKey, key, first);
    DraftNotTold(keys, draftKey, first, Published(keys, manageKey, key, first));
  }

  lemma {:induction false} DraftNotTold(keys: int -> string, draftKey: string, first: int, t: Timetable)
    requires |t.actors| == 5 && forall i :: 0 <= i < 5 ==> t.actors[i].id == 110 + i
    ensures Fits(Draft(keys, draftKey, first), Queued(t), {})
  {
    DraftUntold(Draft(keys, draftKey, first), Queued(t));
  }

  lemma {:induction false} SeedParts(s: State, draft: Timetable, published: Timetable)
    requires s.timetables == [draft, published]
    requires draft.id < published.id && ActorsApart(draft, published)
    requires IdsWithin(draft, s.sequence) && IdsWithin(published, s.sequence)
    requires QueueOk(Box(s)) && NoOrphans(s.timetables, s.messages)
    requires TimetableOk(draft) && TimetableOk(published) && Registered(draft) && Registered(published)
    requires Fits(draft, s.messages, {}) && Fits(published, s.messages, {})
    requires forall j :: 0 <= j < |s.messages| ==> !IsWaitingChange(s.messages[j])
    ensures Inv(s) && AllRegistered(s) && AllChangesCurrent(s)
  {
  }

  lemma {:induction false} SeedQueue(keys: int -> string, draftKey: string, manageKey: string, key: string, first: int)
    ensures var s := Laid(keys, draftKey, manageKey, key, first);
            && QueueOk(Box(s)) && NoOrphans(s.timetables, s.messages)
            && forall j :: 0 <= j < |s.messages| ==> !IsWaitingChange(s.messages[j])
  {
    var s := Laid(keys, draftKey, manageKey, key, first);
    var t := s.timetables[1];
    SeedQueueOk(t);
    SeedToActors(t);
    SeedNoOrphans(s.timetables, s.messages);
  }

  lemma {:induction false} LaidInOrder(keys: int -> string, draftKey: string, manageKey: string, key: string,
                                       first: int)
    ensures var s := Laid(keys, draftKey, manageKey, key, first);
            Inv(s) && AllRegistered(s) && AllChangesCurrent(s)
  {
    var s := Laid(keys, draftKey, manageKey, key, first);
    SeedIdsOk(keys, draftKey, manageKey, key, first);
    SeedQueue(keys, draftKey, manageKey, key, first);
    DraftOk(keys, draftKey, first);
    PublishedOk(keys, manageKey, key, first);
    SeedTold(keys, draftKey, manageKey, key, first);
    SeedParts(s, Draft(keys, draftKey, first), Published(keys, manageKey, key, first));
  }

  /** The store the program starts with is in order, so every run theorem holds from it on. */
  lemma {:induction false} SeedInOrder(keys: int -> string, draftKey: string, manageKey: string, key: string,
                                       first: int)
    ensures var s := Seed(keys, draftKey, manageKey, key, first);
            Inv(s) && AllRegistered(s) && AllChangesCurrent(s)
  {
    AllQueuedInOrder(Published(keys, manageKey, key, first));
    assert Seed(keys, draftKey, manageKey, key, first) == Laid(keys, draftKey, manageKey, key, first);
    LaidInOrder(keys, draftKey, manageKey, key, first);
  }
}

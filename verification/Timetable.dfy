/** Audition timetables: drafting, publishing, moving actors between slots, and the queue of text messages that
    follows every change. Each handler is one step from state to state. */
module Timetable {
  import opened Wrappers
  import opened TimetableSetting

  datatype Attendance = UNANSWERED | ATTENDING | ABSENT

  datatype Actor = Actor(id: int, accessKey: string, name: string, phone: string,
                         slot: Option<Slot>, invited: bool, attendance: Attendance)

  datatype Request = Request(id: int, actorId: int, message: string, open: bool)

  datatype Profile = Profile(title: string, organizer: string, contact: string, phone: string, location: string,
                             guide: string)

  datatype Timetable = Timetable(id: int, manageKey: string, profile: Profile, setting: Setting, published: bool,
                                 template: string, actors: seq<Actor>, requests: seq<Request>)

  datatype Kind = ORGANIZER_LINK | ORGANIZER_TIME_REQUEST | ACTOR_INVITATION | ACTOR_SCHEDULE_CHANGED

  /** The text of a message, as the values it is composed from. Equal values give equal text. */
  datatype Text =
    | ToOrganizer(kind: Kind, organizer: string, contact: string, title: string, manageKey: string)
    | Invitation(template: string, actorName: string, title: string, organizer: string, schedule: Option<(Slot, int)>,
                 location: string, guide: string, accessKey: string)
    | Change(actorName: string, organizer: string, title: string, accessKey: string)

  datatype Message = Message(id: int, timetableId: int, actorId: Option<int>, kind: Kind, pending: bool,
                             recipientName: string, recipientPhone: string, body: Text)

  /** `sequence` is the last id given to anything. */
  datatype State = State(timetables: seq<Timetable>, messages: seq<Message>, sequence: int)

  /** Messages and ids, the part of the state that queueing changes. */
  datatype Outbox = Outbox(messages: seq<Message>, sequence: int)

  const EMPTY := State([], [], 100)
  const MAX_ACTORS := 300
  const MAX_TEMPLATE := 1000
  const MAX_REQUEST := 300
  const DEFAULT_TEMPLATE := "지원자 {이름}님, 안녕하세요.\n{단체명} 오디션에 합격하셨습니다.\n아래 링크에서 '{작품명}' 오디션 일정을 확인해 주세요."
  const DEFAULT_CONTACT := "담당자"

  datatype Outcome =
    | Done | TimetableNotFound | Invalid | NotExtendable | ActorNotFound | AssignmentConflict | SlotUnavailable
    | TooManyActors | DuplicateActor | NotPublishable | RequestNotFound | MessageNotFound

  datatype Assignment = Assignment(actorId: int, previous: Option<Slot>, next: Option<Slot>)

  /** A contact to register, with the access key drawn for it. */
  datatype Contact = Contact(name: string, phone: string, accessKey: string)

  // ---------- Text ----------

  predicate IsSpace(c: char) {
    c == ' ' || c == '\n' || c == '\r' || c == '\t'
  }

  function Trim(s: string): string {
    if s != [] && IsSpace(s[0]) then Trim(s[1..])
    else if s != [] && IsSpace(s[|s| - 1]) then Trim(s[..|s| - 1])
    else s
  }

  predicate IsDigit(c: char) {
    '0' <= c <= '9'
  }

  /** 01d-ddd-dddd or 01d-dddd-dddd */
  predicate IsPhone(s: string) {
    && 12 <= |s| <= 13 && s[..2] == "01" && s[3] == '-' && s[|s| - 5] == '-'
    && forall i :: 2 <= i < |s| ==> i == 3 || i == |s| - 5 || IsDigit(s[i])
  }

  function Body(t: Timetable, kind: Kind, actor: Option<Actor>): Text {
    var p := t.profile;
    var (name, key, slot) := match actor case None => ("", "", None) case Some(a) => (a.name, a.accessKey, a.slot);
    match kind
    case ACTOR_INVITATION =>
      Invitation(if t.template == "" then DEFAULT_TEMPLATE else t.template, name, p.title, p.organizer,
                 match slot case None => None case Some(at) => Some((at, t.setting.minutes)),
                 p.location, p.guide, key)
    case ACTOR_SCHEDULE_CHANGED => Change(name, p.organizer, p.title, key)
    case _ =>
      ToOrganizer(kind, p.organizer, if p.contact == "" then DEFAULT_CONTACT else p.contact, p.title, t.manageKey)
  }

  // ---------- Lookups ----------

  function FindActor(actors: seq<Actor>, id: int): Option<nat> {
    if actors == [] then None
    else
      var found := FindActor(actors[..|actors| - 1], id);
      if found.Some? then found else if actors[|actors| - 1].id == id then Some(|actors| - 1) else None
  }

  function FindManaged(ts: seq<Timetable>, key: string): Option<nat> {
    if ts == [] then None
    else
      var found := FindManaged(ts[..|ts| - 1], key);
      if found.Some? then found else if ts[|ts| - 1].manageKey == key then Some(|ts| - 1) else None
  }

  function FindKey(actors: seq<Actor>, key: string): Option<nat> {
    if actors == [] then None
    else
      var found := FindKey(actors[..|actors| - 1], key);
      if found.Some? then found else if actors[|actors| - 1].accessKey == key then Some(|actors| - 1) else None
  }

  /** The first timetable with an actor of that key, and the actor. */
  function FindKeyHolder(ts: seq<Timetable>, key: string): Option<(nat, nat)> {
    if ts == [] then None
    else
      var found, last := FindKeyHolder(ts[..|ts| - 1], key), |ts| - 1;
      if found.Some? then found
      else match FindKey(ts[last].actors, key) case None => None case Some(i) => Some((last, i))
  }

  lemma {:induction false} FindActorExact(actors: seq<Actor>, id: int)
    ensures match FindActor(actors, id)
            case None => forall i :: 0 <= i < |actors| ==> actors[i].id != id
            case Some(i) => i < |actors| && actors[i].id == id
  {
    if actors != [] {
      FindActorExact(actors[..|actors| - 1], id);
    }
  }

  lemma {:induction false} FindManagedExact(ts: seq<Timetable>, key: string)
    ensures FindManaged(ts, key).Some? ==> FindManaged(ts, key).value < |ts|
  {
    if ts != [] {
      FindManagedExact(ts[..|ts| - 1], key);
    }
  }

  lemma {:induction false} FindKeyExact(actors: seq<Actor>, key: string)
    ensures FindKey(actors, key).Some? ==> FindKey(actors, key).value < |actors|
  {
    if actors != [] {
      FindKeyExact(actors[..|actors| - 1], key);
    }
  }

  lemma {:induction false} FindKeyHolderExact(ts: seq<Timetable>, key: string)
    ensures match FindKeyHolder(ts, key)
            case None => true
            case Some((k, i)) => k < |ts| && i < |ts[k].actors|
  {
    if ts != [] {
      FindKeyHolderExact(ts[..|ts| - 1], key);
      FindKeyExact(ts[|ts| - 1].actors, key);
    }
  }

  /** The timetable a management key opens. */
  function Managed(s: State, key: string): (k: Option<nat>)
    ensures k.Some? ==> k.value < |s.timetables|
  {
    FindManagedExact(s.timetables, key);
    FindManaged(s.timetables, key)
  }

  /** The timetable and actor an access key opens: only for an invited actor of a published timetable. */
  function Accessed(s: State, key: string): (at: Option<(nat, nat)>)
    ensures at.Some? ==> at.value.0 < |s.timetables| && at.value.1 < |s.timetables[at.value.0].actors|
  {
    FindKeyHolderExact(s.timetables, key);
    match FindKeyHolder(s.timetables, key)
    case None => None
    case Some((k, i)) => if s.timetables[k].published && s.timetables[k].actors[i].invited then Some((k, i)) else None
  }

  // ---------- The message queue ----------

  predicate IsNotice(kind: Kind) {
    kind == ACTOR_INVITATION || kind == ACTOR_SCHEDULE_CHANGED
  }

  predicate PendingNotice(m: Message, actorId: int) {
    m.pending && m.actorId == Some(actorId) && IsNotice(m.kind)
  }

  predicate PendingTimeRequest(m: Message, timetableId: int) {
    m.pending && m.timetableId == timetableId && m.kind == ORGANIZER_TIME_REQUEST
  }

  predicate HasPendingNotice(ms: seq<Message>, actorId: int) {
    exists j :: 0 <= j < |ms| && PendingNotice(ms[j], actorId)
  }

  predicate HasPendingTimeRequest(ms: seq<Message>, timetableId: int) {
    exists j :: 0 <= j < |ms| && PendingTimeRequest(ms[j], timetableId)
  }

  function Reworded(t: Timetable, a: Actor, m: Message): Message {
    if PendingNotice(m, a.id) then m.(body := Body(t, m.kind, Some(a))) else m
  }

  function RewordAll(t: Timetable, a: Actor, ms: seq<Message>): (r: seq<Message>)
    ensures |r| == |ms| && forall j :: 0 <= j < |ms| ==> r[j] == Reworded(t, a, ms[j])
  {
    if ms == [] then [] else RewordAll(t, a, ms[..|ms| - 1]) + [Reworded(t, a, ms[|ms| - 1])]
  }

  function NewMessage(id: int, t: Timetable, kind: Kind, actor: Option<Actor>): Message {
    match actor
    case None => Message(id, t.id, None, kind, true, t.profile.organizer, t.profile.phone, Body(t, kind, None))
    case Some(a) => Message(id, t.id, Some(a.id), kind, true, a.name, a.phone, Body(t, kind, actor))
  }

  function Push(box: Outbox, t: Timetable, kind: Kind, actor: Option<Actor>): Outbox {
    Outbox(box.messages + [NewMessage(box.sequence + 1, t, kind, actor)], box.sequence + 1)
  }

  /** A change notice is folded into a notice still waiting to be sent; a second time request into the first. */
  function Queue(box: Outbox, t: Timetable, kind: Kind, actor: Option<Actor>): Outbox {
    if kind == ACTOR_SCHEDULE_CHANGED && actor.Some? && HasPendingNotice(box.messages, actor.value.id)
    then box.(messages := RewordAll(t, actor.value, box.messages))
    else if kind == ORGANIZER_TIME_REQUEST && HasPendingTimeRequest(box.messages, t.id) then box
    else Push(box, t, kind, actor)
  }

  predicate PendingInvitation(m: Message, timetableId: int) {
    m.pending && m.timetableId == timetableId && m.kind == ACTOR_INVITATION
  }

  function ActorOf(t: Timetable, id: Option<int>): Option<Actor> {
    if id.None? then None
    else
      FindActorExact(t.actors, id.value);
      match FindActor(t.actors, id.value) case None => None case Some(i) => Some(t.actors[i])
  }

  function Refreshed(t: Timetable, m: Message): Message {
    if PendingInvitation(m, t.id) then m.(body := Body(t, ACTOR_INVITATION, ActorOf(t, m.actorId))) else m
  }

  /** Renders the waiting invitations of a timetable anew. */
  function RefreshAll(t: Timetable, ms: seq<Message>): (r: seq<Message>)
    ensures |r| == |ms| && forall j :: 0 <= j < |ms| ==> r[j] == Refreshed(t, ms[j])
  {
    if ms == [] then [] else RefreshAll(t, ms[..|ms| - 1]) + [Refreshed(t, ms[|ms| - 1])]
  }

  // ---------- The board ----------

  function Holders(actors: seq<Actor>, slot: Slot): nat {
    if actors == [] then 0
    else Holders(actors[..|actors| - 1], slot) + if actors[|actors| - 1].slot == Some(slot) then 1 else 0
  }

  predicate ActorPlaced(t: Timetable, a: Actor) {
    match a.slot
    case Some(slot) => slot in SlotsOf(t.setting) && Holders(t.actors, slot) <= t.setting.capacity
    case None => !(t.published && a.invited)
  }

  /** Every assigned slot is offered and within capacity, and no invited actor is without one. */
  predicate BoardLegal(t: Timetable) {
    forall i :: 0 <= i < |t.actors| ==> ActorPlaced(t, t.actors[i])
  }

  predicate Extends(wider: Setting, s: Setting) {
    && wider.minutes == s.minutes && wider.capacity >= s.capacity
    && forall k :: 0 <= k < |SlotsOf(s)| ==> SlotsOf(s)[k] in SlotsOf(wider)
  }

  datatype Assigned = Failed(outcome: Outcome) | Assigned(actors: seq<Actor>)

  function Move(actors: seq<Actor>, a: Assignment): (r: Assigned)
    ensures r.Failed? ==> r.outcome in {ActorNotFound, AssignmentConflict}
  {
    FindActorExact(actors, a.actorId);
    match FindActor(actors, a.actorId)
    case None => Failed(ActorNotFound)
    case Some(i) =>
      if actors[i].slot != a.previous then Failed(AssignmentConflict)
      else Assigned(actors[i := actors[i].(slot := a.next, attendance := UNANSWERED)])
  }

  /** The assignments one after the other, each against the slots its predecessors left. */
  function MoveAll(actors: seq<Actor>, assignments: seq<Assignment>): (r: Assigned)
    ensures r.Failed? ==> r.outcome in {ActorNotFound, AssignmentConflict}
  {
    if assignments == [] then Assigned(actors)
    else
      var before := MoveAll(actors, assignments[..|assignments| - 1]);
      if before.Failed? then before else Move(before.actors, assignments[|assignments| - 1])
  }

  function NotifyOne(t: Timetable, actorId: int, box: Outbox): Outbox {
    var a := ActorOf(t, Some(actorId));
    if a.Some? && a.value.invited then Queue(box, t, ACTOR_SCHEDULE_CHANGED, a) else box
  }

  /** Tells every moved actor that had been invited, in the order of the assignments. */
  function NotifyMoved(t: Timetable, moved: seq<Assignment>, box: Outbox): Outbox {
    if moved == [] then box
    else NotifyOne(t, moved[|moved| - 1].actorId, NotifyMoved(t, moved[..|moved| - 1], box))
  }

  predicate ToInvite(a: Actor, everyone: bool) {
    everyone || (a.slot.Some? && !a.invited)
  }

  function InviteOne(t: Timetable, i: nat, box: Outbox, everyone: bool): (r: (Timetable, Outbox))
    requires i < |t.actors|
    ensures |r.0.actors| == |t.actors|
  {
    if ToInvite(t.actors[i], everyone) then
      var a := t.actors[i].(invited := true);
      var u := t.(actors := t.actors[i := a]);
      (u, Queue(box, u, ACTOR_INVITATION, Some(a)))
    else (t, box)
  }

  /** Invites among the first n actors, telling each. */
  function Invite(t: Timetable, n: nat, box: Outbox, everyone: bool): (r: (Timetable, Outbox))
    requires n <= |t.actors|
    ensures |r.0.actors| == |t.actors|
  {
    if n == 0 then (t, box)
    else
      var (u, before) := Invite(t, n - 1, box, everyone);
      InviteOne(u, n - 1, before, everyone)
  }

  predicate MovedIn(assignments: seq<Assignment>, actorId: int) {
    exists j :: 0 <= j < |assignments| && assignments[j].actorId == actorId
  }

  function CloseMoved(requests: seq<Request>, moved: seq<Assignment>): (r: seq<Request>)
    ensures |r| == |requests|
    ensures forall j :: 0 <= j < |r| ==>
              r[j] == if MovedIn(moved, requests[j].actorId) then requests[j].(open := false) else requests[j]
  {
    if requests == [] then []
    else
      var last := requests[|requests| - 1];
      CloseMoved(requests[..|requests| - 1], moved) +
        [if MovedIn(moved, last.actorId) then last.(open := false) else last]
  }

  /** What follows a board change: nothing while drafting, messages and closed requests once published. */
  function Announce(t: Timetable, moved: seq<Assignment>, box: Outbox): (Timetable, Outbox) {
    if !t.published then (t, box)
    else
      var (u, told) := Invite(t, |t.actors|, NotifyMoved(t, moved, box), false);
      (u.(requests := CloseMoved(u.requests, moved)), told)
  }

  // ---------- Registering actors ----------

  /** The name recorded last for a phone among existing actors and the contacts before. */
  function Recorded(actors: seq<Actor>, contacts: seq<Contact>, phone: string): string {
    if contacts != [] then
      if contacts[|contacts| - 1].phone == phone then contacts[|contacts| - 1].name
      else Recorded(actors, contacts[..|contacts| - 1], phone)
    else if actors != [] then
      if actors[|actors| - 1].phone == phone then actors[|actors| - 1].name
      else Recorded(actors[..|actors| - 1], [], phone)
    else ""
  }

  /** A recorded name that is empty does not stop its phone from being registered again. */
  function ContactProblem(actors: seq<Actor>, contacts: seq<Contact>): Outcome {
    if contacts == [] then Done
    else
      var init, last := contacts[..|contacts| - 1], contacts[|contacts| - 1];
      var before := ContactProblem(actors, init);
      if before != Done then before
      else if !IsPhone(last.phone) then Invalid
      else if Recorded(actors, init, last.phone) != "" then DuplicateActor
      else Done
  }

  function NewActors(contacts: seq<Contact>, sequence: int): (r: seq<Actor>)
    ensures |r| == |contacts|
    ensures forall j :: 0 <= j < |r| ==>
              r[j] == Actor(sequence + 1 + j, contacts[j].accessKey, Trim(contacts[j].name), contacts[j].phone, None,
                false, UNANSWERED)
  {
    if contacts == [] then []
    else
      var last := contacts[|contacts| - 1];
      NewActors(contacts[..|contacts| - 1], sequence) +
      [Actor(sequence + |contacts|, last.accessKey, Trim(last.name), last.phone, None, false, UNANSWERED)]
  }

  // ---------- Removing an actor ----------

  function WithoutActor(actors: seq<Actor>, id: int): seq<Actor> {
    if actors == [] then []
    else
      var rest, last := WithoutActor(actors[..|actors| - 1], id), actors[|actors| - 1];
      if last.id == id then rest else rest + [last]
  }

  function WithoutRequests(requests: seq<Request>, actorId: int): seq<Request> {
    if requests == [] then []
    else
      var rest, last := WithoutRequests(requests[..|requests| - 1], actorId), requests[|requests| - 1];
      if last.actorId == actorId then rest else rest + [last]
  }

  function WithoutPending(ms: seq<Message>, actorId: int): seq<Message> {
    if ms == [] then []
    else
      var rest, last := WithoutPending(ms[..|ms| - 1], actorId), ms[|ms| - 1];
      if last.actorId == Some(actorId) && last.pending then rest else rest + [last]
  }

  // ---------- Handlers ----------

  predicate ProfileAccepted(p: Profile) {
    Trim(p.title) != "" && Trim(p.organizer) != ""
  }

  function Box(s: State): Outbox {
    Outbox(s.messages, s.sequence)
  }

  /** The state with one timetable and the outbox replaced. */
  function With(s: State, k: nat, t: Timetable, box: Outbox): State
    requires k < |s.timetables|
  {
    State(s.timetables[k := t], box.messages, box.sequence)
  }

  ghost function Create(s: State, manageKey: string, profile: Profile, setting: Setting): (State, Outcome) {
    if !ProfileAccepted(profile) || !IsPhone(profile.phone) then (s, Invalid)
    else if !ValidSetting(setting) then (s, Invalid)
    else
      var t := Timetable(s.sequence + 1, manageKey, profile, setting, false, "", [], []);
      var box := Queue(Outbox(s.messages, s.sequence + 1), t, ORGANIZER_LINK, None);
      (State(s.timetables + [t], box.messages, box.sequence), Done)
  }

  /** A timetable whose invitations are rendered anew. */
  function Refresh(s: State, k: nat, t: Timetable): State
    requires k < |s.timetables|
  {
    With(s, k, t, Outbox(RefreshAll(t, s.messages), s.sequence))
  }

  function EditProfileAt(s: State, k: nat, profile: Profile): (State, Outcome)
    requires k < |s.timetables|
  {
    if !ProfileAccepted(profile) then (s, Invalid)
    else (Refresh(s, k, s.timetables[k].(profile := profile)), Done)
  }

  function EditProfile(s: State, key: string, profile: Profile): (State, Outcome) {
    match Managed(s, key)
    case None => (s, TimetableNotFound)
    case Some(k) => EditProfileAt(s, k, profile)
  }

  function EditTemplateAt(s: State, k: nat, template: string): (State, Outcome)
    requires k < |s.timetables|
  {
    var normalized := Trim(template);
    if |normalized| > MAX_TEMPLATE then (s, Invalid)
    else
      (Refresh(s, k, s.timetables[k].(template := if normalized == DEFAULT_TEMPLATE then "" else normalized)), Done)
  }

  function EditTemplate(s: State, key: string, template: string): (State, Outcome) {
    match Managed(s, key)
    case None => (s, TimetableNotFound)
    case Some(k) => EditTemplateAt(s, k, template)
  }

  ghost function SaveBoardAt(s: State, k: nat, setting: Setting, assignments: seq<Assignment>): (State, Outcome)
    requires k < |s.timetables|
  {
    var t := s.timetables[k];
    if !ValidSetting(setting) then (s, Invalid)
    else if !Extends(setting, t.setting) then (s, NotExtendable)
    else
      match MoveAll(t.actors, assignments)
      case Failed(outcome) => (s, outcome)
      case Assigned(actors) =>
        var u := t.(setting := setting, actors := actors);
        if !BoardLegal(u) then (s, SlotUnavailable)
        else
          var (v, box) := Announce(u, assignments, Box(s));
          (With(s, k, v, box), Done)
  }

  ghost function SaveBoard(s: State, key: string, setting: Setting, assignments: seq<Assignment>): (State, Outcome) {
    match Managed(s, key)
    case None => (s, TimetableNotFound)
    case Some(k) => SaveBoardAt(s, k, setting, assignments)
  }

  function AddActorsAt(s: State, k: nat, contacts: seq<Contact>): (State, Outcome)
    requires k < |s.timetables|
  {
    var t := s.timetables[k];
    if contacts == [] then (s, Invalid)
    else if |t.actors| + |contacts| > MAX_ACTORS then (s, TooManyActors)
    else
      var problem := ContactProblem(t.actors, contacts);
      if problem != Done then (s, problem)
      else (With(s, k, t.(actors := t.actors + NewActors(contacts, s.sequence)),
                 Outbox(s.messages, s.sequence + |contacts|)), Done)
  }

  function AddActors(s: State, key: string, contacts: seq<Contact>): (State, Outcome) {
    match Managed(s, key)
    case None => (s, TimetableNotFound)
    case Some(k) => AddActorsAt(s, k, contacts)
  }

  function DeleteActor(s: State, key: string, actorId: int): (State, Outcome) {
    match Managed(s, key)
    case None => (s, TimetableNotFound)
    case Some(k) =>
      var t := s.timetables[k];
      if FindActor(t.actors, actorId).None? then (s, ActorNotFound)
      else (With(s, k, t.(actors := WithoutActor(t.actors, actorId), requests := WithoutRequests(t.requests, actorId)),
                 Outbox(WithoutPending(s.messages, actorId), s.sequence)), Done)
  }

  function PublishAt(s: State, k: nat): (State, Outcome)
    requires k < |s.timetables|
  {
    var t := s.timetables[k];
    if t.published || t.actors == [] || exists i :: 0 <= i < |t.actors| && t.actors[i].slot.None?
    then (s, NotPublishable)
    else
      var (u, box) := Invite(t.(published := true), |t.actors|, Box(s), true);
      (With(s, k, u, box), Done)
  }

  function Publish(s: State, key: string): (State, Outcome) {
    match Managed(s, key)
    case None => (s, TimetableNotFound)
    case Some(k) => PublishAt(s, k)
  }

  function FindRequest(requests: seq<Request>, id: int): (i: Option<nat>)
    ensures i.Some? ==> i.value < |requests| && requests[i.value].id == id
  {
    if requests == [] then None
    else
      var found := FindRequest(requests[..|requests| - 1], id);
      if found.Some? then found else if requests[|requests| - 1].id == id then Some(|requests| - 1) else None
  }

  function Resolve(s: State, key: string, requestId: int): (State, Outcome) {
    match Managed(s, key)
    case None => (s, TimetableNotFound)
    case Some(k) =>
      var t := s.timetables[k];
      match FindRequest(t.requests, requestId)
      case None => (s, RequestNotFound)
      case Some(i) => (With(s, k, t.(requests := t.requests[i := t.requests[i].(open := false)]), Box(s)), Done)
  }

  function AttendAt(s: State, k: nat, i: nat, answer: Attendance): (State, Outcome)
    requires k < |s.timetables| && i < |s.timetables[k].actors|
  {
    var t := s.timetables[k];
    if answer == UNANSWERED then (s, Invalid)
    else (With(s, k, t.(actors := t.actors[i := t.actors[i].(attendance := answer)]), Box(s)), Done)
  }

  function Attend(s: State, accessKey: string, answer: Attendance): (State, Outcome) {
    match Accessed(s, accessKey)
    case None => (s, TimetableNotFound)
    case Some((k, i)) => AttendAt(s, k, i, answer)
  }

  function FindOpen(requests: seq<Request>, actorId: int): (i: Option<nat>)
    ensures match i
            case None => forall j :: 0 <= j < |requests| ==> !(requests[j].actorId == actorId && requests[j].open)
            case Some(k) => k < |requests| && requests[k].actorId == actorId && requests[k].open
  {
    if requests == [] then None
    else
      var found, last := FindOpen(requests[..|requests| - 1], actorId), requests[|requests| - 1];
      if found.Some? then found else if last.actorId == actorId && last.open then Some(|requests| - 1) else None
  }

  function AskAt(s: State, k: nat, actorId: int, text: string): (State, Outcome)
    requires k < |s.timetables|
  {
    var t, message := s.timetables[k], Trim(text);
    if message == "" || |message| > MAX_REQUEST then (s, Invalid)
    else
      match FindOpen(t.requests, actorId)
      case Some(j) =>
        var u := t.(requests := t.requests[j := t.requests[j].(message := message)]);
        (With(s, k, u, Queue(Box(s), u, ORGANIZER_TIME_REQUEST, None)), Done)
      case None =>
        var u := t.(requests := t.requests + [Request(s.sequence + 1, actorId, message, true)]);
        (With(s, k, u, Queue(Outbox(s.messages, s.sequence + 1), u, ORGANIZER_TIME_REQUEST, None)), Done)
  }

  function Ask(s: State, accessKey: string, text: string): (State, Outcome) {
    match Accessed(s, accessKey)
    case None => (s, TimetableNotFound)
    case Some((k, i)) => AskAt(s, k, s.timetables[k].actors[i].id, text)
  }

  function MarkSent(ms: seq<Message>, ids: seq<int>): (r: seq<Message>)
    ensures |r| == |ms| && forall j :: 0 <= j < |ms| ==>
            r[j] == if ms[j].id in ids then ms[j].(pending := false) else ms[j]
  {
    if ms == [] then []
    else
      var last := ms[|ms| - 1];
      MarkSent(ms[..|ms| - 1], ids) + [if last.id in ids then last.(pending := false) else last]
  }

  function CountNamed(ms: seq<Message>, ids: seq<int>): nat {
    if ms == [] then 0 else CountNamed(ms[..|ms| - 1], ids) + if ms[|ms| - 1].id in ids then 1 else 0
  }

  function Complete(s: State, ids: seq<int>): (State, Outcome) {
    if CountNamed(s.messages, ids) != |set id | id in ids| then (s, MessageNotFound)
    else (s.(messages := MarkSent(s.messages, ids)), Done)
  }
}

/** Shows, their sessions and the reservations for them. A handler that waits for its request body looks its show
    and session up before the wait and uses what it found afterwards; both halves are modelled separately. */
module Shows {
  import opened Wrappers

  datatype ShowStatus = DRAFT | OPEN | CLOSED
  datatype Show = Show(status: ShowStatus, hidden: bool, external: bool)

  /** Sessions of an external show have no capacity of their own and keep 0. */
  datatype Session = Session(showId: string, startsAt: int, capacity: int)

  datatype ReservationStatus = CONFIRMED | CANCELED
  datatype Reservation = Reservation(id: int, sessionId: int, phone: int, ticketCount: int, status: ReservationStatus)

  /** `shows` and `sessions` hold every object ever made, under its id; `showList` and `sessionList` are the arrays,
      which refer to those not deleted. A handler can go on using an object after its deletion. */
  datatype State = State(shows: map<string, Show>, showList: seq<string>,
                         sessions: map<int, Session>, sessionList: seq<int>,
                         reservations: seq<Reservation>, nextSession: int, nextReservation: int)

  const EMPTY := State(map[], [], map[], [], [], 1000, 1)
  const MAX_TICKETS := 10

  /** `wellFormed` covers consent, name and phone format. */
  datatype Booking = Booking(wellFormed: bool, phone: int, ticketCount: int)

  /** None stands for a date or number that does not parse. */
  datatype SessionBody = SessionBody(startsAt: Option<int>, capacity: Option<int>)

  /** The producer's routes see the shows without an external link, the administrator's those with one. */
  datatype Scope = PRODUCER | ADMIN {
    predicate Sees(show: Show) { show.external == ADMIN? }
  }

  /** Handlers that wait for their body in between. */
  datatype Request =
    | Reserving(showId: string, sessionId: int, booking: Booking)
    | Resizing(reservationId: int, count: int)
    | EditingSession(scope: Scope, showId: string, sessionId: int, body: SessionBody)
    | AddingSession(scope: Scope, showId: string, body: SessionBody)
    | SettingVisibility(scope: Scope, showId: string, hidden: Option<bool>)

  /** Handlers that run in one go. */
  datatype Command =
    | AddShow(scope: Scope, showId: string)
    | DeleteShow(scope: Scope, showId: string)
    | OpenShow(scope: Scope, showId: string)
    | CloseShow(scope: Scope, showId: string)
    | DeleteSession(scope: Scope, showId: string, sessionId: int)
    | Cancel(reservationId: int)

  datatype Outcome =
    | Done | ShowNotFound | SessionNotFound | ReservationNotFound | InvalidInput | InvalidStatus | NotOpen | NotOpenable
    | External | Duplicate | BookingClosed | NotEnoughSeats | NotChangeable | CapacityBelowReserved | HasReservations

  // ---------- Reading the store ----------

  predicate ShowListed(s: State, showId: string) {
    showId in s.showList && showId in s.shows
  }

  predicate ScopeFinds(s: State, scope: Scope, showId: string) {
    ShowListed(s, showId) && scope.Sees(s.shows[showId])
  }

  predicate SessionListed(s: State, showId: string, sessionId: int) {
    sessionId in s.sessionList && sessionId in s.sessions && s.sessions[sessionId].showId == showId
  }

  function Tickets(r: Reservation, sessionId: int): int {
    if r.sessionId == sessionId && r.status == CONFIRMED then r.ticketCount else 0
  }

  /** The confirmed tickets of a session. */
  function Reserved(rs: seq<Reservation>, sessionId: int): int {
    if rs == [] then 0 else Reserved(rs[..|rs| - 1], sessionId) + Tickets(rs[|rs| - 1], sessionId)
  }

  predicate HasAnyReservation(s: State, sessionId: int) {
    exists i :: 0 <= i < |s.reservations| && s.reservations[i].sessionId == sessionId
  }

  predicate HoldsConfirmed(r: Reservation, sessionId: int, phone: int) {
    r.sessionId == sessionId && r.phone == phone && r.status == CONFIRMED
  }

  predicate AlreadyBooked(s: State, sessionId: int, phone: int) {
    exists i :: 0 <= i < |s.reservations| && HoldsConfirmed(s.reservations[i], sessionId, phone)
  }

  function FindReservation(rs: seq<Reservation>, id: int): Option<nat> {
    if rs == [] then None
    else
      var found := FindReservation(rs[..|rs| - 1], id);
      if found.Some? then found else if rs[|rs| - 1].id == id then Some(|rs| - 1) else None
  }

  function ShowSessions(s: State, ids: seq<int>, showId: string): seq<int> {
    if ids == [] then []
    else
      var rest, last := ShowSessions(s, ids[..|ids| - 1], showId), ids[|ids| - 1];
      if last in s.sessions && s.sessions[last].showId == showId then rest + [last] else rest
  }

  function RemainingSeats(s: State, sessionId: int): int
    requires sessionId in s.sessions
  {
    var free := s.sessions[sessionId].capacity - Reserved(s.reservations, sessionId);
    if free < 0 then 0 else free
  }

  // ---------- Before the wait ----------

  /** What the first half of a handler refuses; Done means that it goes on to wait. */
  function Begin(s: State, r: Request): Outcome {
    match r
    case Reserving(showId, sessionId, _) =>
      if !ShowListed(s, showId) || s.shows[showId].hidden || s.shows[showId].status == DRAFT then ShowNotFound
      else if !SessionListed(s, showId, sessionId) then SessionNotFound
      else if s.shows[showId].status != OPEN then NotOpen
      else if s.shows[showId].external then External
      else Done
    case Resizing(id, _) => if FindReservation(s.reservations, id).Some? then Done else ReservationNotFound
    case EditingSession(scope, showId, sessionId, _) =>
      if !ScopeFinds(s, scope, showId) then ShowNotFound
      else if !SessionListed(s, showId, sessionId) then SessionNotFound
      else Done
    case AddingSession(scope, showId, _) => if ScopeFinds(s, scope, showId) then Done else ShowNotFound
    case SettingVisibility(scope, showId, _) => if ScopeFinds(s, scope, showId) then Done else ShowNotFound
  }

  /** The objects a waiting handler holds exist, listed or not. */
  predicate Holds(s: State, r: Request) {
    match r
    case Reserving(showId, sessionId, _) => showId in s.shows && sessionId in s.sessions
    case Resizing(id, _) => FindReservation(s.reservations, id).Some?
    case EditingSession(_, showId, sessionId, _) => showId in s.shows && sessionId in s.sessions
    case AddingSession(_, showId, _) => showId in s.shows
    case SettingVisibility(_, showId, _) => showId in s.shows
  }

  // ---------- After the wait ----------

  function Reserve(s: State, sessionId: int, b: Booking, now: int): (State, Outcome)
    requires sessionId in s.sessions
  {
    if !b.wellFormed || b.ticketCount < 1 || b.ticketCount > MAX_TICKETS then (s, InvalidInput)
    else if AlreadyBooked(s, sessionId, b.phone) then (s, Duplicate)
    else if now >= s.sessions[sessionId].startsAt then (s, BookingClosed)
    else if b.ticketCount > RemainingSeats(s, sessionId) then (s, NotEnoughSeats)
    else
      (s.(reservations := s.reservations + [Reservation(s.nextReservation, sessionId, b.phone, b.ticketCount,
        CONFIRMED)],
          nextReservation := s.nextReservation + 1), Done)
  }

  /** Everything a booking is checked for once its body is there. */
  predicate Admits(s: State, sessionId: int, b: Booking, now: int)
    requires sessionId in s.sessions
  {
    && b.wellFormed && 1 <= b.ticketCount <= MAX_TICKETS && !AlreadyBooked(s, sessionId, b.phone)
    && now < s.sessions[sessionId].startsAt
    && b.ticketCount <= s.sessions[sessionId].capacity - Reserved(s.reservations, sessionId)
  }

  /** Seats a reservation could take, its own included; none when its session is gone. */
  function Available(s: State, r: Reservation): int {
    if r.sessionId in s.sessionList && r.sessionId in s.sessions
    then s.sessions[r.sessionId].capacity - Reserved(s.reservations, r.sessionId) + r.ticketCount
    else 0
  }

  function Resize(s: State, i: nat, count: int): (State, Outcome)
    requires i < |s.reservations|
  {
    var r := s.reservations[i];
    if count < 1 || count > MAX_TICKETS then (s, InvalidInput)
    else if r.status != CONFIRMED then (s, NotChangeable)
    else if count > Available(s, r) then (s, NotEnoughSeats)
    else (s.(reservations := s.reservations[i := r.(ticketCount := count)]), Done)
  }

  predicate ValidSession(body: SessionBody, scope: Scope, now: int) {
    && body.startsAt.Some? && body.startsAt.value > now
    && (scope.PRODUCER? ==> body.capacity.Some? && body.capacity.value >= 1)
  }

  function EditSession(s: State, scope: Scope, sessionId: int, body: SessionBody, now: int): (State, Outcome)
    requires sessionId in s.sessions
  {
    if !ValidSession(body, scope, now) then (s, InvalidInput)
    else if scope.PRODUCER? && body.capacity.value < Reserved(s.reservations, sessionId) then (s, CapacityBelowReserved)
    else
      var before := s.sessions[sessionId];
      var capacity := if scope.PRODUCER? then body.capacity.value else before.capacity;
      (s.(sessions := s.sessions[sessionId := Session(before.showId, body.startsAt.value, capacity)]), Done)
  }

  function AddSession(s: State, scope: Scope, showId: string, body: SessionBody, now: int): (State, Outcome) {
    if !ValidSession(body, scope, now) then (s, InvalidInput)
    else
      var session := Session(showId, body.startsAt.value, if scope.PRODUCER? then body.capacity.value else 0);
      (s.(sessions := s.sessions[s.nextSession := session], sessionList := s.sessionList + [s.nextSession],
          nextSession := s.nextSession + 1), Done)
  }

  function SetVisibility(s: State, showId: string, hidden: Option<bool>): (State, Outcome)
    requires showId in s.shows
  {
    if hidden.None? then (s, InvalidInput)
    else if s.shows[showId].status == DRAFT then (s, InvalidStatus)
    else (s.(shows := s.shows[showId := s.shows[showId].(hidden := hidden.value)]), Done)
  }

  function Commit(s: State, r: Request, now: int): (State, Outcome)
    requires Holds(s, r)
  {
    match r
    case Reserving(_, sessionId, booking) => Reserve(s, sessionId, booking, now)
    case Resizing(id, count) => ResizeFound(s, id, count)
    case EditingSession(scope, _, sessionId, body) => EditSession(s, scope, sessionId, body, now)
    case AddingSession(scope, showId, body) => AddSession(s, scope, showId, body, now)
    case SettingVisibility(_, showId, hidden) => SetVisibility(s, showId, hidden)
  }

  function ResizeFound(s: State, id: int, count: int): (State, Outcome)
    requires FindReservation(s.reservations, id).Some?
  {
    FindReservationExact(s.reservations, id);
    Resize(s, FindReservation(s.reservations, id).value, count)
  }

  lemma {:induction false} FindReservationExact(rs: seq<Reservation>, id: int)
    ensures match FindReservation(rs, id)
            case None => forall i :: 0 <= i < |rs| ==> rs[i].id != id
            case Some(i) => i < |rs| && rs[i].id == id
  {
    if rs != [] {
      FindReservationExact(rs[..|rs| - 1], id);
    }
  }

  // ---------- Handlers in one go ----------

  function Remove<T(==)>(list: seq<T>, x: T): seq<T> {
    if list == [] then [] else if list[0] == x then list[1..] else [list[0]] + Remove(list[1..], x)
  }

  function RemoveAll(list: seq<int>, gone: seq<int>): seq<int> {
    if gone == [] then list else Remove(RemoveAll(list, gone[..|gone| - 1]), gone[|gone| - 1])
  }

  predicate ShowHasReservations(s: State, showId: string) {
    exists i :: 0 <= i < |s.reservations| && s.reservations[i].sessionId in ShowSessions(s, s.sessionList, showId)
  }

  predicate HasBookableSession(s: State, showId: string, now: int) {
    exists id :: id in ShowSessions(s, s.sessionList, showId) && id in s.sessions && now < s.sessions[id].startsAt
  }

  function Execute(s: State, c: Command, now: int): (State, Outcome) {
    match c
    case AddShow(scope, showId) =>
      // the id is drawn at random and taken to be fresh
      if showId in s.shows then (s, InvalidInput)
      else (s.(shows := s.shows[showId := Show(DRAFT, false, scope.ADMIN?)], showList := s.showList + [showId]), Done)
    case DeleteShow(scope, showId) =>
      if !ScopeFinds(s, scope, showId) then (s, ShowNotFound)
      else if ShowHasReservations(s, showId) then (s, HasReservations)
      else
        (s.(showList := Remove(s.showList, showId),
            sessionList := RemoveAll(s.sessionList, ShowSessions(s, s.sessionList, showId))), Done)
    case OpenShow(scope, showId) =>
      if !ScopeFinds(s, scope, showId) then (s, ShowNotFound)
      else
        var show := s.shows[showId];
        if show.hidden then (s, InvalidStatus)
        else if show.status != OPEN && !HasBookableSession(s, showId, now) then (s, NotOpenable)
        else (s.(shows := s.shows[showId := show.(status := OPEN)]), Done)
    case CloseShow(scope, showId) =>
      if !ScopeFinds(s, scope, showId) then (s, ShowNotFound)
      else
        var show := s.shows[showId];
        if show.status == DRAFT then (s, InvalidStatus)
        else (s.(shows := s.shows[showId := show.(status := CLOSED)]), Done)
    case DeleteSession(scope, showId, sessionId) =>
      if !ScopeFinds(s, scope, showId) then (s, ShowNotFound)
      else if !SessionListed(s, showId, sessionId) then (s, SessionNotFound)
      else if HasAnyReservation(s, sessionId) then (s, HasReservations)
      else (s.(sessionList := Remove(s.sessionList, sessionId)), Done)
    case Cancel(id) => CancelFound(s, id)
  }

  function CancelFound(s: State, id: int): (State, Outcome) {
    match FindReservation(s.reservations, id)
    case None => (s, ReservationNotFound)
    case Some(i) =>
      FindReservationExact(s.reservations, id);
      var r := s.reservations[i];
      if r.status == CONFIRMED then (s.(reservations := s.reservations[i := r.(status := CANCELED)]), Done)
        else (s, Done)
  }

  // ---------- Two ways of running the handlers ----------

  /** Every handler in one go, from lookup to answer. */
  function Atomic(s: State, r: Request, now: int): (State, Outcome) {
    var begun := Begin(s, r);
    if begun != Done then (s, begun)
    else
      Commit(s, r, now)
  }

  datatype Action = Complete(request: Request) | Run(command: Command)

  function Act(s: State, a: Action, now: int): State {
    match a
    case Complete(request) => Atomic(s, request, now).0
    case Run(command) => Execute(s, command, now).0
  }

  /** Handlers interleaved at their waits. */
  datatype World = World(s: State, waiting: seq<Request>)

  datatype Event = Arrive(request: Request) | Resume(k: nat) | Now(command: Command)

  ghost predicate AllHold(w: World) {
    forall k :: 0 <= k < |w.waiting| ==> Holds(w.s, w.waiting[k])
  }

  function Next(w: World, e: Event, now: int): World
    requires AllHold(w)
  {
    match e
    case Arrive(request) => if Begin(w.s, request) == Done then w.(waiting := w.waiting + [request]) else w
    case Resume(k) =>
      if k < |w.waiting| then World(Commit(w.s, w.waiting[k], now).0, w.waiting[..k] + w.waiting[k + 1..]) else w
    case Now(command) => w.(s := Execute(w.s, command, now).0)
  }
}

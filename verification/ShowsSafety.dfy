/** No session is ever oversold and no phone books a session twice, however the handlers interleave at their waits. */
module ShowsSafety {
  import opened Shows

  // ---------- Sums of tickets ----------

  lemma {:induction false} ReservedUpdate(rs: seq<Reservation>, i: nat, r: Reservation, sessionId: int)
    requires i < |rs|
    ensures Reserved(rs[i := r], sessionId) ==
            Reserved(rs, sessionId) - Tickets(rs[i], sessionId) + Tickets(r, sessionId)
  {
    var n := |rs| - 1;
    if i < n {
      assert rs[i := r][..n] == rs[..n][i := r];
      ReservedUpdate(rs[..n], i, r, sessionId);
    } else {
      assert rs[i := r][..n] == rs[..n];
    }
  }

  lemma {:induction false} ReservedAppend(rs: seq<Reservation>, r: Reservation, sessionId: int)
    ensures Reserved(rs + [r], sessionId) == Reserved(rs, sessionId) + Tickets(r, sessionId)
  {
    assert (rs + [r])[..|rs|] == rs;
  }

  // ---------- What every interleaving keeps ----------

  ghost predicate NoOversell(s: State) {
    forall id {:trigger id in s.sessions} :: id in s.sessions ==>
      Reserved(s.reservations, id) <= s.sessions[id].capacity
  }

  ghost predicate OneBookingPerPhone(rs: seq<Reservation>) {
    forall i, j :: 0 <= i < j < |rs| && rs[i].status == CONFIRMED && rs[j].status == CONFIRMED ==>
      rs[i].sessionId != rs[j].sessionId || rs[i].phone != rs[j].phone
  }

  ghost predicate WellNumbered(s: State) {
    && (forall id :: id in s.sessions ==> id < s.nextSession)
    && (forall i :: 0 <= i < |s.reservations| ==> s.reservations[i].id < s.nextReservation)
    && (forall i, j :: 0 <= i < j < |s.reservations| ==> s.reservations[i].id < s.reservations[j].id)
  }

  ghost predicate ReservationsRefer(s: State) {
    forall i :: 0 <= i < |s.reservations| ==>
      s.reservations[i].sessionId in s.sessions && 1 <= s.reservations[i].ticketCount <= MAX_TICKETS
  }

  ghost predicate Safe(s: State) {
    NoOversell(s) && OneBookingPerPhone(s.reservations) && WellNumbered(s) && ReservationsRefer(s)
  }

  lemma {:induction false} NoneForUnknownSession(rs: seq<Reservation>, id: int)
    requires forall i :: 0 <= i < |rs| ==> rs[i].sessionId != id
    ensures Reserved(rs, id) == 0
  {
    if rs != [] {
      NoneForUnknownSession(rs[..|rs| - 1], id);
    }
  }

  // ---------- One more reservation ----------

  function Booked(s: State, r: Reservation): State {
    s.(reservations := s.reservations + [r], nextReservation := s.nextReservation + 1)
  }

  lemma {:induction false} BookedFits(s: State, r: Reservation)
    requires NoOversell(s) && r.sessionId in s.sessions
    requires Reserved(s.reservations, r.sessionId) + r.ticketCount <= s.sessions[r.sessionId].capacity
    requires r.status == CONFIRMED
    ensures NoOversell(Booked(s, r))
  {
    var t := Booked(s, r);
    forall id | id in t.sessions ensures Reserved(t.reservations, id) <= t.sessions[id].capacity {
      ReservedAppend(s.reservations, r, id);
      assert id in s.sessions;
    }
  }

  lemma {:induction false} BookedOnce(rs: seq<Reservation>, r: Reservation)
    requires OneBookingPerPhone(rs) && forall i :: 0 <= i < |rs| ==> !HoldsConfirmed(rs[i], r.sessionId, r.phone)
    ensures OneBookingPerPhone(rs + [r])
  {
    var ts := rs + [r];
    forall i, j | 0 <= i < j < |ts| && ts[i].status == CONFIRMED && ts[j].status == CONFIRMED
      ensures ts[i].sessionId != ts[j].sessionId || ts[i].phone != ts[j].phone
    {
      assert ts[i] == rs[i];
      if j == |rs| {
        assert !HoldsConfirmed(rs[i], r.sessionId, r.phone);
      } else {
        assert ts[j] == rs[j];
      }
    }
  }

  lemma {:induction false} BookedNumbered(s: State, r: Reservation)
    requires WellNumbered(s) && ReservationsRefer(s)
    requires r.id == s.nextReservation && r.sessionId in s.sessions && 1 <= r.ticketCount <= MAX_TICKETS
    ensures WellNumbered(Booked(s, r)) && ReservationsRefer(Booked(s, r))
  {
  }

  lemma {:induction false} BookedKeepsSafe(s: State, r: Reservation)
    requires Safe(s) && r.sessionId in s.sessions && r.id == s.nextReservation && r.status == CONFIRMED
    requires 1 <= r.ticketCount <= MAX_TICKETS
    requires Reserved(s.reservations, r.sessionId) + r.ticketCount <= s.sessions[r.sessionId].capacity
    requires !AlreadyBooked(s, r.sessionId, r.phone)
    ensures Safe(Booked(s, r))
  {
    BookedFits(s, r);
    BookedOnce(s.reservations, r);
    BookedNumbered(s, r);
  }

  lemma {:induction false} ReserveKeepsSafe(s: State, sessionId: int, b: Booking, now: int)
    requires Safe(s) && sessionId in s.sessions
    ensures Safe(Reserve(s, sessionId, b, now).0)
  {
    var (t, outcome) := Reserve(s, sessionId, b, now);
    if outcome == Done {
      var r := Reservation(s.nextReservation, sessionId, b.phone, b.ticketCount, CONFIRMED);
      assert t == Booked(s, r);
      BookedKeepsSafe(s, r);
    } else {
      assert t == s;
    }
  }

  // ---------- One reservation changed ----------

  lemma {:induction false} UpdatedFits(s: State, i: nat, r: Reservation)
    requires NoOversell(s) && i < |s.reservations| && r.sessionId == s.reservations[i].sessionId
    requires r.sessionId in s.sessions &&
             Reserved(s.reservations, r.sessionId) - Tickets(s.reservations[i], r.sessionId) + Tickets(r, r.sessionId)
             <= s.sessions[r.sessionId].capacity
    ensures NoOversell(s.(reservations := s.reservations[i := r]))
  {
    var t := s.(reservations := s.reservations[i := r]);
    forall id | id in t.sessions ensures Reserved(t.reservations, id) <= t.sessions[id].capacity {
      ReservedUpdate(s.reservations, i, r, id);
      assert id in s.sessions;
    }
  }

  lemma {:induction false} UpdatedOnce(rs: seq<Reservation>, i: nat, r: Reservation)
    requires OneBookingPerPhone(rs) && i < |rs| && r.sessionId == rs[i].sessionId && r.phone == rs[i].phone
    requires r.status == CONFIRMED ==> rs[i].status == CONFIRMED
    ensures OneBookingPerPhone(rs[i := r])
  {
  }

  lemma {:induction false} UpdateKeepsSafe(s: State, i: nat, r: Reservation)
    requires Safe(s) && i < |s.reservations|
    requires var o := s.reservations[i];
             && r.id == o.id && r.sessionId == o.sessionId && r.phone == o.phone
             && 1 <= r.ticketCount <= MAX_TICKETS && (r.status == CONFIRMED ==> o.status == CONFIRMED)
             && Reserved(s.reservations, r.sessionId) - Tickets(o, r.sessionId) + Tickets(r, r.sessionId)
                <= s.sessions[r.sessionId].capacity
    ensures Safe(s.(reservations := s.reservations[i := r]))
  {
    UpdatedFits(s, i, r);
    UpdatedOnce(s.reservations, i, r);
  }

  lemma {:induction false} ResizeKeepsSafe(s: State, i: nat, count: int)
    requires Safe(s) && i < |s.reservations|
    ensures Safe(Resize(s, i, count).0)
  {
    if Resize(s, i, count).1 == Done {
      UpdateKeepsSafe(s, i, s.reservations[i].(ticketCount := count));
    }
  }

  lemma {:induction false} CancelKeepsSafe(s: State, id: int)
    requires Safe(s)
    ensures Safe(CancelFound(s, id).0)
  {
    FindReservationExact(s.reservations, id);
    if CancelFound(s, id).0 != s {
      var i := FindReservation(s.reservations, id).value;
      UpdateKeepsSafe(s, i, s.reservations[i].(status := CANCELED));
    }
  }

  lemma {:induction false} AddSessionKeepsSafe(s: State, scope: Scope, showId: string, body: SessionBody, now: int)
    requires Safe(s)
    ensures Safe(AddSession(s, scope, showId, body, now).0)
  {
    NoneForUnknownSession(s.reservations, s.nextSession);
  }

  /** A waiting handler's objects stay available: nothing is ever taken out of the store of objects. */
  ghost predicate Grows(s: State, t: State) {
    && s.shows.Keys <= t.shows.Keys && s.sessions.Keys <= t.sessions.Keys
    && |s.reservations| <= |t.reservations|
    && forall i :: 0 <= i < |s.reservations| ==> s.reservations[i].id == t.reservations[i].id
  }

  lemma {:induction false} FoundStays(rs: seq<Reservation>, ts: seq<Reservation>, id: int)
    requires |rs| <= |ts| && forall i :: 0 <= i < |rs| ==> rs[i].id == ts[i].id
    requires FindReservation(rs, id).Some?
    ensures FindReservation(ts, id).Some?
  {
    FindReservationExact(rs, id);
    FindReservationExact(ts, id);
    assert ts[FindReservation(rs, id).value].id == id;
  }

  lemma {:induction false} HoldsStays(s: State, t: State, r: Request)
    requires Holds(s, r) && Grows(s, t)
    ensures Holds(t, r)
  {
    if r.Resizing? {
      FoundStays(s.reservations, t.reservations, r.reservationId);
    }
  }

  lemma {:induction false} EditSessionKeepsSafe(s: State, scope: Scope, sessionId: int, body: SessionBody, now: int)
    requires Safe(s) && sessionId in s.sessions
    ensures Safe(EditSession(s, scope, sessionId, body, now).0)
  {
  }

  lemma {:induction false} CommitGrows(s: State, r: Request, now: int)
    requires Holds(s, r)
    ensures Grows(s, Commit(s, r, now).0)
  {
    if r.Resizing? {
      FindReservationExact(s.reservations, r.reservationId);
    }
  }

  lemma {:induction false} CommitKeepsSafe(s: State, r: Request, now: int)
    requires Safe(s) && Holds(s, r)
    ensures Safe(Commit(s, r, now).0)
  {
    match r
    case Reserving(_, sessionId, booking) => ReserveKeepsSafe(s, sessionId, booking, now);
    case Resizing(id, count) =>
      FindReservationExact(s.reservations, id);
      ResizeKeepsSafe(s, FindReservation(s.reservations, id).value, count);
    case EditingSession(scope, _, sessionId, body) => EditSessionKeepsSafe(s, scope, sessionId, body, now);
    case AddingSession(scope, showId, body) => AddSessionKeepsSafe(s, scope, showId, body, now);
    case SettingVisibility(_, showId, hidden) =>
  }

  lemma {:induction false} ShowsChangeKeepsSafe(s: State, t: State)
    requires Safe(s) && t == s.(shows := t.shows, showList := t.showList, sessionList := t.sessionList)
    requires s.shows.Keys <= t.shows.Keys
    ensures Safe(t) && Grows(s, t)
  {
  }

  lemma {:induction false} ExecuteKeepsSafe(s: State, c: Command, now: int)
    requires Safe(s)
    ensures Safe(Execute(s, c, now).0) && Grows(s, Execute(s, c, now).0)
  {
    if c.Cancel? {
      CancelKeepsSafe(s, c.reservationId);
      FindReservationExact(s.reservations, c.reservationId);
    } else {
      ShowsChangeKeepsSafe(s, Execute(s, c, now).0);
    }
  }

  lemma {:induction false} AllStay(s: State, t: State, waiting: seq<Request>)
    requires Grows(s, t) && forall k :: 0 <= k < |waiting| ==> Holds(s, waiting[k])
    ensures forall k :: 0 <= k < |waiting| ==> Holds(t, waiting[k])
  {
    forall k | 0 <= k < |waiting| ensures Holds(t, waiting[k]) {
      HoldsStays(s, t, waiting[k]);
    }
  }

  lemma {:induction false} ResumeKeepsSafe(w: World, k: nat, now: int)
    requires Safe(w.s) && AllHold(w) && k < |w.waiting|
    ensures var x := Next(w, Resume(k), now); Safe(x.s) && AllHold(x) && Grows(w.s, x.s)
  {
    var x := Next(w, Resume(k), now);
    CommitKeepsSafe(w.s, w.waiting[k], now);
    CommitGrows(w.s, w.waiting[k], now);
    AllStay(w.s, x.s, w.waiting);
  }

  lemma {:induction false} NextKeepsSafe(w: World, e: Event, now: int)
    requires Safe(w.s) && AllHold(w)
    ensures Safe(Next(w, e, now).s) && AllHold(Next(w, e, now)) && Grows(w.s, Next(w, e, now).s)
  {
    match e
    case Arrive(request) =>
    case Resume(k) =>
      if k < |w.waiting| {
        ResumeKeepsSafe(w, k, now);
      }
    case Now(command) =>
      ExecuteKeepsSafe(w.s, command, now);
      AllStay(w.s, Next(w, e, now).s, w.waiting);
  }

  /** Any number of handlers, arriving, waiting and resuming in any order and at any times: at every moment no session
      holds more confirmed tickets than its capacity, deleted sessions included, and no phone has two confirmed
      reservations for one session. */
  function RunWorld(w: World, es: seq<(Event, int)>): (x: World)
    requires Safe(w.s) && AllHold(w)
    ensures Safe(x.s) && AllHold(x)
    decreases |es|
  {
    if es == [] then w
    else
      NextKeepsSafe(w, es[0].0, es[0].1);
      RunWorld(Next(w, es[0].0, es[0].1), es[1..])
  }

  // ---------- Cancellation is final ----------

  /** Reservations keep their identity; a canceled one keeps everything. */
  ghost predicate Lasting(rs: seq<Reservation>, ts: seq<Reservation>) {
    && |rs| <= |ts|
    && forall i :: 0 <= i < |rs| ==>
         && ts[i].id == rs[i].id && ts[i].sessionId == rs[i].sessionId && ts[i].phone == rs[i].phone
         && (rs[i].status == CANCELED ==> ts[i] == rs[i])
  }

  lemma {:induction false} NextKeepsCanceled(w: World, e: Event, now: int)
    requires AllHold(w)
    ensures Lasting(w.s.reservations, Next(w, e, now).s.reservations)
  {
    match e
    case Arrive(_) =>
    case Resume(k) =>
      if k < |w.waiting| && w.waiting[k].Resizing? {
        FindReservationExact(w.s.reservations, w.waiting[k].reservationId);
      }
    case Now(command) =>
      if command.Cancel? {
        FindReservationExact(w.s.reservations, command.reservationId);
      }
  }

  lemma {:induction false} LastingTransitive(a: seq<Reservation>, b: seq<Reservation>, c: seq<Reservation>)
    requires Lasting(a, b) && Lasting(b, c)
    ensures Lasting(a, c)
  {
  }

  /** Over every interleaved run a canceled reservation stays canceled, with its ticket count frozen. */
  lemma {:induction false} CanceledIsFinal(w: World, es: seq<(Event, int)>)
    requires Safe(w.s) && AllHold(w)
    ensures Lasting(w.s.reservations, RunWorld(w, es).s.reservations)
    decreases |es|
  {
    if es != [] {
      NextKeepsSafe(w, es[0].0, es[0].1);
      NextKeepsCanceled(w, es[0].0, es[0].1);
      var x := Next(w, es[0].0, es[0].1);
      CanceledIsFinal(x, es[1..]);
      LastingTransitive(w.s.reservations, x.s.reservations, RunWorld(w, es).s.reservations);
    }
  }
}

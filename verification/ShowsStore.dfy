/** The stores of shows, sessions and reservations as the running program holds them, changed in place. */
module ShowsStore {
  import opened Wrappers
  import Shows
  import opened ShowsSafety
  import opened ShowsSeed

  type Reservation = Shows.Reservation

  class Store {
    var shows: map<string, Shows.Show>
    var showList: seq<string>
    var sessions: map<int, Shows.Session>
    var sessionList: seq<int>
    var reservations: seq<Reservation>
    var nextSession: int
    var nextReservation: int

    ghost function Contents(): Shows.State
      reads this
    {
      Shows.State(shows, showList, sessions, sessionList, reservations, nextSession, nextReservation)
    }

    /** Holds between any two halves of handlers. */
    ghost predicate Valid()
      reads this
    {
      Safe(Contents())
    }

    constructor ()
      ensures Valid() && Contents() == Shows.EMPTY
    {
      shows, showList, sessions, sessionList := map[], [], map[], [];
      reservations, nextSession, nextReservation := [], 1000, 1;
    }

    method ReservedTickets(sessionId: int) returns (sum: int)
      ensures sum == Shows.Reserved(reservations, sessionId)
    {
      sum := 0;
      for k := 0 to |reservations|
        invariant sum == Shows.Reserved(reservations[..k], sessionId)
      {
        assert reservations[..k + 1][..k] == reservations[..k];
        sum := sum + Shows.Tickets(reservations[k], sessionId);
      }
      assert reservations[..|reservations|] == reservations;
    }

    /** The second half of a booking: check and commit, with no wait in between. */
    method Reserve(sessionId: int, b: Shows.Booking, now: int) returns (outcome: Shows.Outcome)
      requires Valid() && sessionId in sessions
      modifies this`reservations, this`nextReservation
      ensures Valid() && (Contents(), outcome) == Shows.Reserve(old(Contents()), sessionId, b, now)
    {
      ghost var s := Contents();
      ReserveKeepsSafe(s, sessionId, b, now);
      if !b.wellFormed || b.ticketCount < 1 || b.ticketCount > Shows.MAX_TICKETS {
        return Shows.InvalidInput;
      }
      if exists i :: 0 <= i < |reservations| && Shows.HoldsConfirmed(reservations[i], sessionId, b.phone) {
        return Shows.Duplicate;
      }
      if now >= sessions[sessionId].startsAt {
        return Shows.BookingClosed;
      }
      var reserved := ReservedTickets(sessionId);
      if b.ticketCount > sessions[sessionId].capacity - reserved {
        return Shows.NotEnoughSeats;
      }
      reservations := reservations + [Shows.Reservation(nextReservation, sessionId, b.phone, b.ticketCount,
        Shows.CONFIRMED)];
      nextReservation := nextReservation + 1;
      outcome := Shows.Done;
      assert (Contents(), outcome) == Shows.Reserve(s, sessionId, b, now);
    }

    method Resize(i: nat, count: int) returns (outcome: Shows.Outcome)
      requires Valid() && i < |reservations|
      modifies this`reservations
      ensures Valid() && (Contents(), outcome) == Shows.Resize(old(Contents()), i, count)
    {
      ResizeKeepsSafe(Contents(), i, count);
      if count < 1 || count > Shows.MAX_TICKETS {
        return Shows.InvalidInput;
      }
      var r := reservations[i];
      if r.status != Shows.CONFIRMED {
        return Shows.NotChangeable;
      }
      var available := 0;
      if r.sessionId in sessionList {
        var reserved := ReservedTickets(r.sessionId);
        available := sessions[r.sessionId].capacity - reserved + r.ticketCount;
      }
      if count > available {
        return Shows.NotEnoughSeats;
      }
      reservations := reservations[i := r.(ticketCount := count)];
      outcome := Shows.Done;
    }

    method EditSession(scope: Shows.Scope, sessionId: int, body: Shows.SessionBody, now: int)
      returns (outcome: Shows.Outcome)
      requires Valid() && sessionId in sessions
      modifies this`sessions
      ensures Valid() && (Contents(), outcome) == Shows.EditSession(old(Contents()), scope, sessionId, body, now)
    {
      EditSessionKeepsSafe(Contents(), scope, sessionId, body, now);
      if !Shows.ValidSession(body, scope, now) {
        return Shows.InvalidInput;
      }
      var session := sessions[sessionId];
      if scope.PRODUCER? {
        var reserved := ReservedTickets(sessionId);
        if body.capacity.value < reserved {
          return Shows.CapacityBelowReserved;
        }
        session := session.(capacity := body.capacity.value);
      }
      sessions := sessions[sessionId := session.(startsAt := body.startsAt.value)];
      outcome := Shows.Done;
    }

    method Cancel(reservationId: int) returns (outcome: Shows.Outcome)
      requires Valid()
      modifies this`reservations
      ensures Valid() && (Contents(), outcome) == Shows.CancelFound(old(Contents()), reservationId)
    {
      CancelKeepsSafe(Contents(), reservationId);
      Shows.FindReservationExact(reservations, reservationId);
      var found := Shows.FindReservation(reservations, reservationId);
      if found.None? {
        return Shows.ReservationNotFound;
      }
      var r := reservations[found.value];
      if r.status == Shows.CONFIRMED {
        reservations := reservations[found.value := r.(status := Shows.CANCELED)];
      }
      outcome := Shows.Done;
    }

    /** Takes the show and then its sessions out of the lists, one by one. */
    method DeleteShow(scope: Shows.Scope, showId: string) returns (outcome: Shows.Outcome)
      requires Valid()
      modifies this`showList, this`sessionList
      ensures Valid() && (Contents(), outcome) == Shows.Execute(old(Contents()), Shows.DeleteShow(scope, showId), 0)
    {
      ExecuteKeepsSafe(Contents(), Shows.DeleteShow(scope, showId), 0);
      var state := Shows.State(shows, showList, sessions, sessionList, reservations, nextSession, nextReservation);
      if !Shows.ScopeFinds(state, scope, showId) {
        return Shows.ShowNotFound;
      }
      if Shows.ShowHasReservations(state, showId) {
        return Shows.HasReservations;
      }
      showList := Shows.Remove(showList, showId);
      var gone := Shows.ShowSessions(state, sessionList, showId);
      for k := 0 to |gone|
        invariant sessionList == Shows.RemoveAll(state.sessionList, gone[..k])
        invariant showList == Shows.Remove(state.showList, showId)
      {
        assert gone[..k + 1][..k] == gone[..k];
        sessionList := Shows.Remove(sessionList, gone[k]);
      }
      assert gone[..|gone|] == gone;
      outcome := Shows.Done;
    }

    method AddShow(scope: Shows.Scope, showId: string) returns (outcome: Shows.Outcome)
      requires Valid()
      modifies this`shows, this`showList
      ensures Valid() && (Contents(), outcome) == Shows.Execute(old(Contents()), Shows.AddShow(scope, showId), 0)
    {
      ExecuteKeepsSafe(Contents(), Shows.AddShow(scope, showId), 0);
      if showId in shows {
        return Shows.InvalidInput;
      }
      shows := shows[showId := Shows.Show.Show(Shows.DRAFT, false, scope.ADMIN?)];
      showList := showList + [showId];
      outcome := Shows.Done;
    }

    method OpenShow(scope: Shows.Scope, showId: string, now: int) returns (outcome: Shows.Outcome)
      requires Valid()
      modifies this`shows
      ensures Valid() && (Contents(), outcome) == Shows.Execute(old(Contents()), Shows.OpenShow(scope, showId), now)
    {
      ExecuteKeepsSafe(Contents(), Shows.OpenShow(scope, showId), now);
      var state := Shows.State(shows, showList, sessions, sessionList, reservations, nextSession, nextReservation);
      if !Shows.ScopeFinds(state, scope, showId) {
        return Shows.ShowNotFound;
      }
      if shows[showId].hidden {
        return Shows.InvalidStatus;
      }
      if shows[showId].status != Shows.OPEN && !Shows.HasBookableSession(state, showId, now) {
        return Shows.NotOpenable;
      }
      shows := shows[showId := shows[showId].(status := Shows.OPEN)];
      outcome := Shows.Done;
    }

    method CloseShow(scope: Shows.Scope, showId: string) returns (outcome: Shows.Outcome)
      requires Valid()
      modifies this`shows
      ensures Valid() && (Contents(), outcome) == Shows.Execute(old(Contents()), Shows.CloseShow(scope, showId), 0)
    {
      ExecuteKeepsSafe(Contents(), Shows.CloseShow(scope, showId), 0);
      var state := Shows.State(shows, showList, sessions, sessionList, reservations, nextSession, nextReservation);
      if !Shows.ScopeFinds(state, scope, showId) {
        return Shows.ShowNotFound;
      }
      if shows[showId].status == Shows.DRAFT {
        return Shows.InvalidStatus;
      }
      shows := shows[showId := shows[showId].(status := Shows.CLOSED)];
      outcome := Shows.Done;
    }

    /** The second half of the visibility handler. */
    method SetVisibility(showId: string, hidden: Option<bool>) returns (outcome: Shows.Outcome)
      requires Valid() && showId in shows
      modifies this`shows
      ensures Valid() && (Contents(), outcome) == Shows.SetVisibility(old(Contents()), showId, hidden)
    {
      if hidden.None? {
        return Shows.InvalidInput;
      }
      if shows[showId].status == Shows.DRAFT {
        return Shows.InvalidStatus;
      }
      shows := shows[showId := shows[showId].(hidden := hidden.value)];
      outcome := Shows.Done;
    }

    /** The second half of adding a session. */
    method AddSession(scope: Shows.Scope, showId: string, body: Shows.SessionBody, now: int)
      returns (outcome: Shows.Outcome)
      requires Valid()
      modifies this`sessions, this`sessionList, this`nextSession
      ensures Valid() && (Contents(), outcome) == Shows.AddSession(old(Contents()), scope, showId, body, now)
    {
      AddSessionKeepsSafe(Contents(), scope, showId, body, now);
      if !Shows.ValidSession(body, scope, now) {
        return Shows.InvalidInput;
      }
      var capacity := if scope.PRODUCER? then body.capacity.value else 0;
      sessions := sessions[nextSession := Shows.Session.Session(showId, body.startsAt.value, capacity)];
      sessionList := sessionList + [nextSession];
      nextSession := nextSession + 1;
      outcome := Shows.Done;
    }

    method DeleteSession(scope: Shows.Scope, showId: string, sessionId: int) returns (outcome: Shows.Outcome)
      requires Valid()
      modifies this`sessionList
      ensures Valid() && (Contents(), outcome) ==
              Shows.Execute(old(Contents()), Shows.DeleteSession(scope, showId, sessionId), 0)
    {
      ExecuteKeepsSafe(Contents(), Shows.DeleteSession(scope, showId, sessionId), 0);
      var state := Shows.State(shows, showList, sessions, sessionList, reservations, nextSession, nextReservation);
      if !Shows.ScopeFinds(state, scope, showId) {
        return Shows.ShowNotFound;
      }
      if !Shows.SessionListed(state, showId, sessionId) {
        return Shows.SessionNotFound;
      }
      if exists i :: 0 <= i < |reservations| && reservations[i].sessionId == sessionId {
        return Shows.HasReservations;
      }
      sessionList := Shows.Remove(sessionList, sessionId);
      outcome := Shows.Done;
    }

    /** Fills a session with confirmed reservations of at most ten tickets each, from phones of their own. It does not
        check the seats: that the store stays valid depends on the caller having left room. */
    method SeedReservations(sessionId: int, tickets: nat)
      modifies this`reservations, this`nextReservation
      ensures Contents() == Filled(old(Contents()), sessionId, tickets)
      ensures Seeded(old(reservations), reservations, sessionId, tickets)
      ensures Seedable(old(Contents()), sessionId, tickets) ==> Seedable(Contents(), sessionId, 0)
    {
      FilledExact(Contents(), sessionId, tickets);
      var remaining: int := tickets;
      while remaining > 0
        invariant 0 <= remaining <= tickets
        invariant Filled(Contents(), sessionId, remaining) == Filled(old(Contents()), sessionId, tickets)
      {
        var count := if remaining < Shows.MAX_TICKETS then remaining else Shows.MAX_TICKETS;
        var id := nextReservation;
        nextReservation := nextReservation + 1;
        reservations := reservations + [Shows.Reservation(id, sessionId, SEED_PHONE + id, count, Shows.CONFIRMED)];
        remaining := remaining - count;
      }
    }
  }
}

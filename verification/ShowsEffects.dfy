/** What changing, canceling and deleting do to seats and lists, exactly. */
module ShowsEffects {
  import opened Wrappers
  import opened Shows
  import opened ShowsSafety
  import opened ShowsWhole

  /** The confirmed tickets of a session that are not those of reservation i. */
  function ReservedByOthers(rs: seq<Reservation>, i: nat, sessionId: int): int
    requires i < |rs|
  {
    Reserved(rs[..i] + rs[i + 1..], sessionId)
  }

  lemma {:induction false} OthersApart(rs: seq<Reservation>, i: nat, sessionId: int)
    requires i < |rs|
    ensures Reserved(rs, sessionId) == ReservedByOthers(rs, i, sessionId) + Tickets(rs[i], sessionId)
  {
    var n := |rs| - 1;
    var others := rs[..i] + rs[i + 1..];
    if i < n {
      OthersApart(rs[..n], i, sessionId);
      assert others[..|others| - 1] == rs[..n][..i] + rs[..n][i + 1..];
    } else {
      assert others == rs[..n];
    }
  }

  lemma {:induction false} ReservationById(s: State, i: nat)
    requires WellNumbered(s) && i < |s.reservations|
    ensures FindReservation(s.reservations, s.reservations[i].id) == Some(i)
  {
    FindReservationExact(s.reservations, s.reservations[i].id);
  }

  /** A ticket count can be set iff the reservation stands, the count is 1 to 10, and beside everyone else's tickets it
      fits the capacity of a session that still exists. Then the session holds exactly the others' tickets and these. */
  lemma {:induction false} ResizeExact(s: State, i: nat, count: int, now: int)
    requires Safe(s) && i < |s.reservations|
    ensures var r := s.reservations[i];
            var (t, outcome) := Atomic(s, Resizing(r.id, count), now);
            var others := ReservedByOthers(s.reservations, i, r.sessionId);
            && (outcome == Done <==>
                  r.status == CONFIRMED && 1 <= count <= MAX_TICKETS &&
                  r.sessionId in s.sessionList && others + count <= s.sessions[r.sessionId].capacity)
            && (outcome == Done ==>
                  t == s.(reservations := t.reservations) && Reserved(t.reservations, r.sessionId) == others + count)
            && (outcome != Done ==> t == s)
  {
    var r := s.reservations[i];
    ReservationById(s, i);
    OthersApart(s.reservations, i, r.sessionId);
    ReservedUpdate(s.reservations, i, r.(ticketCount := count), r.sessionId);
  }

  /** Canceling gives the seats back: they are free at once, and the same phone can book as many again. */
  lemma {:induction false} CancelGivesBack(s: State, i: nat, now: int)
    requires Safe(s) && i < |s.reservations| && s.reservations[i].status == CONFIRMED
    ensures var r := s.reservations[i];
            var t := Execute(s, Cancel(r.id), now).0;
            && t.sessions == s.sessions
            && Reserved(t.reservations, r.sessionId) == ReservedByOthers(s.reservations, i, r.sessionId)
            && RemainingSeats(t, r.sessionId) == RemainingSeats(s, r.sessionId) + r.ticketCount
            && !AlreadyBooked(t, r.sessionId, r.phone)
            && (now < s.sessions[r.sessionId].startsAt ==>
                  Reserve(t, r.sessionId, Booking(true, r.phone, r.ticketCount), now).1 == Done)
  {
    var r := s.reservations[i];
    ReservationById(s, i);
    OthersApart(s.reservations, i, r.sessionId);
    ReservedUpdate(s.reservations, i, r.(status := CANCELED), r.sessionId);
    assert Reserved(s.reservations, r.sessionId) <= s.sessions[r.sessionId].capacity;
    CancelKeepsSafe(s, r.id);
    var t := Execute(s, Cancel(r.id), now).0;
    forall k | 0 <= k < |t.reservations| ensures !HoldsConfirmed(t.reservations[k], r.sessionId, r.phone) {
      if k < i {
        assert s.reservations[k].status == CONFIRMED ==>
                 s.reservations[k].sessionId != r.sessionId || s.reservations[k].phone != r.phone;
      }
    }
    assert Reserved(t.reservations, r.sessionId) <= t.sessions[r.sessionId].capacity;
  }

  /** A listed show can be deleted iff no reservation was ever made for one of its sessions. Then it and its sessions
      are no longer listed, and every other show and session still is. */
  lemma {:induction false} DeleteShowExact(s: State, scope: Scope, showId: string, now: int)
    requires Whole(s) && ScopeFinds(s, scope, showId)
    ensures var (t, outcome) := Execute(s, DeleteShow(scope, showId), now);
            && (outcome == Done <==>
                  forall i :: 0 <= i < |s.reservations| ==> s.sessions[s.reservations[i].sessionId].showId != showId)
            && (outcome == Done ==>
                  && t == s.(showList := t.showList, sessionList := t.sessionList)
                  && (forall id :: id in t.showList <==> id in s.showList && id != showId)
                  && (forall id :: id in t.sessionList <==> id in s.sessionList && s.sessions[id].showId != showId))
            && (outcome != Done ==> t == s)
  {
    var gone := ShowSessions(s, s.sessionList, showId);
    ShowSessionsExact(s, s.sessionList, showId);
    RemoveExact(s.showList, showId);
    RemoveAllExact(s.sessionList, gone);
    forall i | 0 <= i < |s.reservations|
      ensures s.reservations[i].sessionId in gone <==> s.sessions[s.reservations[i].sessionId].showId == showId
    {
      assert SessionPublished(s, s.reservations[i].sessionId);
    }
  }

  /** Closing a show turns new bookings away, but one that waits for its body is settled as if nothing had happened. */
  lemma {:induction false} ClosingDuringWait(s: State, r: Request, now: int)
    requires r.Reserving? && Begin(s, r) == Done
    ensures var (t, outcome) := Execute(s, CloseShow(PRODUCER, r.showId), now);
            && outcome == Done && Begin(t, r) == NotOpen && Holds(s, r) && Holds(t, r)
            && Commit(t, r, now).1 == Commit(s, r, now).1
            && Commit(t, r, now).0.reservations == Commit(s, r, now).0.reservations
  {
    var t := Execute(s, CloseShow(PRODUCER, r.showId), now).0;
    assert t == s.(shows := t.shows);
    assert RemainingSeats(t, r.sessionId) == RemainingSeats(s, r.sessionId);
    assert AlreadyBooked(t, r.sessionId, r.booking.phone) == AlreadyBooked(s, r.sessionId, r.booking.phone);
  }
}

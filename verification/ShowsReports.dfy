/** What the store reports: ticket totals for the administrator and the booking view for the public. */
module ShowsReports {
  import opened Shows
  import opened ShowsSafety
  import opened ShowsWhole
  import opened ShowsRuns

  // ---------- Conservation of tickets ----------

  function TicketsOver(rs: seq<Reservation>, ids: seq<int>): int {
    if ids == [] then 0 else TicketsOver(rs, ids[..|ids| - 1]) + Reserved(rs, ids[|ids| - 1])
  }

  /** The `reservedTickets` total of one show. */
  function ShowTickets(s: State, ids: seq<int>, showId: string): int {
    TicketsOver(s.reservations, ShowSessions(s, ids, showId))
  }

  function TicketsOfShows(s: State, ids: seq<int>, shows: seq<string>): int {
    if shows == [] then 0
    else TicketsOfShows(s, ids, shows[..|shows| - 1]) + ShowTickets(s, ids, shows[|shows| - 1])
  }

  function AllConfirmed(rs: seq<Reservation>): int {
    if rs == [] then 0
    else AllConfirmed(rs[..|rs| - 1]) + if rs[|rs| - 1].status == CONFIRMED then rs[|rs| - 1].ticketCount else 0
  }

  lemma {:induction false} TicketsOverNone(ids: seq<int>)
    ensures TicketsOver([], ids) == 0
  {
    if ids != [] {
      TicketsOverNone(ids[..|ids| - 1]);
    }
  }

  lemma {:induction false} TicketsOverOneMore(rs: seq<Reservation>, ids: seq<int>)
    requires rs != [] && Distinct(ids)
    ensures var last := rs[|rs| - 1];
            TicketsOver(rs, ids) == TicketsOver(rs[..|rs| - 1], ids)
                                    + if last.sessionId in ids && last.status == CONFIRMED then last.ticketCount else 0
  {
    if ids != [] {
      TicketsOverOneMore(rs, ids[..|ids| - 1]);
      assert forall id :: id in ids <==> id == ids[|ids| - 1] || id in ids[..|ids| - 1];
    }
  }

  /** The confirmed tickets of reservations for other sessions. */
  function TicketsElsewhere(rs: seq<Reservation>, ids: seq<int>): int {
    if rs == [] then 0
    else
      var last := rs[|rs| - 1];
      TicketsElsewhere(rs[..|rs| - 1], ids) +
        if last.status == CONFIRMED && last.sessionId !in ids then last.ticketCount else 0
  }

  /** Each reservation counts for one session, or for none of these. */
  lemma {:induction false} SessionsShareTickets(rs: seq<Reservation>, ids: seq<int>)
    requires Distinct(ids)
    ensures TicketsOver(rs, ids) + TicketsElsewhere(rs, ids) == AllConfirmed(rs)
  {
    if rs == [] {
      TicketsOverNone(ids);
    } else {
      SessionsShareTickets(rs[..|rs| - 1], ids);
      TicketsOverOneMore(rs, ids);
    }
  }

  lemma {:induction false} NoSessionsNoTickets(s: State, shows: seq<string>)
    ensures TicketsOfShows(s, [], shows) == 0
  {
    if shows != [] {
      NoSessionsNoTickets(s, shows[..|shows| - 1]);
    }
  }

  lemma {:induction false} ShowsOneMoreSession(s: State, ids: seq<int>, shows: seq<string>)
    requires ids != [] && Distinct(shows) && ids[|ids| - 1] in s.sessions
    ensures var last := ids[|ids| - 1];
            TicketsOfShows(s, ids, shows) == TicketsOfShows(s, ids[..|ids| - 1], shows)
                                             + if s.sessions[last].showId in shows then Reserved(s.reservations, last)
                                               else 0
  {
    if shows != [] {
      var init, show := shows[..|shows| - 1], shows[|shows| - 1];
      ShowsOneMoreSession(s, ids, init);
      assert forall x :: x in shows <==> x == show || x in init;
      var rest := ShowSessions(s, ids[..|ids| - 1], show);
      assert (rest + [ids[|ids| - 1]])[..|rest|] == rest;
    }
  }

  /** The sessions whose shows are in the list. */
  function WithShow(s: State, ids: seq<int>, shows: seq<string>): seq<int> {
    if ids == [] then []
    else
      var rest, last := WithShow(s, ids[..|ids| - 1], shows), ids[|ids| - 1];
      if last in s.sessions && s.sessions[last].showId in shows then rest + [last] else rest
  }

  lemma {:induction false} WithShowExact(s: State, ids: seq<int>, shows: seq<string>)
    requires Distinct(ids)
    ensures Distinct(WithShow(s, ids, shows))
    ensures forall id :: id in WithShow(s, ids, shows) <==>
              id in ids && id in s.sessions && s.sessions[id].showId in shows
  {
    if ids != [] {
      var init, last := ids[..|ids| - 1], ids[|ids| - 1];
      WithShowExact(s, init, shows);
      assert forall id :: id in ids <==> id == last || id in init;
      assert last !in init;
    }
  }

  /** Each session counts for its show, if that is listed. */
  lemma {:induction false} ShowsShareSessions(s: State, ids: seq<int>, shows: seq<string>)
    requires Distinct(shows) && forall i :: 0 <= i < |ids| ==> ids[i] in s.sessions
    ensures TicketsOfShows(s, ids, shows) == TicketsOver(s.reservations, WithShow(s, ids, shows))
  {
    if ids == [] {
      NoSessionsNoTickets(s, shows);
    } else {
      var rest, last := WithShow(s, ids[..|ids| - 1], shows), ids[|ids| - 1];
      ShowsShareSessions(s, ids[..|ids| - 1], shows);
      ShowsOneMoreSession(s, ids, shows);
      assert (rest + [last])[..|rest|] == rest;
    }
  }

  /** The session or its show is off the lists. */
  ghost predicate Stranded(s: State, sessionId: int) {
    !(sessionId in s.sessionList && sessionId in s.sessions && s.sessions[sessionId].showId in s.showList)
  }

  /** The confirmed tickets of stranded reservations. */
  ghost function StrandedTickets(s: State, rs: seq<Reservation>): int {
    if rs == [] then 0
    else
      var last := rs[|rs| - 1];
      StrandedTickets(s, rs[..|rs| - 1]) +
        if last.status == CONFIRMED && Stranded(s, last.sessionId) then last.ticketCount else 0
  }

  lemma {:induction false} ElsewhereIsStranded(s: State, rs: seq<Reservation>, ids: seq<int>)
    requires forall id :: id in ids <==> !Stranded(s, id)
    ensures TicketsElsewhere(rs, ids) == StrandedTickets(s, rs)
  {
    if rs != [] {
      ElsewhereIsStranded(s, rs[..|rs| - 1], ids);
    }
  }

  /** In any store whose lists name existing objects, the tickets reported show by show are all confirmed tickets but
      those of stranded reservations. */
  lemma {:induction false} TicketsAccounted(s: State)
    requires ListsRefer(s)
    ensures TicketsOfShows(s, s.sessionList, s.showList) + StrandedTickets(s, s.reservations) ==
            AllConfirmed(s.reservations)
  {
    var kept := WithShow(s, s.sessionList, s.showList);
    WithShowExact(s, s.sessionList, s.showList);
    forall i | 0 <= i < |s.sessionList| ensures s.sessionList[i] in s.sessions {
      var id := s.sessionList[i];
      assert id in s.sessionList;
    }
    ShowsShareSessions(s, s.sessionList, s.showList);
    SessionsShareTickets(s.reservations, kept);
    ElsewhereIsStranded(s, s.reservations, kept);
  }

  ghost predicate NoTicketStranded(s: State, rs: seq<Reservation>) {
    forall i :: 0 <= i < |rs| && rs[i].status == CONFIRMED ==> !Stranded(s, rs[i].sessionId)
  }

  lemma {:induction false} StrandedTicketsIff(s: State, rs: seq<Reservation>)
    requires forall i :: 0 <= i < |rs| ==> 1 <= rs[i].ticketCount
    ensures 0 <= StrandedTickets(s, rs) && (StrandedTickets(s, rs) == 0 <==> NoTicketStranded(s, rs))
  {
    if rs != [] {
      var init, last := rs[..|rs| - 1], rs[|rs| - 1];
      StrandedTicketsIff(s, init);
      assert NoTicketStranded(s, rs) ==> NoTicketStranded(s, init) by {
        if NoTicketStranded(s, rs) {
          forall i | 0 <= i < |init| && init[i].status == CONFIRMED ensures !Stranded(s, init[i].sessionId) {
            assert rs[i] == init[i];
          }
        }
      }
      assert NoTicketStranded(s, init) && (last.status == CONFIRMED ==> !Stranded(s, last.sessionId)) ==>
          NoTicketStranded(s, rs);
    }
  }

  /** After any interleaved run the reports fall short of all confirmed tickets by those of stranded reservations, and
      so add up exactly when every confirmed reservation still has its session and show. */
  lemma {:induction false} TicketsConservedIff(w: World, es: seq<(Event, int)>)
    requires WorldOk(w)
    ensures AllHold(w)
    ensures var s := RunWorld(w, es).s;
            var reported := TicketsOfShows(s, s.sessionList, s.showList);
            && reported + StrandedTickets(s, s.reservations) == AllConfirmed(s.reservations)
            && reported <= AllConfirmed(s.reservations)
            && (reported == AllConfirmed(s.reservations) <==> NoTicketStranded(s, s.reservations))
    decreases |es|
  {
    if es == [] {
      TicketsAccounted(w.s);
      StrandedTicketsIff(w.s, w.s.reservations);
    } else {
      NextKeepsWorldOk(w, es[0].0, es[0].1);
      TicketsConservedIff(Next(w, es[0].0, es[0].1), es[1..]);
    }
  }

  /** In a whole store the tickets reported show by show add up to all confirmed tickets. */
  lemma {:induction false} TicketsConserved(s: State)
    requires Whole(s)
    ensures TicketsOfShows(s, s.sessionList, s.showList) == AllConfirmed(s.reservations)
  {
    forall i | 0 <= i < |s.reservations| ensures !Stranded(s, s.reservations[i].sessionId) {
      assert SessionPublished(s, s.reservations[i].sessionId);
    }
    TicketsAccounted(s);
    StrandedTicketsIff(s, s.reservations);
  }

  // ---------- The public view ----------

  datatype SessionView = SessionView(maxTicketCount: int, bookable: bool)

  function View(s: State, show: Show, sessionId: int, now: int): SessionView
    requires sessionId in s.sessions
  {
    var open := !show.hidden && show.status == OPEN && now < s.sessions[sessionId].startsAt;
    if show.external then SessionView(0, open)
    else
      var remaining := RemainingSeats(s, sessionId);
      SessionView(if remaining < MAX_TICKETS then remaining else MAX_TICKETS, open && remaining > 0)
  }

  /** For a show the public can see and book here, the view is exact: at that instant a well-formed booking from a
      phone without one is accepted iff the session shows as bookable and the count is within what it shows. Accepting
      it takes the tickets off what is shown next. */
  lemma {:induction false} ViewExact(s: State, showId: string, sessionId: int, b: Booking, now: int)
    requires Whole(s) && showId in s.showList && SessionListed(s, showId, sessionId)
    requires !s.shows[showId].hidden && s.shows[showId].status != DRAFT && !s.shows[showId].external
    requires b.wellFormed && !AlreadyBooked(s, sessionId, b.phone)
    ensures var view := View(s, s.shows[showId], sessionId, now);
            var (t, outcome) := Atomic(s, Reserving(showId, sessionId, b), now);
            && (outcome == Done <==> view.bookable && 1 <= b.ticketCount <= view.maxTicketCount)
            && (outcome == Done ==>
                  && sessionId in t.sessions
                  && RemainingSeats(t, sessionId) == RemainingSeats(s, sessionId) - b.ticketCount
                  && AlreadyBooked(t, sessionId, b.phone))
  {
    var (t, outcome) := Atomic(s, Reserving(showId, sessionId, b), now);
    if outcome == Done {
      var r := t.reservations[|s.reservations|];
      ReservedAppend(s.reservations, r, sessionId);
      assert HoldsConfirmed(r, sessionId, b.phone);
    }
  }
}

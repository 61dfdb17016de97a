/** Exactly which interleaved runs leave every reservation its session and every session its show. */
module ShowsRuns {
  import opened Wrappers
  import opened Shows
  import opened ShowsSafety
  import opened ShowsWhole

  // ---------- What every interleaving keeps of shows and sessions ----------

  /** The lists name objects that exist, every session object's show object exists, and no reservation was ever made for
      a draft. Deleted objects are included. */
  ghost predicate Rooted(s: State) {
    && ListsRefer(s)
    && (forall id :: id in s.sessions ==> s.sessions[id].showId in s.shows)
    && forall i :: 0 <= i < |s.reservations| ==> Opened(s, s.reservations[i].sessionId)
  }

  ghost predicate Opened(s: State, sessionId: int) {
    && sessionId in s.sessions && s.sessions[sessionId].showId in s.shows
    && s.shows[s.sessions[sessionId].showId].status != DRAFT
  }

  ghost predicate WorldOk(w: World) {
    Safe(w.s) && Rooted(w.s) && forall k :: 0 <= k < |w.waiting| ==> Held(w.s, w.waiting[k])
  }

  /** Objects stay: a session keeps its show, a show its kind, and no show goes back to the draft stage. */
  ghost predicate Steady(s: State, t: State) {
    && Grows(s, t)
    && (forall id :: id in s.sessions ==> t.sessions[id].showId == s.sessions[id].showId)
    && forall id :: id in s.shows ==>
         t.shows[id].external == s.shows[id].external && (t.shows[id].status == DRAFT ==> s.shows[id].status == DRAFT)
  }

  /** Only new objects are put on the lists, and a session whose show is not listed stays where it is. */
  ghost predicate ListsMove(s: State, t: State) {
    && (forall id :: id in t.sessionList ==> id in s.sessionList || id !in s.sessions)
    && (forall id :: id in t.showList ==> id in s.showList || id !in s.shows)
    && forall id :: id in s.sessionList && id in s.sessions && s.sessions[id].showId !in s.showList ==>
       id in t.sessionList
  }

  ghost predicate Moves(s: State, t: State) {
    Steady(s, t) && ListsMove(s, t) && ListsRefer(t)
  }

  lemma {:induction false} ReservationChangeMoves(s: State, t: State)
    requires Grows(s, t) && ListsRefer(s)
    requires t == s.(reservations := t.reservations, nextReservation := t.nextReservation)
    ensures Moves(s, t)
  {
  }

  /** A change to one show object that does not bring it back to the draft stage. */
  lemma {:induction false} ShowChangeMoves(s: State, showId: string, show: Show)
    requires ListsRefer(s) && showId in s.shows && show.external == s.shows[showId].external && show.status != DRAFT
    ensures Moves(s, s.(shows := s.shows[showId := show]))
  {
  }

  lemma {:induction false} NewShowMoves(s: State, showId: string, show: Show)
    requires ListsRefer(s) && showId !in s.shows
    ensures Moves(s, s.(shows := s.shows[showId := show], showList := s.showList + [showId]))
  {
    assert showId !in s.showList;
  }

  lemma {:induction false} SessionChangeMoves(s: State, id: int, session: Session)
    requires ListsRefer(s) && id in s.sessions && session.showId == s.sessions[id].showId
    ensures Moves(s, s.(sessions := s.sessions[id := session]))
  {
  }

  lemma {:induction false} NewSessionMoves(s: State, session: Session)
    requires ListsRefer(s) && s.nextSession !in s.sessions
    ensures Moves(s, s.(sessions := s.sessions[s.nextSession := session],
                        sessionList := s.sessionList + [s.nextSession], nextSession := s.nextSession + 1))
  {
    assert s.nextSession !in s.sessionList;
  }

  /** Things are only taken off the lists, and no session whose show is not listed. */
  lemma {:induction false} ShorterListsMove(s: State, t: State)
    requires ListsRefer(s) && Distinct(t.showList) && Distinct(t.sessionList)
    requires t == s.(showList := t.showList, sessionList := t.sessionList)
    requires forall id :: id in t.showList ==> id in s.showList
    requires forall id :: id in t.sessionList ==> id in s.sessionList
    requires forall id :: id in s.sessionList && id !in t.sessionList ==>
               id in s.sessions && s.sessions[id].showId in s.showList
    ensures Moves(s, t)
  {
  }

  lemma {:induction false} NothingMoves(s: State)
    requires ListsRefer(s)
    ensures Moves(s, s)
  {
  }

  lemma {:induction false} CommitMoves(s: State, r: Request, now: int)
    requires Safe(s) && ListsRefer(s) && Holds(s, r)
    ensures Moves(s, Commit(s, r, now).0)
  {
    var (t, outcome) := Commit(s, r, now);
    if outcome != Done {
      assert t == s;
      NothingMoves(s);
    } else if r.Reserving? || r.Resizing? {
      CommitGrows(s, r, now);
      ReservationChangeMoves(s, t);
    } else if r.EditingSession? {
      assert t == s.(sessions := s.sessions[r.sessionId := t.sessions[r.sessionId]]);
      SessionChangeMoves(s, r.sessionId, t.sessions[r.sessionId]);
    } else if r.AddingSession? {
      NewSessionMoves(s, t.sessions[s.nextSession]);
    } else {
      ShowChangeMoves(s, r.showId, t.shows[r.showId]);
    }
  }

  lemma {:induction false} DeleteShowMoves(s: State, scope: Scope, showId: string, now: int)
    requires ListsRefer(s) && Execute(s, DeleteShow(scope, showId), now).1 == Done
    ensures Moves(s, Execute(s, DeleteShow(scope, showId), now).0)
  {
    var t := Execute(s, DeleteShow(scope, showId), now).0;
    RemoveExact(s.showList, showId);
    ShowSessionsExact(s, s.sessionList, showId);
    RemoveAllExact(s.sessionList, ShowSessions(s, s.sessionList, showId));
    ShorterListsMove(s, t);
  }

  lemma {:induction false} DeleteSessionMoves(s: State, scope: Scope, showId: string, sessionId: int, now: int)
    requires ListsRefer(s) && Execute(s, DeleteSession(scope, showId, sessionId), now).1 == Done
    ensures Moves(s, Execute(s, DeleteSession(scope, showId, sessionId), now).0)
  {
    var t := Execute(s, DeleteSession(scope, showId, sessionId), now).0;
    RemoveExact(s.sessionList, sessionId);
    ShorterListsMove(s, t);
  }

  lemma {:induction false} ExecuteMoves(s: State, c: Command, now: int)
    requires ListsRefer(s)
    ensures Moves(s, Execute(s, c, now).0)
  {
    var (t, outcome) := Execute(s, c, now);
    if outcome != Done {
      assert t == s;
      NothingMoves(s);
    } else {
      match c
      case AddShow(scope, showId) => NewShowMoves(s, showId, t.shows[showId]);
      case DeleteShow(scope, showId) => DeleteShowMoves(s, scope, showId, now);
      case DeleteSession(scope, showId, sessionId) => DeleteSessionMoves(s, scope, showId, sessionId, now);
      case OpenShow(_, showId) => ShowChangeMoves(s, showId, t.shows[showId]);
      case CloseShow(_, showId) => ShowChangeMoves(s, showId, t.shows[showId]);
      case Cancel(id) =>
        FindReservationExact(s.reservations, id);
        ReservationChangeMoves(s, t);
    }
  }

  // ---------- What is rooted stays so ----------

  lemma {:induction false} OpenedStays(s: State, t: State, sessionId: int)
    requires Steady(s, t) && Opened(s, sessionId)
    ensures Opened(t, sessionId)
  {
  }

  lemma {:induction false} HeldStays(s: State, t: State, r: Request)
    requires Steady(s, t) && Held(s, r)
    ensures Held(t, r)
  {
    HoldsStays(s, t, r);
  }

  lemma {:induction false} RootedStays(s: State, t: State)
    requires Rooted(s) && Moves(s, t)
    requires forall id :: id in t.sessions && id !in s.sessions ==> t.sessions[id].showId in t.shows
    requires forall i :: 0 <= i < |t.reservations| ==>
               || (i < |s.reservations| && t.reservations[i].sessionId == s.reservations[i].sessionId)
               || Opened(t, t.reservations[i].sessionId)
    ensures Rooted(t)
  {
    forall i | 0 <= i < |t.reservations| ensures Opened(t, t.reservations[i].sessionId) {
      if i < |s.reservations| && t.reservations[i].sessionId == s.reservations[i].sessionId {
        OpenedStays(s, t, s.reservations[i].sessionId);
      }
    }
    forall id | id in t.sessions ensures t.sessions[id].showId in t.shows {
      if id in s.sessions {
        assert t.sessions[id].showId == s.sessions[id].showId;
      }
    }
  }

  lemma {:induction false} NewSessionsHaveShows(s: State, r: Request, now: int)
    requires Holds(s, r)
    ensures var t := Commit(s, r, now).0;
            forall id :: id in t.sessions && id !in s.sessions ==> t.sessions[id].showId in t.shows
  {
  }

  lemma {:induction false} ReservationsFollow(s: State, r: Request, now: int)
    requires Held(s, r)
    ensures var t := Commit(s, r, now).0;
            forall i :: 0 <= i < |t.reservations| ==>
              || (i < |s.reservations| && t.reservations[i].sessionId == s.reservations[i].sessionId)
              || Opened(t, t.reservations[i].sessionId)
  {
    if r.Resizing? {
      FindReservationExact(s.reservations, r.reservationId);
    }
  }

  lemma {:induction false} CommitKeepsRooted(s: State, r: Request, now: int)
    requires Safe(s) && Rooted(s) && Held(s, r)
    ensures Rooted(Commit(s, r, now).0)
  {
    CommitMoves(s, r, now);
    NewSessionsHaveShows(s, r, now);
    ReservationsFollow(s, r, now);
    RootedStays(s, Commit(s, r, now).0);
  }

  lemma {:induction false} ExecuteKeepsRooted(s: State, c: Command, now: int)
    requires Rooted(s)
    ensures Rooted(Execute(s, c, now).0)
  {
    ExecuteMoves(s, c, now);
    if c.Cancel? {
      FindReservationExact(s.reservations, c.reservationId);
    }
    RootedStays(s, Execute(s, c, now).0);
  }

  lemma {:induction false} AllHeldStay(s: State, t: State, waiting: seq<Request>)
    requires Steady(s, t) && forall k :: 0 <= k < |waiting| ==> Held(s, waiting[k])
    ensures forall k :: 0 <= k < |waiting| ==> Held(t, waiting[k])
  {
    forall k | 0 <= k < |waiting| ensures Held(t, waiting[k]) {
      HeldStays(s, t, waiting[k]);
    }
  }

  lemma {:induction false} ResumeKeepsWorldOk(w: World, k: nat, now: int)
    requires WorldOk(w) && AllHold(w) && k < |w.waiting|
    ensures WorldOk(Next(w, Resume(k), now)) && Moves(w.s, Next(w, Resume(k), now).s)
  {
    var r := w.waiting[k];
    assert Held(w.s, r);
    var t := Commit(w.s, r, now).0;
    CommitKeepsSafe(w.s, r, now);
    CommitMoves(w.s, r, now);
    CommitKeepsRooted(w.s, r, now);
    AllHeldStay(w.s, t, w.waiting);
  }

  lemma {:induction false} NowKeepsWorldOk(w: World, c: Command, now: int)
    requires WorldOk(w) && AllHold(w)
    ensures WorldOk(Next(w, Now(c), now)) && Moves(w.s, Next(w, Now(c), now).s)
  {
    var t := Execute(w.s, c, now).0;
    ExecuteKeepsSafe(w.s, c, now);
    ExecuteMoves(w.s, c, now);
    ExecuteKeepsRooted(w.s, c, now);
    AllHeldStay(w.s, t, w.waiting);
  }

  lemma {:induction false} NextKeepsWorldOk(w: World, e: Event, now: int)
    requires WorldOk(w)
    ensures AllHold(w) && WorldOk(Next(w, e, now)) && Moves(w.s, Next(w, e, now).s)
  {
    assert AllHold(w) by {
      forall k | 0 <= k < |w.waiting| ensures Holds(w.s, w.waiting[k]) {
        assert Held(w.s, w.waiting[k]);
      }
    }
    match e
    case Arrive(request) => NothingMoves(w.s);
    case Resume(k) =>
      if k < |w.waiting| {
        ResumeKeepsWorldOk(w, k, now);
      } else {
        NothingMoves(w.s);
      }
    case Now(command) => NowKeepsWorldOk(w, command, now);
  }

  // ---------- Nothing stranded ----------

  ghost predicate NoneStranded(s: State) {
    && SessionsHaveShows(s)
    && forall i :: 0 <= i < |s.reservations| ==> s.reservations[i].sessionId in s.sessionList
  }

  lemma {:induction false} WholeIff(s: State)
    requires Safe(s) && Rooted(s)
    ensures Whole(s) <==> NoneStranded(s)
  {
    forall i | 0 <= i < |s.reservations|
      ensures SessionPublished(s, s.reservations[i].sessionId) <==> s.reservations[i].sessionId in s.sessionList
    {
      assert Opened(s, s.reservations[i].sessionId);
    }
  }

  /** What has been stranded once stays so. */
  lemma {:induction false} StrandedStays(w: World, e: Event, now: int)
    requires WorldOk(w) && !NoneStranded(w.s)
    ensures AllHold(w) && !NoneStranded(Next(w, e, now).s)
  {
    var s, t := w.s, Next(w, e, now).s;
    NextKeepsWorldOk(w, e, now);
    NextKeepsCanceled(w, e, now);
    if SessionsHaveShows(s) {
      var i :| 0 <= i < |s.reservations| && s.reservations[i].sessionId !in s.sessionList;
      assert t.reservations[i].sessionId == s.reservations[i].sessionId;
    } else {
      var id :| id in s.sessionList && id in s.sessions && s.sessions[id].showId !in s.showList;
      assert id in t.sessionList && t.sessions[id].showId !in t.showList;
    }
  }

  /** The step strands nothing: a handler that resumes is refused, or what it books or adds to is still listed. */
  predicate StrandsNothing(w: World, e: Event, now: int)
    requires AllHold(w)
  {
    e.Resume? && e.k < |w.waiting| ==> Unbroken(w.s, w.waiting[e.k], now)
  }

  lemma {:induction false} NextWholeIff(w: World, e: Event, now: int)
    requires WorldOk(w) && Whole(w.s)
    ensures AllHold(w) && (Whole(Next(w, e, now).s) <==> StrandsNothing(w, e, now))
  {
    match e
    case Arrive(_) =>
    case Resume(k) =>
      if k < |w.waiting| {
        CommitWholeIff(w.s, w.waiting[k], now);
      }
    case Now(command) => ExecuteKeepsWhole(w.s, command, now);
  }

  ghost predicate RunStrandsNothing(w: World, es: seq<(Event, int)>)
    requires WorldOk(w)
    decreases |es|
  {
    es == [] ||
    (NextKeepsWorldOk(w, es[0].0, es[0].1);
     StrandsNothing(w, es[0].0, es[0].1) && RunStrandsNothing(Next(w, es[0].0, es[0].1), es[1..]))
  }

  lemma {:induction false} StrandedRun(w: World, es: seq<(Event, int)>)
    requires WorldOk(w) && !NoneStranded(w.s)
    ensures AllHold(w) && !Whole(RunWorld(w, es).s)
    decreases |es|
  {
    if es == [] {
      WholeIff(w.s);
    } else {
      NextKeepsWorldOk(w, es[0].0, es[0].1);
      StrandedStays(w, es[0].0, es[0].1);
      StrandedRun(Next(w, es[0].0, es[0].1), es[1..]);
    }
  }

  /** Over every interleaved run from a whole store: each reservation still has its session and each session its show
      at the end, exactly when no handler resumed successfully on a session or show that had left the lists. */
  lemma {:induction false} RunWholeIff(w: World, es: seq<(Event, int)>)
    requires WorldOk(w) && Whole(w.s)
    ensures AllHold(w) && (Whole(RunWorld(w, es).s) <==> RunStrandsNothing(w, es))
    decreases |es|
  {
    if es != [] {
      var x := Next(w, es[0].0, es[0].1);
      NextKeepsWorldOk(w, es[0].0, es[0].1);
      NextWholeIff(w, es[0].0, es[0].1);
      if Whole(x.s) {
        RunWholeIff(x, es[1..]);
      } else {
        WholeIff(x.s);
        StrandedRun(x, es[1..]);
      }
    }
  }

  // ---------- A discipline that is enough ----------

  /** A deletion that goes through hits nothing that a waiting booking or addition holds. */
  predicate Spares(w: World, e: Event, now: int) {
    e.Now? && Execute(w.s, e.command, now).1 == Done ==>
      match e.command
      case DeleteShow(_, showId) =>
        forall k :: 0 <= k < |w.waiting| && (w.waiting[k].Reserving? || w.waiting[k].AddingSession?) ==>
          w.waiting[k].showId != showId
      case DeleteSession(_, _, sessionId) =>
        forall k :: 0 <= k < |w.waiting| && w.waiting[k].Reserving? ==> w.waiting[k].sessionId != sessionId
      case _ => true
  }

  ghost predicate RunSpares(w: World, es: seq<(Event, int)>)
    requires WorldOk(w)
    decreases |es|
  {
    es == [] ||
    (NextKeepsWorldOk(w, es[0].0, es[0].1);
     Spares(w, es[0].0, es[0].1) && RunSpares(Next(w, es[0].0, es[0].1), es[1..]))
  }

  ghost predicate StillListed(s: State, r: Request) {
    (r.Reserving? ==> r.sessionId in s.sessionList) && (r.AddingSession? ==> r.showId in s.showList)
  }

  ghost predicate AllListed(w: World) {
    forall k :: 0 <= k < |w.waiting| ==> StillListed(w.s, w.waiting[k])
  }

  lemma {:induction false} CommitKeepsListed(s: State, r: Request, other: Request, now: int)
    requires Holds(s, r) && StillListed(s, other)
    ensures StillListed(Commit(s, r, now).0, other)
  {
  }

  lemma {:induction false} ExecuteKeepsListed(w: World, c: Command, now: int, k: nat)
    requires WorldOk(w) && k < |w.waiting| && StillListed(w.s, w.waiting[k]) && Spares(w, Now(c), now)
    ensures StillListed(Execute(w.s, c, now).0, w.waiting[k])
  {
    var s := w.s;
    assert Held(s, w.waiting[k]);
    match c
    case DeleteShow(_, showId) =>
      RemoveExact(s.showList, showId);
      ShowSessionsExact(s, s.sessionList, showId);
      RemoveAllExact(s.sessionList, ShowSessions(s, s.sessionList, showId));
    case DeleteSession(_, _, sessionId) => RemoveExact(s.sessionList, sessionId);
    case _ =>
  }

  lemma {:induction false} SparingKeepsListed(w: World, e: Event, now: int)
    requires WorldOk(w) && AllListed(w) && Spares(w, e, now)
    ensures AllHold(w) && AllListed(Next(w, e, now)) && StrandsNothing(w, e, now)
  {
    var x := Next(w, e, now);
    forall i | 0 <= i < |x.waiting| ensures StillListed(x.s, x.waiting[i]) {
      match e
      case Arrive(_) =>
      case Resume(k) =>
        if k < |w.waiting| {
          CommitKeepsListed(w.s, w.waiting[k], x.waiting[i], now);
        }
      case Now(command) => ExecuteKeepsListed(w, command, now, i);
    }
  }

  /** An interleaved run in which no deletion that goes through hits a session or show that a waiting booking or
      addition holds, ends whole. */
  lemma {:induction false} SparingRunStaysWhole(w: World, es: seq<(Event, int)>)
    requires WorldOk(w) && Whole(w.s) && AllListed(w) && RunSpares(w, es)
    ensures AllHold(w) && Whole(RunWorld(w, es).s)
    decreases |es|
  {
    if es != [] {
      NextKeepsWorldOk(w, es[0].0, es[0].1);
      SparingKeepsListed(w, es[0].0, es[0].1);
      NextWholeIff(w, es[0].0, es[0].1);
      SparingRunStaysWhole(Next(w, es[0].0, es[0].1), es[1..]);
    }
  }

  // ---------- Bookings that a new arrival would be refused ----------

  /** A booking that waited is taken although a new one would be turned away exactly when the booking itself is in
      order, and during the wait the show or the session was deleted, or the show hidden or closed. */
  lemma {:induction false} LateBookingIff(w: World, k: nat, now: int)
    requires WorldOk(w) && k < |w.waiting| && w.waiting[k].Reserving?
    ensures var (s, r) := (w.s, w.waiting[k]);
            && Held(s, r)
            && (Commit(s, r, now).1 == Done && Begin(s, r) != Done <==>
                  && Admits(s, r.sessionId, r.booking, now)
                  && (r.showId !in s.showList || r.sessionId !in s.sessionList
                      || s.shows[r.showId].hidden || s.shows[r.showId].status != OPEN))
  {
    assert Held(w.s, w.waiting[k]);
  }

  // ---------- Runs that break it ----------

  lemma {:induction false} RunOfThree(w: World, a: (Event, int), b: (Event, int), c: (Event, int), x: World, y: World)
    requires WorldOk(w) && AllHold(w) && Next(w, a.0, a.1) == x && AllHold(x) && Next(x, b.0, b.1) == y
    ensures AllHold(y) && RunWorld(w, [a, b, c]) == Next(y, c.0, c.1)
  {
    NextKeepsWorldOk(w, a.0, a.1);
    NextKeepsWorldOk(x, b.0, b.1);
    NextKeepsWorldOk(y, c.0, c.1);
    assert [a, b, c][1..] == [b, c] && [b, c][1..] == [c] && [c][1..] == [];
    assert RunWorld(w, [a, b, c]) == RunWorld(x, [b, c]);
    assert RunWorld(x, [b, c]) == RunWorld(y, [c]);
    assert RunWorld(y, [c]) == RunWorld(Next(y, c.0, c.1), []);
  }

  const CLOSED_SHOW := ONE_SHOW.(shows := map["show" := Show(CLOSED, false, false)])
  const TAKEN := Reservation(1, 7, 1012345678, 2, CONFIRMED)

  lemma {:induction false} OneShowOk()
    ensures WorldOk(World(ONE_SHOW, [])) && Whole(ONE_SHOW)
  {
    DeletionDuringWaitHappens();
  }

  lemma {:induction false} BookingWaits()
    ensures AllHold(World(ONE_SHOW, []))
    ensures Next(World(ONE_SHOW, []), Arrive(TWO_SEATS), 0) == World(ONE_SHOW, [TWO_SEATS])
  {
    DeletionDuringWaitHappens();
  }

  lemma {:induction false} ShowCloses()
    ensures Execute(ONE_SHOW, CloseShow(PRODUCER, "show"), 1).0 == CLOSED_SHOW
  {
    assert "show" in ["show"];
  }

  lemma {:induction false} BookingTaken()
    ensures Reserve(CLOSED_SHOW, 7, TWO_SEATS.booking, 2).0.reservations == [TAKEN]
    ensures Reserve(CLOSED_SHOW, 7, TWO_SEATS.booking, 2).0.shows == CLOSED_SHOW.shows
  {
    assert Reserved([], 7) == 0;
    assert RemainingSeats(CLOSED_SHOW, 7) == 30;
  }

  /** It happens in a store with one open show: the show is closed while a booking waits, and the booking is still
      taken. */
  lemma {:induction false} LateBookingHappens()
    ensures WorldOk(World(ONE_SHOW, [])) && AllHold(World(ONE_SHOW, []))
    ensures var es := [(Arrive(TWO_SEATS), 0), (Now(CloseShow(PRODUCER, "show")), 1), (Resume(0), 2)];
            var t := RunWorld(World(ONE_SHOW, []), es).s;
            "show" in t.shows && t.shows["show"].status == CLOSED && t.reservations == [TAKEN]
  {
    OneShowOk();
    BookingWaits();
    ShowCloses();
    assert Next(World(ONE_SHOW, [TWO_SEATS]), Now(CloseShow(PRODUCER, "show")), 1) == World(CLOSED_SHOW, [TWO_SEATS]);
    BookingTaken();
    RunOfThree(World(ONE_SHOW, []), (Arrive(TWO_SEATS), 0), (Now(CloseShow(PRODUCER, "show")), 1), (Resume(0), 2),
               World(ONE_SHOW, [TWO_SEATS]), World(CLOSED_SHOW, [TWO_SEATS]));
  }

  const NO_SHOW := ONE_SHOW.(showList := [], sessionList := [])
  const ONE_MORE := AddingSession(PRODUCER, "show", SessionBody(Some(200), Some(30)))
  const SESSION_LEFT := NO_SHOW.(sessions := ONE_SHOW.sessions[1000 := Session("show", 200, 30)], sessionList := [1000],
                                 nextSession := 1001)

  lemma {:induction false} NothingReserved()
    ensures ShowSessions(ONE_SHOW, [7], "show") == [7] && !ShowHasReservations(ONE_SHOW, "show")
  {
    assert [7][..0] == [];
    assert ShowSessions(ONE_SHOW, [7][..0], "show") == [];
  }

  lemma {:induction false} ShowDeleted()
    ensures Execute(ONE_SHOW, DeleteShow(PRODUCER, "show"), 1).0 == NO_SHOW
  {
    NothingReserved();
    assert RemoveAll([7], []) == [7] && RemoveAll([7], [7]) == [];
    assert Remove(["show"], "show") == [];
    assert "show" in ["show"];
  }

  lemma {:induction false} AdditionWaits()
    ensures AllHold(World(ONE_SHOW, [])) && AllHold(World(ONE_SHOW, [ONE_MORE]))
    ensures Next(World(ONE_SHOW, []), Arrive(ONE_MORE), 0) == World(ONE_SHOW, [ONE_MORE])
  {
    assert "show" in ["show"];
  }

  lemma {:induction false} SessionAdded()
    ensures AddSession(NO_SHOW, PRODUCER, "show", ONE_MORE.body, 2).0 == SESSION_LEFT
    ensures !SessionsHaveShows(SESSION_LEFT)
  {
    assert 1000 in [1000];
  }

  /** A show is deleted while the addition of a session to it waits: the session is added and has no show. */
  lemma {:induction false} SessionWithoutShow()
    ensures WorldOk(World(ONE_SHOW, [])) && AllHold(World(ONE_SHOW, [])) && Whole(ONE_SHOW)
    ensures var es := [(Arrive(ONE_MORE), 0), (Now(DeleteShow(PRODUCER, "show")), 1), (Resume(0), 2)];
            RunWorld(World(ONE_SHOW, []), es).s == SESSION_LEFT && !SessionsHaveShows(SESSION_LEFT)
  {
    OneShowOk();
    AdditionWaits();
    ShowDeleted();
    assert Next(World(ONE_SHOW, [ONE_MORE]), Now(DeleteShow(PRODUCER, "show")), 1) == World(NO_SHOW, [ONE_MORE]);
    SessionAdded();
    RunOfThree(World(ONE_SHOW, []), (Arrive(ONE_MORE), 0), (Now(DeleteShow(PRODUCER, "show")), 1), (Resume(0), 2),
               World(ONE_SHOW, [ONE_MORE]), World(NO_SHOW, [ONE_MORE]));
  }
}

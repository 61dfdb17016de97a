/** What holds in addition when every handler runs in one go, and exactly which interleavings break it. */
module ShowsWhole {
  import opened Shows
  import opened ShowsSafety

  ghost predicate Distinct<T>(list: seq<T>) {
    forall i, j :: 0 <= i < j < |list| ==> list[i] != list[j]
  }

  ghost predicate ListsRefer(s: State) {
    && Distinct(s.showList) && (forall id :: id in s.showList ==> id in s.shows)
    && Distinct(s.sessionList) && (forall id :: id in s.sessionList ==> id in s.sessions)
  }

  ghost predicate SessionsHaveShows(s: State) {
    forall id :: id in s.sessionList && id in s.sessions ==> s.sessions[id].showId in s.showList
  }

  ghost predicate SessionPublished(s: State, sessionId: int) {
    && sessionId in s.sessionList && sessionId in s.sessions && s.sessions[sessionId].showId in s.shows
    && s.shows[s.sessions[sessionId].showId].status != DRAFT
  }

  /** Every reservation's session is there, in a show that is there and has left the draft stage. */
  ghost predicate ReservationsPublished(s: State) {
    forall i :: 0 <= i < |s.reservations| ==> SessionPublished(s, s.reservations[i].sessionId)
  }

  ghost predicate Whole(s: State) {
    Safe(s) && ListsRefer(s) && SessionsHaveShows(s) && ReservationsPublished(s)
  }

  // ---------- Removing from the lists ----------

  lemma {:induction false} RemoveExact<T>(list: seq<T>, x: T)
    requires Distinct(list)
    ensures Distinct(Remove(list, x)) && forall y :: y in Remove(list, x) <==> y in list && y != x
  {
    if list != [] {
      assert forall y :: y in list <==> y == list[0] || y in list[1..];
      if list[0] != x {
        RemoveExact(list[1..], x);
        assert list[0] !in list[1..];
      }
    }
  }

  lemma {:induction false} RemoveAllExact(list: seq<int>, gone: seq<int>)
    requires Distinct(list)
    ensures Distinct(RemoveAll(list, gone)) && forall y :: y in RemoveAll(list, gone) <==> y in list && y !in gone
  {
    if gone != [] {
      var init, last := gone[..|gone| - 1], gone[|gone| - 1];
      RemoveAllExact(list, init);
      RemoveExact(RemoveAll(list, init), last);
      assert forall y :: y in gone <==> y == last || y in init;
    }
  }

  lemma {:induction false} ShowSessionsExact(s: State, ids: seq<int>, showId: string)
    ensures forall id :: id in ShowSessions(s, ids, showId) <==>
            id in ids && id in s.sessions && s.sessions[id].showId == showId
  {
    if ids != [] {
      var init, last := ids[..|ids| - 1], ids[|ids| - 1];
      ShowSessionsExact(s, init, showId);
      assert forall id :: id in ids <==> id == last || id in init;
    }
  }

  // ---------- Commands ----------

  lemma {:induction false} DeleteShowKeepsWhole(s: State, scope: Scope, showId: string, now: int)
    requires Whole(s)
    ensures Whole(Execute(s, DeleteShow(scope, showId), now).0)
  {
    var t := Execute(s, DeleteShow(scope, showId), now).0;
    if t != s {
      var gone := ShowSessions(s, s.sessionList, showId);
      RemoveExact(s.showList, showId);
      RemoveAllExact(s.sessionList, gone);
      ShowSessionsExact(s, s.sessionList, showId);
      forall i | 0 <= i < |t.reservations| ensures SessionPublished(t, t.reservations[i].sessionId) {
        assert SessionPublished(s, s.reservations[i].sessionId);
        assert s.reservations[i].sessionId !in gone;
      }
    }
  }

  lemma {:induction false} DeleteSessionKeepsWhole(s: State, scope: Scope, showId: string, sessionId: int, now: int)
    requires Whole(s)
    ensures Whole(Execute(s, DeleteSession(scope, showId, sessionId), now).0)
  {
    var t := Execute(s, DeleteSession(scope, showId, sessionId), now).0;
    if t != s {
      RemoveExact(s.sessionList, sessionId);
      forall i | 0 <= i < |t.reservations| ensures SessionPublished(t, t.reservations[i].sessionId) {
        assert SessionPublished(s, s.reservations[i].sessionId);
        assert s.reservations[i].sessionId != sessionId;
      }
    }
  }

  /** A change to one show object that does not bring it back to the draft stage. */
  lemma {:induction false} ShowChangeKeepsWhole(s: State, showId: string, show: Show)
    requires Whole(s) && showId in s.shows && show.status != DRAFT
    ensures Whole(s.(shows := s.shows[showId := show]))
  {
    var t := s.(shows := s.shows[showId := show]);
    forall i | 0 <= i < |t.reservations| ensures SessionPublished(t, t.reservations[i].sessionId) {
      assert SessionPublished(s, s.reservations[i].sessionId);
    }
  }

  lemma {:induction false} AddShowKeepsWhole(s: State, scope: Scope, showId: string, now: int)
    requires Whole(s)
    ensures Whole(Execute(s, AddShow(scope, showId), now).0)
  {
    var t := Execute(s, AddShow(scope, showId), now).0;
    forall i | 0 <= i < |t.reservations| ensures SessionPublished(t, t.reservations[i].sessionId) {
      assert SessionPublished(s, s.reservations[i].sessionId);
    }
  }

  lemma {:induction false} CancelKeepsWhole(s: State, id: int)
    requires Whole(s)
    ensures Whole(CancelFound(s, id).0)
  {
    var t := CancelFound(s, id).0;
    CancelKeepsSafe(s, id);
    FindReservationExact(s.reservations, id);
    forall i | 0 <= i < |t.reservations| ensures SessionPublished(t, t.reservations[i].sessionId) {
      assert SessionPublished(s, s.reservations[i].sessionId);
    }
  }

  lemma {:induction false} ExecuteKeepsWhole(s: State, c: Command, now: int)
    requires Whole(s)
    ensures Whole(Execute(s, c, now).0)
  {
    match c
    case AddShow(scope, showId) => AddShowKeepsWhole(s, scope, showId, now);
    case DeleteShow(scope, showId) => DeleteShowKeepsWhole(s, scope, showId, now);
    case OpenShow(scope, showId) =>
      if Execute(s, c, now).0 != s {
        ShowChangeKeepsWhole(s, showId, s.shows[showId].(status := OPEN));
      }
    case CloseShow(scope, showId) =>
      if Execute(s, c, now).0 != s {
        ShowChangeKeepsWhole(s, showId, s.shows[showId].(status := CLOSED));
      }
    case DeleteSession(scope, showId, sessionId) => DeleteSessionKeepsWhole(s, scope, showId, sessionId, now);
    case Cancel(id) => CancelKeepsWhole(s, id);
  }

  // ---------- Second halves of handlers ----------

  /** What a waiting handler still knows of its objects: a booking's session belongs to its show, which is no draft and
      takes bookings here. Whether they are still listed it does not know. */
  ghost predicate Held(s: State, r: Request) {
    && Holds(s, r)
    && (r.Reserving? ==>
          && s.sessions[r.sessionId].showId == r.showId
          && s.shows[r.showId].status != DRAFT && !s.shows[r.showId].external)
  }

  /** The handler will be refused, or the session it books or the show it adds to is still listed. */
  predicate Unbroken(s: State, r: Request, now: int)
    requires Holds(s, r)
  {
    match r
    case Reserving(_, sessionId, booking) => Admits(s, sessionId, booking, now) ==> sessionId in s.sessionList
    case AddingSession(scope, showId, body) => ValidSession(body, scope, now) ==> showId in s.showList
    case _ => true
  }

  lemma {:induction false} ReserveWhole(s: State, showId: string, sessionId: int, b: Booking, now: int)
    requires Whole(s) && Held(s, Reserving(showId, sessionId, b))
    ensures Whole(Reserve(s, sessionId, b, now).0) <==> Unbroken(s, Reserving(showId, sessionId, b), now)
  {
    var (t, outcome) := Reserve(s, sessionId, b, now);
    ReserveKeepsSafe(s, sessionId, b, now);
    if outcome == Done {
      var n := |s.reservations|;
      assert t.reservations[n].sessionId == sessionId;
      assert SessionPublished(t, sessionId) <==> sessionId in s.sessionList;
      forall i | 0 <= i < n ensures SessionPublished(t, t.reservations[i].sessionId) {
        assert SessionPublished(s, s.reservations[i].sessionId);
      }
    }
  }

  lemma {:induction false} AddSessionWhole(s: State, scope: Scope, showId: string, body: SessionBody, now: int)
    requires Whole(s) && showId in s.shows
    ensures Whole(AddSession(s, scope, showId, body, now).0) <==> Unbroken(s, AddingSession(scope, showId, body), now)
  {
    var (t, outcome) := AddSession(s, scope, showId, body, now);
    AddSessionKeepsSafe(s, scope, showId, body, now);
    if outcome == Done {
      assert s.nextSession in t.sessionList && t.sessions[s.nextSession].showId == showId;
      assert s.nextSession !in s.sessionList;
      forall i | 0 <= i < |t.reservations| ensures SessionPublished(t, t.reservations[i].sessionId) {
        assert SessionPublished(s, s.reservations[i].sessionId);
      }
    }
  }

  lemma {:induction false} EditSessionWhole(s: State, scope: Scope, sessionId: int, body: SessionBody, now: int)
    requires Whole(s) && sessionId in s.sessions
    ensures Whole(EditSession(s, scope, sessionId, body, now).0)
  {
    var t := EditSession(s, scope, sessionId, body, now).0;
    EditSessionKeepsSafe(s, scope, sessionId, body, now);
    forall i | 0 <= i < |t.reservations| ensures SessionPublished(t, t.reservations[i].sessionId) {
      assert SessionPublished(s, s.reservations[i].sessionId);
    }
  }

  lemma {:induction false} ResizeWhole(s: State, i: nat, count: int)
    requires Whole(s) && i < |s.reservations|
    ensures Whole(Resize(s, i, count).0)
  {
    var t := Resize(s, i, count).0;
    ResizeKeepsSafe(s, i, count);
    forall k | 0 <= k < |t.reservations| ensures SessionPublished(t, t.reservations[k].sessionId) {
      assert SessionPublished(s, s.reservations[k].sessionId);
    }
  }

  /** A resumed handler keeps the store whole exactly when it will be refused, or what it books or adds to is still
      listed: only a reservation or a new session can be stranded by a deletion during the wait. */
  lemma {:induction false} CommitWholeIff(s: State, r: Request, now: int)
    requires Whole(s) && Held(s, r)
    ensures Whole(Commit(s, r, now).0) <==> Unbroken(s, r, now)
  {
    match r
    case Reserving(showId, sessionId, booking) => ReserveWhole(s, showId, sessionId, booking, now);
    case Resizing(id, count) =>
      FindReservationExact(s.reservations, id);
      ResizeWhole(s, FindReservation(s.reservations, id).value, count);
    case EditingSession(scope, _, sessionId, body) => EditSessionWhole(s, scope, sessionId, body, now);
    case AddingSession(scope, showId, body) => AddSessionWhole(s, scope, showId, body, now);
    case SettingVisibility(_, showId, hidden) =>
      if Commit(s, r, now).0 != s {
        ShowChangeKeepsWhole(s, showId, s.shows[showId].(hidden := hidden.value));
      }
  }

  lemma {:induction false} BegunIsListed(s: State, r: Request, now: int)
    requires Begin(s, r) == Done
    ensures Held(s, r) && Unbroken(s, r, now)
  {
  }

  /** With handlers run in one go, from any whole store every run stays whole: each reservation's session and each
      session's show exist, and a show with a reservation is neither a draft nor deleted. */
  function RunActions(s: State, actions: seq<(Action, int)>): (t: State)
    requires Whole(s)
    ensures Whole(t)
    decreases |actions|
  {
    if actions == [] then s
    else
      ActKeepsWhole(s, actions[0].0, actions[0].1);
      RunActions(Act(s, actions[0].0, actions[0].1), actions[1..])
  }

  lemma {:induction false} ActKeepsWhole(s: State, a: Action, now: int)
    requires Whole(s)
    ensures Whole(Act(s, a, now))
  {
    match a
    case Complete(request) =>
      if Begin(s, request) == Done {
        BegunIsListed(s, request, now);
        CommitWholeIff(s, request, now);
      }
    case Run(command) => ExecuteKeepsWhole(s, command, now);
  }

  /** Running in one go is the interleaving in which each arrival is resumed at once. */
  lemma {:induction false} AtomicIsInterleaving(w: World, r: Request, now: int)
    requires AllHold(w)
    ensures AllHold(Next(w, Arrive(r), now))
    ensures Next(Next(w, Arrive(r), now), Resume(|w.waiting|), now) == w.(s := Atomic(w.s, r, now).0)
  {
    var x := Next(w, Arrive(r), now);
    if Begin(w.s, r) == Done {
      assert x.waiting[..|w.waiting|] + x.waiting[|w.waiting| + 1..] == w.waiting;
    }
  }

  /** What breaks it: the session is deleted while a booking that will succeed waits for its body. */
  lemma {:induction false} DeletionDuringWait(s: State, r: Request, now: int)
    requires Safe(s) && r.Reserving? && Begin(s, r) == Done && Distinct(s.sessionList)
    requires !HasAnyReservation(s, r.sessionId)
    requires Reserve(s, r.sessionId, r.booking, now).1 == Done
    ensures var w1 := Next(World(s, []), Arrive(r), now);
            && AllHold(w1)
            && var w2 := Next(w1, Now(DeleteSession(PRODUCER, r.showId, r.sessionId)), now);
               && AllHold(w2)
               && var w3 := Next(w2, Resume(0), now);
                  && |w3.s.reservations| == |s.reservations| + 1
                  && w3.s.reservations[|s.reservations|].sessionId == r.sessionId
                  && r.sessionId !in w3.s.sessionList && !Whole(w3.s)
  {
    RemoveExact(s.sessionList, r.sessionId);
    var t := s.(sessionList := Remove(s.sessionList, r.sessionId));
    assert Next(Next(World(s, []), Arrive(r), now), Now(DeleteSession(PRODUCER, r.showId, r.sessionId)), now) ==
           World(t, [r]);
    var u := Reserve(t, r.sessionId, r.booking, now).0;
    assert !SessionPublished(u, u.reservations[|s.reservations|].sessionId);
  }

  /** One open show with one empty session, and two seats asked for. */
  const ONE_SHOW := EMPTY.(shows := map["show" := Show(OPEN, false, false)], showList := ["show"],
                           sessions := map[7 := Session("show", 100, 30)], sessionList := [7])
  const TWO_SEATS := Reserving("show", 7, Booking(true, 1012345678, 2))

  /** Such a store and request exist. */
  lemma {:induction false} DeletionDuringWaitHappens()
    ensures Whole(ONE_SHOW) && Begin(ONE_SHOW, TWO_SEATS) == Done && !HasAnyReservation(ONE_SHOW, 7)
    ensures Reserve(ONE_SHOW, 7, TWO_SEATS.booking, 0).1 == Done
  {
    assert "show" in ["show"] && 7 in [7];
  }
}

/** The shows, sessions and reservations the program starts with. */
module ShowsSeed {
  import opened Shows
  import opened ShowsSafety
  import opened ShowsWhole
  import opened ShowsRuns

  /** Phones as numbers: the seed phones are 010-0000-0001 and up. */
  const SEED_PHONE := 1_000_000_000

  function SeedReservation(s: State, sessionId: int, count: int): Reservation {
    Reservation(s.nextReservation, sessionId, SEED_PHONE + s.nextReservation, count, CONFIRMED)
  }

  /** A session filled with confirmed reservations of at most ten tickets each, from phones of their own. Seats are not
      checked. */
  function Filled(s: State, sessionId: int, tickets: nat): State
    decreases tickets
  {
    if tickets == 0 then s
    else
      var count := if tickets < MAX_TICKETS then tickets else MAX_TICKETS;
      Filled(Booked(s, SeedReservation(s, sessionId, count)), sessionId, tickets - count)
  }

  ghost predicate PhonesBelow(rs: seq<Reservation>, bound: int) {
    forall i :: 0 <= i < |rs| ==> rs[i].phone < bound
  }

  /** There is room for so many tickets, and no phone is yet in the range the seeding draws from. */
  ghost predicate Seedable(s: State, sessionId: int, tickets: int) {
    && Safe(s) && sessionId in s.sessions && PhonesBelow(s.reservations, SEED_PHONE + s.nextReservation)
    && tickets <= s.sessions[sessionId].capacity - Reserved(s.reservations, sessionId)
  }

  /** The later reservations add `tickets` confirmed tickets to one session and none to any other. */
  ghost predicate Seeded(before: seq<Reservation>, after: seq<Reservation>, sessionId: int, tickets: int) {
    && before <= after
    && forall id :: Reserved(after, id) == Reserved(before, id) + if id == sessionId then tickets else 0
  }

  lemma {:induction false} SeedCounts(rs: seq<Reservation>, r: Reservation)
    requires r.status == CONFIRMED
    ensures Seeded(rs, rs + [r], r.sessionId, r.ticketCount)
  {
    forall id ensures Reserved(rs + [r], id) == Reserved(rs, id) + Tickets(r, id) {
      ReservedAppend(rs, r, id);
    }
  }

  lemma {:induction false} SeedStaysSeedable(s: State, sessionId: int, count: int, tickets: int)
    requires Seedable(s, sessionId, tickets) && 1 <= count <= MAX_TICKETS && count <= tickets
    ensures Seedable(Booked(s, SeedReservation(s, sessionId, count)), sessionId, tickets - count)
  {
    var r := SeedReservation(s, sessionId, count);
    BookedKeepsSafe(s, r);
    ReservedAppend(s.reservations, r, sessionId);
  }

  /** Exactly the asked tickets, all in this session, and the store stays safe if there was room. */
  lemma {:induction false} FilledExact(s: State, sessionId: int, tickets: nat)
    ensures Seeded(s.reservations, Filled(s, sessionId, tickets).reservations, sessionId, tickets)
    ensures Seedable(s, sessionId, tickets) ==> Seedable(Filled(s, sessionId, tickets), sessionId, 0)
    decreases tickets
  {
    if tickets > 0 {
      var count := if tickets < MAX_TICKETS then tickets else MAX_TICKETS;
      var t := Booked(s, SeedReservation(s, sessionId, count));
      SeedCounts(s.reservations, SeedReservation(s, sessionId, count));
      if Seedable(s, sessionId, tickets) {
        SeedStaysSeedable(s, sessionId, count, tickets);
      }
      FilledExact(t, sessionId, tickets - count);
    }
  }

  // ---------- The store at the start ----------

  /** A whole store in which no phone is in the range the seeding draws from. */
  ghost predicate Fillable(s: State) {
    Whole(s) && PhonesBelow(s.reservations, SEED_PHONE + s.nextReservation)
  }

  lemma {:induction false} BookedKeepsPublished(s: State, r: Reservation)
    requires ListsRefer(s) && SessionsHaveShows(s) && ReservationsPublished(s) && SessionPublished(s, r.sessionId)
    ensures var t := Booked(s, r); ListsRefer(t) && SessionsHaveShows(t) && ReservationsPublished(t)
  {
    var t := Booked(s, r);
    forall i | 0 <= i < |t.reservations| ensures SessionPublished(t, t.reservations[i].sessionId) {
      if i < |s.reservations| {
        assert SessionPublished(s, s.reservations[i].sessionId);
      }
    }
  }

  lemma {:induction false} FilledKeepsPublished(s: State, sessionId: int, tickets: nat)
    requires ListsRefer(s) && SessionsHaveShows(s) && ReservationsPublished(s) && SessionPublished(s, sessionId)
    ensures var t := Filled(s, sessionId, tickets); ListsRefer(t) && SessionsHaveShows(t) && ReservationsPublished(t)
    ensures var t := Filled(s, sessionId, tickets);
            t == s.(reservations := t.reservations, nextReservation := t.nextReservation)
    decreases tickets
  {
    if tickets > 0 {
      var count := if tickets < MAX_TICKETS then tickets else MAX_TICKETS;
      BookedKeepsPublished(s, SeedReservation(s, sessionId, count));
      FilledKeepsPublished(Booked(s, SeedReservation(s, sessionId, count)), sessionId, tickets - count);
    }
  }

  lemma {:induction false} FilledKeepsWhole(s: State, sessionId: int, tickets: nat)
    requires Fillable(s) && SessionPublished(s, sessionId)
    requires tickets <= s.sessions[sessionId].capacity - Reserved(s.reservations, sessionId)
    ensures Fillable(Filled(s, sessionId, tickets))
  {
    FilledExact(s, sessionId, tickets);
    FilledKeepsPublished(s, sessionId, tickets);
  }

  /** Fillings of several sessions, one after the other. */
  function FilledAll(s: State, seeds: seq<(int, nat)>): State {
    if seeds == [] then s
    else
      var last := seeds[|seeds| - 1];
      Filled(FilledAll(s, seeds[..|seeds| - 1]), last.0, last.1)
  }

  /** Each session is seeded once, is published, and has room. */
  ghost predicate SeedsFit(s: State, seeds: seq<(int, nat)>) {
    && (forall i, j :: 0 <= i < j < |seeds| ==> seeds[i].0 != seeds[j].0)
    && forall i :: 0 <= i < |seeds| ==>
         SessionPublished(s, seeds[i].0) && seeds[i].1 <= s.sessions[seeds[i].0].capacity
  }

  /** What the seeds put into a session. */
  function SeedsFor(seeds: seq<(int, nat)>, id: int): nat {
    if seeds == [] then 0
    else SeedsFor(seeds[..|seeds| - 1], id) + if seeds[|seeds| - 1].0 == id then seeds[|seeds| - 1].1 else 0
  }

  lemma {:induction false} NoSeedsFor(seeds: seq<(int, nat)>, id: int)
    requires forall i :: 0 <= i < |seeds| ==> seeds[i].0 != id
    ensures SeedsFor(seeds, id) == 0
  {
    if seeds != [] {
      NoSeedsFor(seeds[..|seeds| - 1], id);
    }
  }

  lemma {:induction false} FilledAllKeepsWhole(s: State, seeds: seq<(int, nat)>)
    requires Fillable(s) && s.reservations == [] && SeedsFit(s, seeds)
    ensures var t := FilledAll(s, seeds);
            && Fillable(t) && t == s.(reservations := t.reservations, nextReservation := t.nextReservation)
            && forall id :: Reserved(t.reservations, id) == SeedsFor(seeds, id)
  {
    if seeds != [] {
      var init, last := seeds[..|seeds| - 1], seeds[|seeds| - 1];
      FilledAllKeepsWhole(s, init);
      var before := FilledAll(s, init);
      assert SessionPublished(s, last.0);
      NoSeedsFor(init, last.0);
      FilledKeepsWhole(before, last.0, last.1);
      FilledExact(before, last.0, last.1);
      FilledKeepsPublished(before, last.0, last.1);
    }
  }

  const SEED_SHOWS := map["seed_show_moonlight" := Show(OPEN, false, false),
                          "seed_show_summer" := Show(OPEN, false, false),
                          "seed_show_nightfall" := Show(CLOSED, false, false),
                          "seed_show_hidden_seats" := Show(OPEN, false, false),
                          "seed_show_external" := Show(OPEN, false, true),
                          "seed_show_draft" := Show(DRAFT, false, false)]
  const SEED_SHOW_LIST := ["seed_show_moonlight", "seed_show_summer", "seed_show_nightfall", "seed_show_hidden_seats",
                           "seed_show_external", "seed_show_draft"]

  /** `at` gives the start of a session. */
  function SeedSessions(at: int -> int): map<int, Session> {
    map[101 := Session("seed_show_moonlight", at(101), 60), 102 := Session("seed_show_moonlight", at(102), 60),
        103 := Session("seed_show_moonlight", at(103), 60), 201 := Session("seed_show_summer", at(201), 30),
        301 := Session("seed_show_nightfall", at(301), 40), 401 := Session("seed_show_hidden_seats", at(401), 50),
        402 := Session("seed_show_hidden_seats", at(402), 20), 403 := Session("seed_show_hidden_seats", at(403), 10),
        501 := Session("seed_show_external", at(501), 0), 502 := Session("seed_show_external", at(502), 0),
        503 := Session("seed_show_external", at(503), 0)]
  }

  const SEED_SESSION_LIST := [101, 102, 103, 201, 301, 401, 402, 403, 501, 502, 503]
  const SEEDS: seq<(int, nat)> :=
    [(101, 52), (102, 45), (103, 58), (201, 30), (301, 40), (401, 12), (402, 17), (403, 10)]

  function Bare(at: int -> int): State {
    State(SEED_SHOWS, SEED_SHOW_LIST, SeedSessions(at), SEED_SESSION_LIST, [], 1000, 1)
  }

  function Seed(at: int -> int): State {
    FilledAll(Bare(at), SEEDS)
  }

  lemma {:induction false} BareListsRefer(at: int -> int)
    ensures ListsRefer(Bare(at))
  {
    assert Distinct(SEED_SESSION_LIST);
    assert Distinct(SEED_SHOW_LIST);
  }

  predicate ShowStands(showId: string) {
    showId in SEED_SHOW_LIST && showId in SEED_SHOWS && SEED_SHOWS[showId].status != DRAFT
  }

  lemma {:induction false} SeedShowsStand()
    ensures forall i :: 0 <= i < 5 ==> ShowStands(SEED_SHOW_LIST[i])
  {
    forall i | 0 <= i < 5 ensures ShowStands(SEED_SHOW_LIST[i]) {
      assert SEED_SHOW_LIST[i] in SEED_SHOW_LIST;
    }
  }

  /** The place of a seeded session's show in the list of shows. */
  function ShowIndex(id: int): nat {
    if id < 200 then 0 else if id < 300 then 1 else if id < 400 then 2 else if id < 500 then 3 else 4
  }

  lemma {:induction false} SessionOfShow(at: int -> int, id: int)
    requires id in SEED_SESSION_LIST
    ensures id in SeedSessions(at) && SeedSessions(at)[id].showId == SEED_SHOW_LIST[ShowIndex(id)]
  {
  }

  lemma {:induction false} SeedSessionPublished(at: int -> int, id: int)
    requires id in SEED_SESSION_LIST
    ensures SessionPublished(Bare(at), id) && SeedSessions(at)[id].showId in SEED_SHOW_LIST
  {
    SessionOfShow(at, id);
    SeedShowsStand();
    assert ShowStands(SEED_SHOW_LIST[ShowIndex(id)]);
  }

  lemma {:induction false} BareSessionsHaveShows(at: int -> int)
    ensures SessionsHaveShows(Bare(at))
  {
    forall id | id in SEED_SESSION_LIST ensures SeedSessions(at)[id].showId in SEED_SHOW_LIST {
      SeedSessionPublished(at, id);
    }
  }

  lemma {:induction false} SeedSessionPlain(at: int -> int, id: int)
    requires id in SeedSessions(at)
    ensures id < 1000 && SeedSessions(at)[id].capacity >= 0
  {
  }

  lemma {:induction false} BareSafe(at: int -> int)
    ensures Safe(Bare(at))
  {
    var s := Bare(at);
    forall id | id in s.sessions ensures Reserved(s.reservations, id) <= s.sessions[id].capacity && id < 1000 {
      SeedSessionPlain(at, id);
    }
  }

  lemma {:induction false} BareWhole(at: int -> int)
    ensures Fillable(Bare(at))
  {
    BareListsRefer(at);
    BareSessionsHaveShows(at);
    BareSafe(at);
  }

  lemma {:induction false} SeedHasRoom(at: int -> int, i: nat)
    requires i < |SEEDS|
    ensures SEEDS[i].0 == SEED_SESSION_LIST[i] && SEEDS[i].0 in SeedSessions(at)
    ensures SEEDS[i].1 <= SeedSessions(at)[SEEDS[i].0].capacity
  {
  }

  lemma {:induction false} SeedsFitBare(at: int -> int)
    ensures SeedsFit(Bare(at), SEEDS)
  {
    forall i | 0 <= i < |SEEDS|
      ensures SessionPublished(Bare(at), SEEDS[i].0) && SEEDS[i].1 <= Bare(at).sessions[SEEDS[i].0].capacity
      ensures SEEDS[i].0 == SEED_SESSION_LIST[i]
    {
      SeedHasRoom(at, i);
      SeedSessionPublished(at, SEED_SESSION_LIST[i]);
    }
    BareListsRefer(at);
  }

  /** The store the program starts with is whole, whatever the times, so every run theorem holds from it on; each
      session holds the tickets it was seeded with, and the others none. */
  lemma {:induction false} SeedInOrder(at: int -> int)
    ensures Whole(Seed(at)) && WorldOk(World(Seed(at), []))
    ensures forall id :: Reserved(Seed(at).reservations, id) == SeedsFor(SEEDS, id)
  {
    BareWhole(at);
    SeedsFitBare(at);
    FilledAllKeepsWhole(Bare(at), SEEDS);
  }
}

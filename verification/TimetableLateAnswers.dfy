/** Answers that wait for their body: which events in between decide whether they are kept, and for which slot. */
module TimetableLateAnswers {
  import opened Wrappers
  import opened TimetableSetting
  import opened Timetable
  import opened TimetableInvariant
  import opened TimetableSteps
  import opened TimetableUpkeep
  import opened TimetableRuns
  import opened TimetableBoard
  import opened TimetableAnswers
  import opened TimetableWaits

  // ---------- Following one waiting handler ----------

  /** Where the n-th waiting handler stands after an event: further to the front when one before it resumes. */
  function Shifted(n: nat, e: Event): nat {
    if e.Resume? && e.j < n then n - 1 else n
  }

  function Place(n: nat, es: seq<Event>): nat
    decreases |es|
  {
    if es == [] then n else Place(Shifted(n, es[0]), es[1..])
  }

  /** The n-th waiting handler resumes in none of the events. */
  predicate Waits(n: nat, es: seq<Event>)
    decreases |es|
  {
    es == [] || (es[0] != Resume(n) && Waits(Shifted(n, es[0]), es[1..]))
  }

  // ---------- The events that matter ----------

  /** The setting is in order and widens the old one, but the batch does not apply or leads to no legal board. */
  ghost predicate PutBack(s: State, k: nat, setting: Setting, assignments: seq<Assignment>)
    requires k < |s.timetables|
  {
    var t := s.timetables[k];
    && ValidSetting(setting) && Extends(setting, t.setting)
    && !(Consistent(t.actors, assignments)
         && BoardLegal(t.(setting := setting, actors := Moved(t.actors, assignments))))
  }

  /** The batch goes through. */
  ghost predicate GoesThrough(s: State, k: nat, setting: Setting, assignments: seq<Assignment>)
    requires k < |s.timetables|
  {
    var t := s.timetables[k];
    && ValidSetting(setting) && Extends(setting, t.setting) && Consistent(t.actors, assignments)
    && BoardLegal(t.(setting := setting, actors := Moved(t.actors, assignments)))
  }

  ghost predicate ResumesBoard(w: World, e: Event, k: nat) {
    e.Resume? && e.j < |w.waiting| && w.waiting[e.j].ForBoard? && w.waiting[e.j].k == k
  }

  /** A board save on timetable k is put back, or the actor is removed from it. */
  ghost predicate Cuts(w: World, e: Event, k: nat, id: int)
    requires k < |w.s.timetables|
  {
    || (ResumesBoard(w, e, k) && PutBack(w.s, k, w.waiting[e.j].setting, w.waiting[e.j].assignments))
    || (e.Now? && e.call.DeletingActor? && e.call.actorId == id && Managed(w.s, e.call.key) == Some(k)
        && HasId(w.s.timetables[k].actors, id))
  }

  ghost predicate RunCuts(w: World, es: seq<Event>, k: nat, id: int)
    requires WorldOk(w)
    decreases |es|
  {
    es != [] && k < |w.s.timetables| &&
    (Cuts(w, es[0], k, id) || (NextKeepsWorldOk(w, es[0]); RunCuts(Next(w, es[0]), es[1..], k, id)))
  }

  /** The slot of an actor after a handler has resumed: only a board save that goes through can change it. */
  ghost function SlotResumed(s: State, x: Waiting, k: nat, id: int, slot: Option<Slot>): Option<Slot>
    requires k < |s.timetables|
  {
    if x.ForBoard? && x.k == k && GoesThrough(s, k, x.setting, x.assignments)
    then SlotAfter(slot, x.assignments, |x.assignments|, id)
    else slot
  }

  ghost function SlotNext(w: World, e: Event, k: nat, id: int, slot: Option<Slot>): Option<Slot>
    requires k < |w.s.timetables|
  {
    if e.Resume? && e.j < |w.waiting| then SlotResumed(w.s, w.waiting[e.j], k, id, slot) else slot
  }

  /** The last assignment that names the actor in a batch that goes through decides. */
  ghost function RunSlot(w: World, es: seq<Event>, k: nat, id: int, slot: Option<Slot>): Option<Slot>
    requires WorldOk(w)
    decreases |es|
  {
    if es == [] || k >= |w.s.timetables| then slot
    else
      NextKeepsWorldOk(w, es[0]);
      RunSlot(Next(w, es[0]), es[1..], k, id, SlotNext(w, es[0], k, id, slot))
  }

  lemma {:induction false} SaveOutcome(s: State, k: nat, setting: Setting, assignments: seq<Assignment>)
    requires Inv(s) && k < |s.timetables|
    ensures Undone(SaveBoardAt(s, k, setting, assignments).1) <==> PutBack(s, k, setting, assignments)
    ensures SaveBoardAt(s, k, setting, assignments).1 == Done <==> GoesThrough(s, k, setting, assignments)
    ensures GoesThrough(s, k, setting, assignments) ==>
              MoveAll(s.timetables[k].actors, assignments) ==
              Assigned.Assigned(Moved(s.timetables[k].actors, assignments))
  {
    assert TimetableOk(s.timetables[k]);
    MovesExact(s.timetables[k].actors, assignments);
  }

  lemma {:induction false} DeletionOutcome(s: State, key: string, actorId: int)
    ensures DeleteActor(s, key, actorId).1 == Done <==>
            Managed(s, key).Some? && HasId(s.timetables[Managed(s, key).value].actors, actorId)
  {
    if Managed(s, key).Some? {
      FindActorExact(s.timetables[Managed(s, key).value].actors, actorId);
    }
  }

  // ---------- The held actor ----------

  lemma {:induction false} HeldWhileResuming(w: World, j: nat, n: nat)
    requires AllFound(w) && n < |w.waiting| && w.waiting[n].ForAnswer? && j != n
    requires j < |w.waiting| && w.waiting[j].ForBoard? ==>
               var x := w.waiting[j];
               Undone(SaveBoardAt(w.s, x.k, x.setting, x.assignments).1) <==>
               PutBack(w.s, x.k, x.setting, x.assignments)
    ensures Shifted(n, Resume(j)) < |Next(w, Resume(j)).waiting|
    ensures Next(w, Resume(j)).waiting[Shifted(n, Resume(j))] ==
            w.waiting[n].(live := w.waiting[n].live && !Cuts(w, Resume(j), w.waiting[n].k, w.waiting[n].actorId))
  {
    if j < |w.waiting| {
      assert Without(w.waiting, j)[Shifted(n, Resume(j))] == w.waiting[n];
    }
  }

  lemma {:induction false} HeldMeanwhile(w: World, c: Call, n: nat)
    requires AllFound(w) && n < |w.waiting| && w.waiting[n].ForAnswer?
    ensures n < |Next(w, Now(c)).waiting|
    ensures Next(w, Now(c)).waiting[n] ==
            w.waiting[n].(live := w.waiting[n].live && !Cuts(w, Now(c), w.waiting[n].k, w.waiting[n].actorId))
  {
    if c.DeletingActor? {
      DeletionOutcome(w.s, c.key, c.actorId);
    }
  }

  /** The n-th waiting answer after an event that does not resume it. */
  lemma {:induction false} HeldNext(w: World, e: Event, n: nat)
    requires WorldOk(w) && n < |w.waiting| && w.waiting[n].ForAnswer? && e != Resume(n)
    ensures AllFound(w) && w.waiting[n].k < |w.s.timetables| && Shifted(n, e) < |Next(w, e).waiting|
    ensures Next(w, e).waiting[Shifted(n, e)] ==
            w.waiting[n].(live := w.waiting[n].live && !Cuts(w, e, w.waiting[n].k, w.waiting[n].actorId))
  {
    AllHeldFound(w);
    match e
    case Arrive(_) =>
    case Resume(j) =>
      if j < |w.waiting| && w.waiting[j].ForBoard? {
        SaveOutcome(w.s, w.waiting[j].k, w.waiting[j].setting, w.waiting[j].assignments);
      }
      HeldWhileResuming(w, j, n);
    case Now(c) => HeldMeanwhile(w, c, n);
  }

  /** Whatever happens while an answer waits, the actor it was given to stays in the timetable exactly when no board
      save there is put back and the actor is not removed. */
  lemma {:induction false} HeldLater(w: World, es: seq<Event>, n: nat)
    requires WorldOk(w) && n < |w.waiting| && w.waiting[n].ForAnswer? && Waits(n, es)
    ensures var y := RunWorld(w, es);
            Place(n, es) < |y.waiting| && y.waiting[Place(n, es)] ==
              w.waiting[n].(live := w.waiting[n].live && !RunCuts(w, es, w.waiting[n].k, w.waiting[n].actorId))
    decreases |es|
  {
    assert HeldOk(w.s, w.waiting[n]);
    if es != [] {
      NextKeepsWorldOk(w, es[0]);
      HeldNext(w, es[0], n);
      HeldLater(Next(w, es[0]), es[1..], Shifted(n, es[0]));
    }
  }

  // ---------- The actor's slot ----------

  ghost predicate Sits(a: Actor, id: int, slot: Option<Slot>) {
    a.id == id && a.slot == slot
  }

  ghost predicate HasSlot(actors: seq<Actor>, id: int, slot: Option<Slot>) {
    exists i :: 0 <= i < |actors| && Sits(actors[i], id, slot)
  }

  lemma {:induction false} SameSeats(a: seq<Actor>, b: seq<Actor>, id: int, slot: Option<Slot>)
    requires HasSlot(a, id, slot) && |a| <= |b|
    requires forall i :: 0 <= i < |a| ==> b[i].id == a[i].id && b[i].slot == a[i].slot
    ensures HasSlot(b, id, slot)
  {
    var i :| 0 <= i < |a| && Sits(a[i], id, slot);
    assert Sits(b[i], id, slot);
  }

  lemma {:induction false} MovedSeat(actors: seq<Actor>, assignments: seq<Assignment>, id: int, slot: Option<Slot>)
    requires HasSlot(actors, id, slot)
    ensures HasSlot(Moved(actors, assignments), id, SlotAfter(slot, assignments, |assignments|, id))
  {
    var i :| 0 <= i < |actors| && Sits(actors[i], id, slot);
    assert Sits(Moved(actors, assignments)[i], id, SlotAfter(slot, assignments, |assignments|, id));
  }

  lemma {:induction false} AnnouncedSeat(t: Timetable, moved: seq<Assignment>, box: Outbox, id: int, slot: Option<Slot>)
    requires HasSlot(t.actors, id, slot)
    ensures HasSlot(Announce(t, moved, box).0.actors, id, slot)
  {
    AnnounceKeepsBoard(t, moved, box);
    SameSeats(t.actors, Announce(t, moved, box).0.actors, id, slot);
  }

  lemma {:induction false} SavedSeat(s: State, k: nat, setting: Setting, assignments: seq<Assignment>, id: int,
        slot: Option<Slot>)
    requires k < |s.timetables| && HasSlot(s.timetables[k].actors, id, slot)
    requires MoveAll(s.timetables[k].actors, assignments) ==
             Assigned.Assigned(Moved(s.timetables[k].actors, assignments))
    requires SaveBoardAt(s, k, setting, assignments).1 == Done
    ensures k < |SaveBoardAt(s, k, setting, assignments).0.timetables|
    ensures HasSlot(SaveBoardAt(s, k, setting, assignments).0.timetables[k].actors, id,
                    SlotAfter(slot, assignments, |assignments|, id))
  {
    var t := s.timetables[k];
    MovedSeat(t.actors, assignments, id, slot);
    AnnouncedSeat(t.(setting := setting, actors := Moved(t.actors, assignments)), assignments, Box(s), id,
                  SlotAfter(slot, assignments, |assignments|, id));
  }

  lemma {:induction false} CommitSeat(s: State, w: Waiting, k: nat, id: int, slot: Option<Slot>)
    requires w.k < |s.timetables| && k < |s.timetables| && HasSlot(s.timetables[k].actors, id, slot)
    requires w.ForBoard? && w.k == k ==> SaveBoardAt(s, k, w.setting, w.assignments).1 != Done
    ensures k < |Commit(s, w).0.timetables| && HasSlot(Commit(s, w).0.timetables[k].actors, id, slot)
  {
    if w.ForAnswer? {
      FindActorExact(s.timetables[w.k].actors, w.actorId);
    }
    if !w.ForBoard? {
      SameSeats(s.timetables[k].actors, Commit(s, w).0.timetables[k].actors, id, slot);
    }
  }

  lemma {:induction false} StepSeat(s: State, c: Call, k: nat, id: int, slot: Option<Slot>)
    requires !WaitsForBody(c) && k < |s.timetables| && HasSlot(s.timetables[k].actors, id, slot)
    requires c.DeletingActor? && Managed(s, c.key) == Some(k) ==> c.actorId != id
    ensures k < |Step(s, c).0.timetables| && HasSlot(Step(s, c).0.timetables[k].actors, id, slot)
  {
    var a, b := s.timetables[k].actors, Step(s, c).0.timetables[k].actors;
    if c.DeletingActor? {
      WithoutActorExact(a, c.actorId);
      var i :| 0 <= i < |a| && Sits(a[i], id, slot);
      assert a[i] in b;
    } else if c.Publishing? {
      InviteKeepsRest(s.timetables[k].(published := true), |a|, Box(s), true);
      SameSeats(a, b, id, slot);
    } else {
      QuietCallsKeepActors(s, c, k);
    }
  }

  lemma {:induction false} ResumedSeat(s: State, x: Waiting, k: nat, id: int, slot: Option<Slot>)
    requires Inv(s) && x.k < |s.timetables| && k < |s.timetables| && HasSlot(s.timetables[k].actors, id, slot)
    ensures k < |Commit(s, x).0.timetables|
    ensures HasSlot(Commit(s, x).0.timetables[k].actors, id, SlotResumed(s, x, k, id, slot))
  {
    if x.ForBoard? && x.k == k {
      SaveOutcome(s, k, x.setting, x.assignments);
    }
    if x.ForBoard? && x.k == k && GoesThrough(s, k, x.setting, x.assignments) {
      SavedSeat(s, k, x.setting, x.assignments, id, slot);
    } else {
      CommitSeat(s, x, k, id, slot);
    }
  }

  lemma {:induction false} SeatNext(w: World, e: Event, k: nat, id: int, slot: Option<Slot>)
    requires WorldOk(w) && k < |w.s.timetables| && HasSlot(w.s.timetables[k].actors, id, slot) && !Cuts(w, e, k, id)
    ensures AllFound(w) && k < |Next(w, e).s.timetables|
    ensures HasSlot(Next(w, e).s.timetables[k].actors, id, SlotNext(w, e, k, id, slot))
  {
    match e
    case Arrive(_) =>
    case Resume(j) =>
      if j < |w.waiting| {
        assert HeldOk(w.s, w.waiting[j]);
        ResumedSeat(w.s, w.waiting[j], k, id, slot);
      }
    case Now(c) =>
      if !WaitsForBody(c) {
        SomeoneThere(w.s.timetables[k].actors, id, slot);
        StepSeat(w.s, c, k, id, slot);
      }
  }

  lemma {:induction false} SomeoneThere(actors: seq<Actor>, id: int, slot: Option<Slot>)
    requires HasSlot(actors, id, slot)
    ensures HasId(actors, id)
  {
    var i :| 0 <= i < |actors| && Sits(actors[i], id, slot);
    assert actors[i].id == id;
  }

  /** The slot of an actor who is not removed, over any run. */
  lemma {:induction false} SeatLater(w: World, es: seq<Event>, k: nat, id: int, slot: Option<Slot>)
    requires WorldOk(w) && k < |w.s.timetables| && HasSlot(w.s.timetables[k].actors, id, slot) && !RunCuts(w, es, k, id)
    ensures k < |RunWorld(w, es).s.timetables|
    ensures HasSlot(RunWorld(w, es).s.timetables[k].actors, id, RunSlot(w, es, k, id, slot))
    decreases |es|
  {
    if es != [] {
      NextKeepsWorldOk(w, es[0]);
      SeatNext(w, es[0], k, id, slot);
      SeatLater(Next(w, es[0]), es[1..], k, id, SlotNext(w, es[0], k, id, slot));
    }
  }

  // ---------- What becomes of the answer ----------

  function WithAnswer(actors: seq<Actor>, id: int, answer: Attendance): (r: seq<Actor>)
    ensures |r| == |actors|
    ensures forall i :: 0 <= i < |r| ==>
              r[i] == if actors[i].id == id then actors[i].(attendance := answer) else actors[i]
  {
    if actors == [] then []
    else
      var last := actors[|actors| - 1];
      WithAnswer(actors[..|actors| - 1], id, answer) +
        [if last.id == id then last.(attendance := answer) else last]
  }

  /** The store in which the actor's answer is this one, and nothing else differs. */
  function Answered(s: State, k: nat, id: int, answer: Attendance): State
    requires k < |s.timetables|
  {
    var t := s.timetables[k];
    s.(timetables := s.timetables[k := t.(actors := WithAnswer(t.actors, id, answer))])
  }

  lemma {:induction false} OneAnswers(actors: seq<Actor>, i: nat, answer: Attendance)
    requires IdsIncrease(actors) && i < |actors|
    ensures actors[i := actors[i].(attendance := answer)] == WithAnswer(actors, actors[i].id, answer)
  {
    forall j | 0 <= j < |actors| && actors[j].id == actors[i].id ensures j == i {
      FirstIsOnly(actors, j);
      FirstIsOnly(actors, i);
    }
  }

  lemma {:induction false} LiveAnswerKept(s: State, h: Waiting)
    requires Inv(s) && HeldOk(s, h) && h.ForAnswer? && h.live && h.answer != UNANSWERED
    ensures Commit(s, h) == (Answered(s, h.k, h.actorId, h.answer), Done)
  {
    var actors := s.timetables[h.k].actors;
    HeldActor(s, h);
    assert TimetableOk(s.timetables[h.k]);
    OneAnswers(actors, FindActor(actors, h.actorId).value, h.answer);
  }

  lemma {:induction false} LostAnswerDropped(s: State, h: Waiting)
    requires h.k < |s.timetables| && h.ForAnswer? && (!h.live || h.answer == UNANSWERED)
    ensures Commit(s, h) == (s, if h.answer == UNANSWERED then Invalid else Done)
  {
    FindActorExact(s.timetables[h.k].actors, h.actorId);
  }

  /** An answer that resumes is reported as stored whenever it is a possible one. It is kept exactly when the held actor
      object is still the one in the timetable. */
  lemma {:induction false} AnswerResumes(w: World, n: nat)
    requires WorldOk(w) && n < |w.waiting| && w.waiting[n].ForAnswer?
    ensures var h := w.waiting[n];
            && AllFound(w) && h.k < |w.s.timetables|
            && Commit(w.s, h).1 == (if h.answer == UNANSWERED then Invalid else Done)
            && Next(w, Resume(n)).s ==
               if h.live && h.answer != UNANSWERED then Answered(w.s, h.k, h.actorId, h.answer) else w.s
  {
    var h := w.waiting[n];
    AllHeldFound(w);
    assert HeldOk(w.s, h);
    if h.live && h.answer != UNANSWERED {
      LiveAnswerKept(w.s, h);
    } else {
      LostAnswerDropped(w.s, h);
    }
  }

  /** Any board change that is undone, however it failed, costs the answers that wait on its timetable: they resume,
      report success, and change nothing. */
  lemma {:induction false} UndoneBoardLosesAnswers(w: World, b: nat, a: nat)
    requires WorldOk(w) && b < |w.waiting| && a < |w.waiting| && b != a
    requires w.waiting[b].ForBoard? && w.waiting[a].ForAnswer? && w.waiting[a].k == w.waiting[b].k
    requires w.waiting[b].k < |w.s.timetables|
             && PutBack(w.s, w.waiting[b].k, w.waiting[b].setting, w.waiting[b].assignments)
    requires w.waiting[a].answer != UNANSWERED
    ensures AllFound(w) && AllFound(Next(w, Resume(b)))
    ensures var x, later := Next(w, Resume(b)), Shifted(a, Resume(b));
            && x.s == w.s && later < |x.waiting| && x.waiting[later].k < |x.s.timetables|
            && Commit(x.s, x.waiting[later]) == (w.s, Done) && Next(x, Resume(later)).s == w.s
  {
    var x, later := Next(w, Resume(b)), Shifted(a, Resume(b));
    HeldNext(w, Resume(b), a);
    SaveOutcome(w.s, w.waiting[b].k, w.waiting[b].setting, w.waiting[b].assignments);
    assert AllFound(x) by {
      NextKeepsWorldOk(w, Resume(b));
      AllHeldFound(x);
    }
    LostAnswerDropped(x.s, x.waiting[later]);
  }

  lemma {:induction false} AnswerArrives(w: World, key: string, answer: Attendance)
    requires WorldOk(w) && Accessed(w.s, key).Some?
    ensures var (k, i) := Accessed(w.s, key).value;
            var a := w.s.timetables[k].actors[i];
            && AllFound(w) && WorldOk(Next(w, Arrive(Attending(key, answer))))
            && Next(w, Arrive(Attending(key, answer))) ==
               World(w.s, w.waiting + [ForAnswer(k, a.id, a.slot, answer, true)])
            && HasSlot(w.s.timetables[k].actors, a.id, a.slot)
  {
    var (k, i) := Accessed(w.s, key).value;
    NextKeepsWorldOk(w, Arrive(Attending(key, answer)));
    assert Sits(w.s.timetables[k].actors[i], w.s.timetables[k].actors[i].id, w.s.timetables[k].actors[i].slot);
  }

  /** An actor answers, and anything happens before the body of that request is there. The answer is reported as stored
      whenever it is a possible one. It is stored exactly when in between no board save on the timetable was put back
      and the actor was not removed; nothing else changes either way. */
  lemma {:induction false} LateAnswerExact(w: World, key: string, answer: Attendance, es: seq<Event>)
    requires WorldOk(w) && Accessed(w.s, key).Some? && Waits(|w.waiting|, es)
    ensures AllFound(w) && WorldOk(Next(w, Arrive(Attending(key, answer))))
    ensures var (k, i) := Accessed(w.s, key).value;
            var id := w.s.timetables[k].actors[i].id;
            var x := Next(w, Arrive(Attending(key, answer)));
            var y, n := RunWorld(x, es), Place(|w.waiting|, es);
            && AllFound(y) && n < |y.waiting| && k < |y.s.timetables| && y.waiting[n].k < |y.s.timetables|
            && Commit(y.s, y.waiting[n]).1 == (if answer == UNANSWERED then Invalid else Done)
            && Next(y, Resume(n)).s ==
               if answer != UNANSWERED && !RunCuts(x, es, k, id) then Answered(y.s, k, id, answer) else y.s
  {
    AnswerArrives(w, key, answer);
    var x := Next(w, Arrive(Attending(key, answer)));
    HeldLater(x, es, |w.waiting|);
    AnswerResumes(RunWorld(x, es), Place(|w.waiting|, es));
  }

  lemma {:induction false} AnswerStandsIff(s: State, k: nat, id: int, own: Option<Slot>, slot: Option<Slot>,
        answer: Attendance)
    requires k < |s.timetables| && ActorsOk(s.timetables[k]) && HasSlot(s.timetables[k].actors, id, own)
    ensures Stands(Answered(s, k, id, answer).timetables, k, id, slot, answer) <==> own == slot
  {
    var a, b := s.timetables[k].actors, Answered(s, k, id, answer).timetables[k].actors;
    var i :| 0 <= i < |a| && Sits(a[i], id, own);
    if own == slot {
      assert SameAnswer(b[i], id, slot, answer);
    }
    forall j | 0 <= j < |b| && SameAnswer(b[j], id, slot, answer) ensures j == i {
      FirstIsOnly(a, j);
      FirstIsOnly(a, i);
    }
  }

  /** An answer that is stored late counts for the slot it was given for exactly when the board saves that went through
      in between have left the actor in that slot, whether by not naming him or by putting him back. */
  lemma {:induction false} LateAnswerCountsIff(w: World, key: string, answer: Attendance, es: seq<Event>)
    requires WorldOk(w) && Accessed(w.s, key).Some? && Waits(|w.waiting|, es) && answer != UNANSWERED
    ensures AllFound(w) && WorldOk(Next(w, Arrive(Attending(key, answer))))
    ensures var (k, i) := Accessed(w.s, key).value;
            var a := w.s.timetables[k].actors[i];
            var x := Next(w, Arrive(Attending(key, answer)));
            var y, n := RunWorld(x, es), Place(|w.waiting|, es);
            && AllFound(y)
            && (!RunCuts(x, es, k, a.id) ==>
                  (Stands(Next(y, Resume(n)).s.timetables, k, a.id, a.slot, answer) <==>
                   RunSlot(x, es, k, a.id, a.slot) == a.slot))
  {
    var (k, i) := Accessed(w.s, key).value;
    var a := w.s.timetables[k].actors[i];
    AnswerArrives(w, key, answer);
    LateAnswerExact(w, key, answer, es);
    var x := Next(w, Arrive(Attending(key, answer)));
    if !RunCuts(x, es, k, a.id) {
      SeatLater(x, es, k, a.id, a.slot);
      var y := RunWorld(x, es);
      assert TimetableOk(y.s.timetables[k]);
      AnswerStandsIff(y.s, k, a.id, RunSlot(x, es, k, a.id, a.slot), a.slot, answer);
    }
  }

  // ---------- Where a stored answer comes from ----------

  lemma {:induction false} CommitKeepsAnswers(s: State, h: Waiting, k: nat)
    requires h.k < |s.timetables| && k < |s.timetables| && !h.ForAnswer?
    ensures k < |Commit(s, h).0.timetables| && AnswersKept(s.timetables[k].actors, Commit(s, h).0.timetables[k].actors)
  {
    if h.ForBoard? {
      SaveKeepsAnswers(s, h.k, h.setting, h.assignments, k);
    } else if h.ForContacts? {
      AddKeepsAnswers(s, h.k, h.contacts, k);
    } else {
      PointwiseKept(s.timetables[k].actors, Commit(s, h).0.timetables[k].actors);
    }
  }

  lemma {:induction false} CommitAddsNone(s: State, h: Waiting)
    requires h.k < |s.timetables|
    ensures |Commit(s, h).0.timetables| == |s.timetables|
  {
  }

  lemma {:induction false} KeptStands(a: seq<Timetable>, b: seq<Timetable>, k: nat, id: int, slot: Option<Slot>,
        answer: Attendance)
    requires k < |a| && answer != UNANSWERED && Stands(b, k, id, slot, answer) && AnswersKept(a[k].actors, b[k].actors)
    ensures Stands(a, k, id, slot, answer)
  {
    var i :| 0 <= i < |b[k].actors| && SameAnswer(b[k].actors[i], id, slot, answer);
    var j :| 0 <= j < |a[k].actors|
             && SameAnswer(a[k].actors[j], b[k].actors[i].id, b[k].actors[i].slot, b[k].actors[i].attendance);
    assert SameAnswer(a[k].actors[j], id, slot, answer);
  }

  /** The event resumes this actor's answer, which is stored, and the actor holds the slot. */
  ghost predicate Lands(w: World, e: Event, k: nat, id: int, slot: Option<Slot>, answer: Attendance)
    requires AllFound(w)
  {
    && e.Resume? && e.j < |w.waiting| && w.waiting[e.j].ForAnswer? && w.waiting[e.j].k == k
    && w.waiting[e.j].actorId == id && w.waiting[e.j].answer == answer
    && k < |w.s.timetables| && HasSlot(w.s.timetables[k].actors, id, slot)
    && Next(w, e).s == Answered(w.s, k, id, answer)
  }

  lemma {:induction false} AnsweredSource(s: State, l: nat, whose: int, given: Attendance, k: nat, id: int,
        slot: Option<Slot>, answer: Attendance)
    requires l < |s.timetables| && Stands(Answered(s, l, whose, given).timetables, k, id, slot, answer)
    ensures k < |s.timetables|
    ensures Stands(s.timetables, k, id, slot, answer) ||
            (l == k && whose == id && given == answer && HasSlot(s.timetables[k].actors, id, slot))
  {
    var b := Answered(s, l, whose, given).timetables[k].actors;
    var i :| 0 <= i < |b| && SameAnswer(b[i], id, slot, answer);
    if l == k && whose == id {
      assert Sits(s.timetables[k].actors[i], id, slot);
    } else {
      assert SameAnswer(s.timetables[k].actors[i], id, slot, answer);
    }
  }

  lemma {:induction false} ResumeSource(w: World, j: nat, k: nat, id: int, slot: Option<Slot>, answer: Attendance)
    requires WorldOk(w) && j < |w.waiting| && answer != UNANSWERED
    requires AllFound(w) && Stands(Next(w, Resume(j)).s.timetables, k, id, slot, answer)
    ensures Stands(w.s.timetables, k, id, slot, answer) || Lands(w, Resume(j), k, id, slot, answer)
  {
    var h := w.waiting[j];
    if h.ForAnswer? {
      AnswerResumes(w, j);
      if h.live && h.answer != UNANSWERED {
        AnsweredSource(w.s, h.k, h.actorId, h.answer, k, id, slot, answer);
      }
    } else {
      CommitAddsNone(w.s, h);
      CommitKeepsAnswers(w.s, h, k);
      KeptStands(w.s.timetables, Commit(w.s, h).0.timetables, k, id, slot, answer);
    }
  }

  lemma {:induction false} NextSource(w: World, e: Event, k: nat, id: int, slot: Option<Slot>, answer: Attendance)
    requires WorldOk(w) && AllFound(w) && answer != UNANSWERED
    requires Stands(Next(w, e).s.timetables, k, id, slot, answer)
    ensures Stands(w.s.timetables, k, id, slot, answer) || Lands(w, e, k, id, slot, answer)
  {
    match e
    case Arrive(_) =>
    case Resume(j) =>
      if j < |w.waiting| {
        ResumeSource(w, j, k, id, slot, answer);
      }
    case Now(c) =>
      if !WaitsForBody(c) {
        AnswerSource(w.s, c, k, id, slot, answer);
      }
  }

  /** Slot and answer stand now and after every event. */
  ghost predicate StandsOn(w: World, es: seq<Event>, k: nat, id: int, slot: Option<Slot>, answer: Attendance)
    requires WorldOk(w)
    decreases |es|
  {
    && Stands(w.s.timetables, k, id, slot, answer)
    && (es == [] || (NextKeepsWorldOk(w, es[0]); StandsOn(Next(w, es[0]), es[1..], k, id, slot, answer)))
  }

  /** In one of the events the answer lands, and from then on slot and answer stand. */
  ghost predicate LandsIn(w: World, es: seq<Event>, k: nat, id: int, slot: Option<Slot>, answer: Attendance)
    requires WorldOk(w)
    decreases |es|
  {
    es != [] &&
    (NextKeepsWorldOk(w, es[0]);
     || (Lands(w, es[0], k, id, slot, answer) && StandsOn(Next(w, es[0]), es[1..], k, id, slot, answer))
     || LandsIn(Next(w, es[0]), es[1..], k, id, slot, answer))
  }

  /** Any answer found after an interleaved run was stored while the actor held the slot still held, and both have stood
      ever since; or they stood before the run and throughout. */
  lemma {:induction false} LateAnswerIsForCurrentSlot(w: World, es: seq<Event>, k: nat, id: int, slot: Option<Slot>,
        answer: Attendance)
    requires WorldOk(w) && answer != UNANSWERED && Stands(RunWorld(w, es).s.timetables, k, id, slot, answer)
    ensures StandsOn(w, es, k, id, slot, answer) || LandsIn(w, es, k, id, slot, answer)
    decreases |es|
  {
    if es != [] {
      NextKeepsWorldOk(w, es[0]);
      LateAnswerIsForCurrentSlot(Next(w, es[0]), es[1..], k, id, slot, answer);
      if StandsOn(Next(w, es[0]), es[1..], k, id, slot, answer) {
        NextSource(w, es[0], k, id, slot, answer);
      }
    }
  }
}

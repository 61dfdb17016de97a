/** Interleaved runs that end where the waits of the handlers let them: a question recorded for an actor who has gone,
    an answer that counts for another slot, and one that nobody keeps. */
module TimetableLateWitnesses {
  import opened Wrappers
  import opened TimetableSetting
  import opened Timetable
  import opened TimetableInvariant
  import opened TimetableRuns
  import opened TimetableBoard
  import opened TimetableAnswers
  import opened TimetableWaits
  import opened TimetableLateQuestions
  import opened TimetableLateAnswers
  import opened TimetableWitnesses

  /** One invited actor, and nobody waiting. */
  const IDLE := World(WITH_INVITED, [])

  lemma {:induction false} IdleOk()
    ensures WorldOk(IDLE)
  {
    RunToInvited();
  }

  lemma {:induction false} ActorKeyOpens(s: State)
    requires |s.timetables| == 1 && s.timetables[0] == WITH_INVITED.timetables[0]
    ensures Accessed(s, "A") == Some((0, 0))
  {
    FindKeyHolderExact(s.timetables, "A");
  }

  // ---------- A question of an actor who has gone ----------

  const QUESTION := Arrive(Asking("A", "x"))
  const REMOVAL := Now(DeletingActor("K", 103))
  const ASKING := World(WITH_INVITED, [ForQuestion(0, 103, "x")])

  lemma {:induction false} QuestionArrives()
    ensures AllFound(IDLE) && Next(IDLE, QUESTION) == ASKING
  {
    ActorKeyOpens(WITH_INVITED);
  }

  lemma {:induction false} ActorRemoved()
    ensures AllFound(ASKING) && Next(ASKING, REMOVAL).waiting == ASKING.waiting
    ensures var ts := Next(ASKING, REMOVAL).s.timetables; |ts| == 1 && ts[0].actors == []
  {
    KeyOpens(WITH_INVITED);
    FindActorExact([INVITED], 103);
    assert [INVITED][..0] == [];
    assert WithoutActor([INVITED], 103) == [];
  }

  lemma {:induction false} NobodyAsks(w: World)
    requires WorldOk(w) && w.waiting == ASKING.waiting && |w.s.timetables| == 1 && w.s.timetables[0].actors == []
    ensures !AsksInTime(w, Resume(0))
  {
    assert Trim("x") == "x";
  }

  /** An actor asks for another time, and is removed before the body is there: the question is recorded all the same. */
  lemma {:induction false} QuestionOutlivesActor()
    ensures WorldOk(IDLE) && AllRegistered(IDLE.s)
    ensures !AllRegistered(RunWorld(IDLE, [QUESTION, REMOVAL, Resume(0)]).s)
  {
    var es := [QUESTION, REMOVAL, Resume(0)];
    IdleOk();
    assert Registered(IDLE.s.timetables[0]);
    QuestionArrives();
    ActorRemoved();
    NextKeepsWorldOk(IDLE, QUESTION);
    var x := Next(ASKING, REMOVAL);
    NextKeepsWorldOk(ASKING, REMOVAL);
    NobodyAsks(x);
    assert es[1..] == [REMOVAL, Resume(0)] && es[1..][1..] == [Resume(0)];
    assert !RunAsksInTime(x, [Resume(0)]);
    assert !RunAsksInTime(ASKING, es[1..]);
    assert !RunAsksInTime(IDLE, es);
    RunRegisteredIff(IDLE, es);
  }

  // ---------- Answers ----------

  const ACCEPTING := Arrive(Attending("A", ATTENDING))
  const ANSWERING := World(WITH_INVITED, [ForAnswer(0, 103, Some(FIRST), ATTENDING, true)])

  function SaveOf(batch: seq<Assignment>): Event {
    Arrive(SavingBoard("K", SETTING, batch))
  }

  lemma {:induction false} AnswerWaits()
    ensures WorldOk(IDLE) && WorldOk(ANSWERING) && AllFound(IDLE) && Next(IDLE, ACCEPTING) == ANSWERING
  {
    IdleOk();
    ActorKeyOpens(WITH_INVITED);
    AnswerArrives(IDLE, "A", ATTENDING);
  }

  /** A board save arrives while the answer waits, and goes ahead of it. */
  lemma {:induction false} SaveGoesFirst(batch: seq<Assignment>)
    ensures WorldOk(ANSWERING) && AllFound(ANSWERING)
    ensures Next(ANSWERING, SaveOf(batch)) == World(WITH_INVITED, ANSWERING.waiting + [ForBoard(0, SETTING, batch)])
    ensures WorldOk(Next(ANSWERING, SaveOf(batch)))
  {
    AnswerWaits();
    SaveHeld(batch);
    AllHeldFound(ANSWERING);
    NextKeepsWorldOk(ANSWERING, SaveOf(batch));
  }

  lemma {:induction false} SaveHeld(batch: seq<Assignment>)
    ensures Hold(WITH_INVITED, SavingBoard("K", SETTING, batch)) == Some(ForBoard(0, SETTING, batch))
  {
    KeyOpens(WITH_INVITED);
  }

  lemma {:induction false} AnswerStaysFirst(batch: seq<Assignment>)
    ensures Waits(0, [SaveOf(batch), Resume(1)]) && Place(0, [SaveOf(batch), Resume(1)]) == 0
  {
    assert [SaveOf(batch), Resume(1)][1..] == [Resume(1)];
    assert Waits(0, [Resume(1)]) && Place(0, [Resume(1)]) == 0;
  }

  lemma {:induction false} SaveResumes(batch: seq<Assignment>)
    requires WorldOk(ANSWERING) && AllFound(ANSWERING)
    ensures var x := Next(ANSWERING, SaveOf(batch));
            && WorldOk(x) && x.s == WITH_INVITED && |x.waiting| == 2 && x.waiting[1] == ForBoard(0, SETTING, batch)
            && !Cuts(ANSWERING, SaveOf(batch), 0, 103)
            && (Cuts(x, Resume(1), 0, 103) <==> PutBack(WITH_INVITED, 0, SETTING, batch))
            && SlotNext(x, Resume(1), 0, 103, Some(FIRST)) ==
               SlotResumed(WITH_INVITED, ForBoard(0, SETTING, batch), 0, 103, Some(FIRST))
  {
    SaveGoesFirst(batch);
  }

  lemma {:induction false} TwoEvents(w: World, a: Event, b: Event, k: nat, id: int, slot: Option<Slot>)
    requires WorldOk(w) && AllFound(w) && k < |w.s.timetables| && WorldOk(Next(w, a)) && k < |Next(w, a).s.timetables|
    ensures RunCuts(w, [a, b], k, id) <==> Cuts(w, a, k, id) || Cuts(Next(w, a), b, k, id)
    ensures RunSlot(w, [a, b], k, id, slot) == SlotNext(Next(w, a), b, k, id, SlotNext(w, a, k, id, slot))
  {
    assert [a, b][1..] == [b];
    assert RunCuts(Next(w, a), [b], k, id) <==> Cuts(Next(w, a), b, k, id);
    var next := SlotNext(w, a, k, id, slot);
    assert RunSlot(Next(w, a), [b], k, id, next) == SlotNext(Next(w, a), b, k, id, next);
  }

  lemma {:induction false} CutBySave(batch: seq<Assignment>)
    requires WorldOk(ANSWERING) && AllFound(ANSWERING)
    ensures RunCuts(ANSWERING, [SaveOf(batch), Resume(1)], 0, 103) <==> PutBack(WITH_INVITED, 0, SETTING, batch)
    ensures RunSlot(ANSWERING, [SaveOf(batch), Resume(1)], 0, 103, Some(FIRST)) ==
            SlotResumed(WITH_INVITED, ForBoard(0, SETTING, batch), 0, 103, Some(FIRST))
  {
    SaveResumes(batch);
    TwoEvents(ANSWERING, SaveOf(batch), Resume(1), 0, 103, Some(FIRST));
  }

  const UNKNOWN := [Assignment(999, None, None)]

  lemma {:induction false} UnknownPutBack()
    ensures PutBack(WITH_INVITED, 0, SETTING, UNKNOWN)
  {
    SettingFits();
    ExtendsReflexive(SETTING);
    assert !Applies([INVITED], UNKNOWN, 0);
  }

  /** A board save that names nobody arrives after an answer and resumes before it: the answer is reported as stored,
      and nothing has changed. */
  lemma {:induction false} AnswerLost()
    ensures WorldOk(IDLE) && AllFound(IDLE) && WorldOk(ANSWERING) && Next(IDLE, ACCEPTING) == ANSWERING
    ensures var y := RunWorld(ANSWERING, [SaveOf(UNKNOWN), Resume(1)]);
            && AllFound(y) && 0 < |y.waiting| && y.waiting[0].k < |y.s.timetables|
            && Commit(y.s, y.waiting[0]).1 == Done && Next(y, Resume(0)).s == y.s
  {
    AnswerWaits();
    ActorKeyOpens(WITH_INVITED);
    AnswerStaysFirst(UNKNOWN);
    UnknownPutBack();
    CutBySave(UNKNOWN);
    LateAnswerExact(IDLE, "A", ATTENDING, [SaveOf(UNKNOWN), Resume(1)]);
  }

  const TO_SECOND := [Assignment(103, Some(FIRST), Some(SECOND))]

  lemma {:induction false} MoveGoesThrough()
    ensures GoesThrough(WITH_INVITED, 0, SETTING, TO_SECOND)
  {
    SettingFits();
    ExtendsReflexive(SETTING);
    OneMoves(INVITED, Some(FIRST), SECOND);
    MovesExact([INVITED], TO_SECOND);
    OneFits(PUBLISHED.(actors := [MOVED]), MOVED);
  }

  /** An actor accepts the first slot, and is moved to the second before the body is there: the second counts as
      accepted. */
  lemma {:induction false} AnswerForOtherSlot()
    ensures WorldOk(IDLE) && AllFound(IDLE) && WorldOk(ANSWERING) && Next(IDLE, ACCEPTING) == ANSWERING
    ensures var y := RunWorld(ANSWERING, [SaveOf(TO_SECOND), Resume(1)]);
            AllFound(y) && Stands(Next(y, Resume(0)).s.timetables, 0, 103, Some(SECOND), ATTENDING)
  {
    var es := [SaveOf(TO_SECOND), Resume(1)];
    AnswerWaits();
    ActorKeyOpens(WITH_INVITED);
    AnswerStaysFirst(TO_SECOND);
    MoveGoesThrough();
    CutBySave(TO_SECOND);
    assert RunSlot(ANSWERING, es, 0, 103, Some(FIRST)) == Some(SECOND);
    LateAnswerExact(IDLE, "A", ATTENDING, es);
    var y := RunWorld(ANSWERING, es);
    assert Sits(INVITED, 103, Some(FIRST)) && HasSlot([INVITED], 103, Some(FIRST));
    SeatLater(ANSWERING, es, 0, 103, Some(FIRST));
    assert TimetableOk(y.s.timetables[0]);
    AnswerStandsIff(y.s, 0, 103, Some(SECOND), Some(SECOND), ATTENDING);
  }
}

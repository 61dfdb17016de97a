/** Answers of actors over a run, and what the checks for duplicate phones and for message ids accept. */
module TimetableAnswers {
  import opened Wrappers
  import opened TimetableSetting
  import opened Timetable
  import opened TimetableInvariant
  import opened TimetableSteps
  import opened TimetableHandlers
  import opened TimetableUpkeep
  import opened TimetableRuns
  import opened TimetableBoard

  // ---------- Answers belong to the current slot ----------

  /** Timetable k has an actor with this id, slot and answer. */
  ghost predicate Stands(ts: seq<Timetable>, k: nat, id: int, slot: Option<Slot>, answer: Attendance) {
    k < |ts| && exists i :: 0 <= i < |ts[k].actors| && SameAnswer(ts[k].actors[i], id, slot, answer)
  }

  ghost predicate SameAnswer(a: Actor, id: int, slot: Option<Slot>, answer: Attendance) {
    a.id == id && a.slot == slot && a.attendance == answer
  }

  /** The call is this actor's answer, given while holding the slot. */
  ghost predicate Answers(s: State, c: Call, k: nat, id: int, slot: Option<Slot>, answer: Attendance) {
    && c.Attending? && c.answer == answer
    && match Accessed(s, c.accessKey)
       case None => false
       case Some((l, i)) => l == k && s.timetables[l].actors[i].id == id && s.timetables[l].actors[i].slot == slot
  }

  /** Each answer in the second list was already there with the same slot, or was reset. */
  ghost predicate AnswersKept(a: seq<Actor>, b: seq<Actor>) {
    forall i :: 0 <= i < |b| && b[i].attendance != UNANSWERED ==>
      exists j :: 0 <= j < |a| && SameAnswer(a[j], b[i].id, b[i].slot, b[i].attendance)
  }

  lemma {:induction false} KeptTransitive(a: seq<Actor>, b: seq<Actor>, c: seq<Actor>)
    requires AnswersKept(a, b) && AnswersKept(b, c)
    ensures AnswersKept(a, c)
  {
    forall i | 0 <= i < |c| && c[i].attendance != UNANSWERED
      ensures exists j :: 0 <= j < |a| && SameAnswer(a[j], c[i].id, c[i].slot, c[i].attendance)
    {
      var j :| 0 <= j < |b| && SameAnswer(b[j], c[i].id, c[i].slot, c[i].attendance);
    }
  }

  lemma {:induction false} PointwiseKept(a: seq<Actor>, b: seq<Actor>)
    requires |a| == |b|
    requires forall i :: 0 <= i < |a| ==>
               b[i].attendance == UNANSWERED || SameAnswer(a[i], b[i].id, b[i].slot, b[i].attendance)
    ensures AnswersKept(a, b)
  {
  }

  lemma {:induction false} SaveKeepsAnswers(s: State, l: nat, setting: Setting, assignments: seq<Assignment>, k: nat)
    requires k < |s.timetables| && l < |s.timetables|
    ensures k < |SaveBoardAt(s, l, setting, assignments).0.timetables|
    ensures AnswersKept(s.timetables[k].actors, SaveBoardAt(s, l, setting, assignments).0.timetables[k].actors)
  {
    if l == k && SaveBoardAt(s, l, setting, assignments).1 == Done {
      var t := s.timetables[k];
      var u := t.(setting := setting, actors := MoveAll(t.actors, assignments).actors);
      MovesRelocate(t.actors, assignments);
      PointwiseKept(t.actors, u.actors);
      AnnounceKeepsBoard(u, assignments, Box(s));
      var v := Announce(u, assignments, Box(s)).0;
      PointwiseKept(u.actors, v.actors);
      KeptTransitive(t.actors, u.actors, v.actors);
    } else {
      PointwiseKept(s.timetables[k].actors, s.timetables[k].actors);
    }
  }

  lemma {:induction false} PublishKeepsAnswers(s: State, key: string, k: nat)
    requires k < |s.timetables|
    ensures AnswersKept(s.timetables[k].actors, Publish(s, key).0.timetables[k].actors)
  {
    var t := s.timetables[k];
    InviteKeepsRest(t.(published := true), |t.actors|, Box(s), true);
    PointwiseKept(t.actors, Publish(s, key).0.timetables[k].actors);
  }

  lemma {:induction false} AddKeepsAnswers(s: State, l: nat, contacts: seq<Contact>, k: nat)
    requires k < |s.timetables| && l < |s.timetables|
    ensures k < |AddActorsAt(s, l, contacts).0.timetables|
    ensures AnswersKept(s.timetables[k].actors, AddActorsAt(s, l, contacts).0.timetables[k].actors)
  {
    var a, b := s.timetables[k].actors, AddActorsAt(s, l, contacts).0.timetables[k].actors;
    forall i | 0 <= i < |b| && b[i].attendance != UNANSWERED
      ensures exists j :: 0 <= j < |a| && SameAnswer(a[j], b[i].id, b[i].slot, b[i].attendance)
    {
      assert SameAnswer(a[i], b[i].id, b[i].slot, b[i].attendance);
    }
  }

  lemma {:induction false} DeleteKeepsAnswers(s: State, key: string, actorId: int, k: nat)
    requires k < |s.timetables|
    ensures AnswersKept(s.timetables[k].actors, DeleteActor(s, key, actorId).0.timetables[k].actors)
  {
    var a, b := s.timetables[k].actors, DeleteActor(s, key, actorId).0.timetables[k].actors;
    WithoutActorExact(a, actorId);
    forall i | 0 <= i < |b| && b[i].attendance != UNANSWERED
      ensures exists j :: 0 <= j < |a| && SameAnswer(a[j], b[i].id, b[i].slot, b[i].attendance)
    {
      assert b[i] in a;
      var j :| 0 <= j < |a| && a[j] == b[i];
      assert SameAnswer(a[j], b[i].id, b[i].slot, b[i].attendance);
    }
  }

  /** Calls that change no actor. */
  lemma {:induction false} QuietCallsKeepActors(s: State, c: Call, k: nat)
    requires k < |s.timetables|
    requires c.Creating? || c.EditingProfile? || c.EditingTemplate? || c.Resolving? || c.Asking? || c.Completing?
    ensures k < |Step(s, c).0.timetables| && Step(s, c).0.timetables[k].actors == s.timetables[k].actors
  {
  }

  lemma {:induction false} OthersKeepAnswers(s: State, c: Call, k: nat, after: seq<Actor>)
    requires Inv(s) && k < |s.timetables| && !c.Attending?
    requires k < |Step(s, c).0.timetables| && after == Step(s, c).0.timetables[k].actors
    ensures AnswersKept(s.timetables[k].actors, after)
  {
    if (c.SavingBoard? || c.AddingActors?) && Managed(s, c.key).None? {
      PointwiseKept(s.timetables[k].actors, after);
    } else if c.SavingBoard? {
      SaveKeepsAnswers(s, Managed(s, c.key).value, c.setting, c.assignments, k);
    } else if c.Publishing? {
      PublishKeepsAnswers(s, c.key, k);
    } else if c.AddingActors? {
      AddKeepsAnswers(s, Managed(s, c.key).value, c.contacts, k);
    } else if c.DeletingActor? {
      DeleteKeepsAnswers(s, c.key, c.actorId, k);
    } else {
      QuietCallsKeepActors(s, c, k);
      PointwiseKept(s.timetables[k].actors, after);
    }
  }

  lemma {:induction false} AttendingSource(s: State, key: string, given: Attendance, k: nat, id: int,
        slot: Option<Slot>, answer: Attendance)
    requires answer != UNANSWERED && Stands(Attend(s, key, given).0.timetables, k, id, slot, answer)
    ensures Stands(s.timetables, k, id, slot, answer) || Answers(s, Attending(key, given), k, id, slot, answer)
  {
    var ts := Attend(s, key, given).0.timetables;
    var i :| 0 <= i < |ts[k].actors| && SameAnswer(ts[k].actors[i], id, slot, answer);
    if !Answers(s, Attending(key, given), k, id, slot, answer) {
      assert SameAnswer(s.timetables[k].actors[i], id, slot, answer);
    }
  }

  /** Creation is the only call that adds a timetable, and the new one is empty. */
  lemma {:induction false} NewTimetableEmpty(s: State, c: Call, k: nat)
    requires |s.timetables| <= k < |Step(s, c).0.timetables|
    ensures Step(s, c).0.timetables[k].actors == []
  {
  }

  /** Where a stored answer comes from: it stood before the call for the same slot, or the call is the answer. */
  lemma {:induction false} AnswerSource(s: State, c: Call, k: nat, id: int, slot: Option<Slot>, answer: Attendance)
    requires Inv(s) && answer != UNANSWERED && Stands(Step(s, c).0.timetables, k, id, slot, answer)
    ensures Stands(s.timetables, k, id, slot, answer) || Answers(s, c, k, id, slot, answer)
  {
    if c.Attending? {
      AttendingSource(s, c.accessKey, c.answer, k, id, slot, answer);
    } else {
      var after := Step(s, c).0.timetables[k].actors;
      var i :| 0 <= i < |after| && SameAnswer(after[i], id, slot, answer);
      if k < |s.timetables| {
        OthersKeepAnswers(s, c, k, after);
      } else {
        NewTimetableEmpty(s, c, k);
      }
    }
  }

  /** Slot and answer have stood from the first n calls on. */
  ghost predicate Stood(s0: State, calls: seq<Call>, n: nat, k: nat, id: int, slot: Option<Slot>, answer: Attendance)
    requires Inv(s0)
  {
    forall m :: n <= m <= |calls| ==> Stands(After(s0, calls[..m]).timetables, k, id, slot, answer)
  }

  /** Call n was the actor's answer for this slot, and slot and answer have stood ever since. */
  ghost predicate AnsweredAt(s0: State, calls: seq<Call>, n: nat, k: nat, id: int, slot: Option<Slot>,
        answer: Attendance)
    requires Inv(s0) && n < |calls|
  {
    Answers(After(s0, calls[..n]), calls[n], k, id, slot, answer) && Stood(s0, calls, n + 1, k, id, slot, answer)
  }

  /** The same, call by call from the last one back. */
  ghost predicate StoodSince(s0: State, calls: seq<Call>, n: nat, k: nat, id: int, slot: Option<Slot>,
        answer: Attendance)
    requires Inv(s0)
    decreases |calls|
  {
    n > |calls| || (Stands(After(s0, calls).timetables, k, id, slot, answer) &&
                    (n == |calls| || StoodSince(s0, calls[..|calls| - 1], n, k, id, slot, answer)))
  }

  lemma {:induction false} SameStart(calls: seq<Call>, m: nat)
    requires m < |calls|
    ensures calls[..|calls| - 1][..m] == calls[..m]
  {
  }

  lemma {:induction false} StoodSinceAt(s0: State, calls: seq<Call>, n: nat, m: nat, k: nat, id: int,
        slot: Option<Slot>, answer: Attendance)
    requires Inv(s0) && n <= m <= |calls| && StoodSince(s0, calls, n, k, id, slot, answer)
    ensures Stands(After(s0, calls[..m]).timetables, k, id, slot, answer)
    decreases |calls|
  {
    if m == |calls| {
      assert calls[..m] == calls;
    } else {
      SameStart(calls, m);
      StoodSinceAt(s0, calls[..|calls| - 1], n, m, k, id, slot, answer);
    }
  }

  lemma {:induction false} StoodThroughout(s0: State, calls: seq<Call>, n: nat, k: nat, id: int, slot: Option<Slot>,
        answer: Attendance)
    requires Inv(s0) && StoodSince(s0, calls, n, k, id, slot, answer)
    ensures Stood(s0, calls, n, k, id, slot, answer)
  {
    forall m | n <= m <= |calls| ensures Stands(After(s0, calls[..m]).timetables, k, id, slot, answer) {
      StoodSinceAt(s0, calls, n, m, k, id, slot, answer);
    }
  }

  lemma {:induction false} LastCallSource(s0: State, calls: seq<Call>, k: nat, id: int, slot: Option<Slot>,
        answer: Attendance)
    requires Inv(s0) && calls != [] && answer != UNANSWERED && Stands(After(s0, calls).timetables, k, id, slot, answer)
    ensures var init := calls[..|calls| - 1];
            || Stands(After(s0, init).timetables, k, id, slot, answer)
            || Answers(After(s0, init), calls[|calls| - 1], k, id, slot, answer)
  {
    var before := After(s0, calls[..|calls| - 1]);
    assert After(s0, calls) == Step(before, calls[|calls| - 1]).0;
    AnswerSource(before, calls[|calls| - 1], k, id, slot, answer);
  }

  /** Call n was the answer, and slot and answer have stood since; seen from the last call back. */
  ghost predicate GivenAt(s0: State, calls: seq<Call>, n: nat, k: nat, id: int, slot: Option<Slot>, answer: Attendance)
    requires Inv(s0)
    decreases |calls|
  {
    && n < |calls| && Stands(After(s0, calls).timetables, k, id, slot, answer)
    && if n == |calls| - 1 then Answers(After(s0, calls[..|calls| - 1]), calls[|calls| - 1], k, id, slot, answer)
       else GivenAt(s0, calls[..|calls| - 1], n, k, id, slot, answer)
  }

  lemma {:induction false} GivenByCall(s0: State, calls: seq<Call>, n: nat, k: nat, id: int, slot: Option<Slot>,
        answer: Attendance)
    requires Inv(s0) && GivenAt(s0, calls, n, k, id, slot, answer)
    ensures Answers(After(s0, calls[..n]), calls[n], k, id, slot, answer)
    decreases |calls|
  {
    if n < |calls| - 1 {
      GivenByCall(s0, calls[..|calls| - 1], n, k, id, slot, answer);
      SameBefore(calls, n);
    }
  }

  lemma {:induction false} SameBefore(calls: seq<Call>, n: nat)
    requires n < |calls| - 1
    ensures calls[..|calls| - 1][..n] == calls[..n] && calls[..|calls| - 1][n] == calls[n]
  {
  }

  lemma {:induction false} StoodSinceGiven(s0: State, calls: seq<Call>, n: nat, k: nat, id: int, slot: Option<Slot>,
        answer: Attendance)
    requires Inv(s0) && GivenAt(s0, calls, n, k, id, slot, answer)
    ensures StoodSince(s0, calls, n + 1, k, id, slot, answer)
    decreases |calls|
  {
    if n < |calls| - 1 {
      StoodSinceGiven(s0, calls[..|calls| - 1], n, k, id, slot, answer);
    }
  }

  /** Going back from the last call: to the one that gave the answer, or to the start. */
  lemma {:induction false} AnswerTraced(s0: State, calls: seq<Call>, k: nat, id: int, slot: Option<Slot>,
        answer: Attendance) returns (given: Option<nat>)
    requires Inv(s0) && answer != UNANSWERED && Stands(After(s0, calls).timetables, k, id, slot, answer)
    ensures given.None? ==> StoodSince(s0, calls, 0, k, id, slot, answer)
    ensures given.Some? ==> GivenAt(s0, calls, given.value, k, id, slot, answer)
    decreases |calls|
  {
    if calls == [] {
      return None;
    }
    var init := calls[..|calls| - 1];
    LastCallSource(s0, calls, k, id, slot, answer);
    if Stands(After(s0, init).timetables, k, id, slot, answer) {
      given := AnswerTraced(s0, init, k, id, slot, answer);
    } else {
      given := Some(|calls| - 1);
    }
  }

  /** Any answer stored after a run was given by that actor while holding the slot he still holds, and neither has
      changed since: moving an actor discards his answer. Or else the answer was there before the run, with that slot,
      and has stood throughout. */
  lemma {:induction false} AnswerIsForCurrentSlot(s0: State, calls: seq<Call>, k: nat, id: int, slot: Option<Slot>,
        answer: Attendance) returns (given: Option<nat>)
    requires Inv(s0) && answer != UNANSWERED && Stands(After(s0, calls).timetables, k, id, slot, answer)
    ensures match given
            case None => Stood(s0, calls, 0, k, id, slot, answer)
            case Some(n) => n < |calls| && AnsweredAt(s0, calls, n, k, id, slot, answer)
  {
    given := AnswerTraced(s0, calls, k, id, slot, answer);
    match given {
      case None => StoodThroughout(s0, calls, 0, k, id, slot, answer);
      case Some(n) =>
        GivenByCall(s0, calls, n, k, id, slot, answer);
        StoodSinceGiven(s0, calls, n, k, id, slot, answer);
        StoodThroughout(s0, calls, n + 1, k, id, slot, answer);
    }
  }

  // ---------- Phones ----------

  ghost predicate PhonesDistinct(actors: seq<Actor>) {
    forall i, j :: 0 <= i < j < |actors| ==> actors[i].phone != actors[j].phone
  }

  /** In every store, a timetable whose actors all have names has no phone twice. */
  lemma {:induction false} NamedPhonesDistinct(s: State, k: nat)
    requires Inv(s) && k < |s.timetables|
    requires forall i :: 0 <= i < |s.timetables[k].actors| ==> s.timetables[k].actors[i].name != ""
    ensures PhonesDistinct(s.timetables[k].actors)
  {
    assert TimetableOk(s.timetables[k]);
  }

  /** A person without a name has the phone of somebody registered later. */
  ghost predicate HiddenByActor(actors: seq<Actor>, contacts: seq<Contact>) {
    exists i, j :: 0 <= i < |actors| && 0 <= j < |contacts| && actors[i].name == ""
      && actors[i].phone == contacts[j].phone
  }

  ghost predicate HiddenByContact(contacts: seq<Contact>) {
    exists i, j :: 0 <= i < j < |contacts| && contacts[i].name == "" && contacts[i].phone == contacts[j].phone
  }

  function PhoneAt(actors: seq<Actor>, contacts: seq<Contact>, i: nat): string
    requires i < |actors| + |contacts|
  {
    if i < |actors| then actors[i].phone else contacts[i - |actors|].phone
  }

  lemma {:induction false} SamePhoneTwice(actors: seq<Actor>, i: nat, j: nat)
    requires i < j < |actors| && actors[i].phone == actors[j].phone
    ensures !PhonesDistinct(actors)
  {
  }

  lemma {:induction false} PhonesInOrder(actors: seq<Actor>, contacts: seq<Contact>, sequence: int, i: nat)
    requires i < |actors| + |contacts|
    ensures var all := actors + NewActors(contacts, sequence);
            |all| == |actors| + |contacts| && all[i].phone == PhoneAt(actors, contacts, i)
  {
  }

  lemma {:induction false} PhoneRepeats(actors: seq<Actor>, contacts: seq<Contact>, sequence: int, i: nat, j: nat)
    requires i < j < |actors| + |contacts| && PhoneAt(actors, contacts, i) == PhoneAt(actors, contacts, j)
    ensures !PhonesDistinct(actors + NewActors(contacts, sequence))
  {
    PhonesInOrder(actors, contacts, sequence, i);
    PhonesInOrder(actors, contacts, sequence, j);
    SamePhoneTwice(actors + NewActors(contacts, sequence), i, j);
  }

  lemma {:induction false} HiddenRepeats(actors: seq<Actor>, contacts: seq<Contact>, sequence: int)
    requires HiddenByActor(actors, contacts) || HiddenByContact(contacts)
    ensures !PhonesDistinct(actors + NewActors(contacts, sequence))
  {
    var n := |actors|;
    if HiddenByActor(actors, contacts) {
      var i, j :| 0 <= i < n && 0 <= j < |contacts| && actors[i].name == "" && actors[i].phone == contacts[j].phone;
      PhoneRepeats(actors, contacts, sequence, i, n + j);
    } else {
      var i, j :| 0 <= i < j < |contacts| && contacts[i].name == "" && contacts[i].phone == contacts[j].phone;
      PhoneRepeats(actors, contacts, sequence, n + i, n + j);
    }
  }

  /** The check against registering a phone twice reads the recorded name, and takes an empty one for none. So a batch
      that passes it keeps phones distinct exactly when no actor without a name has the phone of a contact, and no
      contact without a name has the phone of a later one. */
  lemma {:induction false} DuplicateCheckSoundIff(actors: seq<Actor>, contacts: seq<Contact>, sequence: int)
    requires PhonesGuarded(actors) && PhonesDistinct(actors) && ContactProblem(actors, contacts) == Done
    ensures PhonesDistinct(actors + NewActors(contacts, sequence)) <==>
            !HiddenByActor(actors, contacts) && !HiddenByContact(contacts)
  {
    if HiddenByActor(actors, contacts) || HiddenByContact(contacts) {
      HiddenRepeats(actors, contacts, sequence);
    } else {
      ContactsGuarded(actors, contacts);
      var n, all := |actors|, actors + NewActors(contacts, sequence);
      forall i, j | 0 <= i < j < |all| ensures all[i].phone != all[j].phone {
        assert all[i].phone == PhoneAt(actors, contacts, i) && all[j].phone == PhoneAt(actors, contacts, j);
        if n <= i {
          assert contacts[i - n].phone != contacts[j - n].phone;
        }
      }
    }
  }

  // ---------- Marking messages as sent ----------

  ghost predicate IdExists(ms: seq<Message>, id: int) {
    exists j :: 0 <= j < |ms| && ms[j].id == id
  }

  ghost function NamedIds(ms: seq<Message>, ids: seq<int>): set<int> {
    set j | 0 <= j < |ms| && ms[j].id in ids :: ms[j].id
  }

  lemma {:induction false} NamedIdsOfLast(ms: seq<Message>, ids: seq<int>)
    requires ms != []
    ensures NamedIds(ms, ids) ==
            NamedIds(ms[..|ms| - 1], ids) + if ms[|ms| - 1].id in ids then {ms[|ms| - 1].id} else {}
  {
  }

  lemma {:induction false} CountNamedExact(ms: seq<Message>, ids: seq<int>)
    requires forall i, j :: 0 <= i < j < |ms| ==> ms[i].id < ms[j].id
    ensures CountNamed(ms, ids) == |NamedIds(ms, ids)|
  {
    if ms != [] {
      CountNamedExact(ms[..|ms| - 1], ids);
      NamedIdsOfLast(ms, ids);
      assert ms[|ms| - 1].id !in NamedIds(ms[..|ms| - 1], ids);
    }
  }

  lemma {:induction false} SubsetSameSize(a: set<int>, b: set<int>)
    requires a <= b && |a| == |b|
    ensures a == b
  {
    assert |b| == |a| + |b - a| by {
      assert b == a + (b - a);
    }
  }

  /** Comparing counts, duplicates aside, accepts exactly the lists whose ids all exist. */
  lemma {:induction false} CompletionAcceptedIff(s: State, ids: seq<int>)
    requires Inv(s)
    ensures Complete(s, ids).1 == Done <==> forall id :: id in ids ==> IdExists(s.messages, id)
  {
    var wanted := set id | id in ids;
    var named := NamedIds(s.messages, ids);
    assert QueueOk(Box(s)) && Box(s).messages == s.messages;
    CountNamedExact(s.messages, ids);
    assert named <= wanted;
    if |named| == |wanted| {
      SubsetSameSize(named, wanted);
      forall id | id in ids ensures IdExists(s.messages, id) {
        assert id in named;
      }
    }
    if forall id :: id in ids ==> IdExists(s.messages, id) {
      forall id | id in wanted ensures id in named {
        var j :| 0 <= j < |s.messages| && s.messages[j].id == id;
      }
      assert named == wanted;
    }
  }
}

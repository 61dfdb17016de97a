/** Waiting change notices when handlers are interleaved at their waits. */
module TimetableLateChanges {
  import opened Timetable
  import opened TimetableInvariant
  import opened TimetableChanges
  import opened TimetableWaits

  /** The resumed handler is no profile edit, or it is refused, keeps title and organizer, or no change notice waits. */
  ghost predicate HarmlessHeld(s: State, h: Waiting)
    requires h.k < |s.timetables|
  {
    h.ForProfile? && ProfileAccepted(h.profile) ==>
      SameHead(h.profile, s.timetables[h.k].profile) || NoneWaiting(s.timetables[h.k], s.messages)
  }

  lemma {:induction false} AnswerKeepsCurrent(s: State, h: Waiting)
    requires Inv(s) && AllChangesCurrent(s) && h.k < |s.timetables| && h.ForAnswer?
    ensures AllChangesCurrent(Commit(s, h).0)
  {
    FindActorExact(s.timetables[h.k].actors, h.actorId);
    if Commit(s, h).0 != s {
      QuietChangeCurrent(s, h.k, Commit(s, h).0.timetables[h.k], Box(s));
    }
  }

  lemma {:induction false} CommitCurrentIff(s: State, h: Waiting)
    requires Inv(s) && AllChangesCurrent(s) && h.k < |s.timetables|
    ensures AllChangesCurrent(Commit(s, h).0) <==> HarmlessHeld(s, h)
  {
    match h
    case ForProfile(k, profile) =>
      if ProfileAccepted(profile) {
        RefreshCurrentIff(s, k, s.timetables[k].(profile := profile));
      }
    case ForTemplate(k, template) =>
      if EditTemplateAt(s, k, template).1 == Done {
        var normalized := Trim(template);
        var u := s.timetables[k].(template := if normalized == DEFAULT_TEMPLATE then "" else normalized);
        RefreshCurrentIff(s, k, u);
      }
    case ForBoard(k, setting, assignments) => SaveKeepsCurrent(s, k, setting, assignments);
    case ForContacts(k, contacts) => AddKeepsCurrent(s, k, contacts);
    case ForAnswer(_, _, _, _, _) => AnswerKeepsCurrent(s, h);
    case ForQuestion(k, actorId, text) => AskKeepsCurrent(s, k, actorId, text);
  }

  ghost predicate HarmlessEvent(w: World, e: Event)
    requires AllFound(w)
  {
    e.Resume? && e.j < |w.waiting| ==> HarmlessHeld(w.s, w.waiting[e.j])
  }

  lemma {:induction false} NextCurrentIff(w: World, e: Event)
    requires WorldOk(w) && AllFound(w) && AllChangesCurrent(w.s)
    ensures AllChangesCurrent(Next(w, e).s) <==> HarmlessEvent(w, e)
  {
    match e
    case Arrive(_) =>
    case Resume(j) =>
      if j < |w.waiting| {
        CommitCurrentIff(w.s, w.waiting[j]);
      }
    case Now(c) =>
      if !WaitsForBody(c) {
        ChangesCurrentIff(w.s, c);
      }
  }

  ghost predicate CurrentThroughout(w: World, es: seq<Event>)
    requires WorldOk(w)
    decreases |es|
  {
    AllChangesCurrent(w.s) &&
    (es == [] || (NextKeepsWorldOk(w, es[0]); CurrentThroughout(Next(w, es[0]), es[1..])))
  }

  ghost predicate HarmlessRun(w: World, es: seq<Event>)
    requires WorldOk(w)
    decreases |es|
  {
    es == [] || (NextKeepsWorldOk(w, es[0]); HarmlessEvent(w, es[0]) && HarmlessRun(Next(w, es[0]), es[1..]))
  }

  /** Over every interleaved run the waiting change notices of all timetables are current at all times exactly when no
      accepted profile edit, resuming while one waits, changes title or organizer from what they are by then. */
  lemma {:induction false} InterleavedChangesCurrentIff(w: World, es: seq<Event>)
    requires WorldOk(w) && AllChangesCurrent(w.s)
    ensures CurrentThroughout(w, es) <==> HarmlessRun(w, es)
    decreases |es|
  {
    if es != [] {
      NextKeepsWorldOk(w, es[0]);
      NextCurrentIff(w, es[0]);
      if AllChangesCurrent(Next(w, es[0]).s) {
        InterleavedChangesCurrentIff(Next(w, es[0]), es[1..]);
      }
    }
  }
}

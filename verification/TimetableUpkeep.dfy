/** The remaining handlers: creating, removing an actor, answers and requests of actors, sending messages. */
module TimetableUpkeep {
  import opened Wrappers
  import opened TimetableSetting
  import opened Timetable
  import opened TimetableInvariant
  import opened TimetableSteps
  import opened TimetableHandlers

  // ---------- Removing an actor ----------

  lemma {:induction false} WithoutActorExact(actors: seq<Actor>, id: int)
    ensures forall a :: a in WithoutActor(actors, id) <==> a in actors && a.id != id
  {
    if actors != [] {
      var init, last := actors[..|actors| - 1], actors[|actors| - 1];
      WithoutActorExact(init, id);
      assert forall a :: a in actors <==> a == last || a in init;
    }
  }

  lemma {:induction false} WithoutActorIncreasing(actors: seq<Actor>, id: int)
    requires IdsIncrease(actors)
    ensures IdsIncrease(WithoutActor(actors, id))
  {
    if actors != [] {
      var init, last := actors[..|actors| - 1], actors[|actors| - 1];
      WithoutActorIncreasing(init, id);
      WithoutActorExact(init, id);
      var rest := WithoutActor(init, id);
      forall i | 0 <= i < |rest| ensures rest[i].id < last.id {
        assert rest[i] in init;
      }
    }
  }

  lemma {:induction false} LastShares(actors: seq<Actor>, last: Actor)
    requires NamelessShare(actors)
    requires forall i :: 0 <= i < |actors| && actors[i].phone == last.phone ==> actors[i].name == ""
    ensures NamelessShare(actors + [last])
  {
  }

  lemma {:induction false} WithoutActorShares(actors: seq<Actor>, id: int)
    requires NamelessShare(actors)
    ensures NamelessShare(WithoutActor(actors, id))
  {
    if actors != [] {
      var init, last := actors[..|actors| - 1], actors[|actors| - 1];
      WithoutActorShares(init, id);
      WithoutActorExact(init, id);
      var rest := WithoutActor(init, id);
      forall i | 0 <= i < |rest| && rest[i].phone == last.phone ensures rest[i].name == "" {
        assert rest[i] in init;
        var j :| 0 <= j < |init| && init[j] == rest[i];
        assert actors[j] == init[j];
      }
      LastShares(rest, last);
    }
  }

  lemma {:induction false} WithoutActorGuarded(actors: seq<Actor>, id: int)
    requires PhonesGuarded(actors)
    ensures PhonesGuarded(WithoutActor(actors, id))
  {
    var rest := WithoutActor(actors, id);
    WithoutActorShares(actors, id);
    WithoutActorExact(actors, id);
    forall i | 0 <= i < |rest| ensures IsPhone(rest[i].phone) {
      assert rest[i] in actors;
    }
  }

  lemma {:induction false} WithoutActorHolders(actors: seq<Actor>, id: int, slot: Slot)
    ensures Holders(WithoutActor(actors, id), slot) <= Holders(actors, slot)
  {
    if actors != [] {
      var init, last := actors[..|actors| - 1], actors[|actors| - 1];
      WithoutActorHolders(init, id, slot);
      var rest := WithoutActor(init, id);
      assert (rest + [last])[..|rest|] == rest;
    }
  }

  lemma {:induction false} WithoutRequestsExact(requests: seq<Request>, actorId: int)
    ensures forall r :: r in WithoutRequests(requests, actorId) <==> r in requests && r.actorId != actorId
  {
    if requests != [] {
      var init, last := requests[..|requests| - 1], requests[|requests| - 1];
      WithoutRequestsExact(init, actorId);
      assert forall r :: r in requests <==> r == last || r in init;
    }
  }

  lemma {:induction false} WithoutRequestsPairs(requests: seq<Request>, actorId: int)
    requires OneOpenEach(requests)
    ensures OneOpenEach(WithoutRequests(requests, actorId))
  {
    if requests != [] {
      var init, last := requests[..|requests| - 1], requests[|requests| - 1];
      WithoutRequestsPairs(init, actorId);
      WithoutRequestsExact(init, actorId);
      var rest := WithoutRequests(init, actorId);
      forall i | 0 <= i < |rest| && rest[i].open && last.open ensures rest[i].actorId != last.actorId {
        assert rest[i] in init;
      }
    }
  }

  lemma {:induction false} WithoutPendingExact(ms: seq<Message>, actorId: int)
    ensures forall m :: m in WithoutPending(ms, actorId) <==> m in ms && !(m.pending && m.actorId == Some(actorId))
  {
    if ms != [] {
      var init, last := ms[..|ms| - 1], ms[|ms| - 1];
      WithoutPendingExact(init, actorId);
      assert forall m :: m in ms <==> m == last || m in init;
    }
  }

  lemma {:induction false} WithoutPendingQueue(box: Outbox, actorId: int)
    requires QueueOk(box)
    ensures QueueOk(box.(messages := WithoutPending(box.messages, actorId)))
    decreases |box.messages|
  {
    if box.messages != [] {
      var init, last := box.messages[..|box.messages| - 1], box.messages[|box.messages| - 1];
      WithoutPendingQueue(box.(messages := init), actorId);
      WithoutPendingExact(init, actorId);
      var rest := WithoutPending(init, actorId);
      forall i | 0 <= i < |rest| ensures rest[i].id < last.id && !Clash(rest[i], last) {
        assert rest[i] in init;
      }
    }
  }

  lemma {:induction false} WithoutActorOk(t: Timetable, id: int)
    requires TimetableOk(t)
    ensures TimetableOk(t.(actors := WithoutActor(t.actors, id), requests := WithoutRequests(t.requests, id)))
  {
    var u := t.(actors := WithoutActor(t.actors, id), requests := WithoutRequests(t.requests, id));
    WithoutActorIncreasing(t.actors, id);
    WithoutActorGuarded(t.actors, id);
    WithoutRequestsPairs(t.requests, id);
    RemainingActorsOk(t, u, id);
  }

  lemma {:induction false} RemainingActorsOk(t: Timetable, u: Timetable, id: int)
    requires TimetableOk(t) && u.setting == t.setting && u.published == t.published
             && u.actors == WithoutActor(t.actors, id)
    ensures BoardLegal(u) && Settled(u)
    ensures forall i :: 0 <= i < |u.actors| ==>
              (u.actors[i].invited ==> u.published) && (u.actors[i].attendance != UNANSWERED ==> u.actors[i].invited)
  {
    WithoutActorExact(t.actors, id);
    forall i | 0 <= i < |u.actors|
      ensures ActorPlaced(u, u.actors[i]) && (u.published && u.actors[i].slot.Some? ==> u.actors[i].invited)
      ensures (u.actors[i].invited ==> u.published) && (u.actors[i].attendance != UNANSWERED ==> u.actors[i].invited)
    {
      assert u.actors[i] in t.actors;
      var l :| 0 <= l < |t.actors| && t.actors[l] == u.actors[i];
      assert ActorPlaced(t, t.actors[l]);
      if u.actors[i].slot.Some? {
        WithoutActorHolders(t.actors, id, u.actors[i].slot.value);
      }
    }
  }

  lemma {:induction false} RemainingFit(t: Timetable, u: Timetable, ms: seq<Message>, id: int)
    requires Fits(t, ms, {})
    requires u == t.(actors := WithoutActor(t.actors, id), requests := u.requests)
    ensures Fits(u, WithoutPending(ms, id), {})
  {
    var ns := WithoutPending(ms, id);
    WithoutActorExact(t.actors, id);
    WithoutPendingExact(ms, id);
    forall i | 0 <= i < |u.actors| ensures ActorFits(u, u.actors[i], ns, {}) {
      var a := u.actors[i];
      assert a in u.actors;
      var l :| 0 <= l < |t.actors| && t.actors[l] == a;
      assert ActorFits(t, a, ms, {});
      if a.invited {
        var j :| 0 <= j < |ms| && ms[j].kind == ACTOR_INVITATION && ms[j].actorId == Some(a.id);
        assert ms[j] in ns;
        var n :| 0 <= n < |ns| && ns[n] == ms[j];
      }
      forall j | 0 <= j < |ns| && ns[j].actorId == Some(a.id) ensures Matches(u, a, ns[j], false) {
        assert ns[j] in ms;
        var n :| 0 <= n < |ms| && ms[n] == ns[j];
        assert Matches(t, a, ms[n], false);
      }
    }
  }

  lemma {:induction false} RemainingIds(t: Timetable, id: int)
    ensures forall x :: HasId(WithoutActor(t.actors, id), x) <==> HasId(t.actors, x) && x != id
    ensures forall x :: x in IdsOf(t.actors) <==> HasId(t.actors, x)
  {
    WithoutActorExact(t.actors, id);
    var r := WithoutActor(t.actors, id);
    forall x ensures (HasId(r, x) <==> HasId(t.actors, x) && x != id)
      && (x in IdsOf(t.actors) <==> HasId(t.actors, x)) {
      IdsOfExact(t.actors, x);
      if HasId(r, x) {
        var i :| 0 <= i < |r| && r[i].id == x;
        assert r[i] in t.actors;
      }
      if HasId(t.actors, x) && x != id {
        var i :| 0 <= i < |t.actors| && t.actors[i].id == x;
        assert t.actors[i] in r;
      }
    }
  }

  lemma {:induction false} DeleteActorKeepsInv(s: State, key: string, actorId: int)
    requires Inv(s)
    ensures Inv(DeleteActor(s, key, actorId).0)
  {
    if DeleteActor(s, key, actorId).1 == Done {
      var k := Managed(s, key).value;
      var t := s.timetables[k];
      FindActorExact(t.actors, actorId);
      var u := t.(actors := WithoutActor(t.actors, actorId), requests := WithoutRequests(t.requests, actorId));
      var box := Outbox(WithoutPending(s.messages, actorId), s.sequence);
      RemovalStep(t, u, Box(s), actorId) by {
        assert IdsWithin(t, s.sequence);
      }
      RemainingIds(t, actorId);
      LocalStepKeepsInv(s, k, u, box, IdsOf(t.actors));
    }
  }

  lemma {:induction false} RemovalStep(t: Timetable, u: Timetable, box: Outbox, id: int)
    requires TimetableOk(t) && Fits(t, box.messages, {}) && QueueOk(box) && IdsWithin(t, box.sequence)
             && HasId(t.actors, id)
    requires u == t.(actors := WithoutActor(t.actors, id), requests := WithoutRequests(t.requests, id))
    ensures LocalStep(t, box, u, box.(messages := WithoutPending(box.messages, id)), IdsOf(t.actors))
  {
    var ns := WithoutPending(box.messages, id);
    WithoutActorOk(t, id);
    RemainingFit(t, u, box.messages, id);
    WithoutPendingQueue(box, id);
    WithoutPendingExact(box.messages, id);
    RemainingIds(t, id);
    WithoutActorExact(t.actors, id);
    forall i | 0 <= i < |u.actors| ensures u.actors[i].id <= box.sequence {
      assert u.actors[i] in t.actors;
    }
    WithoutRequestsExact(t.requests, id);
    forall j | 0 <= j < |u.requests| ensures u.requests[j].actorId <= box.sequence {
      assert u.requests[j] in t.requests;
    }
    forall x, j | 0 <= j < |ns| && x in IdsOf(t.actors) && ns[j].pending && ns[j].actorId == Some(x)
      ensures HasId(u.actors, x) {
      assert ns[j] in ns;
    }
  }

  // ---------- Requests and answers ----------

  /** A change of requests alone. */
  lemma {:induction false} RequestChangeKeepsInv(s: State, k: nat, u: Timetable, box: Outbox)
    requires Inv(s) && k < |s.timetables| && u == s.timetables[k].(requests := u.requests)
    requires OneOpenEach(u.requests) && AskedWithin(u.requests, box.sequence)
    requires QueueOk(box) && s.sequence <= box.sequence && Fits(s.timetables[k], box.messages, {})
    requires SameFor(s.messages, box.messages, {})
    ensures Inv(With(s, k, u, box))
  {
    var t := s.timetables[k];
    BoardLegalOf(t, u);
    SamePartsFit(t, u, box.messages);
    SameActorsKeepInv(s, k, u, box);
  }

  lemma {:induction false} ResolveKeepsInv(s: State, key: string, requestId: int)
    requires Inv(s)
    ensures Inv(Resolve(s, key, requestId).0)
  {
    if Resolve(s, key, requestId).1 == Done {
      var k := Managed(s, key).value;
      var t := s.timetables[k];
      var i := FindRequest(t.requests, requestId).value;
      var u := t.(requests := t.requests[i := t.requests[i].(open := false)]);
      assert IdsWithin(t, s.sequence);
      RequestsStayOk(t.requests, u.requests, s.sequence);
      SameForItself(s.messages, {});
      RequestChangeKeepsInv(s, k, u, Box(s));
    }
  }

  lemma {:induction false} AttendAtKeepsInv(s: State, k: nat, i: nat, answer: Attendance)
    requires Inv(s) && k < |s.timetables| && i < |s.timetables[k].actors| && s.timetables[k].actors[i].invited
    ensures Inv(AttendAt(s, k, i, answer).0)
  {
    if answer != UNANSWERED {
      var t := s.timetables[k];
      var u := t.(actors := t.actors[i := t.actors[i].(attendance := answer)]);
      AnsweredOk(t, i, answer, s.messages);
      SameForItself(s.messages, {});
      assert IdsWithin(t, s.sequence);
      SameActorsKeepInv(s, k, u, Box(s));
    }
  }

  lemma {:induction false} AttendKeepsInv(s: State, accessKey: string, answer: Attendance)
    requires Inv(s)
    ensures Inv(Attend(s, accessKey, answer).0)
  {
    var access := Accessed(s, accessKey);
    if access.Some? {
      AttendAtKeepsInv(s, access.value.0, access.value.1, answer);
    }
  }

  lemma {:induction false} AnsweredOk(t: Timetable, i: nat, answer: Attendance, ms: seq<Message>)
    requires TimetableOk(t) && Fits(t, ms, {}) && i < |t.actors| && t.actors[i].invited
    ensures var u := t.(actors := t.actors[i := t.actors[i].(attendance := answer)]);
            TimetableOk(u) && Fits(u, ms, {}) && SameIds(t.actors, u.actors)
  {
    var u := t.(actors := t.actors[i := t.actors[i].(attendance := answer)]);
    AnsweredLegal(t, i, answer);
    AnsweredFits(t, i, answer, ms);
    assert PhonesGuarded(u.actors);
  }

  lemma {:induction false} AnsweredLegal(t: Timetable, i: nat, answer: Attendance)
    requires BoardLegal(t) && i < |t.actors|
    ensures BoardLegal(t.(actors := t.actors[i := t.actors[i].(attendance := answer)]))
  {
    var u := t.(actors := t.actors[i := t.actors[i].(attendance := answer)]);
    forall k | 0 <= k < |u.actors| ensures ActorPlaced(u, u.actors[k]) {
      assert ActorPlaced(t, t.actors[k]);
      if u.actors[k].slot.Some? {
        HoldersSame(t.actors, u.actors, u.actors[k].slot.value);
      }
    }
  }

  lemma {:induction false} AnsweredFits(t: Timetable, i: nat, answer: Attendance, ms: seq<Message>)
    requires Fits(t, ms, {}) && i < |t.actors| && t.actors[i].invited
    ensures Fits(t.(actors := t.actors[i := t.actors[i].(attendance := answer)]), ms, {})
  {
    var u := t.(actors := t.actors[i := t.actors[i].(attendance := answer)]);
    forall k | 0 <= k < |u.actors| ensures ActorFits(u, u.actors[k], ms, {}) {
      assert ActorFits(t, t.actors[k], ms, {});
      forall j | 0 <= j < |ms| && ms[j].actorId == Some(u.actors[k].id) ensures Matches(u, u.actors[k], ms[j], false) {
        assert Matches(t, t.actors[k], ms[j], false);
      }
    }
  }

  lemma {:induction false} TimeRequestQueued(box: Outbox, t: Timetable, u: Timetable)
    requires QueueOk(box) && Fits(t, box.messages, {})
    ensures var r := Queue(box, u, ORGANIZER_TIME_REQUEST, None);
            && QueueOk(r) && Fits(t, r.messages, {}) && box.sequence <= r.sequence
            && SameFor(box.messages, r.messages, {})
  {
    if HasPendingTimeRequest(box.messages, u.id) {
      assert Queue(box, u, ORGANIZER_TIME_REQUEST, None) == box;
      SameForItself(box.messages, {});
    } else {
      var m := NewMessage(box.sequence + 1, u, ORGANIZER_TIME_REQUEST, None);
      assert Queue(box, u, ORGANIZER_TIME_REQUEST, None) == Outbox(box.messages + [m], box.sequence + 1);
      forall j | 0 <= j < |box.messages| ensures !Clash(box.messages[j], m) {
        assert !PendingTimeRequest(box.messages[j], u.id);
      }
      PushKeepsQueue(box, u, ORGANIZER_TIME_REQUEST, None);
      AppendFits(t, box.messages, m, {});
      AppendLeavesOthers(box.messages, m, {});
    }
  }

  lemma {:induction false} LaterSequence(box: Outbox, sequence: int)
    requires QueueOk(box) && box.sequence <= sequence
    ensures QueueOk(box.(sequence := sequence))
  {
    forall j | 0 <= j < |box.messages| ensures MessageOk(box.messages[j], sequence) {
      assert MessageOk(box.messages[j], box.sequence);
    }
  }

  lemma {:induction false} NewRequestOk(requests: seq<Request>, r: Request, sequence: int)
    requires OneOpenEach(requests) && FindOpen(requests, r.actorId).None?
    requires AskedWithin(requests, sequence) && r.actorId <= sequence
    ensures OneOpenEach(requests + [r]) && AskedWithin(requests + [r], sequence)
  {
  }

  lemma {:induction false} RewrittenRequestKeepsInv(s: State, k: nat, j: nat, message: string)
    requires Inv(s) && k < |s.timetables| && j < |s.timetables[k].requests|
    ensures var t := s.timetables[k];
            var u := t.(requests := t.requests[j := t.requests[j].(message := message)]);
            Inv(With(s, k, u, Queue(Box(s), u, ORGANIZER_TIME_REQUEST, None)))
  {
    var t := s.timetables[k];
    var u := t.(requests := t.requests[j := t.requests[j].(message := message)]);
    var box := Queue(Box(s), u, ORGANIZER_TIME_REQUEST, None);
    TimeRequestQueued(Box(s), t, u);
    assert IdsWithin(t, s.sequence);
    RequestsStayOk(t.requests, u.requests, box.sequence);
    RequestChangeKeepsInv(s, k, u, box);
  }

  lemma {:induction false} NewRequestKeepsInv(s: State, k: nat, actorId: int, message: string)
    requires Inv(s) && k < |s.timetables| && actorId <= s.sequence
    requires FindOpen(s.timetables[k].requests, actorId).None?
    ensures var t := s.timetables[k];
            var u := t.(requests := t.requests + [Request(s.sequence + 1, actorId, message, true)]);
            Inv(With(s, k, u, Queue(Outbox(s.messages, s.sequence + 1), u, ORGANIZER_TIME_REQUEST, None)))
  {
    var t := s.timetables[k];
    var r := Request(s.sequence + 1, actorId, message, true);
    var u := t.(requests := t.requests + [r]);
    var box := Queue(Outbox(s.messages, s.sequence + 1), u, ORGANIZER_TIME_REQUEST, None);
    LaterSequence(Box(s), s.sequence + 1);
    TimeRequestQueued(Outbox(s.messages, s.sequence + 1), t, u);
    assert IdsWithin(t, s.sequence);
    NewRequestOk(t.requests, r, box.sequence);
    RequestChangeKeepsInv(s, k, u, box);
  }

  /** Whether or not the actor who asks is still registered. */
  lemma {:induction false} AskAtKeepsInv(s: State, k: nat, actorId: int, text: string)
    requires Inv(s) && k < |s.timetables| && actorId <= s.sequence
    ensures Inv(AskAt(s, k, actorId, text).0)
  {
    if AskAt(s, k, actorId, text).1 == Done {
      var t := s.timetables[k];
      var open := FindOpen(t.requests, actorId);
      if open.Some? {
        var u := t.(requests := t.requests[open.value := t.requests[open.value].(message := Trim(text))]);
        assert AskAt(s, k, actorId, text).0 == With(s, k, u, Queue(Box(s), u, ORGANIZER_TIME_REQUEST, None));
        RewrittenRequestKeepsInv(s, k, open.value, Trim(text));
      } else {
        var u := t.(requests := t.requests + [Request(s.sequence + 1, actorId, Trim(text), true)]);
        var box := Queue(Outbox(s.messages, s.sequence + 1), u, ORGANIZER_TIME_REQUEST, None);
        assert AskAt(s, k, actorId, text).0 == With(s, k, u, box);
        NewRequestKeepsInv(s, k, actorId, Trim(text));
      }
    }
  }

  lemma {:induction false} AskKeepsInv(s: State, accessKey: string, text: string)
    requires Inv(s)
    ensures Inv(Ask(s, accessKey, text).0)
  {
    var access := Accessed(s, accessKey);
    if access.Some? {
      var (k, i) := access.value;
      assert IdsWithin(s.timetables[k], s.sequence);
      AskAtKeepsInv(s, k, s.timetables[k].actors[i].id, text);
    }
  }

  // ---------- Sending ----------

  lemma {:induction false} SentQueueOk(box: Outbox, ids: seq<int>)
    requires QueueOk(box)
    ensures QueueOk(box.(messages := MarkSent(box.messages, ids)))
  {
    forall j | 0 <= j < |box.messages| ensures MessageOk(MarkSent(box.messages, ids)[j], box.sequence) {
      assert MessageOk(box.messages[j], box.sequence);
    }
  }

  lemma {:induction false} SentFits(t: Timetable, ms: seq<Message>, ids: seq<int>)
    requires Fits(t, ms, {})
    ensures Fits(t, MarkSent(ms, ids), {})
  {
    var ns := MarkSent(ms, ids);
    forall i | 0 <= i < |t.actors| ensures ActorFits(t, t.actors[i], ns, {}) {
      var a := t.actors[i];
      assert ActorFits(t, a, ms, {});
      if a.invited {
        var j :| 0 <= j < |ms| && ms[j].kind == ACTOR_INVITATION && ms[j].actorId == Some(a.id);
        assert ns[j].kind == ACTOR_INVITATION && ns[j].actorId == Some(a.id);
      }
      forall j | 0 <= j < |ns| && ns[j].actorId == Some(a.id) ensures Matches(t, a, ns[j], false) {
        assert Matches(t, a, ms[j], false);
      }
    }
  }

  lemma {:induction false} CompleteKeepsInv(s: State, ids: seq<int>)
    requires Inv(s)
    ensures Inv(Complete(s, ids).0)
  {
    if Complete(s, ids).1 == Done {
      SentQueueOk(Box(s), ids);
      var t := Complete(s, ids).0;
      forall k | 0 <= k < |t.timetables| ensures Fits(t.timetables[k], t.messages, {}) {
        SentFits(s.timetables[k], s.messages, ids);
      }
    }
  }

  // ---------- Creating ----------

  lemma {:induction false} CreateKeepsInv(s: State, manageKey: string, profile: Profile, setting: Setting)
    requires Inv(s)
    ensures Inv(Create(s, manageKey, profile, setting).0)
  {
    var (r, outcome) := Create(s, manageKey, profile, setting);
    if outcome == Done {
      var t := Timetable(s.sequence + 1, manageKey, profile, setting, false, "", [], []);
      var m := NewMessage(s.sequence + 2, t, ORGANIZER_LINK, None);
      LaterSequence(Box(s), s.sequence + 1);
      PushKeepsQueue(Outbox(s.messages, s.sequence + 1), t, ORGANIZER_LINK, None);
      assert r.messages == s.messages + [m];
      CreatedIdsOk(s, t);
      forall k | 0 <= k < |r.timetables| ensures TimetableOk(r.timetables[k]) && Fits(r.timetables[k], r.messages, {}) {
        if k < |s.timetables| {
          AppendFits(s.timetables[k], s.messages, m, {});
        }
      }
      CreatedNoOrphans(s, t, m);
    }
  }

  lemma {:induction false} CreatedIdsOk(s: State, t: Timetable)
    requires Inv(s) && t.id == s.sequence + 1 && t.actors == [] && t.requests == []
    ensures IdsOk(s.timetables + [t], s.sequence + 2)
  {
    var ts := s.timetables + [t];
    forall k | 0 <= k < |ts| ensures IdsWithin(ts[k], s.sequence + 2) {
      assert k < |s.timetables| ==> IdsWithin(s.timetables[k], s.sequence);
    }
    forall k, l | 0 <= k < l < |ts| ensures ts[k].id < ts[l].id && ActorsApart(ts[k], ts[l]) {
      assert IdsWithin(s.timetables[k], s.sequence);
    }
  }

  lemma {:induction false} CreatedNoOrphans(s: State, t: Timetable, m: Message)
    requires NoOrphans(s.timetables, s.messages) && m.actorId.None?
    ensures NoOrphans(s.timetables + [t], s.messages + [m])
  {
    var ts, ms := s.timetables + [t], s.messages + [m];
    forall j | 0 <= j < |ms| && ms[j].pending && ms[j].actorId.Some? ensures IsLive(ts, ms[j].actorId.value) {
      assert IsLive(s.timetables, s.messages[j].actorId.value);
      var k :| 0 <= k < |s.timetables| && HasId(s.timetables[k].actors, ms[j].actorId.value);
      assert ts[k] == s.timetables[k];
    }
  }
}

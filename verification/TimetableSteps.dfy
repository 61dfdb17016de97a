/** Each handler keeps the invariant. */
module TimetableSteps {
  import opened Wrappers
  import opened Timetable
  import opened TimetableInvariant

  // ---------- Changes that keep the list of actors ----------

  ghost predicate SameIds(a: seq<Actor>, b: seq<Actor>) {
    |a| == |b| && forall i :: 0 <= i < |a| ==> a[i].id == b[i].id
  }

  lemma {:induction false} SameIdsHave(a: seq<Actor>, b: seq<Actor>, x: int)
    requires SameIds(a, b)
    ensures HasId(a, x) <==> HasId(b, x)
  {
    if HasId(a, x) {
      var i :| 0 <= i < |a| && a[i].id == x;
      assert b[i].id == x;
    }
    if HasId(b, x) {
      var i :| 0 <= i < |b| && b[i].id == x;
      assert a[i].id == x;
    }
  }

  lemma {:induction false} IdsOfExact(actors: seq<Actor>, x: int)
    ensures x in IdsOf(actors) <==> HasId(actors, x)
  {
  }

  lemma {:induction false} SameActorsKeepInv(s: State, k: nat, u: Timetable, box: Outbox)
    requires Inv(s) && k < |s.timetables| && u.id == s.timetables[k].id && SameIds(s.timetables[k].actors, u.actors)
    requires TimetableOk(u) && Fits(u, box.messages, {}) && QueueOk(box) && s.sequence <= box.sequence
    requires AskedWithin(u.requests, box.sequence)
    requires SameFor(s.messages, box.messages, IdsOf(s.timetables[k].actors))
    ensures Inv(With(s, k, u, box))
  {
    var t := s.timetables[k];
    assert IdsWithin(t, s.sequence);
    forall x ensures (x in IdsOf(t.actors) <==> HasId(t.actors, x)) && (HasId(t.actors, x) <==> HasId(u.actors, x)) {
      IdsOfExact(t.actors, x);
      SameIdsHave(t.actors, u.actors, x);
    }
    LocalStepKeepsInv(s, k, u, box, IdsOf(t.actors));
  }

  /** Everything the invariant says of a timetable alone depends on these parts. */
  ghost predicate SameGrid(t: Timetable, u: Timetable) {
    t.setting == u.setting && t.published == u.published && t.actors == u.actors && t.requests == u.requests
  }

  lemma {:induction false} SameGridOk(t: Timetable, u: Timetable)
    requires TimetableOk(t) && SameGrid(t, u)
    ensures TimetableOk(u)
  {
    forall i | 0 <= i < |u.actors| ensures ActorPlaced(u, u.actors[i]) {
      assert ActorPlaced(t, t.actors[i]);
    }
  }

  // ---------- Refreshing invitations ----------

  /** A waiting invitation of a timetable goes to one of its actors. */
  lemma {:induction false} InvitationGoesToActor(s: State, k: nat, j: nat)
    requires Inv(s) && k < |s.timetables| && j < |s.messages| && PendingInvitation(s.messages[j], s.timetables[k].id)
    ensures s.messages[j].actorId.Some? && HasId(s.timetables[k].actors, s.messages[j].actorId.value)
  {
    var m := s.messages[j];
    assert MessageOk(m, s.sequence) && IsLive(s.timetables, m.actorId.value);
    var l :| 0 <= l < |s.timetables| && HasId(s.timetables[l].actors, m.actorId.value);
    var i :| 0 <= i < |s.timetables[l].actors| && s.timetables[l].actors[i].id == m.actorId.value;
    MessageNamesTimetable(s.timetables[l], i, s.messages, j);
    SameIdSameTimetable(s.timetables, s.sequence, k, l);
  }

  lemma {:induction false} SameIdSameTimetable(ts: seq<Timetable>, sequence: int, k: nat, l: nat)
    requires IdsOk(ts, sequence) && k < |ts| && l < |ts| && ts[k].id == ts[l].id
    ensures k == l
  {
  }

  lemma {:induction false} MessageNamesTimetable(t: Timetable, i: nat, ms: seq<Message>, j: nat)
    requires Fits(t, ms, {}) && i < |t.actors| && j < |ms| && ms[j].actorId == Some(t.actors[i].id)
    ensures ms[j].timetableId == t.id
  {
    assert ActorFits(t, t.actors[i], ms, {}) && Matches(t, t.actors[i], ms[j], false);
  }

  lemma {:induction false} RewordedOnlyInside(ms: seq<Message>, ns: seq<Message>, ids: set<int>)
    requires SameHeaders(ms, ns)
    requires forall j :: 0 <= j < |ms| && ms[j].actorId.Some? && ms[j].actorId.value !in ids ==> ns[j] == ms[j]
    ensures SameFor(ms, ns, ids)
  {
    forall m: Message | m.actorId.Some? && m.actorId.value !in ids ensures m in ms <==> m in ns {
      if m in ms {
        var j :| 0 <= j < |ms| && ms[j] == m;
        assert ns[j] == m;
      }
      if m in ns {
        var j :| 0 <= j < |ns| && ns[j] == m;
        assert ms[j].actorId == m.actorId;
      }
    }
  }

  lemma {:induction false} RefreshLeavesOthers(s: State, k: nat, u: Timetable)
    requires Inv(s) && k < |s.timetables| && u.id == s.timetables[k].id
    ensures SameFor(s.messages, RefreshAll(u, s.messages), IdsOf(s.timetables[k].actors))
  {
    var ms, ns, ids := s.messages, RefreshAll(u, s.messages), IdsOf(s.timetables[k].actors);
    forall j | 0 <= j < |ms| && ms[j].actorId.Some? && ms[j].actorId.value !in ids ensures ns[j] == ms[j] {
      if PendingInvitation(ms[j], u.id) {
        InvitationGoesToActor(s, k, j);
        IdsOfExact(s.timetables[k].actors, ms[j].actorId.value);
      }
    }
    RewordedOnlyInside(ms, ns, ids);
  }

  lemma {:induction false} ActorOfIndex(t: Timetable, i: nat)
    requires ActorsOk(t) && i < |t.actors|
    ensures ActorOf(t, Some(t.actors[i].id)) == Some(t.actors[i])
  {
    FindActorExact(t.actors, t.actors[i].id);
    var j := FindActor(t.actors, t.actors[i].id).value;
  }

  lemma {:induction false} RefreshedFits(t: Timetable, u: Timetable, ms: seq<Message>)
    requires ActorsOk(t) && Fits(t, ms, {}) && SameGrid(t, u) && u.id == t.id
    ensures Fits(u, RefreshAll(u, ms), {})
  {
    var ns := RefreshAll(u, ms);
    forall i | 0 <= i < |u.actors| ensures ActorFits(u, u.actors[i], ns, {}) {
      var a := u.actors[i];
      assert ActorFits(t, a, ms, {});
      ActorOfIndex(u, i);
      if a.invited {
        var j :| 0 <= j < |ms| && ms[j].kind == ACTOR_INVITATION && ms[j].actorId == Some(a.id);
        assert ns[j].kind == ACTOR_INVITATION && ns[j].actorId == Some(a.id);
      }
      forall j | 0 <= j < |ns| && ns[j].actorId == Some(a.id) ensures Matches(u, a, ns[j], false) {
        assert Matches(t, a, ms[j], false);
      }
    }
  }

  /** A change of profile or template, followed by rendering the waiting invitations anew. */
  lemma {:induction false} RefreshKeepsInv(s: State, k: nat, u: Timetable)
    requires Inv(s) && k < |s.timetables| && SameGrid(s.timetables[k], u) && u.id == s.timetables[k].id
    ensures Inv(Refresh(s, k, u))
  {
    SameGridOk(s.timetables[k], u);
    RefreshedFits(s.timetables[k], u, s.messages);
    RefreshLeavesOthers(s, k, u);
    HeadersKeepQueue(Box(s), RefreshAll(u, s.messages));
    assert IdsWithin(s.timetables[k], s.sequence);
    SameActorsKeepInv(s, k, u, Outbox(RefreshAll(u, s.messages), s.sequence));
  }

  // ---------- Queueing messages to actors ----------

  lemma {:induction false} SameForItself(ms: seq<Message>, ids: set<int>)
    ensures SameFor(ms, ms, ids)
  {
  }

  lemma {:induction false} SameForTrans(a: seq<Message>, b: seq<Message>, c: seq<Message>, ids: set<int>)
    requires SameFor(a, b, ids) && SameFor(b, c, ids)
    ensures SameFor(a, c, ids)
  {
  }

  /** Rewording an actor's waiting notices brings them up to date, and touches nobody else's. */
  lemma {:induction false} RewordedFits(t: Timetable, i: nat, ms: seq<Message>, stale: set<int>)
    requires ActorsOk(t) && i < |t.actors| && Fits(t, ms, stale)
    ensures Fits(t, RewordAll(t, t.actors[i], ms), stale - {t.actors[i].id})
  {
    var a := t.actors[i];
    var ns := RewordAll(t, a, ms);
    forall k | 0 <= k < |t.actors| ensures ActorFits(t, t.actors[k], ns, stale - {a.id}) {
      var b := t.actors[k];
      assert ActorFits(t, b, ms, stale);
      if b.invited {
        var j :| 0 <= j < |ms| && ms[j].kind == ACTOR_INVITATION && ms[j].actorId == Some(b.id);
        assert ns[j].kind == ACTOR_INVITATION && ns[j].actorId == Some(b.id);
      }
      assert b.id == a.id ==> b == a;
      forall j | 0 <= j < |ns| && ns[j].actorId == Some(b.id) ensures Matches(t, b, ns[j], b.id in stale - {a.id}) {
        assert Matches(t, b, ms[j], b.id in stale);
      }
    }
  }

  lemma {:induction false} AppendLeavesOthers(ms: seq<Message>, m: Message, ids: set<int>)
    requires m.actorId.Some? ==> m.actorId.value in ids
    ensures SameFor(ms, ms + [m], ids)
  {
  }

  lemma {:induction false} AppendFits(t: Timetable, ms: seq<Message>, m: Message, stale: set<int>)
    requires Fits(t, ms, stale)
    requires forall i :: 0 <= i < |t.actors| && m.actorId == Some(t.actors[i].id) ==>
               Matches(t, t.actors[i], m, t.actors[i].id in stale)
    ensures Fits(t, ms + [m], stale)
  {
    var ns := ms + [m];
    forall i | 0 <= i < |t.actors| ensures ActorFits(t, t.actors[i], ns, stale) {
      var a := t.actors[i];
      assert ActorFits(t, a, ms, stale);
      if a.invited {
        var j :| 0 <= j < |ms| && ms[j].kind == ACTOR_INVITATION && ms[j].actorId == Some(a.id);
        assert ns[j] == ms[j];
      }
      forall j | 0 <= j < |ns| && ns[j].actorId == Some(a.id) ensures Matches(t, a, ns[j], a.id in stale) {
        assert j < |ms| ==> ns[j] == ms[j];
      }
    }
  }

  lemma {:induction false} FewerStale(t: Timetable, ms: seq<Message>, stale: set<int>, a: Actor)
    requires Fits(t, ms, stale)
    requires forall j :: 0 <= j < |ms| && ms[j].actorId == Some(a.id) ==>
             !(ms[j].pending && ms[j].kind == ACTOR_INVITATION)
    ensures Fits(t, ms, stale - {a.id})
  {
    forall i | 0 <= i < |t.actors| ensures ActorFits(t, t.actors[i], ms, stale - {a.id}) {
      assert ActorFits(t, t.actors[i], ms, stale);
    }
  }

  lemma {:induction false} SameIdSameActor(t: Timetable, i: nat)
    requires ActorsOk(t) && i < |t.actors|
    ensures forall k :: 0 <= k < |t.actors| && t.actors[k].id == t.actors[i].id ==> k == i
  {
  }

  lemma {:induction false} ChangePushed(t: Timetable, i: nat, box: Outbox, stale: set<int>, ids: set<int>)
    requires ActorsOk(t) && i < |t.actors| && t.actors[i].invited && t.actors[i].id in ids
    requires QueueOk(box) && Fits(t, box.messages, stale) && ActorsWithin(t.actors, box.sequence)
    requires !HasPendingNotice(box.messages, t.actors[i].id)
    ensures var r := Push(box, t, ACTOR_SCHEDULE_CHANGED, Some(t.actors[i]));
            QueueOk(r) && Fits(t, r.messages, stale - {t.actors[i].id}) && SameFor(box.messages, r.messages, ids)
  {
    var a := t.actors[i];
    var m := NewMessage(box.sequence + 1, t, ACTOR_SCHEDULE_CHANGED, Some(a));
    forall j | 0 <= j < |box.messages| ensures !Clash(box.messages[j], m) {
      assert !PendingNotice(box.messages[j], a.id);
    }
    PushKeepsQueue(box, t, ACTOR_SCHEDULE_CHANGED, Some(a));
    FewerStale(t, box.messages, stale, a);
    SameIdSameActor(t, i);
    AppendFits(t, box.messages, m, stale - {a.id});
    AppendLeavesOthers(box.messages, m, ids);
  }

  lemma {:induction false} ChangeQueued(t: Timetable, i: nat, box: Outbox, stale: set<int>, ids: set<int>)
    requires ActorsOk(t) && i < |t.actors| && t.actors[i].invited && t.actors[i].id in ids
    requires QueueOk(box) && Fits(t, box.messages, stale) && ActorsWithin(t.actors, box.sequence)
    ensures var r := Queue(box, t, ACTOR_SCHEDULE_CHANGED, Some(t.actors[i]));
            && QueueOk(r) && Fits(t, r.messages, stale - {t.actors[i].id}) && box.sequence <= r.sequence
            && SameFor(box.messages, r.messages, ids)
  {
    if HasPendingNotice(box.messages, t.actors[i].id) {
      var ns := RewordAll(t, t.actors[i], box.messages);
      RewordedFits(t, i, box.messages, stale);
      RewordedOnlyInside(box.messages, ns, ids);
      HeadersKeepQueue(box, ns);
    } else {
      ChangePushed(t, i, box, stale, ids);
    }
  }

  // ---------- Announcing a board change ----------

  ghost function MovedIds(assignments: seq<Assignment>): set<int> {
    set j | 0 <= j < |assignments| :: assignments[j].actorId
  }

  /** An actor who was never invited has no messages, so nothing of his can be stale. */
  lemma {:induction false} UninvitedNotStale(t: Timetable, ms: seq<Message>, stale: set<int>, x: int)
    requires Fits(t, ms, stale)
    requires forall i :: 0 <= i < |t.actors| && t.actors[i].id == x ==> !t.actors[i].invited
    ensures Fits(t, ms, stale - {x})
  {
    forall i | 0 <= i < |t.actors| ensures ActorFits(t, t.actors[i], ms, stale - {x}) {
      assert ActorFits(t, t.actors[i], ms, stale);
    }
  }

  lemma {:induction false} ActorNotified(t: Timetable, i: nat, box: Outbox, stale: set<int>)
    requires ActorsOk(t) && i < |t.actors| && t.actors[i].invited
    requires QueueOk(box) && Fits(t, box.messages, stale) && ActorsWithin(t.actors, box.sequence)
    ensures var r := NotifyOne(t, t.actors[i].id, box);
            && QueueOk(r) && Fits(t, r.messages, stale - {t.actors[i].id}) && box.sequence <= r.sequence
            && SameFor(box.messages, r.messages, IdsOf(t.actors))
  {
    ActorOfIndex(t, i);
    IdsOfExact(t.actors, t.actors[i].id);
    assert HasId(t.actors, t.actors[i].id);
    ChangeQueued(t, i, box, stale, IdsOf(t.actors));
  }

  lemma {:induction false} OneNotified(t: Timetable, x: int, box: Outbox, stale: set<int>)
    requires ActorsOk(t) && QueueOk(box) && Fits(t, box.messages, stale) && ActorsWithin(t.actors, box.sequence)
    ensures var r := NotifyOne(t, x, box);
            && QueueOk(r) && Fits(t, r.messages, stale - {x}) && box.sequence <= r.sequence
            && SameFor(box.messages, r.messages, IdsOf(t.actors))
  {
    FindActorExact(t.actors, x);
    var found := FindActor(t.actors, x);
    if found.Some? && t.actors[found.value].invited {
      ActorNotified(t, found.value, box, stale);
    } else {
      if found.Some? {
        SameIdSameActor(t, found.value);
      }
      UninvitedNotStale(t, box.messages, stale, x);
    }
  }

  lemma {:induction false} MovedNotified(t: Timetable, moved: seq<Assignment>, box: Outbox, stale: set<int>)
    requires ActorsOk(t) && QueueOk(box) && Fits(t, box.messages, stale) && ActorsWithin(t.actors, box.sequence)
    ensures var r := NotifyMoved(t, moved, box);
            && QueueOk(r) && Fits(t, r.messages, stale - MovedIds(moved)) && box.sequence <= r.sequence
            && SameFor(box.messages, r.messages, IdsOf(t.actors))
  {
    if moved == [] {
      assert stale - MovedIds(moved) == stale;
    } else {
      var init, x := moved[..|moved| - 1], moved[|moved| - 1].actorId;
      MovedNotified(t, init, box, stale);
      var before := NotifyMoved(t, init, box);
      assert MovedIds(moved) == MovedIds(init) + {x};
      assert stale - MovedIds(moved) == stale - MovedIds(init) - {x};
      OneNotified(t, x, before, stale - MovedIds(init));
      SameForTrans(box.messages, before.messages, NotifyOne(t, x, before).messages, IdsOf(t.actors));
    }
  }

  /** The same timetable with more actors invited. */
  ghost predicate MoreInvited(t: Timetable, u: Timetable) {
    && |t.actors| == |u.actors| && u == t.(actors := u.actors)
    && forall i :: 0 <= i < |t.actors| ==>
         u.actors[i] == t.actors[i].(invited := u.actors[i].invited) && (t.actors[i].invited ==> u.actors[i].invited)
  }

  lemma {:induction false} InviteKeepsRest(t: Timetable, n: nat, box: Outbox, everyone: bool)
    requires n <= |t.actors|
    ensures var u := Invite(t, n, box, everyone).0; MoreInvited(t, u)
  {
    if n > 0 {
      InviteKeepsRest(t, n - 1, box, everyone);
    }
  }

  lemma {:induction false} NoMessagesToUninvited(t: Timetable, i: nat, ms: seq<Message>)
    requires i < |t.actors| && !t.actors[i].invited && Fits(t, ms, {})
    ensures forall j :: 0 <= j < |ms| ==> ms[j].actorId != Some(t.actors[i].id)
  {
    assert ActorFits(t, t.actors[i], ms, {});
  }

  /** The timetable with actor i invited, and the invitation for the queue. */
  ghost function WithInvited(t: Timetable, i: nat): Timetable
    requires i < |t.actors|
  {
    t.(actors := t.actors[i := t.actors[i].(invited := true)])
  }

  lemma {:induction false} InvitationPushed(t: Timetable, i: nat, box: Outbox, ids: set<int>)
    requires i < |t.actors| && !t.actors[i].invited && t.actors[i].id in ids
    requires QueueOk(box) && Fits(t, box.messages, {}) && ActorsWithin(t.actors, box.sequence)
    ensures var r := Push(box, WithInvited(t, i), ACTOR_INVITATION, Some(WithInvited(t, i).actors[i]));
            QueueOk(r) && SameFor(box.messages, r.messages, ids)
  {
    var u := WithInvited(t, i);
    var m := NewMessage(box.sequence + 1, u, ACTOR_INVITATION, Some(u.actors[i]));
    NoMessagesToUninvited(t, i, box.messages);
    PushKeepsQueue(box, u, ACTOR_INVITATION, Some(u.actors[i]));
    AppendLeavesOthers(box.messages, m, ids);
  }

  lemma {:induction false} InvitedFits(t: Timetable, i: nat, ms: seq<Message>, m: Message)
    requires ActorsOk(t) && i < |t.actors| && !t.actors[i].invited && Fits(t, ms, {})
    requires m.actorId == Some(t.actors[i].id) && m.timetableId == t.id && m.kind == ACTOR_INVITATION
    requires m.body == Body(t, ACTOR_INVITATION, Some(t.actors[i].(invited := true)))
    ensures Fits(WithInvited(t, i), ms + [m], {})
  {
    var u, ns := WithInvited(t, i), ms + [m];
    SameIdSameActor(t, i);
    assert ActorFits(t, t.actors[i], ms, {});
    forall k | 0 <= k < |u.actors| ensures ActorFits(u, u.actors[k], ns, {}) {
      assert ActorFits(t, t.actors[k], ms, {});
      if k == i {
        assert ns[|ms|] == m;
      } else if t.actors[k].invited {
        var j :| 0 <= j < |ms| && ms[j].kind == ACTOR_INVITATION && ms[j].actorId == Some(t.actors[k].id);
        assert ns[j] == ms[j];
      }
      forall j | 0 <= j < |ns| && ns[j].actorId == Some(u.actors[k].id) ensures Matches(u, u.actors[k], ns[j], false) {
        assert j < |ms| ==> Matches(t, t.actors[k], ms[j], false);
      }
    }
  }

  /** Inviting has reached actor n: those before are settled, those from n on are as they were. */
  ghost predicate InvitedBefore(t: Timetable, before: Outbox, u: Timetable, box: Outbox, n: nat, everyone: bool) {
    && n <= |t.actors| && MoreInvited(t, u) && ActorsOk(u) && ActorsWithin(u.actors, box.sequence)
    && QueueOk(box) && Fits(u, box.messages, {}) && before.sequence <= box.sequence
    && SameFor(before.messages, box.messages, IdsOf(t.actors))
    && (forall i :: 0 <= i < n ==> (u.actors[i].slot.Some? || everyone ==> u.actors[i].invited))
    && (forall i :: 0 <= i < n && u.actors[i].invited && !t.actors[i].invited ==> u.actors[i].slot.Some? || everyone)
    && (forall i :: n <= i < |t.actors| ==> u.actors[i] == t.actors[i])
  }

  lemma {:induction false} ActorsStayOk(t: Timetable, i: nat, sequence: int)
    requires ActorsOk(t) && i < |t.actors| && t.published && ActorsWithin(t.actors, sequence)
    ensures ActorsOk(WithInvited(t, i)) && ActorsWithin(WithInvited(t, i).actors, sequence + 1)
  {
  }

  lemma {:induction false} NextInvited(t: Timetable, before: Outbox, u: Timetable, box: Outbox, n: nat, everyone: bool)
    requires t.published && n < |t.actors| && InvitedBefore(t, before, u, box, n, everyone)
    requires everyone ==> !t.actors[n].invited
    ensures var (v, r) := InviteOne(u, n, box, everyone); InvitedBefore(t, before, v, r, n + 1, everyone)
  {
    var (v, r) := InviteOne(u, n, box, everyone);
    if ToInvite(u.actors[n], everyone) {
      assert v == WithInvited(u, n);
      InvitationTells(t, before, u, box, n);
    } else {
      assert (v, r) == (u, box);
    }
  }

  lemma {:induction false} InvitationTells(t: Timetable, before: Outbox, u: Timetable, box: Outbox, n: nat)
    requires n < |t.actors| && MoreInvited(t, u) && ActorsOk(u) && u.published && ActorsWithin(u.actors, box.sequence)
    requires QueueOk(box) && Fits(u, box.messages, {}) && u.actors[n] == t.actors[n] && !u.actors[n].invited
    requires SameFor(before.messages, box.messages, IdsOf(t.actors))
    ensures var v := WithInvited(u, n);
            var r := Push(box, v, ACTOR_INVITATION, Some(v.actors[n]));
            && ActorsOk(v) && ActorsWithin(v.actors, r.sequence) && QueueOk(r) && Fits(v, r.messages, {})
            && SameFor(before.messages, r.messages, IdsOf(t.actors))
  {
    var v := WithInvited(u, n);
    var r := Push(box, v, ACTOR_INVITATION, Some(v.actors[n]));
    IdsOfExact(t.actors, t.actors[n].id);
    InvitationPushed(u, n, box, IdsOf(t.actors));
    ActorsStayOk(u, n, box.sequence);
    InvitedFits(u, n, box.messages, r.messages[|box.messages|]);
    SameForTrans(before.messages, box.messages, r.messages, IdsOf(t.actors));
  }

  /** Inviting has gone well for every number of actors up to n. */
  ghost predicate InvitesInTurn(t: Timetable, n: nat, box: Outbox, everyone: bool)
    requires n <= |t.actors|
  {
    && InvitedBefore(t, box, Invite(t, n, box, everyone).0, Invite(t, n, box, everyone).1, n, everyone)
    && (n > 0 ==> InvitesInTurn(t, n - 1, box, everyone))
  }

  lemma {:induction false} NobodyInTurn(t: Timetable, box: Outbox, everyone: bool)
    requires ActorsOk(t) && QueueOk(box) && Fits(t, box.messages, {}) && ActorsWithin(t.actors, box.sequence)
    ensures InvitesInTurn(t, 0, box, everyone)
  {
    SameForItself(box.messages, IdsOf(t.actors));
  }

  lemma {:induction false} OneMoreInTurn(t: Timetable, n: nat, box: Outbox, everyone: bool)
    requires t.published && 0 < n <= |t.actors| && InvitesInTurn(t, n - 1, box, everyone)
    requires everyone ==> !t.actors[n - 1].invited
    ensures InvitesInTurn(t, n, box, everyone)
  {
    var (u, before) := Invite(t, n - 1, box, everyone);
    NextInvited(t, box, u, before, n - 1, everyone);
    assert InviteOne(u, n - 1, before, everyone) == Invite(t, n, box, everyone);
  }

  /** Inviting among the first n actors: each invited one is told, the queue stays in order. */
  lemma {:induction false} InvitedInTurn(t: Timetable, n: nat, box: Outbox, everyone: bool)
    requires ActorsOk(t) && n <= |t.actors| && t.published
    requires QueueOk(box) && Fits(t, box.messages, {}) && ActorsWithin(t.actors, box.sequence)
    requires everyone ==> forall i :: 0 <= i < |t.actors| ==> !t.actors[i].invited
    ensures InvitesInTurn(t, n, box, everyone)
  {
    if n == 0 {
      NobodyInTurn(t, box, everyone);
    } else {
      InvitedInTurn(t, n - 1, box, everyone);
      OneMoreInTurn(t, n, box, everyone);
    }
  }
}

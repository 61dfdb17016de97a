/** What single handlers leave behind, exactly: who is found, who is invited, who is told, who is gone. */
module TimetableEffects {
  import opened Wrappers
  import opened Timetable
  import opened TimetableInvariant
  import opened TimetableSteps
  import opened TimetableUpkeep
  import opened TimetableBoard

  // ---------- Who a key opens the door to ----------

  lemma {:induction false} FindManagedFirst(ts: seq<Timetable>, key: string)
    ensures match FindManaged(ts, key)
            case None => forall k :: 0 <= k < |ts| ==> ts[k].manageKey != key
            case Some(k) => k < |ts| && ts[k].manageKey == key && forall l :: 0 <= l < k ==> ts[l].manageKey != key
  {
    if ts != [] {
      FindManagedFirst(ts[..|ts| - 1], key);
    }
  }

  lemma {:induction false} FindKeyFirst(actors: seq<Actor>, key: string)
    ensures match FindKey(actors, key)
            case None => forall i :: 0 <= i < |actors| ==> actors[i].accessKey != key
            case Some(i) => i < |actors| && actors[i].accessKey == key && forall j :: 0 <= j < i ==>
              actors[j].accessKey != key
  {
    if actors != [] {
      FindKeyFirst(actors[..|actors| - 1], key);
    }
  }

  /** Actor i of timetable k is the first with this access key. */
  ghost predicate FirstHolder(ts: seq<Timetable>, key: string, k: nat, i: nat) {
    && k < |ts| && i < |ts[k].actors| && ts[k].actors[i].accessKey == key
    && (forall j :: 0 <= j < i ==> ts[k].actors[j].accessKey != key)
    && forall l, j :: 0 <= l < k && 0 <= j < |ts[l].actors| ==> ts[l].actors[j].accessKey != key
  }

  lemma {:induction false} FindKeyHolderFirst(ts: seq<Timetable>, key: string)
    ensures match FindKeyHolder(ts, key)
            case None => forall l, j :: 0 <= l < |ts| && 0 <= j < |ts[l].actors| ==> ts[l].actors[j].accessKey != key
            case Some((k, i)) => FirstHolder(ts, key, k, i)
  {
    if ts != [] {
      FindKeyHolderFirst(ts[..|ts| - 1], key);
      FindKeyFirst(ts[|ts| - 1].actors, key);
    }
  }

  /** An access key opens the page of its first holder, if that actor is invited to a published timetable. While the
      actor is not, the key opens nothing, not even for a later holder. */
  lemma {:induction false} AccessedIff(s: State, key: string, k: nat, i: nat)
    ensures Accessed(s, key) == Some((k, i)) <==>
            FirstHolder(s.timetables, key, k, i) && s.timetables[k].published && s.timetables[k].actors[i].invited
  {
    FindKeyHolderFirst(s.timetables, key);
  }

  // ---------- Publishing ----------

  function AllInvited(actors: seq<Actor>): (r: seq<Actor>)
    ensures |r| == |actors| && forall i :: 0 <= i < |r| ==> r[i] == actors[i].(invited := true)
  {
    seq(|actors|, i requires 0 <= i < |actors| => actors[i].(invited := true))
  }

  /** The invitations of the first n actors, in the order of the actors. */
  function Invitations(t: Timetable, n: nat, sequence: int): (r: seq<Message>)
    requires n <= |t.actors|
    ensures |r| == n
  {
    if n == 0 then []
    else
      Invitations(t, n - 1, sequence) +
      [NewMessage(sequence + n, t, ACTOR_INVITATION, Some(t.actors[n - 1].(invited := true)))]
  }

  lemma {:induction false} InvitationsAt(t: Timetable, n: nat, sequence: int, i: nat)
    requires i < n <= |t.actors|
    ensures Invitations(t, n, sequence)[i] ==
            NewMessage(sequence + 1 + i, t, ACTOR_INVITATION, Some(t.actors[i].(invited := true)))
    decreases n
  {
    if i < n - 1 {
      InvitationsAt(t, n - 1, sequence, i);
    }
  }

  /** The timetable with its first n actors invited. */
  function InvitedUpTo(t: Timetable, n: nat): (u: Timetable)
    requires n <= |t.actors|
    ensures |u.actors| == |t.actors| && u == t.(actors := u.actors)
    ensures forall i :: 0 <= i < |t.actors| ==>
            u.actors[i] == if i < n then t.actors[i].(invited := true) else t.actors[i]
  {
    t.(actors := AllInvited(t.actors[..n]) + t.actors[n..])
  }

  lemma {:induction false} OneMoreInvited(t: Timetable, n: nat, box: Outbox)
    requires n < |t.actors|
    ensures InviteOne(InvitedUpTo(t, n), n, box, true) ==
            (InvitedUpTo(t, n + 1), Push(box, t, ACTOR_INVITATION, Some(t.actors[n].(invited := true))))
  {
    var u := InvitedUpTo(t, n);
    assert u.actors[n := u.actors[n].(invited := true)] == InvitedUpTo(t, n + 1).actors;
  }

  /** The first n actors are invited, and their invitations queued. */
  function EveryoneInvited(t: Timetable, n: nat, box: Outbox): (Timetable, Outbox)
    requires n <= |t.actors|
  {
    (InvitedUpTo(t, n), Outbox(box.messages + Invitations(t, n, box.sequence), box.sequence + n))
  }

  ghost predicate InvitesEveryone(t: Timetable, n: nat, box: Outbox) {
    n <= |t.actors| && Invite(t, n, box, true) == EveryoneInvited(t, n, box)
  }

  lemma {:induction false} NobodyInvited(t: Timetable, box: Outbox)
    ensures InvitesEveryone(t, 0, box)
  {
    assert InvitedUpTo(t, 0).actors == t.actors;
    assert box.messages + [] == box.messages;
  }

  lemma {:induction false} OneMoreSent(t: Timetable, n: nat, box: Outbox)
    requires n < |t.actors|
    ensures Push(EveryoneInvited(t, n, box).1, t, ACTOR_INVITATION, Some(t.actors[n].(invited := true))) ==
            EveryoneInvited(t, n + 1, box).1
  {
    var m := NewMessage(box.sequence + n + 1, t, ACTOR_INVITATION, Some(t.actors[n].(invited := true)));
    assert box.messages + Invitations(t, n, box.sequence) + [m] == box.messages + Invitations(t, n + 1, box.sequence);
  }

  lemma {:induction false} OneMore(t: Timetable, n: nat, box: Outbox)
    requires n < |t.actors| && InvitesEveryone(t, n, box)
    ensures InvitesEveryone(t, n + 1, box)
  {
    var (u, before) := EveryoneInvited(t, n, box);
    OneMoreInvited(t, n, before);
    OneMoreSent(t, n, box);
    assert Invite(t, n + 1, box, true) == InviteOne(u, n, before, true);
  }

  lemma {:induction false} InviteEveryone(t: Timetable, n: nat, box: Outbox)
    requires n <= |t.actors|
    ensures InvitesEveryone(t, n, box)
  {
    if n == 0 {
      NobodyInvited(t, box);
    } else {
      InviteEveryone(t, n - 1, box);
      OneMore(t, n - 1, box);
    }
  }

  lemma {:induction false} SameInvitations(t: Timetable, u: Timetable, n: nat, sequence: int)
    requires n <= |t.actors| && u == t.(published := u.published)
    ensures Invitations(t, n, sequence) == Invitations(u, n, sequence)
  {
    if n > 0 {
      SameInvitations(t, u, n - 1, sequence);
    }
  }

  /** A timetable can be published iff it is a draft with actors, all of whom have a slot. Publishing invites every
      actor, changes nothing else of any of them, and sends one invitation each, in order (InvitationsAt); a refusal
      changes nothing. */
  lemma {:induction false} PublishExact(s: State, k: nat)
    requires k < |s.timetables|
    ensures var (t, (r, outcome)) := (s.timetables[k], PublishAt(s, k));
            && (outcome == Done <==>
                  !t.published && |t.actors| > 0 && forall i :: 0 <= i < |t.actors| ==> t.actors[i].slot.Some?)
            && (outcome == Done ==>
                  r == State(s.timetables[k := t.(published := true, actors := AllInvited(t.actors))],
                             s.messages + Invitations(t, |t.actors|, s.sequence), s.sequence + |t.actors|))
            && (outcome != Done ==> r == s)
  {
    var t := s.timetables[k];
    if PublishAt(s, k).1 == Done {
      var p := t.(published := true);
      InviteEveryone(p, |t.actors|, Box(s));
      assert InvitedUpTo(p, |t.actors|).actors == AllInvited(t.actors);
      SameInvitations(t, p, |t.actors|, s.sequence);
    }
  }

  // ---------- Registering and removing ----------

  lemma {:induction false} WithoutNewest(actors: seq<Actor>, a: Actor)
    requires forall i :: 0 <= i < |actors| ==> actors[i].id != a.id
    ensures WithoutActor(actors + [a], a.id) == actors
  {
    assert (actors + [a])[..|actors|] == actors;
    WithoutStranger(actors, a.id);
  }

  lemma {:induction false} WithoutStranger(actors: seq<Actor>, id: int)
    requires forall i :: 0 <= i < |actors| ==> actors[i].id != id
    ensures WithoutActor(actors, id) == actors
  {
    if actors != [] {
      WithoutStranger(actors[..|actors| - 1], id);
    }
  }

  lemma {:induction false} RequestsOfStranger(requests: seq<Request>, id: int)
    requires forall j :: 0 <= j < |requests| ==> requests[j].actorId != id
    ensures WithoutRequests(requests, id) == requests
  {
    if requests != [] {
      RequestsOfStranger(requests[..|requests| - 1], id);
    }
  }

  lemma {:induction false} MessagesToStranger(ms: seq<Message>, id: int)
    requires forall j :: 0 <= j < |ms| ==> ms[j].actorId != Some(id)
    ensures WithoutPending(ms, id) == ms
  {
    if ms != [] {
      MessagesToStranger(ms[..|ms| - 1], id);
    }
  }

  lemma {:induction false} StrangerEverywhere(s: State, k: nat, id: int)
    requires Inv(s) && k < |s.timetables| && id > s.sequence
    ensures var t := s.timetables[k];
            && (forall i :: 0 <= i < |t.actors| ==> t.actors[i].id != id)
            && (forall j :: 0 <= j < |t.requests| ==> t.requests[j].actorId != id)
            && (forall j :: 0 <= j < |s.messages| ==> s.messages[j].actorId != Some(id))
  {
    var t := s.timetables[k];
    assert IdsWithin(t, s.sequence) && TimetableOk(t);
    forall j | 0 <= j < |s.messages| ensures s.messages[j].actorId != Some(id) {
      assert MessageOk(Box(s).messages[j], s.sequence);
    }
  }

  lemma {:induction false} ManagedStays(ts: seq<Timetable>, us: seq<Timetable>, key: string)
    requires |ts| == |us| && forall k :: 0 <= k < |ts| ==> ts[k].manageKey == us[k].manageKey
    ensures FindManaged(ts, key) == FindManaged(us, key)
  {
    if ts != [] {
      ManagedStays(ts[..|ts| - 1], us[..|us| - 1], key);
    }
  }

  lemma {:induction false} RegisteringOne(s: State, key: string, contact: Contact)
    requires AddActors(s, key, [contact]).1 == Done
    ensures var k, a := Managed(s, key).value, NewActors([contact], s.sequence)[0];
            && a.id == s.sequence + 1
            && AddActors(s, key, [contact]).0 ==
               With(s, k, s.timetables[k].(actors := s.timetables[k].actors + [a]), Outbox(s.messages, s.sequence + 1))
  {
    assert NewActors([contact], s.sequence) == [NewActors([contact], s.sequence)[0]];
  }

  lemma {:induction false} RemovingNewest(s: State, key: string, k: nat, a: Actor)
    requires Managed(s, key) == Some(k)
    requires forall i :: 0 <= i < |s.timetables[k].actors| ==> s.timetables[k].actors[i].id != a.id
    requires forall j :: 0 <= j < |s.timetables[k].requests| ==> s.timetables[k].requests[j].actorId != a.id
    requires forall j :: 0 <= j < |s.messages| ==> s.messages[j].actorId != Some(a.id)
    ensures var t := s.timetables[k];
            DeleteActor(With(s, k, t.(actors := t.actors + [a]), Outbox(s.messages, s.sequence + 1)), key, a.id) ==
            (s.(sequence := s.sequence + 1), Done)
  {
    var t := s.timetables[k];
    var u := t.(actors := t.actors + [a]);
    WithoutNewest(t.actors, a);
    RequestsOfStranger(t.requests, a.id);
    MessagesToStranger(s.messages, a.id);
    ManagedStays(s.timetables, s.timetables[k := u], key);
    FindActorExact(u.actors, a.id);
    assert u.actors[|t.actors|].id == a.id;
    assert s.timetables[k := u][k := t] == s.timetables;
  }

  /** Removing an actor who has just been registered undoes the registration: only an id has been used up. */
  lemma {:induction false} RemovingUndoesRegistering(s: State, key: string, contact: Contact)
    requires Inv(s) && AddActors(s, key, [contact]).1 == Done
    ensures DeleteActor(AddActors(s, key, [contact]).0, key, s.sequence + 1) == (s.(sequence := s.sequence + 1), Done)
  {
    var k := Managed(s, key).value;
    RegisteringOne(s, key, contact);
    StrangerEverywhere(s, k, s.sequence + 1);
    RemovingNewest(s, key, k, NewActors([contact], s.sequence)[0]);
  }

  /** An actor can be removed iff registered. Exactly the actor, the actor's requests and the messages waiting for the
      actor are then gone; what was sent stays, and so does everything of everyone else. */
  lemma {:induction false} DeleteActorExact(s: State, key: string, actorId: int)
    requires Inv(s) && Managed(s, key).Some?
    ensures var (r, outcome) := DeleteActor(s, key, actorId);
            var k := Managed(s, key).value;
            && (outcome == Done <==> HasId(s.timetables[k].actors, actorId))
            && (outcome != Done ==> r == s)
            && (outcome == Done ==>
                  && Inv(r) && r == s.(timetables := s.timetables[k := r.timetables[k]], messages := r.messages)
                  && (forall a :: a in r.timetables[k].actors <==> a in s.timetables[k].actors && a.id != actorId)
                  && (forall q :: q in r.timetables[k].requests <==>
                       q in s.timetables[k].requests && q.actorId != actorId)
                  && (forall m :: m in r.messages <==> m in s.messages && !(m.pending && m.actorId == Some(actorId))))
  {
    var t := s.timetables[Managed(s, key).value];
    FindActorExact(t.actors, actorId);
    if DeleteActor(s, key, actorId).1 == Done {
      DeleteActorKeepsInv(s, key, actorId);
      WithoutActorExact(t.actors, actorId);
      WithoutRequestsExact(t.requests, actorId);
      WithoutPendingExact(s.messages, actorId);
    }
  }

  // ---------- Telling about a board change ----------

  /** A notice waits for the actor, worded as the timetable and the actor's slot are now. */
  ghost predicate ToldNow(ms: seq<Message>, t: Timetable, a: Actor) {
    exists j :: 0 <= j < |ms| && PendingNotice(ms[j], a.id) && ms[j].body == Body(t, ms[j].kind, Some(a))
  }

  lemma {:induction false} QueueKeepsTold(box: Outbox, t: Timetable, a: Actor, kind: Kind, b: Actor)
    requires ToldNow(box.messages, t, a) && (kind == ACTOR_SCHEDULE_CHANGED && b.id == a.id ==> b == a)
    ensures ToldNow(Queue(box, t, kind, Some(b)).messages, t, a)
  {
    var r := Queue(box, t, kind, Some(b)).messages;
    var j :| 0 <= j < |box.messages| && PendingNotice(box.messages[j], a.id)
             && box.messages[j].body == Body(t, box.messages[j].kind, Some(a));
    assert PendingNotice(r[j], a.id) && r[j].body == Body(t, r[j].kind, Some(a));
  }

  lemma {:induction false} ChangeIsWaiting(box: Outbox, t: Timetable, a: Actor)
    ensures ToldNow(Queue(box, t, ACTOR_SCHEDULE_CHANGED, Some(a)).messages, t, a)
  {
    var r := Queue(box, t, ACTOR_SCHEDULE_CHANGED, Some(a)).messages;
    if HasPendingNotice(box.messages, a.id) {
      var j :| 0 <= j < |box.messages| && PendingNotice(box.messages[j], a.id);
      assert r[j] == Reworded(t, a, box.messages[j]);
      assert PendingNotice(r[j], a.id) && r[j].body == Body(t, r[j].kind, Some(a));
    } else {
      var m := r[|box.messages|];
      assert PendingNotice(m, a.id) && m.body == Body(t, m.kind, Some(a));
    }
  }

  lemma {:induction false} MovedAreTold(t: Timetable, moved: seq<Assignment>, box: Outbox, i: nat)
    requires ActorsOk(t) && i < |t.actors| && t.actors[i].invited && MovedIn(moved, t.actors[i].id)
    ensures ToldNow(NotifyMoved(t, moved, box).messages, t, t.actors[i])
  {
    var init, last, x := moved[..|moved| - 1], moved[|moved| - 1].actorId, t.actors[i].id;
    var before := NotifyMoved(t, init, box);
    ActorOfIndex(t, i);
    if last == x {
      ChangeIsWaiting(before, t, t.actors[i]);
    } else {
      MovedInOneMore(moved, x);
      MovedAreTold(t, init, box, i);
      FindActorExact(t.actors, last);
      var a := ActorOf(t, Some(last));
      if a.Some? && a.value.invited {
        QueueKeepsTold(before, t, t.actors[i], ACTOR_SCHEDULE_CHANGED, a.value);
      }
    }
  }

  lemma {:induction false} LongerKeepsTold(before: seq<Message>, after: seq<Message>, t: Timetable, a: Actor)
    requires before <= after && ToldNow(before, t, a)
    ensures ToldNow(after, t, a)
  {
    var j :| 0 <= j < |before| && PendingNotice(before[j], a.id)
      && before[j].body == Body(t, before[j].kind, Some(a));
    assert after[j] == before[j];
  }

  lemma {:induction false} InviteOneAppends(t: Timetable, i: nat, box: Outbox, everyone: bool)
    requires i < |t.actors|
    ensures box.messages <= InviteOne(t, i, box, everyone).1.messages
  {
  }

  lemma {:induction false} InvitingKeepsTold(t: Timetable, n: nat, box: Outbox, everyone: bool, a: Actor)
    requires n <= |t.actors| && ToldNow(box.messages, t, a)
    ensures ToldNow(Invite(t, n, box, everyone).1.messages, t, a)
  {
    if n > 0 {
      InvitingKeepsTold(t, n - 1, box, everyone, a);
      var (u, before) := Invite(t, n - 1, box, everyone);
      InviteOneAppends(u, n - 1, before, everyone);
      LongerKeepsTold(before.messages, InviteOne(u, n - 1, before, everyone).1.messages, t, a);
    }
  }

  /** Queueing for one actor leaves the messages to everyone else alone. */
  lemma {:induction false} QueueTouchesOne(box: Outbox, t: Timetable, kind: Kind, a: Actor)
    requires IsNotice(kind)
    ensures SameFor(box.messages, Queue(box, t, kind, Some(a)).messages, {a.id})
  {
    if kind == ACTOR_SCHEDULE_CHANGED && HasPendingNotice(box.messages, a.id) {
      RewordedOnlyInside(box.messages, RewordAll(t, a, box.messages), {a.id});
    } else {
      AppendLeavesOthers(box.messages, NewMessage(box.sequence + 1, t, kind, Some(a)), {a.id});
    }
  }

  lemma {:induction false} SameForMore(ms: seq<Message>, ns: seq<Message>, ids: set<int>, more: set<int>)
    requires SameFor(ms, ns, ids) && ids <= more
    ensures SameFor(ms, ns, more)
  {
  }

  lemma {:induction false} NotifyingTouchesMoved(t: Timetable, moved: seq<Assignment>, box: Outbox)
    ensures SameFor(box.messages, NotifyMoved(t, moved, box).messages, MovedIds(moved))
  {
    if moved != [] {
      var init, x := moved[..|moved| - 1], moved[|moved| - 1].actorId;
      var before := NotifyMoved(t, init, box);
      NotifyingTouchesMoved(t, init, box);
      assert MovedIds(moved) == MovedIds(init) + {x};
      SameForMore(box.messages, before.messages, MovedIds(init), MovedIds(moved));
      FindActorExact(t.actors, x);
      var a := ActorOf(t, Some(x));
      if a.Some? && a.value.invited {
        QueueTouchesOne(before, t, ACTOR_SCHEDULE_CHANGED, a.value);
        var after := Queue(before, t, ACTOR_SCHEDULE_CHANGED, a);
        SameForMore(before.messages, after.messages, {x}, MovedIds(moved));
        SameForTrans(box.messages, before.messages, after.messages, MovedIds(moved));
      }
    }
  }

  ghost function UninvitedIds(actors: seq<Actor>): set<int> {
    set i | 0 <= i < |actors| && !actors[i].invited :: actors[i].id
  }

  lemma {:induction false} InvitingTouchesNew(t: Timetable, n: nat, box: Outbox)
    requires n <= |t.actors|
    ensures SameFor(box.messages, Invite(t, n, box, false).1.messages, UninvitedIds(t.actors))
    ensures forall i :: n <= i < |t.actors| ==> Invite(t, n, box, false).0.actors[i] == t.actors[i]
  {
    if n > 0 {
      InvitingTouchesNew(t, n - 1, box);
      var (u, before) := Invite(t, n - 1, box, false);
      if ToInvite(u.actors[n - 1], false) {
        var a := u.actors[n - 1].(invited := true);
        var v := u.(actors := u.actors[n - 1 := a]);
        var after := Queue(before, v, ACTOR_INVITATION, Some(a));
        QueueTouchesOne(before, v, ACTOR_INVITATION, a);
        assert a.id in UninvitedIds(t.actors);
        SameForMore(before.messages, after.messages, {a.id}, UninvitedIds(t.actors));
        SameForTrans(box.messages, before.messages, after.messages, UninvitedIds(t.actors));
      }
    }
  }

  /** What a published timetable announces: every moved actor who had been invited has a notice waiting that is worded
      for the new slot, the requests of moved actors are closed and no others, and no message to an invited actor who
      was not moved is touched. */
  lemma {:induction false} AnnounceExact(t: Timetable, moved: seq<Assignment>, box: Outbox)
    requires ActorsOk(t) && t.published
    ensures var (u, r) := Announce(t, moved, box);
            && (forall i :: 0 <= i < |t.actors| && t.actors[i].invited && MovedIn(moved, t.actors[i].id) ==>
                  ToldNow(r.messages, u, u.actors[i]))
            && |u.requests| == |t.requests|
            && (forall j :: 0 <= j < |t.requests| ==>
                  u.requests[j] == if MovedIn(moved, t.requests[j].actorId) then t.requests[j].(open := false)
                    else t.requests[j])
            && SameFor(box.messages, r.messages, MovedIds(moved) + UninvitedIds(t.actors))
            && (forall i :: 0 <= i < |t.actors| ==>
                  u.actors[i] == t.actors[i].(invited := t.actors[i].invited || t.actors[i].slot.Some?))
  {
    var told := NotifyMoved(t, moved, box);
    var (u, r) := Invite(t, |t.actors|, told, false);
    var ids := MovedIds(moved) + UninvitedIds(t.actors);
    forall i | 0 <= i < |t.actors| && t.actors[i].invited && MovedIn(moved, t.actors[i].id)
      ensures ToldNow(r.messages, t, t.actors[i])
    {
      MovedAreTold(t, moved, box, i);
      InvitingKeepsTold(t, |t.actors|, told, false, t.actors[i]);
    }
    NotifyingTouchesMoved(t, moved, box);
    InvitingTouchesNew(t, |t.actors|, told);
    SameForMore(box.messages, told.messages, MovedIds(moved), ids);
    SameForMore(told.messages, r.messages, UninvitedIds(t.actors), ids);
    SameForTrans(box.messages, told.messages, r.messages, ids);
    AnnounceKeepsBoard(t, moved, box);
    var v := Announce(t, moved, box).0;
    forall i | 0 <= i < |t.actors| && t.actors[i].invited && MovedIn(moved, t.actors[i].id)
      ensures ToldNow(r.messages, v, v.actors[i])
    {
      SameWording(r.messages, t, v, t.actors[i]);
    }
  }

  lemma {:induction false} SameWording(ms: seq<Message>, t: Timetable, u: Timetable, a: Actor)
    requires ToldNow(ms, t, a) && u == t.(actors := u.actors, requests := u.requests)
    ensures ToldNow(ms, u, a)
  {
    var j :| 0 <= j < |ms| && PendingNotice(ms[j], a.id) && ms[j].body == Body(t, ms[j].kind, Some(a));
    assert Body(u, ms[j].kind, Some(a)) == Body(t, ms[j].kind, Some(a));
  }

  // ---------- Asking for another time ----------

  lemma {:induction false} TimeRequestWaits(box: Outbox, t: Timetable)
    ensures HasPendingTimeRequest(Queue(box, t, ORGANIZER_TIME_REQUEST, None).messages, t.id)
  {
    var r := Queue(box, t, ORGANIZER_TIME_REQUEST, None).messages;
    if !HasPendingTimeRequest(box.messages, t.id) {
      assert PendingTimeRequest(r[|box.messages|], t.id);
    }
  }

  /** A question is taken iff it has 1 to 300 characters without the blanks around it. Then the asking actor's one open
      request says exactly that, whether it is new or was open before, and the organizer's notice waits. */
  lemma {:induction false} AskExact(s: State, k: nat, actorId: int, text: string)
    requires Inv(s) && k < |s.timetables| && actorId <= s.sequence
    ensures var (r, outcome) := AskAt(s, k, actorId, text);
            var t := s.timetables[k];
            && (outcome == Done <==> 1 <= |Trim(text)| <= MAX_REQUEST)
            && (outcome != Done ==> r == s)
            && (outcome == Done ==>
                  && Inv(r) && r.timetables == s.timetables[k := t.(requests := r.timetables[k].requests)]
                  && HasPendingTimeRequest(r.messages, t.id)
                  && var rs := r.timetables[k].requests;
                     |rs| == |t.requests| + (if FindOpen(t.requests, actorId).Some? then 0 else 1)
                     && exists j :: 0 <= j < |rs| && SaysOpenly(rs[j], actorId, Trim(text)))
  {
    var (r, outcome) := AskAt(s, k, actorId, text);
    if outcome == Done {
      var t := s.timetables[k];
      AskAtKeepsInv(s, k, actorId, text);
      var u := r.timetables[k];
      match FindOpen(t.requests, actorId) {
        case Some(j) =>
          TimeRequestWaits(Box(s), u);
          assert SaysOpenly(u.requests[j], actorId, Trim(text));
        case None =>
          TimeRequestWaits(Outbox(s.messages, s.sequence + 1), u);
          assert SaysOpenly(u.requests[|t.requests|], actorId, Trim(text));
      }
    }
  }

  predicate SaysOpenly(q: Request, actorId: int, message: string) {
    q.open && q.actorId == actorId && q.message == message
  }
}

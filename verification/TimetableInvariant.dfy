/** What every timetable and the message queue keep together. */
module TimetableInvariant {
  import opened Wrappers
  import opened TimetableSetting
  import opened Timetable

  ghost predicate HasId(actors: seq<Actor>, id: int) {
    exists i :: 0 <= i < |actors| && actors[i].id == id
  }

  // ---------- One timetable ----------

  ghost predicate IdsIncrease(actors: seq<Actor>) {
    forall i, j :: 0 <= i < j < |actors| ==> actors[i].id < actors[j].id
  }

  ghost predicate ActorsOk(t: Timetable) {
    && (forall i, j :: 0 <= i < j < |t.actors| ==> t.actors[i].id < t.actors[j].id)
    && (forall i :: 0 <= i < |t.actors| ==>
          && (t.actors[i].invited ==> t.published)
          && (t.actors[i].attendance != UNANSWERED ==> t.actors[i].invited))
  }

  /** Once published, whoever holds a slot has been invited. */
  ghost predicate Settled(t: Timetable) {
    t.published ==> forall i :: 0 <= i < |t.actors| && t.actors[i].slot.Some? ==> t.actors[i].invited
  }

  /** Nobody has two open requests. */
  ghost predicate OneOpenEach(requests: seq<Request>) {
    forall i, j :: 0 <= i < j < |requests| && requests[i].open && requests[j].open ==>
      requests[i].actorId != requests[j].actorId
  }

  /** Of the actors sharing a phone, all but the last have an empty name. */
  ghost predicate NamelessShare(actors: seq<Actor>) {
    forall i, j :: 0 <= i < j < |actors| && actors[i].phone == actors[j].phone ==> actors[i].name == ""
  }

  /** And phones are well formed. */
  ghost predicate PhonesGuarded(actors: seq<Actor>) {
    && (forall i :: 0 <= i < |actors| ==> IsPhone(actors[i].phone))
    && NamelessShare(actors)
  }

  ghost predicate TimetableOk(t: Timetable) {
    ValidSetting(t.setting) && ActorsOk(t) && BoardLegal(t) && Settled(t) && OneOpenEach(t.requests)
      && PhonesGuarded(t.actors)
  }

  // ---------- Messages about one timetable's actors ----------

  ghost predicate Matches(t: Timetable, a: Actor, m: Message, stale: bool) {
    && m.timetableId == t.id && a.invited
    && (m.pending && m.kind == ACTOR_INVITATION && !stale ==> m.body == Body(t, ACTOR_INVITATION, Some(a)))
  }

  ghost predicate Told(ms: seq<Message>, actorId: int) {
    exists j :: 0 <= j < |ms| && ms[j].kind == ACTOR_INVITATION && ms[j].actorId == Some(actorId)
  }

  /** Messages about an actor match him; invited actors have been told. Actors in `stale` may have a waiting
      invitation of an older wording. */
  ghost predicate ActorFits(t: Timetable, a: Actor, ms: seq<Message>, stale: set<int>) {
    && (a.invited ==> Told(ms, a.id))
    && forall j :: 0 <= j < |ms| && ms[j].actorId == Some(a.id) ==> Matches(t, a, ms[j], a.id in stale)
  }

  ghost predicate Fits(t: Timetable, ms: seq<Message>, stale: set<int>) {
    forall i :: 0 <= i < |t.actors| ==> ActorFits(t, t.actors[i], ms, stale)
  }

  // ---------- The queue ----------

  /** Two messages that must not both exist: two invitations of an actor, two waiting notices to an actor, or two
      waiting time requests of a timetable. */
  ghost predicate Clash(m: Message, n: Message) {
    || (m.kind == ACTOR_INVITATION && n.kind == ACTOR_INVITATION && m.actorId == n.actorId)
    || (m.pending && n.pending && IsNotice(m.kind) && IsNotice(n.kind) && m.actorId == n.actorId)
    || (m.pending && n.pending && m.kind == ORGANIZER_TIME_REQUEST && n.kind == ORGANIZER_TIME_REQUEST
        && m.timetableId == n.timetableId)
  }

  ghost predicate MessageOk(m: Message, sequence: int) {
    && m.id <= sequence && (m.actorId.Some? <==> IsNotice(m.kind))
    && (m.actorId.Some? ==> m.actorId.value <= sequence)
  }

  ghost predicate QueueOk(box: Outbox) {
    && (forall i, j :: 0 <= i < j < |box.messages| ==>
          box.messages[i].id < box.messages[j].id && !Clash(box.messages[i], box.messages[j]))
    && (forall j :: 0 <= j < |box.messages| ==> MessageOk(box.messages[j], box.sequence))
  }

  // ---------- Everything together ----------

  ghost predicate IsLive(ts: seq<Timetable>, actorId: int) {
    exists k :: 0 <= k < |ts| && HasId(ts[k].actors, actorId)
  }

  /** Nobody waits for a message to an actor who is gone. */
  ghost predicate NoOrphans(ts: seq<Timetable>, ms: seq<Message>) {
    forall j :: 0 <= j < |ms| && ms[j].pending && ms[j].actorId.Some? ==> IsLive(ts, ms[j].actorId.value)
  }

  ghost predicate ActorsApart(t: Timetable, u: Timetable) {
    forall x :: !(HasId(t.actors, x) && HasId(u.actors, x))
  }

  ghost predicate ActorsWithin(actors: seq<Actor>, sequence: int) {
    forall i :: 0 <= i < |actors| ==> actors[i].id <= sequence
  }

  ghost predicate AskedWithin(requests: seq<Request>, sequence: int) {
    forall j :: 0 <= j < |requests| ==> requests[j].actorId <= sequence
  }

  ghost predicate IdsWithin(t: Timetable, sequence: int) {
    t.id <= sequence && ActorsWithin(t.actors, sequence) && AskedWithin(t.requests, sequence)
  }

  ghost predicate IdsOk(ts: seq<Timetable>, sequence: int) {
    && (forall k, l :: 0 <= k < l < |ts| ==> ts[k].id < ts[l].id && ActorsApart(ts[k], ts[l]))
    && (forall k :: 0 <= k < |ts| ==> IdsWithin(ts[k], sequence))
  }

  ghost predicate Inv(s: State) {
    && IdsOk(s.timetables, s.sequence) && QueueOk(Box(s)) && NoOrphans(s.timetables, s.messages)
    && forall k :: 0 <= k < |s.timetables| ==> TimetableOk(s.timetables[k]) && Fits(s.timetables[k], s.messages, {})
  }

  // ---------- Changing one timetable ----------

  /** Messages to actors outside `ids` are the same in both lists. */
  ghost predicate SameFor(ms: seq<Message>, ns: seq<Message>, ids: set<int>) {
    forall m: Message :: m.actorId.Some? && m.actorId.value !in ids ==> (m in ms <==> m in ns)
  }

  lemma {:induction false} OthersStillFit(u: Timetable, ms: seq<Message>, ns: seq<Message>, ids: set<int>)
    requires Fits(u, ms, {}) && SameFor(ms, ns, ids)
    requires forall i :: 0 <= i < |u.actors| ==> u.actors[i].id !in ids
    ensures Fits(u, ns, {})
  {
    forall i | 0 <= i < |u.actors| ensures ActorFits(u, u.actors[i], ns, {}) {
      var a := u.actors[i];
      assert ActorFits(u, a, ms, {});
      if a.invited {
        var j :| 0 <= j < |ms| && ms[j].kind == ACTOR_INVITATION && ms[j].actorId == Some(a.id);
        assert ms[j] in ns;
        var l :| 0 <= l < |ns| && ns[l] == ms[j];
      }
      forall j | 0 <= j < |ns| && ns[j].actorId == Some(a.id) ensures Matches(u, a, ns[j], false) {
        assert ns[j] in ms;
        var l :| 0 <= l < |ms| && ms[l] == ns[j];
      }
    }
  }

  /** The effect of a handler on its timetable t and the queue: u and box. Ids in `ids` cover the actors of both. */
  ghost predicate LocalStep(t: Timetable, before: Outbox, u: Timetable, box: Outbox, ids: set<int>) {
    && u.id == t.id && before.sequence <= box.sequence
    && TimetableOk(u) && Fits(u, box.messages, {}) && QueueOk(box) && IdsWithin(u, box.sequence)
    && SameFor(before.messages, box.messages, ids)
    && (forall x :: x in ids ==> HasId(t.actors, x) || x > before.sequence)
    && (forall x :: HasId(u.actors, x) ==> x in ids)
    && (forall x, j ::
          0 <= j < |box.messages| && x in ids && box.messages[j].pending && box.messages[j].actorId == Some(x) ==>
            HasId(u.actors, x))
  }

  lemma {:induction false} IdsOutside(s: State, k: nat, l: nat, ids: set<int>)
    requires IdsOk(s.timetables, s.sequence) && k < |s.timetables| && l < |s.timetables| && k != l
    requires forall x :: x in ids ==> HasId(s.timetables[k].actors, x) || x > s.sequence
    ensures forall i :: 0 <= i < |s.timetables[l].actors| ==> s.timetables[l].actors[i].id !in ids
  {
    var t, u := s.timetables[k], s.timetables[l];
    assert ActorsApart(t, u) || ActorsApart(u, t);
    assert IdsWithin(u, s.sequence);
    forall i | 0 <= i < |u.actors| ensures u.actors[i].id !in ids {
      assert HasId(u.actors, u.actors[i].id);
    }
  }

  lemma {:induction false} LocalStepKeepsIds(s: State, k: nat, u: Timetable, box: Outbox, ids: set<int>)
    requires Inv(s) && k < |s.timetables| && LocalStep(s.timetables[k], Box(s), u, box, ids)
    ensures IdsOk(With(s, k, u, box).timetables, box.sequence)
  {
    var ts := With(s, k, u, box).timetables;
    forall l | 0 <= l < |ts| ensures IdsWithin(ts[l], box.sequence) {
      assert l != k ==> IdsWithin(s.timetables[l], s.sequence);
    }
    forall a, b | 0 <= a < b < |ts| ensures ts[a].id < ts[b].id && ActorsApart(ts[a], ts[b]) {
      assert s.timetables[a].id < s.timetables[b].id && ActorsApart(s.timetables[a], s.timetables[b]);
      if a == k {
        IdsOutside(s, k, b, ids);
      } else if b == k {
        IdsOutside(s, k, a, ids);
      }
    }
  }

  lemma {:induction false} LocalStepKeepsOrphans(s: State, k: nat, u: Timetable, box: Outbox, ids: set<int>)
    requires Inv(s) && k < |s.timetables| && LocalStep(s.timetables[k], Box(s), u, box, ids)
    requires forall x :: HasId(s.timetables[k].actors, x) ==> x in ids
    ensures NoOrphans(With(s, k, u, box).timetables, box.messages)
  {
    var ts := With(s, k, u, box).timetables;
    forall j | 0 <= j < |box.messages| && box.messages[j].pending && box.messages[j].actorId.Some?
      ensures IsLive(ts, box.messages[j].actorId.value)
    {
      var m := box.messages[j];
      var x := m.actorId.value;
      if x in ids {
        assert HasId(ts[k].actors, x);
      } else {
        assert m in s.messages;
        var l :| 0 <= l < |s.messages| && s.messages[l] == m;
        assert IsLive(s.timetables, x);
        var n :| 0 <= n < |s.timetables| && HasId(s.timetables[n].actors, x);
        assert n != k && ts[n] == s.timetables[n];
      }
    }
  }

  /** A change that is right for its own timetable and leaves messages to other actors alone is right altogether. */
  lemma {:induction false} LocalStepKeepsInv(s: State, k: nat, u: Timetable, box: Outbox, ids: set<int>)
    requires Inv(s) && k < |s.timetables| && LocalStep(s.timetables[k], Box(s), u, box, ids)
    requires forall x :: HasId(s.timetables[k].actors, x) ==> x in ids
    ensures Inv(With(s, k, u, box))
  {
    var t := With(s, k, u, box);
    LocalStepKeepsIds(s, k, u, box, ids);
    LocalStepKeepsOrphans(s, k, u, box, ids);
    forall l | 0 <= l < |t.timetables| ensures TimetableOk(t.timetables[l]) && Fits(t.timetables[l], t.messages, {}) {
      if l != k {
        IdsOutside(s, k, l, ids);
        OthersStillFit(s.timetables[l], s.messages, box.messages, ids);
      }
    }
  }

  // ---------- Queueing ----------

  ghost function IdsOf(actors: seq<Actor>): set<int> {
    set i | 0 <= i < |actors| :: actors[i].id
  }

  lemma {:induction false} PushKeepsQueue(box: Outbox, t: Timetable, kind: Kind, actor: Option<Actor>)
    requires QueueOk(box) && (actor.Some? <==> IsNotice(kind))
    requires actor.Some? ==> actor.value.id <= box.sequence
    requires forall j :: 0 <= j < |box.messages| ==>
             !Clash(box.messages[j], NewMessage(box.sequence + 1, t, kind, actor))
    ensures QueueOk(Push(box, t, kind, actor))
  {
    var r := Push(box, t, kind, actor);
    forall j | 0 <= j < |r.messages| ensures MessageOk(r.messages[j], r.sequence) {
      assert j < |box.messages| ==> MessageOk(box.messages[j], box.sequence);
    }
  }

  /** The same messages, some of them worded differently. */
  ghost predicate SameHeaders(ms: seq<Message>, ns: seq<Message>) {
    |ms| == |ns| && forall j :: 0 <= j < |ms| ==> ns[j].(body := ms[j].body) == ms[j]
  }

  lemma {:induction false} HeadersKeepQueue(box: Outbox, ns: seq<Message>)
    requires QueueOk(box) && SameHeaders(box.messages, ns)
    ensures QueueOk(box.(messages := ns))
  {
    forall j | 0 <= j < |ns| ensures MessageOk(ns[j], box.sequence) {
      assert MessageOk(box.messages[j], box.sequence);
    }
  }
}

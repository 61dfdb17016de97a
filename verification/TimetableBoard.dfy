/** Saving the board, exactly: when it succeeds, what it leaves, and that it can swap actors. */
module TimetableBoard {
  import opened Wrappers
  import opened TimetableSetting
  import opened Timetable
  import opened TimetableInvariant
  import opened TimetableSteps

  /** The slot of an actor after the first n assignments: the last one that names him decides. */
  function SlotAfter(own: Option<Slot>, assignments: seq<Assignment>, n: nat, id: int): Option<Slot>
    requires n <= |assignments|
  {
    if n == 0 then own
    else if assignments[n - 1].actorId == id then assignments[n - 1].next
    else SlotAfter(own, assignments, n - 1, id)
  }

  /** Every assignment names an actor and states the slot the earlier ones left him in. */
  ghost predicate Consistent(actors: seq<Actor>, assignments: seq<Assignment>) {
    forall n :: 0 <= n < |assignments| ==> Applies(actors, assignments, n)
  }

  ghost predicate Applies(actors: seq<Actor>, assignments: seq<Assignment>, n: nat)
    requires n < |assignments|
  {
    exists i :: 0 <= i < |actors| && actors[i].id == assignments[n].actorId
                && SlotAfter(actors[i].slot, assignments, n, actors[i].id) == assignments[n].previous
  }

  /** The actors as the batch as a whole leaves them. */
  function Moved(actors: seq<Actor>, assignments: seq<Assignment>): (r: seq<Actor>)
    ensures |r| == |actors|
    ensures forall i :: 0 <= i < |r| ==> r[i] == MovedActor(actors[i], assignments)
  {
    if actors == [] then []
    else Moved(actors[..|actors| - 1], assignments) + [MovedActor(actors[|actors| - 1], assignments)]
  }

  function MovedActor(a: Actor, assignments: seq<Assignment>): Actor {
    a.(slot := SlotAfter(a.slot, assignments, |assignments|, a.id),
       attendance := if MovedIn(assignments, a.id) then UNANSWERED else a.attendance)
  }

  lemma {:induction false} MovedInOneMore(assignments: seq<Assignment>, id: int)
    requires assignments != []
    ensures MovedIn(assignments, id) <==>
            MovedIn(assignments[..|assignments| - 1], id) || assignments[|assignments| - 1].actorId == id
  {
    var init := assignments[..|assignments| - 1];
    if MovedIn(init, id) {
      var j :| 0 <= j < |init| && init[j].actorId == id;
      assert assignments[j].actorId == id;
    }
  }

  lemma {:induction false} MovedOneMore(a: Actor, assignments: seq<Assignment>)
    requires assignments != []
    ensures var init, last := assignments[..|assignments| - 1], assignments[|assignments| - 1];
            MovedActor(a, assignments) ==
            if last.actorId == a.id then MovedActor(a, init).(slot := last.next, attendance := UNANSWERED)
              else MovedActor(a, init)
  {
    MovedInOneMore(assignments, a.id);
    if assignments[|assignments| - 1].actorId != a.id {
      SlotAfterFull(a.slot, assignments, |assignments| - 1, a.id);
    }
  }

  lemma {:induction false} SlotAfterFull(own: Option<Slot>, assignments: seq<Assignment>, n: nat, id: int)
    requires n <= |assignments|
    ensures SlotAfter(own, assignments[..n], n, id) == SlotAfter(own, assignments, n, id)
  {
    SlotAfterSame(own, assignments[..n], assignments, n, id);
  }

  lemma {:induction false} SlotAfterSame(own: Option<Slot>, a: seq<Assignment>, b: seq<Assignment>, n: nat, id: int)
    requires n <= |a| && n <= |b| && forall j :: 0 <= j < n ==> a[j] == b[j]
    ensures SlotAfter(own, a, n, id) == SlotAfter(own, b, n, id)
  {
    if n > 0 {
      SlotAfterSame(own, a, b, n - 1, id);
    }
  }

  lemma {:induction false} ConsistentOneMore(actors: seq<Actor>, assignments: seq<Assignment>)
    requires assignments != []
    ensures Consistent(actors, assignments) <==>
            Consistent(actors, assignments[..|assignments| - 1]) && Applies(actors, assignments, |assignments| - 1)
  {
    var init := assignments[..|assignments| - 1];
    forall n | 0 <= n < |init| ensures Applies(actors, assignments, n) <==> Applies(actors, init, n) {
      forall i | 0 <= i < |actors| ensures SlotAfter(actors[i].slot, assignments, n, actors[i].id) ==
        SlotAfter(actors[i].slot, init, n, actors[i].id) {
        SlotAfterSame(actors[i].slot, assignments, init, n, actors[i].id);
      }
    }
    assert Consistent(actors, assignments) ==> forall n :: 0 <= n < |init| ==> Applies(actors, assignments, n);
  }

  lemma {:induction false} FirstIsOnly(actors: seq<Actor>, i: nat)
    requires IdsIncrease(actors) && i < |actors|
    ensures FindActor(actors, actors[i].id) == Some(i)
  {
    FindActorExact(actors, actors[i].id);
  }

  /** One more assignment on top of a batch. */
  lemma {:induction false} LastMove(actors: seq<Actor>, assignments: seq<Assignment>)
    requires IdsIncrease(actors) && assignments != []
    ensures var init, last := assignments[..|assignments| - 1], assignments[|assignments| - 1];
            Move(Moved(actors, init), last).Assigned? <==> Applies(actors, assignments, |assignments| - 1)
    ensures var init, last := assignments[..|assignments| - 1], assignments[|assignments| - 1];
            Move(Moved(actors, init), last).Assigned? ==>
              Move(Moved(actors, init), last).actors == Moved(actors, assignments)
  {
    var init, last, n := assignments[..|assignments| - 1], assignments[|assignments| - 1], |assignments| - 1;
    var before := Moved(actors, init);
    FindActorExact(before, last.actorId);
    forall i | 0 <= i < |actors|
      ensures before[i].slot == SlotAfter(actors[i].slot, assignments, n, actors[i].id) && before[i].id == actors[i].id
    {
      SlotAfterFull(actors[i].slot, assignments, n, actors[i].id);
    }
    var found := FindActor(before, last.actorId);
    if found.Some? {
      assert IdsIncrease(before);
      forall i | 0 <= i < |actors| && actors[i].id == last.actorId ensures i == found.value {
        FirstIsOnly(before, i);
      }
      forall i | 0 <= i < |actors|
        ensures MovedActor(actors[i], assignments) ==
                if i == found.value then before[i].(slot := last.next, attendance := UNANSWERED) else before[i]
      {
        MovedOneMore(actors[i], assignments);
      }
    }
  }

  /** The moves go through iff the batch is consistent, and then leave what the batch as a whole says. */
  lemma {:induction false} MovesExact(actors: seq<Actor>, assignments: seq<Assignment>)
    requires IdsIncrease(actors)
    ensures MoveAll(actors, assignments).Assigned? <==> Consistent(actors, assignments)
    ensures MoveAll(actors, assignments).Assigned? ==> MoveAll(actors, assignments).actors == Moved(actors, assignments)
  {
    if assignments == [] {
      assert Moved(actors, []) == actors;
    } else {
      MovesExact(actors, assignments[..|assignments| - 1]);
      ConsistentOneMore(actors, assignments);
      LastMove(actors, assignments);
    }
  }

  /** A save succeeds iff the key is known, the setting is valid and widens the old one, the batch is consistent and
      the board it leads to is legal. Then exactly that board is kept; otherwise nothing at all has changed. */
  lemma {:induction false} SaveBoardExact(s: State, key: string, setting: Setting, assignments: seq<Assignment>)
    requires Inv(s)
    ensures var (r, outcome) := SaveBoard(s, key, setting, assignments);
            match Managed(s, key)
            case None => outcome == TimetableNotFound && r == s
            case Some(k) =>
              var t := s.timetables[k];
              var u := t.(setting := setting, actors := Moved(t.actors, assignments));
              && (outcome == Done <==>
                    ValidSetting(setting) && Extends(setting, t.setting) && Consistent(t.actors, assignments)
                      && BoardLegal(u))
              && (outcome != Done ==> r == s)
              && (outcome == Done ==>
                    && r == State(s.timetables[k := r.timetables[k]], r.messages, r.sequence)
                    && var v := r.timetables[k];
                       v == t.(setting := setting, actors := v.actors,
                               requests := if t.published then CloseMoved(t.requests, assignments) else t.requests)
                       && |v.actors| == |t.actors|
                       && forall i :: 0 <= i < |t.actors| ==>
                            v.actors[i] == t.actors[i].(
                              slot := SlotAfter(t.actors[i].slot, assignments, |assignments|, t.actors[i].id),
                              attendance := if MovedIn(assignments, t.actors[i].id) then UNANSWERED
                                            else t.actors[i].attendance,
                              invited := t.actors[i].invited || (t.published && v.actors[i].slot.Some?)))
  {
    var found := Managed(s, key);
    if found.Some? {
      var t := s.timetables[found.value];
      assert TimetableOk(t);
      MovesExact(t.actors, assignments);
      var u := t.(setting := setting, actors := Moved(t.actors, assignments));
      AnnounceKeepsBoard(u, assignments, Box(s));
    }
  }

  /** Announcing leaves slots and answers alone, and invites exactly those who hold a slot by then. */
  lemma {:induction false} AnnounceKeepsBoard(t: Timetable, moved: seq<Assignment>, box: Outbox)
    ensures var u := Announce(t, moved, box).0;
            && u == t.(actors := u.actors,
                       requests := if t.published then CloseMoved(t.requests, moved) else t.requests)
            && |u.actors| == |t.actors|
            && forall i :: 0 <= i < |t.actors| ==>
                 u.actors[i] == t.actors[i].(invited := t.actors[i].invited || (t.published && t.actors[i].slot.Some?))
  {
    if t.published {
      var told := NotifyMoved(t, moved, box);
      InviteKeepsRest(t, |t.actors|, told, false);
      InvitesPlaced(t, |t.actors|, told);
    }
  }

  lemma {:induction false} InvitesPlaced(t: Timetable, n: nat, box: Outbox)
    requires n <= |t.actors|
    ensures var u := Invite(t, n, box, false).0;
            && u.requests == t.requests
            && forall i :: 0 <= i < |t.actors| ==>
                 u.actors[i].invited == (t.actors[i].invited || (i < n && t.actors[i].slot.Some?))
  {
    if n > 0 {
      InvitesPlaced(t, n - 1, box);
      InviteKeepsRest(t, n - 1, box, false);
    }
  }

  // ---------- Swapping ----------

  lemma {:induction false} HoldersUpdate(actors: seq<Actor>, i: nat, a: Actor, slot: Slot)
    requires i < |actors|
    ensures Holders(actors[i := a], slot) ==
            Holders(actors, slot) - (if actors[i].slot == Some(slot) then 1 else 0) +
              (if a.slot == Some(slot) then 1 else 0)
  {
    var n := |actors| - 1;
    if i < n {
      assert actors[i := a][..n] == actors[..n][i := a];
      HoldersUpdate(actors[..n], i, a, slot);
    } else {
      assert actors[i := a][..n] == actors[..n];
    }
  }

  /** The batch in which two actors exchange their slots. */
  function Swap(a: Actor, b: Actor): seq<Assignment> {
    [Assignment(a.id, a.slot, b.slot), Assignment(b.id, b.slot, a.slot)]
  }

  lemma {:induction false} SwapMoves(actors: seq<Actor>, i: nat, j: nat)
    requires IdsIncrease(actors) && i < |actors| && j < |actors| && i != j
    ensures var a, b := actors[i], actors[j];
            Consistent(actors, Swap(a, b)) &&
            Moved(actors, Swap(a, b)) ==
            actors[i := a.(slot := b.slot, attendance := UNANSWERED)][j := b.(slot := a.slot, attendance := UNANSWERED)]
  {
    var a, b := actors[i], actors[j];
    var batch := Swap(a, b);
    assert a.id != b.id by {
      if i < j {
        assert actors[i].id < actors[j].id;
      } else {
        assert actors[j].id < actors[i].id;
      }
    }
    assert Applies(actors, batch, 0) && Applies(actors, batch, 1) by {
      assert SlotAfter(a.slot, batch, 0, a.id) == a.slot && SlotAfter(b.slot, batch, 1, b.id) == b.slot;
    }
    forall k | 0 <= k < |actors|
      ensures MovedActor(actors[k], batch) ==
              if k == i then a.(slot := b.slot, attendance := UNANSWERED)
              else if k == j then b.(slot := a.slot, attendance := UNANSWERED) else actors[k]
    {
      FirstIsOnly(actors, k);
      FirstIsOnly(actors, i);
      FirstIsOnly(actors, j);
      assert batch[0].actorId == a.id && batch[1].actorId == b.id;
      assert SlotAfter(actors[k].slot, batch, 2, actors[k].id) ==
             if actors[k].id == b.id then a.slot else SlotAfter(actors[k].slot, batch, 1, actors[k].id);
      assert SlotAfter(actors[k].slot, batch, 1, actors[k].id) ==
             if actors[k].id == a.id then b.slot else SlotAfter(actors[k].slot, batch, 0, actors[k].id);
      assert MovedIn(batch, actors[k].id) <==> actors[k].id == a.id || actors[k].id == b.id;
    }
  }

  /** Two placed actors can always exchange their slots in one save, even where capacity leaves no room to move
      either alone. */
  lemma {:induction false} SwapAccepted(s: State, key: string, i: nat, j: nat)
    requires Inv(s) && Managed(s, key).Some?
    requires var t := s.timetables[Managed(s, key).value];
             i < |t.actors| && j < |t.actors| && i != j && t.actors[i].slot.Some? && t.actors[j].slot.Some?
    ensures var t := s.timetables[Managed(s, key).value];
            SaveBoard(s, key, t.setting, Swap(t.actors[i], t.actors[j])).1 == Done
  {
    var t := s.timetables[Managed(s, key).value];
    var a, b := t.actors[i], t.actors[j];
    assert TimetableOk(t);
    SwapMoves(t.actors, i, j);
    var u := t.(actors := Moved(t.actors, Swap(a, b)));
    SwapLegal(t, i, j, u);
    assert u == t.(setting := t.setting, actors := Moved(t.actors, Swap(a, b)));
    SaveBoardExact(s, key, t.setting, Swap(a, b));
  }

  lemma {:induction false} SwapLegal(t: Timetable, i: nat, j: nat, u: Timetable)
    requires BoardLegal(t) && i < |t.actors| && j < |t.actors| && i != j && t.actors[i].slot.Some?
             && t.actors[j].slot.Some?
    requires var a, b := t.actors[i], t.actors[j];
             u == t.(actors := t.actors[i := a.(slot := b.slot, attendance := UNANSWERED)]
                                       [j := b.(slot := a.slot, attendance := UNANSWERED)])
    ensures BoardLegal(u)
  {
    var a, b := t.actors[i], t.actors[j];
    var first := t.actors[i := a.(slot := b.slot, attendance := UNANSWERED)];
    forall k | 0 <= k < |u.actors| ensures ActorPlaced(u, u.actors[k]) {
      assert ActorPlaced(t, t.actors[k]) && ActorPlaced(t, a) && ActorPlaced(t, b);
      if u.actors[k].slot.Some? {
        HoldersUpdate(t.actors, i, first[i], u.actors[k].slot.value);
        HoldersUpdate(first, j, b.(slot := a.slot, attendance := UNANSWERED), u.actors[k].slot.value);
      }
    }
  }
}

# Verified models of the in-memory backend and the operations scripts

The frontend of this repository carries complete in-memory implementations of its domain rules
(`frontend/src/mocks`), and its operations scripts contain two small algorithmic cores. This project models five of them
in Dafny and proves what they are relied on for, over every input and every run.

- **Audition timetables** (`Timetable*.dfy`): a timetable is drafted, filled with actors, published, and changed
  afterwards, while a queue of text messages follows every change. The board is saved as a batch of compare-and-swap
  assignments that is undone as a whole when one does not apply or the board it leads to is not legal. The invariant ties
  actors, slots, requests and every queued message together. It holds after every run of calls from any store in order,
  and also when the handlers are interleaved at the waits for their request bodies.
- **Community board** (`Community*.dfy`): posts, comments and replies with soft deletion, creation that a client can
  retry safely, edits that resume after a wait, anonymous numbers by first appearance in a thread, cursor pagination while
  the board changes, and an inbox of answers.
- **Shows and reservations** (`Shows*.dfy`): seats allocated by handlers that look their show and session up, wait for
  the request body, and then act on what they found. Proved twice: for handlers run in one go, and for handlers
  interleaved at their waits, where capacity and one-booking-per-phone survive but referential integrity need not; exactly
  which runs keep it is proved too.
- **Dashboard merger** (`Dashboard.dfy`): lays generated widgets out below hand-made ones and recognises its own output,
  so that rebuilding is a fixpoint.
- **Availability analysis** (`Availability.dfy`): the longest outage and the server segments of a probe log, against
  declarative specifications that determine the results.

Each component has a model on values, theorems about it, and, where the program changes state in place or loops, the
imperative form: a class or methods whose contracts equate the new state with the model's. Dates and times are integers.
Random keys, generated ids of shows, and the clock are parameters of the calls that use them. A message's text is
the tuple of the values it is composed from, so equal values mean equal text. `dafny verify dfyconfig.toml`
verifies the whole project. Automatic induction is switched off on every lemma, so that each inductive proof is
written out.

Some properties a reader might expect do not hold of the code. Each is stated with the exact condition under which it
does, and with a run that breaks it:

- Phones of a timetable need not be distinct: the duplicate check looks up the recorded *name* and takes an empty one for
  none. An accepted batch keeps phones distinct exactly when nobody without a name, registered before or earlier in the
  batch, has the phone of a later contact (`TimetableAnswers.DuplicateCheckSoundIff`,
  `TimetableWitnesses.PhoneRegisteredTwice`).
- A waiting change notice can go stale. Of all calls only an accepted profile edit that changes title or organizer while
  such a notice waits does that (`TimetableChanges.ChangesCurrentIff`, over runs
  `TimetableChanges.RunChangesCurrentIff` and, interleaved, `TimetableLateChanges.InterleavedChangesCurrentIff`;
  `TimetableWitnesses.ChangeGoesStale`).
- A reservation or a new session can be left without its session or show when that is deleted while the handler waits
  for its body (`ShowsWhole.CommitWholeIff`, over runs `ShowsRuns.RunWholeIff`; `ShowsWhole.DeletionDuringWait`,
  `ShowsRuns.SessionWithoutShow`). The ticket totals then fall short by exactly what is stranded
  (`ShowsReports.TicketsConservedIff`).
- A booking that waited can be taken after its show was closed, hidden or deleted, or its session deleted, when a new one
  would be refused (`ShowsRuns.LateBookingIff`, `ShowsRuns.LateBookingHappens`).
- An edit that waited can rewrite a post or comment that was deleted meanwhile (`CommunityThreads.LateEditIff`,
  `CommunityThreads.EditAfterRemoval`); it never makes it found again.
- A question that waited can be recorded for an actor who has been removed
  (`TimetableLateQuestions.RunRegisteredIff`; `TimetableLateWitnesses.QuestionOutlivesActor`).
- An answer that waited can be kept by nobody although it is reported as stored: exactly when a board save on its
  timetable was put back, or its actor removed, in between (`TimetableLateAnswers.LateAnswerExact`;
  `TimetableLateWitnesses.AnswerLost`).
- An answer that waited and is kept can count for another slot than it was given for: exactly when the board saves that
  went through in between leave the actor elsewhere (`TimetableLateAnswers.LateAnswerCountsIff`;
  `TimetableLateWitnesses.AnswerForOtherSlot`).

## Model

| member | source | states |
|---|---|---|
| TimetableRuns.After | frontend/src/mocks/timetable-handlers.ts:346-585 | from any store in order (empty, seeded, or left by an earlier run), after any run of calls, accepted or refused, the whole invariant holds: boards legal, who is invited, one invitation each, waiting texts current, open requests unique, ids fresh, nothing waiting for a removed actor |
| TimetableSeed.SeedInOrder | frontend/src/mocks/timetable-handlers.ts:273-346 | the store that the program builds and queues its first messages for, whatever keys are drawn and whatever the day, is in order: the invariant holds of it, its requests come from registered actors, and no waiting change notice is stale, so all run theorems apply |
| TimetableSeed.AllQueuedInOrder | frontend/src/mocks/timetable-handlers.ts:342-343 | queueing the four invitations and the organizer notice one after the other gives five messages with consecutive ids, none folded into another |
| TimetableRuns.RunKeepsRegistered | frontend/src/mocks/timetable-handlers.ts:483-553 | with handlers run in one go, every request comes from a registered actor at all times |
| TimetableRuns.RefusedChangesNothing | frontend/src/mocks/timetable-handlers.ts:348-585 | a call of any kind that is refused leaves the store exactly as it was |
| TimetableRuns.InvitationPerActor | frontend/src/mocks/timetable-handlers.ts:181-213 | an actor has exactly one invitation ever queued if invited and none otherwise; a waiting one carries the text that the current profile, template and slot give |
| TimetableRuns.OneWaitingNotice | frontend/src/mocks/timetable-handlers.ts:190-213 | at most one notice, invitation or change, waits for an actor, and never for one who was removed |
| TimetableRuns.BoardInOrder | frontend/src/mocks/timetable-handlers.ts:215-226 | assigned slots are offered, no slot is over capacity, invited implies published, and once published an actor has a slot iff invited |
| TimetableRuns.RunGrows | frontend/src/mocks/timetable-handlers.ts:411-418 | over every run from any store in order timetables are never lost or unpublished, slot length is constant, offered slots and capacity only grow |
| TimetableBoard.MovesExact | frontend/src/mocks/timetable-handlers.ts:421-436 | the sequential moves go through iff every assignment states the slot the earlier ones left its actor in; the result is then given actor by actor, without reference to the loop |
| TimetableBoard.SaveBoardExact | frontend/src/mocks/timetable-handlers.ts:401-451 | a save succeeds iff the setting is valid and widens the old one, the batch is consistent and the final board legal; it then leaves exactly that board, every actor given field by field, closes the requests of moved actors once published, and touches no other timetable; on any failure nothing at all has changed |
| TimetableBoard.SwapAccepted | frontend/src/mocks/timetable-handlers.ts:421-441 | two placed actors can always exchange slots in one save, also at capacity 1 |
| TimetableEffects.AnnounceExact | frontend/src/mocks/timetable-handlers.ts:442-449 | after a save on a published timetable every moved invited actor has a notice waiting that is worded for the new slot, exactly the moved actors' requests are closed, the newly placed are invited, and no message to anyone else is touched |
| TimetableHandlers.SaveBoardKeepsInv | frontend/src/mocks/timetable-handlers.ts:401-451 | saving the board keeps the invariant: stale invitations of moved actors are reworded before the handler ends |
| TimetableHandlers.PublishKeepsInv | frontend/src/mocks/timetable-handlers.ts:497-512 | publishing keeps the invariant |
| TimetableHandlers.AddActorsKeepsInv | frontend/src/mocks/timetable-handlers.ts:453-481 | registering actors keeps the invariant, including that of actors sharing a phone all but the last have no name |
| TimetableUpkeep.DeleteActorKeepsInv | frontend/src/mocks/timetable-handlers.ts:483-495 | removing an actor keeps the invariant; no request or waiting message of the actor is left behind |
| TimetableUpkeep.CreateKeepsInv | frontend/src/mocks/timetable-handlers.ts:349-370 | opening a timetable keeps the invariant |
| TimetableUpkeep.AskKeepsInv | frontend/src/mocks/timetable-handlers.ts:541-553 | asking for another time keeps the invariant: one open request per actor, one waiting organizer notice |
| TimetableUpkeep.AskAtKeepsInv | frontend/src/mocks/timetable-handlers.ts:546-552 | so does the second half of the handler, even when the asking actor has been removed during the wait |
| TimetableUpkeep.AttendKeepsInv | frontend/src/mocks/timetable-handlers.ts:530-539 | answering keeps the invariant |
| TimetableUpkeep.ResolveKeepsInv | frontend/src/mocks/timetable-handlers.ts:514-522 | resolving a request keeps the invariant |
| TimetableUpkeep.CompleteKeepsInv | frontend/src/mocks/timetable-handlers.ts:570-584 | marking messages as sent keeps the invariant |
| TimetableRuns.EditsKeepInv | frontend/src/mocks/timetable-handlers.ts:378-399 | editing profile or template keeps every waiting invitation equal to the text rendered now |
| TimetableEffects.FindManagedFirst | frontend/src/mocks/timetable-handlers.ts:257-261 | a management key opens the first timetable that has it, and none if none has |
| TimetableEffects.AccessedIff | frontend/src/mocks/timetable-handlers.ts:263-271 | an access key opens its first holder's page iff that actor is invited on a published timetable; otherwise no one's |
| TimetableEffects.PublishExact | frontend/src/mocks/timetable-handlers.ts:497-512 | publishing succeeds iff draft, non-empty and all placed; it then invites everyone, changes nothing else of the actors, and appends one invitation each with fresh ids |
| TimetableEffects.InvitationsAt | frontend/src/mocks/timetable-handlers.ts:507-510 | the i-th appended message is the i-th actor's invitation |
| TimetableEffects.DeleteActorExact | frontend/src/mocks/timetable-handlers.ts:483-495 | removal succeeds iff the actor is registered; exactly the actor, the actor's requests and waiting messages go, sent messages stay |
| TimetableEffects.RemovingUndoesRegistering | frontend/src/mocks/timetable-handlers.ts:453-495 | registering an actor and removing that actor again restores everything but the id counter |
| TimetableEffects.AskExact | frontend/src/mocks/timetable-handlers.ts:541-553 | a question is taken iff 1 to 300 characters after trimming; the asking actor's open request then says it, whether new or rewritten, and an organizer notice waits |
| TimetableAnswers.AnswerIsForCurrentSlot | frontend/src/mocks/timetable-handlers.ts:432-434 | any answer stored after a run was given by that actor while holding the slot still held, and both have stood ever since; or it stood with that slot before the run and throughout |
| TimetableAnswers.NamedPhonesDistinct | frontend/src/mocks/timetable-handlers.ts:462-468 | in every store a timetable whose actors all have names has no phone twice |
| TimetableAnswers.DuplicateCheckSoundIff | frontend/src/mocks/timetable-handlers.ts:462-468 | a batch that passes the duplicate check keeps phones distinct iff no nameless actor has the phone of a contact and no nameless contact that of a later one |
| TimetableWitnesses.PhoneRegisteredTwice | frontend/src/mocks/timetable-handlers.ts:453-481 | a run on the empty store that ends with two actors on one phone |
| TimetableWitnesses.PhoneTwiceInOneBatch | frontend/src/mocks/timetable-handlers.ts:462-468 | a single batch that passes the check with one phone twice |
| TimetableChanges.ChangesCurrentIff | frontend/src/mocks/timetable-handlers.ts:181-213 | from a state with all waiting change notices current, a call of any kind keeps all of them current iff it is no accepted profile edit that changes title or organizer while one waits |
| TimetableChanges.RunChangesCurrentIff | frontend/src/mocks/timetable-handlers.ts:348-585 | over a whole run the waiting change notices of all timetables are current at all times iff every call is of that kind |
| TimetableLateChanges.InterleavedChangesCurrentIff | frontend/src/mocks/timetable-handlers.ts:378-387 | over every interleaved run the same holds iff no accepted profile edit, resuming while a change notice waits, changes title or organizer from what they are by then |
| TimetableWitnesses.ChangeGoesStale | frontend/src/mocks/timetable-handlers.ts:378-387 | a run on the empty store that ends with a waiting change notice of an older wording |
| TimetableWaits.RunWorld | frontend/src/mocks/timetable-handlers.ts:348-585 | with any number of handlers arriving, waiting for their bodies and resuming in any order, the whole invariant holds at every moment |
| TimetableWaits.RunWorldGrows | frontend/src/mocks/timetable-handlers.ts:405-418 | over every interleaved run timetables are never lost or unpublished, slot length is constant, offered slots and capacity only grow |
| TimetableWaits.AtomicIsInterleaving | frontend/src/mocks/timetable-handlers.ts:348-585 | a handler run in one go is the interleaving in which its arrival is resumed at once |
| TimetableLateQuestions.RunRegisteredIff | frontend/src/mocks/timetable-handlers.ts:541-553 | over every interleaved run all requests come from registered actors iff no accepted question resumed after its actor was removed |
| TimetableLateWitnesses.QuestionOutlivesActor | frontend/src/mocks/timetable-handlers.ts:541-553 | a run from a store with one invited actor in which a question is recorded for a removed actor |
| TimetableLateAnswers.LateAnswerExact | frontend/src/mocks/timetable-handlers.ts:530-539 | an actor answers and anything happens before the body is there: the answer is reported stored whenever it is a possible one, and stored iff no board save on the timetable was put back and the actor was not removed in between; nothing else changes either way |
| TimetableLateAnswers.LateAnswerCountsIff | frontend/src/mocks/timetable-handlers.ts:530-539 | a late answer that is stored counts for the slot it was given for iff the last assignment naming the actor in the saves that went through in between, if there was one, puts the actor back there |
| TimetableLateAnswers.SaveOutcome | frontend/src/mocks/timetable-handlers.ts:405-441 | a save is put back iff its setting is in order and widens the old one but the batch does not apply or the board is not legal; it goes through iff all of that holds |
| TimetableLateAnswers.LateAnswerIsForCurrentSlot | frontend/src/mocks/timetable-handlers.ts:419-441 | over every interleaved run, an answer found at the end was stored while the actor held the slot still held and both have stood since, or both stood from the start |
| TimetableLateAnswers.UndoneBoardLosesAnswers | frontend/src/mocks/timetable-handlers.ts:419-441 | any board save that is put back costs the answers waiting on its timetable: they report success and change nothing |
| TimetableLateWitnesses.AnswerLost | frontend/src/mocks/timetable-handlers.ts:419-441 | a run from a store with one invited actor in which an answer is reported stored and lost |
| TimetableLateWitnesses.AnswerForOtherSlot | frontend/src/mocks/timetable-handlers.ts:530-539 | a run from that store in which an answer given for one slot counts for another |
| TimetableAnswers.CompletionAcceptedIff | frontend/src/mocks/timetable-handlers.ts:574-576 | comparing two counts accepts exactly the id lists all of whose ids exist, repetitions allowed |
| TimetableSetting.SlotsExact | frontend/src/features/timetables/time.ts:43-56 | a slot is offered iff it starts a whole number of slot lengths into some window and ends within it |
| TimetableSetting.NeighboursSuffice | frontend/src/mocks/timetable-handlers.ts:238-244 | in date and start order, comparing neighbours finds an overlap iff some pair of windows of a date overlaps |
| TimetableSetting.SettingProblem | frontend/src/mocks/timetable-handlers.ts:228-246 | reports no problem iff the setting is valid, and an overlap iff everything else is in order and some two windows overlap |
| TimetableStore.Counts | frontend/src/mocks/timetable-handlers.ts:125-131 | the table gives for every slot the number of actors holding it |
| TimetableStore.BoardProblem | frontend/src/mocks/timetable-handlers.ts:215-226 | the two passes find a problem iff some actor is off the grid, over capacity, or invited without a slot |
| TimetableStore.ContactProblem | frontend/src/mocks/timetable-handlers.ts:462-468 | the loop over a growing table of phones reports the first contact's problem |
| TimetableStore.Store.constructor | frontend/src/mocks/timetable-handlers.ts:65-69 | an empty store is valid |
| TimetableStore.Store.RefreshPendingInvitations | frontend/src/mocks/timetable-handlers.ts:181-188 | in place, exactly the timetable's waiting invitations get their current text |
| TimetableStore.Store.Queue | frontend/src/mocks/timetable-handlers.ts:190-213 | in place, a change notice is folded into waiting notices, a time request into a waiting one, anything else appended with a fresh id |
| TimetableStore.Store.MoveActors | frontend/src/mocks/timetable-handlers.ts:419-436 | assigning step by step with snapshot and rollback: on the first failure the store is as it was |
| TimetableStore.Store.SaveBoard | frontend/src/mocks/timetable-handlers.ts:401-451 | the imperative save refines the model and keeps the invariant |
| TimetableStore.Store.Publish | frontend/src/mocks/timetable-handlers.ts:497-512 | the imperative publication refines the model and keeps the invariant |
| TimetableStore.Store.DropPending | frontend/src/mocks/timetable-handlers.ts:491-493 | the backward splice loop removes exactly the actor's waiting messages |
| TimetableStore.Store.DeleteActor | frontend/src/mocks/timetable-handlers.ts:483-495 | the imperative removal refines the model and keeps the invariant |
| TimetableStore.Store.AddActorsAt | frontend/src/mocks/timetable-handlers.ts:457-480 | the second half of the registration, on the timetable held since before the wait, refines the model and keeps the invariant |
| TimetableStore.Store.AddActors | frontend/src/mocks/timetable-handlers.ts:453-481 | the imperative registration refines the model and keeps the invariant |
| TimetableStore.Store.Create | frontend/src/mocks/timetable-handlers.ts:349-370 | the imperative creation refines the model and keeps the invariant |
| TimetableStore.Store.EditProfileAt | frontend/src/mocks/timetable-handlers.ts:382-386 | the second half of the profile edit, on the timetable held since before the wait, refines the model and keeps the invariant |
| TimetableStore.Store.EditProfile | frontend/src/mocks/timetable-handlers.ts:378-387 | the imperative profile edit refines the model and keeps the invariant |
| TimetableStore.Store.EditTemplateAt | frontend/src/mocks/timetable-handlers.ts:393-398 | the second half of the template edit, on the timetable held since before the wait, refines the model and keeps the invariant |
| TimetableStore.Store.EditTemplate | frontend/src/mocks/timetable-handlers.ts:389-399 | the imperative template edit refines the model and keeps the invariant |
| TimetableStore.Store.Resolve | frontend/src/mocks/timetable-handlers.ts:514-522 | the imperative resolution refines the model and keeps the invariant |
| TimetableStore.Store.Attend | frontend/src/mocks/timetable-handlers.ts:530-539 | the imperative answer refines the model and keeps the invariant |
| TimetableStore.Store.AskAt | frontend/src/mocks/timetable-handlers.ts:546-552 | the second half of the question, for the actor held since before the wait, refines the model |
| TimetableStore.Store.Ask | frontend/src/mocks/timetable-handlers.ts:541-553 | the imperative question refines the model and keeps the invariant |
| TimetableStore.Store.Complete | frontend/src/mocks/timetable-handlers.ts:570-584 | the imperative completion refines the model and keeps the invariant |
| CommunityThreads.Run | frontend/src/mocks/community-handlers.ts:132-192 | every run, with edits that resume at any later time, keeps: parents are earlier posts, replies go to earlier top-level comments of the same post, request ids are distinct, every post's comment count (deleted posts included) equals its live comments, numbers and notices are exact; identities never change and deletion is final |
| CommunityThreads.LateEditIff | frontend/src/mocks/community-handlers.ts:322-334 | an edit that waited is accepted where a new one would find nothing iff it comes from the owner with content that passes and the entry or its post was deleted in between |
| CommunityThreads.EditAfterRemoval | frontend/src/mocks/community-handlers.ts:322-334 | a removal during the wait, after which the edit still rewrites the entry |
| CommunityThreads.SameNumberIffSameAuthor | frontend/src/mocks/community-handlers.ts:96-106 | within a thread two entries carry the same number iff the same owner wrote them in the same mode; an entry is marked as the post author's iff its number is 1 |
| CommunityThreads.NewcomerGetsNextNumber | frontend/src/mocks/community-handlers.ts:96-106 | a newcomer to a thread gets one more than the number of participants before |
| CommunityThreads.NumbersFormRange | frontend/src/mocks/community-handlers.ts:96-106 | the numbers used in a thread are exactly 1 to the number of its participants, deleted entries included |
| CommunityThreads.UsedRequestChangesNothing | frontend/src/mocks/community-handlers.ts:139-141 | a creation with a used request id never changes the store, whoever sends it and with whatever content |
| CommunityThreads.RetryReturnsFirstAnswer | frontend/src/mocks/community-handlers.ts:184-187 | repeating a successful creation returns the same entry and changes nothing |
| CommunityThreads.CreatedAtMostOnce | frontend/src/mocks/community-handlers.ts:132-146 | whatever happens after a successful creation, a later one with its request id leaves the store as it is |
| CommunityEffects.FirstUseExact | frontend/src/mocks/community-handlers.ts:132-146 | a first use of a request id creates an entry iff parent, mode, profile, content and reply target pass; the entry is as asked and can be found, and nothing else appears or disappears |
| CommunityEffects.EditHeldExact | frontend/src/mocks/community-handlers.ts:148-152 | once its body is there an edit goes through iff it comes from the entry's owner with content that passes; it changes that content alone, deleted or not, and makes no entry found or lost |
| CommunityEffects.EditExact | frontend/src/mocks/community-handlers.ts:322-334 | an edit that need not wait goes through iff addressed by its owner with content that passes, and changes that content alone |
| CommunityEffects.RemoveExact | frontend/src/mocks/community-handlers.ts:154-158 | a removal goes through iff addressed by its owner; afterwards everything can be found but the entry and, for a post, its comments |
| CommunityInvariant.DeletionKeepsCounts | frontend/src/mocks/community-handlers.ts:154-158 | marking a live comment deleted and lowering its post's count keeps all counts exact |
| CommunityInvariant.InsertedKeepsInv | frontend/src/mocks/community-handlers.ts:171-182 | inserting an entry keeps structure, numbers, counts and notices |
| CommunityPages.PageExact | frontend/src/mocks/community-handlers.ts:119-130 | a page holds eligible entries beyond the cursor in strict order, its next cursor is its last id, and every eligible entry is on it or beyond that |
| CommunityPages.WalkDeliversStanding | frontend/src/mocks/community-handlers.ts:119-130 | following cursors to the end while the board changes arbitrarily: ids are strictly monotone, so none comes twice, and every entry eligible throughout is delivered |
| CommunityPages.QuietWalkDeliversList | frontend/src/mocks/community-handlers.ts:119-130 | without interference the pages concatenate to the whole sorted list of eligible entries |
| CommunityPages.WalkFrom | frontend/src/mocks/community-handlers.ts:119-130 | on an unchanging board the walk ends: each page leaves strictly fewer eligible entries |
| CommunityPages.WalkIsBounded | frontend/src/mocks/community-handlers.ts:119-130 | whatever happens between the requests, a walk over posts takes at most one page more than a fifth of the entries there were at its start; a walk over comments uses up twenty ids a page |
| CommunityPages.ListedExact | frontend/src/mocks/community-handlers.ts:226-235 | filter and sort give exactly the eligible entries in strict order |
| CommunityPages.InboxNewest | frontend/src/mocks/community-handlers.ts:29-38 | the inbox is the newest twenty live answers to what the member wrote, newest first |
| CommunityBoard.Board.constructor | frontend/src/mocks/community-handlers.ts:23-27 | an empty board is valid |
| CommunityBoard.Board.Number | frontend/src/mocks/community-handlers.ts:96-106 | the loop over all entries finds the author's place in the order of first appearance |
| CommunityBoard.Board.Insert | frontend/src/mocks/community-handlers.ts:171-182 | the in-place insertion refines the model |
| CommunityBoard.Board.Create | frontend/src/mocks/community-handlers.ts:132-146 | the in-place creation refines the model and keeps the invariant |
| CommunityBoard.Board.EditHeld | frontend/src/mocks/community-handlers.ts:148-152 | the in-place second half of an edit refines the model and keeps the invariant |
| CommunityBoard.Board.Edit | frontend/src/mocks/community-handlers.ts:322-334 | look-up and in-place edit together refine the model and keep the invariant |
| CommunityBoard.Board.Remove | frontend/src/mocks/community-handlers.ts:154-158 | the in-place removal refines the model and keeps the invariant |
| ShowsSafety.RunWorld | frontend/src/mocks/show-handlers.ts:860-910 | with any number of handlers arriving, waiting and resuming in any order, no session ever holds more confirmed tickets than its capacity and no phone has two confirmed reservations for a session |
| ShowsSafety.CommitKeepsSafe | frontend/src/mocks/show-handlers.ts:765-786 | a handler that resumes on what it looked up earlier keeps capacity and uniqueness, because check and change share one section |
| ShowsSafety.CanceledIsFinal | frontend/src/mocks/show-handlers.ts:934-944 | over every interleaved run a canceled reservation stays canceled with its ticket count frozen |
| ShowsWhole.RunActions | frontend/src/mocks/show-handlers.ts:694-802 | with handlers run in one go every reservation's session and every session's show exist, and a show with a reservation is neither a draft nor deleted |
| ShowsWhole.CommitWholeIff | frontend/src/mocks/show-handlers.ts:860-902 | a resumed handler keeps the store whole iff its own checks refuse it, or the session it books or show it adds to is still listed |
| ShowsRuns.RunWholeIff | frontend/src/mocks/show-handlers.ts:860-910 | an interleaved run from a whole store ends whole iff no accepted booking or new session resumed after its session or show had left the lists |
| ShowsRuns.SparingRunStaysWhole | frontend/src/mocks/show-handlers.ts:694-802 | it does when no deletion that goes through hits a session or show held by a waiting booking or addition |
| ShowsRuns.SessionWithoutShow | frontend/src/mocks/show-handlers.ts:694-707 | a run in which a show is deleted while the addition of a session to it waits: the session is listed and has no show |
| ShowsRuns.LateBookingIff | frontend/src/mocks/show-handlers.ts:860-888 | a booking that waited is taken where a new one would be turned away iff the booking itself is in order and the show or session was deleted, or the show hidden or closed, during the wait |
| ShowsRuns.LateBookingHappens | frontend/src/mocks/show-handlers.ts:724-734 | a run in which a show is closed while a booking waits and the booking is still taken |
| ShowsWhole.AtomicIsInterleaving | frontend/src/mocks/show-handlers.ts:860-910 | running in one go is the interleaving in which each arrival is resumed at once |
| ShowsWhole.DeletionDuringWait | frontend/src/mocks/show-handlers.ts:788-802 | deleting an empty session while a booking for it waits leaves a reservation without its session |
| ShowsWhole.DeletionDuringWaitHappens | frontend/src/mocks/show-handlers.ts:860-870 | a concrete store and request in which that happens |
| ShowsEffects.ResizeExact | frontend/src/mocks/show-handlers.ts:946-966 | a ticket count can be set iff the reservation stands, the count is 1 to 10, and with everyone else's tickets it fits a session still there; the session then holds exactly the others' tickets and these |
| ShowsEffects.CancelGivesBack | frontend/src/mocks/show-handlers.ts:934-944 | canceling frees exactly the reservation's seats, and the same phone can book as many again |
| ShowsEffects.DeleteShowExact | frontend/src/mocks/show-handlers.ts:694-707 | a show can be deleted iff no reservation was ever made for its sessions; exactly the show and its sessions leave the lists |
| ShowsEffects.ClosingDuringWait | frontend/src/mocks/show-handlers.ts:724-734 | closing a show turns new bookings away and leaves the outcome of one that waits for its body as it was |
| ShowsReports.TicketsConserved | frontend/src/mocks/show-handlers.ts:525-550 | in a whole store the reserved tickets reported show by show add up to all confirmed tickets |
| ShowsReports.TicketsConservedIff | frontend/src/mocks/show-handlers.ts:525-550 | after any interleaved run the reported tickets fall short of all confirmed ones by exactly those of reservations whose session or show has left the lists, and add up iff there is no such confirmed reservation |
| ShowsReports.ViewExact | frontend/src/mocks/show-handlers.ts:350-369 | a well-formed booking from a new phone is accepted at that instant iff the published view says bookable and the count is within the shown maximum; it then takes those seats |
| ShowsStore.Store.constructor | frontend/src/mocks/show-handlers.ts:248-250 | an empty store is valid |
| ShowsStore.Store.ReservedTickets | frontend/src/mocks/show-handlers.ts:305-307 | the loop sums a session's confirmed tickets |
| ShowsStore.Store.Reserve | frontend/src/mocks/show-handlers.ts:870-902 | the in-place booking refines the model and keeps capacity and uniqueness |
| ShowsStore.Store.Resize | frontend/src/mocks/show-handlers.ts:951-964 | the in-place change of a ticket count refines the model and keeps capacity and uniqueness |
| ShowsStore.Store.EditSession | frontend/src/mocks/show-handlers.ts:774-785 | the in-place session edit refines the model and keeps capacity and uniqueness |
| ShowsStore.Store.Cancel | frontend/src/mocks/show-handlers.ts:934-944 | the in-place cancellation refines the model and keeps capacity and uniqueness |
| ShowsStore.Store.DeleteShow | frontend/src/mocks/show-handlers.ts:694-707 | the loop of splices refines the model |
| ShowsStore.Store.AddShow | frontend/src/mocks/show-handlers.ts:645-670 | the in-place addition of a show refines the model |
| ShowsStore.Store.OpenShow | frontend/src/mocks/show-handlers.ts:709-722 | the in-place opening refines the model |
| ShowsStore.Store.CloseShow | frontend/src/mocks/show-handlers.ts:724-734 | the in-place closing refines the model |
| ShowsStore.Store.SetVisibility | frontend/src/mocks/show-handlers.ts:736-748 | the in-place hiding and showing refines the model |
| ShowsStore.Store.AddSession | frontend/src/mocks/show-handlers.ts:750-763 | the in-place addition of a session refines the model and keeps capacity and uniqueness |
| ShowsStore.Store.DeleteSession | frontend/src/mocks/show-handlers.ts:788-802 | the splice of a session without reservations refines the model |
| ShowsSeed.SeedInOrder | frontend/src/mocks/show-handlers.ts:104-288 | the store the program starts with, whatever its times, is whole, so every run theorem holds from it on, and each session holds exactly the tickets it was seeded with |
| ShowsSeed.FilledExact | frontend/src/mocks/show-handlers.ts:257-277 | filling a session adds exactly the asked tickets to it and none to any other, and keeps the store safe if there was room |
| ShowsStore.Store.SeedReservations | frontend/src/mocks/show-handlers.ts:257-277 | the loop refines the filling of one session in bookings of at most ten tickets; the store stays valid if there was room |
| Dashboard.LayoutSound | ops/monitor/cloudwatch/update_dashboards.py:12-19 | every added widget fits within 24 columns and shares no cell with a kept widget or another added one, side-by-side halves included |
| Dashboard.RebuildIsFixpoint | ops/monitor/cloudwatch/update_dashboards.py:38-69 | merging the merger's own output again changes nothing |
| Dashboard.UnownedSurvive | ops/monitor/cloudwatch/update_dashboards.py:27-35 | unowned widgets survive unmodified, in order and at the front, and everything after them is recognised as owned |
| Dashboard.OutputSnapshots | ops/monitor/cloudwatch/update_dashboards.py:64-68 | the snapshots read back from the output are those of the original, in order |
| Dashboard.SnapshotTextsOnce | ops/monitor/cloudwatch/update_dashboards.py:64-68 | the output carries exactly the original's snapshot texts, each once |
| Dashboard.Bottom | ops/monitor/cloudwatch/update_dashboards.py:13 | the lowest row boundary in use: an upper bound that some widget reaches, 0 on an empty dashboard |
| Dashboard.Body.Base | ops/monitor/cloudwatch/update_dashboards.py:27-35 | the copy holds exactly the widgets the merger does not own |
| Dashboard.Body.AddWidget | ops/monitor/cloudwatch/update_dashboards.py:12-19 | the in-place placement appends one widget: beside an open left half, otherwise below everything |
| Dashboard.AddGraphs | ops/monitor/cloudwatch/update_dashboards.py:59-63 | the loop adds the category's visible queries in order |
| Dashboard.AddSnapshots | ops/monitor/cloudwatch/update_dashboards.py:64-68 | the loop with its set of seen texts adds one item per distinct snapshot text |
| Dashboard.UnifiedDashboard | ops/monitor/cloudwatch/update_dashboards.py:38-69 | the nested loops build the dashboard the theorems are about |
| Availability.LongestOutage | ops/loadtest/deploy-availability.py:108-120 | the single pass returns the first longest maximal run of failures, measured to the next success or the last row |
| Availability.LongestBoundsEveryBlock | ops/loadtest/deploy-availability.py:108-120 | no run of consecutive failures, maximal or not, spans more than the reported duration |
| Availability.LongestOutageUnique | ops/loadtest/deploy-availability.py:108-120 | the specification determines both results |
| Availability.WindowSegments | ops/loadtest/deploy-availability.py:125-133 | the first pass cuts windows greedily and lists the servers that answered in each |
| Availability.MergeSegments | ops/loadtest/deploy-availability.py:134-140 | the second pass joins neighbours with equal servers in place and leaves no two neighbours equal |
| Availability.ServerSegments | ops/loadtest/deploy-availability.py:123-140 | both passes together give a segmentation: greedy windows, neighbours with equal servers joined, none left equal |
| Availability.SegmentsFormChain | ops/loadtest/deploy-availability.py:134-140 | the segments form a gap-free chain from the first to the last timestamp, neighbours with different servers |
| Availability.SuccessIsListed | ops/loadtest/deploy-availability.py:126-132 | every successful row lies in a segment that lists its server |
| Availability.ListedServerAnswered | ops/loadtest/deploy-availability.py:126-132 | every listed server answered within the segment that lists it |
| Availability.SegmentationUnique | ops/loadtest/deploy-availability.py:123-140 | the log determines the segmentation |

## Left out

Of the timetables:

- The delay before a handler's first look-up: a handler arrives when it does its look-ups.
- The handlers that only read (board, actor page, message list) and their sorting by time of sending.
- The pattern a key has to match before it is looked up, and administrator roles.
- Object identity beyond the actors of a waiting answer, where it decides what is stored.
- Clock values: when an actor was invited, has answered or was registered is modelled as whether it happened.
- Whitespace beyond space, tab and line ends in trimming; numbers that are not integers in a setting.
- The order in which slots are shown, and keys of a profile body beyond its six fields.
- Wording of texts: messages are compared by the values they are composed from, so two templates that render to the same
  text count as different.

Of the community board:

- Sessions and cookies: who the owner of a request is; the expected member of a creation.
- Likes, popular posts, reports, read marks of notices, profile pictures and names, previews, and the identity migration.
- Normalising title and body, whose outcome is a parameter; the shape of a request id, a flag.
- Times of creation and editing.
- The look-ups before an edit or removal (`find`, `post`, `comment`) are predicates, and their exceptions outcomes.

Of the shows:

- Show texts, images, links, guides, memos, reservation codes, and everything that lists or sorts shows or audiences.
- Updating a show's texts: whether it has an external link is fixed at its creation, as no accepted update changes it.
- The delay before a handler's first look-up: a handler arrives when it does its look-ups.
- A drawn show id that is already taken: ids are drawn at random and taken to be fresh, and the model refuses one that
  is not.
- The form of phone numbers: phones are integers, those of the seeded reservations above a fixed base.

Of the scripts:

- Generated markdown after its first line (the later lines of the overview and section texts, and the rest of a waiting
  note), which decides neither ownership nor layout; JSON values other than strings within properties.
- Dashboard.Body.AddWidget: requires a row on a left half it is to join, where the source would fail on a missing key; the
  merger always meets it.
- Reading the probe log, the textual and HTML report, percentiles, and everything that talks to AWS.

Event, company, feedback, bookmark and e-mail-code mocks: they are programs of the same shape with fewer states, whose
capacity and uniqueness rules are special cases of the ones above. The Java backend itself is not part of this model.

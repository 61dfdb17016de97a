/** The board as the running program holds it: its three collections, changed in place. */
module CommunityBoard {
  import opened Wrappers
  import Community
  import opened CommunityInvariant

  type Entry = Community.Entry

  class Board {
    var entries: seq<Entry>
    var notices: seq<Community.Notice>
    var sequence: int

    ghost function Contents(): Community.Store
      reads this
    {
      Community.Store(entries, notices, sequence)
    }

    ghost predicate Valid()
      reads this
    {
      Community.Inv(Contents())
    }

    constructor ()
      ensures Valid() && Contents() == Community.EMPTY
    {
      entries, notices, sequence := [], [], 0;
    }

    /** Collects the thread's participants in order of first appearance, and finds the author among them. */
    method Number(parent: Option<int>, author: Community.Participant) returns (number: int)
      requires Valid()
      requires parent.Some? ==> 1 <= parent.value <= |entries|
      ensures number == Community.NumberFor(entries, parent, author)
    {
      if parent.None? {
        return 1;
      }
      var post := parent.value;
      var owners := [entries[post - 1].author];
      for k := 0 to |entries|
        invariant k <= post ==> owners == [entries[post - 1].author]
        invariant k >= post ==> owners == Community.Participants(entries, post, k)
      {
        if entries[k].parent == parent {
          assert Community.ParentIsPost(entries, k);
          owners := Community.Add(owners, entries[k].author);
        }
      }
      owners := Community.Add(owners, author);
      number := Community.IndexOf(owners, author) + 1;
    }

    method FirstWithRequest(requestId: string) returns (retry: Option<Entry>)
      ensures retry == Community.FirstWithRequest(entries, requestId)
    {
      retry := None;
      for k := 0 to |entries|
        invariant retry == Community.FirstWithRequest(entries[..k], requestId)
      {
        assert entries[..k + 1][..k] == entries[..k];
        if retry.None? && entries[k].requestId == requestId {
          retry := Some(entries[k]);
        }
      }
      assert entries[..|entries|] == entries;
    }

    method ChangeCount(post: int, change: int)
      requires 1 <= post <= |entries|
      modifies this`entries
      ensures entries == Community.ChangeCount(old(entries), post, change)
    {
      var entry := entries[post - 1];
      entries := entries[post - 1 := entry.(commentCount := entry.commentCount + change)];
    }

    method Insert(author: Community.Participant, requestId: string, original: Community.Original)
      requires Valid() && (original.parent.Some? ==> 1 <= original.parent.value <= |entries|)
      modifies this
      ensures Contents() == Community.Inserted(old(Contents()), author, requestId, original)
    {
      ghost var s := Contents();
      var parent := original.parent;
      var number := Number(parent, author);
      var postAuthor := parent.None? || entries[parent.value - 1].author == author;
      sequence := sequence + 1;
      var told := Community.NoticeFor(entries, sequence, author, original);
      var entry := Community.Entry(sequence, author, original, requestId, number, postAuthor, original.content, false,
        0);
      assert entry == Community.NewEntry(s, author, requestId, original);
      entries := entries + [entry];
      notices := notices + told;
      if parent.Some? {
        ChangeCount(parent.value, 1);
      }
      assert notices == Community.Inserted(s, author, requestId, original).notices;
    }

    method Settle(author: Community.Participant, requestId: string, original: Community.Original)
      returns (outcome: Community.Outcome)
      requires Valid() && (original.parent.Some? ==> 1 <= original.parent.value <= |entries|)
      modifies this
      ensures (Contents(), outcome) == Community.Settle(old(Contents()), author, requestId, original)
    {
      var retry := FirstWithRequest(requestId);
      if retry.Some? {
        if retry.value.author.owner != author.owner || retry.value.original != original {
          return Community.Conflict;
        }
        return if Community.Found(entries, retry.value.id) then Community.Ok(retry.value.id) else Community.NotFound;
      }
      if original.parent.Some? && original.replyTo.Some?
         && !Community.CanReply(entries, original.parent.value, original.replyTo.value) {
        return Community.NotFound;
      }
      Insert(author, requestId, original);
      outcome := Community.Ok(sequence);
    }

    method Create(parent: Option<int>, owner: string, payload: Community.Payload, profileOpen: bool)
      returns (outcome: Community.Outcome)
      requires Valid()
      modifies this
      ensures Valid() && (Contents(), outcome) == Community.Create(old(Contents()), parent, owner, payload, profileOpen)
    {
      CreateKeepsInv(Contents(), parent, owner, payload, profileOpen);
      var refusal := Community.Refusal(Community.Store(entries, notices, sequence), parent, payload, profileOpen);
      if refusal.Some? {
        outcome := refusal.value;
      } else {
        outcome := Settle(Community.Participant(owner, payload.mode.value), payload.requestId,
          Community.OriginalOf(parent, payload));
      }
    }

    /** The second half of an edit: changes the entry it was given, whatever has become of it. */
    method EditHeld(id: int, owner: string, content: Option<Community.Content>) returns (outcome: Community.Outcome)
      requires Valid() && 1 <= id <= |entries|
      modifies this`entries
      ensures Valid() && (Contents(), outcome) == Community.EditHeld(old(Contents()), id, owner, content)
    {
      EditKeepsInv(Contents(), id, owner, content);
      var entry := entries[id - 1];
      if entry.author.owner != owner {
        return Community.NotOwner;
      }
      if content.None? {
        return Community.Invalid;
      }
      var default := if entry.content.topic.Some? then entry.content.topic else Some(Community.FREE);
      entries := entries[id - 1 := entry.(content := Community.Normalized(entry.parent, content.value, default))];
      outcome := Community.Ok(id);
    }

    method Edit(postId: Option<int>, id: int, owner: string, content: Option<Community.Content>)
      returns (outcome: Community.Outcome)
      requires Valid()
      modifies this`entries
      ensures Valid() && (Contents(), outcome) == Community.Edit(old(Contents()), postId, id, owner, content)
    {
      if !Community.Addressed(entries, postId, id) {
        return Community.NotFound;
      }
      outcome := EditHeld(id, owner, content);
    }

    method Remove(postId: Option<int>, id: int, owner: string) returns (outcome: Community.Outcome)
      requires Valid()
      modifies this`entries
      ensures Valid() && (Contents(), outcome) == Community.Remove(old(Contents()), postId, id, owner)
    {
      RemoveKeepsInv(Contents(), postId, id, owner);
      if !Community.Addressed(entries, postId, id) {
        return Community.NotFound;
      }
      var entry := entries[id - 1];
      if entry.author.owner != owner {
        return Community.NotOwner;
      }
      entries := entries[id - 1 := entry.(deleted := true)];
      if entry.parent.Some? {
        ChangeCount(entry.parent.value, -1);
      }
      outcome := Community.Ok(id);
    }
  }
}

/** Cursor pagination over the board, and the inbox of notices. */
module CommunityPages {
  import opened Wrappers
  import opened Community

  const POSTS_PER_PAGE := 5
  const COMMENTS_PER_PAGE := 20

  /** What a list asks for: the posts (newest first, maybe of one topic), or the comments of a post (oldest first). */
  datatype Query = Query(parent: Option<int>, topic: Option<Topic>) {
    function Size(): nat { if parent.None? then POSTS_PER_PAGE else COMMENTS_PER_PAGE }
  }

  datatype Page = Page(items: seq<Entry>, next: Option<int>)

  /** a comes strictly before b in the list's order. */
  predicate Precedes(q: Query, a: int, b: int) {
    if q.parent.None? then a > b else a < b
  }

  predicate Wanted(q: Query, e: Entry) {
    !e.deleted && e.parent == q.parent && (q.topic.Some? ==> e.content.topic == q.topic)
  }

  predicate Eligible(q: Query, cursor: int, e: Entry) {
    Wanted(q, e) && Precedes(q, cursor, e.id)
  }

  function Filter(entries: seq<Entry>, q: Query, cursor: int): seq<Entry> {
    if entries == [] then []
    else
      var rest := Filter(entries[1..], q, cursor);
      if Eligible(q, cursor, entries[0]) then [entries[0]] + rest else rest
  }

  function Place(q: Query, e: Entry, sorted: seq<Entry>): seq<Entry> {
    if sorted == [] || Precedes(q, e.id, sorted[0].id) then [e] + sorted else [sorted[0]] + Place(q, e, sorted[1..])
  }

  function Sort(q: Query, entries: seq<Entry>): seq<Entry> {
    if entries == [] then [] else Place(q, entries[0], Sort(q, entries[1..]))
  }

  function Listed(entries: seq<Entry>, q: Query, cursor: int): seq<Entry> {
    Sort(q, Filter(entries, q, cursor))
  }

  /** None stands for the refusal to list the comments of a post that is not there. */
  function List(s: Store, q: Query, cursor: int): Option<Page>
    requires ParentsArePosts(s.entries)
  {
    if q.parent.Some? && !IsPost(s.entries, q.parent.value) then None
    else
      var entries := Listed(s.entries, q, cursor);
      if |entries| > q.Size() then Some(Page(entries[..q.Size()], Some(entries[q.Size() - 1].id)))
      else Some(Page(entries, None))
  }

  // ---------- The whole list ----------

  ghost predicate Ordered(q: Query, entries: seq<Entry>) {
    forall i, j :: 0 <= i < j < |entries| ==> Precedes(q, entries[i].id, entries[j].id)
  }

  ghost predicate IdsDistinct(entries: seq<Entry>) {
    forall i, j :: 0 <= i < j < |entries| ==> entries[i].id != entries[j].id
  }

  lemma {:induction false} FilterExact(entries: seq<Entry>, q: Query, cursor: int)
    requires IdsDistinct(entries)
    ensures IdsDistinct(Filter(entries, q, cursor))
    ensures forall e :: e in Filter(entries, q, cursor) <==> e in entries && Eligible(q, cursor, e)
  {
    if entries != [] {
      assert forall e :: e in entries <==> e == entries[0] || e in entries[1..];
      FilterExact(entries[1..], q, cursor);
      assert forall e :: e in entries[1..] ==> e.id != entries[0].id;
    }
  }

  lemma {:induction false} PlaceExact(q: Query, e: Entry, sorted: seq<Entry>)
    requires Ordered(q, sorted) && forall x :: x in sorted ==> x.id != e.id
    ensures Ordered(q, Place(q, e, sorted))
    ensures forall x :: x in Place(q, e, sorted) <==> x == e || x in sorted
  {
    if sorted != [] && !Precedes(q, e.id, sorted[0].id) {
      PlaceExact(q, e, sorted[1..]);
      var rest := Place(q, e, sorted[1..]);
      assert forall x :: x in sorted <==> x == sorted[0] || x in sorted[1..];
      forall i | 0 <= i < |rest| ensures Precedes(q, sorted[0].id, rest[i].id) {
        assert rest[i] in rest;
      }
    }
  }

  lemma {:induction false} SortExact(q: Query, entries: seq<Entry>)
    requires IdsDistinct(entries)
    ensures Ordered(q, Sort(q, entries))
    ensures forall x :: x in Sort(q, entries) <==> x in entries
  {
    if entries != [] {
      SortExact(q, entries[1..]);
      assert forall e :: e in entries[1..] ==> e.id != entries[0].id;
      PlaceExact(q, entries[0], Sort(q, entries[1..]));
    }
  }

  /** The list holds exactly the eligible entries, in strict order. */
  lemma {:induction false} ListedExact(entries: seq<Entry>, q: Query, cursor: int)
    requires IdsDistinct(entries)
    ensures Ordered(q, Listed(entries, q, cursor))
    ensures forall e :: e in Listed(entries, q, cursor) <==> e in entries && Eligible(q, cursor, e)
  {
    FilterExact(entries, q, cursor);
    SortExact(q, Filter(entries, q, cursor));
  }

  // ---------- Walking the pages while the store changes ----------

  /** One page request of a walk: the store it found and the cursor it sent. */
  datatype Request = Request(store: Store, cursor: int)

  ghost predicate Answered(q: Query, r: Request) {
    Inv(r.store) && List(r.store, q, r.cursor).Some?
  }

  ghost function PageOf(q: Query, r: Request): Page
    requires Answered(q, r)
  {
    List(r.store, q, r.cursor).value
  }

  /** Each request follows the cursor of the page before; the last page has none. The stores are arbitrary:
      anything may have happened between two requests. */
  ghost predicate IsWalk(q: Query, walk: seq<Request>) {
    && |walk| > 0
    && (forall i :: 0 <= i < |walk| ==> Answered(q, walk[i]))
    && (forall i, j :: 0 <= i && j == i + 1 < |walk| ==> PageOf(q, walk[i]).next == Some(walk[j].cursor))
    && PageOf(q, walk[|walk| - 1]).next == None
  }

  ghost function Ids(items: seq<Entry>): seq<int> {
    seq(|items|, i requires 0 <= i < |items| => items[i].id)
  }

  /** The ids a walk delivers, page after page. */
  ghost function Delivered(q: Query, walk: seq<Request>): seq<int>
    requires forall i :: 0 <= i < |walk| ==> Answered(q, walk[i])
  {
    if walk == [] then [] else Ids(PageOf(q, walk[0]).items) + Delivered(q, walk[1..])
  }

  ghost predicate Monotone(q: Query, ids: seq<int>) {
    forall i, j :: 0 <= i < j < |ids| ==> Precedes(q, ids[i], ids[j])
  }

  /** The entry exists and meets the list's filter in this store, whatever the cursor. */
  ghost predicate Standing(q: Query, id: int, s: Store) {
    1 <= id <= |s.entries| && Wanted(q, s.entries[id - 1])
  }

  lemma {:induction false} PageExact(q: Query, r: Request)
    requires Answered(q, r)
    ensures var page := PageOf(q, r);
            && Ordered(q, page.items)
            && (forall i :: 0 <= i < |page.items| ==>
                 Precedes(q, r.cursor, page.items[i].id) && Standing(q, page.items[i].id, r.store))
            && (page.next.Some? ==> |page.items| > 0 && page.next.value == page.items[|page.items| - 1].id)
            && (forall id :: Standing(q, id, r.store) && Precedes(q, r.cursor, id) ==>
                  id in Ids(page.items) || (page.next.Some? && Precedes(q, page.next.value, id)))
  {
    var page, entries := PageOf(q, r), Listed(r.store.entries, q, r.cursor);
    ListedExact(r.store.entries, q, r.cursor);
    assert page.items <= entries;
    forall i | 0 <= i < |page.items|
      ensures Precedes(q, r.cursor, page.items[i].id) && Standing(q, page.items[i].id, r.store)
    {
      assert page.items[i] in entries;
    }
    forall id | Standing(q, id, r.store) && Precedes(q, r.cursor, id)
      ensures id in Ids(page.items) || (page.next.Some? && Precedes(q, page.next.value, id))
    {
      PageReaches(q, r, id);
    }
  }

  /** An eligible entry is on the page or beyond it. */
  lemma {:induction false} PageReaches(q: Query, r: Request, id: int)
    requires Answered(q, r) && Standing(q, id, r.store) && Precedes(q, r.cursor, id)
    ensures var page := PageOf(q, r);
            id in Ids(page.items) || (page.next.Some? && Precedes(q, page.next.value, id))
  {
    var page, entries := PageOf(q, r), Listed(r.store.entries, q, r.cursor);
    ListedExact(r.store.entries, q, r.cursor);
    assert r.store.entries[id - 1] in entries;
    var k :| 0 <= k < |entries| && entries[k] == r.store.entries[id - 1];
    if k < |page.items| {
      assert Ids(page.items)[k] == id;
    }
  }

  ghost predicate AllBeyond(q: Query, cursor: int, ids: seq<int>) {
    forall i :: 0 <= i < |ids| ==> Precedes(q, cursor, ids[i])
  }

  ghost predicate Complete(q: Query, walk: seq<Request>, cursor: int, ids: seq<int>) {
    forall id :: Precedes(q, cursor, id) && (forall i :: 0 <= i < |walk| ==> Standing(q, id, walk[i].store)) ==>
      id in ids
  }

  lemma {:induction false} PagesJoin(q: Query, cursor: int, a: seq<int>, b: seq<int>)
    requires Monotone(q, a) && AllBeyond(q, cursor, a)
    requires |a| > 0 && Monotone(q, b) && AllBeyond(q, a[|a| - 1], b)
    ensures Monotone(q, a + b) && AllBeyond(q, cursor, a + b)
  {
    forall i, j | 0 <= i < j < |a + b| ensures Precedes(q, (a + b)[i], (a + b)[j]) {
      if i < |a| <= j {
        assert i < |a| - 1 ==> Precedes(q, a[i], a[|a| - 1]);
        assert Precedes(q, a[|a| - 1], b[j - |a|]);
      }
    }
  }

  lemma {:induction false} RestIsWalk(q: Query, walk: seq<Request>)
    requires IsWalk(q, walk) && |walk| > 1
    ensures IsWalk(q, walk[1..]) && PageOf(q, walk[0]).next == Some(walk[1].cursor)
  {
    var rest := walk[1..];
    assert rest[|rest| - 1] == walk[|walk| - 1];
    assert forall i :: 0 <= i < |rest| ==> rest[i] == walk[i + 1];
  }

  lemma {:induction false} PageIds(q: Query, r: Request)
    requires Answered(q, r)
    ensures var ids, next := Ids(PageOf(q, r).items), PageOf(q, r).next;
            && Monotone(q, ids) && AllBeyond(q, r.cursor, ids)
            && (next.Some? ==> |ids| > 0 && next.value == ids[|ids| - 1])
  {
    PageExact(q, r);
  }

  lemma {:induction false} CompleteAtOnce(q: Query, walk: seq<Request>, ids: seq<int>)
    requires |walk| == 1 && Answered(q, walk[0]) && PageOf(q, walk[0]).next.None?
    requires ids == Ids(PageOf(q, walk[0]).items)
    ensures Complete(q, walk, walk[0].cursor, ids)
  {
    forall id | Precedes(q, walk[0].cursor, id) && (forall i :: 0 <= i < |walk| ==> Standing(q, id, walk[i].store))
      ensures id in ids
    {
      assert Standing(q, id, walk[0].store);
      PageReaches(q, walk[0], id);
    }
  }

  /** What the first page does not hold lies beyond it, and is left to the other pages. */
  lemma {:induction false} CompleteJoins(q: Query, walk: seq<Request>, ids: seq<int>, later: seq<int>)
    requires |walk| > 1 && Answered(q, walk[0]) && ids == Ids(PageOf(q, walk[0]).items)
    requires PageOf(q, walk[0]).next == Some(walk[1].cursor) && Complete(q, walk[1..], walk[1].cursor, later)
    ensures Complete(q, walk, walk[0].cursor, ids + later)
  {
    var rest := walk[1..];
    forall id | Precedes(q, walk[0].cursor, id) && (forall i :: 0 <= i < |walk| ==> Standing(q, id, walk[i].store))
      ensures id in ids + later
    {
      assert Standing(q, id, walk[0].store);
      PageReaches(q, walk[0], id);
      if id !in ids {
        forall i | 0 <= i < |rest| ensures Standing(q, id, rest[i].store) {
          assert rest[i] == walk[i + 1];
        }
      }
    }
  }

  /** Following cursors to the end: every id delivered lies beyond the first cursor, ids are strictly monotone, so
      none comes twice, and each entry that stood in every store the walk met is delivered. */
  lemma {:induction false} WalkDeliversStanding(q: Query, walk: seq<Request>)
    requires IsWalk(q, walk)
    ensures Monotone(q, Delivered(q, walk)) && AllBeyond(q, walk[0].cursor, Delivered(q, walk))
    ensures Complete(q, walk, walk[0].cursor, Delivered(q, walk))
    decreases |walk|
  {
    var ids := Ids(PageOf(q, walk[0]).items);
    PageIds(q, walk[0]);
    if |walk| > 1 {
      var later := Delivered(q, walk[1..]);
      RestIsWalk(q, walk);
      WalkDeliversStanding(q, walk[1..]);
      assert Delivered(q, walk) == ids + later;
      PagesJoin(q, walk[0].cursor, ids, later);
      CompleteJoins(q, walk, ids, later);
    } else {
      assert Delivered(q, walk) == ids + [] == ids;
      CompleteAtOnce(q, walk, ids);
    }
  }

  lemma {:induction false} DeliveredStood(q: Query, walk: seq<Request>, s: Store, id: int)
    requires forall i :: 0 <= i < |walk| ==> Answered(q, walk[i]) && walk[i].store == s
    requires id in Delivered(q, walk)
    ensures Standing(q, id, s)
    decreases |walk|
  {
    PageExact(q, walk[0]);
    if id in Ids(PageOf(q, walk[0]).items) {
      var k :| 0 <= k < |Ids(PageOf(q, walk[0]).items)| && Ids(PageOf(q, walk[0]).items)[k] == id;
      assert walk[0].store == s;
    } else {
      DeliveredStood(q, walk[1..], s, id);
    }
  }

  /** A strictly monotone list is determined by what it contains. */
  lemma {:induction false} MonotoneUnique(q: Query, a: seq<int>, b: seq<int>)
    requires Monotone(q, a) && Monotone(q, b) && forall id :: id in a <==> id in b
    ensures a == b
  {
    assert a != [] ==> a[0] in a && a[0] in b;
    assert b != [] ==> b[0] in b && b[0] in a;
    if a != [] {
      assert a[0] == b[0];
      forall id ensures id in a[1..] <==> id in b[1..] {
        assert id in a <==> id == a[0] || id in a[1..];
        assert id in b <==> id == b[0] || id in b[1..];
        assert a[0] !in a[1..] && b[0] !in b[1..];
      }
      MonotoneUnique(q, a[1..], b[1..]);
    }
  }

  lemma {:induction false} ListedIds(s: Store, q: Query, cursor: int, id: int)
    requires Inv(s)
    ensures id in Ids(Listed(s.entries, q, cursor)) <==> Standing(q, id, s) && Precedes(q, cursor, id)
  {
    var entries := Listed(s.entries, q, cursor);
    ListedExact(s.entries, q, cursor);
    if Standing(q, id, s) && Precedes(q, cursor, id) {
      assert s.entries[id - 1] in entries;
      var k :| 0 <= k < |entries| && entries[k] == s.entries[id - 1];
      assert Ids(entries)[k] == id;
    }
    if id in Ids(entries) {
      var k :| 0 <= k < |entries| && Ids(entries)[k] == id;
      assert entries[k] in s.entries;
    }
  }

  /** With nothing happening in between, the pages concatenate to the whole sorted list of eligible entries. */
  lemma {:induction false} QuietWalkDeliversList(q: Query, walk: seq<Request>, s: Store)
    requires IsWalk(q, walk) && forall i :: 0 <= i < |walk| ==> walk[i].store == s
    ensures Delivered(q, walk) == Ids(Listed(s.entries, q, walk[0].cursor))
  {
    var cursor, ids := walk[0].cursor, Delivered(q, walk);
    assert Answered(q, walk[0]);
    WalkDeliversStanding(q, walk);
    ListedExact(s.entries, q, cursor);
    var all := Ids(Listed(s.entries, q, cursor));
    forall id ensures id in ids <==> id in all {
      ListedIds(s, q, cursor, id);
      if id in ids {
        DeliveredStood(q, walk, s, id);
      }
    }
    MonotoneUnique(q, ids, all);
  }

  // ---------- How long a walk can get ----------

  /** Requests that follow each other's cursors, whether or not the last page is the end. */
  ghost predicate Follows(q: Query, walk: seq<Request>) {
    && |walk| > 0
    && (forall i :: 0 <= i < |walk| ==> Answered(q, walk[i]))
    && (forall i, j :: 0 <= i && j == i + 1 < |walk| ==> PageOf(q, walk[i]).next == Some(walk[j].cursor))
  }

  /** A page that names a next cursor is full, so the cursor has moved on by at least as many ids. */
  lemma {:induction false} CursorMoves(q: Query, r: Request, next: int)
    requires Answered(q, r) && PageOf(q, r).next == Some(next)
    ensures 1 <= next <= |r.store.entries|
    ensures q.parent.None? ==> next <= r.cursor - POSTS_PER_PAGE && next <= |r.store.entries| - (POSTS_PER_PAGE - 1)
    ensures q.parent.Some? ==> next >= r.cursor + COMMENTS_PER_PAGE
  {
    var items := PageOf(q, r).items;
    PageExact(q, r);
    assert |items| == q.Size();
    Spread(q, items, 0, q.Size() - 1);
    assert Standing(q, items[0].id, r.store) && Standing(q, items[q.Size() - 1].id, r.store);
  }

  lemma {:induction false} Spread(q: Query, items: seq<Entry>, i: nat, j: nat)
    requires Ordered(q, items) && i <= j < |items|
    ensures if q.parent.None? then items[j].id <= items[i].id - (j - i) else items[j].id >= items[i].id + (j - i)
    decreases j - i
  {
    if i < j {
      Spread(q, items, i, j - 1);
      assert Precedes(q, items[j - 1].id, items[j].id);
    }
  }

  lemma {:induction false} CursorsMove(q: Query, walk: seq<Request>, i: nat)
    requires Follows(q, walk) && 0 < i < |walk|
    ensures 1 <= walk[i].cursor <= |walk[i - 1].store.entries|
    ensures q.parent.None? ==> walk[i].cursor <= |walk[0].store.entries| - i * POSTS_PER_PAGE + 1
    ensures q.parent.Some? ==> walk[i].cursor >= walk[0].cursor + i * COMMENTS_PER_PAGE
  {
    assert PageOf(q, walk[i - 1]).next == Some(walk[i].cursor);
    CursorMoves(q, walk[i - 1], walk[i].cursor);
    if i > 1 {
      CursorsMove(q, walk, i - 1);
    }
  }

  /** Whatever happens between the requests, a walk over posts ends: it takes at most one page more than fives of the
      posts and comments there were at its beginning, since ids fall and new posts lie behind it. A walk over comments
      can outlast that only while the board keeps growing: each page uses up twenty ids. */
  lemma {:induction false} WalkIsBounded(q: Query, walk: seq<Request>)
    requires Follows(q, walk) && (q.parent.Some? ==> walk[0].cursor >= 0)
    ensures q.parent.None? ==> (|walk| - 1) * POSTS_PER_PAGE <= |walk[0].store.entries|
    ensures q.parent.Some? && |walk| > 1 ==> (|walk| - 1) * COMMENTS_PER_PAGE <= |walk[|walk| - 2].store.entries|
  {
    if |walk| > 1 {
      CursorsMove(q, walk, |walk| - 1);
    }
  }

  // ---------- The walk ends ----------

  lemma {:induction false} FilterShrinks(entries: seq<Entry>, q: Query, cursor: int, next: int)
    requires Precedes(q, cursor, next)
    ensures |Filter(entries, q, next)| <= |Filter(entries, q, cursor)|
    ensures (exists e :: e in entries && e.id == next && Eligible(q, cursor, e)) ==>
              |Filter(entries, q, next)| < |Filter(entries, q, cursor)|
  {
    if entries != [] {
      FilterShrinks(entries[1..], q, cursor, next);
      assert Eligible(q, next, entries[0]) ==> Eligible(q, cursor, entries[0]);
    }
  }

  /** Asking page after page of an unchanging store. Each page leaves fewer eligible entries, so this ends. */
  ghost function WalkFrom(s: Store, q: Query, cursor: int): (walk: seq<Request>)
    requires Inv(s) && List(s, q, cursor).Some?
    ensures IsWalk(q, walk) && walk[0].cursor == cursor && forall i :: 0 <= i < |walk| ==> walk[i].store == s
    decreases |Filter(s.entries, q, cursor)|
  {
    var request := Request(s, cursor);
    var page := PageOf(q, request);
    if page.next.None? then [request]
    else
      NextLeavesFewer(s, q, cursor);
      var rest := WalkFrom(s, q, page.next.value);
      PageBefore(q, request, rest);
      [request] + rest
  }

  lemma {:induction false} PageBefore(q: Query, r: Request, walk: seq<Request>)
    requires IsWalk(q, walk) && Answered(q, r) && PageOf(q, r).next == Some(walk[0].cursor)
    ensures IsWalk(q, [r] + walk)
  {
    var longer := [r] + walk;
    assert forall i :: 0 <= i < |walk| ==> longer[i + 1] == walk[i];
    forall i, j | 0 <= i && j == i + 1 < |longer| ensures PageOf(q, longer[i]).next == Some(longer[j].cursor) {
      if i > 0 {
        assert longer[i] == walk[i - 1] && longer[j] == walk[j - 1];
      }
    }
    assert longer[|longer| - 1] == walk[|walk| - 1];
  }

  lemma {:induction false} NextLeavesFewer(s: Store, q: Query, cursor: int)
    requires Inv(s) && List(s, q, cursor).Some? && List(s, q, cursor).value.next.Some?
    ensures var next := List(s, q, cursor).value.next.value;
            |Filter(s.entries, q, next)| < |Filter(s.entries, q, cursor)|
  {
    var page := PageOf(q, Request(s, cursor));
    PageExact(q, Request(s, cursor));
    var last := page.items[|page.items| - 1];
    assert Standing(q, last.id, s) && s.entries[last.id - 1].id == last.id;
    FilterShrinks(s.entries, q, cursor, page.next.value);
  }

  // ---------- Inbox ----------

  const INBOX_SIZE := 20

  predicate Shown(s: Store, owner: string, n: Notice) {
    && n.recipient == owner
    && match Get(s.entries, n.id)
       case None => false
       case Some(comment) =>
         && !comment.deleted && comment.parent.Some?
         && match Get(s.entries, comment.parent.value)
            case None => false
            case Some(post) => !post.deleted
  }

  /** The shown notices from the latest back. */
  function ShownBackwards(s: Store, owner: string, notices: seq<Notice>): seq<Notice> {
    if notices == [] then []
    else
      var last, rest := notices[|notices| - 1], ShownBackwards(s, owner, notices[..|notices| - 1]);
      if Shown(s, owner, last) then [last] + rest else rest
  }

  function Inbox(s: Store, owner: string): seq<Notice> {
    var all := ShownBackwards(s, owner, s.notices);
    if |all| > INBOX_SIZE then all[..INBOX_SIZE] else all
  }

  ghost predicate NewestFirst(ns: seq<Notice>) {
    forall i, j :: 0 <= i < j < |ns| ==> ns[i].id > ns[j].id
  }

  ghost predicate OldestFirst(ns: seq<Notice>) {
    forall i, j :: 0 <= i < j < |ns| ==> ns[i].id < ns[j].id
  }

  lemma {:induction false} ShownBackwardsExact(s: Store, owner: string, ns: seq<Notice>)
    requires OldestFirst(ns)
    ensures NewestFirst(ShownBackwards(s, owner, ns))
    ensures forall n :: n in ShownBackwards(s, owner, ns) <==> n in ns && Shown(s, owner, n)
  {
    if ns != [] {
      var init, last := ns[..|ns| - 1], ns[|ns| - 1];
      ShownBackwardsExact(s, owner, init);
      assert forall n :: n in ns <==> n == last || n in init;
      assert forall n :: n in init ==> n.id < last.id;
    }
  }

  lemma {:induction false} NoticesOldestFirst(entries: seq<Entry>, n: int)
    requires 0 <= n <= |entries|
    ensures OldestFirst(Notices(entries, n)) && forall k :: 0 <= k < |Notices(entries, n)| ==>
            1 <= Notices(entries, n)[k].id <= n
  {
    if n > 0 {
      NoticesOldestFirst(entries, n - 1);
    }
  }

  lemma {:induction false} NoticesExact(entries: seq<Entry>, n: int, notice: Notice)
    requires 0 <= n <= |entries|
    ensures notice in Notices(entries, n) <==> 1 <= notice.id <= n && Tells(entries, notice)
  {
    if n > 0 {
      NoticesExact(entries, n - 1, notice);
    }
  }

  /** The member wrote the comment or post that the notice's entry answers, and someone else wrote the answer. */
  ghost predicate Tells(entries: seq<Entry>, notice: Notice) {
    && 1 <= notice.id <= |entries|
    && var e := entries[notice.id - 1];
       var target := if e.replyTo.Some? then e.replyTo else e.parent;
       && target.Some? && 1 <= target.value <= |entries|
       && notice.recipient == entries[target.value - 1].author.owner
       && IsMember(notice.recipient) && notice.recipient != e.author.owner
  }

  lemma {:induction false} CutKeepsNewest(all: seq<Notice>, size: nat, n: Notice)
    requires NewestFirst(all) && size <= |all| && n in all && n !in all[..size]
    ensures forall k :: 0 <= k < size ==> all[k].id > n.id
  {
    var i :| 0 <= i < |all| && all[i] == n;
    assert forall k :: 0 <= k < size ==> all[k] in all[..size];
    assert i >= size;
  }

  lemma {:induction false} ShownNotices(s: Store, owner: string)
    requires s.notices == Notices(s.entries, |s.entries|)
    ensures var all := ShownBackwards(s, owner, s.notices);
            NewestFirst(all) && forall n :: n in all <==> Tells(s.entries, n) && Shown(s, owner, n)
  {
    NoticesOldestFirst(s.entries, |s.entries|);
    ShownBackwardsExact(s, owner, s.notices);
    forall n ensures n in ShownBackwards(s, owner, s.notices) <==> Tells(s.entries, n) && Shown(s, owner, n) {
      NoticesExact(s.entries, |s.entries|, n);
    }
  }

  /** The inbox is the newest twenty live answers to what the member wrote, newest first. */
  lemma {:induction false} InboxNewest(s: Store, owner: string)
    requires Inv(s)
    ensures var inbox := Inbox(s, owner);
            && NewestFirst(inbox) && |inbox| <= INBOX_SIZE
            && (forall n :: n in inbox ==> Tells(s.entries, n) && Shown(s, owner, n))
            && (forall n :: Tells(s.entries, n) && Shown(s, owner, n) && n !in inbox ==>
                  |inbox| == INBOX_SIZE && forall k :: 0 <= k < |inbox| ==> inbox[k].id > n.id)
  {
    var all, inbox := ShownBackwards(s, owner, s.notices), Inbox(s, owner);
    ShownNotices(s, owner);
    forall n | n in all && n !in inbox ensures |inbox| == INBOX_SIZE && forall k :: 0 <= k < |inbox| ==>
      inbox[k].id > n.id {
      CutKeepsNewest(all, |inbox|, n);
    }
  }
}

/** The community board: posts with one level of comments and replies, soft deletion, idempotent creation,
    and anonymous numbering of the participants of a thread. */
module Community {
  import opened Wrappers

  datatype Mode = ANONYMOUS | PROFILE
  datatype Topic = FREE | AUDITION_REVIEW | PRACTICE | QUESTION | PERFORMANCE
  datatype Content = Content(title: Option<string>, topic: Option<Topic>, body: string)

  /** Who writes, and under which face: one member takes part twice in a thread when using both modes. */
  datatype Participant = Participant(owner: string, mode: Mode)

  /** The parts of a creation request that a retry has to repeat. */
  datatype Original = Original(parent: Option<int>, content: Content, mode: Mode, replyTo: Option<int>)

  datatype Entry = Entry(id: int, author: Participant, original: Original, requestId: string,
                         number: int, postAuthor: bool, content: Content, deleted: bool, commentCount: int)
  {
    const parent := original.parent
    const replyTo := original.replyTo
  }

  /** A comment's author is told to `recipient`. */
  datatype Notice = Notice(id: int, recipient: string)

  /** `entries` lists the entries in the order in which they were inserted; entry i has id i + 1. */
  datatype Store = Store(entries: seq<Entry>, notices: seq<Notice>, sequence: int)

  const EMPTY := Store([], [], 0)

  /** `content` is the outcome of normalising title and body, None when they are rejected. */
  datatype Payload = Payload(requestId: string, wellFormedId: bool, mode: Option<Mode>, content: Option<Content>,
                             replyTo: Option<int>)

  datatype Outcome = Ok(id: int) | Invalid | NotFound | ProfileRequired | Conflict | NotOwner

  // ---------- Looking entries up ----------

  function Get(entries: seq<Entry>, id: int): Option<Entry> {
    if 1 <= id <= |entries| then Some(entries[id - 1]) else None
  }

  ghost predicate ParentIsPost(entries: seq<Entry>, i: int)
    requires 0 <= i < |entries|
  {
    match entries[i].parent
    case None => true
    case Some(p) => 1 <= p <= i && entries[p - 1].parent.None?
  }

  ghost predicate ParentsArePosts(entries: seq<Entry>) {
    && (forall i :: 0 <= i < |entries| && entries[i].parent.Some? ==> 1 <= entries[i].parent.value <= i)
    && (forall i {:trigger ParentIsPost(entries, i)} :: 0 <= i < |entries| ==> ParentIsPost(entries, i))
  }

  /** Present, not deleted, and in a post that is neither. A parent has a smaller id, so the search ends. */
  predicate Found(entries: seq<Entry>, id: int)
    requires ParentsArePosts(entries)
    decreases id
  {
    match Get(entries, id)
    case None => false
    case Some(e) => !e.deleted && (e.parent.Some? ==> Found(entries, e.parent.value))
  }

  predicate IsPost(entries: seq<Entry>, id: int)
    requires ParentsArePosts(entries)
  {
    Found(entries, id) && entries[id - 1].parent.None?
  }

  predicate IsComment(entries: seq<Entry>, postId: int, id: int)
    requires ParentsArePosts(entries)
  {
    IsPost(entries, postId) && Found(entries, id) && entries[id - 1].parent == Some(postId)
  }

  // ---------- Participants of a thread ----------

  /** A set that remembers the order of insertion. */
  function Add(participants: seq<Participant>, p: Participant): seq<Participant> {
    if p in participants then participants else participants + [p]
  }

  /** The participants of the thread under `post` among the first n entries, in order of first appearance. */
  function Participants(entries: seq<Entry>, post: int, n: int): seq<Participant>
    requires 1 <= post <= n <= |entries|
    decreases n
  {
    if n == post then [entries[post - 1].author]
    else
      var before := Participants(entries, post, n - 1);
      if entries[n - 1].parent == Some(post) then Add(before, entries[n - 1].author) else before
  }

  function IndexOf(participants: seq<Participant>, p: Participant): (i: int)
    requires p in participants
    ensures 0 <= i < |participants| && participants[i] == p
  {
    if participants[0] == p then 0 else 1 + IndexOf(participants[1..], p)
  }

  function NumberFor(entries: seq<Entry>, parent: Option<int>, author: Participant): int
    requires parent.Some? ==> 1 <= parent.value <= |entries|
  {
    if parent.None? then 1
    else IndexOf(Add(Participants(entries, parent.value, |entries|), author), author) + 1
  }

  // ---------- Counting ----------

  predicate LiveComment(e: Entry, post: int) {
    e.parent == Some(post) && !e.deleted
  }

  function LiveComments(entries: seq<Entry>, post: int): nat {
    if entries == [] then 0
    else LiveComments(entries[..|entries| - 1], post) + if LiveComment(entries[|entries| - 1], post) then 1 else 0
  }

  // ---------- Operations ----------

  function Normalized(parent: Option<int>, content: Content, default: Option<Topic>): Content {
    if parent.Some? then Content(None, None, content.body)
    else Content(content.title, if content.topic.Some? then content.topic else default, content.body)
  }

  predicate IsMember(owner: string) {
    "member:" <= owner
  }

  function FirstWithRequest(entries: seq<Entry>, requestId: string): Option<Entry> {
    if entries == [] then None
    else
      var earlier, last := FirstWithRequest(entries[..|entries| - 1], requestId), entries[|entries| - 1];
      if earlier.Some? then earlier else if last.requestId == requestId then Some(last) else None
  }

  function ChangeCount(entries: seq<Entry>, post: int, change: int): seq<Entry>
    requires 1 <= post <= |entries|
  {
    entries[post - 1 := entries[post - 1].(commentCount := entries[post - 1].commentCount + change)]
  }

  /** The owner to tell about a new entry: that of the comment replied to, else that of the post. */
  function NoticeFor(entries: seq<Entry>, id: int, author: Participant, original: Original): seq<Notice> {
    var target := if original.replyTo.Some? then original.replyTo else original.parent;
    var told := if target.Some? then Get(entries, target.value) else None;
    if told.Some? && IsMember(told.value.author.owner) && told.value.author.owner != author.owner
    then [Notice(id, told.value.author.owner)]
    else []
  }

  function NewEntry(s: Store, author: Participant, requestId: string, original: Original): Entry
    requires original.parent.Some? ==> 1 <= original.parent.value <= |s.entries|
  {
    var parent := original.parent;
    Entry(s.sequence + 1, author, original, requestId, NumberFor(s.entries, parent, author),
          parent.None? || s.entries[parent.value - 1].author == author, original.content, false, 0)
  }

  function Inserted(s: Store, author: Participant, requestId: string, original: Original): Store
    requires original.parent.Some? ==> 1 <= original.parent.value <= |s.entries|
  {
    var entry, parent := NewEntry(s, author, requestId, original), original.parent;
    var appended := s.entries + [entry];
    Store(if parent.Some? then ChangeCount(appended, parent.value, 1) else appended,
          s.notices + NoticeFor(s.entries, entry.id, author, original), s.sequence + 1)
  }

  function ReplyTarget(parent: Option<int>, payload: Payload): Option<int> {
    if parent.None? then None else payload.replyTo
  }

  function OriginalOf(parent: Option<int>, payload: Payload): Original
    requires payload.mode.Some? && payload.content.Some?
  {
    Original(parent, Normalized(parent, payload.content.value, Some(FREE)), payload.mode.value,
      ReplyTarget(parent, payload))
  }

  /** Checks that do not depend on earlier uses of the request id. */
  function Refusal(s: Store, parent: Option<int>, payload: Payload, profileOpen: bool): Option<Outcome>
    requires ParentsArePosts(s.entries)
  {
    if !payload.wellFormedId then Some(Invalid)
    else if parent.Some? && !IsPost(s.entries, parent.value) then Some(NotFound)
    else if payload.mode.None? then Some(Invalid)
    else if payload.mode == Some(PROFILE) && !profileOpen then Some(ProfileRequired)
    else if payload.content.None? then Some(Invalid)
    else
      var target := ReplyTarget(parent, payload);
      if target.Some? && target.value < 1 then Some(Invalid) else None
  }

  /** The part of a creation that follows the checks: answer a retry, or insert. */
  function Settle(s: Store, author: Participant, requestId: string, original: Original): (Store, Outcome)
    requires ParentsArePosts(s.entries)
    requires original.parent.Some? ==> 1 <= original.parent.value <= |s.entries|
  {
    match FirstWithRequest(s.entries, requestId)
    case Some(retry) =>
      if retry.author.owner != author.owner || retry.original != original then (s, Conflict)
      else if Found(s.entries, retry.id) then (s, Ok(retry.id)) else (s, NotFound)
    case None =>
      if original.parent.Some? && original.replyTo.Some?
        && !CanReply(s.entries, original.parent.value, original.replyTo.value)
      then (s, NotFound)
      else (Inserted(s, author, requestId, original), Ok(s.sequence + 1))
  }

  predicate CanReply(entries: seq<Entry>, post: int, target: int)
    requires ParentsArePosts(entries)
  {
    IsComment(entries, post, target) && entries[target - 1].replyTo.None?
  }

  function Create(s: Store, parent: Option<int>, owner: string, payload: Payload, profileOpen: bool): (Store, Outcome)
    requires ParentsArePosts(s.entries)
  {
    var refusal := Refusal(s, parent, payload, profileOpen);
    if refusal.Some? then (s, refusal.value)
    else Settle(s, Participant(owner, payload.mode.value), payload.requestId, OriginalOf(parent, payload))
  }

  /** The entry a handler addresses: a post by id, or a comment by post and id. */
  predicate Addressed(entries: seq<Entry>, postId: Option<int>, id: int)
    requires ParentsArePosts(entries)
  {
    if postId.Some? then IsComment(entries, postId.value, id) else IsPost(entries, id)
  }

  /** What an edit does to the entry it holds once its body is there. It does not look the entry up again. */
  function EditHeld(s: Store, id: int, owner: string, content: Option<Content>): (Store, Outcome)
    requires 1 <= id <= |s.entries|
  {
    var e := s.entries[id - 1];
    if e.author.owner != owner then (s, NotOwner)
    else if content.None? then (s, Invalid)
    else
      var default := if e.content.topic.Some? then e.content.topic else Some(FREE);
      (s.(entries := s.entries[id - 1 := e.(content := Normalized(e.parent, content.value, default))]), Ok(id))
  }

  /** An edit whose body is there at once. */
  function Edit(s: Store, postId: Option<int>, id: int, owner: string, content: Option<Content>): (Store, Outcome)
    requires ParentsArePosts(s.entries)
  {
    if Addressed(s.entries, postId, id) then EditHeld(s, id, owner, content) else (s, NotFound)
  }

  function Remove(s: Store, postId: Option<int>, id: int, owner: string): (Store, Outcome)
    requires ParentsArePosts(s.entries)
  {
    if !Addressed(s.entries, postId, id) then (s, NotFound)
    else
      var e := s.entries[id - 1];
      if e.author.owner != owner then (s, NotOwner)
      else
        var marked := s.entries[id - 1 := e.(deleted := true)];
        (s.(entries := if e.parent.Some? then ChangeCount(marked, e.parent.value, -1) else marked), Ok(id))
  }

  // ---------- What every store keeps ----------

  ghost predicate IdsInOrder(entries: seq<Entry>) {
    forall i :: 0 <= i < |entries| ==> entries[i].id == i + 1
  }

  ghost predicate RequestsDistinct(entries: seq<Entry>) {
    forall i, j :: 0 <= i < j < |entries| ==> entries[i].requestId != entries[j].requestId
  }

  /** A reply goes to an earlier top-level comment of the same post. */
  ghost predicate ReplyToComment(entries: seq<Entry>, i: int)
    requires 0 <= i < |entries|
  {
    match entries[i].replyTo
    case None => true
    case Some(r) =>
      && 1 <= r <= i && entries[i].parent.Some?
      && entries[r - 1].parent == entries[i].parent && entries[r - 1].replyTo.None?
  }

  ghost predicate RepliesToComments(entries: seq<Entry>) {
    forall i {:trigger ReplyToComment(entries, i)} :: 0 <= i < |entries| ==> ReplyToComment(entries, i)
  }

  /** The notices of the first n entries. */
  ghost function Notices(entries: seq<Entry>, n: int): seq<Notice>
    requires 0 <= n <= |entries|
  {
    if n == 0 then []
    else Notices(entries, n - 1) + NoticeFor(entries, n, entries[n - 1].author, entries[n - 1].original)
  }

  ghost predicate Structure(entries: seq<Entry>) {
    IdsInOrder(entries) && ParentsArePosts(entries) && RequestsDistinct(entries) && RepliesToComments(entries)
  }

  ghost predicate CountsExact(entries: seq<Entry>) {
    forall i :: 0 <= i < |entries| && entries[i].parent.None? ==>
      entries[i].commentCount == LiveComments(entries, i + 1)
  }

  /** An entry's number is the place of its author in the thread's order of first appearance. */
  ghost predicate NumberedAt(entries: seq<Entry>, i: int)
    requires 0 <= i < |entries| && ParentsArePosts(entries)
  {
    match entries[i].parent
    case None => entries[i].number == 1 && entries[i].postAuthor
    case Some(post) =>
      var ps := Participants(entries, post, i + 1);
      && 1 <= entries[i].number <= |ps| && ps[entries[i].number - 1] == entries[i].author
      && (entries[i].postAuthor <==> entries[post - 1].author == entries[i].author)
  }

  ghost predicate Numbered(entries: seq<Entry>)
    requires ParentsArePosts(entries)
  {
    forall i :: 0 <= i < |entries| ==> NumberedAt(entries, i)
  }

  ghost predicate Inv(s: Store) {
    && s.sequence == |s.entries|
    && Structure(s.entries) && CountsExact(s.entries) && Numbered(s.entries)
    && s.notices == Notices(s.entries, |s.entries|)
  }
}

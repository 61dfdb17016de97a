/** The two single-pass analyses of a deployment probe log: the longest outage and the
    stretches of time answered by the same set of servers. */
module Availability {
  import opened Wrappers

  /** One probe. `at` counts microseconds. */
  datatype Row = Row(at: int, status: int, latency: int, server: string)

  datatype Range = Range(start: int, end: int)

  datatype Segment = Segment(start: int, end: int, servers: set<string>)

  const OK := 200
  const WINDOW := 10_000_000

  predicate Failed(row: Row) {
    row.status != OK
  }

  ghost predicate TimeSorted(rows: seq<Row>) {
    forall i, j :: 0 <= i <= j < |rows| ==> rows[i].at <= rows[j].at
  }

  // ---------- Longest outage ----------

  ghost predicate FailedBlock(rows: seq<Row>, i: int, j: int) {
    0 <= i < j <= |rows| && forall k :: i <= k < j ==> Failed(rows[k])
  }

  /** A failed block that no failed row adjoins on either side. */
  ghost predicate IsOutage(rows: seq<Row>, i: int, j: int) {
    && FailedBlock(rows, i, j)
    && (i > 0 ==> !Failed(rows[i - 1]))
    && (j < |rows| ==> !Failed(rows[j]))
  }

  /** The time at row index c; the end of the log stands for its last row. */
  function TimeAt(rows: seq<Row>, c: nat): int
    requires c <= |rows| && |rows| > 0
  {
    if c < |rows| then rows[c].at else rows[|rows| - 1].at
  }

  /** An outage lasts until the next success, or until the last row when none follows. */
  ghost function Length(rows: seq<Row>, i: int, j: int): int
    requires IsOutage(rows, i, j)
  {
    TimeAt(rows, j) - rows[i].at
  }

  /** Outage (i, j) has the given length and every outage before it is shorter. */
  ghost predicate FirstOf(rows: seq<Row>, i: int, j: int, longest: int) {
    && IsOutage(rows, i, j)
    && Length(rows, i, j) == longest
    && forall i', j' :: IsOutage(rows, i', j') && i' < i ==> Length(rows, i', j') < longest
  }

  /** Among the outages ending before row k, `longest` is the greatest length and `range` the first outage
      that reaches it; a log whose outages all have no length reports none. */
  ghost predicate LongestBefore(rows: seq<Row>, k: int, longest: int, range: Option<Range>) {
    && (forall i, j :: IsOutage(rows, i, j) && j < k ==> Length(rows, i, j) <= longest)
    && match range
       case None => longest == 0
       case Some(r) =>
         longest > 0 && exists i, j :: j < k && FirstOf(rows, i, j, longest) && r == Range(rows[i].at, TimeAt(rows, j))
  }

  ghost predicate IsLongestOutage(rows: seq<Row>, longest: int, range: Option<Range>) {
    LongestBefore(rows, |rows| + 1, longest, range)
  }

  lemma {:induction false} OutageEndsAt(rows: seq<Row>, from: int, k: int, longest: int, range: Option<Range>)
    requires LongestBefore(rows, k, longest, range) && IsOutage(rows, from, k)
    ensures var at := TimeAt(rows, k) - rows[from].at;
            if at > longest then LongestBefore(rows, k + 1, at, Some(Range(rows[from].at, TimeAt(rows, k))))
            else LongestBefore(rows, k + 1, longest, range)
  {
    forall i, j | IsOutage(rows, i, j) ensures (i < from ==> j < k) && (j == k ==> i == from) {
      OutagesDisjoint(rows, from, k, i, j);
    }
    if TimeAt(rows, k) - rows[from].at > longest {
      assert FirstOf(rows, from, k, TimeAt(rows, k) - rows[from].at);
    }
  }

  /** What the scan knows of the failures just before row k. */
  ghost predicate Tracks(rows: seq<Row>, k: int, current: Option<int>, from: int) {
    && 0 <= k <= |rows|
    && match current
       case None => k == 0 || !Failed(rows[k - 1])
       case Some(at) => FailedBlock(rows, from, k) && (from > 0 ==> !Failed(rows[from - 1])) && at == rows[from].at
  }

  /** The scan before row k: the outages already over, and the one under way. */
  ghost predicate Scanning(rows: seq<Row>, k: int, longest: int, range: Option<Range>, current: Option<int>,
        from: int) {
    Tracks(rows, k, current, from) && LongestBefore(rows, k, longest, range)
  }

  lemma {:induction false} FailureTracked(rows: seq<Row>, k: int, longest: int, range: Option<Range>,
        current: Option<int>, from: int)
    requires Scanning(rows, k, longest, range, current, from) && k < |rows| && Failed(rows[k])
    ensures Scanning(rows, k + 1, longest, range, Some(if current.None? then rows[k].at else current.value),
                     if current.None? then k else from)
  {
  }

  /** The longest outage once one that started at `start` has ended at `end`. */
  function LongerOf(longest: int, range: Option<Range>, start: Option<int>, end: int): (int, Option<Range>) {
    if start.Some? && end - start.value > longest then (end - start.value, Some(Range(start.value, end)))
      else (longest, range)
  }

  method LongestOutage(rows: seq<Row>) returns (longest: int, range: Option<Range>)
    ensures IsLongestOutage(rows, longest, range)
  {
    longest, range := 0, None;
    var current: Option<int> := None;
    ghost var from := 0;
    for k := 0 to |rows|
      invariant Scanning(rows, k, longest, range, current, from)
    {
      if Failed(rows[k]) {
        FailureTracked(rows, k, longest, range, current, from);
        if current.None? {
          current, from := Some(rows[k].at), k;
        }
      } else {
        RecoveryTracked(rows, k, longest, range, current, from);
        if current.Some? {
          if rows[k].at - current.value > longest {
            longest, range := rows[k].at - current.value, Some(Range(current.value, rows[k].at));
          }
          current := None;
        }
      }
    }
    EndTracked(rows, longest, range, current, from);
    if current.Some? && rows[|rows| - 1].at - current.value > longest {
      longest, range := rows[|rows| - 1].at - current.value, Some(Range(current.value, rows[|rows| - 1].at));
    }
  }

  /** At a success the outage under way (if any) is complete. */
  lemma {:induction false} RecoveryTracked(rows: seq<Row>, k: int, longest: int, range: Option<Range>,
        current: Option<int>, from: int)
    requires Scanning(rows, k, longest, range, current, from) && k < |rows| && !Failed(rows[k])
    ensures var (l, r) := LongerOf(longest, range, current, rows[k].at); Scanning(rows, k + 1, l, r, None, from)
  {
    if current.Some? {
      OutageEndsAt(rows, from, k, longest, range);
    }
  }

  /** At the end of the log an outage still under way ends with the last row. */
  lemma {:induction false} EndTracked(rows: seq<Row>, longest: int, range: Option<Range>, current: Option<int>,
        from: int)
    requires Scanning(rows, |rows|, longest, range, current, from)
    ensures current.Some? ==> |rows| > 0
    ensures var (l, r) := LongerOf(longest, range, current, if |rows| > 0 then rows[|rows| - 1].at else 0);
            IsLongestOutage(rows, l, r)
  {
    if current.Some? {
      OutageEndsAt(rows, from, |rows|, longest, range);
    }
  }

  /** Every failed block lies inside one outage. */
  lemma {:induction false} BlockInOutage(rows: seq<Row>, i: int, j: int) returns (i': int, j': int)
    requires FailedBlock(rows, i, j)
    ensures IsOutage(rows, i', j') && i' <= i && j <= j'
    decreases i + |rows| - j
  {
    if i > 0 && Failed(rows[i - 1]) {
      i', j' := BlockInOutage(rows, i - 1, j);
    } else if j < |rows| && Failed(rows[j]) {
      i', j' := BlockInOutage(rows, i, j + 1);
    } else {
      i', j' := i, j;
    }
  }

  /** Optimality: no run of consecutive failures, maximal or not, spans more than the reported duration. */
  lemma {:induction false} LongestBoundsEveryBlock(rows: seq<Row>, longest: int, range: Option<Range>)
    requires TimeSorted(rows) && IsLongestOutage(rows, longest, range)
    ensures forall i, j :: FailedBlock(rows, i, j) ==> rows[j - 1].at - rows[i].at <= longest
  {
    forall i, j | FailedBlock(rows, i, j) ensures rows[j - 1].at - rows[i].at <= longest {
      var i', j' := BlockInOutage(rows, i, j);
      assert Length(rows, i', j') <= longest;
    }
  }

  /** The specification leaves no choice: the log determines both results. */
  lemma {:induction false} LongestOutageUnique(rows: seq<Row>, l1: int, r1: Option<Range>, l2: int, r2: Option<Range>)
    requires IsLongestOutage(rows, l1, r1) && IsLongestOutage(rows, l2, r2)
    ensures l1 == l2 && r1 == r2
  {
    if r1.Some? && r2.Some? {
      var i1, j1 :| j1 < |rows| + 1 && FirstOf(rows, i1, j1, l1) && r1.value == Range(rows[i1].at, TimeAt(rows, j1));
      var i2, j2 :| j2 < |rows| + 1 && FirstOf(rows, i2, j2, l2) && r2.value == Range(rows[i2].at, TimeAt(rows, j2));
      OutagesDisjoint(rows, i1, j1, i2, j2);
    }
  }

  lemma {:induction false} OutagesDisjoint(rows: seq<Row>, i1: int, j1: int, i2: int, j2: int)
    requires IsOutage(rows, i1, j1) && IsOutage(rows, i2, j2)
    ensures i1 == i2 ==> j1 == j2
    ensures i1 < i2 ==> j1 < i2
    ensures i2 < i1 ==> j2 < i1
  {
  }

  // ---------- Server segments ----------

  /** The servers that answered successfully among rows lo..hi-1. */
  ghost function Answering(rows: seq<Row>, lo: nat, hi: nat): set<string>
    requires lo <= hi <= |rows|
  {
    set k | lo <= k < hi && !Failed(rows[k]) :: rows[k].server
  }

  /** `bounds` splits 0..n-1 into consecutive non-empty parts, part w being bounds[w]..bounds[w + 1]-1. */
  ghost predicate Splits(bounds: seq<nat>, n: nat) {
    && |bounds| >= 2 && bounds[0] == 0 && bounds[|bounds| - 1] == n
    && forall v, w :: 0 <= v < w < |bounds| ==> bounds[v] < bounds[w]
  }

  ghost predicate InPart(bounds: seq<nat>, w: int, k: int) {
    0 <= w < |bounds| - 1 && bounds[w] <= k < bounds[w + 1]
  }

  /** Each window opens at the first row at least WINDOW after the opening of the window before. */
  ghost predicate Windows(rows: seq<Row>, n: nat, cuts: seq<nat>) {
    && n <= |rows| && Splits(cuts, n)
    && (forall v, w :: 0 <= v && w == v + 1 < |cuts| - 1 ==> rows[cuts[w]].at - rows[cuts[v]].at >= WINDOW)
    && (forall w, k :: InPart(cuts, w, k) ==> rows[k].at - rows[cuts[w]].at < WINDOW)
  }

  ghost function WindowSegment(rows: seq<Row>, cuts: seq<nat>, w: nat): Segment
    requires w < |cuts| - 1 && cuts[w] < cuts[w + 1] <= |rows|
  {
    Segment(rows[cuts[w]].at, TimeAt(rows, cuts[w + 1]), Answering(rows, cuts[w], cuts[w + 1]))
  }

  /** The first segments are those of the first windows. */
  ghost predicate Recorded(rows: seq<Row>, n: nat, cuts: seq<nat>, segments: seq<Segment>)
    requires n <= |rows| && Splits(cuts, n)
  {
    |segments| < |cuts| && forall w {:trigger segments[w]} :: 0 <= w < |segments| ==>
      segments[w] == WindowSegment(rows, cuts, w)
  }

  /** Neighbouring windows with the same servers become one segment, and no two neighbours stay equal. */
  ghost predicate Merges(segments: seq<Segment>, n: nat, groups: seq<nat>, merged: seq<Segment>) {
    && n <= |segments| && |merged| == |groups| - 1 && Splits(groups, n)
    && (forall g {:trigger merged[g]} :: 0 <= g < |merged| ==>
          merged[g].start == segments[groups[g]].start && merged[g].end == segments[groups[g + 1] - 1].end)
    && (forall g, w :: InPart(groups, g, w) ==> segments[w].servers == merged[g].servers)
    && (forall f, g :: 0 <= f && g == f + 1 < |merged| ==> merged[f].servers != merged[g].servers)
  }

  ghost predicate WindowedBy(rows: seq<Row>, cuts: seq<nat>, segments: seq<Segment>) {
    && |rows| > 0 && Windows(rows, |rows|, cuts)
    && |segments| == |cuts| - 1 && Recorded(rows, |rows|, cuts, segments)
  }

  /** One segment per window of the log. */
  ghost predicate IsWindowing(rows: seq<Row>, segments: seq<Segment>) {
    exists cuts :: WindowedBy(rows, cuts, segments)
  }

  ghost predicate IsMerger(segments: seq<Segment>, merged: seq<Segment>) {
    exists groups :: Merges(segments, |segments|, groups, merged)
  }

  ghost predicate SegmentedBy(rows: seq<Row>, cuts: seq<nat>, segments: seq<Segment>, groups: seq<nat>,
        merged: seq<Segment>) {
    WindowedBy(rows, cuts, segments) && Merges(segments, |segments|, groups, merged)
  }

  ghost predicate IsSegmentation(rows: seq<Row>, merged: seq<Segment>) {
    exists cuts, segments, groups :: SegmentedBy(rows, cuts, segments, groups, merged)
  }

  /** The windows of the first k rows, the last of which is still open; its servers so far are `servers`. */
  ghost predicate Scanned(rows: seq<Row>, k: nat, cuts: seq<nat>, segments: seq<Segment>, start: int,
        servers: set<string>) {
    && Windows(rows, k, cuts)
    && |segments| == |cuts| - 2 && Recorded(rows, k, cuts, segments)
    && start == rows[cuts[|cuts| - 2]].at
    && servers == Answering(rows, cuts[|cuts| - 2], k)
  }

  ghost function With(servers: set<string>, row: Row): set<string> {
    servers + if Failed(row) then {} else {row.server}
  }

  lemma {:induction false} AnsweringOneMore(rows: seq<Row>, lo: nat, k: nat)
    requires lo <= k < |rows|
    ensures Answering(rows, lo, k + 1) == With(Answering(rows, lo, k), rows[k])
  {
  }

  /** Segments depend on their own cuts only. */
  lemma {:induction false} RecordedStays(rows: seq<Row>, n: nat, cuts: seq<nat>, m: nat, cuts': seq<nat>,
        segments: seq<Segment>)
    requires n <= |rows| && Splits(cuts, n) && Recorded(rows, n, cuts, segments)
    requires m <= |rows| && Splits(cuts', m) && |segments| < |cuts'|
    requires forall w :: 0 <= w <= |segments| ==> cuts'[w] == cuts[w]
    ensures Recorded(rows, m, cuts', segments)
  {
    forall w | 0 <= w < |segments| ensures segments[w] == WindowSegment(rows, cuts', w) {
      assert segments[w] == WindowSegment(rows, cuts, w);
    }
  }

  lemma {:induction false} WindowGrows(rows: seq<Row>, k: nat, cuts: seq<nat>)
    requires k < |rows| && Windows(rows, k, cuts) && rows[k].at - rows[cuts[|cuts| - 2]].at < WINDOW
    ensures Windows(rows, k + 1, cuts[|cuts| - 1 := k + 1])
  {
    var cuts' := cuts[|cuts| - 1 := k + 1];
    forall w, i | InPart(cuts', w, i) ensures rows[i].at - rows[cuts'[w]].at < WINDOW {
      assert i < k ==> InPart(cuts, w, i);
    }
  }

  lemma {:induction false} RowJoinsWindow(rows: seq<Row>, k: nat, cuts: seq<nat>, segments: seq<Segment>, start: int,
        servers: set<string>)
    requires k < |rows| && Scanned(rows, k, cuts, segments, start, servers)
    requires rows[k].at - start < WINDOW
    ensures Scanned(rows, k + 1, cuts[|cuts| - 1 := k + 1], segments, start, With(servers, rows[k]))
  {
    WindowGrows(rows, k, cuts);
    RecordedStays(rows, k, cuts, k + 1, cuts[|cuts| - 1 := k + 1], segments);
    AnsweringOneMore(rows, cuts[|cuts| - 2], k);
  }

  lemma {:induction false} SplitsOneMore(cuts: seq<nat>, k: nat)
    requires Splits(cuts, k)
    ensures Splits(cuts + [k + 1], k + 1)
  {
  }

  lemma {:induction false} LongerWindowsShort(rows: seq<Row>, k: nat, cuts: seq<nat>, w: int, i: int)
    requires k < |rows| && Windows(rows, k, cuts) && InPart(cuts + [k + 1], w, i)
    ensures i < |rows| && 0 <= (cuts + [k + 1])[w] < |rows| && rows[i].at - rows[(cuts + [k + 1])[w]].at < WINDOW
  {
    if w < |cuts| - 1 {
      assert InPart(cuts, w, i);
    }
  }

  lemma {:induction false} WindowOpens(rows: seq<Row>, k: nat, cuts: seq<nat>)
    requires k < |rows| && Windows(rows, k, cuts) && rows[k].at - rows[cuts[|cuts| - 2]].at >= WINDOW
    ensures Windows(rows, k + 1, cuts + [k + 1])
  {
    var cuts' := cuts + [k + 1];
    SplitsOneMore(cuts, k);
    forall w, i | InPart(cuts', w, i) ensures rows[i].at - rows[cuts'[w]].at < WINDOW {
      LongerWindowsShort(rows, k, cuts, w, i);
    }
    forall v, w | 0 <= v && w == v + 1 < |cuts'| - 1 ensures rows[cuts'[w]].at - rows[cuts'[v]].at >= WINDOW {
      assert cuts'[v] == cuts[v] && cuts'[w] == cuts[w];
    }
  }

  lemma {:induction false} RowOpensWindow(rows: seq<Row>, k: nat, cuts: seq<nat>, segments: seq<Segment>, start: int,
        servers: set<string>)
    requires k < |rows| && Scanned(rows, k, cuts, segments, start, servers)
    requires rows[k].at - start >= WINDOW
    ensures Scanned(rows, k + 1, cuts + [k + 1], segments + [Segment(start, rows[k].at, servers)], rows[k].at,
            With({}, rows[k]))
  {
    var cuts', closed := cuts + [k + 1], Segment(start, rows[k].at, servers);
    WindowOpens(rows, k, cuts);
    RecordedStays(rows, k, cuts, k + 1, cuts', segments);
    assert closed == WindowSegment(rows, cuts', |segments|);
    AnsweringOneMore(rows, k, k);
  }

  lemma {:induction false} LastWindowCloses(rows: seq<Row>, cuts: seq<nat>, segments: seq<Segment>, start: int,
        servers: set<string>)
    requires |rows| > 0 && Scanned(rows, |rows|, cuts, segments, start, servers)
    ensures WindowedBy(rows, cuts, segments + [Segment(start, rows[|rows| - 1].at, servers)])
  {
  }

  lemma {:induction false} FirstRowScanned(rows: seq<Row>)
    requires |rows| > 0
    ensures Scanned(rows, 1, [0, 1], [], rows[0].at, With({}, rows[0]))
  {
    AnsweringOneMore(rows, 0, 0);
  }

  /** First pass: one segment per window, with the servers that answered in it. The first row opens the first
      window and can not close it, so the scan starts behind it. */
  method WindowSegments(rows: seq<Row>) returns (segments: seq<Segment>)
    requires |rows| > 0
    ensures IsWindowing(rows, segments)
  {
    segments := [];
    ghost var cuts: seq<nat> := [0, 1];
    var windowStart, servers := rows[0].at, if Failed(rows[0]) then {} else {rows[0].server};
    FirstRowScanned(rows);
    assert servers == With({}, rows[0]);
    for k := 1 to |rows|
      invariant Scanned(rows, k, cuts, segments, windowStart, servers)
    {
      if rows[k].at - windowStart >= WINDOW {
        RowOpensWindow(rows, k, cuts, segments, windowStart, servers);
        segments, cuts := segments + [Segment(windowStart, rows[k].at, servers)], cuts + [k + 1];
        windowStart, servers := rows[k].at, {};
      } else {
        RowJoinsWindow(rows, k, cuts, segments, windowStart, servers);
        cuts := cuts[|cuts| - 1 := k + 1];
      }
      assert Scanned(rows, k + 1, cuts, segments, windowStart, With(servers, rows[k]));
      if !Failed(rows[k]) {
        servers := servers + {rows[k].server};
      }
    }
    LastWindowCloses(rows, cuts, segments, windowStart, servers);
    segments := segments + [Segment(windowStart, rows[|rows| - 1].at, servers)];
    assert WindowedBy(rows, cuts, segments);
  }

  lemma {:induction false} SegmentJoins(segments: seq<Segment>, n: nat, groups: seq<nat>, merged: seq<Segment>)
    requires n < |segments| && Merges(segments, n, groups, merged)
    requires segments[n].servers == merged[|merged| - 1].servers
    ensures Merges(segments, n + 1, groups[|groups| - 1 := n + 1],
                   merged[|merged| - 1 := merged[|merged| - 1].(end := segments[n].end)])
  {
    var groups' := groups[|groups| - 1 := n + 1];
    var merged' := merged[|merged| - 1 := merged[|merged| - 1].(end := segments[n].end)];
    forall g, w | InPart(groups', g, w) ensures segments[w].servers == merged'[g].servers {
      assert w < n ==> InPart(groups, g, w);
    }
  }

  lemma {:induction false} SegmentStands(segments: seq<Segment>, n: nat, groups: seq<nat>, merged: seq<Segment>)
    requires n < |segments| && Merges(segments, n, groups, merged)
    requires segments[n].servers != merged[|merged| - 1].servers
    ensures Merges(segments, n + 1, groups + [n + 1], merged + [segments[n]])
  {
    var groups', merged' := groups + [n + 1], merged + [segments[n]];
    SplitsOneMore(groups, n);
    forall g, w | InPart(groups', g, w) ensures segments[w].servers == merged'[g].servers {
      if g < |merged| {
        assert InPart(groups, g, w);
      }
    }
    forall g | 0 <= g < |merged'|
      ensures merged'[g].start == segments[groups'[g]].start && merged'[g].end == segments[groups'[g + 1] - 1].end
    {
      assert g < |merged| ==> merged'[g] == merged[g] && groups'[g + 1] == groups[g + 1];
    }
  }

  /** Second pass: neighbouring windows answered by the same servers are joined in place. */
  method MergeSegments(segments: seq<Segment>) returns (merged: seq<Segment>)
    requires |segments| > 0
    ensures IsMerger(segments, merged)
  {
    merged := [segments[0]];
    ghost var groups: seq<nat> := [0, 1];
    assert Merges(segments, 1, groups, merged);
    for n := 1 to |segments|
      invariant Merges(segments, n, groups, merged)
    {
      var last := |merged| - 1;
      if segments[n].servers == merged[last].servers {
        SegmentJoins(segments, n, groups, merged);
        merged, groups := merged[last := merged[last].(end := segments[n].end)], groups[|groups| - 1 := n + 1];
      } else {
        SegmentStands(segments, n, groups, merged);
        merged, groups := merged + [segments[n]], groups + [n + 1];
      }
      assert Merges(segments, n + 1, groups, merged);
    }
  }

  method ServerSegments(rows: seq<Row>) returns (merged: seq<Segment>)
    requires |rows| > 0
    ensures IsSegmentation(rows, merged)
  {
    var segments := WindowSegments(rows);
    ghost var cuts :| WindowedBy(rows, cuts, segments);
    merged := MergeSegments(segments);
    ghost var groups :| Merges(segments, |segments|, groups, merged);
    assert SegmentedBy(rows, cuts, segments, groups, merged);
  }

  lemma {:induction false} Locate(bounds: seq<nat>, n: nat, k: nat, from: nat) returns (w: nat)
    requires Splits(bounds, n) && k < n && from < |bounds| - 1 && bounds[from] <= k
    ensures InPart(bounds, w, k)
    decreases |bounds| - from
  {
    if k < bounds[from + 1] {
      w := from;
    } else {
      w := Locate(bounds, n, k, from + 1);
    }
  }

  lemma {:induction false} NeighboursTouch(rows: seq<Row>, cuts: seq<nat>, segments: seq<Segment>, w: nat)
    requires |rows| > 0 && Windows(rows, |rows|, cuts)
    requires |segments| == |cuts| - 1 && Recorded(rows, |rows|, cuts, segments)
    requires 0 < w < |segments|
    ensures segments[w - 1].end == segments[w].start
  {
    assert cuts[w] < cuts[w + 1];
    assert segments[w - 1] == WindowSegment(rows, cuts, w - 1) && segments[w] == WindowSegment(rows, cuts, w);
  }

  lemma {:induction false} MergedNeighboursTouch(rows: seq<Row>, cuts: seq<nat>, segments: seq<Segment>,
        groups: seq<nat>, merged: seq<Segment>, g: nat)
    requires SegmentedBy(rows, cuts, segments, groups, merged) && 0 < g < |merged|
    ensures merged[g - 1].end == merged[g].start
  {
    assert merged[g].start == segments[groups[g]].start;
    NeighboursTouch(rows, cuts, segments, groups[g]);
  }

  lemma {:induction false} MergedSpansLog(rows: seq<Row>, cuts: seq<nat>, segments: seq<Segment>, groups: seq<nat>,
        merged: seq<Segment>)
    requires SegmentedBy(rows, cuts, segments, groups, merged)
    ensures merged[0].start == rows[0].at && merged[|merged| - 1].end == rows[|rows| - 1].at
  {
    var last := |segments| - 1;
    assert segments[last] == WindowSegment(rows, cuts, last);
    assert segments[0] == WindowSegment(rows, cuts, 0);
  }

  /** The segments form a gap-free chain over the whole log, and neighbours differ in their servers. */
  lemma {:induction false} SegmentsFormChain(rows: seq<Row>, merged: seq<Segment>)
    requires IsSegmentation(rows, merged)
    ensures |rows| > 0 && |merged| > 0
    ensures merged[0].start == rows[0].at && merged[|merged| - 1].end == rows[|rows| - 1].at
    ensures forall f, g :: 0 <= f && g == f + 1 < |merged| ==>
              merged[f].end == merged[g].start && merged[f].servers != merged[g].servers
  {
    var cuts, segments, groups :| SegmentedBy(rows, cuts, segments, groups, merged);
    MergedSpansLog(rows, cuts, segments, groups, merged);
    forall f, g | 0 <= f && g == f + 1 < |merged| ensures merged[f].end == merged[g].start {
      MergedNeighboursTouch(rows, cuts, segments, groups, merged, g);
    }
  }

  lemma {:induction false} CutsCover(rows: seq<Row>, cuts: seq<nat>, first: nat, last: nat, w: nat, k: nat)
    requires TimeSorted(rows) && |rows| > 0 && Splits(cuts, |rows|) && first <= w <= last < |cuts| - 1
             && InPart(cuts, w, k)
    ensures rows[cuts[first]].at <= rows[k].at <= TimeAt(rows, cuts[last + 1])
  {
    assert cuts[first] <= cuts[w] <= k < cuts[w + 1] <= cuts[last + 1];
  }

  /** A group of windows covers the time of every row in it. */
  lemma {:induction false} RowInsideGroup(rows: seq<Row>, cuts: seq<nat>, segments: seq<Segment>, groups: seq<nat>,
        merged: seq<Segment>,
                       g: nat, w: nat, k: nat)
    requires TimeSorted(rows) && SegmentedBy(rows, cuts, segments, groups, merged)
    requires InPart(groups, g, w) && InPart(cuts, w, k)
    ensures merged[g].start <= rows[k].at <= merged[g].end
    ensures segments[w] == WindowSegment(rows, cuts, w) && segments[w].servers == merged[g].servers
  {
    var first, last := groups[g], groups[g + 1] - 1;
    assert segments[w] == WindowSegment(rows, cuts, w);
    assert segments[first] == WindowSegment(rows, cuts, first) && segments[last] == WindowSegment(rows, cuts, last);
    CutsCover(rows, cuts, first, last, w, k);
  }

  /** Every successful row lies in a segment that lists its server. */
  lemma {:induction false} SuccessIsListed(rows: seq<Row>, merged: seq<Segment>, k: nat) returns (g: nat)
    requires TimeSorted(rows) && IsSegmentation(rows, merged)
    requires k < |rows| && !Failed(rows[k])
    ensures g < |merged| && merged[g].start <= rows[k].at <= merged[g].end && rows[k].server in merged[g].servers
  {
    var cuts, segments, groups :| SegmentedBy(rows, cuts, segments, groups, merged);
    var w := Locate(cuts, |rows|, k, 0);
    g := Locate(groups, |segments|, w, 0);
    RowInsideGroup(rows, cuts, segments, groups, merged, g, w, k);
  }

  /** Every listed server answered within the segment that lists it. */
  lemma {:induction false} ListedServerAnswered(rows: seq<Row>, merged: seq<Segment>, g: nat, server: string)
    returns (k: nat)
    requires TimeSorted(rows) && IsSegmentation(rows, merged)
    requires g < |merged| && server in merged[g].servers
    ensures k < |rows| && !Failed(rows[k]) && rows[k].server == server
    ensures merged[g].start <= rows[k].at <= merged[g].end
  {
    var cuts, segments, groups :| SegmentedBy(rows, cuts, segments, groups, merged);
    var w := groups[g];
    assert InPart(groups, g, w);
    assert segments[w] == WindowSegment(rows, cuts, w);
    k :| cuts[w] <= k < cuts[w + 1] && !Failed(rows[k]) && rows[k].server == server;
    RowInsideGroup(rows, cuts, segments, groups, merged, g, w, k);
  }

  /** Windows are cut greedily, so the log fixes where they open. */
  lemma {:induction false} CutsAgree(rows: seq<Row>, a: seq<nat>, b: seq<nat>, w: nat)
    requires Windows(rows, |rows|, a) && Windows(rows, |rows|, b)
    requires w < |a|
    ensures w < |b| && a[w] == b[w]
  {
    if w > 0 {
      CutsAgree(rows, a, b, w - 1);
      assert b[w - 1] == a[w - 1] < a[w] <= |rows|;
      var aw, bw := a[w], b[w];
      assert bw < aw ==> InPart(a, w - 1, bw);
      assert aw < bw ==> InPart(b, w - 1, aw);
    }
  }

  lemma {:induction false} GroupsAgree(segments: seq<Segment>, n: nat, a: seq<nat>, ma: seq<Segment>, b: seq<nat>,
        mb: seq<Segment>, g: nat)
    requires Merges(segments, n, a, ma) && Merges(segments, n, b, mb)
    requires g < |a|
    ensures g < |b| && a[g] == b[g]
  {
    if g > 0 {
      GroupsAgree(segments, n, a, ma, b, mb, g - 1);
      assert b[g - 1] == a[g - 1] < a[g] <= n;
      assert InPart(a, g - 1, a[g - 1]) && InPart(b, g - 1, b[g - 1]);
      if b[g] < a[g] {
        assert InPart(a, g - 1, b[g]) && InPart(b, g, b[g]);
      } else if a[g] < b[g] {
        assert InPart(b, g - 1, a[g]) && InPart(a, g, a[g]);
      }
    }
  }

  lemma {:induction false} WindowingUnique(rows: seq<Row>, s1: seq<Segment>, s2: seq<Segment>)
    requires IsWindowing(rows, s1) && IsWindowing(rows, s2)
    ensures s1 == s2
  {
    var c1 :| WindowedBy(rows, c1, s1);
    var c2 :| WindowedBy(rows, c2, s2);
    forall w | 0 <= w < |c1| ensures w < |c2| && c1[w] == c2[w] { CutsAgree(rows, c1, c2, w); }
    forall w | 0 <= w < |c2| ensures w < |c1| && c1[w] == c2[w] { CutsAgree(rows, c2, c1, w); }
    assert c1 == c2;
  }

  lemma {:induction false} MergerUnique(segments: seq<Segment>, m1: seq<Segment>, m2: seq<Segment>)
    requires IsMerger(segments, m1) && IsMerger(segments, m2)
    ensures m1 == m2
  {
    var n := |segments|;
    var g1 :| Merges(segments, n, g1, m1);
    var g2 :| Merges(segments, n, g2, m2);
    forall g | 0 <= g < |g1| ensures g < |g2| && g1[g] == g2[g] { GroupsAgree(segments, n, g1, m1, g2, m2, g); }
    forall g | 0 <= g < |g2| ensures g < |g1| && g1[g] == g2[g] { GroupsAgree(segments, n, g2, m2, g1, m1, g); }
    assert g1 == g2;
    forall g | 0 <= g < |m1| ensures m1[g] == m2[g] {
      assert InPart(g1, g, g1[g]);
    }
  }

  /** The specification leaves no choice: the log determines the segments. */
  lemma {:induction false} SegmentationUnique(rows: seq<Row>, m1: seq<Segment>, m2: seq<Segment>)
    requires IsSegmentation(rows, m1) && IsSegmentation(rows, m2)
    ensures m1 == m2
  {
    var c1, s1, g1 :| SegmentedBy(rows, c1, s1, g1, m1);
    var c2, s2, g2 :| SegmentedBy(rows, c2, s2, g2, m2);
    WindowingUnique(rows, s1, s2);
    MergerUnique(s1, m1, m2);
  }
}

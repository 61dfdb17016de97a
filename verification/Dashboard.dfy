/** The CloudWatch dashboard merger: strip what an earlier run added, lay the current widgets out below the rest. */
module Dashboard {
  import opened Wrappers

  type Properties = map<string, string>

  /** A widget as JSON may hold it: any of these keys can be missing. */
  datatype Widget = Widget(kind: string, x: Option<int>, y: Option<int>, width: Option<int>, height: Option<int>,
                           properties: Option<Properties>)

  /** `other` stands for the top-level keys the merger copies without reading. */
  datatype Document = Document(start: Option<string>, other: Properties, widgets: seq<Widget>)

  datatype Query = Query(id: string, title: string, view: string, query: string, category: Option<string>,
                         savedOnly: bool)

  /** The arguments of one call that adds a widget. */
  datatype Item = Item(kind: string, properties: Properties, height: int, width: int)

  const COLUMNS := 24
  const HALF := 12
  const DEFAULT_HEIGHT := 6

  // ---------- Placing one widget ----------

  function GetOr(value: Option<int>, default: int): int {
    if value.Some? then value.value else default
  }

  function Height(w: Widget): int {
    GetOr(w.height, DEFAULT_HEIGHT)
  }

  function BottomOf(w: Widget): int {
    GetOr(w.y, 0) + Height(w)
  }

  /** The lowest row boundary in use; 0 on an empty dashboard. */
  function Bottom(ws: seq<Widget>): (y: int)
    ensures forall i :: 0 <= i < |ws| ==> BottomOf(ws[i]) <= y
    ensures if ws == [] then y == 0 else exists i :: 0 <= i < |ws| && BottomOf(ws[i]) == y
  {
    if |ws| == 0 then 0
    else
      var last := BottomOf(ws[|ws| - 1]);
      if |ws| == 1 then last
      else
        var above := Bottom(ws[..|ws| - 1]);
        if above < last then last else above
  }

  predicate IsOpenLeftHalf(w: Widget) {
    w.width == Some(HALF) && w.x == Some(0)
  }

  predicate Pairs(ws: seq<Widget>, width: int) {
    width == HALF && ws != [] && IsOpenLeftHalf(ws[|ws| - 1])
  }

  /** A half-width widget joins the row of the left half before it; any other goes below everything.
      The row of that left half has to be known: see `Body.AddWidget`. */
  function Placed(ws: seq<Widget>, item: Item): Widget {
    var (x, y) := if Pairs(ws, item.width) then (HALF, GetOr(ws[|ws| - 1].y, 0)) else (0, Bottom(ws));
    Widget(item.kind, Some(x), Some(y), Some(item.width), Some(item.height), Some(item.properties))
  }

  // ---------- Which widgets the merger owns ----------

  function PropertiesOf(w: Widget): Properties {
    if w.properties.Some? then w.properties.value else map[]
  }

  function Lookup(properties: Properties, key: string): string {
    if key in properties then properties[key] else ""
  }

  function Property(w: Widget, key: string): string {
    Lookup(PropertiesOf(w), key)
  }

  function Lstrip(s: string): string {
    if s != [] && (s[0] == '#' || s[0] == ' ') then Lstrip(s[1..]) else s
  }

  const SNAPSHOT := "PROD 오늘 로컬 파일 스냅샷"
  const OVERVIEW := "### 로그 기반 모니터링"
  const TITLES := ["API DEV | ", "API PROD | ", "LOG DEV | ", "LOG PROD | "]
  const HEADINGS := ["### API 분석 ·", OVERVIEW, "### LOG DEV", "### LOG PROD"]

  predicate StartsWithAny(s: string, prefixes: seq<string>) {
    exists i :: 0 <= i < |prefixes| && prefixes[i] <= s
  }

  predicate IsSnapshotText(markdown: string) {
    SNAPSHOT <= Lstrip(markdown)
  }

  predicate IsSnapshot(w: Widget) {
    IsSnapshotText(Property(w, "markdown"))
  }

  predicate Owned(w: Widget) {
    StartsWithAny(Property(w, "title"), TITLES) || StartsWithAny(Property(w, "markdown"), HEADINGS) || IsSnapshot(w)
  }

  function Kept(ws: seq<Widget>): seq<Widget> {
    if ws == [] then []
    else
      var rest, last := Kept(ws[..|ws| - 1]), ws[|ws| - 1];
      if Owned(last) then rest else rest + [last]
  }

  // ---------- What the merger adds ----------

  function Text(markdown: string, height: int): Item {
    Item("text", map["markdown" := markdown], height, COLUMNS)
  }

  datatype Environment = PROD | DEV {
    function Name(): string { if PROD? then "prod" else "dev" }
    function Upper(): string { if PROD? then "PROD" else "DEV" }
  }

  datatype Category = Category(name: string, title: string, source: string)

  const CATEGORIES := [Category("api", "API·오류", "backend"),
                       Category("runtime", "JVM·호스트·스레드·커넥션·GC", "backend"),
                       Category("database", "DB·InnoDB·호스트 I/O", "database")]
  const FULL_WIDTH := {"resource-summary", "endpoint-summary", "error-details"}

  function GroupName(env: Environment, source: string): string {
    "/yesulin/" + env.Name() + "/" + source
  }

  function Heading(env: Environment, title: string): Item {
    Text("### LOG " + env.Upper() + (" · " + title), 3)
  }

  function Waiting(env: Environment, source: string): Item {
    Text("### LOG " + env.Upper() + (" · " + source + " 수집 대기"), 2)
  }

  predicate Shown(q: Query, category: string) {
    (if q.category.Some? then q.category.value else "api") == category && !q.savedOnly
  }

  function Graph(q: Query, env: Environment, source: string): Item {
    Item("log",
         map["region" := "ap-northeast-2", "title" := "LOG " + env.Upper() + " | " + q.title, "view" := q.view,
             "query" := "SOURCE '" + GroupName(env, source) + "' | " + q.query],
         DEFAULT_HEIGHT, if q.id in FULL_WIDTH then COLUMNS else HALF)
  }

  function Graphs(queries: seq<Query>, env: Environment, c: Category): seq<Item> {
    if queries == [] then []
    else
      var rest, q := Graphs(queries[..|queries| - 1], env, c), queries[|queries| - 1];
      if Shown(q, c.name) then rest + [Graph(q, env, c.source)] else rest
  }

  function Section(queries: seq<Query>, groups: set<string>, env: Environment, c: Category): seq<Item> {
    [Heading(env, c.title)] +
    if GroupName(env, c.source) in groups then Graphs(queries, env, c) else [Waiting(env, c.source)]
  }

  function Sections(queries: seq<Query>, groups: set<string>, env: Environment, cs: seq<Category>): seq<Item> {
    if cs == [] then []
    else Sections(queries, groups, env, cs[..|cs| - 1]) + Section(queries, groups, env, cs[|cs| - 1])
  }

  const OVERVIEW_ITEM := Text(OVERVIEW, 4)

  function AllSections(queries: seq<Query>, groups: set<string>, cs: seq<Category>): seq<Item> {
    [OVERVIEW_ITEM] + Sections(queries, groups, PROD, cs) + Sections(queries, groups, DEV, cs)
  }

  function Generated(queries: seq<Query>, groups: set<string>): seq<Item> {
    AllSections(queries, groups, CATEGORIES)
  }

  predicate Seen(items: seq<Item>, markdown: string) {
    exists i :: 0 <= i < |items| && Lookup(items[i].properties, "markdown") == markdown
  }

  predicate NewSnapshot(w: Widget, items: seq<Item>) {
    IsSnapshot(w) && !Seen(items, Property(w, "markdown"))
  }

  function SnapshotItem(w: Widget): Item {
    Item("text", PropertiesOf(w), Height(w), COLUMNS)
  }

  /** One item per snapshot text, taken from the first widget that carries it. */
  function Snapshots(ws: seq<Widget>): seq<Item> {
    if ws == [] then []
    else
      var rest, last := Snapshots(ws[..|ws| - 1]), ws[|ws| - 1];
      if NewSnapshot(last, rest) then rest + [SnapshotItem(last)] else rest
  }

  // ---------- The merger ----------

  function AddAll(ws: seq<Widget>, items: seq<Item>): (r: seq<Widget>)
    ensures |r| == |ws| + |items| && ws <= r
  {
    if items == [] then ws
    else
      var before := AddAll(ws, items[..|items| - 1]);
      before + [Placed(before, items[|items| - 1])]
  }

  lemma {:induction false} AddAllAppend(ws: seq<Widget>, items: seq<Item>, item: Item)
    ensures AddAll(ws, items + [item]) == AddAll(ws, items) + [Placed(AddAll(ws, items), item)]
  {
    assert (items + [item])[..|items|] == items;
  }

  lemma {:induction false} AddAllConcat(ws: seq<Widget>, a: seq<Item>, b: seq<Item>)
    ensures AddAll(ws, a + b) == AddAll(AddAll(ws, a), b)
  {
    if b == [] {
      assert a + b == a;
    } else {
      var init, last := b[..|b| - 1], b[|b| - 1];
      assert a + b == (a + init) + [last];
      AddAllConcat(ws, a, init);
      AddAllAppend(ws, a + init, last);
    }
  }

  function Additions(original: seq<Widget>, queries: seq<Query>, groups: set<string>): seq<Item> {
    Generated(queries, groups) + Snapshots(original)
  }

  function Unified(original: Document, queries: seq<Query>, groups: set<string>): Document {
    Document(Some("-PT3H"), original.other,
             AddAll(Kept(original.widgets), Additions(original.widgets, queries, groups)))
  }

  // ---------- Layout ----------

  /** A grid cell the widget occupies. A kept widget that does not give its columns may occupy any column. */
  ghost predicate Covers(w: Widget, column: int, row: int) {
    && GetOr(w.y, 0) <= row < BottomOf(w)
    && (w.x.Some? && w.width.Some? ==> w.x.value <= column < w.x.value + w.width.value)
  }

  /** The item lists the merger builds: full or half width, never opening with a half. */
  ghost predicate LayoutItems(items: seq<Item>) {
    && (forall i :: 0 <= i < |items| ==> items[i].width == COLUMNS || items[i].width == HALF)
    && (items != [] ==> items[0].width == COLUMNS)
  }

  ghost predicate IsRightHalf(ws: seq<Widget>, n: nat, j: nat)
    requires j < |ws|
  {
    && n < j && IsOpenLeftHalf(ws[j - 1])
    && ws[j].x == Some(HALF) && ws[j].width == Some(HALF) && ws[j].y == ws[j - 1].y
  }

  ghost predicate IsBelowAll(ws: seq<Widget>, j: nat)
    requires j < |ws|
  {
    && ws[j].x == Some(0) && (ws[j].width == Some(COLUMNS) || ws[j].width == Some(HALF)) && ws[j].y.Some?
    && forall i :: 0 <= i < j ==> BottomOf(ws[i]) <= ws[j].y.value
  }

  ghost predicate Tidy(ws: seq<Widget>, n: nat) {
    forall j :: n <= j < |ws| ==> IsBelowAll(ws, j) || IsRightHalf(ws, n, j)
  }

  lemma {:induction false} AddedTidy(base: seq<Widget>, items: seq<Item>)
    requires LayoutItems(items)
    ensures Tidy(AddAll(base, items), |base|)
  {
    if items != [] {
      var init := items[..|items| - 1];
      AddedTidy(base, init);
      var before, ws := AddAll(base, init), AddAll(base, items);
      var last := |ws| - 1;
      assert ws[..last] == before;
      forall j | |base| <= j < |ws| ensures IsBelowAll(ws, j) || IsRightHalf(ws, |base|, j) {
        if j < last {
          assert IsBelowAll(before, j) || IsRightHalf(before, |base|, j);
        }
      }
    }
  }

  ghost predicate FitsGrid(w: Widget) {
    && w.x.Some? && w.y.Some? && w.width.Some? && w.height.Some?
    && 0 <= w.x.value && w.x.value + w.width.value <= COLUMNS
  }

  lemma {:induction false} TidyFits(ws: seq<Widget>, n: nat, j: nat)
    requires Tidy(ws, n) && n <= j < |ws| && ws[j].height.Some?
    ensures FitsGrid(ws[j])
  {
    if !IsBelowAll(ws, j) {
      assert IsRightHalf(ws, n, j);
      assert IsBelowAll(ws, j - 1) || IsRightHalf(ws, n, j - 1);
    }
  }

  lemma {:induction false} TidyCellsDisjoint(ws: seq<Widget>, n: nat, i: nat, j: nat, column: int, row: int)
    requires Tidy(ws, n) && i < j < |ws| && n <= j
    ensures !(Covers(ws[i], column, row) && Covers(ws[j], column, row))
  {
    if !IsBelowAll(ws, j) {
      assert IsRightHalf(ws, n, j);
      assert IsBelowAll(ws, j - 1) || IsRightHalf(ws, n, j - 1);
    }
  }

  ghost predicate FromSnapshot(item: Item, ws: seq<Widget>) {
    exists k :: 0 <= k < |ws| && IsSnapshot(ws[k]) && item == SnapshotItem(ws[k])
  }

  lemma {:induction false} SnapshotsFromWidgets(ws: seq<Widget>)
    ensures forall i :: 0 <= i < |Snapshots(ws)| ==> FromSnapshot(Snapshots(ws)[i], ws)
  {
    if ws != [] {
      var init, last := ws[..|ws| - 1], ws[|ws| - 1];
      SnapshotsFromWidgets(init);
      forall item | FromSnapshot(item, init) ensures FromSnapshot(item, ws) {
        var k :| 0 <= k < |init| && IsSnapshot(init[k]) && item == SnapshotItem(init[k]);
        assert ws[k] == init[k];
      }
      assert IsSnapshot(last) ==> FromSnapshot(SnapshotItem(last), ws);
    }
  }

  lemma {:induction false} AdditionsLaidOut(original: seq<Widget>, queries: seq<Query>, groups: set<string>)
    ensures LayoutItems(Additions(original, queries, groups))
  {
    AdditionsOwned(original, queries, groups);
    SnapshotsFromWidgets(original);
  }

  /** Every added widget fits the grid, and shares no cell with a kept widget or with another added one. */
  lemma {:induction false} LayoutSound(original: Document, queries: seq<Query>, groups: set<string>)
    ensures var ws := Unified(original, queries, groups).widgets;
            var n := |Kept(original.widgets)|;
            && (forall j :: n <= j < |ws| ==> FitsGrid(ws[j]))
            && (forall i, j, column, row :: 0 <= i < j < |ws| && n <= j ==>
                  !(Covers(ws[i], column, row) && Covers(ws[j], column, row)))
  {
    var base, items := Kept(original.widgets), Additions(original.widgets, queries, groups);
    AdditionsLaidOut(original.widgets, queries, groups);
    AddedTidy(base, items);
    AddedKeepsItem(base, items);
    var ws := AddAll(base, items);
    forall j | |base| <= j < |ws| ensures FitsGrid(ws[j]) {
      assert Shows(ws[j], items[j - |base|]);
      TidyFits(ws, |base|, j);
    }
    forall i, j, column, row | 0 <= i < j < |ws| && |base| <= j
      ensures !(Covers(ws[i], column, row) && Covers(ws[j], column, row))
    {
      TidyCellsDisjoint(ws, |base|, i, j, column, row);
    }
  }

  // ---------- Survivors and fixpoint ----------

  ghost predicate Shows(w: Widget, item: Item) {
    && w.kind == item.kind && w.properties == Some(item.properties)
    && w.width == Some(item.width) && w.height == Some(item.height)
  }

  lemma {:induction false} AddedShowsItem(base: seq<Widget>, items: seq<Item>, j: nat)
    requires |base| <= j < |base| + |items|
    ensures Shows(AddAll(base, items)[j], items[j - |base|])
    decreases |items|
  {
    var init := items[..|items| - 1];
    if j < |base| + |init| {
      AddedShowsItem(base, init, j);
      assert AddAll(base, items)[j] == AddAll(base, init)[j];
    }
  }

  /** Placing decides only the position: kind, properties and size come from the item. */
  lemma {:induction false} AddedKeepsItem(base: seq<Widget>, items: seq<Item>)
    ensures forall j :: |base| <= j < |base| + |items| ==> Shows(AddAll(base, items)[j], items[j - |base|])
  {
    forall j | |base| <= j < |base| + |items| ensures Shows(AddAll(base, items)[j], items[j - |base|]) {
      AddedShowsItem(base, items, j);
    }
  }

  predicate OwnedItem(item: Item) {
    StartsWithAny(Lookup(item.properties, "title"), TITLES)
      || StartsWithAny(Lookup(item.properties, "markdown"), HEADINGS)
    || IsSnapshotItem(item)
  }

  predicate IsSnapshotItem(item: Item) {
    IsSnapshotText(Lookup(item.properties, "markdown"))
  }

  lemma {:induction false} KeptDropsOwned(base: seq<Widget>, items: seq<Item>)
    requires forall i :: 0 <= i < |items| ==> OwnedItem(items[i])
    ensures Kept(AddAll(base, items)) == Kept(base)
  {
    if items != [] {
      var init, last := items[..|items| - 1], items[|items| - 1];
      KeptDropsOwned(base, init);
      var ws := AddAll(base, items);
      assert ws[..|ws| - 1] == AddAll(base, init);
      assert OwnedItem(last) && Owned(ws[|ws| - 1]);
    }
  }

  lemma {:induction false} KeptUnowned(ws: seq<Widget>)
    ensures forall i :: 0 <= i < |Kept(ws)| ==> !Owned(Kept(ws)[i])
    ensures Kept(Kept(ws)) == Kept(ws)
  {
    if ws != [] {
      KeptUnowned(ws[..|ws| - 1]);
      var rest, last := Kept(ws[..|ws| - 1]), ws[|ws| - 1];
      if !Owned(last) {
        assert (rest + [last])[..|rest|] == rest;
      }
    }
  }

  /** A generated heading is not a snapshot: stripping its marks leaves text that does not open with the snapshot's. */
  lemma {:induction false} HeadingNotSnapshot(markdown: string)
    requires "### " <= markdown && |markdown| > 4 && markdown[4] !in {'#', ' ', 'P'}
    ensures !IsSnapshotText(markdown)
  {
    assert markdown[0] == '#' && markdown[1] == '#' && markdown[2] == '#' && markdown[3] == ' ';
    assert Lstrip(markdown) == Lstrip(markdown[1..]);
    assert markdown[1..][1..] == markdown[2..] && markdown[2..][1..] == markdown[3..]
           && markdown[3..][1..] == markdown[4..];
    assert Lstrip(markdown[1..]) == Lstrip(markdown[2..]);
    assert Lstrip(markdown[2..]) == Lstrip(markdown[3..]);
    assert Lstrip(markdown[3..]) == Lstrip(markdown[4..]) == markdown[4..];
    assert SNAPSHOT[0] == 'P';
  }

  /** Recognised by a later run, not taken for a snapshot, and of a width the layout handles. */
  ghost predicate GeneratedItem(item: Item) {
    OwnedItem(item) && !IsSnapshotItem(item) && (item.width == COLUMNS || item.width == HALF)
  }

  lemma {:induction false} OverviewGenerated()
    ensures GeneratedItem(OVERVIEW_ITEM)
  {
    var text := Lookup(OVERVIEW_ITEM.properties, "markdown");
    assert text == OVERVIEW && HEADINGS[1] <= text;
    HeadingNotSnapshot(text);
  }

  lemma {:induction false} HeadingGenerated(env: Environment, rest: string, height: int)
    ensures GeneratedItem(Text("### LOG " + env.Upper() + rest, height))
  {
    var text := "### LOG " + env.Upper() + rest;
    assert Lookup(Text(text, height).properties, "markdown") == text;
    if env.PROD? {
      assert "### LOG " + "PROD" == HEADINGS[3] && HEADINGS[3] <= text;
    } else {
      assert "### LOG " + "DEV" == HEADINGS[2] && HEADINGS[2] <= text;
    }
    assert "### " <= text && text[4] == 'L';
    HeadingNotSnapshot(text);
  }

  lemma {:induction false} GraphGenerated(q: Query, env: Environment, source: string)
    ensures GeneratedItem(Graph(q, env, source))
  {
    var item := Graph(q, env, source);
    var title := Lookup(item.properties, "title");
    assert title == "LOG " + env.Upper() + " | " + q.title;
    if env.PROD? {
      assert "LOG " + "PROD" + " | " == TITLES[3] && TITLES[3] <= title;
    } else {
      assert "LOG " + "DEV" + " | " == TITLES[2] && TITLES[2] <= title;
    }
    assert Lookup(item.properties, "markdown") == "";
  }

  ghost predicate AllGenerated(items: seq<Item>) {
    forall i :: 0 <= i < |items| ==> GeneratedItem(items[i])
  }

  lemma {:induction false} GraphsGenerated(queries: seq<Query>, env: Environment, c: Category)
    ensures AllGenerated(Graphs(queries, env, c))
  {
    if queries != [] {
      GraphsGenerated(queries[..|queries| - 1], env, c);
      GraphGenerated(queries[|queries| - 1], env, c.source);
    }
  }

  lemma {:induction false} SectionsGenerated(queries: seq<Query>, groups: set<string>, env: Environment,
        cs: seq<Category>)
    ensures AllGenerated(Sections(queries, groups, env, cs))
  {
    if cs != [] {
      var c := cs[|cs| - 1];
      SectionsGenerated(queries, groups, env, cs[..|cs| - 1]);
      HeadingGenerated(env, " · " + c.title, 3);
      HeadingGenerated(env, " · " + c.source + " 수집 대기", 2);
      GraphsGenerated(queries, env, c);
    }
  }

  lemma {:induction false} AdditionsOwned(original: seq<Widget>, queries: seq<Query>, groups: set<string>)
    ensures AllGenerated(Generated(queries, groups))
    ensures forall i :: 0 <= i < |Additions(original, queries, groups)| ==>
            OwnedItem(Additions(original, queries, groups)[i])
  {
    OverviewGenerated();
    SectionsGenerated(queries, groups, PROD, CATEGORIES);
    SectionsGenerated(queries, groups, DEV, CATEGORIES);
    SnapshotsFromWidgets(original);
  }

  /** Unowned widgets survive unmodified and in order, at the front; everything after them is owned. */
  lemma {:induction false} UnownedSurvive(original: Document, queries: seq<Query>, groups: set<string>)
    ensures var out := Unified(original, queries, groups);
            && Kept(original.widgets) <= out.widgets
            && Kept(out.widgets) == Kept(original.widgets)
            && out.other == original.other
  {
    AdditionsOwned(original.widgets, queries, groups);
    KeptDropsOwned(Kept(original.widgets), Additions(original.widgets, queries, groups));
    KeptUnowned(original.widgets);
  }

  lemma {:induction false} GeneratedAddNoSnapshot(base: seq<Widget>, items: seq<Item>)
    requires forall i :: 0 <= i < |items| ==> !IsSnapshotItem(items[i])
    ensures Snapshots(AddAll(base, items)) == Snapshots(base)
  {
    if items != [] {
      var init, ws := items[..|items| - 1], AddAll(base, items);
      GeneratedAddNoSnapshot(base, init);
      assert ws[..|ws| - 1] == AddAll(base, init);
      assert !IsSnapshotItem(items[|items| - 1]) && !IsSnapshot(ws[|ws| - 1]);
    }
  }

  /** A widget that shows a snapshot item is read back as that item, unless its text has been seen. */
  lemma {:induction false} ReadBack(w: Widget, items: seq<Item>, last: Item)
    requires IsSnapshotItem(last) && last.kind == "text" && last.width == COLUMNS
    requires PropertiesOf(w) == last.properties && Height(w) == last.height
    requires Property(w, "markdown") == Lookup(last.properties, "markdown")
    requires !Seen(items, Lookup(last.properties, "markdown"))
    ensures NewSnapshot(w, items) && SnapshotItem(w) == last
  {
  }

  lemma {:induction false} PlacedShows(ws: seq<Widget>, item: Item)
    ensures PropertiesOf(Placed(ws, item)) == item.properties && Height(Placed(ws, item)) == item.height
    ensures Property(Placed(ws, item), "markdown") == Lookup(item.properties, "markdown")
  {
  }

  lemma {:induction false} SnapshotsOneMore(ws: seq<Widget>, w: Widget)
    ensures Snapshots(ws + [w]) ==
            if NewSnapshot(w, Snapshots(ws)) then Snapshots(ws) + [SnapshotItem(w)] else Snapshots(ws)
  {
    assert (ws + [w])[..|ws|] == ws;
  }

  lemma {:induction false} LastUnseen(items: seq<Item>)
    requires items != [] && DistinctTexts(items)
    ensures !Seen(items[..|items| - 1], Lookup(items[|items| - 1].properties, "markdown"))
    ensures DistinctTexts(items[..|items| - 1])
  {
    var init := items[..|items| - 1];
    forall i | 0 <= i < |init|
      ensures Lookup(init[i].properties, "markdown") != Lookup(items[|items| - 1].properties, "markdown")
    {
      assert init[i] == items[i];
    }
  }

  /** Reading the snapshots back from the laid-out widgets returns the snapshot items that were laid out. */
  lemma {:induction false} SnapshotsReadBack(base: seq<Widget>, items: seq<Item>)
    requires Snapshots(base) == [] && DistinctTexts(items)
    requires forall i :: 0 <= i < |items| ==>
             IsSnapshotItem(items[i]) && items[i].kind == "text" && items[i].width == COLUMNS
    ensures Snapshots(AddAll(base, items)) == items
  {
    if items != [] {
      var init, last := items[..|items| - 1], items[|items| - 1];
      LastUnseen(items);
      SnapshotsReadBack(base, init);
      PlacedShows(AddAll(base, init), last);
      ReadBack(Placed(AddAll(base, init), last), init, last);
      SnapshotsOneMore(AddAll(base, init), Placed(AddAll(base, init), last));
      assert init + [last] == items;
    }
  }

  ghost predicate DistinctTexts(items: seq<Item>) {
    forall i, j :: 0 <= i < j < |items| ==>
      Lookup(items[i].properties, "markdown") != Lookup(items[j].properties, "markdown")
  }

  lemma {:induction false} SnapshotsDistinct(ws: seq<Widget>)
    ensures DistinctTexts(Snapshots(ws))
  {
    if ws != [] {
      SnapshotsDistinct(ws[..|ws| - 1]);
    }
  }

  lemma {:induction false} SeenAppend(items: seq<Item>, item: Item)
    ensures forall text :: Seen(items + [item], text) <==>
            Seen(items, text) || Lookup(item.properties, "markdown") == text
  {
    forall text ensures Seen(items + [item], text) <==>
      Seen(items, text) || Lookup(item.properties, "markdown") == text {
      var all := items + [item];
      assert all[|items|] == item;
      assert forall i :: 0 <= i < |items| ==> all[i] == items[i];
    }
  }

  ghost predicate Carries(ws: seq<Widget>, text: string) {
    exists k :: 0 <= k < |ws| && IsSnapshot(ws[k]) && Property(ws[k], "markdown") == text
  }

  lemma {:induction false} SnapshotsCarry(ws: seq<Widget>, text: string)
    ensures Seen(Snapshots(ws), text) <==> Carries(ws, text)
  {
    if ws != [] {
      var init, last := ws[..|ws| - 1], ws[|ws| - 1];
      var rest, all := Snapshots(init), Snapshots(ws);
      SnapshotsCarry(init, text);
      var here := IsSnapshot(last) && Property(last, "markdown") == text;
      assert Carries(ws, text) <==> Carries(init, text) || here by {
        assert Carries(init, text) ==>
                 exists k :: 0 <= k < |init| && IsSnapshot(ws[k]) && Property(ws[k], "markdown") == text;
      }
      assert Seen(all, text) <==> Seen(rest, text) || here by {
        if NewSnapshot(last, rest) {
          SeenAppend(rest, SnapshotItem(last));
        }
      }
    }
  }

  lemma {:induction false} NoSnapshots(ws: seq<Widget>)
    requires forall i :: 0 <= i < |ws| ==> !IsSnapshot(ws[i])
    ensures Snapshots(ws) == []
  {
    if ws != [] {
      NoSnapshots(ws[..|ws| - 1]);
    }
  }

  lemma {:induction false} OutputSnapshots(original: Document, queries: seq<Query>, groups: set<string>)
    ensures Snapshots(Unified(original, queries, groups).widgets) == Snapshots(original.widgets)
  {
    var base := Kept(original.widgets);
    KeptUnowned(original.widgets);
    NoSnapshots(base);
    AdditionsOwned(original.widgets, queries, groups);
    SnapshotsFromWidgets(original.widgets);
    SnapshotsDistinct(original.widgets);
    var generated, snapshots := Generated(queries, groups), Snapshots(original.widgets);
    GeneratedAddNoSnapshot(base, generated);
    SnapshotsReadBack(AddAll(base, generated), snapshots);
    AddAllConcat(base, generated, snapshots);
  }

  /** Rebuilding is a fixpoint: merging the merger's own output again changes nothing. */
  lemma {:induction false} RebuildIsFixpoint(original: Document, queries: seq<Query>, groups: set<string>)
    ensures var out := Unified(original, queries, groups);
            Unified(out, queries, groups) == out
  {
    UnownedSurvive(original, queries, groups);
    OutputSnapshots(original, queries, groups);
  }

  lemma {:induction false} SnapshotsComeLast(base: seq<Widget>, generated: seq<Item>, snapshots: seq<Item>, j: nat)
    requires forall i :: 0 <= i < |base| ==> !IsSnapshot(base[i])
    requires AllGenerated(generated)
    ensures var ws, n := AddAll(base, generated + snapshots), |base| + |generated|;
            && (j < n ==> !IsSnapshot(ws[j]))
            && (n <= j < |ws| ==> Property(ws[j], "markdown") == Lookup(snapshots[j - n].properties, "markdown"))
  {
    AddedKeepsItem(base, generated + snapshots);
    if |base| <= j < |base| + |generated + snapshots| {
      assert Shows(AddAll(base, generated + snapshots)[j], (generated + snapshots)[j - |base|]);
      assert j < |base| + |generated| ==> GeneratedItem(generated[j - |base|]);
    }
  }

  /** The output carries exactly the snapshot texts of the original, each of them once. */
  lemma {:induction false} SnapshotTextsOnce(original: Document, queries: seq<Query>, groups: set<string>)
    ensures var out := Unified(original, queries, groups).widgets;
            && (forall text :: Carries(out, text) <==> Carries(original.widgets, text))
            && (forall i, j :: 0 <= i < j < |out| && IsSnapshot(out[i]) && IsSnapshot(out[j]) ==>
                  Property(out[i], "markdown") != Property(out[j], "markdown"))
  {
    var out := Unified(original, queries, groups).widgets;
    forall text ensures Carries(out, text) <==> Carries(original.widgets, text) {
      OutputSnapshots(original, queries, groups);
      SnapshotsCarry(out, text);
      SnapshotsCarry(original.widgets, text);
    }
    forall i, j | 0 <= i < j < |out| && IsSnapshot(out[i]) && IsSnapshot(out[j])
      ensures Property(out[i], "markdown") != Property(out[j], "markdown")
    {
      var base, generated, snapshots := Kept(original.widgets), Generated(queries, groups), Snapshots(original.widgets);
      KeptUnowned(original.widgets);
      AdditionsOwned(original.widgets, queries, groups);
      SnapshotsComeLast(base, generated, snapshots, i);
      SnapshotsComeLast(base, generated, snapshots, j);
      SnapshotsDistinct(original.widgets);
    }
  }

  // ---------- The dashboard being built ----------

  class Body {
    var start: Option<string>
    var other: Properties
    var widgets: seq<Widget>

    ghost function Contents(): Document
      reads this
    {
      Document(start, other, widgets)
    }

    /** The copy of the original without the widgets an earlier run added. */
    constructor Base(original: Document)
      ensures Contents() == Document(original.start, original.other, Kept(original.widgets))
    {
      start, other := original.start, original.other;
      widgets := Kept(original.widgets);
    }

    method AddWidget(item: Item)
      // joining a left half reads its row, which must be present
      requires Pairs(widgets, item.width) ==> widgets[|widgets| - 1].y.Some?
      modifies this`widgets
      ensures widgets == old(widgets) + [Placed(old(widgets), item)]
    {
      var x, y := 0, Bottom(widgets);
      if item.width == HALF && widgets != [] {
        var last := widgets[|widgets| - 1];
        if last.width == Some(HALF) && last.x == Some(0) {
          x, y := HALF, last.y.value;
        }
      }
      var widget := Widget(item.kind, Some(x), Some(y), Some(item.width), Some(item.height), Some(item.properties));
      widgets := widgets + [widget];
    }
  }

  /** The widgets being added after `before`, as far as the items `done`; the last one's row is known. */
  ghost predicate Progress(ws: seq<Widget>, before: seq<Widget>, done: seq<Item>) {
    ws == AddAll(before, done) && (done != [] ==> ws[|ws| - 1].y.Some?)
  }

  lemma {:induction false} ProgressStep(before: seq<Widget>, done: seq<Item>, item: Item)
    ensures Progress(AddAll(before, done) + [Placed(AddAll(before, done), item)], before, done + [item])
  {
    AddAllAppend(before, done, item);
  }

  lemma {:induction false} GraphsOneMore(queries: seq<Query>, k: nat, env: Environment, c: Category)
    requires k < |queries|
    ensures Graphs(queries[..k + 1], env, c) ==
            Graphs(queries[..k], env, c) +
              if Shown(queries[k], c.name) then [Graph(queries[k], env, c.source)] else []
  {
    assert queries[..k + 1][..k] == queries[..k];
  }

  /** The graphs of one section, in the order of the queries, below the heading just placed. */
  method AddGraphs(body: Body, queries: seq<Query>, env: Environment, c: Category)
    requires body.widgets != [] && body.widgets[|body.widgets| - 1].y.Some?
    modifies body`widgets
    ensures body.widgets == AddAll(old(body.widgets), Graphs(queries, env, c))
  {
    ghost var before, done := body.widgets, [];
    for k := 0 to |queries|
      invariant done == Graphs(queries[..k], env, c) && Progress(body.widgets, before, done)
    {
      GraphsOneMore(queries, k, env, c);
      if Shown(queries[k], c.name) {
        var graph := Graph(queries[k], env, c.source);
        ProgressStep(before, done, graph);
        body.AddWidget(graph);
        done := done + [graph];
      }
    }
    assert queries[..|queries|] == queries;
  }

  method AddSection(body: Body, queries: seq<Query>, groups: set<string>, env: Environment, c: Category)
    modifies body`widgets
    ensures body.widgets == AddAll(old(body.widgets), Section(queries, groups, env, c))
  {
    ghost var before, heading := body.widgets, Heading(env, c.title);
    body.AddWidget(Heading(env, c.title));
    AddAllAppend(before, [], heading);
    if GroupName(env, c.source) !in groups {
      AddAllConcat(before, [heading], [Waiting(env, c.source)]);
      AddAllAppend(body.widgets, [], Waiting(env, c.source));
      body.AddWidget(Waiting(env, c.source));
    } else {
      AddAllConcat(before, [heading], Graphs(queries, env, c));
      AddGraphs(body, queries, env, c);
    }
  }

  method AddEnvironment(body: Body, queries: seq<Query>, groups: set<string>, env: Environment, cs: seq<Category>)
    modifies body`widgets
    ensures body.widgets == AddAll(old(body.widgets), Sections(queries, groups, env, cs))
  {
    ghost var before := body.widgets;
    for k := 0 to |cs|
      invariant body.widgets == AddAll(before, Sections(queries, groups, env, cs[..k]))
    {
      assert cs[..k + 1][..k] == cs[..k];
      AddAllConcat(before, Sections(queries, groups, env, cs[..k]), Section(queries, groups, env, cs[k]));
      AddSection(body, queries, groups, env, cs[k]);
    }
    assert cs[..|cs|] == cs;
  }

  ghost predicate SeenTexts(seen: set<string>, items: seq<Item>) {
    forall text :: text in seen <==> Seen(items, text)
  }

  lemma {:induction false} SeenGrows(seen: set<string>, items: seq<Item>, item: Item)
    requires SeenTexts(seen, items)
    ensures SeenTexts(seen + {Lookup(item.properties, "markdown")}, items + [item])
  {
    SeenAppend(items, item);
  }

  method AddSnapshots(body: Body, original: seq<Widget>)
    modifies body`widgets
    ensures body.widgets == AddAll(old(body.widgets), Snapshots(original))
  {
    ghost var before, done := body.widgets, [];
    var seen: set<string> := {};
    for k := 0 to |original|
      invariant done == Snapshots(original[..k]) && body.widgets == AddAll(before, done) && SeenTexts(seen, done)
    {
      assert original[..k + 1][..k] == original[..k];
      var widget := original[k];
      if IsSnapshot(widget) && Property(widget, "markdown") !in seen {
        AddAllAppend(before, done, SnapshotItem(widget));
        SeenGrows(seen, done, SnapshotItem(widget));
        body.AddWidget(SnapshotItem(widget));
        seen, done := seen + {Property(widget, "markdown")}, done + [SnapshotItem(widget)];
      }
    }
    assert original[..|original|] == original;
  }

  lemma {:induction false} AddInTurn(base: seq<Widget>, first: Item, prod: seq<Item>, dev: seq<Item>)
    ensures AddAll(AddAll(base + [Placed(base, first)], prod), dev) == AddAll(base, [first] + prod + dev)
  {
    AddAllAppend(base, [], first);
    AddAllConcat(base, [first], prod);
    AddAllConcat(base, [first] + prod, dev);
  }

  method AddGenerated(body: Body, queries: seq<Query>, groups: set<string>, cs: seq<Category>)
    modifies body`widgets
    ensures body.widgets == AddAll(old(body.widgets), AllSections(queries, groups, cs))
  {
    AddInTurn(body.widgets, OVERVIEW_ITEM, Sections(queries, groups, PROD, cs), Sections(queries, groups, DEV, cs));
    body.AddWidget(OVERVIEW_ITEM);
    AddEnvironment(body, queries, groups, PROD, cs);
    AddEnvironment(body, queries, groups, DEV, cs);
  }

  method UnifiedDashboard(original: Document, queries: seq<Query>, groups: set<string>) returns (body: Body)
    ensures fresh(body) && body.Contents() == Unified(original, queries, groups)
  {
    body := new Body.Base(original);
    body.start := Some("-PT3H");
    AddAllConcat(body.widgets, Generated(queries, groups), Snapshots(original.widgets));
    AddGenerated(body, queries, groups, CATEGORIES);
    AddSnapshots(body, original.widgets);
  }
}

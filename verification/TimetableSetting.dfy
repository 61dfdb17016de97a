/** The time grid of an audition timetable: windows on dates, cut into slots of equal length. */
module TimetableSetting {

  datatype Slot = Slot(date: int, start: int)
  datatype Window = Window(date: int, start: int, end: int)

  /** Dates count days, times count minutes. */
  datatype Setting = Setting(minutes: int, capacity: int, windows: seq<Window>)

  datatype Problem = Fine | BadMinutes | BadCapacity | BadWindowCount | BadWindow | Overlap

  const MAX_WINDOWS := 200

  // ---------- Slots ----------

  function WindowSlots(w: Window, start: int, minutes: int): seq<Slot>
    requires minutes > 0
    decreases w.end - start
  {
    if start + minutes <= w.end then [Slot(w.date, start)] + WindowSlots(w, start + minutes, minutes) else []
  }

  function SlotsFrom(windows: seq<Window>, minutes: int): seq<Slot>
    requires minutes > 0
  {
    if windows == [] then []
    else
      var last := windows[|windows| - 1];
      SlotsFrom(windows[..|windows| - 1], minutes) + WindowSlots(last, last.start, minutes)
  }

  /** The slots on offer; the order in which they are shown is of no concern here. */
  function SlotsOf(s: Setting): seq<Slot> {
    if s.minutes <= 0 then [] else SlotsFrom(s.windows, s.minutes)
  }

  function NthStart(from: int, n: nat, minutes: int): int {
    from + n * minutes
  }

  ghost predicate SlotInWindow(slot: Slot, w: Window, from: int, minutes: int) {
    slot.date == w.date && slot.start + minutes <= w.end && exists n: nat :: slot.start == NthStart(from, n, minutes)
  }

  lemma {:induction false} NextStart(from: int, n: nat, minutes: int)
    ensures NthStart(from, n + 1, minutes) == NthStart(from + minutes, n, minutes) && NthStart(from, 0, minutes) == from
    ensures minutes > 0 ==> NthStart(from, n, minutes) >= from
  {
  }

  lemma {:induction false} WindowSlotsExact(w: Window, start: int, minutes: int, slot: Slot)
    requires minutes > 0
    ensures slot in WindowSlots(w, start, minutes) <==> SlotInWindow(slot, w, start, minutes)
    decreases w.end - start
  {
    if start + minutes <= w.end {
      WindowSlotsExact(w, start + minutes, minutes, slot);
      NextStart(start, 0, minutes);
      var next := start + minutes;
      if n: nat :| slot.start == NthStart(next, n, minutes) {
        NextStart(start, n, minutes);
      }
      if n: nat :| slot.start == NthStart(start, n, minutes) && n > 0 {
        NextStart(start, n - 1, minutes);
      }
    } else if n: nat :| slot.start == NthStart(start, n, minutes) {
      NextStart(start, n, minutes);
    }
  }

  /** A slot is offered iff it starts a whole number of slot lengths into some window and ends within it. */
  lemma {:induction false} SlotsExact(windows: seq<Window>, minutes: int, slot: Slot)
    requires minutes > 0
    ensures slot in SlotsFrom(windows, minutes) <==>
            exists k :: 0 <= k < |windows| && SlotInWindow(slot, windows[k], windows[k].start, minutes)
  {
    if windows != [] {
      var init, last := windows[..|windows| - 1], windows[|windows| - 1];
      SlotsExact(init, minutes, slot);
      WindowSlotsExact(last, last.start, minutes, slot);
      assert forall k :: 0 <= k < |init| ==> init[k] == windows[k];
    }
  }

  // ---------- Checking a setting ----------

  predicate Overlaps(a: Window, b: Window) {
    a.date == b.date && a.start < b.end && b.start < a.end
  }

  ghost predicate Separate(ws: seq<Window>) {
    forall i, j :: 0 <= i < j < |ws| ==> !Overlaps(ws[i], ws[j])
  }

  predicate WellFormed(w: Window, minutes: int) {
    w.start < w.end && w.end - w.start >= minutes
  }

  /** All that a setting has to meet besides its windows keeping apart. */
  ghost predicate Plausible(s: Setting) {
    && 5 <= s.minutes <= 240 && s.minutes % 5 == 0 && 1 <= s.capacity <= 50
    && 0 < |s.windows| <= MAX_WINDOWS
    && forall k :: 0 <= k < |s.windows| ==> WellFormed(s.windows[k], s.minutes)
  }

  ghost predicate ValidSetting(s: Setting) {
    Plausible(s) && Separate(s.windows)
  }

  predicate Earlier(a: Window, b: Window) {
    a.date < b.date || (a.date == b.date && a.start <= b.start)
  }

  function Insert(w: Window, sorted: seq<Window>): seq<Window> {
    if sorted == [] || Earlier(w, sorted[0]) then [w] + sorted else [sorted[0]] + Insert(w, sorted[1..])
  }

  function Sorted(ws: seq<Window>): seq<Window> {
    if ws == [] then [] else Insert(ws[0], Sorted(ws[1..]))
  }

  ghost predicate InOrder(ws: seq<Window>) {
    forall i, j :: 0 <= i < j < |ws| ==> Earlier(ws[i], ws[j])
  }

  lemma {:induction false} InsertExact(w: Window, sorted: seq<Window>)
    requires InOrder(sorted)
    ensures InOrder(Insert(w, sorted)) && forall x :: x in Insert(w, sorted) <==> x == w || x in sorted
  {
    if sorted != [] && !Earlier(w, sorted[0]) {
      InsertExact(w, sorted[1..]);
      var rest := Insert(w, sorted[1..]);
      assert forall x :: x in sorted <==> x == sorted[0] || x in sorted[1..];
      forall i | 0 <= i < |rest| ensures Earlier(sorted[0], rest[i]) {
        assert rest[i] in rest;
      }
    }
  }

  ghost predicate Apart(w: Window, ws: seq<Window>) {
    forall x :: x in ws ==> !Overlaps(w, x)
  }

  lemma {:induction false} SeparateCons(w: Window, ws: seq<Window>)
    ensures Separate([w] + ws) <==> Apart(w, ws) && Separate(ws)
  {
    var all := [w] + ws;
    if Separate(all) {
      forall x | x in ws ensures !Overlaps(w, x) {
        var k :| 0 <= k < |ws| && ws[k] == x;
        assert all[k + 1] == x && all[0] == w;
      }
      assert forall i :: 0 <= i < |ws| ==> ws[i] == all[i + 1];
    }
    if Apart(w, ws) && Separate(ws) {
      forall i, j | 0 <= i < j < |all| ensures !Overlaps(all[i], all[j]) {
        assert all[j] == ws[j - 1] && all[j] in ws;
      }
    }
  }

  lemma {:induction false} InsertSeparate(w: Window, sorted: seq<Window>)
    requires InOrder(sorted)
    ensures Separate(Insert(w, sorted)) <==> Apart(w, sorted) && Separate(sorted)
  {
    if sorted == [] || Earlier(w, sorted[0]) {
      SeparateCons(w, sorted);
    } else {
      var first, rest := sorted[0], sorted[1..];
      InsertSeparate(w, rest);
      InsertExact(w, rest);
      SeparateCons(first, Insert(w, rest));
      SeparateCons(first, rest);
      assert [first] + rest == sorted;
      assert w in Insert(w, rest) && first in sorted;
      assert Apart(w, sorted) <==> !Overlaps(w, first) && Apart(w, rest);
      assert Apart(first, Insert(w, rest)) <==> !Overlaps(first, w) && Apart(first, rest);
    }
  }

  lemma {:induction false} SortedExact(ws: seq<Window>)
    ensures InOrder(Sorted(ws)) && (forall x :: x in Sorted(ws) <==> x in ws)
    ensures Separate(Sorted(ws)) <==> Separate(ws)
  {
    if ws != [] {
      var first, rest := ws[0], ws[1..];
      SortedExact(rest);
      InsertExact(first, Sorted(rest));
      InsertSeparate(first, Sorted(rest));
      SeparateCons(first, rest);
      assert [first] + rest == ws;
    }
  }

  ghost predicate NeighboursApart(ws: seq<Window>) {
    forall i, j :: 0 <= i && j == i + 1 < |ws| ==> !(ws[i].date == ws[j].date && ws[j].start < ws[i].end)
  }

  /** In date and start order an overlap anywhere shows between two neighbours, so comparing those is enough. */
  lemma {:induction false} NeighboursSuffice(ws: seq<Window>)
    requires InOrder(ws) && forall k :: 0 <= k < |ws| ==> ws[k].start < ws[k].end
    ensures NeighboursApart(ws) <==> Separate(ws)
  {
    if NeighboursApart(ws) {
      forall i, j | 0 <= i < j < |ws| ensures !Overlaps(ws[i], ws[j]) {
        var next := i + 1;
        assert Earlier(ws[i], ws[next]) && (next < j ==> Earlier(ws[next], ws[j]));
        assert Earlier(ws[i], ws[j]);
      }
    }
    if Separate(ws) {
      forall i, j | 0 <= i && j == i + 1 < |ws| ensures !(ws[i].date == ws[j].date && ws[j].start < ws[i].end) {
        assert Earlier(ws[i], ws[j]) && !Overlaps(ws[i], ws[j]);
      }
    }
  }

  /** Reports the first problem of a setting. When nothing else is wrong, an overlap is reported iff some two windows
      of a date overlap. */
  method SettingProblem(s: Setting) returns (problem: Problem)
    ensures problem == Fine <==> ValidSetting(s)
    ensures problem == Overlap <==> Plausible(s) && !Separate(s.windows)
  {
    if s.minutes < 5 || s.minutes > 240 || s.minutes % 5 != 0 {
      return BadMinutes;
    }
    if s.capacity < 1 || s.capacity > 50 {
      return BadCapacity;
    }
    if |s.windows| == 0 || |s.windows| > MAX_WINDOWS {
      return BadWindowCount;
    }
    for k := 0 to |s.windows|
      invariant forall i :: 0 <= i < k ==> WellFormed(s.windows[i], s.minutes)
    {
      if !WellFormed(s.windows[k], s.minutes) {
        return BadWindow;
      }
    }
    var sorted := Sorted(s.windows);
    SortedExact(s.windows);
    forall k | 0 <= k < |sorted| ensures sorted[k].start < sorted[k].end {
      assert sorted[k] in s.windows;
    }
    NeighboursSuffice(sorted);
    for k := 1 to |sorted|
      invariant forall i, j :: 0 <= i && j == i + 1 < k ==>
                !(sorted[i].date == sorted[j].date && sorted[j].start < sorted[i].end)
    {
      if sorted[k - 1].date == sorted[k].date && sorted[k].start < sorted[k - 1].end {
        return Overlap;
      }
    }
    problem := Fine;
  }
}

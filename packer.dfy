/**
 * The day-calendar layout engine (components/calendar/Packer.tsx).
 *
 * `PopulateEvents` takes a day's meetings, tags each with its input position, sorts them by
 * (start, end), sweeps them into collision clusters, packs every cluster greedily into columns
 * and gives each meeting a rectangle: `left` and `width` from its column and its span, `top` and
 * `height` from its own interval.
 *
 * Instants are whole minutes on the local clock; pixel geometry is exact `real` arithmetic.
 * The methods follow the source's loops; the functions beside them are their specifications,
 * and the properties of those functions are proved in module PackerProofs.
 */
module Packer {
  import opened Wrappers

  /** Pixels per hour of the day view (`offset`). */
  const PixelsPerHour: real := 100.0
  /** Horizontal gap taken off every computed width. */
  const Gutter: real := 10.0
  const MinutesPerHour: int := 60
  const MinutesPerDay: int := 1440

  /** A meeting as the engine reads it: `scheduled.startDateTime` and `scheduled.endDateTime`. */
  datatype Event = Event(start: int, end: int)

  /** The shallow copy `{...ev, index}`: a meeting and its position in the caller's list. */
  datatype Tagged = Tagged(index: nat, start: int, end: int)

  /** A column holds meetings in the order they were placed; a cluster is a list of columns. */
  type Column = seq<Tagged>
  type Cluster = seq<Column>

  /** A laid-out meeting: the tagged copy and the four fields `buildEvent` writes onto it. */
  datatype Layout = Layout(ev: Tagged, top: real, height: real, left: real, width: real)

  // ---------------------------------------------------------------------------------------------
  // Tagging, collision and ordering
  // ---------------------------------------------------------------------------------------------

  /** `events.map((ev, index) => ({...ev, index}))`: the caller's meetings stay untouched. */
  function Tag(events: seq<Event>): (r: seq<Tagged>)
    ensures |r| == |events|
    ensures forall k :: 0 <= k < |r| ==> r[k].index == k
    ensures forall k :: 0 <= k < |r| ==> r[k].start == events[k].start && r[k].end == events[k].end
  {
    seq(|events|, k requires 0 <= k < |events| => Tagged(k, events[k].start, events[k].end))
  }

  /** Minute `t` falls within the meeting's half-open interval [start, end). */
  predicate Covers(ev: Tagged, t: int) {
    ev.start <= t < ev.end
  }

  /**
   * `collision(a, b)`: each meeting ends after the other starts. For two meetings that each last
   * at least a minute, that is exactly sharing a minute.
   */
  predicate Collide(a: Tagged, b: Tagged)
    ensures a.start < a.end && b.start < b.end ==>
      (Collide(a, b) <==> exists t :: Covers(a, t) && Covers(b, t))
  {
    var t := if a.start < b.start then b.start else a.start;
    assert a.end > b.start && a.start < b.end && a.start < a.end && b.start < b.end ==> Covers(a, t) && Covers(b, t);
    a.end > b.start && a.start < b.end
  }

  /** The sort comparator: by start, then by end; 0 exactly when both instants agree. */
  function Compare(a: Tagged, b: Tagged): (r: int)
    ensures -1 <= r <= 1
    ensures r == 0 <==> a.start == b.start && a.end == b.end
    ensures r < 0 <==> a.start < b.start || (a.start == b.start && a.end < b.end)
  {
    if a.start < b.start then -1
    else if a.start > b.start then 1
    else if a.end < b.end then -1
    else if a.end > b.end then 1
    else 0
  }

  /** Ascending by start, ties by ascending end. */
  predicate Sorted(s: seq<Tagged>) {
    forall i, j :: 0 <= i < j < |s| ==> Compare(s[i], s[j]) <= 0
  }

  /** Inserts `x` before the first element that does not come strictly before it. */
  function Insert(x: Tagged, s: seq<Tagged>): (r: seq<Tagged>)
    requires Sorted(s)
    ensures Sorted(r)
    ensures multiset(r) == multiset(s) + multiset{x}
  {
    if s == [] then [x]
    else if Compare(x, s[0]) <= 0 then [x] + s
    else
      var rest := Insert(x, s[1..]);
      InsertBelowHead(x, s, rest);
      [s[0]] + rest
  }

  /** The head of a sorted list stays first when something after it is inserted. */
  lemma InsertBelowHead(x: Tagged, s: seq<Tagged>, rest: seq<Tagged>)
    requires Sorted(s) && |s| > 0 && Compare(x, s[0]) > 0
    requires Sorted(rest) && multiset(rest) == multiset(s[1..]) + multiset{x}
    ensures Sorted([s[0]] + rest)
    ensures multiset([s[0]] + rest) == multiset(s) + multiset{x}
  {
    assert s == [s[0]] + s[1..];
    forall k | 0 <= k < |rest|
      ensures Compare(s[0], rest[k]) <= 0
    {
      assert rest[k] in multiset(rest);
      if rest[k] != x {
        assert rest[k] in multiset(s[1..]);
        var m :| 0 <= m < |s[1..]| && s[1..][m] == rest[k];
        assert s[m + 1] == rest[k];
      }
    }
    var r := [s[0]] + rest;
    forall i, j | 0 <= i < j < |r|
      ensures Compare(r[i], r[j]) <= 0
    {
      if i > 0 {
        assert r[i] == rest[i - 1] && r[j] == rest[j - 1];
      } else {
        assert r[j] == rest[j - 1];
      }
    }
  }

  /**
   * The `.sort(...)` call with the (start, end) comparator. The comparator leaves the order of
   * exact ties open; this model fixes one (input order), and the layout lemmas in PackerProofs
   * that matter are stated for every sorted order.
   */
  function SortByTime(s: seq<Tagged>): (r: seq<Tagged>)
    ensures Sorted(r)
    ensures multiset(r) == multiset(s)
    ensures |r| == |s|
  {
    if s == [] then []
    else
      assert s == [s[0]] + s[1..];
      Insert(s[0], SortByTime(s[1..]))
  }

  // ---------------------------------------------------------------------------------------------
  // The sweep: clusters and columns
  // ---------------------------------------------------------------------------------------------

  /** The state of the `forEach` sweep: clusters already packed, the open cluster, `lastEnd`. */
  datatype Sweep = Sweep(closed: seq<Cluster>, columns: Cluster, lastEnd: Option<int>)

  function Last(col: Column): Tagged
    requires |col| > 0
  {
    col[|col| - 1]
  }

  predicate NoEmptyColumn(cols: Cluster) {
    forall c :: 0 <= c < |cols| ==> |cols[c]| > 0
  }

  /** The first column at or after `i` whose last meeting does not collide with `ev`, or `|cols|`. */
  function FirstFreeFrom(cols: Cluster, ev: Tagged, i: nat): (k: nat)
    requires NoEmptyColumn(cols) && i <= |cols|
    decreases |cols| - i
    ensures i <= k <= |cols|
    ensures forall c :: i <= c < k ==> Collide(Last(cols[c]), ev)
    ensures k < |cols| ==> !Collide(Last(cols[k]), ev)
  {
    if i == |cols| || !Collide(Last(cols[i]), ev) then i else FirstFreeFrom(cols, ev, i + 1)
  }

  function FirstFree(cols: Cluster, ev: Tagged): nat
    requires NoEmptyColumn(cols)
  {
    FirstFreeFrom(cols, ev, 0)
  }

  /** Column placement: append to the first free column, else open a new column. */
  function PlaceEvent(cols: Cluster, ev: Tagged): (r: Cluster)
    requires NoEmptyColumn(cols)
    ensures NoEmptyColumn(r) && |r| > 0
  {
    var k := FirstFree(cols, ev);
    if k < |cols| then cols[k := cols[k] + [ev]] else cols + [[ev]]
  }

  /** How many meetings the columns of a cluster hold. */
  function Size(cols: Cluster): nat
    decreases |cols|
  {
    if cols == [] then 0 else Size(cols[..|cols| - 1]) + |cols[|cols| - 1]|
  }

  /** How many meetings a list of clusters holds. */
  function SizeAll(cs: seq<Cluster>): nat
    decreases |cs|
  {
    if cs == [] then 0 else SizeAll(cs[..|cs| - 1]) + Size(cs[|cs| - 1])
  }

  lemma SizeSnoc(cols: Cluster, c: Column)
    ensures Size(cols + [c]) == Size(cols) + |c|
  {
    assert (cols + [c])[..|cols|] == cols;
  }

  lemma SizeAllSnoc(cs: seq<Cluster>, c: Cluster)
    ensures SizeAll(cs + [c]) == SizeAll(cs) + Size(c)
  {
    assert (cs + [c])[..|cs|] == cs;
  }

  /** Placing a meeting adds one to the cluster's count. */
  lemma PlaceEventSize(cols: Cluster, ev: Tagged)
    requires NoEmptyColumn(cols)
    ensures Size(PlaceEvent(cols, ev)) == Size(cols) + 1
  {
    var k := FirstFree(cols, ev);
    if k < |cols| {
      SizeUpdate(cols, k, cols[k] + [ev]);
    } else {
      SizeSnoc(cols, [ev]);
    }
  }

  /** Replacing one column changes the count by the difference of the two columns' lengths. */
  lemma {:induction false} SizeUpdate(cols: Cluster, k: nat, c: Column)
    requires k < |cols|
    ensures Size(cols[k := c]) == Size(cols) - |cols[k]| + |c|
    decreases |cols|
  {
    var n := |cols| - 1;
    if k < n {
      assert cols[k := c][..n] == cols[..n][k := c];
      SizeUpdate(cols[..n], k, c);
    } else {
      assert cols[k := c][..n] == cols[..n];
    }
  }

  /** One iteration of the sweep: close the open cluster if `ev` starts at or after `lastEnd`, place `ev`, raise `lastEnd`. */
  function Step(st: Sweep, ev: Tagged): (r: Sweep)
    requires NoEmptyColumn(st.columns)
    ensures NoEmptyColumn(r.columns) && |r.columns| > 0
    ensures r.closed == st.closed || r.closed == st.closed + [st.columns]
    ensures r.lastEnd.Some? && r.lastEnd.value >= ev.end
    ensures r.closed == st.closed && st.lastEnd.Some? ==> r.lastEnd.value >= st.lastEnd.value
  {
    var closing := st.lastEnd.Some? && ev.start >= st.lastEnd.value;
    var closed := if closing then st.closed + [st.columns] else st.closed;
    var columns := if closing then [] else st.columns;
    var lastEnd := if closing then None else st.lastEnd;
    Sweep(closed, PlaceEvent(columns, ev),
          if lastEnd.None? || ev.end > lastEnd.value then Some(ev.end) else lastEnd)
  }

  /** The sweep state after the meetings of `s`, in order. */
  function SweepOf(s: seq<Tagged>): (st: Sweep)
    ensures NoEmptyColumn(st.columns)
    ensures |st.columns| == 0 <==> s == []
  {
    if s == [] then Sweep([], [], None) else Step(SweepOf(s[..|s| - 1]), s[|s| - 1])
  }

  /** Each step of the sweep adds its meeting to the count of closed and open clusters. */
  lemma StepSize(st: Sweep, ev: Tagged)
    requires NoEmptyColumn(st.columns)
    ensures var r := Step(st, ev);
      SizeAll(r.closed) + Size(r.columns) == SizeAll(st.closed) + Size(st.columns) + 1
  {
    SizeAllSnoc(st.closed, st.columns);
    var closing := st.lastEnd.Some? && ev.start >= st.lastEnd.value;
    PlaceEventSize(if closing then [] else st.columns, ev);
  }

  /** The sweep holds as many meetings as it has seen. */
  lemma {:induction false} SweepSize(s: seq<Tagged>)
    ensures SizeAll(SweepOf(s).closed) + Size(SweepOf(s).columns) == |s|
  {
    if s != [] {
      SweepSize(s[..|s| - 1]);
      StepSize(SweepOf(s[..|s| - 1]), s[|s| - 1]);
    }
  }

  /** Every cluster the sweep packs, the final open one included. */
  function Clusters(s: seq<Tagged>): seq<Cluster> {
    var st := SweepOf(s);
    if |st.columns| > 0 then st.closed + [st.columns] else st.closed
  }

  // ---------------------------------------------------------------------------------------------
  // Geometry
  // ---------------------------------------------------------------------------------------------

  function Hours(minutes: int): real {
    minutes as real / MinutesPerHour as real
  }

  /**
   * `dayStartTime`: the instant `dayStart`:00 on the calendar day of `t`, that is `dayStart`
   * hours after the last midnight at or before `t`.
   */
  function DayOrigin(t: int, dayStart: int): (r: int)
    ensures var midnight := r - dayStart * MinutesPerHour;
      midnight % MinutesPerDay == 0 && midnight <= t < midnight + MinutesPerDay
  {
    t / MinutesPerDay * MinutesPerDay + dayStart * MinutesPerHour
  }

  /**
   * `top`: hours from `dayStart`:00 of the meeting's own day, in pixels. It lies between
   * `dayStart` rows above the first row and the bottom of the 24 rows of that day.
   */
  function Top(start: int, dayStart: int): (r: real)
    ensures -(dayStart as real) * PixelsPerHour <= r < (24 - dayStart) as real * PixelsPerHour
  {
    var m := start - DayOrigin(start, dayStart) + dayStart * MinutesPerHour;
    assert 0 <= m < MinutesPerDay;
    assert Hours(start - DayOrigin(start, dayStart)) * PixelsPerHour
      == (m as real) * 100.0 / 60.0 - (dayStart as real) * PixelsPerHour;
    Hours(start - DayOrigin(start, dayStart)) * PixelsPerHour
  }

  /**
   * `height`: the duration in pixels; a missing end counts as one hour later. A meeting is flat
   * exactly when it ends as it starts, and upside down exactly when it ends before it starts.
   */
  function Height(start: int, end: Option<int>): (r: real)
    ensures end.None? ==> r == PixelsPerHour
    ensures end.Some? ==> (r == 0.0 <==> end.value == start) && (r < 0.0 <==> end.value < start)
  {
    Hours(end.GetOr(start + MinutesPerHour) - start) * PixelsPerHour
  }

  /**
   * `buildEvent`: the tagged copy with the given `left` and `width`, its top from its start and
   * its bottom edge at its end, both measured from `dayStart`:00 of the day it starts on.
   */
  function BuildEvent(ev: Tagged, left: real, width: real, dayStart: int): (r: Layout)
    ensures r.ev == ev && r.left == left && r.width == width
    ensures r.top == Top(ev.start, dayStart)
    ensures r.top + r.height == Hours(ev.end - DayOrigin(ev.start, dayStart)) * PixelsPerHour
  {
    Layout(ev, Top(ev.start, dayStart), Height(ev.start, Some(ev.end)), left, width)
  }

  /** `L = (i / colLength) * width`. */
  function ColumnLeft(i: nat, n: nat, width: real): real
    requires n > 0
  {
    (i as real / n as real) * width
  }

  /** `W = (width * colSpan) / colLength - 10`. */
  function SpanWidth(span: nat, n: nat, width: real): real
    requires n > 0
  {
    width * span as real / n as real - Gutter
  }

  // ---------------------------------------------------------------------------------------------
  // Span
  // ---------------------------------------------------------------------------------------------

  /** Some meeting of `col` collides with `ev`. */
  predicate Hits(ev: Tagged, col: Column) {
    exists j :: 0 <= j < |col| && Collide(ev, col[j])
  }

  /** How many columns from `c` on hold no meeting colliding with `ev`, up to the first that does. */
  function SpanFrom(ev: Tagged, cols: Cluster, c: nat): (n: nat)
    decreases |cols| - c
    ensures c >= |cols| ==> n == 0
    ensures c < |cols| ==> c + n <= |cols|
    ensures forall d :: c <= d < c + n && d < |cols| ==> !Hits(ev, cols[d])
    ensures c + n < |cols| ==> Hits(ev, cols[c + n])
  {
    if c >= |cols| || Hits(ev, cols[c]) then 0 else 1 + SpanFrom(ev, cols, c + 1)
  }

  /**
   * The span of a meeting in column `i`: its own column plus every later column up to, not
   * including, the first that holds a meeting colliding with it.
   */
  function Span(ev: Tagged, cols: Cluster, i: nat): (span: nat)
    ensures span >= 1
    ensures span <= if i < |cols| then |cols| - i else 1
    ensures forall d :: i < d < i + span && d < |cols| ==> !Hits(ev, cols[d])
    ensures i + span < |cols| ==> Hits(ev, cols[i + span])
  {
    1 + SpanFrom(ev, cols, i + 1)
  }

  // ---------------------------------------------------------------------------------------------
  // The layout every cluster produces
  // ---------------------------------------------------------------------------------------------

  /** The rectangle of meeting `j` of column `i`. */
  function EventLayout(cols: Cluster, i: nat, j: nat, width: real, dayStart: int): Layout
    requires i < |cols| && j < |cols[i]|
  {
    var n := |cols|;
    BuildEvent(cols[i][j], ColumnLeft(i, n, width), SpanWidth(Span(cols[i][j], cols, i), n, width), dayStart)
  }

  function ColumnLayout(cols: Cluster, i: nat, width: real, dayStart: int): (r: seq<Layout>)
    requires i < |cols|
    ensures |r| == |cols[i]|
  {
    seq(|cols[i]|, j requires 0 <= j < |cols[i]| => EventLayout(cols, i, j, width, dayStart))
  }

  /** The rectangles of columns `0 .. i-1`, column by column. */
  function ColumnsLayout(cols: Cluster, i: nat, width: real, dayStart: int): seq<Layout>
    requires i <= |cols|
  {
    if i == 0 then [] else ColumnsLayout(cols, i - 1, width, dayStart) + ColumnLayout(cols, i - 1, width, dayStart)
  }

  /** The first `i` columns get one rectangle per meeting. */
  lemma {:induction false} ColumnsLayoutSize(cols: Cluster, i: nat, width: real, dayStart: int)
    requires i <= |cols|
    ensures |ColumnsLayout(cols, i, width, dayStart)| == Size(cols[..i])
  {
    if i > 0 {
      ColumnsLayoutSize(cols, i - 1, width, dayStart);
      assert cols[..i][..i - 1] == cols[..i - 1];
    }
  }

  /** What `pack` appends for one cluster: one rectangle per meeting of its columns. */
  function ClusterLayout(cols: Cluster, width: real, dayStart: int): seq<Layout> {
    ColumnsLayout(cols, |cols|, width, dayStart)
  }

  /** What `pack` appends for a list of clusters, in order. */
  function ClustersLayout(cs: seq<Cluster>, width: real, dayStart: int): seq<Layout> {
    if cs == [] then []
    else ClustersLayout(cs[..|cs| - 1], width, dayStart) + ClusterLayout(cs[|cs| - 1], width, dayStart)
  }

  /** A list of clusters gets one rectangle per meeting it holds. */
  lemma {:induction false} ClustersLayoutSize(cs: seq<Cluster>, width: real, dayStart: int)
    ensures |ClustersLayout(cs, width, dayStart)| == SizeAll(cs)
  {
    if cs != [] {
      var c := cs[|cs| - 1];
      ClustersLayoutSize(cs[..|cs| - 1], width, dayStart);
      ColumnsLayoutSize(c, |c|, width, dayStart);
      assert c[..|c|] == c;
    }
  }

  /** The specification of `populateEvents`: one rectangle for every meeting it is given. */
  function Populate(events: seq<Event>, screenWidth: real, dayStart: int): (r: seq<Layout>)
    ensures |r| == |events|
  {
    var s := SortByTime(Tag(events));
    var st := SweepOf(s);
    SweepSize(s);
    SizeAllSnoc(st.closed, st.columns);
    ClustersLayoutSize(Clusters(s), screenWidth, dayStart);
    ClustersLayout(Clusters(s), screenWidth, dayStart)
  }

  // ---------------------------------------------------------------------------------------------
  // The source's loops
  // ---------------------------------------------------------------------------------------------

  /** `expand`: count columns after `column` until one holds a meeting colliding with `ev`. */
  method Expand(ev: Tagged, column: nat, columns: Cluster) returns (colSpan: nat)
    ensures colSpan >= 1
    ensures colSpan <= if column < |columns| then |columns| - column else 1
    ensures forall d :: column < d < column + colSpan && d < |columns| ==> !Hits(ev, columns[d])
    ensures column + colSpan < |columns| ==> Hits(ev, columns[column + colSpan])
    ensures colSpan == Span(ev, columns, column)
  {
    colSpan := 1;
    var i := column + 1;
    while i < |columns|
      invariant column + 1 <= i && (column < |columns| ==> i <= |columns|)
      invariant column >= |columns| ==> i == column + 1
      invariant colSpan == i - column
      invariant forall d :: column < d < i && d < |columns| ==> !Hits(ev, columns[d])
    {
      var col := columns[i];
      var j := 0;
      while j < |col|
        invariant 0 <= j <= |col|
        invariant forall k :: 0 <= k < j ==> !Collide(ev, col[k])
      {
        if Collide(ev, col[j]) {
          assert Hits(ev, columns[i]);
          SpanUnique(ev, columns, column, colSpan);
          return;
        }
        j := j + 1;
      }
      colSpan := colSpan + 1;
      i := i + 1;
    }
    SpanUnique(ev, columns, column, colSpan);
  }

  /** The span is the only count that reaches the first colliding column (or the last column). */
  lemma SpanUnique(ev: Tagged, cols: Cluster, i: nat, n: nat)
    requires 1 <= n <= if i < |cols| then |cols| - i else 1
    requires forall d :: i < d < i + n && d < |cols| ==> !Hits(ev, cols[d])
    requires i + n < |cols| ==> Hits(ev, cols[i + n])
    ensures n == Span(ev, cols, i)
  {
  }

  /** `pack`: append the rectangle of every meeting of the cluster, column by column. */
  method Pack(columns: Cluster, width: real, calculated: seq<Layout>, dayStart: int) returns (result: seq<Layout>)
    ensures result == calculated + ClusterLayout(columns, width, dayStart)
  {
    var colLength := |columns|;
    result := calculated;
    for i := 0 to colLength
      invariant result == calculated + ColumnsLayout(columns, i, width, dayStart)
    {
      result := PackColumn(columns, i, width, result, dayStart);
    }
  }

  /** `pack`'s inner loop over column `i`: append the rectangle of each of its meetings, in order. */
  method PackColumn(columns: Cluster, i: nat, width: real, calculated: seq<Layout>, dayStart: int)
    returns (result: seq<Layout>)
    requires i < |columns|
    ensures result == calculated + ColumnLayout(columns, i, width, dayStart)
  {
    var col := columns[i];
    ghost var done := ColumnLayout(columns, i, width, dayStart);
    result := calculated;
    for j := 0 to |col|
      invariant result == calculated + done[..j]
    {
      var l := PackEvent(columns, i, j, width, dayStart);
      assert done[..j + 1] == done[..j] + [l];
      result := result + [l];
    }
    assert done[..|col|] == done;
  }

  /** The body of `pack`'s inner loop: expand meeting `j` of column `i`, then `buildEvent` at `L` and `W`. */
  method PackEvent(columns: Cluster, i: nat, j: nat, width: real, dayStart: int) returns (l: Layout)
    requires i < |columns| && j < |columns[i]|
    ensures l == EventLayout(columns, i, j, width, dayStart)
  {
    var colLength := |columns|;
    var colSpan := Expand(columns[i][j], i, columns);
    var left := ColumnLeft(i, colLength, width);
    var w := SpanWidth(colSpan, colLength, width);
    l := BuildEvent(columns[i][j], left, w, dayStart);
  }

  /**
   * The placement loop of `populateEvents`: push `ev` onto the first column whose last meeting
   * it does not collide with, or open a new column when it collides with all of them.
   */
  method Place(columns: Cluster, ev: Tagged) returns (result: Cluster)
    requires NoEmptyColumn(columns)
    ensures result == PlaceEvent(columns, ev)
  {
    result := columns;
    var placed := false;
    var i := 0;
    while i < |result|
      invariant 0 <= i <= |result| && result == columns && !placed
      invariant forall c :: 0 <= c < i ==> Collide(Last(columns[c]), ev)
    {
      var col := result[i];
      if !Collide(Last(col), ev) {
        result := result[i := col + [ev]];
        placed := true;
        break;
      }
      i := i + 1;
    }
    assert placed ==> FirstFree(columns, ev) == i && result == columns[i := columns[i] + [ev]];
    assert !placed ==> FirstFree(columns, ev) == |columns| && result == columns;
    if !placed {
      result := result + [[ev]];
    }
  }

  /** `populateEvents`: tag, sort, sweep into clusters and columns, pack every cluster. */
  method PopulateEvents(events: seq<Event>, screenWidth: real, dayStart: int) returns (calculated: seq<Layout>)
    ensures calculated == Populate(events, screenWidth, dayStart)
  {
    var sorted := SortByTime(Tag(events));
    var columns: Cluster := [];
    var lastEnd: Option<int> := None;
    calculated := [];
    ghost var closed: seq<Cluster> := [];

    for k := 0 to |sorted|
      invariant SweepOf(sorted[..k]) == Sweep(closed, columns, lastEnd)
      invariant calculated == ClustersLayout(closed, screenWidth, dayStart)
      invariant NoEmptyColumn(columns)
    {
      var ev := sorted[k];
      SweepOfSnoc(sorted, k);
      if lastEnd.Some? && ev.start >= lastEnd.value {
        calculated := Pack(columns, screenWidth, calculated, dayStart);
        ClustersLayoutSnoc(closed, columns, screenWidth, dayStart);
        closed := closed + [columns];
        columns := [];
        lastEnd := None;
      }

      columns := Place(columns, ev);

      if lastEnd.None? || ev.end > lastEnd.value {
        lastEnd := Some(ev.end);
      }
    }

    assert sorted[..|sorted|] == sorted;
    if |columns| > 0 {
      calculated := Pack(columns, screenWidth, calculated, dayStart);
      ClustersLayoutSnoc(closed, columns, screenWidth, dayStart);
    }
  }

  lemma SweepOfSnoc(s: seq<Tagged>, k: nat)
    requires k < |s|
    ensures SweepOf(s[..k + 1]) == Step(SweepOf(s[..k]), s[k])
  {
    assert s[..k + 1][..k] == s[..k];
  }

  lemma ClustersLayoutSnoc(cs: seq<Cluster>, c: Cluster, width: real, dayStart: int)
    ensures ClustersLayout(cs + [c], width, dayStart) == ClustersLayout(cs, width, dayStart) + ClusterLayout(c, width, dayStart)
  {
    assert (cs + [c])[..|cs|] == cs;
  }
}

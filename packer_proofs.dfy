/**
 * What the layout engine of module Packer guarantees: every meeting is laid out exactly once,
 * no two meetings of one column overlap, meetings of different clusters never collide,
 * `lastEnd` is the latest end of the open cluster, spans and rectangles stay inside the
 * day column, and the vertical position depends on a meeting's own interval only.
 */
module PackerProofs {
  import opened Wrappers
  import opened Packer

  // ---------------------------------------------------------------------------------------------
  // Views used by the statements
  // ---------------------------------------------------------------------------------------------

  /** The meetings of a cluster, whatever their column. */
  function Bag(cols: Cluster): multiset<Tagged> {
    if cols == [] then multiset{} else Bag(cols[..|cols| - 1]) + multiset(cols[|cols| - 1])
  }

  /** The meetings of a list of clusters. */
  function Bags(cs: seq<Cluster>): multiset<Tagged> {
    if cs == [] then multiset{} else Bags(cs[..|cs| - 1]) + Bag(cs[|cs| - 1])
  }

  /** The tagged meetings the rectangles belong to, in output order. */
  function Projected(out: seq<Layout>): (r: seq<Tagged>)
    ensures |r| == |out|
    ensures forall k :: 0 <= k < |out| ==> r[k] == out[k].ev
  {
    seq(|out|, k requires 0 <= k < |out| => out[k].ev)
  }

  /** Every meeting ends after it starts. */
  predicate WellFormed(s: seq<Tagged>) {
    forall k :: 0 <= k < |s| ==> s[k].start < s[k].end
  }

  /** Each meeting of the column ends no later than every later one starts. */
  predicate Chain(col: Column) {
    forall i, j :: 0 <= i < j < |col| ==> col[i].end <= col[j].start
  }

  /** No two meetings of the column collide. */
  predicate Disjoint(col: Column) {
    forall i, j :: 0 <= i < j < |col| ==> !Collide(col[i], col[j])
  }

  // ---------------------------------------------------------------------------------------------
  // Every meeting is laid out exactly once
  // ---------------------------------------------------------------------------------------------

  lemma BagSnoc(cols: Cluster, c: Column)
    ensures Bag(cols + [c]) == Bag(cols) + multiset(c)
  {
    assert (cols + [c])[..|cols|] == cols;
  }

  lemma BagsSnoc(cs: seq<Cluster>, c: Cluster)
    ensures Bags(cs + [c]) == Bags(cs) + Bag(c)
  {
    assert (cs + [c])[..|cs|] == cs;
  }

  /** Pushing `ev` onto column `k` adds exactly `ev` to the cluster. */
  lemma {:induction false} BagPushed(cols: Cluster, k: nat, ev: Tagged)
    requires k < |cols|
    ensures Bag(cols[k := cols[k] + [ev]]) == Bag(cols) + multiset{ev}
  {
    var n := |cols|;
    var pushed := cols[k := cols[k] + [ev]];
    if k == n - 1 {
      assert pushed[..n - 1] == cols[..n - 1];
    } else {
      assert pushed[..n - 1] == cols[..n - 1][k := cols[k] + [ev]];
      BagPushed(cols[..n - 1], k, ev);
    }
  }

  /** Column placement adds the meeting to the cluster once and loses nothing. */
  lemma PlaceEventAddsOnce(cols: Cluster, ev: Tagged)
    requires NoEmptyColumn(cols)
    ensures Bag(PlaceEvent(cols, ev)) == Bag(cols) + multiset{ev}
  {
    var k := FirstFree(cols, ev);
    if k < |cols| {
      BagPushed(cols, k, ev);
    } else {
      BagSnoc(cols, [ev]);
    }
  }

  /** One sweep step adds `ev` once to what the sweep holds and loses nothing. */
  lemma StepKeepsAll(st: Sweep, ev: Tagged)
    requires NoEmptyColumn(st.columns)
    ensures Bags(Step(st, ev).closed) + Bag(Step(st, ev).columns) == Bags(st.closed) + Bag(st.columns) + multiset{ev}
  {
    var next := Step(st, ev);
    if st.lastEnd.Some? && ev.start >= st.lastEnd.value {
      assert next.closed == st.closed + [st.columns] && next.columns == PlaceEvent([], ev);
      ClosingKeepsAll(st.closed, st.columns, ev);
    } else {
      assert next.closed == st.closed && next.columns == PlaceEvent(st.columns, ev);
      PlaceEventAddsOnce(st.columns, ev);
    }
  }

  lemma ClosingKeepsAll(closed: seq<Cluster>, open: Cluster, ev: Tagged)
    ensures Bags(closed + [open]) + Bag(PlaceEvent([], ev)) == Bags(closed) + Bag(open) + multiset{ev}
  {
    BagsSnoc(closed, open);
    assert PlaceEvent([], ev) == [[ev]];
    BagOfOne(ev);
  }

  /** The sweep holds every meeting it has read once: in a packed cluster or the open one. */
  lemma {:induction false} SweepKeepsAll(s: seq<Tagged>)
    ensures Bags(SweepOf(s).closed) + Bag(SweepOf(s).columns) == multiset(s)
  {
    if s != [] {
      var p, ev := s[..|s| - 1], s[|s| - 1];
      assert s == p + [ev];
      SweepKeepsAll(p);
      StepKeepsAll(SweepOf(p), ev);
    }
  }

  /** The clusters hold exactly the sorted meetings: none lost, none repeated. */
  lemma ClustersKeepAll(s: seq<Tagged>)
    ensures Bags(Clusters(s)) == multiset(s)
  {
    SweepKeepsAll(s);
    var st := SweepOf(s);
    if |st.columns| > 0 {
      BagsSnoc(st.closed, st.columns);
    } else {
      assert Bag(st.columns) == multiset{};
    }
  }

  lemma ProjectedConcat(a: seq<Layout>, b: seq<Layout>)
    ensures Projected(a + b) == Projected(a) + Projected(b)
  {
  }

  /** The rectangles of the first `i` columns belong to exactly the meetings of those columns. */
  lemma {:induction false} ColumnsLayoutCovers(cols: Cluster, i: nat, width: real, dayStart: int)
    requires i <= |cols|
    ensures multiset(Projected(ColumnsLayout(cols, i, width, dayStart))) == Bag(cols[..i])
  {
    if i > 0 {
      ColumnsLayoutCovers(cols, i - 1, width, dayStart);
      ProjectedConcat(ColumnsLayout(cols, i - 1, width, dayStart), ColumnLayout(cols, i - 1, width, dayStart));
      assert Projected(ColumnLayout(cols, i - 1, width, dayStart)) == cols[i - 1];
      assert cols[..i][..i - 1] == cols[..i - 1];
    }
  }

  lemma {:induction false} ClustersLayoutCovers(cs: seq<Cluster>, width: real, dayStart: int)
    ensures multiset(Projected(ClustersLayout(cs, width, dayStart))) == Bags(cs)
  {
    if cs != [] {
      var c := cs[|cs| - 1];
      ClustersLayoutCovers(cs[..|cs| - 1], width, dayStart);
      ColumnsLayoutCovers(c, |c|, width, dayStart);
      assert c[..|c|] == c;
      ProjectedConcat(ClustersLayout(cs[..|cs| - 1], width, dayStart), ClusterLayout(c, width, dayStart));
    }
  }

  /** Positions tag distinct meetings, so each tagged meeting occurs once. */
  lemma {:induction false} TaggedOnce(s: seq<Tagged>, x: Tagged)
    requires forall k :: 0 <= k < |s| ==> s[k].index == k
    requires x in s
    ensures multiset(s)[x] == 1
  {
    var p, last := s[..|s| - 1], s[|s| - 1];
    assert s == p + [last];
    assert last !in p;
    if x != last {
      assert x in p;
      TaggedOnce(p, x);
    }
  }

  /**
   * One rectangle per input meeting: the output has the input's length, the tagged meetings
   * it carries are exactly those of the input, each occurs once, and each rectangle's `index`
   * leads back to the input meeting it was made for.
   */
  lemma EveryMeetingLaidOutOnce(events: seq<Event>, width: real, dayStart: int)
    ensures |Populate(events, width, dayStart)| == |events|
    ensures multiset(Projected(Populate(events, width, dayStart))) == multiset(Tag(events))
    ensures forall k :: 0 <= k < |events| ==>
      multiset(Projected(Populate(events, width, dayStart)))[Tag(events)[k]] == 1
    ensures forall l :: l in Populate(events, width, dayStart) ==>
      l.ev.index < |events| && l.ev.start == events[l.ev.index].start && l.ev.end == events[l.ev.index].end
  {
    var tagged := Tag(events);
    var sorted := SortByTime(tagged);
    var out := Populate(events, width, dayStart);
    ClustersKeepAll(sorted);
    ClustersLayoutCovers(Clusters(sorted), width, dayStart);
    assert |multiset(Projected(out))| == |out|;
    forall k | 0 <= k < |events|
      ensures multiset(Projected(out))[tagged[k]] == 1
    {
      TaggedOnce(tagged, tagged[k]);
    }
    forall l | l in out
      ensures l.ev.index < |events| && l.ev.start == events[l.ev.index].start && l.ev.end == events[l.ev.index].end
    {
      var j :| 0 <= j < |out| && out[j] == l;
      assert Projected(out)[j] == l.ev;
      assert l.ev in multiset(tagged);
      var m :| 0 <= m < |tagged| && tagged[m] == l.ev;
    }
  }

  // ---------------------------------------------------------------------------------------------
  // No two meetings of one column overlap
  // ---------------------------------------------------------------------------------------------

  /** Every column is a chain; its meetings are well formed and start no later than `bound`. */
  predicate ColumnsUpTo(cols: Cluster, bound: int) {
    forall c :: 0 <= c < |cols| ==>
      Chain(cols[c]) &&
      forall j :: 0 <= j < |cols[c]| ==> cols[c][j].start < cols[c][j].end && cols[c][j].start <= bound
  }

  /** A well-formed meeting starting at or after every placed one keeps every column a chain. */
  lemma PlaceEventKeepsChains(cols: Cluster, ev: Tagged, bound: int)
    requires NoEmptyColumn(cols) && ColumnsUpTo(cols, bound)
    requires bound <= ev.start < ev.end
    ensures ColumnsUpTo(PlaceEvent(cols, ev), ev.start)
  {
    var k := FirstFree(cols, ev);
    if k < |cols| {
      var col := cols[k];
      assert Last(col).end <= ev.start;
      var pushed := col + [ev];
      forall i, j | 0 <= i < j < |pushed|
        ensures pushed[i].end <= pushed[j].start
      {
        if j == |col| && i < |col| - 1 {
          assert col[i].end <= col[|col| - 1].start;
        }
      }
    }
  }

  /** Over a sorted, well-formed prefix every column of every cluster is a chain. */
  lemma {:induction false} SweepColumnsAreChains(s: seq<Tagged>)
    requires Sorted(s) && WellFormed(s) && s != []
    ensures ColumnsUpTo(SweepOf(s).columns, s[|s| - 1].start)
    ensures forall k :: 0 <= k < |SweepOf(s).closed| ==> ColumnsUpTo(SweepOf(s).closed[k], s[|s| - 1].start)
  {
    var p, ev := s[..|s| - 1], s[|s| - 1];
    var st := SweepOf(p);
    if p == [] {
      PlaceEventKeepsChains([], ev, ev.start);
    } else {
      assert Sorted(p) && WellFormed(p);
      SweepColumnsAreChains(p);
      var bound := p[|p| - 1].start;
      assert Compare(s[|s| - 2], ev) <= 0;
      if st.lastEnd.Some? && ev.start >= st.lastEnd.value {
        PlaceEventKeepsChains([], ev, ev.start);
      } else {
        PlaceEventKeepsChains(st.columns, ev, bound);
      }
    }
  }

  lemma ChainIsDisjoint(col: Column)
    requires Chain(col)
    ensures Disjoint(col)
  {
  }

  /**
   * Given meetings sorted by (start, end) that each end after they start, no two meetings placed
   * in the same column of any cluster overlap.
   */
  lemma ColumnsNeverOverlap(s: seq<Tagged>)
    requires Sorted(s) && WellFormed(s)
    ensures forall k, c :: 0 <= k < |Clusters(s)| && 0 <= c < |Clusters(s)[k]| ==> Disjoint(Clusters(s)[k][c])
  {
    if s != [] {
      SweepColumnsAreChains(s);
    }
  }

  /** The same for the order `populateEvents` actually processes the caller's meetings in. */
  lemma PopulateColumnsNeverOverlap(events: seq<Event>)
    requires forall k :: 0 <= k < |events| ==> events[k].start < events[k].end
    ensures var cs := Clusters(SortByTime(Tag(events)));
      forall k, c :: 0 <= k < |cs| && 0 <= c < |cs[k]| ==> Disjoint(cs[k][c])
  {
    var tagged := Tag(events);
    var sorted := SortByTime(tagged);
    forall k | 0 <= k < |sorted|
      ensures sorted[k].start < sorted[k].end
    {
      assert sorted[k] in multiset(tagged);
    }
    ColumnsNeverOverlap(sorted);
  }

  // ---------------------------------------------------------------------------------------------
  // lastEnd and the cluster boundaries
  // ---------------------------------------------------------------------------------------------

  /** `lastEnd` is set exactly when a cluster is open, and is then the latest end in it. */
  predicate LastEndIsMax(st: Sweep) {
    && (st.lastEnd.None? <==> st.columns == [])
    && (st.lastEnd.Some? ==>
          && (forall y :: y in Bag(st.columns) ==> y.end <= st.lastEnd.value)
          && (exists y :: y in Bag(st.columns) && y.end == st.lastEnd.value))
  }

  /** One sweep step keeps `lastEnd` the latest end of the open cluster. */
  lemma StepLastEndIsMax(st: Sweep, ev: Tagged)
    requires NoEmptyColumn(st.columns) && LastEndIsMax(st)
    ensures LastEndIsMax(Step(st, ev))
  {
    var next := Step(st, ev);
    if st.lastEnd.Some? && ev.start >= st.lastEnd.value {
      assert next.columns == PlaceEvent([], ev) && next.lastEnd == Some(ev.end);
      PlaceEventAddsOnce([], ev);
      assert Bag(next.columns) == multiset{ev};
    } else {
      assert next.columns == PlaceEvent(st.columns, ev);
      PlaceEventAddsOnce(st.columns, ev);
      assert ev in Bag(next.columns);
      if st.lastEnd.Some? && ev.end <= st.lastEnd.value {
        var y :| y in Bag(st.columns) && y.end == st.lastEnd.value;
        assert y in Bag(next.columns);
      }
    }
  }

  lemma {:induction false} SweepLastEndIsMax(s: seq<Tagged>)
    ensures LastEndIsMax(SweepOf(s))
  {
    if s != [] {
      SweepLastEndIsMax(s[..|s| - 1]);
      StepLastEndIsMax(SweepOf(s[..|s| - 1]), s[|s| - 1]);
    }
  }

  /**
   * The open cluster is closed exactly when there is one and the next meeting starts at or after
   * the end of every meeting in it; that meeting then opens a fresh one-column cluster.
   */
  lemma ClosesExactlyAtLastEnd(st: Sweep, ev: Tagged)
    requires NoEmptyColumn(st.columns) && LastEndIsMax(st)
    ensures |Step(st, ev).closed| == |st.closed| + 1 <==>
      st.columns != [] && forall y :: y in Bag(st.columns) ==> y.end <= ev.start
    ensures |Step(st, ev).closed| == |st.closed| + 1 ==>
      Step(st, ev).closed == st.closed + [st.columns] && Step(st, ev).columns == [[ev]]
  {
    if st.lastEnd.Some? {
      var y :| y in Bag(st.columns) && y.end == st.lastEnd.value;
    }
  }

  /** Every meeting of `a` ends no later than every meeting of `b` starts. */
  predicate EndsBefore(a: multiset<Tagged>, b: multiset<Tagged>) {
    forall x, y :: x in a && y in b ==> x.end <= y.start
  }

  /** Every earlier cluster ends before every later one, the open cluster included. */
  predicate Separated(closed: seq<Cluster>, open: Cluster) {
    && (forall k, l :: 0 <= k < l < |closed| ==> EndsBefore(Bag(closed[k]), Bag(closed[l])))
    && (forall k :: 0 <= k < |closed| ==> EndsBefore(Bag(closed[k]), Bag(open)))
  }

  /** Every meeting the sweep holds starts no later than `bound`. */
  predicate StartsUpTo(b: multiset<Tagged>, bound: int) {
    forall y :: y in b ==> y.start <= bound
  }

  /** The bag of a lone one-meeting column is that meeting. */
  lemma BagOfOne(ev: Tagged)
    ensures Bag([[ev]]) == multiset{ev}
  {
    assert [[ev]][..0] == [];
  }

  /**
   * Packing `open` and opening a new cluster with `ev` keeps the clusters apart when `ev`
   * starts at or after every end in `open` and after some meeting `y0` of it.
   */
  /** A meeting that starts at or after every end of every earlier cluster and of `open`. */
  lemma StartsAfterAll(closed: seq<Cluster>, open: Cluster, ev: Tagged, y0: Tagged, k: nat)
    requires Separated(closed, open)
    requires y0 in Bag(open) && y0.start <= ev.start
    requires forall y :: y in Bag(open) ==> y.end <= ev.start
    requires k <= |closed|
    ensures EndsBefore(Bag((closed + [open])[k]), multiset{ev})
  {
    if k < |closed| {
      assert (closed + [open])[k] == closed[k];
      assert EndsBefore(Bag(closed[k]), Bag(open));
      forall x | x in Bag(closed[k])
        ensures x.end <= ev.start
      {
        assert x.end <= y0.start;
      }
    } else {
      assert (closed + [open])[k] == open;
    }
  }

  /** Packing the open cluster keeps the packed clusters apart from each other. */
  lemma PackedStaySeparated(closed: seq<Cluster>, open: Cluster)
    requires Separated(closed, open)
    ensures forall k, l :: 0 <= k < l < |closed + [open]| ==> EndsBefore(Bag((closed + [open])[k]), Bag((closed + [open])[l]))
  {
    var closed' := closed + [open];
    forall k, l | 0 <= k < l < |closed'|
      ensures EndsBefore(Bag(closed'[k]), Bag(closed'[l]))
    {
      assert closed'[k] == closed[k];
      if l < |closed| {
        assert closed'[l] == closed[l];
      } else {
        assert closed'[l] == open;
      }
    }
  }

  lemma SeparatedByClosing(closed: seq<Cluster>, open: Cluster, ev: Tagged, y0: Tagged)
    requires Separated(closed, open)
    requires y0 in Bag(open) && y0.start <= ev.start
    requires forall y :: y in Bag(open) ==> y.end <= ev.start
    ensures Separated(closed + [open], [[ev]])
  {
    var closed' := closed + [open];
    BagOfOne(ev);
    PackedStaySeparated(closed, open);
    forall k | 0 <= k < |closed'|
      ensures EndsBefore(Bag(closed'[k]), Bag([[ev]]))
    {
      StartsAfterAll(closed, open, ev, y0, k);
    }
  }

  /**
   * Adding `ev` to the open cluster keeps the clusters apart when it starts after some
   * meeting `y0` already there (needed only once a cluster has been packed).
   */
  lemma SeparatedByPlacing(closed: seq<Cluster>, open: Cluster, next: Cluster, ev: Tagged, y0: Tagged)
    requires Separated(closed, open)
    requires Bag(next) == Bag(open) + multiset{ev}
    requires closed != [] ==> y0 in Bag(open) && y0.start <= ev.start
    ensures Separated(closed, next)
  {
    forall k | 0 <= k < |closed|
      ensures EndsBefore(Bag(closed[k]), Bag(next))
    {
      assert EndsBefore(Bag(closed[k]), Bag(open));
      forall x, y | x in Bag(closed[k]) && y in Bag(next)
        ensures x.end <= y.start
      {
        if y != ev {
          assert y in Bag(open);
        } else {
          assert x.end <= y0.start;
        }
      }
    }
  }

  /** Closing the open cluster keeps the clusters apart: `ev` starts at or after every end in it. */
  lemma SeparatedAfterClosing(st: Sweep, ev: Tagged)
    requires NoEmptyColumn(st.columns) && LastEndIsMax(st) && Separated(st.closed, st.columns)
    requires st.lastEnd.Some? && ev.start >= st.lastEnd.value
    requires StartsUpTo(Bag(st.columns), ev.start)
    ensures Separated(Step(st, ev).closed, Step(st, ev).columns)
    ensures StartsUpTo(Bag(Step(st, ev).columns), ev.start)
  {
    var next := Step(st, ev);
    assert next.closed == st.closed + [st.columns];
    assert next.columns == PlaceEvent([], ev) == [[ev]];
    BagOfOne(ev);
    var y0 :| y0 in Bag(st.columns) && y0.end == st.lastEnd.value;
    SeparatedByClosing(st.closed, st.columns, ev, y0);
  }

  /** Placing `ev` in the open cluster keeps the clusters apart: it starts after every earlier cluster ended. */
  lemma SeparatedAfterPlacing(st: Sweep, ev: Tagged)
    requires NoEmptyColumn(st.columns) && Separated(st.closed, st.columns)
    requires !(st.lastEnd.Some? && ev.start >= st.lastEnd.value)
    requires StartsUpTo(Bag(st.columns), ev.start)
    requires st.closed != [] ==> st.columns != []
    ensures Separated(Step(st, ev).closed, Step(st, ev).columns)
    ensures StartsUpTo(Bag(Step(st, ev).columns), ev.start)
  {
    var next := Step(st, ev);
    assert next.closed == st.closed && next.columns == PlaceEvent(st.columns, ev);
    PlaceEventAddsOnce(st.columns, ev);
    StartsUpToAdded(Bag(st.columns), ev);
    if st.closed != [] {
      LastColumnInBag(st.columns);
      SeparatedByPlacing(st.closed, st.columns, next.columns, ev, st.columns[|st.columns| - 1][0]);
    } else {
      SeparatedByPlacing(st.closed, st.columns, next.columns, ev, ev);
    }
  }

  /** The first meeting of the last column belongs to the cluster. */
  lemma LastColumnInBag(cols: Cluster)
    requires NoEmptyColumn(cols) && cols != []
    ensures cols[|cols| - 1][0] in Bag(cols)
  {
    BagSnoc(cols[..|cols| - 1], cols[|cols| - 1]);
    assert cols[..|cols| - 1] + [cols[|cols| - 1]] == cols;
  }

  lemma StartsUpToAdded(b: multiset<Tagged>, ev: Tagged)
    requires StartsUpTo(b, ev.start)
    ensures StartsUpTo(b + multiset{ev}, ev.start)
  {
  }

  lemma {:induction false} SweepSeparated(s: seq<Tagged>)
    requires Sorted(s)
    ensures Separated(SweepOf(s).closed, SweepOf(s).columns)
    ensures s != [] ==> StartsUpTo(Bag(SweepOf(s).columns), s[|s| - 1].start)
    ensures SweepOf(s).closed != [] ==> SweepOf(s).columns != []
  {
    if s != [] {
      var p, ev := s[..|s| - 1], s[|s| - 1];
      assert Sorted(p);
      SweepSeparated(p);
      SweepLastEndIsMax(p);
      var st := SweepOf(p);
      if p != [] {
        assert Compare(p[|p| - 1], ev) <= 0;
      }
      assert StartsUpTo(Bag(st.columns), ev.start);
      if st.lastEnd.Some? && ev.start >= st.lastEnd.value {
        SeparatedAfterClosing(st, ev);
      } else {
        SeparatedAfterPlacing(st, ev);
      }
    }
  }

  /**
   * Given sorted meetings, no meeting of one cluster collides with a meeting of another:
   * it ends no later than the other starts.
   */
  lemma ClustersNeverCollide(s: seq<Tagged>)
    requires Sorted(s)
    ensures forall k, l, x, y :: 0 <= k < l < |Clusters(s)| && x in Bag(Clusters(s)[k]) && y in Bag(Clusters(s)[l]) ==>
      x.end <= y.start && !Collide(x, y)
  {
    SweepSeparated(s);
    var st := SweepOf(s);
    var cs := Clusters(s);
    forall k, l | 0 <= k < l < |cs|
      ensures EndsBefore(Bag(cs[k]), Bag(cs[l]))
    {
      assert cs[k] == st.closed[k];
      if l < |st.closed| {
        assert cs[l] == st.closed[l];
      } else {
        assert cs[l] == st.columns;
      }
    }
    forall k, l, x, y | 0 <= k < l < |cs| && x in Bag(cs[k]) && y in Bag(cs[l])
      ensures x.end <= y.start
    {
      assert EndsBefore(Bag(cs[k]), Bag(cs[l]));
    }
  }

  // ---------------------------------------------------------------------------------------------
  // Span and horizontal geometry
  // ---------------------------------------------------------------------------------------------

  /** The span reaches the cluster's last column exactly when no later column holds a colliding meeting. */
  lemma SpanReachesEnd(ev: Tagged, cols: Cluster, i: nat)
    requires i < |cols|
    ensures Span(ev, cols, i) == |cols| - i <==> forall d :: i < d < |cols| ==> !Hits(ev, cols[d])
  {
    var span := Span(ev, cols, i);
    if span < |cols| - i {
      assert Hits(ev, cols[i + span]);
    }
  }

  /** A meeting in the cluster's last column has span 1. */
  lemma LastColumnSpansOne(ev: Tagged, cols: Cluster)
    requires |cols| > 0
    ensures Span(ev, cols, |cols| - 1) == 1
  {
  }

  /**
   * `left = i/N * width` and `width' = width * span/N - 10` keep the rectangle and its gutter
   * inside the day column: `left >= 0`, `left + width' + 10 <= width`.
   */
  lemma HorizontalBounds(i: nat, span: nat, n: nat, width: real)
    requires i < n && 1 <= span <= n - i && width >= 0.0
    ensures ColumnLeft(i, n, width) >= 0.0
    ensures ColumnLeft(i, n, width) + SpanWidth(span, n, width) + Gutter == width * (i + span) as real / n as real
    ensures ColumnLeft(i, n, width) + SpanWidth(span, n, width) + Gutter <= width
  {
    var nr, ir, sr := n as real, i as real, span as real;
    var q := width / nr;
    assert nr * q == width && q >= 0.0;
    assert ColumnLeft(i, n, width) == ir * q;
    assert SpanWidth(span, n, width) + Gutter == sr * q;
    assert width * (i + span) as real / n as real == (ir + sr) * q;
    assert (nr - (ir + sr)) * q >= 0.0;
  }

  /** A one-column cluster spans the whole day column less the gutter. */
  lemma OneColumnFullWidth(width: real)
    ensures ColumnLeft(0, 1, width) == 0.0 && SpanWidth(1, 1, width) == width - Gutter
  {
  }

  /** What every rectangle satisfies: it sits inside the day column and its vertical geometry is its own. */
  predicate WellPlaced(l: Layout, width: real, dayStart: int) {
    && l.left >= 0.0
    && l.left + l.width + Gutter <= width
    && l.top == Top(l.ev.start, dayStart)
    && l.height == Height(l.ev.start, Some(l.ev.end))
  }

  lemma {:induction false} ColumnsLayoutWellPlaced(cols: Cluster, i: nat, width: real, dayStart: int)
    requires i <= |cols| && width >= 0.0
    ensures forall l :: l in ColumnsLayout(cols, i, width, dayStart) ==> WellPlaced(l, width, dayStart)
  {
    if i > 0 {
      var c := i - 1;
      ColumnsLayoutWellPlaced(cols, c, width, dayStart);
      forall j | 0 <= j < |cols[c]|
        ensures WellPlaced(EventLayout(cols, c, j, width, dayStart), width, dayStart)
      {
        HorizontalBounds(c, Span(cols[c][j], cols, c), |cols|, width);
      }
    }
  }

  lemma {:induction false} ClustersLayoutWellPlaced(cs: seq<Cluster>, width: real, dayStart: int)
    requires width >= 0.0
    ensures forall l :: l in ClustersLayout(cs, width, dayStart) ==> WellPlaced(l, width, dayStart)
  {
    if cs != [] {
      ClustersLayoutWellPlaced(cs[..|cs| - 1], width, dayStart);
      var c := cs[|cs| - 1];
      ColumnsLayoutWellPlaced(c, |c|, width, dayStart);
    }
  }

  /**
   * Every rectangle lies inside the day column (`left >= 0`, `left + width' + 10 <= width`),
   * and its `top` and `height` come from its own interval alone, whatever its column.
   */
  lemma LayoutGeometry(events: seq<Event>, width: real, dayStart: int)
    requires width >= 0.0
    ensures forall l :: l in Populate(events, width, dayStart) ==> WellPlaced(l, width, dayStart)
  {
    ClustersLayoutWellPlaced(Clusters(SortByTime(Tag(events))), width, dayStart);
  }

  // ---------------------------------------------------------------------------------------------
  // Vertical geometry
  // ---------------------------------------------------------------------------------------------

  /** `top` is 100 pixels per hour from `dayStart`:00 of the meeting's own day; it is never negative from that hour on. */
  lemma TopFromDayStart(start: int, dayStart: int)
    ensures Top(start, dayStart) == (start % MinutesPerDay - dayStart * MinutesPerHour) as real * 100.0 / 60.0
    ensures Top(start, dayStart) >= 0.0 <==> start % MinutesPerDay >= dayStart * MinutesPerHour
  {
    assert start - DayOrigin(start, dayStart) == start % MinutesPerDay - dayStart * MinutesPerHour;
  }

  /** A missing end counts as one hour: height 100. */
  lemma MissingEndIsOneHour(start: int)
    ensures Height(start, None) == PixelsPerHour
  {
  }

  /** A meeting that starts when another ends, on the same day, is drawn right below it. */
  lemma BackToBackStack(a: Tagged, b: Tagged, dayStart: int)
    requires a.end == b.start && a.start / MinutesPerDay == b.start / MinutesPerDay
    ensures Top(b.start, dayStart) == Top(a.start, dayStart) + Height(a.start, Some(a.end))
  {
  }
}

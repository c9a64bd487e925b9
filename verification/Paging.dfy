/** Pages of historical bars: following the cursor walks the filtered archive once. */
module Paging {
  import opened Base
  import opened Bars

  const DEFAULT_PAGE_LIMIT: nat := 100
  const MAX_PAGE_LIMIT: nat := 1000

  /** A bar query; the page size asked for is clamped, so every query has one of at least one bar. */
  datatype BarQuery = BarQuery(instrument: nat, interval: nat, start: nat, end: nat, asked: Option<nat>, cursor: Option<nat>) {
    function Limit(): (limit: nat)
      ensures 1 <= limit <= MAX_PAGE_LIMIT && (asked.Some? && 1 <= asked.value <= MAX_PAGE_LIMIT ==> limit == asked.value)
    {
      Max(1, Min(MAX_PAGE_LIMIT, asked.GetOr(DEFAULT_PAGE_LIMIT)))
    }
  }

  /** Open times strictly ascend, as in the ordered store. */
  predicate Ascending(bars: seq<Bar>) { forall i, j :: 0 <= i < j < |bars| ==> bars[i].openTs < bars[j].openTs }

  predicate InRange(q: BarQuery, b: Bar) { q.start <= b.openTs <= q.end }

  predicate PastCursor(cursor: Option<nat>, b: Bar) { cursor.Some? ==> b.openTs > cursor.value }

  predicate Eligible(q: BarQuery, b: Bar) { b.instrument == q.instrument && b.interval == q.interval && InRange(q, b) }

  function Ranged(series: seq<Bar>, q: BarQuery): seq<Bar> {
    if series == [] then []
    else Ranged(series[..|series| - 1], q) + (if InRange(q, series[|series| - 1]) then [series[|series| - 1]] else [])
  }

  function After(bars: seq<Bar>, cursor: Option<nat>): seq<Bar> {
    if bars == [] then []
    else After(bars[..|bars| - 1], cursor) + (if PastCursor(cursor, bars[|bars| - 1]) then [bars[|bars| - 1]] else [])
  }

  predicate HasTime(bars: seq<Bar>, ts: nat) { exists i :: 0 <= i < |bars| && bars[i].openTs == ts }

  /** The bar in its place by open time. */
  function Placed(bars: seq<Bar>, b: Bar): seq<Bar> {
    if bars == [] || bars[|bars| - 1].openTs <= b.openTs then bars + [b]
    else Placed(bars[..|bars| - 1], b) + [bars[|bars| - 1]]
  }

  function WithWorking(bars: seq<Bar>, working: Option<Bar>, wanted: bool): seq<Bar> {
    if wanted && working.Some? && !HasTime(bars, working.value.openTs) then Placed(bars, working.value) else bars
  }

  /** Everything the query selects, the working bar included, without regard to pages. */
  function Selected(series: seq<Bar>, working: Option<Bar>, q: BarQuery): seq<Bar> {
    WithWorking(Ranged(series, q), working, working.Some? && Eligible(q, working.value))
  }

  /** One page: what lies past the cursor, cut at the limit, and the cursor to go on from. */
  function Page(all: seq<Bar>, cursor: Option<nat>, limit: nat): (seq<Bar>, Option<nat>)
    requires limit >= 1
  {
    var items := After(all, cursor);
    if |items| > limit then (items[..limit], Some(items[limit - 1].openTs)) else (items, None)
  }

  // ----- order and membership

  lemma {:induction false} RangedIs(series: seq<Bar>, q: BarQuery)
    requires Ascending(series)
    ensures Ascending(Ranged(series, q))
    ensures forall b :: b in Ranged(series, q) <==> b in series && InRange(q, b)
  {
    if series != [] {
      var init, last := series[..|series| - 1], series[|series| - 1];
      RangedIs(init, q);
      assert series == init + [last];
      forall i | 0 <= i < |Ranged(init, q)| ensures Ranged(init, q)[i].openTs < last.openTs {
        assert Ranged(init, q)[i] in init;
      }
    }
  }

  lemma {:induction false} AfterIs(bars: seq<Bar>, cursor: Option<nat>)
    requires Ascending(bars)
    ensures Ascending(After(bars, cursor))
    ensures forall b :: b in After(bars, cursor) <==> b in bars && PastCursor(cursor, b)
  {
    if bars != [] {
      var init, last := bars[..|bars| - 1], bars[|bars| - 1];
      AfterIs(init, cursor);
      assert bars == init + [last];
      forall i | 0 <= i < |After(init, cursor)| ensures After(init, cursor)[i].openTs < last.openTs {
        assert After(init, cursor)[i] in init;
      }
    }
  }

  lemma {:induction false} PlacedIs(bars: seq<Bar>, b: Bar)
    requires Ascending(bars) && !HasTime(bars, b.openTs)
    ensures Ascending(Placed(bars, b)) && (forall x :: x in Placed(bars, b) <==> x in bars || x == b)
  {
    if bars != [] {
      var init, last := bars[..|bars| - 1], bars[|bars| - 1];
      assert bars == init + [last];
      if last.openTs > b.openTs {
        assert !HasTime(init, b.openTs) by {
          assert forall i :: 0 <= i < |init| ==> init[i] == bars[i];
        }
        PlacedIs(init, b);
        forall i | 0 <= i < |Placed(init, b)| ensures Placed(init, b)[i].openTs < last.openTs {
          assert Placed(init, b)[i] in init || Placed(init, b)[i] == b;
        }
      } else {
        assert bars[|bars| - 1].openTs != b.openTs;
      }
    }
  }

  /** The selection is strictly ascending and holds exactly the closed bars in range, plus the working
      bar when it is in range and no closed bar has its time. */
  lemma SelectedIs(series: seq<Bar>, working: Option<Bar>, q: BarQuery)
    requires Ascending(series)
    ensures Ascending(Selected(series, working, q))
    ensures forall b :: b in Selected(series, working, q) <==>
      (b in series && InRange(q, b))
      || (working == Some(b) && Eligible(q, b) && !HasTime(Ranged(series, q), b.openTs))
  {
    RangedIs(series, q);
    if working.Some? && !HasTime(Ranged(series, q), working.value.openTs) { PlacedIs(Ranged(series, q), working.value); }
  }

  // ----- following the cursor

  lemma {:induction false} AfterLater(bars: seq<Bar>, c: Option<nat>, d: nat)
    requires c.Some? ==> c.value <= d
    ensures After(After(bars, c), Some(d)) == After(bars, Some(d))
  {
    if bars != [] {
      var init, last := bars[..|bars| - 1], bars[|bars| - 1];
      AfterLater(init, c, d);
      if PastCursor(c, last) {
        var f := After(bars, c);
        assert f[..|f| - 1] == After(init, c);
      } else {
        assert After(bars, c) == After(init, c);
      }
    }
  }

  lemma {:induction false} AfterNone(bars: seq<Bar>)
    ensures After(bars, None) == bars
  {
    if bars != [] {
      AfterNone(bars[..|bars| - 1]);
      assert bars[..|bars| - 1] + [bars[|bars| - 1]] == bars;
    }
  }

  /** In an ascending list, past the k-th bar's time lie exactly the bars after it. */
  lemma {:induction false} AfterCut(bars: seq<Bar>, k: nat)
    requires Ascending(bars) && k < |bars|
    ensures After(bars, Some(bars[k].openTs)) == bars[k + 1..]
  {
    var init, last := bars[..|bars| - 1], bars[|bars| - 1];
    if k == |bars| - 1 {
      NoneAfter(init, last.openTs);
    } else {
      AfterCut(init, k);
      assert bars[k + 1..] == init[k + 1..] + [last];
    }
  }

  lemma {:induction false} NoneAfter(bars: seq<Bar>, ts: nat)
    requires forall i :: 0 <= i < |bars| ==> bars[i].openTs <= ts
    ensures After(bars, Some(ts)) == []
  {
    if bars != [] { NoneAfter(bars[..|bars| - 1], ts); }
  }

  lemma CutStartsAfter(all: seq<Bar>, items: seq<Bar>, cursor: Option<nat>, limit: nat)
    requires items == After(all, cursor) && Ascending(items) && 1 <= limit <= |items|
    requires cursor.Some? ==> cursor.value <= items[limit - 1].openTs
    ensures After(all, Some(items[limit - 1].openTs)) == items[limit..]
  {
    AfterCut(items, limit - 1);
    AfterLater(all, cursor, items[limit - 1].openTs);
  }

  lemma NextPageStartsAfter(all: seq<Bar>, cursor: Option<nat>, limit: nat)
    requires limit >= 1 && Ascending(all) && Page(all, cursor, limit).1.Some?
    ensures var items := After(all, cursor);
      |items| > limit && After(all, Page(all, cursor, limit).1) == items[limit..]
  {
    var items := After(all, cursor);
    AfterIs(all, cursor);
    assert items[limit - 1] in items;
    CutStartsAfter(all, items, cursor, limit);
  }

  /** The pages from a cursor on, each asked for with the cursor the one before it returned. */
  ghost function Follow(all: seq<Bar>, cursor: Option<nat>, limit: nat): seq<seq<Bar>>
    requires limit >= 1 && Ascending(all)
    decreases |After(all, cursor)|
  {
    var (page, next) := Page(all, cursor, limit);
    if next.None? then [page]
    else
      NextPageStartsAfter(all, cursor, limit);
      [page] + Follow(all, next, limit)
  }

  function Concat(pages: seq<seq<Bar>>): seq<Bar> { if pages == [] then [] else pages[0] + Concat(pages[1..]) }

  lemma {:induction false} FollowFrom(all: seq<Bar>, cursor: Option<nat>, limit: nat)
    requires limit >= 1 && Ascending(all)
    ensures Concat(Follow(all, cursor, limit)) == After(all, cursor)
    ensures forall i :: 0 <= i < |Follow(all, cursor, limit)| ==> |Follow(all, cursor, limit)[i]| <= limit
    decreases |After(all, cursor)|
  {
    var (page, next) := Page(all, cursor, limit);
    var pages := Follow(all, cursor, limit);
    if next.Some? {
      NextPageStartsAfter(all, cursor, limit);
      FollowFrom(all, next, limit);
      assert pages[1..] == Follow(all, next, limit);
    } else {
      assert pages[1..] == [];
    }
  }

  /** Following the cursor from the start ends, no page is over the limit, and together the pages are
      the selection: ascending, every bar exactly once, the working bar included. */
  lemma PagingIsComplete(series: seq<Bar>, working: Option<Bar>, q: BarQuery)
    requires Ascending(series)
    ensures Ascending(Selected(series, working, q))
    ensures Concat(Follow(Selected(series, working, q), None, q.Limit())) == Selected(series, working, q)
    ensures forall i :: 0 <= i < |Follow(Selected(series, working, q), None, q.Limit())| ==>
      |Follow(Selected(series, working, q), None, q.Limit())[i]| <= q.Limit()
  {
    var all := Selected(series, working, q);
    SelectedIs(series, working, q);
    FollowFrom(all, None, q.Limit());
    AfterNone(all);
  }

  // ----- the page as it is computed

  lemma RangedAppend(series: seq<Bar>, b: Bar, q: BarQuery)
    ensures Ranged(series + [b], q) == if InRange(q, b) then Ranged(series, q) + [b] else Ranged(series, q)
  {
    assert (series + [b])[..|series|] == series;
  }

  lemma AfterAppend(bars: seq<Bar>, b: Bar, cursor: Option<nat>)
    ensures After(bars + [b], cursor) == if PastCursor(cursor, b) then After(bars, cursor) + [b] else After(bars, cursor)
  {
    assert (bars + [b])[..|bars|] == bars;
  }

  lemma PlacedAtEnd(bars: seq<Bar>, b: Bar)
    requires bars == [] || bars[|bars| - 1].openTs <= b.openTs
    ensures Placed(bars, b) == bars + [b]
  {
  }

  lemma PlacedBefore(bars: seq<Bar>, last: Bar, b: Bar)
    requires last.openTs > b.openTs
    ensures Placed(bars + [last], b) == Placed(bars, b) + [last]
  {
    assert (bars + [last])[..|bars|] == bars;
  }

  lemma AfterEnds(bars: seq<Bar>, cursor: Option<nat>, ts: nat)
    requires Ascending(bars) && (bars == [] || bars[|bars| - 1].openTs <= ts)
    ensures After(bars, cursor) == [] || After(bars, cursor)[|After(bars, cursor)| - 1].openTs <= ts
  {
    AfterIs(bars, cursor);
    if After(bars, cursor) != [] { assert After(bars, cursor)[|After(bars, cursor)| - 1] in bars; }
  }

  lemma {:induction false} AfterPlaced(bars: seq<Bar>, b: Bar, cursor: Option<nat>)
    requires Ascending(bars)
    ensures After(Placed(bars, b), cursor) == if PastCursor(cursor, b) then Placed(After(bars, cursor), b) else After(bars, cursor)
  {
    if bars == [] || bars[|bars| - 1].openTs <= b.openTs {
      AfterAppend(bars, b, cursor);
      AfterEnds(bars, cursor, b.openTs);
      PlacedAtEnd(After(bars, cursor), b);
    } else {
      var init, last := bars[..|bars| - 1], bars[|bars| - 1];
      AfterPlaced(init, b, cursor);
      AfterAppend(Placed(init, b), last, cursor);
      AfterAppend(init, last, cursor);
      assert init + [last] == bars;
      PlacedBefore(After(init, cursor), last, b);
    }
  }

  /** Selecting past the cursor first and adding the working bar then, as the query does, comes to the
      same as taking the selection past the cursor. */
  lemma CursorFirst(series: seq<Bar>, working: Option<Bar>, q: BarQuery)
    requires Ascending(series)
    ensures After(Selected(series, working, q), q.cursor)
            == WithWorking(After(Ranged(series, q), q.cursor), working,
                           working.Some? && Eligible(q, working.value) && PastCursor(q.cursor, working.value))
  {
    var ranged := Ranged(series, q);
    RangedIs(series, q);
    AfterIs(ranged, q.cursor);
    if working.Some? && Eligible(q, working.value) {
      var w := working.value;
      if !HasTime(ranged, w.openTs) {
        AfterPlaced(ranged, w, q.cursor);
        assert !HasTime(After(ranged, q.cursor), w.openTs) by {
          forall i | 0 <= i < |After(ranged, q.cursor)| ensures After(ranged, q.cursor)[i].openTs != w.openTs {
            assert After(ranged, q.cursor)[i] in ranged;
          }
        }
      } else if PastCursor(q.cursor, w) {
        var i :| 0 <= i < |ranged| && ranged[i].openTs == w.openTs;
        assert ranged[i] in After(ranged, q.cursor);
      }
    }
  }

  /** One query: filter the ordered series, add the working bar, sort, cut, and hand out the cursor. */
  method PageBars(series: seq<Bar>, working: Option<Bar>, q: BarQuery) returns (page: seq<Bar>, next: Option<nat>)
    requires Ascending(series)
    ensures (page, next) == Page(Selected(series, working, q), q.cursor, q.Limit())
  {
    var items: seq<Bar> := [];
    var i := 0;
    while i < |series|
      invariant 0 <= i <= |series| && items == After(Ranged(series[..i], q), q.cursor)
    {
      assert series[..i + 1] == series[..i] + [series[i]];
      RangedAppend(series[..i], series[i], q);
      if InRange(q, series[i]) {
        AfterAppend(Ranged(series[..i], q), series[i], q.cursor);
        if PastCursor(q.cursor, series[i]) { items := items + [series[i]]; }
      }
      i := i + 1;
    }
    assert series[..i] == series;
    CursorFirst(series, working, q);
    if working.Some? && Eligible(q, working.value) && PastCursor(q.cursor, working.value) && !HasTime(items, working.value.openTs) {
      items := InsertByTime(items, working.value);
    }
    if |items| > q.Limit() {
      page := items[..q.Limit()];
      next := Some(page[|page| - 1].openTs);
    } else {
      page, next := items, None;
    }
  }

  lemma PlacedCut(bars: seq<Bar>, b: Bar, k: nat)
    requires 0 < k <= |bars| && bars[k - 1].openTs > b.openTs
    ensures Placed(bars[..k], b) == Placed(bars[..k - 1], b) + [bars[k - 1]]
  {
    assert bars[..k][..k - 1] == bars[..k - 1];
  }

  lemma Regroup3<T>(a: seq<T>, x: T, b: seq<T>)
    ensures (a + [x]) + b == a + ([x] + b)
  {
  }

  lemma TailGrows<T>(s: seq<T>, k: nat)
    requires 0 < k <= |s|
    ensures s[k - 1..] == [s[k - 1]] + s[k..]
  {
  }

  /** Sorting a list whose last element is the only one out of place. */
  method InsertByTime(bars: seq<Bar>, b: Bar) returns (out: seq<Bar>)
    ensures out == Placed(bars, b)
  {
    var k := |bars|;
    assert bars[..k] == bars;
    while k > 0 && bars[k - 1].openTs > b.openTs
      invariant 0 <= k <= |bars|
      invariant Placed(bars, b) == Placed(bars[..k], b) + bars[k..]
    {
      PlacedCut(bars, b, k);
      Regroup3(Placed(bars[..k - 1], b), bars[k - 1], bars[k..]);
      TailGrows(bars, k);
      k := k - 1;
    }
    PlacedAtEnd(bars[..k], b);
    out := bars[..k] + [b] + bars[k..];
  }
}

/** OHLCV bars aggregated from trade prints in any time order, against a plain group-by. */
module Bars {
  import opened Base

  datatype Kind = TradePrint | Bbo | BookUpdate | Status | Snapshot

  datatype Record = Record(instrument: nat, seqNo: nat, ts: nat, kind: Kind, price: int, qty: int)

  datatype MdError = InvalidQuantity | VolumeOverflow | InvalidInterval

  datatype Bar = Bar(
    instrument: nat, interval: nat, openTs: nat, open: int, high: int, low: int, close: int, volume: int, count: nat)

  /** Working bars per instrument and interval, closed bars per instrument, interval and open time. */
  datatype BarBook = BarBook(working: map<(nat, nat), Bar>, store: map<(nat, nat, nat), Bar>)

  const EMPTY_BARS := BarBook(map[], map[])

  /** The open time of the bar a timestamp belongs to; intervals are positive. */
  function Bucket(ts: nat, d: nat): nat
    requires d > 0
  {
    ts / d * d
  }

  /** The buckets tile time: ts lies in its bucket, and in no other multiple of the interval. */
  lemma BucketContains(ts: nat, d: nat, b: nat)
    requires d > 0
    ensures Bucket(ts, d) <= ts < Bucket(ts, d) + d && Bucket(ts, d) % d == 0
    ensures b % d == 0 && b <= ts < b + d ==> b == Bucket(ts, d)
  {
    var q := ts / d;
    assert q * d <= ts < q * d + d;
    MultipleMod(q, d);
    if b % d == 0 && b <= ts < b + d {
      var k := b / d;
      assert b == k * d;
      QuotientUnique(ts, d, k);
    }
  }

  lemma MultipleMod(q: nat, d: nat)
    requires d > 0
    ensures (q * d) % d == 0
  {
    ModOf(q * d, d, q);
  }

  lemma ModOf(a: int, d: int, q: int)
    requires d > 0 && a == q * d
    ensures a % d == 0 && a / d == q
  {
    var e := a / d;
    assert e * d <= a < (e + 1) * d;
    ScaleOrder(q, e + 1, d);
    ScaleOrder(e, q + 1, d);
  }

  lemma QuotientUnique(ts: nat, d: nat, k: nat)
    requires d > 0 && k * d <= ts < k * d + d
    ensures ts / d == k
  {
    var e := ts / d;
    assert e * d <= ts < (e + 1) * d;
    ScaleOrder(k, e + 1, d);
    ScaleOrder(e, k + 1, d);
  }

  // ----- the group-by

  predicate InGroup(r: Record, instrument: nat, d: nat, b: nat)
    requires d > 0
  {
    r.kind.TradePrint? && r.instrument == instrument && Bucket(r.ts, d) == b
  }

  /** The trades of an instrument in a bucket, in arrival order. */
  function Group(records: seq<Record>, instrument: nat, d: nat, b: nat): seq<Record>
    requires d > 0
  {
    if records == [] then []
    else
      var last := records[|records| - 1];
      Group(records[..|records| - 1], instrument, d, b) + (if InGroup(last, instrument, d, b) then [last] else [])
  }

  function TotalQty(g: seq<Record>): int { if g == [] then 0 else TotalQty(g[..|g| - 1]) + g[|g| - 1].qty }

  function Highest(g: seq<Record>): int
    requires g != []
  {
    if |g| == 1 then g[0].price else Max(Highest(g[..|g| - 1]), g[|g| - 1].price)
  }

  function Lowest(g: seq<Record>): int
    requires g != []
  {
    if |g| == 1 then g[0].price else Min(Lowest(g[..|g| - 1]), g[|g| - 1].price)
  }

  /** The bar says about the group what a candle promises. */
  predicate Summarizes(bar: Bar, instrument: nat, d: nat, b: nat, g: seq<Record>) {
    && bar.instrument == instrument && bar.interval == d && bar.openTs == b
    && g != []
    && bar.volume == TotalQty(g) && bar.count == Min(|g|, U64_MAX)
    && bar.open == g[0].price && bar.high == Highest(g) && bar.low == Lowest(g)
    && bar.low <= bar.close <= bar.high
  }

  /** The bar spans the prices of the group tightly. */
  ghost predicate Spans(bar: Bar, g: seq<Record>) {
    && (forall i :: 0 <= i < |g| ==> bar.low <= g[i].price <= bar.high)
    && (exists i :: 0 <= i < |g| && g[i].price == bar.high)
    && (exists i :: 0 <= i < |g| && g[i].price == bar.low)
  }

  lemma {:induction false} HighestIs(g: seq<Record>)
    requires g != []
    ensures forall i :: 0 <= i < |g| ==> g[i].price <= Highest(g)
    ensures exists i :: 0 <= i < |g| && g[i].price == Highest(g)
  {
    var n := |g| - 1;
    if n == 0 {
      assert g[0].price == Highest(g);
    } else {
      HighestIs(g[..n]);
      var i :| 0 <= i < n && g[..n][i].price == Highest(g[..n]);
      assert g[i].price == Highest(g[..n]) && g[n].price <= Highest(g);
      forall k | 0 <= k < n ensures g[k].price <= Highest(g) { assert g[..n][k] == g[k]; }
      assert g[i].price == Highest(g) || g[n].price == Highest(g);
    }
  }

  lemma {:induction false} LowestIs(g: seq<Record>)
    requires g != []
    ensures forall i :: 0 <= i < |g| ==> Lowest(g) <= g[i].price
    ensures exists i :: 0 <= i < |g| && g[i].price == Lowest(g)
  {
    var n := |g| - 1;
    if n == 0 {
      assert g[0].price == Lowest(g);
    } else {
      LowestIs(g[..n]);
      var i :| 0 <= i < n && g[..n][i].price == Lowest(g[..n]);
      assert g[i].price == Lowest(g[..n]) && Lowest(g) <= g[n].price;
      forall k | 0 <= k < n ensures Lowest(g) <= g[k].price { assert g[..n][k] == g[k]; }
      assert g[i].price == Lowest(g) || g[n].price == Lowest(g);
    }
  }

  lemma SummarySpans(bar: Bar, instrument: nat, d: nat, b: nat, g: seq<Record>)
    requires Summarizes(bar, instrument, d, b, g)
    ensures Spans(bar, g)
  {
    HighestIs(g);
    LowestIs(g);
  }

  lemma GroupAppend(records: seq<Record>, r: Record, instrument: nat, d: nat, b: nat)
    requires d > 0
    ensures Group(records + [r], instrument, d, b)
            == if InGroup(r, instrument, d, b) then Group(records, instrument, d, b) + [r] else Group(records, instrument, d, b)
  {
    assert (records + [r])[..|records|] == records;
  }

  // ----- one print

  function NewBar(r: Record, d: nat, b: nat): Bar { Bar(r.instrument, d, b, r.price, r.price, r.price, r.price, r.qty, 1) }

  function SatSucc(n: nat): nat { if n >= U64_MAX then U64_MAX else n + 1 }

  function Widened(bar: Bar, price: int): Bar {
    bar.(high := if price > bar.high then price else bar.high, low := if price < bar.low then price else bar.low)
  }

  /** Volume, count, high and low; open and close stay. */
  function LatePrint(bar: Bar, r: Record): Result<Bar, MdError> {
    if r.qty < 0 then Err(InvalidQuantity)
    else if !FitsI64(bar.volume + r.qty) then Err(VolumeOverflow)
    else Ok(Widened(bar.(volume := bar.volume + r.qty, count := SatSucc(bar.count)), r.price))
  }

  function InOrderPrint(bar: Bar, r: Record): Result<Bar, MdError> {
    match LatePrint(bar.(close := r.price), r)
    case Err(e) => Err(e)
    case Ok(n) => Ok(n)
  }

  /** One trade for one interval. */
  function Step(bars: BarBook, r: Record, d: nat): Result<BarBook, MdError>
    requires d > 0
  {
    var key, b := (r.instrument, d), Bucket(r.ts, d);
    var at := (r.instrument, d, b);
    if key in bars.working && bars.working[key].openTs == b then
      match InOrderPrint(bars.working[key], r)
      case Err(e) => Err(e)
      case Ok(n) => Ok(bars.(working := bars.working[key := n]))
    else if key in bars.working && b > bars.working[key].openTs then
      var w := bars.working[key];
      Ok(BarBook(bars.working[key := NewBar(r, d, b)], bars.store[(w.instrument, w.interval, w.openTs) := w]))
    else if at in bars.store then
      match LatePrint(bars.store[at], r)
      case Err(e) => Err(e)
      case Ok(n) => Ok(bars.(store := bars.store[at := n]))
    else if key in bars.working then Ok(bars.(store := bars.store[at := NewBar(r, d, b)]))
    else Ok(bars.(working := bars.working[key := NewBar(r, d, b)]))
  }

  /** The working bar a trade closes: the one of an earlier bucket. */
  function Closing(bars: BarBook, r: Record, d: nat): Option<Bar>
    requires d > 0
  {
    var key := (r.instrument, d);
    if key in bars.working && bars.working[key].openTs < Bucket(r.ts, d) then Some(bars.working[key]) else None
  }

  /** The bars a trade closes, in the order of the intervals. */
  function ClosedBy(bars: BarBook, r: Record, intervals: seq<nat>): seq<Bar>
    requires forall i :: 0 <= i < |intervals| ==> intervals[i] > 0
  {
    if intervals == [] then []
    else
      var n := |intervals| - 1;
      ClosedBy(bars, r, intervals[..n]) + (match Closing(bars, r, intervals[n]) case Some(bar) => [bar] case None => [])
  }

  lemma ClosedAppend(bars: BarBook, r: Record, intervals: seq<nat>, d: nat)
    requires d > 0 && forall i :: 0 <= i < |intervals| ==> intervals[i] > 0
    ensures ClosedBy(bars, r, intervals + [d])
            == ClosedBy(bars, r, intervals) + (match Closing(bars, r, d) case Some(bar) => [bar] case None => [])
  {
    assert (intervals + [d])[..|intervals|] == intervals;
  }

  /** The working bar of a key is the same in both. */
  predicate SameAt(bars: BarBook, n: BarBook, key: (nat, nat)) {
    (key in n.working <==> key in bars.working) && (key in bars.working ==> n.working[key] == bars.working[key])
  }

  // ----- what holds per instrument and interval

  ghost predicate TracksWorking(bars: BarBook, seen: seq<Record>, instrument: nat, d: nat)
    requires d > 0 && (instrument, d) in bars.working
  {
    var w := bars.working[(instrument, d)];
    && Summarizes(w, instrument, d, w.openTs, Group(seen, instrument, d, w.openTs))
    && (forall b: nat :: (instrument, d, b) in bars.store <==> b < w.openTs && Group(seen, instrument, d, b) != [])
    && (forall b: nat :: (instrument, d, b) in bars.store ==>
          Summarizes(bars.store[(instrument, d, b)], instrument, d, b, Group(seen, instrument, d, b)))
    && (forall b: nat :: b > w.openTs ==> Group(seen, instrument, d, b) == [])
  }

  ghost predicate Tracks(bars: BarBook, seen: seq<Record>, instrument: nat, d: nat)
    requires d > 0
  {
    if (instrument, d) in bars.working then TracksWorking(bars, seen, instrument, d)
    else forall b: nat :: (instrument, d, b) !in bars.store && Group(seen, instrument, d, b) == []
  }

  lemma PrintSummarizes(bar: Bar, r: Record, instrument: nat, d: nat, b: nat, g: seq<Record>)
    requires Summarizes(bar, instrument, d, b, g)
    ensures LatePrint(bar, r).Ok? ==> Summarizes(LatePrint(bar, r).value, instrument, d, b, g + [r])
    ensures InOrderPrint(bar, r).Ok? ==> Summarizes(InOrderPrint(bar, r).value, instrument, d, b, g + [r])
  {
    assert (g + [r])[..|g|] == g;
  }

  lemma NewSummarizes(r: Record, d: nat, b: nat)
    ensures Summarizes(NewBar(r, d, b), r.instrument, d, b, [] + [r])
  {
    assert [] + [r] == [r];
    assert [r][..0] == [];
  }

  /** Groups after one more trade: only the bucket of the trade grew. */
  lemma GroupsAfter(seen: seq<Record>, r: Record, d: nat)
    requires d > 0 && r.kind.TradePrint?
    ensures forall b: nat ::
      Group(seen + [r], r.instrument, d, b) == if b == Bucket(r.ts, d) then Group(seen, r.instrument, d, b) + [r] else Group(seen, r.instrument, d, b)
  {
    forall b: nat
      ensures Group(seen + [r], r.instrument, d, b) == if b == Bucket(r.ts, d) then Group(seen, r.instrument, d, b) + [r] else Group(seen, r.instrument, d, b)
    {
      GroupAppend(seen, r, r.instrument, d, b);
    }
  }

  lemma InOrderTracks(bars: BarBook, seen: seq<Record>, r: Record, d: nat)
    requires d > 0 && r.kind.TradePrint? && Tracks(bars, seen, r.instrument, d) && Step(bars, r, d).Ok?
    requires (r.instrument, d) in bars.working && bars.working[(r.instrument, d)].openTs == Bucket(r.ts, d)
    ensures Tracks(Step(bars, r, d).value, seen + [r], r.instrument, d)
  {
    GroupsAfter(seen, r, d);
    PrintSummarizes(bars.working[(r.instrument, d)], r, r.instrument, d, Bucket(r.ts, d), Group(seen, r.instrument, d, Bucket(r.ts, d)));
  }

  lemma RollTracks(bars: BarBook, seen: seq<Record>, r: Record, d: nat, w: Bar, n: BarBook)
    requires d > 0 && r.kind.TradePrint? && Tracks(bars, seen, r.instrument, d)
    requires (r.instrument, d) in bars.working && bars.working[(r.instrument, d)] == w && Bucket(r.ts, d) > w.openTs
    requires n.working == bars.working[(r.instrument, d) := NewBar(r, d, Bucket(r.ts, d))]
    requires n.store == bars.store[(r.instrument, d, w.openTs) := w]
    ensures Tracks(n, seen + [r], r.instrument, d)
  {
    GroupsAfter(seen, r, d);
    NewSummarizes(r, d, Bucket(r.ts, d));
    assert Group(seen + [r], r.instrument, d, w.openTs) == Group(seen, r.instrument, d, w.openTs);
  }

  lemma LateTracks(bars: BarBook, seen: seq<Record>, r: Record, d: nat)
    requires d > 0 && r.kind.TradePrint? && Tracks(bars, seen, r.instrument, d) && Step(bars, r, d).Ok?
    requires (r.instrument, d) in bars.working && Bucket(r.ts, d) < bars.working[(r.instrument, d)].openTs
    ensures Tracks(Step(bars, r, d).value, seen + [r], r.instrument, d)
  {
    var b := Bucket(r.ts, d);
    var at := (r.instrument, d, b);
    GroupsAfter(seen, r, d);
    if at in bars.store {
      PrintSummarizes(bars.store[at], r, r.instrument, d, b, Group(seen, r.instrument, d, b));
    } else {
      NewSummarizes(r, d, b);
    }
  }

  lemma FirstTracks(bars: BarBook, seen: seq<Record>, r: Record, d: nat)
    requires d > 0 && r.kind.TradePrint? && Tracks(bars, seen, r.instrument, d) && (r.instrument, d) !in bars.working
    ensures Step(bars, r, d).Ok? && Tracks(Step(bars, r, d).value, seen + [r], r.instrument, d)
  {
    GroupsAfter(seen, r, d);
    NewSummarizes(r, d, Bucket(r.ts, d));
    assert (r.instrument, d, Bucket(r.ts, d)) !in bars.store;
  }

  /** Whatever its timestamp, a trade keeps the bars of its instrument and interval equal to the group-by. */
  lemma StepTracks(bars: BarBook, seen: seq<Record>, r: Record, d: nat)
    requires d > 0 && r.kind.TradePrint? && Tracks(bars, seen, r.instrument, d) && Step(bars, r, d).Ok?
    ensures Tracks(Step(bars, r, d).value, seen + [r], r.instrument, d)
  {
    var key, b := (r.instrument, d), Bucket(r.ts, d);
    if key !in bars.working { FirstTracks(bars, seen, r, d); }
    else if bars.working[key].openTs == b { InOrderTracks(bars, seen, r, d); }
    else if b > bars.working[key].openTs { RollTracks(bars, seen, r, d, bars.working[key], Step(bars, r, d).value); }
    else { LateTracks(bars, seen, r, d); }
  }

  // ----- every interval, every record

  predicate ValidIntervals(intervals: seq<nat>) {
    && (forall i :: 0 <= i < |intervals| ==> intervals[i] > 0)
    && (forall i, j :: 0 <= i < j < |intervals| ==> intervals[i] < intervals[j])
  }

  /** The interval in its place, once. */
  function Placed(sorted: seq<nat>, d: nat): (out: seq<nat>)
    requires ValidIntervals(sorted) && d > 0
    ensures ValidIntervals(out) && (forall x :: x in out <==> x in sorted || x == d)
    ensures out != [] && (out[0] == d || (sorted != [] && out[0] == sorted[0]))
  {
    if sorted == [] then [d]
    else if d < sorted[0] then [d] + sorted
    else if d == sorted[0] then sorted
    else [sorted[0]] + Placed(sorted[1..], d)
  }

  /** Sorted by duration, duplicates dropped. */
  function Normalized(intervals: seq<nat>): (out: seq<nat>)
    requires forall i :: 0 <= i < |intervals| ==> intervals[i] > 0
    ensures ValidIntervals(out) && (forall x :: x in out <==> x in intervals)
  {
    if intervals == [] then [] else Placed(Normalized(intervals[1..]), intervals[0])
  }

  /** One record for the intervals from i on. */
  function ApplyFrom(bars: BarBook, r: Record, intervals: seq<nat>, i: nat): Result<BarBook, MdError>
    requires ValidIntervals(intervals) && i <= |intervals|
    decreases |intervals| - i
  {
    if i == |intervals| then Ok(bars)
    else match Step(bars, r, intervals[i])
      case Err(e) => Err(e)
      case Ok(n) => ApplyFrom(n, r, intervals, i + 1)
  }

  function Apply(bars: BarBook, r: Record, intervals: seq<nat>): Result<BarBook, MdError>
    requires ValidIntervals(intervals)
  {
    if !r.kind.TradePrint? then Ok(bars)
    else if r.qty < 0 then Err(InvalidQuantity)
    else ApplyFrom(bars, r, intervals, 0)
  }

  function Replay(records: seq<Record>, intervals: seq<nat>): Result<BarBook, MdError>
    requires ValidIntervals(intervals)
  {
    if records == [] then Ok(EMPTY_BARS)
    else match Replay(records[..|records| - 1], intervals)
      case Err(e) => Err(e)
      case Ok(bars) => Apply(bars, records[|records| - 1], intervals)
  }

  /** Entries of one instrument and interval are the same in both books. */
  ghost predicate SameFor(a: BarBook, b: BarBook, instrument: nat, d: nat) {
    && ((instrument, d) in a.working <==> (instrument, d) in b.working)
    && ((instrument, d) in a.working ==> a.working[(instrument, d)] == b.working[(instrument, d)])
    && (forall t: nat :: ((instrument, d, t) in a.store <==> (instrument, d, t) in b.store)
                         && ((instrument, d, t) in a.store ==> a.store[(instrument, d, t)] == b.store[(instrument, d, t)]))
  }

  lemma TracksSame(a: BarBook, b: BarBook, seen: seq<Record>, seen': seq<Record>, instrument: nat, d: nat)
    requires d > 0 && Tracks(a, seen, instrument, d) && SameFor(a, b, instrument, d)
    requires forall t: nat :: Group(seen', instrument, d, t) == Group(seen, instrument, d, t)
    ensures Tracks(b, seen', instrument, d)
  {
  }

  ghost predicate OwnKeys(bars: BarBook) {
    forall k :: k in bars.working ==> bars.working[k].instrument == k.0 && bars.working[k].interval == k.1
  }

  lemma StepTouchesOne(bars: BarBook, r: Record, d: nat, instrument: nat, e: nat)
    requires d > 0 && OwnKeys(bars) && Step(bars, r, d).Ok? && (instrument, e) != (r.instrument, d)
    ensures SameFor(bars, Step(bars, r, d).value, instrument, e) && OwnKeys(Step(bars, r, d).value)
  {
  }

  lemma StepOwnKeys(bars: BarBook, r: Record, d: nat)
    requires d > 0 && OwnKeys(bars) && Step(bars, r, d).Ok?
    ensures OwnKeys(Step(bars, r, d).value)
  {
  }

  lemma SameGroups(seen: seq<Record>, r: Record, instrument: nat, d: nat)
    requires d > 0 && !(r.kind.TradePrint? && r.instrument == instrument)
    ensures forall t: nat :: Group(seen + [r], instrument, d, t) == Group(seen, instrument, d, t)
  {
    forall t: nat ensures Group(seen + [r], instrument, d, t) == Group(seen, instrument, d, t) {
      GroupAppend(seen, r, instrument, d, t);
    }
  }

  /** Interval j has seen the record once it is before i; other instruments need not. */
  ghost predicate TracksAt(bars: BarBook, seen: seq<Record>, r: Record, intervals: seq<nat>, i: nat, instrument: nat, j: nat)
    requires ValidIntervals(intervals) && j < |intervals|
  {
    Tracks(bars, if j < i || instrument != r.instrument then seen + [r] else seen, instrument, intervals[j])
  }

  /** Intervals before i have seen the record, the others not yet. */
  ghost predicate Between(bars: BarBook, seen: seq<Record>, r: Record, intervals: seq<nat>, i: nat)
    requires ValidIntervals(intervals)
  {
    OwnKeys(bars) && forall instrument: nat, j: nat :: j < |intervals| ==> TracksAt(bars, seen, r, intervals, i, instrument, j)
  }

  lemma BetweenStep(bars: BarBook, seen: seq<Record>, r: Record, intervals: seq<nat>, i: nat)
    requires ValidIntervals(intervals) && i < |intervals| && r.kind.TradePrint?
    requires Between(bars, seen, r, intervals, i) && Step(bars, r, intervals[i]).Ok?
    ensures Between(Step(bars, r, intervals[i]).value, seen, r, intervals, i + 1)
  {
    var d := intervals[i];
    var n := Step(bars, r, d).value;
    StepOwnKeys(bars, r, d);
    var next := i + 1;
    forall instrument: nat, j: nat | j < |intervals| ensures TracksAt(n, seen, r, intervals, next, instrument, j) {
      assert TracksAt(bars, seen, r, intervals, i, instrument, j);
      if instrument == r.instrument && j == i {
        StepTracks(bars, seen, r, d);
      } else {
        var before := if j < i || instrument != r.instrument then seen + [r] else seen;
        StepTouchesOne(bars, r, d, instrument, intervals[j]);
        TracksSame(bars, n, before, before, instrument, intervals[j]);
      }
    }
  }

  lemma {:induction false} ApplyFromTracks(bars: BarBook, seen: seq<Record>, r: Record, intervals: seq<nat>, i: nat)
    requires ValidIntervals(intervals) && i <= |intervals| && r.kind.TradePrint?
    requires Between(bars, seen, r, intervals, i) && ApplyFrom(bars, r, intervals, i).Ok?
    ensures Between(ApplyFrom(bars, r, intervals, i).value, seen, r, intervals, |intervals|)
    decreases |intervals| - i
  {
    if i < |intervals| {
      BetweenStep(bars, seen, r, intervals, i);
      ApplyFromTracks(Step(bars, r, intervals[i]).value, seen, r, intervals, i + 1);
    }
  }

  ghost predicate TracksAll(bars: BarBook, seen: seq<Record>, intervals: seq<nat>)
    requires ValidIntervals(intervals)
  {
    OwnKeys(bars) && forall instrument: nat, j: nat :: j < |intervals| ==> Tracks(bars, seen, instrument, intervals[j])
  }

  lemma ApplyTracks(bars: BarBook, seen: seq<Record>, r: Record, intervals: seq<nat>)
    requires ValidIntervals(intervals) && TracksAll(bars, seen, intervals) && Apply(bars, r, intervals).Ok?
    ensures TracksAll(Apply(bars, r, intervals).value, seen + [r], intervals)
  {
    forall instrument: nat, j: nat | j < |intervals| && (instrument != r.instrument || !r.kind.TradePrint?)
      ensures Tracks(bars, seen + [r], instrument, intervals[j])
    {
      SameGroups(seen, r, instrument, intervals[j]);
      TracksSame(bars, bars, seen, seen + [r], instrument, intervals[j]);
    }
    if r.kind.TradePrint? {
      forall instrument: nat, j: nat | j < |intervals| ensures TracksAt(bars, seen, r, intervals, 0, instrument, j) {
        assert Tracks(bars, seen, instrument, intervals[j]);
      }
      ApplyFromTracks(bars, seen, r, intervals, 0);
      var n := Apply(bars, r, intervals).value;
      forall instrument: nat, j: nat | j < |intervals| ensures Tracks(n, seen + [r], instrument, intervals[j]) {
        assert TracksAt(n, seen, r, intervals, |intervals|, instrument, j);
      }
    }
  }

  lemma {:induction false} ReplayTracks(records: seq<Record>, intervals: seq<nat>)
    requires ValidIntervals(intervals) && Replay(records, intervals).Ok?
    ensures TracksAll(Replay(records, intervals).value, records, intervals)
  {
    if records != [] {
      var init := records[..|records| - 1];
      ReplayTracks(init, intervals);
      ApplyTracks(Replay(init, intervals).value, init, records[|records| - 1], intervals);
      assert init + [records[|records| - 1]] == records;
    }
  }

  // ----- closing what is open

  /** Every working bar joins the store. */
  ghost predicate Closes(bars: BarBook, store: map<(nat, nat, nat), Bar>) {
    && (forall k :: k in store <==> k in bars.store || ((k.0, k.1) in bars.working && bars.working[(k.0, k.1)].openTs == k.2))
    && (forall k :: k in store ==>
          store[k] == if (k.0, k.1) in bars.working && bars.working[(k.0, k.1)].openTs == k.2 then bars.working[(k.0, k.1)] else bars.store[k])
  }

  /** The closed bars are the group-by: for each instrument and interval exactly one bar per bucket that
      received a trade, with the sum, count, first, highest and lowest of that bucket's trades. */
  ghost predicate GroupedBy(store: map<(nat, nat, nat), Bar>, records: seq<Record>, instrument: nat, d: nat, b: nat)
    requires d > 0
  {
    && ((instrument, d, b) in store <==> Group(records, instrument, d, b) != [])
    && ((instrument, d, b) in store ==>
          && Summarizes(store[(instrument, d, b)], instrument, d, b, Group(records, instrument, d, b))
          && Spans(store[(instrument, d, b)], Group(records, instrument, d, b)))
  }

  lemma BarsRefineGroupBy(records: seq<Record>, intervals: seq<nat>, store: map<(nat, nat, nat), Bar>, instrument: nat, i: nat, b: nat)
    requires ValidIntervals(intervals) && i < |intervals| && Replay(records, intervals).Ok?
    requires Closes(Replay(records, intervals).value, store)
    ensures GroupedBy(store, records, instrument, intervals[i], b)
  {
    var bars := Replay(records, intervals).value;
    ReplayTracks(records, intervals);
    assert Tracks(bars, records, instrument, intervals[i]);
    var at := (instrument, intervals[i], b);
    if at in store { SummarySpans(store[at], instrument, intervals[i], b, Group(records, instrument, intervals[i], b)); }
  }

  // ----- the aggregator as it runs

  class BarAggregator {
    const intervals: seq<nat>
    var working: map<(nat, nat), Bar>
    var store: map<(nat, nat, nat), Bar>

    ghost function View(): BarBook
      reads this
    {
      BarBook(working, store)
    }

    constructor (intervals: seq<nat>)
      requires forall i :: 0 <= i < |intervals| ==> intervals[i] > 0
      ensures View() == EMPTY_BARS && this.intervals == Normalized(intervals)
    {
      this.intervals := Normalized(intervals);
      working, store := map[], map[];
    }

    /** Amends a closed bar; false when there is none. */
    method AmendClosed(at: (nat, nat, nat), r: Record) returns (out: Result<bool, MdError>)
      modifies this`store
      ensures if at !in old(store) then out == Ok(false) && store == old(store)
              else match LatePrint(old(store)[at], r)
                case Err(e) => out == Err(e) && store == old(store)
                case Ok(n) => out == Ok(true) && store == old(store)[at := n]
    {
      if at !in store { return Ok(false); }
      var amended := LatePrint(store[at], r);
      if amended.Err? { return Err(amended.error); }
      store := store[at := amended.value];
      return Ok(true);
    }

    /** One trade for one interval; the bar it closed, if any. */
    method ApplyInterval(r: Record, d: nat) returns (out: Result<Option<Bar>, MdError>)
      requires d > 0
      modifies this
      ensures match Step(old(View()), r, d)
              case Err(e) => out == Err(e)
              case Ok(n) => out.Ok? && View() == n
      ensures out.Ok? ==> out.value == Closing(old(View()), r, d)
      ensures forall k :: k != (r.instrument, d) ==> SameAt(old(View()), View(), k)
    {
      var key, b := (r.instrument, d), Bucket(r.ts, d);
      var at := (r.instrument, d, b);
      if key in working && working[key].openTs == b {
        var printed := InOrderPrint(working[key], r);
        if printed.Err? { return Err(printed.error); }
        working := working[key := printed.value];
        return Ok(None);
      }
      if key in working && b > working[key].openTs {
        var closed := working[key];
        store := store[(closed.instrument, closed.interval, closed.openTs) := closed];
        working := working[key := NewBar(r, d, b)];
        return Ok(Some(closed));
      }
      var amended := AmendClosed(at, r);
      if amended.Err? { return Err(amended.error); }
      if !amended.value {
        if key in working { store := store[at := NewBar(r, d, b)]; } else { working := working[key := NewBar(r, d, b)]; }
      }
      return Ok(None);
    }

    /** One record: a trade updates every interval, and the bars it closed come back by interval. */
    method ApplyRecord(r: Record) returns (out: Result<seq<Bar>, MdError>)
      requires ValidIntervals(intervals)
      modifies this
      ensures match Apply(old(View()), r, intervals)
              case Err(e) => out == Err(e)
              case Ok(n) => View() == n && out == Ok(if r.kind.TradePrint? then ClosedBy(old(View()), r, intervals) else [])
    {
      if !r.kind.TradePrint? { return Ok([]); }
      if r.qty < 0 { return Err(InvalidQuantity); }
      var closed: seq<Bar> := [];
      var i := 0;
      while i < |intervals|
        invariant 0 <= i <= |intervals|
        invariant ApplyFrom(old(View()), r, intervals, 0) == ApplyFrom(View(), r, intervals, i)
        invariant closed == ClosedBy(old(View()), r, intervals[..i])
        invariant forall j :: i <= j < |intervals| ==> SameAt(old(View()), View(), (r.instrument, intervals[j]))
      {
        ghost var before := View();
        var done := ApplyInterval(r, intervals[i]);
        if done.Err? { return Err(done.error); }
        forall j | i < j < |intervals| ensures SameAt(old(View()), View(), (r.instrument, intervals[j])) {
          assert SameAt(old(View()), before, (r.instrument, intervals[j])) && SameAt(before, View(), (r.instrument, intervals[j]));
        }
        assert intervals[..i + 1] == intervals[..i] + [intervals[i]];
        ClosedAppend(old(View()), r, intervals[..i], intervals[i]);
        if done.value.Some? { closed := closed + [done.value.value]; }
        i := i + 1;
      }
      assert intervals[..i] == intervals;
      return Ok(closed);
    }

    /** Moves every working bar into the store, in whatever order the table is walked. */
    method CloseOpen()
      requires OwnKeys(View())
      modifies this
      ensures Closes(old(View()), store) && working == map[]
    {
      ghost var start := View();
      var todo := working.Keys;
      while todo != {}
        invariant todo <= working.Keys && working == old(working)
        invariant forall k :: k in store <==>
          k in start.store || ((k.0, k.1) in start.working && (k.0, k.1) !in todo && start.working[(k.0, k.1)].openTs == k.2)
        invariant forall k :: k in store ==>
          store[k] == if (k.0, k.1) in start.working && (k.0, k.1) !in todo && start.working[(k.0, k.1)].openTs == k.2
                      then start.working[(k.0, k.1)] else start.store[k]
        decreases |todo|
      {
        var key :| key in todo;
        var bar := working[key];
        store := store[(bar.instrument, bar.interval, bar.openTs) := bar];
        todo := todo - {key};
      }
      working := map[];
    }

    /** Replays a journal and closes what is open: on success the store is the group-by of the journal. */
    static method FromJournal(records: seq<Record>, intervals: seq<nat>) returns (out: Result<BarAggregator, MdError>)
      requires forall i :: 0 <= i < |intervals| ==> intervals[i] > 0
      ensures out.Ok? <==> Replay(records, Normalized(intervals)).Ok?
      ensures out.Ok? ==> forall instrument: nat, d: nat, b: nat :: d in intervals ==>
        d > 0 && GroupedBy(out.value.store, records, instrument, d, b)
    {
      var bars := new BarAggregator(intervals);
      ghost var ds := Normalized(intervals);
      var n := 0;
      while n < |records|
        invariant 0 <= n <= |records| && bars.intervals == ds && fresh(bars)
        invariant Replay(records[..n], ds) == Ok(bars.View())
      {
        assert records[..n + 1][..n] == records[..n];
        var done := bars.ApplyRecord(records[n]);
        if done.Err? {
          ReplayStops(records, ds, n + 1);
          return Err(done.error);
        }
        n := n + 1;
      }
      assert records[..n] == records;
      ReplayTracks(records, ds);
      bars.CloseOpen();
      forall instrument: nat, d: nat, b: nat | d in intervals ensures d > 0 && GroupedBy(bars.store, records, instrument, d, b) {
        var i :| 0 <= i < |ds| && ds[i] == d;
        BarsRefineGroupBy(records, ds, bars.store, instrument, i, b);
      }
      return Ok(bars);
    }
  }

  lemma {:induction false} ReplayStops(records: seq<Record>, intervals: seq<nat>, n: nat)
    requires ValidIntervals(intervals) && n <= |records| && Replay(records[..n], intervals).Err?
    ensures Replay(records, intervals).Err?
    decreases |records|
  {
    if n < |records| {
      var init := records[..|records| - 1];
      assert init[..n] == records[..n];
      ReplayStops(init, intervals, n);
    } else {
      assert records[..n] == records;
    }
  }
}

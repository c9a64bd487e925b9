/** The order aggregate and its state machine. */
module Orders {
  import opened Base

  datatype Side = Buy | Sell

  datatype OrderType = Limit | Market

  datatype TimeInForce = Gtc | Ioc | Fok

  datatype OrderStatus =
    | PendingNew | New | PartiallyFilled | Filled | PendingCancel
    | Canceled | PendingReplace | Rejected | Expired
  {
    predicate IsTerminal() { Filled? || Canceled? || Rejected? || Expired? }

    predicate IsWorking() { New? || PartiallyFilled? }
  }

  datatype OrderEvent =
    | Accepted(venueOrderId: string)
    | Reject(reason: string)
    | Trade(exec: string, qty: int, price: int)
    | CancelRequested
    | CancelConfirmed
    | ReplaceRequested(newQty: int, newPrice: int)
    | Replaced(newQty: int, newPrice: int)
    | Expire

  datatype DomainEffect =
    | AcceptedEffect(venueOrderId: string)
    | RejectedEffect(reason: string)
    | TradeEffect(exec: string, qty: int, price: int, filled: bool)
    | CancelPendingEffect
    | CanceledEffect
    | ReplacePendingEffect
    | ReplacedEffect(qty: int, price: int)
    | ExpiredEffect

  datatype OrderError =
    | InvalidQuantity
    | InvalidPrice
    | IllegalTransition(from: OrderStatus, event: OrderEvent)
    | Overfill(tradeLots: int, leavesLots: int)
    | DuplicateExec(exec: string)
    | ReplaceBelowFilled(newQty: int, cumQty: int)
    | UnknownOrder(id: nat)

  datatype Order = Order(
    id: nat,
    account: nat,
    client: string,
    instrument: nat,
    side: Side,
    orderType: OrderType,
    tif: TimeInForce,
    status: OrderStatus,
    orderQty: int,
    price: int,
    cumQty: int,
    leavesQty: int,
    avgPx: Option<int>,
    venueOrderId: Option<string>,
    rejectReason: Option<string>,
    seenExecs: seq<string>,
    pendingQty: Option<int>,
    pendingPrice: Option<int>)

  datatype CreateOrder = CreateOrder(
    account: nat, client: string, instrument: nat, side: Side,
    orderQty: int, price: int, orderType: OrderType, tif: TimeInForce)

  /** Truncated division, as the source's integer division. */
  function TruncDiv(a: int, b: int): int
    requires b != 0
  {
    if a >= 0 then a / b else -((-a) / b)
  }

  /** The order a valid creation request starts as. */
  function NewPending(id: nat, req: CreateOrder): Result<Order, OrderError> {
    if req.orderQty <= 0 then Err(InvalidQuantity)
    else if req.price <= 0 then Err(InvalidPrice)
    else Ok(Order(id, req.account, req.client, req.instrument, req.side, req.orderType, req.tif,
                  PendingNew, req.orderQty, req.price, 0, req.orderQty, None, None, None, [], None, None))
  }

  predicate AssertInvariants(o: Order) {
    && o.cumQty >= 0
    && o.leavesQty >= 0
    && o.cumQty <= o.orderQty
    && o.cumQty + o.leavesQty == o.orderQty
  }

  function ApplyTrade(o: Order, exec: string, qty: int, price: int): Result<(Order, bool), OrderError> {
    if exec in o.seenExecs then Err(DuplicateExec(exec))
    else if qty <= 0 then Err(InvalidQuantity)
    else if price <= 0 then Err(InvalidPrice)
    else if qty > o.leavesQty then Err(Overfill(qty, o.leavesQty))
    else
      var newCum := o.cumQty + qty;
      var newLeaves := o.orderQty - newCum;
      if !FitsI64(newCum) || !FitsI64(newLeaves) then Err(InvalidQuantity)
      else
        var tradeNotional := price * qty;
        var total := o.avgPx.GetOr(0) * o.cumQty + tradeNotional;
        if !FitsI128(tradeNotional) || !FitsI128(total) || newCum == 0 then Err(InvalidQuantity)
        else
          var avg := TruncDiv(total, newCum);
          if !FitsI64(avg) then Err(InvalidQuantity)
          else
            var filled := newLeaves == 0;
            Ok((o.(cumQty := newCum, leavesQty := newLeaves, avgPx := Some(avg),
                   seenExecs := o.seenExecs + [exec],
                   status := if filled then Filled else PartiallyFilled), filled))
  }

  function ApplyReplaced(o: Order, newQty: int, newPrice: int): Result<Order, OrderError> {
    if newQty <= 0 then Err(InvalidQuantity)
    else if newPrice <= 0 then Err(InvalidPrice)
    else if newQty < o.cumQty then Err(ReplaceBelowFilled(newQty, o.cumQty))
    else
      var leaves := newQty - o.cumQty;
      Ok(o.(orderQty := newQty, price := newPrice, leavesQty := leaves,
            pendingQty := None, pendingPrice := None,
            status := if o.cumQty == 0 then New else if leaves == 0 then Filled else PartiallyFilled))
  }

  /** The transition table before the closing invariant check. */
  function Step(o: Order, event: OrderEvent): Result<(Order, DomainEffect), OrderError> {
    match (o.status, event)
    case (PendingNew, Accepted(v)) =>
      Ok((o.(status := New, venueOrderId := Some(v)), AcceptedEffect(v)))
    case (PendingNew, Reject(reason)) =>
      Ok((o.(status := Rejected, rejectReason := Some(reason)), RejectedEffect(reason)))
    case (New, Trade(exec, qty, price)) => TradeStep(o, exec, qty, price)
    case (PartiallyFilled, Trade(exec, qty, price)) => TradeStep(o, exec, qty, price)
    case (New, CancelRequested) => Ok((o.(status := PendingCancel), CancelPendingEffect))
    case (PartiallyFilled, CancelRequested) => Ok((o.(status := PendingCancel), CancelPendingEffect))
    case (PendingCancel, CancelConfirmed) =>
      Ok((o.(status := Canceled, pendingQty := None, pendingPrice := None), CanceledEffect))
    case (New, ReplaceRequested(q, p)) => ReplaceRequestStep(o, q, p)
    case (PartiallyFilled, ReplaceRequested(q, p)) => ReplaceRequestStep(o, q, p)
    case (PendingReplace, Replaced(q, p)) =>
      (match ApplyReplaced(o, q, p)
       case Ok(next) => Ok((next, ReplacedEffect(q, p)))
       case Err(e) => Err(e))
    case (New, Expire) => Ok((o.(status := Expired), ExpiredEffect))
    case (PartiallyFilled, Expire) => Ok((o.(status := Expired), ExpiredEffect))
    case (New, CancelConfirmed) => Ok((o.(status := Canceled), CanceledEffect))
    case (PartiallyFilled, CancelConfirmed) => Ok((o.(status := Canceled), CanceledEffect))
    case _ => Err(IllegalTransition(o.status, event))
  }

  function TradeStep(o: Order, exec: string, qty: int, price: int): Result<(Order, DomainEffect), OrderError> {
    match ApplyTrade(o, exec, qty, price)
    case Ok(next) => Ok((next.0, TradeEffect(exec, qty, price, next.1)))
    case Err(e) => Err(e)
  }

  function ReplaceRequestStep(o: Order, q: int, p: int): Result<(Order, DomainEffect), OrderError> {
    if q < o.cumQty then Err(ReplaceBelowFilled(q, o.cumQty))
    else if q <= 0 then Err(InvalidQuantity)
    else if p <= 0 then Err(InvalidPrice)
    else Ok((o.(pendingQty := Some(q), pendingPrice := Some(p), status := PendingReplace), ReplacePendingEffect))
  }

  /** One event applied to an order: the updated order and its effect, or the error. */
  function Apply(o: Order, event: OrderEvent): Result<(Order, DomainEffect), OrderError> {
    match Step(o, event)
    case Err(e) => Err(e)
    case Ok(next) => if AssertInvariants(next.0) then Ok(next) else Err(InvalidQuantity)
  }

  // ----- what every reachable order satisfies

  ghost predicate WellFormed(o: Order) {
    && o.orderQty > 0 && FitsI64(o.orderQty)
    && o.price > 0 && FitsI64(o.price)
    && AssertInvariants(o)
    && (o.leavesQty == 0 <==> o.status == Filled)
    && (o.status.PendingNew? || o.status.New? || o.status.Rejected? ==> o.cumQty == 0)
    && (o.status.PartiallyFilled? ==> o.cumQty > 0)
    && (o.cumQty == 0 <==> o.seenExecs == [])
    && (o.avgPx.Some? <==> o.cumQty > 0)
    && (o.avgPx.Some? ==> o.avgPx.value > 0 && FitsI64(o.avgPx.value))
    && (forall i, j :: 0 <= i < j < |o.seenExecs| ==> o.seenExecs[i] != o.seenExecs[j])
    && (o.status.PendingReplace? <==> o.pendingQty.Some?)
    && (o.pendingQty.Some? <==> o.pendingPrice.Some?)
    && (o.pendingQty.Some? ==>
          && o.pendingQty.value > 0 && o.pendingQty.value >= o.cumQty
          && o.pendingPrice.value > 0)
  }

  /** The event carries 64-bit quantities, as its type does in the source. */
  predicate EventFits(e: OrderEvent) {
    match e
    case Trade(_, q, p) => FitsI64(q) && FitsI64(p)
    case ReplaceRequested(q, p) => FitsI64(q) && FitsI64(p)
    case Replaced(q, p) => FitsI64(q) && FitsI64(p)
    case _ => true
  }

  lemma ProductBound(a: int, b: int, m: int)
    requires 0 <= a <= m && 0 <= b <= m
    ensures 0 <= a * b <= m * m
  {
    assert a * (m - b) >= 0 && (m - a) * m >= 0;
  }

  lemma QuotientBound(total: int, n: int, lo: int, hi: int)
    requires n > 0 && lo * n <= total <= hi * n
    ensures lo <= total / n <= hi
  {
    var q := total / n;
    assert q * n <= total < (q + 1) * n;
    ScaleOrder(hi, q, n);
    ScaleOrder(lo, q + 1, n);
  }

  /** The running average after one more fill stays between the old average and the fill price. */
  lemma AverageBetween(avg: int, cum: int, price: int, qty: int)
    requires cum >= 0 && qty > 0
    requires 0 < avg <= I64_MAX && 0 < price <= I64_MAX
    ensures Min(avg, price) <= (avg * cum + price * qty) / (cum + qty) <= Max(avg, price)
  {
    var lo, hi := Min(avg, price), Max(avg, price);
    assert (avg - lo) * cum >= 0 && (price - lo) * qty >= 0;
    assert (hi - avg) * cum >= 0 && (hi - price) * qty >= 0;
    assert lo * (cum + qty) == lo * cum + lo * qty;
    assert hi * (cum + qty) == hi * cum + hi * qty;
    QuotientBound(avg * cum + price * qty, cum + qty, lo, hi);
  }

  /** With 64-bit inputs none of the overflow arms of a trade can be taken: a fresh positive trade
      within the leaves is always applied, and its average is the floor of the weighted mean. */
  lemma TradeNeverOverflows(o: Order, exec: string, qty: int, price: int)
    requires WellFormed(o)
    requires exec !in o.seenExecs && 0 < qty <= o.leavesQty && 0 < price <= I64_MAX
    ensures ApplyTrade(o, exec, qty, price).Ok?
    ensures var n := ApplyTrade(o, exec, qty, price).value.0;
      && n.avgPx == Some((o.avgPx.GetOr(0) * o.cumQty + price * qty) / (o.cumQty + qty))
      && (if o.cumQty == 0 then n.avgPx.value == price
          else Min(o.avgPx.value, price) <= n.avgPx.value <= Max(o.avgPx.value, price))
  {
    var avg := o.avgPx.GetOr(0);
    var newCum := o.cumQty + qty;
    assert newCum <= o.orderQty <= I64_MAX;
    ProductBound(price, qty, I64_MAX);
    ProductBound(avg, o.cumQty, I64_MAX);
    assert avg * o.cumQty + price * qty <= 2 * (I64_MAX * I64_MAX) <= I128_MAX;
    if o.cumQty == 0 {
      assert avg * o.cumQty == 0;
      QuotientBound(price * qty, qty, price, price);
    } else {
      AverageBetween(avg, o.cumQty, price, qty);
    }
  }

  lemma TradeKeepsWellFormed(o: Order, exec: string, qty: int, price: int)
    requires WellFormed(o) && o.status.IsWorking()
    requires FitsI64(qty) && FitsI64(price)
    requires ApplyTrade(o, exec, qty, price).Ok?
    ensures WellFormed(ApplyTrade(o, exec, qty, price).value.0)
  {
    TradeNeverOverflows(o, exec, qty, price);
  }

  /** Every accepted event keeps cum + leaves == qty, leaves == 0 exactly when Filled, distinct
      execution ids, and pending replace parameters exactly while a replace is pending. */
  lemma ApplyKeepsWellFormed(o: Order, e: OrderEvent)
    requires WellFormed(o) && EventFits(e)
    requires Apply(o, e).Ok?
    ensures WellFormed(Apply(o, e).value.0)
  {
    if e.Trade? {
      TradeKeepsWellFormed(o, e.exec, e.qty, e.price);
    }
  }

  /** A well-formed order passes the closing check, so the table alone decides. */
  lemma ApplyIsStep(o: Order, e: OrderEvent)
    requires WellFormed(o) && EventFits(e)
    ensures Apply(o, e) == Step(o, e)
  {
    if e.Trade? && o.status.IsWorking() && ApplyTrade(o, e.exec, e.qty, e.price).Ok? {
      TradeKeepsWellFormed(o, e.exec, e.qty, e.price);
    }
  }

  /** The legal moves between statuses, read as a graph. */
  predicate Edge(from: OrderStatus, to: OrderStatus) {
    match from
    case PendingNew => to.New? || to.Rejected?
    case New => to.PartiallyFilled? || to.Filled? || to.PendingCancel? || to.Canceled? || to.PendingReplace? || to.Expired?
    case PartiallyFilled => to.PartiallyFilled? || to.Filled? || to.PendingCancel? || to.Canceled? || to.PendingReplace? || to.Expired?
    case PendingCancel => to.Canceled?
    case PendingReplace => to.New? || to.PartiallyFilled? || to.Filled?
    case _ => false
  }

  /** An accepted event moves along the graph and never touches the order's identity;
      a terminal order accepts nothing. */
  lemma ApplyFollowsGraph(o: Order, e: OrderEvent)
    ensures Apply(o, e).Ok? ==>
      var n := Apply(o, e).value.0;
      && Edge(o.status, n.status)
      && n.id == o.id && n.account == o.account && n.client == o.client
      && n.instrument == o.instrument && n.side == o.side && n.tif == o.tif && n.orderType == o.orderType
    ensures o.status.IsTerminal() ==> Apply(o, e) == Err(IllegalTransition(o.status, e))
  {
  }

  // ----- whole histories of one order

  datatype Fill = Fill(exec: string, qty: int, price: int)

  /** Applies the events in order; None when one of them is refused. */
  function Replay(o: Order, events: seq<OrderEvent>): Option<Order> {
    if events == [] then Some(o)
    else
      match Replay(o, events[..|events| - 1])
      case None => None
      case Some(p) =>
        match Apply(p, events[|events| - 1])
        case Ok(n) => Some(n.0)
        case Err(_) => None
  }

  /** The trades among the events, oldest first. */
  function Fills(events: seq<OrderEvent>): seq<Fill> {
    if events == [] then []
    else
      var e := events[|events| - 1];
      Fills(events[..|events| - 1]) + (if e.Trade? then [Fill(e.exec, e.qty, e.price)] else [])
  }

  function FillQty(fills: seq<Fill>): int {
    if fills == [] then 0 else FillQty(fills[..|fills| - 1]) + fills[|fills| - 1].qty
  }

  function FillValue(fills: seq<Fill>): int {
    if fills == [] then 0
    else FillValue(fills[..|fills| - 1]) + fills[|fills| - 1].price * fills[|fills| - 1].qty
  }

  function FillExecs(fills: seq<Fill>): seq<string> {
    if fills == [] then [] else FillExecs(fills[..|fills| - 1]) + [fills[|fills| - 1].exec]
  }

  ghost predicate AllFit(events: seq<OrderEvent>) {
    forall i :: 0 <= i < |events| ==> EventFits(events[i])
  }

  ghost predicate AccountsFor(o: Order, fills: seq<Fill>) {
    WellFormed(o) && o.cumQty == FillQty(fills) && o.seenExecs == FillExecs(fills)
  }

  lemma EventAccounts(p: Order, fills: seq<Fill>, e: OrderEvent)
    requires AccountsFor(p, fills) && EventFits(e) && Apply(p, e).Ok?
    ensures AccountsFor(Apply(p, e).value.0, fills + (if e.Trade? then [Fill(e.exec, e.qty, e.price)] else []))
  {
    ApplyKeepsWellFormed(p, e);
    if e.Trade? {
      assert (fills + [Fill(e.exec, e.qty, e.price)])[..|fills|] == fills;
    } else {
      assert fills + [] == fills;
    }
  }

  /** Whole life of an order: the filled quantity is the sum of its trades, each execution id is
      counted once and in order, the result is well formed, and once terminal nothing applies. */
  lemma {:induction false} ReplayAccountsForFills(o: Order, events: seq<OrderEvent>)
    requires WellFormed(o) && o.status.PendingNew?
    requires AllFit(events) && Replay(o, events).Some?
    ensures AccountsFor(Replay(o, events).value, Fills(events))
    ensures var n := Replay(o, events).value; n.status.IsTerminal() ==> forall e :: Apply(n, e).Err?
  {
    var n := Replay(o, events).value;
    if events != [] {
      var init := events[..|events| - 1];
      ReplayAccountsForFills(o, init);
      EventAccounts(Replay(o, init).value, Fills(init), events[|events| - 1]);
    }
    forall e ensures n.status.IsTerminal() ==> Apply(n, e).Err? { ApplyFollowsGraph(n, e); }
  }

  predicate PricesWithin(fills: seq<Fill>, lo: int, hi: int) {
    forall i :: 0 <= i < |fills| ==> lo <= fills[i].price <= hi
  }

  lemma AverageStep(value: int, avg: int, cum: int, price: int, qty: int, k: nat)
    requires 0 < cum && 0 < qty && k >= 1
    requires avg * cum <= value <= avg * cum + (k - 1) * (cum - 1)
    ensures var n := (avg * cum + price * qty) / (cum + qty);
      n * (cum + qty) <= value + price * qty <= n * (cum + qty) + k * (cum + qty - 1)
  {
    var total := avg * cum + price * qty;
    var n := total / (cum + qty);
    assert n * (cum + qty) <= total <= n * (cum + qty) + (cum + qty - 1);
    assert (k - 1) * (cum - 1) <= (k - 1) * (cum + qty - 1);
    assert k * (cum + qty - 1) == (k - 1) * (cum + qty - 1) + (cum + qty - 1);
  }

  /** avg * cum <= sum of price * qty <= avg * cum + (fills - 1) * (cum - 1), and lo <= avg <= hi. */
  ghost predicate AverageTracks(o: Order, fills: seq<Fill>, lo: int, hi: int) {
    && o.avgPx.Some?
    && o.avgPx.value * o.cumQty <= FillValue(fills)
    && FillValue(fills) <= o.avgPx.value * o.cumQty + (|fills| - 1) * (o.cumQty - 1)
    && lo <= o.avgPx.value <= hi
  }

  lemma FirstFillAverage(o: Order, t: Fill, lo: int, hi: int)
    requires WellFormed(o) && o.cumQty == 0
    requires 0 < t.qty <= o.leavesQty && 0 < t.price <= I64_MAX && lo <= t.price <= hi
    ensures ApplyTrade(o, t.exec, t.qty, t.price).Ok?
    ensures AverageTracks(ApplyTrade(o, t.exec, t.qty, t.price).value.0, [t], lo, hi)
  {
    TradeNeverOverflows(o, t.exec, t.qty, t.price);
    assert FillValue([t]) == FillValue([]) + t.price * t.qty;
  }

  lemma NextFillAverage(o: Order, before: seq<Fill>, t: Fill, lo: int, hi: int)
    requires WellFormed(o) && o.cumQty > 0 && before != []
    requires AverageTracks(o, before, lo, hi)
    requires t.exec !in o.seenExecs && 0 < t.qty <= o.leavesQty && 0 < t.price <= I64_MAX && lo <= t.price <= hi
    ensures ApplyTrade(o, t.exec, t.qty, t.price).Ok?
    ensures AverageTracks(ApplyTrade(o, t.exec, t.qty, t.price).value.0, before + [t], lo, hi)
  {
    TradeNeverOverflows(o, t.exec, t.qty, t.price);
    var fills := before + [t];
    assert fills[..|fills| - 1] == before;
    AverageStep(FillValue(before), o.avgPx.value, o.cumQty, t.price, t.qty, |before|);
  }

  lemma AverageAfterTrade(p: Order, before: seq<Fill>, t: Fill, lo: int, hi: int)
    requires WellFormed(p) && p.cumQty == FillQty(before) && p.seenExecs == FillExecs(before)
    requires before != [] ==> AverageTracks(p, before, lo, hi)
    requires t.exec !in p.seenExecs && 0 < t.qty <= p.leavesQty && 0 < t.price <= I64_MAX && lo <= t.price <= hi
    ensures ApplyTrade(p, t.exec, t.qty, t.price).Ok?
    ensures AverageTracks(ApplyTrade(p, t.exec, t.qty, t.price).value.0, before + [t], lo, hi)
  {
    FillExecsLength(before);
    if before == [] {
      FirstFillAverage(p, t, lo, hi);
      assert before + [t] == [t];
    } else {
      NextFillAverage(p, before, t, lo, hi);
    }
  }

  lemma TradeEventMeans(p: Order, e: OrderEvent)
    requires WellFormed(p) && EventFits(e) && e.Trade? && Apply(p, e).Ok?
    ensures e.exec !in p.seenExecs && 0 < e.qty <= p.leavesQty && 0 < e.price <= I64_MAX
    ensures ApplyTrade(p, e.exec, e.qty, e.price).Ok?
    ensures Apply(p, e).value.0 == ApplyTrade(p, e.exec, e.qty, e.price).value.0
  {
  }

  lemma OtherEventKeepsAverage(p: Order, e: OrderEvent)
    requires !e.Trade? && Apply(p, e).Ok?
    ensures var n := Apply(p, e).value.0; n.avgPx == p.avgPx && n.cumQty == p.cumQty
  {
  }

  /** The truncated running average over a whole life of fills: it never exceeds the true value,
      loses less than cum lots of value per fill after the first, and stays inside the range of
      the fill prices. */
  lemma {:induction false} AveragePriceBound(o: Order, events: seq<OrderEvent>, lo: int, hi: int)
    requires WellFormed(o) && o.status.PendingNew?
    requires AllFit(events) && Replay(o, events).Some?
    requires Fills(events) != []
    requires PricesWithin(Fills(events), lo, hi)
    ensures AverageTracks(Replay(o, events).value, Fills(events), lo, hi)
  {
    var init, last := events[..|events| - 1], events[|events| - 1];
    var before := Fills(init);
    var p := Replay(o, init).value;
    ReplayAccountsForFills(o, init);
    if !last.Trade? {
      assert Fills(events) == before;
      AveragePriceBound(o, init, lo, hi);
      OtherEventKeepsAverage(p, last);
    } else {
      var t := Fill(last.exec, last.qty, last.price);
      assert Fills(events) == before + [t];
      assert PricesWithin(before, lo, hi) by {
        forall i | 0 <= i < |before| ensures lo <= before[i].price <= hi { assert before[i] == Fills(events)[i]; }
      }
      assert Fills(events)[|before|] == t;
      if before != [] { AveragePriceBound(o, init, lo, hi); }
      TradeEventMeans(p, last);
      AverageAfterTrade(p, before, t, lo, hi);
    }
  }

  lemma {:induction false} FillExecsLength(fills: seq<Fill>)
    ensures |FillExecs(fills)| == |fills|
  {
    if fills != [] { FillExecsLength(fills[..|fills| - 1]); }
  }

  // ----- the aggregate as the source updates it

  /** The order aggregate with its setters; Value is the record the rest of the engine sees. */
  class OrderCell {
    const id: nat
    const account: nat
    const client: string
    const instrument: nat
    const side: Side
    const orderType: OrderType
    const tif: TimeInForce
    var status: OrderStatus
    var orderQty: int
    var price: int
    var cumQty: int
    var leavesQty: int
    var avgPx: Option<int>
    var venueOrderId: Option<string>
    var rejectReason: Option<string>
    var seenExecs: seq<string>
    var pendingQty: Option<int>
    var pendingPrice: Option<int>

    ghost function Value(): Order
      reads this
    {
      Order(id, account, client, instrument, side, orderType, tif, status, orderQty, price, cumQty,
            leavesQty, avgPx, venueOrderId, rejectReason, seenExecs, pendingQty, pendingPrice)
    }

    method Snapshot() returns (o: Order)
      ensures o == Value()
    {
      o := Order(id, account, client, instrument, side, orderType, tif, status, orderQty, price, cumQty,
                 leavesQty, avgPx, venueOrderId, rejectReason, seenExecs, pendingQty, pendingPrice);
    }

    constructor Clone(o: Order)
      ensures Value() == o
    {
      id, account, client, instrument := o.id, o.account, o.client, o.instrument;
      side, orderType, tif, status := o.side, o.orderType, o.tif, o.status;
      orderQty, price, cumQty, leavesQty := o.orderQty, o.price, o.cumQty, o.leavesQty;
      avgPx, venueOrderId, rejectReason := o.avgPx, o.venueOrderId, o.rejectReason;
      seenExecs, pendingQty, pendingPrice := o.seenExecs, o.pendingQty, o.pendingPrice;
    }

    method HasExec(exec: string) returns (found: bool)
      ensures found <==> exec in seenExecs
    {
      found := false;
      for i := 0 to |seenExecs|
        invariant found <==> exec in seenExecs[..i]
      {
        if seenExecs[i] == exec { found := true; }
      }
    }

    method TakeTrade(exec: string, qty: int, px: int) returns (r: Result<bool, OrderError>)
      modifies this
      ensures match ApplyTrade(old(Value()), exec, qty, px)
              case Ok(next) => Value() == next.0 && r == Ok(next.1)
              case Err(e) => Value() == old(Value()) && r == Err(e)
    {
      var seen := HasExec(exec);
      if seen { return Err(DuplicateExec(exec)); }
      if qty <= 0 { return Err(InvalidQuantity); }
      if px <= 0 { return Err(InvalidPrice); }
      if qty > leavesQty { return Err(Overfill(qty, leavesQty)); }
      var newCum := cumQty + qty;
      if !FitsI64(newCum) { return Err(InvalidQuantity); }
      var newLeaves := orderQty - newCum;
      if !FitsI64(newLeaves) { return Err(InvalidQuantity); }
      var prev := match avgPx case Some(a) => a * cumQty case None => 0;
      assert prev == avgPx.GetOr(0) * cumQty;
      var tradeNotional := px * qty;
      if !FitsI128(tradeNotional) { return Err(InvalidQuantity); }
      var total := prev + tradeNotional;
      if !FitsI128(total) || newCum == 0 { return Err(InvalidQuantity); }
      var avg := TruncDiv(total, newCum);
      if !FitsI64(avg) { return Err(InvalidQuantity); }
      cumQty := newCum;
      leavesQty := newLeaves;
      avgPx := Some(avg);
      seenExecs := seenExecs + [exec];
      if newLeaves == 0 { status := Filled; } else { status := PartiallyFilled; }
      return Ok(newLeaves == 0);
    }

    method TakeReplaced(newQty: int, newPrice: int) returns (r: Result<(), OrderError>)
      modifies this
      ensures match ApplyReplaced(old(Value()), newQty, newPrice)
              case Ok(next) => Value() == next && r == Ok(())
              case Err(e) => Value() == old(Value()) && r == Err(e)
    {
      if newQty <= 0 { return Err(InvalidQuantity); }
      if newPrice <= 0 { return Err(InvalidPrice); }
      if newQty < cumQty { return Err(ReplaceBelowFilled(newQty, cumQty)); }
      orderQty := newQty;
      price := newPrice;
      leavesQty := newQty - cumQty;
      pendingQty, pendingPrice := None, None;
      status := if cumQty == 0 then New else if leavesQty == 0 then Filled else PartiallyFilled;
      return Ok(());
    }
  }

  /** The transition function as the source runs it: clone, mutate the clone, check, return it. */
  method ApplyEvent(order: Order, event: OrderEvent) returns (r: Result<(Order, DomainEffect), OrderError>)
    ensures r == Apply(order, event)
  {
    var next := new OrderCell.Clone(order);
    var effect: DomainEffect;
    var working := order.status.IsWorking();
    if order.status.PendingNew? && event.Accepted? {
      next.status, next.venueOrderId := New, Some(event.venueOrderId);
      effect := AcceptedEffect(event.venueOrderId);
    } else if order.status.PendingNew? && event.Reject? {
      next.status, next.rejectReason := Rejected, Some(event.reason);
      effect := RejectedEffect(event.reason);
    } else if working && event.Trade? {
      var filled := next.TakeTrade(event.exec, event.qty, event.price);
      if filled.Err? { return Err(filled.error); }
      effect := TradeEffect(event.exec, event.qty, event.price, filled.value);
    } else if working && event.CancelRequested? {
      next.status := PendingCancel;
      effect := CancelPendingEffect;
    } else if order.status.PendingCancel? && event.CancelConfirmed? {
      next.status, next.pendingQty, next.pendingPrice := Canceled, None, None;
      effect := CanceledEffect;
    } else if working && event.ReplaceRequested? {
      if event.newQty < order.cumQty { return Err(ReplaceBelowFilled(event.newQty, order.cumQty)); }
      if event.newQty <= 0 { return Err(InvalidQuantity); }
      if event.newPrice <= 0 { return Err(InvalidPrice); }
      next.pendingQty, next.pendingPrice, next.status := Some(event.newQty), Some(event.newPrice), PendingReplace;
      effect := ReplacePendingEffect;
    } else if order.status.PendingReplace? && event.Replaced? {
      var done := next.TakeReplaced(event.newQty, event.newPrice);
      if done.Err? { return Err(done.error); }
      effect := ReplacedEffect(event.newQty, event.newPrice);
    } else if working && event.Expire? {
      next.status := Expired;
      effect := ExpiredEffect;
    } else if working && event.CancelConfirmed? {
      next.status := Canceled;
      effect := CanceledEffect;
    } else {
      return Err(IllegalTransition(order.status, event));
    }
    var result := next.Snapshot();
    if !AssertInvariants(result) { return Err(InvalidQuantity); }
    return Ok((result, effect));
  }
}

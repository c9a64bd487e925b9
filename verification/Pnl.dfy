/** Average-cost inventory and realized P&L from filled orders. */
module Pnl {
  import opened Base
  import opened Ledger
  import opened Orders
  import opened Instruments
  import opened Notionals

  /** Open lots of an instrument, what they cost, and their displayed average price. */
  datatype Lot = Lot(lots: int, cost: int, avg: int)

  datatype Inventory = Inventory(realized: int, open: map<nat, Lot>)

  const EMPTY_INVENTORY := Inventory(0, map[])

  function WeightedAvg(prevAvg: int, prevLots: int, px: int, qty: int): int {
    if prevLots + qty == 0 then px
    else
      var blended := TruncDiv(prevAvg * prevLots + px * qty, prevLots + qty);
      if FitsI64(blended) then blended else prevAvg
  }

  function FillPrice(o: Order): int { o.avgPx.GetOr(o.price) }

  /** One filled order: a buy adds lots at cost, a sell of no more than is open takes its share of the
      cost (division truncated) and realizes the rest, any other sell is left out. */
  function Count(s: Inventory, o: Order, master: map<nat, Instrument>): Result<Inventory, PaperError> {
    if o.instrument !in master then Err(InstrumentFailed(UnknownInstrument(o.instrument)))
    else
      var i, qty, px := master[o.instrument], o.cumQty, FillPrice(o);
      match o.side
      case Buy =>
        (match Notional(i, px, qty)
         case Err(e) => Err(e)
         case Ok(value) =>
           var lot := if o.instrument in s.open then s.open[o.instrument] else Lot(0, 0, px);
           if !FitsI64(lot.lots + qty) || !FitsI128(lot.cost + value.minor) then Err(ArithmeticOverflow)
           else Ok(s.(open := s.open[o.instrument := Lot(lot.lots + qty, lot.cost + value.minor, WeightedAvg(lot.avg, lot.lots, px, qty))])))
      case Sell =>
        if o.instrument !in s.open || s.open[o.instrument].lots < qty then Ok(s)
        else
          var lot := s.open[o.instrument];
          if lot.lots == 0 || !FitsI128(lot.cost * qty) then Err(ArithmeticOverflow)
          else
            var share := TruncDiv(lot.cost * qty, lot.lots);
            match Notional(i, px, qty)
            case Err(e) => Err(e)
            case Ok(value) =>
              if !FitsI128(value.minor - share) || !FitsI128(s.realized + (value.minor - share)) then Err(ArithmeticOverflow)
              else
                var lots := lot.lots - qty;
                Ok(Inventory(s.realized + (value.minor - share),
                             s.open[o.instrument := Lot(lots, if lots == 0 then 0 else lot.cost - share, lot.avg)]))
  }

  function CountAll(orders: seq<Order>, master: map<nat, Instrument>): Result<Inventory, PaperError> {
    if orders == [] then Ok(EMPTY_INVENTORY)
    else match CountAll(orders[..|orders| - 1], master)
      case Err(e) => Err(e)
      case Ok(s) => Count(s, orders[|orders| - 1], master)
  }

  // ----- conservation

  /** A sell is counted when its instrument is open with at least its lots. */
  predicate Counted(s: Inventory, o: Order) {
    o.side.Buy? || (o.instrument in s.open && s.open[o.instrument].lots >= o.cumQty)
  }

  function Value(o: Order, master: map<nat, Instrument>): int {
    if o.instrument in master && Notional(master[o.instrument], FillPrice(o), o.cumQty).Ok?
    then Notional(master[o.instrument], FillPrice(o), o.cumQty).value.minor else 0
  }

  /** Counted sell proceeds minus total buy cost. */
  function CashFlow(orders: seq<Order>, master: map<nat, Instrument>): int {
    if orders == [] then 0
    else
      var init, o := orders[..|orders| - 1], orders[|orders| - 1];
      var s := CountAll(init, master);
      CashFlow(init, master) + (if s.Err? || !Counted(s.value, o) then 0 else if o.side.Buy? then -Value(o, master) else Value(o, master))
  }

  /** Lots bought minus counted lots sold. */
  function LotFlow(orders: seq<Order>, master: map<nat, Instrument>, instrument: nat): int {
    if orders == [] then 0
    else
      var init, o := orders[..|orders| - 1], orders[|orders| - 1];
      var s := CountAll(init, master);
      LotFlow(init, master, instrument)
      + (if s.Err? || o.instrument != instrument || !Counted(s.value, o) then 0 else if o.side.Buy? then o.cumQty else -o.cumQty)
  }

  ghost function OpenCost(s: Inventory): int {
    SetSum(s.open.Keys, (i: nat) => if i in s.open then s.open[i].cost else 0)
  }

  function OpenLots(s: Inventory, instrument: nat): int { if instrument in s.open then s.open[instrument].lots else 0 }

  ghost predicate LotsSound(s: Inventory) {
    forall i :: i in s.open ==> s.open[i].lots >= 0 && s.open[i].cost >= 0 && (s.open[i].lots == 0 ==> s.open[i].cost == 0)
  }

  lemma ShareBounds(cost: int, qty: int, lots: int)
    requires cost >= 0 && 0 < qty <= lots
    ensures 0 <= TruncDiv(cost * qty, lots) <= cost
    ensures qty == lots ==> TruncDiv(cost * qty, lots) == cost
  {
    assert cost * qty >= 0;
    assert cost * (lots - qty) >= 0;
    QuotientBound(cost * qty, lots, 0, cost);
    if qty == lots { QuotientBound(cost * qty, lots, cost, cost); }
  }

  lemma OpenCostAfter(s: Inventory, n: Inventory, i: nat, lot: Lot)
    requires n.open == s.open[i := lot]
    ensures OpenCost(n) == OpenCost(s) + lot.cost - (if i in s.open then s.open[i].cost else 0)
  {
    var f := (k: nat) => if k in s.open then s.open[k].cost else 0;
    var g := (k: nat) => if k in n.open then n.open[k].cost else 0;
    assert n.open.Keys == s.open.Keys + {i};
    SetSumTake(n.open.Keys, g, i);
    if i in s.open {
      SetSumTake(s.open.Keys, f, i);
      assert n.open.Keys - {i} == s.open.Keys - {i};
      SetSumSame(s.open.Keys - {i}, f, g);
    } else {
      assert n.open.Keys - {i} == s.open.Keys;
      SetSumSame(s.open.Keys, f, g);
    }
  }

  lemma BuyConserves(s: Inventory, o: Order, master: map<nat, Instrument>)
    requires LotsSound(s) && o.side.Buy? && o.cumQty > 0 && (forall i :: i in master ==> master[i].Valid())
    requires Count(s, o, master).Ok?
    ensures var n := Count(s, o, master).value;
      && LotsSound(n) && n.realized == s.realized && OpenCost(n) == OpenCost(s) + Value(o, master)
      && forall i: nat :: OpenLots(n, i) == OpenLots(s, i) + (if i == o.instrument then o.cumQty else 0)
  {
    NotionalIsExact(master[o.instrument], FillPrice(o), o.cumQty);
    var n := Count(s, o, master).value;
    OpenCostAfter(s, n, o.instrument, n.open[o.instrument]);
  }

  lemma SellConserves(s: Inventory, o: Order, master: map<nat, Instrument>)
    requires LotsSound(s) && o.side.Sell? && o.cumQty > 0 && Counted(s, o)
    requires Count(s, o, master).Ok?
    ensures var n := Count(s, o, master).value;
      && LotsSound(n) && n.realized - OpenCost(n) == s.realized - OpenCost(s) + Value(o, master)
      && forall i: nat :: OpenLots(n, i) == OpenLots(s, i) - (if i == o.instrument then o.cumQty else 0)
  {
    var lot := s.open[o.instrument];
    var n := Count(s, o, master).value;
    ShareBounds(lot.cost, o.cumQty, lot.lots);
    OpenCostAfter(s, n, o.instrument, n.open[o.instrument]);
  }

  predicate AllFilled(orders: seq<Order>) { forall i :: 0 <= i < |orders| ==> orders[i].cumQty > 0 }

  /** Although every share of cost is truncated, nothing is lost: realized profit minus what the open
      lots still cost is counted proceeds minus total cost; open lots are what was bought less what was
      counted as sold; lots and cost never go negative, and no cost stays behind without lots. */
  lemma {:induction false} PnlConserves(orders: seq<Order>, master: map<nat, Instrument>)
    requires AllFilled(orders) && (forall i :: i in master ==> master[i].Valid())
    requires CountAll(orders, master).Ok?
    ensures var s := CountAll(orders, master).value;
      && LotsSound(s) && s.realized - OpenCost(s) == CashFlow(orders, master)
      && forall i: nat :: OpenLots(s, i) == LotFlow(orders, master, i)
  {
    if orders != [] {
      var init, o := orders[..|orders| - 1], orders[|orders| - 1];
      assert AllFilled(init);
      PnlConserves(init, master);
      var s := CountAll(init, master).value;
      if o.side.Buy? { BuyConserves(s, o, master); } else if Counted(s, o) { SellConserves(s, o, master); }
    }
  }

  // ----- as the source computes it

  predicate AtMost(least: nat, ids: set<nat>) { forall j :: j in ids ==> least <= j }

  method Least(ids: set<nat>) returns (least: nat)
    requires ids != {}
    ensures least in ids && AtMost(least, ids)
  {
    least :| least in ids;
    var rest := ids - {least};
    while rest != {}
      invariant rest <= ids && least in ids && AtMost(least, ids - rest)
      decreases |rest|
    {
      var id :| id in rest;
      assert ids - (rest - {id}) == (ids - rest) + {id};
      rest := rest - {id};
      if id < least { least := id; }
    }
    assert ids - rest == ids;
  }

  predicate Ascending(out: seq<nat>) { forall i, j :: 0 <= i < j < |out| ==> out[i] < out[j] }

  predicate Below(out: seq<nat>, ids: set<nat>) { forall i :: 0 <= i < |out| ==> forall id :: id in ids ==> out[i] < id }

  method SortedIds(ids: set<nat>) returns (out: seq<nat>)
    ensures (forall id :: id in out <==> id in ids) && Ascending(out)
  {
    out := [];
    var todo := ids;
    while todo != {}
      invariant todo <= ids && Ascending(out) && Below(out, todo)
      invariant forall id :: id in out <==> id in ids - todo
      decreases |todo|
    {
      var id := Least(todo);
      out := out + [id];
      todo := todo - {id};
    }
  }

  function OrdersOf(ids: seq<nat>, orders: map<nat, Order>): seq<Order>
    requires forall i :: 0 <= i < |ids| ==> ids[i] in orders
  {
    seq(|ids|, i requires 0 <= i < |ids| => orders[ids[i]])
  }

  /** The filled orders of an account by ascending id. Orders are keyed by their ids. */
  method FilledByAge(account: nat, orders: map<nat, Order>) returns (ids: seq<nat>)
    ensures forall i :: 0 <= i < |ids| ==> ids[i] in orders
    ensures forall id :: id in ids <==> id in orders && orders[id].account == account && orders[id].cumQty > 0
    ensures Ascending(ids) && AllFilled(OrdersOf(ids, orders))
  {
    ids := SortedIds(set id | id in orders && orders[id].account == account && orders[id].cumQty > 0);
    assert forall i :: 0 <= i < |ids| ==> ids[i] in ids;
  }

  /** Counts exactly the account's filled orders, oldest first, stopping at the first failure. */
  method InventoryFromOrders(account: nat, orders: map<nat, Order>, master: map<nat, Instrument>)
    returns (r: Result<Inventory, PaperError>, ids: seq<nat>)
    ensures forall i :: 0 <= i < |ids| ==> ids[i] in orders
    ensures forall id :: id in ids <==> id in orders && orders[id].account == account && orders[id].cumQty > 0
    ensures Ascending(ids) && AllFilled(OrdersOf(ids, orders))
    ensures r == CountAll(OrdersOf(ids, orders), master)
  {
    ids := FilledByAge(account, orders);
    ghost var filled := OrdersOf(ids, orders);
    var s := EMPTY_INVENTORY;
    var i := 0;
    while i < |ids|
      invariant 0 <= i <= |ids| && CountAll(filled[..i], master) == Ok(s)
    {
      assert filled[..i + 1][..i] == filled[..i];
      var counted := Count(s, orders[ids[i]], master);
      if counted.Err? {
        CountStops(filled, master, i + 1);
        return Err(counted.error), ids;
      }
      s := counted.value;
      i := i + 1;
    }
    assert filled[..i] == filled;
    return Ok(s), ids;
  }

  lemma {:induction false} CountStops(orders: seq<Order>, master: map<nat, Instrument>, n: nat)
    requires n <= |orders| && CountAll(orders[..n], master).Err?
    ensures CountAll(orders, master) == CountAll(orders[..n], master)
    decreases |orders|
  {
    if n < |orders| {
      var init := orders[..|orders| - 1];
      assert init[..n] == orders[..n];
      CountStops(init, master, n);
    } else {
      assert orders[..n] == orders;
    }
  }
}

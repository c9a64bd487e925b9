/** Whole runs of the engine against an arbitrary report stream: reserves stay conserved, live orders
    stay funded, and no report ever meets a shortfall. */
module ReserveSafety {
  import opened Base
  import opened Ledger
  import opened Orders
  import opened OrderStores
  import opened PaperBooks
  import opened Instruments
  import opened Execution
  import opened Risk
  import opened Notionals
  import opened Sandbox
  import opened Delivery
  import opened Engine
  import opened Reserves
  import opened ReserveSteps
  import opened ReserveRuns

  // ----- live orders are funded

  /** What the order holds covers leaves lots at the price. */
  predicate Funds(e: EngineState, o: Order, price: int, leaves: int) {
    match o.side
    case Buy =>
      && o.instrument in e.master && Notional(e.master[o.instrument], price, leaves).Ok?
      && HeldCash(e, o.id) >= Notional(e.master[o.instrument], price, leaves).value.minor
    case Sell => HeldLots(e, o.id) >= leaves
  }

  /** A terminal order holds nothing; any other is funded at its own terms and at those it asked for. */
  predicate LiveOrder(e: EngineState, o: Order) {
    if o.status.IsTerminal() then o.id !in e.cash && o.id !in e.lots
    else
      && Funds(e, o, o.price, o.leavesQty)
      && (o.pendingQty.Some? && o.pendingPrice.Some? ==> Funds(e, o, o.pendingPrice.value, o.pendingQty.value - o.cumQty))
  }

  ghost predicate Live(e: EngineState) {
    forall id :: id in e.orders.orders ==> LiveOrder(e, e.orders.orders[id])
  }

  ghost predicate AllExact(e: EngineState) { forall i :: i in e.master ==> ExactSteps(e.master[i]) }

  /** No balance, position or trade value left its width. */
  predicate Clean(r: Outcome) { !Overflowed(r) && r != Err(ArithmeticOverflow) }

  ghost predicate Safe(e: EngineState) { Sane(e) && Conserved(e) && Live(e) && AllExact(e) }

  lemma LiveAfter(e: EngineState, n: EngineState, k: nat)
    requires Live(e) && OrdersOk(e) && OthersSame(e, n, k)
    requires k in n.orders.orders ==> LiveOrder(n, n.orders.orders[k])
    ensures Live(n)
  {
    forall id | id in n.orders.orders && id != k ensures LiveOrder(n, n.orders.orders[id]) {
      assert LiveOrder(e, e.orders.orders[id]);
    }
  }

  // ----- what a benign report is

  /** Checked before the report is applied: a fill carries a fresh execution id and respects a buy's
      limit; a confirmed replace echoes what was asked and finds its surplus key unused if it needs it. */
  predicate BenignEffect(e: EngineState, o: Order, n: Order, effect: DomainEffect) {
    match effect
    case TradeEffect(exec, _, price, _) => !e.book.HasKey(FillKey(exec)) && (o.side.Buy? ==> price <= o.price)
    case ReplacedEffect(qty, price) =>
      && o.pendingQty == Some(qty) && o.pendingPrice == Some(price)
      && ReplacedGuard(e, n, price)
    case _ => true
  }

  predicate Benign(e: EngineState, r: Report) {
    Taken(e, r).Some? && r.order in e.orders.orders ==>
      BenignEffect(e, e.orders.orders[r.order], Taken(e, r).value.0, Taken(e, r).value.1)
  }

  // ----- a trade

  lemma SettleUnfolds(e: EngineState, o: Order, exec: string, qty: int, price: int, filled: bool)
    requires o.instrument in e.master && Notional(e.master[o.instrument], price, qty).Ok?
    ensures var value := Notional(e.master[o.instrument], price, qty).value;
      var e1 := e.(trades := e.trades + [TradeSnapshot(o.id, exec, qty, price, e.cursor.session.GetOr(0), e.cursor.next)]);
      var (m, r) := SettleAndRelease(e1, o, exec, qty, value, filled);
      var n := TradeEffects(e, o, exec, qty, price, filled).0;
      && TradeEffects(e, o, exec, qty, price, filled).1 == r
      && n.cash == m.cash && n.lots == m.lots && n.orders == m.orders && n.book == m.book && n.master == m.master
  {
  }

  // ----- effects touch one order's hold

  ghost predicate TouchesOnly(e: EngineState, n: EngineState, id: nat) { n.orders == e.orders && OthersSame(e, n, id) }

  lemma ReleaseTouchesOnly(e: EngineState, o: Order)
    ensures TouchesOnly(e, ReleaseRemaining(e, o).0, o.id)
  {
    assert TouchesOnly(e, ReleaseCash(e, o).0, o.id);
  }

  lemma BuyTouchesOnly(e: EngineState, o: Order, exec: string, qty: int, value: Money)
    ensures TouchesOnly(e, SettleBuyFill(e, o, exec, qty, value).0, o.id)
  {
  }

  lemma SellTouchesOnly(e: EngineState, o: Order, exec: string, qty: int, value: Money)
    ensures TouchesOnly(e, SettleSellFill(e, o, exec, qty, value).0, o.id)
  {
  }

  lemma TouchesTwice(e: EngineState, m: EngineState, n: EngineState, id: nat)
    requires TouchesOnly(e, m, id) && TouchesOnly(m, n, id)
    ensures TouchesOnly(e, n, id)
  {
  }

  lemma SettleTouchesOnly(e: EngineState, o: Order, exec: string, qty: int, value: Money, filled: bool)
    ensures TouchesOnly(e, SettleAndRelease(e, o, exec, qty, value, filled).0, o.id)
  {
    var m := SettleFill(e, o, exec, qty, value).0;
    if o.side.Buy? { BuyTouchesOnly(e, o, exec, qty, value); } else { SellTouchesOnly(e, o, exec, qty, value); }
    ReleaseTouchesOnly(m, o);
    TouchesTwice(e, m, ReleaseRemaining(m, o).0, o.id);
  }

  lemma TradeTouchesOnly(e: EngineState, o: Order, exec: string, qty: int, price: int, filled: bool)
    ensures TouchesOnly(e, TradeEffects(e, o, exec, qty, price, filled).0, o.id)
  {
    if o.instrument in e.master && Notional(e.master[o.instrument], price, qty).Ok? {
      var e1 := e.(trades := e.trades + [TradeSnapshot(o.id, exec, qty, price, e.cursor.session.GetOr(0), e.cursor.next)]);
      var value := Notional(e.master[o.instrument], price, qty).value;
      SettleUnfolds(e, o, exec, qty, price, filled);
      SettleTouchesOnly(e1, o, exec, qty, value, filled);
      TouchesAlike(e, e1, SettleAndRelease(e1, o, exec, qty, value, filled).0, TradeEffects(e, o, exec, qty, price, filled).0, o.id);
    }
  }

  lemma TouchesAlike(e: EngineState, e1: EngineState, m: EngineState, n: EngineState, id: nat)
    requires e1.orders == e.orders && e1.cash == e.cash && e1.lots == e.lots && e1.master == e.master
    requires n.orders == m.orders && n.cash == m.cash && n.lots == m.lots && n.master == m.master
    requires TouchesOnly(e1, m, id)
    ensures TouchesOnly(e, n, id)
  {
  }

  lemma CashOfOneTouchesOnly(e: EngineState, n: EngineState, id: nat)
    requires n.orders == e.orders && n.master == e.master && n.lots == e.lots && n.cash - {id} == e.cash - {id}
    ensures TouchesOnly(e, n, id)
  {
    forall k: nat | k != id ensures (k in n.cash <==> k in e.cash) && (k in e.cash ==> n.cash[k] == e.cash[k]) {
      assert k in n.cash <==> k in n.cash - {id};
      assert k in e.cash <==> k in e.cash - {id};
      if k in e.cash { assert n.cash[k] == (n.cash - {id})[k] && e.cash[k] == (e.cash - {id})[k]; }
    }
  }

  lemma ReserveSetElsewhere(cash: map<nat, Money>, id: nat, target: Money)
    ensures (cash - {id})[id := target] - {id} == cash - {id} && cash - {id} - {id} == cash - {id}
  {
  }

  lemma ReplacedBuyTouchesOnly(e: EngineState, o: Order, i: Instrument, price: int)
    ensures TouchesOnly(e, ReplacedBuy(e, o, i, price).0, o.id)
  {
    var n := ReplacedBuy(e, o, i, price).0;
    if Notional(i, price, o.leavesQty).Ok? { ReserveSetElsewhere(e.cash, o.id, Notional(i, price, o.leavesQty).value); }
    CashOfOneTouchesOnly(e, n, o.id);
  }

  lemma ReplacedSellTouchesOnly(e: EngineState, o: Order)
    ensures TouchesOnly(e, ReplacedSell(e, o).0, o.id)
  {
  }

  lemma EffectTouchesOnly(e: EngineState, o: Order, effect: DomainEffect)
    ensures TouchesOnly(e, ApplyEffect(e, o, effect).0, o.id)
  {
    match effect
    case TradeEffect(exec, qty, price, filled) => TradeTouchesOnly(e, o, exec, qty, price, filled);
    case RejectedEffect(_) => ReleaseTouchesOnly(e, o);
    case CanceledEffect => ReleaseTouchesOnly(e, o);
    case ExpiredEffect => ReleaseTouchesOnly(e, o);
    case ReplacedEffect(_, price) =>
      if o.instrument in e.master {
        if o.side.Buy? { ReplacedBuyTouchesOnly(e, o, e.master[o.instrument], price); } else { ReplacedSellTouchesOnly(e, o); }
      }
    case AcceptedEffect(_) =>
    case CancelPendingEffect =>
    case ReplacePendingEffect =>
  }

  // ----- every effect of a benign report succeeds and leaves its order funded

  lemma FillStaysFunded(e: EngineState, p: Order, qty: int, price: int)
    requires p.instrument in e.master && e.master[p.instrument].Valid() && ExactSteps(e.master[p.instrument])
    requires p.side.Buy? && 0 < price <= p.price && 0 < qty <= p.leavesQty && Funds(e, p, p.price, p.leavesQty)
    ensures var i := e.master[p.instrument];
      && Notional(i, price, qty).Ok? && HeldCash(e, p.id) >= Notional(i, price, qty).value.minor
      && (qty < p.leavesQty ==>
            && Notional(i, p.price, p.leavesQty - qty).Ok?
            && HeldCash(e, p.id) - Notional(i, price, qty).value.minor >= Notional(i, p.price, p.leavesQty - qty).value.minor)
  {
    FillFitsReserve(e.master[p.instrument], price, qty, p.price, p.leavesQty);
  }

  lemma TradeWorth(e: EngineState, p: Order, qty: int, price: int)
    requires MasterOk(e) && AllExact(e) && p.instrument in e.master
    requires 0 < price && 0 < qty <= p.leavesQty
    requires Funds(e, p, p.price, p.leavesQty) && (p.side.Buy? ==> price <= p.price)
    ensures Notional(e.master[p.instrument], price, qty) == Err(ArithmeticOverflow)
            || (Notional(e.master[p.instrument], price, qty).Ok?
                && var value := Notional(e.master[p.instrument], price, qty).value;
                   value.minor > 0 && value.currency == e.master[p.instrument].quote && Covered(e, p, qty, value))
  {
    var i := e.master[p.instrument];
    NotionalWhenExact(i, price, qty);
    if p.side.Buy? { FillStaysFunded(e, p, qty, price); }
  }

  /** o is p after a fill of qty lots, filled or not. */
  predicate FilledFrom(p: Order, o: Order, qty: int, filled: bool) {
    && o.id == p.id && o.account == p.account && o.instrument == p.instrument && o.side == p.side
    && o.price == p.price && 0 < qty <= p.leavesQty && o.leavesQty == p.leavesQty - qty
    && o.pendingQty == None && filled == (o.leavesQty == 0)
    && o.status == (if filled then Filled else PartiallyFilled)
  }

  lemma SettledIsLive(e: EngineState, p: Order, o: Order, exec: string, qty: int, price: int, filled: bool, value: Money, n: EngineState)
    requires Sane(e) && Conserved(e) && AllExact(e) && o.id in e.orders.orders && e.orders.orders[o.id] == o
    requires FilledFrom(p, o, qty, filled) && 0 < price && (p.side.Buy? ==> price <= p.price)
    requires Funds(e, p, p.price, p.leavesQty) && Notional(e.master[o.instrument], price, qty) == Ok(value)
    requires value.minor > 0 && value.currency == e.master[o.instrument].quote && Covered(e, o, qty, value)
    requires !e.book.HasKey(ReleaseKey(o.account, o.id))
    requires !Overflowed(SettleAndRelease(e, o, exec, qty, value, filled).1)
    requires n == SettleAndRelease(e, o, exec, qty, value, filled).0
    ensures SettleAndRelease(e, o, exec, qty, value, filled).1.Ok? && LiveOrder(n, o)
  {
    SettleConservesIff(e, o, exec, qty, value, filled, n);
    SettleTouchesOnly(e, o, exec, qty, value, filled);
    if !filled { RestIsFunded(e, p, o, qty, price, value, n); }
  }

  lemma RestIsFunded(e: EngineState, p: Order, o: Order, qty: int, price: int, value: Money, n: EngineState)
    requires MasterOk(e) && AllExact(e) && n.master == e.master && o.instrument in e.master
    requires FilledFrom(p, o, qty, false) && 0 < price && (p.side.Buy? ==> price <= p.price)
    requires Funds(e, p, p.price, p.leavesQty) && Notional(e.master[o.instrument], price, qty) == Ok(value)
    requires HeldCash(n, o.id) == HeldCash(e, o.id) - (if o.side.Buy? then value.minor else 0)
    requires HeldLots(n, o.id) == HeldLots(e, o.id) - (if o.side.Sell? then qty else 0)
    ensures LiveOrder(n, o)
  {
    if p.side.Buy? { FillStaysFunded(e, p, qty, price); }
  }

  lemma TradeServed(e: EngineState, p: Order, o: Order, exec: string, qty: int, price: int, filled: bool)
    requires Sane(e) && Conserved(e) && AllExact(e) && o.id in e.orders.orders && e.orders.orders[o.id] == o
    requires FilledFrom(p, o, qty, filled) && 0 < price && (p.side.Buy? ==> price <= p.price)
    requires Funds(e, p, p.price, p.leavesQty)
    requires !e.book.HasKey(ReleaseKey(o.account, o.id))
    requires Clean(TradeEffects(e, o, exec, qty, price, filled).1)
    ensures var (n, r) := TradeEffects(e, o, exec, qty, price, filled); r.Ok? && LiveOrder(n, o)
  {
    TradeWorth(e, p, qty, price);
    var quoted := Notional(e.master[o.instrument], price, qty);
    if quoted.Ok? {
      SettleUnfolds(e, o, exec, qty, price, filled);
      var e1 := e.(trades := e.trades + [TradeSnapshot(o.id, exec, qty, price, e.cursor.session.GetOr(0), e.cursor.next)]);
      SidelinesKeep(e, e1.trades, e.marks, e.cursor, e.risk);
      SettledIsLive(e1, p, o, exec, qty, price, filled, quoted.value, SettleAndRelease(e1, o, exec, qty, quoted.value, filled).0);
    }
  }

  lemma ReplacedServed(e: EngineState, p: Order, o: Order, qty: int, price: int)
    requires Sane(e) && Conserved(e) && o.id in e.orders.orders && e.orders.orders[o.id] == o
    requires WellFormed(p) && p.status.PendingReplace? && ApplyReplaced(p, qty, price) == Ok(o)
    requires p.pendingQty == Some(qty) && p.pendingPrice == Some(price)
    requires Funds(e, p, price, qty - p.cumQty)
    requires !Overflowed(ApplyEffect(e, o, ReplacedEffect(qty, price)).1)
    ensures var (n, r) := ApplyEffect(e, o, ReplacedEffect(qty, price)); r.Ok? && LiveOrder(n, o)
  {
    ReplacedEffectUnfolds(e, o, qty, price);
    if o.side.Buy? {
      ReplacedBuyConservesIff(e, o, price);
      ReplacedBuyTouchesOnly(e, o, e.master[o.instrument], price);
    } else {
      ReplacedSellConservesIff(e, o);
      assert HoldOk(e, o.id);
    }
  }

  lemma ReplacedEffectUnfolds(e: EngineState, o: Order, qty: int, price: int)
    requires o.instrument in e.master
    ensures ApplyEffect(e, o, ReplacedEffect(qty, price))
            == if o.side.Buy? then ReplacedBuy(e, o, e.master[o.instrument], price) else ReplacedSell(e, o)
  {
  }

  lemma ReleasedServed(e: EngineState, o: Order)
    requires Sane(e) && Conserved(e) && o.id in e.orders.orders && e.orders.orders[o.id] == o
    requires o.status.IsTerminal() && !e.book.HasKey(ReleaseKey(o.account, o.id))
    requires !Overflowed(ReleaseRemaining(e, o).1)
    ensures var (n, r) := ReleaseRemaining(e, o); r.Ok? && LiveOrder(n, o)
  {
    ReleaseAllConserves(e, o);
  }

  /** o and the effect are what the event makes of p. */
  predicate Led(p: Order, event: OrderEvent, o: Order, effect: DomainEffect) { Apply(p, event) == Ok((o, effect)) }

  lemma LedShape(p: Order, event: OrderEvent, o: Order, effect: DomainEffect)
    requires WellFormed(p) && EventFits(event) && Led(p, event, o, effect)
    ensures match effect
            case TradeEffect(_, qty, price, filled) => FilledFrom(p, o, qty, filled) && price > 0
            case ReplacedEffect(qty, price) => p.status.PendingReplace? && ApplyReplaced(p, qty, price) == Ok(o)
            case RejectedEffect(_) => o.status.IsTerminal()
            case CanceledEffect => o.status.IsTerminal()
            case ExpiredEffect => o.status.IsTerminal()
            case AcceptedEffect(v) => o == p.(status := New, venueOrderId := Some(v))
            case CancelPendingEffect => o == p.(status := PendingCancel)
            case ReplacePendingEffect => event.ReplaceRequested?
  {
    ApplyKeepsWellFormed(p, event);
  }

  /** o stands in e in place of the funded order p, which the event led from to o and its effect. */
  ghost predicate Served(e: EngineState, p: Order, event: OrderEvent, o: Order, effect: DomainEffect) {
    && Sane(e) && Conserved(e) && AllExact(e) && o.id in e.orders.orders && e.orders.orders[o.id] == o
    && WellFormed(p) && EventFits(event) && Led(p, event, o, effect) && !event.ReplaceRequested?
    && o.id == p.id && o.side == p.side && o.instrument == p.instrument && !p.status.IsTerminal()
    && LiveOrder(e, p) && BenignEffect(e, p, o, effect) && !e.book.HasKey(ReleaseKey(o.account, o.id))
  }

  lemma TradeCase(e: EngineState, p: Order, event: OrderEvent, o: Order, exec: string, qty: int, price: int, filled: bool)
    requires Served(e, p, event, o, TradeEffect(exec, qty, price, filled)) && Clean(TradeEffects(e, o, exec, qty, price, filled).1)
    ensures var (n, r) := TradeEffects(e, o, exec, qty, price, filled); r.Ok? && LiveOrder(n, o)
  {
    LedShape(p, event, o, TradeEffect(exec, qty, price, filled));
    TradeServed(e, p, o, exec, qty, price, filled);
  }

  lemma ReplacedCase(e: EngineState, p: Order, event: OrderEvent, o: Order, qty: int, price: int)
    requires Served(e, p, event, o, ReplacedEffect(qty, price)) && !Overflowed(ApplyEffect(e, o, ReplacedEffect(qty, price)).1)
    ensures var (n, r) := ApplyEffect(e, o, ReplacedEffect(qty, price)); r.Ok? && LiveOrder(n, o)
  {
    LedShape(p, event, o, ReplacedEffect(qty, price));
    ReplacedServed(e, p, o, qty, price);
  }

  lemma ReleasedCase(e: EngineState, p: Order, event: OrderEvent, o: Order, effect: DomainEffect)
    requires Served(e, p, event, o, effect) && (effect.RejectedEffect? || effect.CanceledEffect? || effect.ExpiredEffect?)
    requires !Overflowed(ReleaseRemaining(e, o).1)
    ensures var (n, r) := ReleaseRemaining(e, o); r.Ok? && LiveOrder(n, o)
  {
    LedShape(p, event, o, effect);
    ReleasedServed(e, o);
  }

  lemma StatusCase(e: EngineState, p: Order, event: OrderEvent, o: Order, effect: DomainEffect)
    requires Served(e, p, event, o, effect) && (effect.AcceptedEffect? || effect.CancelPendingEffect?)
    ensures LiveOrder(e, o)
  {
    LedShape(p, event, o, effect);
    assert Funds(e, o, o.price, o.leavesQty) <==> Funds(e, p, p.price, p.leavesQty);
  }

  lemma NoAskServed(e: EngineState, p: Order, event: OrderEvent, o: Order, effect: DomainEffect)
    requires Served(e, p, event, o, effect)
    ensures !effect.ReplacePendingEffect?
  {
    LedShape(p, event, o, effect);
  }

  /** The effect of a benign event on a funded order succeeds and leaves the order funded. */
  lemma EffectServed(e: EngineState, p: Order, event: OrderEvent, o: Order, effect: DomainEffect)
    requires Served(e, p, event, o, effect) && Clean(ApplyEffect(e, o, effect).1)
    ensures var (n, r) := ApplyEffect(e, o, effect); r.Ok? && LiveOrder(n, o)
  {
    NoAskServed(e, p, event, o, effect);
    match effect
    case TradeEffect(exec, qty, price, filled) => TradeCase(e, p, event, o, exec, qty, price, filled);
    case ReplacedEffect(qty, price) => ReplacedCase(e, p, event, o, qty, price);
    case RejectedEffect(_) => ReleasedCase(e, p, event, o, effect);
    case CanceledEffect => ReleasedCase(e, p, event, o, effect);
    case ExpiredEffect => ReleasedCase(e, p, event, o, effect);
    case AcceptedEffect(_) => StatusCase(e, p, event, o, effect);
    case CancelPendingEffect => StatusCase(e, p, event, o, effect);
    case ReplacePendingEffect =>
  }

  lemma TakenMeans(e: EngineState, r: Report)
    requires OrdersOk(e) && ReportFits(r) && Taken(e, r).Some?
    ensures r.order in e.orders.orders && ToOrderEvent(r).Ok? && ToOrderEvent(r).value.Some?
    ensures var event := ToOrderEvent(r).value.value; var p := e.orders.orders[r.order]; var (o, effect) := Taken(e, r).value;
      && EventFits(event) && !event.ReplaceRequested? && Led(p, event, o, effect) && WellFormed(p)
      && o.id == p.id == r.order && o.side == p.side && o.instrument == p.instrument && !p.status.IsTerminal()
  {
    TakenOrder(e, r.order, ToOrderEvent(r).value.value);
  }

  lemma StoredServed(e: EngineState, r: Report, m: EngineState, o: Order, effect: DomainEffect)
    requires Safe(e) && ReportFits(r) && Benign(e, r) && Taken(e, r) == Some((o, effect)) && m == Stored(e, r)
    requires Sane(m) && Conserved(m) && o.id in m.orders.orders && m.orders.orders[o.id] == o
    requires !m.book.HasKey(ReleaseKey(o.account, o.id))
    requires Clean(ApplyEffect(m, o, effect).1)
    ensures var (n, out) := ApplyEffect(m, o, effect); out.Ok? && LiveOrder(n, o)
  {
    TakenMeans(e, r);
    var p := e.orders.orders[r.order];
    assert LiveOrder(e, p);
    StoredAlike(e, m, p, o, effect);
    EffectServed(m, p, ToOrderEvent(r).value.value, o, effect);
  }

  lemma StoredAlike(e: EngineState, m: EngineState, p: Order, o: Order, effect: DomainEffect)
    requires m.book == e.book && m.cash == e.cash && m.lots == e.lots && m.master == e.master
    ensures LiveOrder(e, p) ==> LiveOrder(m, p)
    ensures BenignEffect(e, p, o, effect) ==> BenignEffect(m, p, o, effect)
  {
  }

  lemma StoredThenTouched(e: EngineState, o: Order, log: seq<LogLine>, cursor: Cursor, n: EngineState)
    requires Live(e) && OrdersOk(e) && TouchesOnly(StoreOrder(e, o, log, cursor), n, o.id) && LiveOrder(n, o)
    ensures Live(n)
  {
    LiveAfter(e, n, o.id);
  }

  lemma TakenIsServed(e: EngineState, r: Report)
    requires Safe(e) && ReportFits(r) && Benign(e, r) && Taken(e, r).Some?
    requires Clean(ApplyReport(e, r).1)
    ensures ApplyReport(e, r).1.Ok? && Live(ApplyReport(e, r).0) && ApplyReport(e, r).0.master == e.master
  {
    var (o, effect) := Taken(e, r).value;
    ReportUnfolds(e, r);
    TakenIsReady(e, r);
    StoredServed(e, r, Stored(e, r), o, effect);
    EffectTouchesOnly(Stored(e, r), o, effect);
    var n := ApplyEffect(Stored(e, r), o, effect).0;
    StoredThenTouched(e, o, e.orders.log + [LogLine(r.order, Applied(ToOrderEvent(r).value.value))], Enter(e.cursor, r.session), n);
    LiveIgnoresCursor(n, Advance(n, r.seqNo));
  }

  lemma LiveIgnoresCursor(e: EngineState, n: EngineState)
    requires Live(e) && n.orders.orders == e.orders.orders && n.cash == e.cash && n.lots == e.lots && n.master == e.master
    ensures Live(n)
  {
    forall id | id in n.orders.orders ensures LiveOrder(n, n.orders.orders[id]) { assert LiveOrder(e, e.orders.orders[id]); }
  }

  lemma BenignIsGuarded(e: EngineState, r: Report)
    requires OrdersOk(e) && Benign(e, r)
    ensures ReportGuard(e, r)
  {
    if Taken(e, r).Some? {
      ApplyFollowsGraph(e.orders.orders[r.order], ToOrderEvent(r).value.value);
    }
  }

  lemma NotTakenOutcome(e: EngineState, r: Report)
    requires Taken(e, r).None?
    ensures var out := ApplyReport(e, r).1; out.Ok? || out.error.VenueFailed? || out.error.OrderFailed?
  {
  }

  /** A benign report in a safe state: the state stays safe, and the only errors are those of the
      report itself, never a shortfall, a ledger refusal or an inexact value. */
  lemma ReportKeepsSafe(e: EngineState, r: Report)
    requires Safe(e) && ReportFits(r) && Benign(e, r) && Clean(ApplyReport(e, r).1)
    ensures Safe(ApplyReport(e, r).0)
    ensures Taken(e, r).Some? ==> ApplyReport(e, r).1 == Ok(())
    ensures var out := ApplyReport(e, r).1; out.Ok? || out.error.VenueFailed? || out.error.OrderFailed?
  {
    BenignIsGuarded(e, r);
    ReportConservesIff(e, r);
    if Taken(e, r).Some? {
      TakenIsServed(e, r);
    } else {
      ReportUnfolds(e, r);
      NotTakenOutcome(e, r);
      LiveIgnoresCursor(e, ApplyReport(e, r).0);
    }
  }

  // ----- the client commands

  lemma CashCommandKeepsSafe(e: EngineState, account: nat, amount: Money, key: string)
    requires Safe(e)
    ensures Clean(EngineDeposit(e, account, amount, key).1) ==> Safe(EngineDeposit(e, account, amount, key).0)
    ensures Clean(EngineWithdraw(e, account, amount, key).1) ==> Safe(EngineWithdraw(e, account, amount, key).0)
  {
    if Clean(EngineDeposit(e, account, amount, key).1) {
      DepositConserves(e, account, amount, key);
      LiveIgnoresCursor(e, EngineDeposit(e, account, amount, key).0);
    }
    if Clean(EngineWithdraw(e, account, amount, key).1) {
      WithdrawConserves(e, account, amount, key);
      LiveIgnoresCursor(e, EngineWithdraw(e, account, amount, key).0);
    }
  }

  lemma CancelUnfolds(e: EngineState, id: nat)
    ensures var (n, r) := StageCancel(e, id);
      && n == e.(orders := n.orders) && (r.Err? ==> n == e)
      && (r.Ok? ==> id in e.orders.orders && e.orders.orders[id].status.IsWorking()
                    && n.orders.orders == e.orders.orders[id := e.orders.orders[id].(status := PendingCancel)])
  {
  }

  lemma CancelingIsLive(e: EngineState, n: EngineState, o: Order)
    requires n == e.(orders := n.orders) && LiveOrder(e, o) && !o.status.IsTerminal()
    ensures LiveOrder(n, o.(status := PendingCancel))
  {
    assert Funds(n, o.(status := PendingCancel), o.price, o.leavesQty) <==> Funds(e, o, o.price, o.leavesQty);
  }

  lemma CancelKeepsSafe(e: EngineState, id: nat)
    requires Safe(e)
    ensures Safe(StageCancel(e, id).0)
  {
    CancelConserves(e, id);
    CancelUnfolds(e, id);
    var (n, r) := StageCancel(e, id);
    if r.Ok? {
      assert LiveOrder(e, e.orders.orders[id]);
      CancelingIsLive(e, n, e.orders.orders[id]);
      LiveAfter(e, n, id);
    }
  }

  /** The order and its value when a submission gets as far as creating an order. */
  function Creates(e: EngineState, req: SubmitRequest, inputs: Option<RiskInputs>): Option<(Order, Money)> {
    match Quote(e, req.instrument, req.price, req.qty)
    case Err(_) => None
    case Ok(q) =>
      if (req.account, req.client) in e.orders.byClient && e.orders.byClient[(req.account, req.client)] in e.orders.orders then None
      else if inputs.None? then None
      else if Check(e.risk, IntentOf(req), RiskContextOf(e, req, q.0, q.1, inputs.value)).RiskRejected? then None
      else match SubmitTo(e.orders, CreateOf(req)).1
        case Ok(CreatedOrder(o)) => Some((o, q.1))
        case _ => None
  }

  lemma SubmitUnfolds(e: EngineState, req: SubmitRequest, inputs: Option<RiskInputs>)
    ensures match Creates(e, req, inputs)
            case Some((o, value)) =>
              var m := e.(orders := SubmitTo(e.orders, CreateOf(req)).0);
              var (n, r) := HoldForOrder(m, o, value);
              StageSubmit(e, req, inputs) == (n, if r.Ok? then Ok(Staged(o)) else Err(r.error))
            case None =>
              var n := StageSubmit(e, req, inputs).0;
              n == e.(orders := n.orders) && n.orders.orders == e.orders.orders
              && (StageSubmit(e, req, inputs).1.Err? ==> !StageSubmit(e, req, inputs).1.error.LedgerFailed?)
  {
  }

  /** A created order's state, ready for its hold. */
  ghost predicate ReadyToHold(e: EngineState, m: EngineState, o: Order, value: Money) {
    && o.id !in e.orders.orders && m == e.(orders := m.orders) && m.orders.orders == e.orders.orders[o.id := o]
    && Sane(m) && Conserved(m) && o.status.PendingNew? && WellFormed(o)
    && o.id !in m.cash && o.id !in m.lots && !m.book.HasKey(ReserveKey(o.account, o.id))
    && o.instrument in m.master && Notional(m.master[o.instrument], o.price, o.orderQty) == Ok(value)
  }

  lemma HeldCashOthers(e: EngineState, m: EngineState, n: EngineState, o: Order, value: Money, x: Order)
    requires m == e.(orders := m.orders) && m.orders.orders == e.orders.orders[o.id := o]
    requires n.master == m.master && n.lots == m.lots && (n.cash == m.cash || n.cash == m.cash[o.id := value])
    requires n.orders.orders == m.orders.orders || n.orders.orders == m.orders.orders[o.id := x]
    ensures OthersSame(e, n, o.id)
  {
  }

  lemma BuyHeld(m: EngineState, o: Order, value: Money, n: EngineState)
    requires Sane(m) && Conserved(m) && o.id in m.orders.orders && m.orders.orders[o.id] == o && WellFormed(o)
    requires o.side.Buy? && o.status.PendingNew? && o.id !in m.cash && o.id !in m.lots
    requires !m.book.HasKey(ReserveKey(o.account, o.id)) && o.instrument in m.master
    requires Notional(m.master[o.instrument], o.price, o.orderQty) == Ok(value)
    requires !Overflowed(HoldForOrder(m, o, value).1) && n == HoldForOrder(m, o, value).0
    ensures n.master == m.master && n.lots == m.lots && o.id in n.orders.orders
    ensures var x := o.(status := Rejected, rejectReason := Some("insufficient funds"));
      if HoldForOrder(m, o, value).1.Ok? then n.orders.orders == m.orders.orders && n.cash == m.cash[o.id := value]
      else n.orders.orders == m.orders.orders[o.id := x] && n.cash == m.cash
    ensures LiveOrder(n, n.orders.orders[o.id])
  {
    NotionalIsExact(m.master[o.instrument], o.price, o.orderQty);
    HoldBuyConserves(m, o, value);
    if HoldForOrder(m, o, value).1.Ok? {
      HeldBuyIsLive(m, n, o, value);
    } else {
      LedgerOnlyRejects(m, n.book, o, "insufficient funds");
    }
  }

  lemma BuyHoldLeavesLive(e: EngineState, m: EngineState, o: Order, value: Money, n: EngineState)
    requires Live(e) && OrdersOk(e) && ReadyToHold(e, m, o, value) && o.side.Buy?
    requires !Overflowed(HoldForOrder(m, o, value).1) && n == HoldForOrder(m, o, value).0
    ensures Live(n)
  {
    BuyHeld(m, o, value, n);
    HeldCashOthers(e, m, n, o, value, o.(status := Rejected, rejectReason := Some("insufficient funds")));
    LiveAfter(e, n, o.id);
  }

  lemma HoldLeavesLive(e: EngineState, m: EngineState, o: Order, value: Money, n: EngineState)
    requires Live(e) && OrdersOk(e) && ReadyToHold(e, m, o, value)
    requires !Overflowed(HoldForOrder(m, o, value).1) && n == HoldForOrder(m, o, value).0
    ensures Live(n) && n.master == m.master
  {
    HoldKeepsMaster(m, o, value);
    if o.side.Buy? { BuyHoldLeavesLive(e, m, o, value, n); } else { SellHoldLeavesLive(e, m, o, value, n); }
  }

  lemma HeldBuyIsLive(m: EngineState, n: EngineState, o: Order, value: Money)
    requires n == Rehold(m, o, value, n.book) && o.side.Buy? && o.status.PendingNew? && WellFormed(o)
    requires o.instrument in m.master && Notional(m.master[o.instrument], o.price, o.orderQty) == Ok(value)
    ensures LiveOrder(n, o)
  {
  }

  lemma HeldSellIsLive(m: EngineState, n: EngineState, o: Order)
    requires n == m.(book := n.book, lots := m.lots[o.id := o.orderQty]) && o.side.Sell? && o.status.PendingNew? && WellFormed(o)
    ensures LiveOrder(n, o)
  {
  }

  lemma HeldLotsOthers(e: EngineState, m: EngineState, n: EngineState, o: Order, q: int, x: Order)
    requires m == e.(orders := m.orders) && m.orders.orders == e.orders.orders[o.id := o]
    requires n.master == m.master && n.cash == m.cash && (n.lots == m.lots || n.lots == m.lots[o.id := q])
    requires n.orders.orders == m.orders.orders || n.orders.orders == m.orders.orders[o.id := x]
    ensures OthersSame(e, n, o.id)
  {
  }

  lemma SellHeld(m: EngineState, o: Order, value: Money, n: EngineState)
    requires Sane(m) && Conserved(m) && o.id in m.orders.orders && m.orders.orders[o.id] == o && WellFormed(o)
    requires o.side.Sell? && o.status.PendingNew? && o.id !in m.cash && o.id !in m.lots
    requires n == HoldForOrder(m, o, value).0
    ensures n.master == m.master && n.cash == m.cash && o.id in n.orders.orders
    ensures var x := o.(status := Rejected, rejectReason := Some("insufficient position"));
      if HoldForOrder(m, o, value).1.Ok? then n.orders.orders == m.orders.orders && n.lots == m.lots[o.id := o.orderQty]
      else n.orders.orders == m.orders.orders[o.id := x] && n.lots == m.lots
    ensures LiveOrder(n, n.orders.orders[o.id])
  {
    HoldSellConserves(m, o, value);
    if HoldForOrder(m, o, value).1.Ok? {
      HeldSellIsLive(m, n, o);
    } else {
      LedgerOnlyRejects(m, n.book, o, "insufficient position");
    }
  }

  lemma SellHoldLeavesLive(e: EngineState, m: EngineState, o: Order, value: Money, n: EngineState)
    requires Live(e) && OrdersOk(e) && ReadyToHold(e, m, o, value) && o.side.Sell?
    requires n == HoldForOrder(m, o, value).0
    ensures Live(n)
  {
    SellHeld(m, o, value, n);
    HeldLotsOthers(e, m, n, o, o.orderQty, o.(status := Rejected, rejectReason := Some("insufficient position")));
    LiveAfter(e, n, o.id);
  }

  lemma LedgerOnlyRejects(m: EngineState, book: Book, o: Order, reason: string)
    requires OrdersOk(m) && o.id in m.orders.orders && m.orders.orders[o.id] == o && o.status.PendingNew?
    ensures var n := RejectUnfunded(m.(book := book), o.id, reason);
      && n.cash == m.cash && n.lots == m.lots && n.master == m.master && n.book == book
      && n.orders.orders == m.orders.orders[o.id := o.(status := Rejected, rejectReason := Some(reason))]
  {
  }

  lemma CreatesMeans(e: EngineState, req: SubmitRequest, inputs: Option<RiskInputs>)
    requires Sane(e) && Conserved(e) && RequestFits(req) && Creates(e, req, inputs).Some?
    ensures var (o, value) := Creates(e, req, inputs).value;
      && ReadyToHold(e, e.(orders := SubmitTo(e.orders, CreateOf(req)).0), o, value)
      && o.account == req.account && o.side == req.side && o.orderQty == req.qty && o.instrument == req.instrument
  {
    QuoteMeans(e, req.instrument, req.price, req.qty);
    CreatedIsReady(e, req);
  }

  lemma SubmitKeepsSafe(e: EngineState, req: SubmitRequest, inputs: Option<RiskInputs>)
    requires Safe(e) && RequestFits(req)
    requires StageSubmit(e, req, inputs).1 != Err(LedgerFailed(MoneyOverflow)) && StageSubmit(e, req, inputs).1 != Err(LedgerFailed(LedgerError.InvalidQuantity))
    ensures Safe(StageSubmit(e, req, inputs).0)
  {
    SubmitConserves(e, req, inputs);
    SubmitLeavesLive(e, req, inputs, StageSubmit(e, req, inputs).0);
  }

  lemma SubmitLeavesLive(e: EngineState, req: SubmitRequest, inputs: Option<RiskInputs>, n: EngineState)
    requires Safe(e) && RequestFits(req) && n == StageSubmit(e, req, inputs).0
    requires StageSubmit(e, req, inputs).1 != Err(LedgerFailed(MoneyOverflow)) && StageSubmit(e, req, inputs).1 != Err(LedgerFailed(LedgerError.InvalidQuantity))
    ensures Live(n) && n.master == e.master
  {
    SubmitUnfolds(e, req, inputs);
    match Creates(e, req, inputs)
    case Some((o, value)) =>
      CreatesMeans(e, req, inputs);
      HoldLeavesLive(e, e.(orders := SubmitTo(e.orders, CreateOf(req)).0), o, value, n);
    case None => LiveIgnoresCursor(e, n);
  }

  lemma HoldKeepsMaster(e: EngineState, o: Order, value: Money)
    ensures HoldForOrder(e, o, value).0.master == e.master
  {
  }

  lemma DrawTouchesOnly(e: EngineState, o: Order, target: Money)
    ensures var (n, r) := Draw(e, o, target);
      && TouchesOnly(e, n, o.id) && n.lots == e.lots && HeldCash(n, o.id) >= HeldCash(e, o.id)
      && (r.Ok? ==> HeldCash(n, o.id) >= target.minor)
  {
  }

  lemma TopUpFunds(e: EngineState, o: Order, req: ReplaceRequest)
    requires HoldOk(e, o.id) && o.id in e.orders.orders && e.orders.orders[o.id] == o
    requires o.instrument in e.master && e.master[o.instrument].Valid()
    ensures var (n, r) := TopUp(e, o, e.master[o.instrument], req);
      && TouchesOnly(e, n, o.id)
      && HeldCash(n, o.id) >= HeldCash(e, o.id) && HeldLots(n, o.id) >= HeldLots(e, o.id)
      && (r.Ok? ==> Funds(n, o, req.price, req.qty - o.cumQty))
  {
    var i := e.master[o.instrument];
    if o.side.Buy? {
      TopUpBuyUnfolds(e, o, i, req);
      match Notional(i, req.price, req.qty - o.cumQty)
      case Err(_) =>
      case Ok(target) => DrawTouchesOnly(e, o, target);
    } else {
      TopUpSellUnfolds(e, o, i, req);
    }
  }

  lemma MoreHeldStaysLive(e: EngineState, n: EngineState, o: Order)
    requires n.master == e.master && LiveOrder(e, o) && !o.status.IsTerminal()
    requires HeldCash(n, o.id) >= HeldCash(e, o.id) && HeldLots(n, o.id) >= HeldLots(e, o.id)
    ensures LiveOrder(n, o)
  {
  }

  /** The order after asking for a replace, when its status allows it. */
  lemma AskUnfolds(e: EngineState, o: Order, qty: int, price: int)
    requires o.id in e.orders.orders && e.orders.orders[o.id] == o && WellFormed(o) && FitsI64(qty) && FitsI64(price)
    ensures var (orders, asked) := ApplyTo(e.orders, o.id, ReplaceRequested(qty, price));
      && (asked.Ok? ==> orders.orders == e.orders.orders[o.id := o.(pendingQty := Some(qty), pendingPrice := Some(price), status := PendingReplace)])
      && (asked.Err? ==> orders == e.orders)
  {
  }

  lemma AskedIsLive(m: EngineState, n: EngineState, o: Order, qty: int, price: int)
    requires LiveOrder(m, o) && !o.status.IsTerminal() && Funds(m, o, price, qty - o.cumQty)
    requires n == m.(orders := n.orders)
    ensures LiveOrder(n, o) && LiveOrder(n, o.(pendingQty := Some(qty), pendingPrice := Some(price), status := PendingReplace))
  {
    var asked := o.(pendingQty := Some(qty), pendingPrice := Some(price), status := PendingReplace);
    assert Funds(n, asked, o.price, o.leavesQty) <==> Funds(m, o, o.price, o.leavesQty);
    assert Funds(n, asked, price, qty - o.cumQty) <==> Funds(m, o, price, qty - o.cumQty);
  }

  lemma AskKeepsLive(e: EngineState, m: EngineState, n: EngineState, o: Order, asked: Order)
    requires Live(e) && OrdersOk(e) && TouchesOnly(e, m, o.id) && o.id in e.orders.orders
    requires n == m.(orders := n.orders) && LiveOrder(n, o) && LiveOrder(n, asked) && m.orders.orders[o.id] == o
    requires n.orders.orders == m.orders.orders || n.orders.orders == m.orders.orders[o.id := asked]
    ensures Live(n) && n.master == e.master
  {
    LiveAfter(e, n, o.id);
  }

  lemma ReplaceLeavesLive(e: EngineState, req: ReplaceRequest)
    requires Safe(e) && FitsI64(req.qty) && FitsI64(req.price) && ReachesTopUp(e, req)
    requires !e.orders.orders[req.order].status.IsTerminal()
    ensures Live(StageReplace(e, req).0) && StageReplace(e, req).0.master == e.master
  {
    StageReplaceUnfolds(e, req);
    var o := e.orders.orders[req.order];
    var (m, r) := TopUp(e, o, e.master[o.instrument], req);
    assert HoldOk(e, o.id) && LiveOrder(e, o);
    TopUpFunds(e, o, req);
    MoreHeldStaysLive(e, m, o);
    if r.Ok? {
      AskUnfolds(m, o, req.qty, req.price);
      var n := m.(orders := ApplyTo(m.orders, req.order, ReplaceRequested(req.qty, req.price)).0);
      AskedIsLive(m, n, o, req.qty, req.price);
      AskKeepsLive(e, m, n, o, o.(pendingQty := Some(req.qty), pendingPrice := Some(req.price), status := PendingReplace));
    } else {
      LiveAfter(e, m, o.id);
    }
  }

  /** A replace on any order that is not terminal, whatever else its status. */
  predicate OnLiveOrder(e: EngineState, req: ReplaceRequest) {
    req.order in e.orders.orders ==> !e.orders.orders[req.order].status.IsTerminal()
  }

  lemma ReplaceKeepsSafe(e: EngineState, req: ReplaceRequest)
    requires Safe(e) && FitsI64(req.qty) && FitsI64(req.price) && OnLiveOrder(e, req) && ReplaceGuard(e, req)
    requires Clean(StageReplace(e, req).1)
    ensures Safe(StageReplace(e, req).0)
  {
    ReplaceConservesIff(e, req);
    if ReachesTopUp(e, req) { ReplaceLeavesLive(e, req); } else { StageReplaceUnfolds(e, req); }
  }

  // ----- whole runs

  predicate Allowed(e: EngineState, input: Input) {
    match input
    case SubmitInput(req, _) => RequestFits(req)
    case ReplaceInput(req) => FitsI64(req.qty) && FitsI64(req.price) && OnLiveOrder(e, req) && ReplaceGuard(e, req)
    case ReportInput(r) => ReportFits(r) && Benign(e, r)
    case _ => true
  }

  /** Every input was allowed when it came, and none overflowed a width. */
  predicate CleanRun(e: EngineState, inputs: seq<Input>) {
    inputs == [] ||
    var before := After(e, inputs[..|inputs| - 1]);
    CleanRun(e, inputs[..|inputs| - 1]) && Allowed(before, inputs[|inputs| - 1]) && Clean(Act(before, inputs[|inputs| - 1]).1)
  }

  lemma ActKeepsSafe(e: EngineState, input: Input)
    requires Safe(e) && Allowed(e, input) && Clean(Act(e, input).1)
    ensures Safe(Act(e, input).0)
    ensures input.ReportInput? ==>
      var out := Act(e, input).1; out.Ok? || out.error.VenueFailed? || out.error.OrderFailed?
  {
    match input
    case DepositInput(account, amount, key) => CashCommandKeepsSafe(e, account, amount, key);
    case WithdrawInput(account, amount, key) => CashCommandKeepsSafe(e, account, amount, key);
    case SubmitInput(req, inputs) => SubmitKeepsSafe(e, req, inputs);
    case CancelInput(id) => CancelKeepsSafe(e, id);
    case ReplaceInput(req) => ReplaceKeepsSafe(e, req);
    case RefusedInput(err) => RiskKeepsSafe(e, VenueRefused(e, err).risk);
    case RiskInput(risk) => RiskKeepsSafe(e, risk);
    case ReportInput(report) => ReportKeepsSafe(e, report);
  }

  lemma RiskKeepsSafe(e: EngineState, risk: RiskState)
    requires Safe(e)
    ensures Safe(e.(risk := risk))
  {
    SidelinesKeep(e, e.trades, e.marks, e.cursor, risk);
    LiveIgnoresCursor(e, e.(risk := risk));
  }

  lemma NewEngineIsSafe(master: map<nat, Instrument>, risk: RiskState)
    requires forall i :: i in master ==> master[i].Valid() && ExactSteps(master[i])
    ensures Safe(NewEngine(master, risk))
  {
    NewEngineConserved(master, risk);
  }

  /** In every run: the journal's reserved cash and the reserved lots equal the sums of the per-order
      holds, every live order is funded at its own and its requested terms, terminal orders hold nothing,
      and no report ends in a shortfall, a ledger refusal or an inexact value. */
  lemma {:induction false} EveryRunIsSafe(master: map<nat, Instrument>, risk: RiskState, inputs: seq<Input>)
    requires forall i :: i in master ==> master[i].Valid() && ExactSteps(master[i])
    requires CleanRun(NewEngine(master, risk), inputs)
    ensures Safe(After(NewEngine(master, risk), inputs))
    ensures inputs != [] && inputs[|inputs| - 1].ReportInput? ==>
      var out := Act(After(NewEngine(master, risk), inputs[..|inputs| - 1]), inputs[|inputs| - 1]).1;
      out.Ok? || out.error.VenueFailed? || out.error.OrderFailed?
  {
    if inputs == [] {
      NewEngineIsSafe(master, risk);
    } else {
      EveryRunIsSafe(master, risk, inputs[..|inputs| - 1]);
      ActKeepsSafe(After(NewEngine(master, risk), inputs[..|inputs| - 1]), inputs[|inputs| - 1]);
    }
  }

  // ----- submit and its funding check

  lemma BuyHoldOutcome(m: EngineState, o: Order, value: Money)
    requires Sane(m) && Conserved(m) && o.id in m.orders.orders && m.orders.orders[o.id] == o && o.side.Buy?
    requires o.status.PendingNew? && o.id !in m.cash && o.id !in m.lots && !m.book.HasKey(ReserveKey(o.account, o.id))
    requires Notional(m.master[o.instrument], o.price, o.orderQty) == Ok(value)
    requires HoldForOrder(m, o, value).1 != Err(LedgerFailed(MoneyOverflow))
    requires value.minor <= m.book.Available(o.account, value.currency)
    ensures HoldForOrder(m, o, value).1 != Err(LedgerFailed(InsufficientFunds))
    ensures HoldForOrder(m, o, value).1 != Err(LedgerFailed(InsufficientPosition))
  {
    NotionalIsExact(m.master[o.instrument], o.price, o.orderQty);
    if !Overflowed(HoldForOrder(m, o, value).1) { HoldBuyConserves(m, o, value); }
  }

  lemma SellHoldOutcome(m: EngineState, o: Order, value: Money)
    requires Sane(m) && o.side.Sell? && o.orderQty > 0
    ensures HoldForOrder(m, o, value).1
            == if o.orderQty <= m.book.AvailablePosition(o.account, o.instrument) then Ok(()) else Err(LedgerFailed(InsufficientPosition))
  {
    ReserveLotsOutcome(m.book, o.account, o.instrument, o.orderQty);
  }

  /** The pre-trade check leaves no gap to the hold: an approved buy is always funded, and an approved
      sell misses its lots exactly when it asks for more than is free, which needs shorting allowed. */
  lemma SubmitNeverUnderfunded(e: EngineState, req: SubmitRequest, inputs: Option<RiskInputs>)
    requires Sane(e) && Conserved(e) && RequestFits(req)
    requires StageSubmit(e, req, inputs).1 != Err(LedgerFailed(MoneyOverflow))
    ensures StageSubmit(e, req, inputs).1 != Err(LedgerFailed(InsufficientFunds))
    ensures StageSubmit(e, req, inputs).1 == Err(LedgerFailed(InsufficientPosition)) <==>
      Creates(e, req, inputs).Some? && req.side.Sell? && e.book.AvailablePosition(req.account, req.instrument) < req.qty
    ensures !e.risk.limits.allowShort ==> StageSubmit(e, req, inputs).1 != Err(LedgerFailed(InsufficientPosition))
  {
    SubmitUnfolds(e, req, inputs);
    match Creates(e, req, inputs)
    case None =>
    case Some((o, value)) =>
      CreatesMeans(e, req, inputs);
      CreatesApproved(e, req, inputs);
      var m := e.(orders := SubmitTo(e.orders, CreateOf(req)).0);
      if req.side.Buy? { BuyHoldOutcome(m, o, value); } else { SellHoldOutcome(m, o, value); }
  }

  lemma CreatesApproved(e: EngineState, req: SubmitRequest, inputs: Option<RiskInputs>)
    requires Creates(e, req, inputs).Some? && MasterOk(e)
    ensures var value := Creates(e, req, inputs).value.1;
      && (req.side.Buy? ==> value.minor <= e.book.Available(req.account, value.currency))
      && (req.side.Sell? && !e.risk.limits.allowShort ==> req.qty <= e.book.AvailablePosition(req.account, req.instrument))
  {
    QuoteMeans(e, req.instrument, req.price, req.qty);
    var q := Quote(e, req.instrument, req.price, req.qty).value;
    ApprovedMeans(e.risk, IntentOf(req), RiskContextOf(e, req, q.0, q.1, inputs.value));
  }
}

/** When each engine step keeps the reserves conserved: an exact, checkable guard per step. */
module ReserveSteps {
  import opened Base
  import opened Ledger
  import opened Orders
  import opened OrderStores
  import opened PaperBooks
  import opened Instruments
  import opened Execution
  import opened Risk
  import opened Notionals
  import opened Sandbox
  import opened Delivery
  import opened Engine
  import opened Reserves

  // ----- the guards

  /** The order and effect a report leads to, when the cursor lets it through and its event is legal. */
  function Taken(e: EngineState, r: Report): Option<(Order, DomainEffect)> {
    if Judge(e.cursor, r) != Offer then None
    else
      match ToOrderEvent(r)
      case Ok(Some(event)) =>
        if r.order !in e.orders.orders then None
        else (match Apply(e.orders.orders[r.order], event) case Ok(next) => Some(next) case Err(_) => None)
      case _ => None
  }

  /** A fill that the hold can cover must carry a fill key the journal has not seen. */
  predicate TradeGuard(e: EngineState, o: Order, exec: string, qty: int, price: int) {
    o.instrument in e.master && Notional(e.master[o.instrument], price, qty).Ok?
    && (if o.side.Buy? then HeldCash(e, o.id) >= Notional(e.master[o.instrument], price, qty).value.minor
        else HeldLots(e, o.id) >= qty)
    ==> !e.book.HasKey(FillKey(exec))
  }

  /** A confirmed replace must not need more than is held, and may give a surplus back only once. */
  predicate ReplacedGuard(e: EngineState, o: Order, price: int) {
    if o.side.Buy? then
      (o.instrument in e.master && Notional(e.master[o.instrument], price, o.leavesQty).Ok? ==>
         var target := Notional(e.master[o.instrument], price, o.leavesQty).value.minor;
         HeldCash(e, o.id) == target
         || (HeldCash(e, o.id) > target && !e.book.HasKey(ReplaceReleaseKey(o.account, o.id))))
    else HeldLots(e, o.id) >= o.leavesQty
  }

  predicate EffectGuard(e: EngineState, o: Order, effect: DomainEffect) {
    match effect
    case TradeEffect(exec, qty, price, _) => TradeGuard(e, o, exec, qty, price)
    case ReplacedEffect(_, price) => ReplacedGuard(e, o, price)
    case _ => true
  }

  predicate ReportGuard(e: EngineState, r: Report) {
    match Taken(e, r)
    case None => true
    case Some(next) => EffectGuard(e, next.0, next.1)
  }

  /** A replace that will draw more cash must find its top-up key unused. */
  predicate ReplaceGuard(e: EngineState, req: ReplaceRequest) {
    if req.order !in e.orders.orders then true
    else
      var o := e.orders.orders[req.order];
      if o.side.Sell? || o.instrument !in e.master then true
      else
        var i := e.master[o.instrument];
        if AssertOrderGrid(i, req.price, req.qty).Err? || req.qty < o.cumQty then true
        else
          match Notional(i, req.price, req.qty - o.cumQty)
          case Err(_) => true
          case Ok(target) =>
            var delta := target.minor - HeldCash(e, o.id);
            delta > 0 && delta <= e.book.Available(o.account, i.quote) ==> !e.book.HasKey(ReplaceReserveKey(o.account, o.id))
  }

  // ----- orders move first

  /** e after order n was stored; nothing on the ledger side changed. */
  function StoreOrder(e: EngineState, n: Order, log: seq<LogLine>, cursor: Cursor): EngineState {
    e.(orders := e.orders.(orders := e.orders.orders[n.id := n], log := log), cursor := cursor)
  }

  /** n may stand in for the order of its id: same owner and side, and the old one not terminal. */
  ghost predicate Succeeds(e: EngineState, n: Order) {
    && n.id in e.orders.orders && WellFormed(n)
    && var o := e.orders.orders[n.id];
       n.account == o.account && n.instrument == o.instrument && n.side == o.side && !o.status.IsTerminal()
  }

  lemma StoringKeepsSane(e: EngineState, n: Order, log: seq<LogLine>, cursor: Cursor)
    requires Sane(e) && Succeeds(e, n)
    ensures Sane(StoreOrder(e, n, log, cursor))
  {
    var m := StoreOrder(e, n, log, cursor);
    forall id: nat ensures HoldOk(m, id) { assert HoldOk(e, id); }
  }

  lemma StoringConserves(e: EngineState, n: Order, log: seq<LogLine>, cursor: Cursor)
    requires Sane(e) && Conserved(e) && Succeeds(e, n)
    ensures Conserved(StoreOrder(e, n, log, cursor))
  {
    assert HoldOk(e, n.id);
    ConservedIff(e, StoreOrder(e, n, log, cursor), n.id, n.account, e.master[n.instrument].quote, n.instrument, 0, 0);
  }

  lemma StoringKeeps(e: EngineState, n: Order, log: seq<LogLine>, cursor: Cursor)
    requires Sane(e) && Conserved(e) && Succeeds(e, n)
    ensures Sane(StoreOrder(e, n, log, cursor)) && Conserved(StoreOrder(e, n, log, cursor))
    ensures forall a: nat :: !e.book.HasKey(ReleaseKey(a, n.id))
  {
    StoringKeepsSane(e, n, log, cursor);
    StoringConserves(e, n, log, cursor);
  }

  lemma TakenOrder(e: EngineState, id: nat, event: OrderEvent)
    requires OrdersOk(e) && id in e.orders.orders && EventFits(event) && Apply(e.orders.orders[id], event).Ok?
    ensures var o, n := e.orders.orders[id], Apply(e.orders.orders[id], event).value.0;
      && n.id == id && n.account == o.account && n.instrument == o.instrument && n.side == o.side
      && !o.status.IsTerminal() && WellFormed(n)
  {
    ApplyKeepsWellFormed(e.orders.orders[id], event);
    ApplyFollowsGraph(e.orders.orders[id], event);
  }

  // ----- then the ledger

  predicate HarmlessKey(e: EngineState, o: Order, key: Key) {
    key.FillKey? || key.ReplaceReleaseKey? || key.ReplaceReserveKey?
    || (key.ReserveKey? && key.order <= e.orders.nextId)
    || (key == ReleaseKey(o.account, o.id) && o.status.IsTerminal())
  }

  lemma SaneAfterShift(e: EngineState, n: EngineState, o: Order, c: Currency, dCash: int, dLots: int, key: Key)
    requires Sane(e) && Shift(e, n, o, c, dCash, dLots) && HoldOk(n, o.id)
    requires o.id in e.orders.orders && e.orders.orders[o.id] == o
    requires KeysGrow(e.book, n.book, key) && HarmlessKey(e, o, key)
    ensures Sane(n)
  {
    forall id: nat ensures HoldOk(n, id) { assert HoldOk(e, id); }
  }

  /** For a ledger-side step: conserved exactly when buckets and hold moved alike. */
  lemma ShiftConservesIff(e: EngineState, n: EngineState, o: Order, c: Currency, dCash: int, dLots: int)
    requires Sane(e) && Conserved(e) && o.id in e.orders.orders && e.orders.orders[o.id] == o
    requires c == e.master[o.instrument].quote
    requires Shift(e, n, o, c, dCash, dLots) && HoldOk(n, o.id)
    ensures Conserved(n) <==> dCash == HeldCash(n, o.id) - HeldCash(e, o.id) && dLots == HeldLots(n, o.id) - HeldLots(e, o.id)
  {
    assert HoldOk(e, o.id);
    ConservedIff(e, n, o.id, o.account, c, o.instrument, dCash, dLots);
  }

  lemma ReleaseAllConserves(e: EngineState, o: Order)
    requires Sane(e) && Conserved(e) && o.id in e.orders.orders && e.orders.orders[o.id] == o
    requires o.status.IsTerminal() && !e.book.HasKey(ReleaseKey(o.account, o.id))
    requires !Overflowed(ReleaseRemaining(e, o).1)
    ensures var (n, r) := ReleaseRemaining(e, o);
      && r.Ok? && Sane(n) && Conserved(n) && n.orders == e.orders
      && n.cash == e.cash - {o.id} && n.lots == e.lots - {o.id}
  {
    var c := e.master[o.instrument].quote;
    assert HoldOk(e, o.id);
    HoldWithinBucket(e, o.id);
    ReleaseRemainingShifts(e, o, c);
    var n := ReleaseRemaining(e, o).0;
    SaneAfterShift(e, n, o, c, -HeldCash(e, o.id), -HeldLots(e, o.id), ReleaseKey(o.account, o.id));
    ShiftConservesIff(e, n, o, c, -HeldCash(e, o.id), -HeldLots(e, o.id));
  }

  /** After a step that took no more from the buckets than from the hold, the hold is still covered. */
  lemma StillCovered(e: EngineState, m: EngineState, o: Order, c: Currency, dCash: int, dLots: int)
    requires Sane(e) && Conserved(e) && o.id in e.orders.orders && e.orders.orders[o.id] == o
    requires c == e.master[o.instrument].quote && HoldOk(m, o.id) && Shift(e, m, o, c, dCash, dLots)
    requires HeldCash(m, o.id) - HeldCash(e, o.id) <= dCash && HeldLots(m, o.id) - HeldLots(e, o.id) <= dLots
    ensures o.id in m.cash ==> m.cash[o.id].currency == c && 0 < m.cash[o.id].minor <= m.book.Reserved(o.account, c)
    ensures o.id in m.lots ==> 0 < m.lots[o.id] <= m.book.ReservedPosition(o.account, o.instrument)
  {
    assert HoldOk(e, o.id);
    HoldWithinBucket(e, o.id);
    assert m.book.Reserved(o.account, c) == e.book.Reserved(o.account, c) + dCash;
    assert m.book.ReservedPosition(o.account, o.instrument) == e.book.ReservedPosition(o.account, o.instrument) + dLots;
    assert e.book.Reserved(o.account, c) >= 0 && e.book.ReservedPosition(o.account, o.instrument) >= 0;
  }

  /** After a fill moved the hold, the rest of a filled order's hold goes back; the fill alone decides
      whether the books stay conserved. */
  lemma FillThenRelease(e: EngineState, m: EngineState, o: Order, c: Currency, dCash: int, dLots: int, n: EngineState)
    requires Sane(e) && Conserved(e) && o.id in e.orders.orders && e.orders.orders[o.id] == o && o.status.IsTerminal()
    requires c == e.master[o.instrument].quote
    requires !m.book.HasKey(ReleaseKey(o.account, o.id)) && !Overflowed(ReleaseRemaining(m, o).1)
    requires Sane(m) && Shift(e, m, o, c, dCash, dLots) && n == ReleaseRemaining(m, o).0
    requires HeldCash(m, o.id) - HeldCash(e, o.id) <= dCash && HeldLots(m, o.id) - HeldLots(e, o.id) <= dLots
    ensures ReleaseRemaining(m, o).1.Ok? && Sane(n) && n.orders == e.orders && n.cash == m.cash - {o.id} && n.lots == m.lots - {o.id}
    ensures Conserved(n) <==> dCash == HeldCash(m, o.id) - HeldCash(e, o.id) && dLots == HeldLots(m, o.id) - HeldLots(e, o.id)
  {
    assert HoldOk(m, o.id);
    StillCovered(e, m, o, c, dCash, dLots);
    ReleaseRemainingShifts(m, o, c);
    SaneAfterShift(m, n, o, c, -HeldCash(m, o.id), -HeldLots(m, o.id), ReleaseKey(o.account, o.id));
    ShiftThen(e, m, n, o, c, dCash, dLots, -HeldCash(m, o.id), -HeldLots(m, o.id));
    ShiftConservesIff(e, n, o, c, dCash - HeldCash(m, o.id), dLots - HeldLots(m, o.id));
  }

  predicate Covered(e: EngineState, o: Order, qty: int, value: Money) {
    if o.side.Buy? then HeldCash(e, o.id) >= value.minor else HeldLots(e, o.id) >= qty
  }

  /** What a covered fill takes from the buckets: nothing under a used key. */
  function FillCash(e: EngineState, o: Order, exec: string, value: Money): int {
    if o.side.Buy? && !e.book.HasKey(FillKey(exec)) then -value.minor else 0
  }

  function FillLots(e: EngineState, o: Order, exec: string, qty: int): int {
    if o.side.Sell? && !e.book.HasKey(FillKey(exec)) then -qty else 0
  }

  /** m is e after a covered fill: the hold shrank, and the buckets unless the key was used. */
  ghost predicate FillMoved(e: EngineState, m: EngineState, o: Order, exec: string, qty: int, value: Money) {
    && Sane(m) && Shift(e, m, o, value.currency, FillCash(e, o, exec, value), FillLots(e, o, exec, qty))
    && HeldCash(m, o.id) == HeldCash(e, o.id) - (if o.side.Buy? then value.minor else 0)
    && HeldLots(m, o.id) == HeldLots(e, o.id) - (if o.side.Sell? then qty else 0)
    && m.book.journal.byKey.Keys == e.book.journal.byKey.Keys + {FillKey(exec)}
  }

  lemma SettleFillShifts(e: EngineState, o: Order, exec: string, qty: int, value: Money)
    requires Sane(e) && Conserved(e) && o.id in e.orders.orders && e.orders.orders[o.id] == o
    requires qty > 0 && value.minor > 0 && value.currency == e.master[o.instrument].quote
    requires !Overflowed(SettleFill(e, o, exec, qty, value).1)
    ensures var (m, r) := SettleFill(e, o, exec, qty, value);
      && (r.Ok? <==> Covered(e, o, qty, value))
      && (r.Err? ==> m == e && r == Err(ReservationShortfall(o.id)))
      && (r.Ok? ==> FillMoved(e, m, o, exec, qty, value))
  {
    if o.side.Buy? { BuyFillStaysSane(e, o, exec, qty, value); } else { SellFillStaysSane(e, o, exec, qty, value); }
  }

  lemma BuyFillStaysSane(e: EngineState, o: Order, exec: string, qty: int, value: Money)
    requires Sane(e) && Conserved(e) && o.id in e.orders.orders && e.orders.orders[o.id] == o && o.side.Buy?
    requires qty > 0 && value.minor > 0 && value.currency == e.master[o.instrument].quote
    requires !Overflowed(SettleBuyFill(e, o, exec, qty, value).1)
    ensures var (m, r) := SettleBuyFill(e, o, exec, qty, value); var used := e.book.HasKey(FillKey(exec));
      && (r.Ok? <==> HeldCash(e, o.id) >= value.minor)
      && (r.Err? ==> m == e && r == Err(ReservationShortfall(o.id)))
      && (r.Ok? ==>
            && Sane(m) && Shift(e, m, o, value.currency, if used then 0 else -value.minor, 0)
            && HeldCash(m, o.id) == HeldCash(e, o.id) - value.minor && HeldLots(m, o.id) == HeldLots(e, o.id)
            && m.book.journal.byKey.Keys == e.book.journal.byKey.Keys + {FillKey(exec)})
  {
    assert HoldOk(e, o.id);
    HoldWithinBucket(e, o.id);
    BuyFillShifts(e, o, exec, qty, value);
    var (m, r) := SettleBuyFill(e, o, exec, qty, value);
    if r.Ok? {
      assert HoldOk(m, o.id);
      SaneAfterShift(e, m, o, value.currency, if e.book.HasKey(FillKey(exec)) then 0 else -value.minor, 0, FillKey(exec));
    }
  }

  lemma SellFillStaysSane(e: EngineState, o: Order, exec: string, qty: int, value: Money)
    requires Sane(e) && Conserved(e) && o.id in e.orders.orders && e.orders.orders[o.id] == o && o.side.Sell?
    requires qty > 0 && value.minor > 0 && value.currency == e.master[o.instrument].quote
    requires !Overflowed(SettleSellFill(e, o, exec, qty, value).1)
    ensures var (m, r) := SettleSellFill(e, o, exec, qty, value); var used := e.book.HasKey(FillKey(exec));
      && (r.Ok? <==> HeldLots(e, o.id) >= qty)
      && (r.Err? ==> m == e && r == Err(ReservationShortfall(o.id)))
      && (r.Ok? ==>
            && Sane(m) && Shift(e, m, o, value.currency, 0, if used then 0 else -qty)
            && HeldCash(m, o.id) == HeldCash(e, o.id) && HeldLots(m, o.id) == HeldLots(e, o.id) - qty
            && m.book.journal.byKey.Keys == e.book.journal.byKey.Keys + {FillKey(exec)})
  {
    assert HoldOk(e, o.id);
    HoldWithinBucket(e, o.id);
    SellFillShifts(e, o, exec, qty, value);
    var (m, r) := SettleSellFill(e, o, exec, qty, value);
    if r.Ok? {
      assert HoldOk(m, o.id);
      SaneAfterShift(e, m, o, value.currency, 0, if e.book.HasKey(FillKey(exec)) then 0 else -qty, FillKey(exec));
    }
  }

  /** The trade log, the marks, the cursor and the risk state touch neither reserves nor orders. */
  lemma SidelinesKeep(e: EngineState, trades: seq<TradeSnapshot>, marks: map<nat, int>, cursor: Cursor, risk: RiskState)
    ensures var n := e.(trades := trades, marks := marks, cursor := cursor, risk := risk);
      && (Sane(n) <==> Sane(e)) && (Conserved(n) <==> Conserved(e))
  {
    var n := e.(trades := trades, marks := marks, cursor := cursor, risk := risk);
    forall id: nat ensures HoldOk(n, id) <==> HoldOk(e, id) {}
    forall a: nat, c: Currency ensures CashTotal(n, a, c) == CashTotal(e, a, c) {
      SumSame(e.orders.nextId, (id: nat) => CashFor(e, id, a, c), (id: nat) => CashFor(n, id, a, c));
    }
    forall a: nat, i: nat ensures LotsTotal(n, a, i) == LotsTotal(e, a, i) {
      SumSame(e.orders.nextId, (id: nat) => LotsFor(e, id, a, i), (id: nat) => LotsFor(n, id, a, i));
    }
    if Conserved(n) {
      assert forall a: nat, c: Currency :: n.book.Reserved(a, c) == CashTotal(n, a, c);
      assert forall a: nat, i: nat :: n.book.ReservedPosition(a, i) == LotsTotal(n, a, i);
      forall a: nat, c: Currency ensures e.book.Reserved(a, c) == CashTotal(e, a, c) {
        assert n.book.Reserved(a, c) == CashTotal(n, a, c);
      }
      forall a: nat, i: nat ensures e.book.ReservedPosition(a, i) == LotsTotal(e, a, i) {
        assert n.book.ReservedPosition(a, i) == LotsTotal(n, a, i);
      }
    }
    if Conserved(e) {
      forall a: nat, c: Currency ensures n.book.Reserved(a, c) == CashTotal(n, a, c) {
        assert e.book.Reserved(a, c) == CashTotal(e, a, c);
      }
      forall a: nat, i: nat ensures n.book.ReservedPosition(a, i) == LotsTotal(n, a, i) {
        assert e.book.ReservedPosition(a, i) == LotsTotal(e, a, i);
      }
    }
  }

  lemma SettleConservesIff(e: EngineState, o: Order, exec: string, qty: int, value: Money, filled: bool, n: EngineState)
    requires Sane(e) && Conserved(e) && o.id in e.orders.orders && e.orders.orders[o.id] == o
    requires filled ==> o.status.IsTerminal()
    requires qty > 0 && value.minor > 0 && value.currency == e.master[o.instrument].quote
    requires !e.book.HasKey(ReleaseKey(o.account, o.id))
    requires !Overflowed(SettleAndRelease(e, o, exec, qty, value, filled).1)
    requires n == SettleAndRelease(e, o, exec, qty, value, filled).0
    ensures var r := SettleAndRelease(e, o, exec, qty, value, filled).1;
      (r.Ok? <==> Covered(e, o, qty, value)) && (r.Err? ==> r == Err(ReservationShortfall(o.id)))
    ensures Sane(n) && n.orders == e.orders
    ensures Conserved(n) <==> (Covered(e, o, qty, value) ==> !e.book.HasKey(FillKey(exec)))
    ensures Covered(e, o, qty, value) && filled ==> o.id !in n.cash && o.id !in n.lots
    ensures Covered(e, o, qty, value) && !filled ==>
      && HeldCash(n, o.id) == HeldCash(e, o.id) - (if o.side.Buy? then value.minor else 0)
      && HeldLots(n, o.id) == HeldLots(e, o.id) - (if o.side.Sell? then qty else 0)
  {
    SettleFillShifts(e, o, exec, qty, value);
    var (m, r) := SettleFill(e, o, exec, qty, value);
    if r.Ok? {
      if filled { FilledConservesIff(e, m, o, exec, qty, value, n); } else { FillConservesIff(e, m, o, exec, qty, value); }
    }
  }

  lemma FilledConservesIff(e: EngineState, m: EngineState, o: Order, exec: string, qty: int, value: Money, n: EngineState)
    requires Sane(e) && Conserved(e) && o.id in e.orders.orders && e.orders.orders[o.id] == o && o.status.IsTerminal()
    requires value.currency == e.master[o.instrument].quote && qty > 0 && value.minor > 0
    requires FillMoved(e, m, o, exec, qty, value) && !e.book.HasKey(ReleaseKey(o.account, o.id))
    requires !Overflowed(ReleaseRemaining(m, o).1) && n == ReleaseRemaining(m, o).0
    ensures ReleaseRemaining(m, o).1.Ok? && Sane(n) && n.orders == e.orders && o.id !in n.cash && o.id !in n.lots
    ensures Conserved(n) <==> !e.book.HasKey(FillKey(exec))
  {
    FillThenRelease(e, m, o, value.currency, FillCash(e, o, exec, value), FillLots(e, o, exec, qty), n);
  }

  lemma FillConservesIff(e: EngineState, m: EngineState, o: Order, exec: string, qty: int, value: Money)
    requires Sane(e) && Conserved(e) && o.id in e.orders.orders && e.orders.orders[o.id] == o
    requires value.currency == e.master[o.instrument].quote && qty > 0 && value.minor > 0
    requires FillMoved(e, m, o, exec, qty, value)
    ensures Conserved(m) <==> !e.book.HasKey(FillKey(exec))
  {
    assert HoldOk(m, o.id);
    ShiftConservesIff(e, m, o, value.currency, FillCash(e, o, exec, value), FillLots(e, o, exec, qty));
  }

  lemma TradeConservesIff(e: EngineState, o: Order, exec: string, qty: int, price: int, filled: bool)
    requires Sane(e) && Conserved(e) && o.id in e.orders.orders && e.orders.orders[o.id] == o
    requires filled ==> o.status.IsTerminal()
    requires !e.book.HasKey(ReleaseKey(o.account, o.id))
    requires !Overflowed(TradeEffects(e, o, exec, qty, price, filled).1)
    ensures var (n, r) := TradeEffects(e, o, exec, qty, price, filled);
      && Sane(n) && (Conserved(n) <==> TradeGuard(e, o, exec, qty, price)) && n.orders == e.orders
  {
    var e1 := e.(trades := e.trades + [TradeSnapshot(o.id, exec, qty, price, e.cursor.session.GetOr(0), e.cursor.next)]);
    SidelinesKeep(e, e1.trades, e.marks, e.cursor, e.risk);
    var i := e.master[o.instrument];
    var quoted := Notional(i, price, qty);
    if quoted.Ok? {
      NotionalIsExact(i, price, qty);
      var m := SettleAndRelease(e1, o, exec, qty, quoted.value, filled).0;
      SettleConservesIff(e1, o, exec, qty, quoted.value, filled, m);
      SidelinesKeep(m, m.trades, m.marks[o.instrument := price], m.cursor, m.risk);
    }
  }

  // ----- confirmed replaces

  /** e after a replaced buy holds target, with the ledger side in book. */
  function Rehold(e: EngineState, o: Order, target: Money, book: Book): EngineState {
    e.(book := book, cash := e.cash[o.id := target])
  }

  lemma ReholdConservesIff(e: EngineState, o: Order, target: Money, book: Book, dCash: int, key: Key)
    requires Sane(e) && Conserved(e) && o.id in e.orders.orders && e.orders.orders[o.id] == o && o.side.Buy?
    requires target.minor > 0 && target.currency == e.master[o.instrument].quote
    requires ReservesMove(e.book, book, o.account, target.currency, dCash, o.instrument, 0) && BookSound(book)
    requires KeysGrow(e.book, book, key) && HarmlessKey(e, o, key)
    ensures var n := Rehold(e, o, target, book);
      Sane(n) && (Conserved(n) <==> dCash == target.minor - HeldCash(e, o.id))
  {
    var n := Rehold(e, o, target, book);
    assert HoldOk(e, o.id);
    assert HoldOk(n, o.id);
    SaneAfterShift(e, n, o, target.currency, dCash, 0, key);
    ShiftConservesIff(e, n, o, target.currency, dCash, 0);
  }

  lemma SurplusMoves(e: EngineState, o: Order, target: Money)
    requires Sane(e) && Conserved(e) && o.id in e.orders.orders && e.orders.orders[o.id] == o
    requires target.currency == e.master[o.instrument].quote && 0 < target.minor < HeldCash(e, o.id)
    requires var surplus := Money(HeldCash(e, o.id) - target.minor, target.currency);
      ReleaseReserve(e.book, o.account, surplus, ReplaceReleaseKey(o.account, o.id)).1 != Err(MoneyOverflow)
    ensures var surplus := Money(HeldCash(e, o.id) - target.minor, target.currency);
      var key := ReplaceReleaseKey(o.account, o.id);
      var (book, r) := ReleaseReserve(e.book, o.account, surplus, key);
      && r.Ok? && BookSound(book) && KeysGrow(e.book, book, key)
      && ReservesMove(e.book, book, o.account, target.currency, if e.book.HasKey(key) then 0 else -surplus.minor, o.instrument, 0)
  {
    var surplus := Money(HeldCash(e, o.id) - target.minor, target.currency);
    var key := ReplaceReleaseKey(o.account, o.id);
    assert HoldOk(e, o.id);
    HoldWithinBucket(e, o.id);
    ReleaseOutcome(e.book, o.account, surplus, key);
    ReleaseEffect(e.book, o.account, surplus, key);
    var book := ReleaseReserve(e.book, o.account, surplus, key).0;
    var back := if e.book.HasKey(key) then 0 else surplus.minor;
    MovesFromCash(e.book, book, o.account, target.currency, back, -back, o.instrument);
    SoundAfterCash(e.book, book, o.account, target.currency, back, -back);
  }

  lemma ReplacedBuyUnfolds(e: EngineState, o: Order, price: int)
    requires o.instrument in e.master && HoldOk(e, o.id) && o.id in e.orders.orders && e.orders.orders[o.id] == o
    requires e.master[o.instrument].Valid()
    requires Notional(e.master[o.instrument], price, o.leavesQty).Ok?
    ensures var target := Notional(e.master[o.instrument], price, o.leavesQty).value;
      var surplus := Money(HeldCash(e, o.id) - target.minor, target.currency);
      var (book, out) := ReleaseReserve(e.book, o.account, surplus, ReplaceReleaseKey(o.account, o.id));
      && target.minor > 0 && target.currency == e.master[o.instrument].quote
      && (HeldCash(e, o.id) <= target.minor ==> ReplacedBuy(e, o, e.master[o.instrument], price) == (Rehold(e, o, target, e.book), Ok(())))
      && (HeldCash(e, o.id) > target.minor && out.Ok? ==>
            ReplacedBuy(e, o, e.master[o.instrument], price) == (Rehold(e, o, target, book), Ok(())))
      && (HeldCash(e, o.id) > target.minor && out.Err? ==>
            ReplacedBuy(e, o, e.master[o.instrument], price).1 == Err(LedgerFailed(out.error)))
  {
    NotionalIsExact(e.master[o.instrument], price, o.leavesQty);
    var target := Notional(e.master[o.instrument], price, o.leavesQty).value;
    assert (e.cash - {o.id})[o.id := target] == e.cash[o.id := target];
  }

  /** Giving back what is held above the target. */
  function Surplus(e: EngineState, o: Order, target: Money): (Book, Result<nat, LedgerError>) {
    ReleaseReserve(e.book, o.account, Money(HeldCash(e, o.id) - target.minor, target.currency), ReplaceReleaseKey(o.account, o.id))
  }

  /** The book after a replaced buy with this new value. */
  function BookReplaced(e: EngineState, o: Order, target: Money): Book {
    if HeldCash(e, o.id) > target.minor then Surplus(e, o, target).0 else e.book
  }

  lemma TargetConservesIff(e: EngineState, o: Order, target: Money, n: EngineState)
    requires Sane(e) && Conserved(e) && o.id in e.orders.orders && e.orders.orders[o.id] == o && o.side.Buy?
    requires target.currency == e.master[o.instrument].quote && target.minor > 0
    requires HeldCash(e, o.id) > target.minor ==> Surplus(e, o, target).1 != Err(MoneyOverflow)
    requires n == Rehold(e, o, target, BookReplaced(e, o, target))
    ensures HeldCash(e, o.id) > target.minor ==> Surplus(e, o, target).1.Ok?
    ensures Sane(n)
    ensures Conserved(n) <==> HeldCash(e, o.id) == target.minor
                              || (HeldCash(e, o.id) > target.minor && !e.book.HasKey(ReplaceReleaseKey(o.account, o.id)))
  {
    var key := ReplaceReleaseKey(o.account, o.id);
    if HeldCash(e, o.id) > target.minor {
      SurplusMoves(e, o, target);
      ReholdConservesIff(e, o, target, Surplus(e, o, target).0, if e.book.HasKey(key) then 0 else target.minor - HeldCash(e, o.id), key);
    } else {
      ReholdConservesIff(e, o, target, e.book, 0, key);
    }
  }

  lemma ReplacedBuyConservesIff(e: EngineState, o: Order, price: int)
    requires Sane(e) && Conserved(e) && o.id in e.orders.orders && e.orders.orders[o.id] == o && o.side.Buy?
    requires !Overflowed(ReplacedBuy(e, o, e.master[o.instrument], price).1)
    ensures var (n, r) := ReplacedBuy(e, o, e.master[o.instrument], price);
      && Sane(n) && n.orders == e.orders && (Conserved(n) <==> ReplacedGuard(e, o, price))
      && (Notional(e.master[o.instrument], price, o.leavesQty).Ok? ==>
            r.Ok? && n.cash == e.cash[o.id := Notional(e.master[o.instrument], price, o.leavesQty).value] && n.lots == e.lots)
  {
    var i := e.master[o.instrument];
    assert HoldOk(e, o.id);
    var (n, r) := ReplacedBuy(e, o, i, price);
    if Notional(i, price, o.leavesQty).Ok? {
      var target := Notional(i, price, o.leavesQty).value;
      ReplacedBuyUnfolds(e, o, price);
      TargetConservesIff(e, o, target, Rehold(e, o, target, BookReplaced(e, o, target)));
      assert n == Rehold(e, o, target, BookReplaced(e, o, target));
    } else {
      assert n == e;
    }
  }

  lemma SpareLotsMove(e: EngineState, o: Order, spare: int)
    requires Sane(e) && Conserved(e) && o.id in e.orders.orders && e.orders.orders[o.id] == o
    requires 0 < spare <= HeldLots(e, o.id)
    ensures var (book, r) := ReleasePositionReserve(e.book, o.account, o.instrument, spare);
      && r.Ok? && BookSound(book) && book.journal == e.book.journal
      && ReservesMove(e.book, book, o.account, e.master[o.instrument].quote, 0, o.instrument, -spare)
  {
    assert HoldOk(e, o.id);
    HoldWithinBucket(e, o.id);
    ReleaseLotsOutcome(e.book, o.account, o.instrument, spare);
    ReleaseLotsEffect(e.book, o.account, o.instrument, spare);
    var book := ReleasePositionReserve(e.book, o.account, o.instrument, spare).0;
    MovesFromLots(e.book, book, o.account, o.instrument, 0, -spare, e.master[o.instrument].quote);
    SameCash(e.book, book);
    SoundAfterLots(e.book, book, o.account, o.instrument, 0, -spare);
  }

  /** The book after a replaced sell gave its spare lots back. */
  function SpareReturned(e: EngineState, o: Order): Book {
    var spare := HeldLots(e, o.id) - o.leavesQty;
    if spare > 0 then ReleasePositionReserve(e.book, o.account, o.instrument, spare).0 else e.book
  }

  lemma ReplacedSellUnfolds(e: EngineState, o: Order)
    requires HeldLots(e, o.id) > o.leavesQty ==>
      ReleasePositionReserve(e.book, o.account, o.instrument, HeldLots(e, o.id) - o.leavesQty).1.Ok?
    ensures ReplacedSell(e, o) == (WithLots(e.(book := SpareReturned(e, o)), o.id, o.leavesQty), Ok(()))
  {
    assert (e.lots - {o.id})[o.id := o.leavesQty] == e.lots[o.id := o.leavesQty];
    assert e.lots - {o.id} - {o.id} == e.lots - {o.id};
  }

  lemma ReplacedSellMoves(e: EngineState, o: Order)
    requires Sane(e) && Conserved(e) && o.id in e.orders.orders && e.orders.orders[o.id] == o && o.side.Sell?
    ensures var (n, r) := ReplacedSell(e, o);
      && r.Ok? && n == WithLots(e.(book := n.book), o.id, o.leavesQty) && n.book.journal == e.book.journal
      && Shift(e, n, o, e.master[o.instrument].quote, 0, if HeldLots(e, o.id) > o.leavesQty then o.leavesQty - HeldLots(e, o.id) else 0)
  {
    assert o.leavesQty >= 0 by { assert WellFormed(o); }
    if HeldLots(e, o.id) > o.leavesQty { SpareLotsMove(e, o, HeldLots(e, o.id) - o.leavesQty); }
    ReplacedSellUnfolds(e, o);
  }

  lemma ReplacedSellConservesIff(e: EngineState, o: Order)
    requires Sane(e) && Conserved(e) && o.id in e.orders.orders && e.orders.orders[o.id] == o && o.side.Sell?
    ensures var (n, r) := ReplacedSell(e, o);
      && r.Ok? && Sane(n) && n.orders == e.orders && (Conserved(n) <==> HeldLots(e, o.id) >= o.leavesQty)
      && n.cash == e.cash && n.lots == WithLots(e, o.id, o.leavesQty).lots
  {
    var c := e.master[o.instrument].quote;
    ReplacedSellMoves(e, o);
    var n := ReplacedSell(e, o).0;
    var dLots := if HeldLots(e, o.id) > o.leavesQty then o.leavesQty - HeldLots(e, o.id) else 0;
    assert HoldOk(e, o.id);
    assert HoldOk(n, o.id);
    SaneAfterShift(e, n, o, c, 0, dLots, ReplaceReleaseKey(o.account, o.id));
    ShiftConservesIff(e, n, o, c, 0, dLots);
  }

  // ----- any effect, any report

  ghost predicate EffectFitsOrder(o: Order, effect: DomainEffect) {
    match effect
    case TradeEffect(_, _, _, filled) => filled ==> o.status.IsTerminal()
    case RejectedEffect(_) => o.status.IsTerminal()
    case CanceledEffect => o.status.IsTerminal()
    case ExpiredEffect => o.status.IsTerminal()
    case _ => true
  }

  lemma EffectConservesIff(e: EngineState, o: Order, effect: DomainEffect)
    requires Sane(e) && Conserved(e) && o.id in e.orders.orders && e.orders.orders[o.id] == o
    requires !e.book.HasKey(ReleaseKey(o.account, o.id)) && EffectFitsOrder(o, effect)
    requires !Overflowed(ApplyEffect(e, o, effect).1)
    ensures var n := ApplyEffect(e, o, effect).0;
      Sane(n) && n.orders == e.orders && (Conserved(n) <==> EffectGuard(e, o, effect))
  {
    match effect
    case TradeEffect(exec, qty, price, filled) => TradeConservesIff(e, o, exec, qty, price, filled);
    case RejectedEffect(_) => ReleaseAllConserves(e, o);
    case CanceledEffect => ReleaseAllConserves(e, o);
    case ExpiredEffect => ReleaseAllConserves(e, o);
    case ReplacedEffect(_, price) =>
      if o.side.Buy? { ReplacedBuyConservesIff(e, o, price); } else { ReplacedSellConservesIff(e, o); }
    case AcceptedEffect(_) =>
    case CancelPendingEffect =>
    case ReplacePendingEffect =>
  }

  lemma AppliedEffectFits(o: Order, event: OrderEvent)
    requires WellFormed(o) && EventFits(event) && Apply(o, event).Ok?
    ensures var n := Apply(o, event).value; EffectFitsOrder(n.0, n.1)
  {
  }

  /** The state in which a taken report's effect is applied. */
  function Stored(e: EngineState, r: Report): EngineState
    requires Taken(e, r).Some?
  {
    var event := ToOrderEvent(r).value.value;
    StoreOrder(e, Taken(e, r).value.0, e.orders.log + [LogLine(r.order, Applied(event))], Enter(e.cursor, r.session))
  }

  lemma TakenUnfolds(e: EngineState, r: Report)
    requires OrdersOk(e) && Taken(e, r).Some?
    ensures var next := Taken(e, r).value;
      var (m, out) := ApplyEffect(Stored(e, r), next.0, next.1);
      ApplyReport(e, r) == if out.Err? then (m, out) else (Advance(m, r.seqNo), Ok(()))
  {
    ApplyFollowsGraph(e.orders.orders[r.order], ToOrderEvent(r).value.value);
  }

  lemma NotTakenUnfolds(e: EngineState, r: Report)
    requires Taken(e, r).None?
    ensures var n := ApplyReport(e, r).0; n == e.(cursor := n.cursor, risk := n.risk)
  {
    if Judge(e.cursor, r).Offer? && ToOrderEvent(r).Ok? && ToOrderEvent(r).value.Some? {
      var (orders, applied) := ApplyTo(e.orders, r.order, ToOrderEvent(r).value.value);
      assert applied.Err? && orders == e.orders;
    }
  }

  lemma ReportUnfolds(e: EngineState, r: Report)
    requires OrdersOk(e)
    ensures Taken(e, r).Some? ==>
      var next := Taken(e, r).value;
      var (m, out) := ApplyEffect(Stored(e, r), next.0, next.1);
      ApplyReport(e, r) == if out.Err? then (m, out) else (Advance(m, r.seqNo), Ok(()))
    ensures Taken(e, r).None? ==>
      var n := ApplyReport(e, r).0; n == e.(cursor := n.cursor, risk := n.risk)
  {
    if Taken(e, r).Some? { TakenUnfolds(e, r); } else { NotTakenUnfolds(e, r); }
  }

  /** What is true of the order and the state in which a taken report's effect runs. */
  lemma TakenIsReady(e: EngineState, r: Report)
    requires Sane(e) && Conserved(e) && ReportFits(r) && Taken(e, r).Some?
    ensures var m := Stored(e, r); var (o, effect) := Taken(e, r).value;
      && Sane(m) && Conserved(m) && o.id in m.orders.orders && m.orders.orders[o.id] == o
      && !m.book.HasKey(ReleaseKey(o.account, o.id)) && EffectFitsOrder(o, effect)
      && (EffectGuard(m, o, effect) <==> ReportGuard(e, r))
  {
    var event := ToOrderEvent(r).value.value;
    var (o, effect) := Taken(e, r).value;
    TakenOrder(e, r.order, event);
    AppliedEffectFits(e.orders.orders[r.order], event);
    StoringKeeps(e, o, e.orders.log + [LogLine(r.order, Applied(event))], Enter(e.cursor, r.session));
    GuardIgnoresOrders(e, Stored(e, r), o, effect);
  }

  lemma GuardIgnoresOrders(e: EngineState, m: EngineState, o: Order, effect: DomainEffect)
    requires m.book == e.book && m.cash == e.cash && m.lots == e.lots && m.master == e.master
    ensures EffectGuard(m, o, effect) <==> EffectGuard(e, o, effect)
  {
  }

  /** For every report, duplicates, stale and illegal ones included: as long as no ledger width
      overflows, the reserves stay conserved exactly when the report's guard holds. */
  lemma ReportConservesIff(e: EngineState, r: Report)
    requires Sane(e) && Conserved(e) && ReportFits(r) && !Overflowed(ApplyReport(e, r).1)
    ensures Sane(ApplyReport(e, r).0)
    ensures Conserved(ApplyReport(e, r).0) <==> ReportGuard(e, r)
  {
    ReportUnfolds(e, r);
    if Taken(e, r).Some? {
      var (o, effect) := Taken(e, r).value;
      TakenIsReady(e, r);
      EffectConservesIff(Stored(e, r), o, effect);
      var m := ApplyEffect(Stored(e, r), o, effect).0;
      SidelinesKeep(m, m.trades, m.marks, Advance(m, r.seqNo).cursor, m.risk);
    } else {
      var n := ApplyReport(e, r).0;
      SidelinesKeep(e, e.trades, e.marks, n.cursor, n.risk);
    }
  }
}

/** Client commands keep the reserves conserved, and whole runs do exactly as long as every guard holds. */
module ReserveRuns {
  import opened Base
  import opened Ledger
  import opened Orders
  import opened OrderStores
  import opened PaperBooks
  import opened Instruments
  import opened Execution
  import opened Risk
  import opened Notionals
  import opened Sandbox
  import opened Delivery
  import opened Engine
  import opened Reserves
  import opened ReserveSteps

  // ----- commands that only touch available cash

  lemma LedgerOnlyKeeps(e: EngineState, book: Book, account: nat, c: Currency, instrument: nat, key: Key)
    requires Sane(e) && Conserved(e)
    requires ReservesMove(e.book, book, account, c, 0, instrument, 0) && BookSound(book)
    requires KeysGrow(e.book, book, key) && !key.ReserveKey? && !key.ReleaseKey?
    ensures Sane(e.(book := book)) && Conserved(e.(book := book))
  {
    var n := e.(book := book);
    forall id: nat ensures HoldOk(n, id) { assert HoldOk(e, id); }
    // no order has the first id that was never allocated
    var k := e.orders.nextId + 1;
    assert HoldOk(e, k);
    ConservedIff(e, n, k, account, c, instrument, 0, 0);
  }

  lemma DepositConserves(e: EngineState, account: nat, amount: Money, key: string)
    requires Sane(e) && Conserved(e) && !Overflowed(EngineDeposit(e, account, amount, key).1)
    ensures var n := EngineDeposit(e, account, amount, key).0;
      Sane(n) && Conserved(n) && n == e.(book := n.book)
  {
    DepositEffect(e.book, account, amount, ClientKey(key));
    var (book, r) := Deposit(e.book, account, amount, ClientKey(key));
    var gained := if r.Ok? && !e.book.HasKey(ClientKey(key)) then amount.minor else 0;
    SoundAfterCash(e.book, book, account, amount.currency, gained, 0);
    MovesFromCash(e.book, book, account, amount.currency, gained, 0, 0);
    LedgerOnlyKeeps(e, book, account, amount.currency, 0, ClientKey(key));
  }

  lemma WithdrawConserves(e: EngineState, account: nat, amount: Money, key: string)
    requires Sane(e) && Conserved(e) && !Overflowed(EngineWithdraw(e, account, amount, key).1)
    ensures var n := EngineWithdraw(e, account, amount, key).0;
      Sane(n) && Conserved(n) && n == e.(book := n.book)
  {
    WithdrawEffect(e.book, account, amount, ClientKey(key));
    var (book, r) := Withdraw(e.book, account, amount, ClientKey(key));
    var gained := if r.Ok? && !e.book.HasKey(ClientKey(key)) then -amount.minor else 0;
    SoundAfterCash(e.book, book, account, amount.currency, gained, 0);
    MovesFromCash(e.book, book, account, amount.currency, gained, 0, 0);
    LedgerOnlyKeeps(e, book, account, amount.currency, 0, ClientKey(key));
  }

  // ----- holding for a new order

  /** Drawing more cash into an order's hold under a key. */
  lemma DrawMoves(e: EngineState, o: Order, amount: Money, key: Key)
    requires Sane(e) && amount.minor > 0 && !key.IsEmpty()
    requires ReserveForOrder(e.book, o.account, amount, key).1 != Err(MoneyOverflow)
    ensures var (book, r) := ReserveForOrder(e.book, o.account, amount, key);
      && BookSound(book) && KeysGrow(e.book, book, key)
      && (if amount.minor <= e.book.Available(o.account, amount.currency) then r.Ok? else r == Err(InsufficientFunds))
      && (r.Err? ==> book.journal == e.book.journal)
      && ReservesMove(e.book, book, o.account, amount.currency, if r.Ok? && !e.book.HasKey(key) then amount.minor else 0, o.instrument, 0)
  {
    ReserveOutcome(e.book, o.account, amount, key);
    ReserveEffect(e.book, o.account, amount, key);
    var (book, r) := ReserveForOrder(e.book, o.account, amount, key);
    var drawn := if r.Ok? && !e.book.HasKey(key) then amount.minor else 0;
    MovesFromCash(e.book, book, o.account, amount.currency, -drawn, drawn, o.instrument);
    SoundAfterCash(e.book, book, o.account, amount.currency, -drawn, drawn);
  }

  lemma DrawLotsMoves(e: EngineState, o: Order, qty: int)
    requires Sane(e) && qty > 0 && o.instrument in e.master
    ensures var (book, r) := ReservePositionForOrder(e.book, o.account, o.instrument, qty);
      && BookSound(book) && book.journal == e.book.journal && (r.Ok? || r == Err(InsufficientPosition))
      && ReservesMove(e.book, book, o.account, e.master[o.instrument].quote, 0, o.instrument, if r.Ok? then qty else 0)
  {
    ReserveLotsOutcome(e.book, o.account, o.instrument, qty);
    ReserveLotsEffect(e.book, o.account, o.instrument, qty);
    var (book, r) := ReservePositionForOrder(e.book, o.account, o.instrument, qty);
    MovesFromLots(e.book, book, o.account, o.instrument, 0, if r.Ok? then qty else 0, e.master[o.instrument].quote);
    SameCash(e.book, book);
    SoundAfterLots(e.book, book, o.account, o.instrument, 0, if r.Ok? then qty else 0);
  }

  lemma RelotConserves(e: EngineState, o: Order, book: Book, lots: int)
    requires Sane(e) && Conserved(e) && o.id in e.orders.orders && e.orders.orders[o.id] == o && o.side.Sell?
    requires lots > 0 && book.journal == e.book.journal && BookSound(book)
    requires ReservesMove(e.book, book, o.account, e.master[o.instrument].quote, 0, o.instrument, lots - HeldLots(e, o.id))
    ensures var n := e.(book := book, lots := e.lots[o.id := lots]); Sane(n) && Conserved(n)
  {
    var n := e.(book := book, lots := e.lots[o.id := lots]);
    var c := e.master[o.instrument].quote;
    assert HoldOk(e, o.id);
    assert HoldOk(n, o.id);
    SaneAfterShift(e, n, o, c, 0, lots - HeldLots(e, o.id), ReplaceReserveKey(o.account, o.id));
    ShiftConservesIff(e, n, o, c, 0, lots - HeldLots(e, o.id));
  }

  /** The order id the store hands out next is new everywhere. */
  lemma CreationConserves(e: EngineState, orders: Store, o: Order)
    requires Sane(e) && Conserved(e) && o.id == e.orders.nextId + 1 && WellFormed(o) && o.instrument in e.master
    requires orders.nextId == o.id && orders.orders == e.orders.orders[o.id := o]
    ensures var n := e.(orders := orders);
      && Sane(n) && Conserved(n) && o.id !in n.cash && o.id !in n.lots
      && forall a: nat :: !n.book.HasKey(ReserveKey(a, o.id))
  {
    var n := e.(orders := orders);
    assert HoldOk(e, o.id);
    forall id: nat ensures HoldOk(n, id) { assert HoldOk(e, id); }
    ConservedIff(e, n, o.id, o.account, e.master[o.instrument].quote, o.instrument, 0, 0);
  }

  lemma IdSkippedConserves(e: EngineState, orders: Store)
    requires Sane(e) && Conserved(e)
    requires e.orders.nextId <= orders.nextId <= e.orders.nextId + 1 && orders.orders == e.orders.orders
    ensures var n := e.(orders := orders); Sane(n) && Conserved(n)
  {
    var n := e.(orders := orders);
    forall id: nat ensures HoldOk(n, id) { assert HoldOk(e, id); }
    var k := e.orders.nextId + 1;
    assert HoldOk(e, k);
    ConservedIff(e, n, k, 0, Currency("", 0), 0, 0, 0);
  }

  lemma RejectionKeeps(e: EngineState, o: Order, reason: string)
    requires Sane(e) && Conserved(e) && o.id in e.orders.orders && e.orders.orders[o.id] == o && o.status.PendingNew?
    ensures var n := RejectUnfunded(e, o.id, reason);
      && Sane(n) && Conserved(n)
      && n == e.(orders := n.orders) && n.orders.nextId == e.orders.nextId
      && n.orders.orders == e.orders.orders[o.id := o.(status := Rejected, rejectReason := Some(reason))]
  {
    TakenOrder(e, o.id, Reject(reason));
    StoringKeeps(e, Apply(o, Reject(reason)).value.0, e.orders.log + [LogLine(o.id, Applied(Reject(reason)))], e.cursor);
  }

  lemma HoldBuyConserves(e: EngineState, o: Order, value: Money)
    requires Sane(e) && Conserved(e) && o.id in e.orders.orders && e.orders.orders[o.id] == o
    requires o.side.Buy? && o.status.PendingNew? && o.id !in e.cash && o.id !in e.lots
    requires !e.book.HasKey(ReserveKey(o.account, o.id))
    requires value.minor > 0 && value.currency == e.master[o.instrument].quote
    requires !Overflowed(HoldForOrder(e, o, value).1)
    ensures var (n, r) := HoldForOrder(e, o, value);
      && Sane(n) && Conserved(n)
      && (r.Ok? <==> value.minor <= e.book.Available(o.account, value.currency))
      && (r.Ok? ==> n == Rehold(e, o, value, n.book))
      && (r.Err? ==> r == Err(LedgerFailed(InsufficientFunds)) && n == RejectUnfunded(e.(book := n.book), o.id, "insufficient funds"))
  {
    var key := ReserveKey(o.account, o.id);
    DrawMoves(e, o, value, key);
    var (book, r) := ReserveForOrder(e.book, o.account, value, key);
    if r.Ok? {
      ReholdConservesIff(e, o, value, book, value.minor, key);
    } else {
      LedgerOnlyKeeps(e, book, o.account, value.currency, o.instrument, ClientKey(""));
      RejectionKeeps(e.(book := book), o, "insufficient funds");
    }
  }

  lemma HoldSellConserves(e: EngineState, o: Order, value: Money)
    requires Sane(e) && Conserved(e) && o.id in e.orders.orders && e.orders.orders[o.id] == o
    requires o.side.Sell? && o.status.PendingNew? && o.id !in e.cash && o.id !in e.lots
    ensures var (n, r) := HoldForOrder(e, o, value);
      && Sane(n) && Conserved(n)
      && (r.Ok? ==> n == e.(book := n.book, lots := e.lots[o.id := o.orderQty]))
      && (r.Err? ==> r == Err(LedgerFailed(InsufficientPosition)) && n == RejectUnfunded(e.(book := n.book), o.id, "insufficient position"))
  {
    DrawLotsMoves(e, o, o.orderQty);
    var (book, r) := ReservePositionForOrder(e.book, o.account, o.instrument, o.orderQty);
    if r.Ok? {
      RelotConserves(e, o, book, o.orderQty);
    } else {
      LedgerOnlyKeeps(e, book, o.account, e.master[o.instrument].quote, o.instrument, ClientKey(""));
      RejectionKeeps(e.(book := book), o, "insufficient position");
    }
  }

  // ----- submit, cancel, replace up to the venue call

  predicate RequestFits(req: SubmitRequest) { FitsI64(req.qty) && FitsI64(req.price) }

  lemma QuoteMeans(e: EngineState, instrument: nat, price: int, qty: int)
    requires MasterOk(e) && Quote(e, instrument, price, qty).Ok?
    ensures var (i, value) := Quote(e, instrument, price, qty).value;
      && instrument in e.master && i == e.master[instrument] && Notional(i, price, qty) == Ok(value)
      && qty > 0 && price > 0 && value.minor > 0 && value.currency == i.quote
  {
    NotionalIsExact(e.master[instrument], price, qty);
  }

  /** A created order and the state right after its creation. */
  lemma CreatedIsReady(e: EngineState, req: SubmitRequest)
    requires Sane(e) && Conserved(e) && RequestFits(req) && req.instrument in e.master
    ensures var (orders, created) := SubmitTo(e.orders, CreateOf(req));
      var n := e.(orders := orders);
      && Sane(n) && Conserved(n)
      && (created.Ok? && created.value.CreatedOrder? ==>
            var o := created.value.order;
            && o.id == e.orders.nextId + 1 && o.id !in e.orders.orders && orders.orders == e.orders.orders[o.id := o]
            && o.account == req.account && o.instrument == req.instrument && o.side == req.side
            && o.orderQty == req.qty && o.leavesQty == req.qty && o.price == req.price && o.status.PendingNew? && WellFormed(o)
            && o.id !in n.cash && o.id !in n.lots && !n.book.HasKey(ReserveKey(o.account, o.id)))
      && (!(created.Ok? && created.value.CreatedOrder?) ==> orders.orders == e.orders.orders)
  {
    var (orders, created) := SubmitTo(e.orders, CreateOf(req));
    if created.Ok? && created.value.CreatedOrder? {
      CreationConserves(e, orders, created.value.order);
    } else {
      IdSkippedConserves(e, orders);
    }
  }

  lemma SubmitConserves(e: EngineState, req: SubmitRequest, inputs: Option<RiskInputs>)
    requires Sane(e) && Conserved(e) && RequestFits(req)
    requires StageSubmit(e, req, inputs).1 != Err(LedgerFailed(MoneyOverflow)) && StageSubmit(e, req, inputs).1 != Err(LedgerFailed(LedgerError.InvalidQuantity))
    ensures var n := StageSubmit(e, req, inputs).0; Sane(n) && Conserved(n)
  {
    if Quote(e, req.instrument, req.price, req.qty).Ok? {
      QuoteMeans(e, req.instrument, req.price, req.qty);
      CreatedIsReady(e, req);
      var (orders, created) := SubmitTo(e.orders, CreateOf(req));
      if created.Ok? && created.value.CreatedOrder? {
        var m := e.(orders := orders);
        var value := Quote(e, req.instrument, req.price, req.qty).value.1;
        if Overflowed(HoldForOrder(m, created.value.order, value).1) {
        } else if req.side.Buy? {
          HoldBuyConserves(m, created.value.order, value);
        } else {
          HoldSellConserves(m, created.value.order, value);
        }
      }
    }
  }

  lemma CancelConserves(e: EngineState, id: nat)
    requires Sane(e) && Conserved(e)
    ensures var n := StageCancel(e, id).0; Sane(n) && Conserved(n)
  {
    if StageCancel(e, id).1.Ok? {
      TakenOrder(e, id, CancelRequested);
      StoringKeeps(e, Apply(e.orders.orders[id], CancelRequested).value.0, e.orders.log + [LogLine(id, Applied(CancelRequested))], e.cursor);
    }
  }

  /** A top-up that will draw cash must find its key unused. */
  predicate TopUpGuard(e: EngineState, o: Order, i: Instrument, req: ReplaceRequest) {
    o.side.Buy? && Notional(i, req.price, req.qty - o.cumQty).Ok? ==>
      DrawGuard(e, o, i, Notional(i, req.price, req.qty - o.cumQty).value)
  }

  predicate DrawGuard(e: EngineState, o: Order, i: Instrument, target: Money) {
    var delta := target.minor - HeldCash(e, o.id);
    delta > 0 && delta <= e.book.Available(o.account, i.quote) ==> !e.book.HasKey(ReplaceReserveKey(o.account, o.id))
  }

  /** The top-up of a buy once the new value is known. */
  function Draw(e: EngineState, o: Order, target: Money): (EngineState, Outcome) {
    var delta := Money(target.minor - HeldCash(e, o.id), target.currency);
    var (book, out) := ReserveForOrder(e.book, o.account, delta, ReplaceReserveKey(o.account, o.id));
    if delta.minor <= 0 then (e, Ok(()))
    else if out.Ok? then (Rehold(e, o, target, book), Ok(()))
    else (e.(book := book), Err(LedgerFailed(out.error)))
  }

  lemma TopUpBuyUnfolds(e: EngineState, o: Order, i: Instrument, req: ReplaceRequest)
    requires o.side.Buy? && i.Valid() && (o.id in e.cash ==> e.cash[o.id].currency == i.quote)
    ensures match Notional(i, req.price, req.qty - o.cumQty)
            case Err(err) => TopUp(e, o, i, req) == (e, Err(err)) && TopUpGuard(e, o, i, req)
            case Ok(target) =>
              && target.minor > 0 && target.currency == i.quote && TopUp(e, o, i, req) == Draw(e, o, target)
              && (TopUpGuard(e, o, i, req) <==> DrawGuard(e, o, i, target))
  {
    if Notional(i, req.price, req.qty - o.cumQty).Ok? { NotionalIsExact(i, req.price, req.qty - o.cumQty); }
  }

  lemma DrawConservesIff(e: EngineState, o: Order, i: Instrument, target: Money)
    requires Sane(e) && Conserved(e) && o.id in e.orders.orders && e.orders.orders[o.id] == o && o.side.Buy?
    requires i == e.master[o.instrument] && target.currency == i.quote && target.minor > 0
    requires !Overflowed(Draw(e, o, target).1)
    ensures var n := Draw(e, o, target).0;
      Sane(n) && n.orders == e.orders && n.lots == e.lots && (Conserved(n) <==> DrawGuard(e, o, i, target))
  {
    var key := ReplaceReserveKey(o.account, o.id);
    var delta := Money(target.minor - HeldCash(e, o.id), target.currency);
    if delta.minor > 0 {
      DrawMoves(e, o, delta, key);
      var (book, r) := ReserveForOrder(e.book, o.account, delta, key);
      if r.Ok? {
        ReholdConservesIff(e, o, target, book, if e.book.HasKey(key) then 0 else delta.minor, key);
      } else {
        LedgerOnlyKeeps(e, book, o.account, target.currency, o.instrument, ClientKey(""));
      }
    }
  }

  lemma TopUpBuyConservesIff(e: EngineState, o: Order, i: Instrument, req: ReplaceRequest)
    requires Sane(e) && Conserved(e) && o.id in e.orders.orders && e.orders.orders[o.id] == o && o.side.Buy?
    requires i == e.master[o.instrument]
    requires !Overflowed(TopUp(e, o, i, req).1)
    ensures var n := TopUp(e, o, i, req).0;
      Sane(n) && n.orders == e.orders && n.lots == e.lots && (Conserved(n) <==> TopUpGuard(e, o, i, req))
  {
    assert HoldOk(e, o.id);
    TopUpBuyUnfolds(e, o, i, req);
    match Notional(i, req.price, req.qty - o.cumQty)
    case Err(_) =>
    case Ok(target) => DrawConservesIff(e, o, i, target);
  }

  /** The top-up of a sell. */
  function DrawLots(e: EngineState, o: Order, target: int): (EngineState, Outcome) {
    var more := target - HeldLots(e, o.id);
    var (book, out) := ReservePositionForOrder(e.book, o.account, o.instrument, more);
    if more <= 0 then (e, Ok(()))
    else if out.Ok? then (e.(book := book, lots := e.lots[o.id := target]), Ok(()))
    else (e.(book := book), Err(LedgerFailed(out.error)))
  }

  lemma TopUpSellUnfolds(e: EngineState, o: Order, i: Instrument, req: ReplaceRequest)
    requires o.side.Sell?
    ensures TopUp(e, o, i, req) == DrawLots(e, o, req.qty - o.cumQty)
  {
  }

  lemma DrawnLotsConserve(e: EngineState, o: Order, target: int, n: EngineState)
    requires Sane(e) && Conserved(e) && o.id in e.orders.orders && e.orders.orders[o.id] == o && o.side.Sell?
    requires n == DrawLots(e, o, target).0
    ensures Sane(n) && Conserved(n) && n.orders == e.orders && n.cash == e.cash
  {
    assert HoldOk(e, o.id);
    var more := target - HeldLots(e, o.id);
    if more > 0 {
      DrawLotsMoves(e, o, more);
      var (book, r) := ReservePositionForOrder(e.book, o.account, o.instrument, more);
      if r.Ok? {
        RelotConserves(e, o, book, target);
      } else {
        LedgerOnlyKeeps(e, book, o.account, e.master[o.instrument].quote, o.instrument, ClientKey(""));
      }
    }
  }

  lemma TopUpSellConserves(e: EngineState, o: Order, i: Instrument, req: ReplaceRequest, n: EngineState)
    requires Sane(e) && Conserved(e) && o.id in e.orders.orders && e.orders.orders[o.id] == o && o.side.Sell?
    requires n == TopUp(e, o, i, req).0
    ensures Sane(n) && Conserved(n) && n.orders == e.orders && n.cash == e.cash
  {
    TopUpSellUnfolds(e, o, i, req);
    DrawnLotsConserve(e, o, req.qty - o.cumQty, n);
  }

  /** The last step of a replace changes only the order. */
  lemma AskedOrders(e: EngineState, id: nat, qty: int, price: int)
    requires OrdersOk(e) && id in e.orders.orders && FitsI64(qty) && FitsI64(price)
    ensures var (orders, asked) := ApplyTo(e.orders, id, ReplaceRequested(qty, price));
      && (asked.Err? ==> orders == e.orders)
      && (asked.Ok? ==> Succeeds(e, asked.value.0) && asked.value.0.id == id
                        && orders == e.orders.(orders := e.orders.orders[id := asked.value.0], log := orders.log))
  {
    if Apply(e.orders.orders[id], ReplaceRequested(qty, price)).Ok? { TakenOrder(e, id, ReplaceRequested(qty, price)); }
  }

  lemma ReplaceAskKeeps(e: EngineState, id: nat, qty: int, price: int)
    requires OrdersOk(e) && id in e.orders.orders && FitsI64(qty) && FitsI64(price)
    ensures var n := e.(orders := ApplyTo(e.orders, id, ReplaceRequested(qty, price)).0);
      Sane(e) ==> Sane(n) && (Conserved(n) <==> Conserved(e))
  {
    AskedOrders(e, id, qty, price);
    var (orders, asked) := ApplyTo(e.orders, id, ReplaceRequested(qty, price));
    if asked.Ok? && Sane(e) {
      var n := StoreOrder(e, asked.value.0, orders.log, e.cursor);
      assert n == e.(orders := orders);
      StoringKeepsSane(e, asked.value.0, orders.log, e.cursor);
      SameTotals(e, n);
    }
  }

  lemma SameTotals(e: EngineState, n: EngineState)
    requires n.cash == e.cash && n.lots == e.lots && n.book == e.book && n.orders.nextId == e.orders.nextId
    requires n.orders.orders.Keys == e.orders.orders.Keys
    requires forall id :: id in e.orders.orders ==>
      n.orders.orders[id].account == e.orders.orders[id].account && n.orders.orders[id].instrument == e.orders.orders[id].instrument
    ensures Conserved(n) <==> Conserved(e)
  {
    forall a: nat, c: Currency ensures CashTotal(n, a, c) == CashTotal(e, a, c) {
      SumSame(e.orders.nextId, (id: nat) => CashFor(e, id, a, c), (id: nat) => CashFor(n, id, a, c));
    }
    forall a: nat, i: nat ensures LotsTotal(n, a, i) == LotsTotal(e, a, i) {
      SumSame(e.orders.nextId, (id: nat) => LotsFor(e, id, a, i), (id: nat) => LotsFor(n, id, a, i));
    }
    if Conserved(n) {
      forall a: nat, c: Currency ensures e.book.Reserved(a, c) == CashTotal(e, a, c) { assert n.book.Reserved(a, c) == CashTotal(n, a, c); }
      forall a: nat, i: nat ensures e.book.ReservedPosition(a, i) == LotsTotal(e, a, i) { assert n.book.ReservedPosition(a, i) == LotsTotal(n, a, i); }
    }
    if Conserved(e) {
      forall a: nat, c: Currency ensures n.book.Reserved(a, c) == CashTotal(n, a, c) { assert e.book.Reserved(a, c) == CashTotal(e, a, c); }
      forall a: nat, i: nat ensures n.book.ReservedPosition(a, i) == LotsTotal(n, a, i) { assert e.book.ReservedPosition(a, i) == LotsTotal(e, a, i); }
    }
  }

  /** The replace reaches its top-up: known order, on grid, not below what is filled. */
  predicate ReachesTopUp(e: EngineState, req: ReplaceRequest) {
    && req.order in e.orders.orders
    && var o := e.orders.orders[req.order];
       && o.instrument in e.master && AssertOrderGrid(e.master[o.instrument], req.price, req.qty).Ok? && req.qty >= o.cumQty
  }

  lemma StageReplaceUnfolds(e: EngineState, req: ReplaceRequest)
    ensures !ReachesTopUp(e, req) ==> StageReplace(e, req).0 == e && StageReplace(e, req).1.Err? && !Overflowed(StageReplace(e, req).1)
    ensures ReachesTopUp(e, req) ==>
      var o := e.orders.orders[req.order];
      var (m, out) := TopUp(e, o, e.master[o.instrument], req);
      var (orders, asked) := ApplyTo(m.orders, req.order, ReplaceRequested(req.qty, req.price));
      StageReplace(e, req) == if out.Err? then (m, out)
        else (m.(orders := orders), if asked.Ok? then Ok(()) else Err(OrderFailed(asked.error)))
  {
  }

  /** A replace, on any order in any status, keeps the reserves conserved exactly when a top-up that
      will be drawn finds its key unused. */
  lemma ReplaceConservesIff(e: EngineState, req: ReplaceRequest)
    requires Sane(e) && Conserved(e) && FitsI64(req.qty) && FitsI64(req.price)
    requires !Overflowed(StageReplace(e, req).1)
    ensures Sane(StageReplace(e, req).0)
    ensures Conserved(StageReplace(e, req).0) <==> ReplaceGuard(e, req)
  {
    StageReplaceUnfolds(e, req);
    if ReachesTopUp(e, req) {
      var o := e.orders.orders[req.order];
      var i := e.master[o.instrument];
      var (m, r) := TopUp(e, o, i, req);
      if o.side.Buy? { TopUpBuyConservesIff(e, o, i, req); } else { TopUpSellConserves(e, o, i, req, m); }
      ReplaceGuardIsTopUpGuard(e, req);
      if r.Ok? { ReplaceAskKeeps(m, req.order, req.qty, req.price); }
    }
  }

  lemma ReplaceGuardIsTopUpGuard(e: EngineState, req: ReplaceRequest)
    ensures ReachesTopUp(e, req) ==>
      var o := e.orders.orders[req.order];
      ReplaceGuard(e, req) <==> TopUpGuard(e, o, e.master[o.instrument], req)
    ensures !ReachesTopUp(e, req) ==> ReplaceGuard(e, req)
  {
  }

  // ----- whole runs

  /** Everything that can happen to the engine: client commands up to the venue call, refused venue
      calls, operator changes to the risk state, and reports of any venue in any order. */
  datatype Input =
    | DepositInput(account: nat, amount: Money, key: string)
    | WithdrawInput(account: nat, amount: Money, key: string)
    | SubmitInput(submit: SubmitRequest, inputs: Option<RiskInputs>)
    | CancelInput(order: nat)
    | ReplaceInput(replace: ReplaceRequest)
    | RefusedInput(error: ExecutionError)
    | RiskInput(risk: RiskState)
    | ReportInput(report: Report)

  function Act(e: EngineState, input: Input): (EngineState, Outcome) {
    match input
    case DepositInput(account, amount, key) => EngineDeposit(e, account, amount, key)
    case WithdrawInput(account, amount, key) => EngineWithdraw(e, account, amount, key)
    case SubmitInput(req, inputs) =>
      var (n, r) := StageSubmit(e, req, inputs);
      (n, match r case Ok(_) => Ok(()) case Err(err) => Err(err))
    case CancelInput(id) => StageCancel(e, id)
    case ReplaceInput(req) => StageReplace(e, req)
    case RefusedInput(err) => (VenueRefused(e, err), Err(VenueFailed(err)))
    case RiskInput(risk) => (e.(risk := risk), Ok(()))
    case ReportInput(report) => ApplyReport(e, report)
  }

  function After(e: EngineState, inputs: seq<Input>): EngineState {
    if inputs == [] then e else Act(After(e, inputs[..|inputs| - 1]), inputs[|inputs| - 1]).0
  }

  /** What the command carries fits the 64-bit fields of the source. */
  predicate InputFits(input: Input) {
    match input
    case SubmitInput(req, _) => RequestFits(req)
    case ReplaceInput(req) => FitsI64(req.qty) && FitsI64(req.price)
    case ReportInput(r) => ReportFits(r)
    case _ => true
  }

  /** The guard of an input: replaces and reports have one, everything else always passes. */
  predicate Guarded(e: EngineState, input: Input) {
    match input
    case ReplaceInput(req) => ReplaceGuard(e, req)
    case ReportInput(r) => ReportGuard(e, r)
    case _ => true
  }

  /** One input of any kind keeps the reserves conserved exactly when its guard holds. */
  lemma ActConservesIff(e: EngineState, input: Input)
    requires Sane(e) && Conserved(e) && InputFits(input) && !Overflowed(Act(e, input).1)
    ensures Sane(Act(e, input).0)
    ensures Conserved(Act(e, input).0) <==> Guarded(e, input)
  {
    match input
    case DepositInput(account, amount, key) => DepositConserves(e, account, amount, key);
    case WithdrawInput(account, amount, key) => WithdrawConserves(e, account, amount, key);
    case SubmitInput(req, inputs) => SubmitConserves(e, req, inputs);
    case CancelInput(id) => CancelConserves(e, id);
    case ReplaceInput(req) => ReplaceConservesIff(e, req);
    case RefusedInput(err) => SidelinesKeep(e, e.trades, e.marks, e.cursor, VenueRefused(e, err).risk);
    case RiskInput(risk) => SidelinesKeep(e, e.trades, e.marks, e.cursor, risk);
    case ReportInput(report) => ReportConservesIff(e, report);
  }

  /** Every input fits its fields and none leaves a ledger width. */
  predicate InWidth(e: EngineState, inputs: seq<Input>) {
    inputs == [] ||
    var init, last := inputs[..|inputs| - 1], inputs[|inputs| - 1];
    InWidth(e, init) && InputFits(last) && !Overflowed(Act(After(e, init), last).1)
  }

  /** Every input met its guard when it came. */
  predicate GuardedRun(e: EngineState, inputs: seq<Input>) {
    inputs == [] || (GuardedRun(e, inputs[..|inputs| - 1]) && Guarded(After(e, inputs[..|inputs| - 1]), inputs[|inputs| - 1]))
  }

  /** The reserves add up at the start and after every input. */
  ghost predicate ConservedRun(e: EngineState, inputs: seq<Input>) {
    Conserved(After(e, inputs)) && (inputs == [] || ConservedRun(e, inputs[..|inputs| - 1]))
  }

  lemma RunSnoc(e: EngineState, inputs: seq<Input>, last: Input)
    ensures After(e, inputs + [last]) == Act(After(e, inputs), last).0
    ensures InWidth(e, inputs + [last]) <==> InWidth(e, inputs) && InputFits(last) && !Overflowed(Act(After(e, inputs), last).1)
    ensures GuardedRun(e, inputs + [last]) <==> GuardedRun(e, inputs) && Guarded(After(e, inputs), last)
    ensures ConservedRun(e, inputs + [last]) <==> ConservedRun(e, inputs) && Conserved(After(e, inputs + [last]))
  {
    assert (inputs + [last])[..|inputs|] == inputs;
  }

  /** The input fits, meets its guard and leaves no ledger width. */
  predicate GoesThrough(e: EngineState, input: Input) {
    InputFits(input) && Guarded(e, input) && !Overflowed(Act(e, input).1)
  }

  lemma RunExtends(e: EngineState, inputs: seq<Input>, last: Input)
    requires InWidth(e, inputs) && GuardedRun(e, inputs) && GoesThrough(After(e, inputs), last)
    ensures InWidth(e, inputs + [last]) && GuardedRun(e, inputs + [last])
    ensures After(e, inputs + [last]) == Act(After(e, inputs), last).0
  {
    RunSnoc(e, inputs, last);
  }

  lemma NewEngineConserved(master: map<nat, Instrument>, risk: RiskState)
    requires forall i :: i in master ==> master[i].Valid()
    ensures Sane(NewEngine(master, risk)) && Conserved(NewEngine(master, risk))
  {
    var e := NewEngine(master, risk);
    assert forall id: nat :: HoldOk(e, id);
  }

  lemma {:induction false} RunConservesIff(e: EngineState, inputs: seq<Input>)
    requires Sane(e) && Conserved(e) && InWidth(e, inputs)
    ensures ConservedRun(e, inputs) <==> GuardedRun(e, inputs)
    ensures GuardedRun(e, inputs) ==> Sane(After(e, inputs))
  {
    if inputs != [] {
      var init := inputs[..|inputs| - 1];
      RunConservesIff(e, init);
      if GuardedRun(e, init) { ActConservesIff(After(e, init), inputs[|inputs| - 1]); }
    }
  }

  /** In every run, over any instruments and any report stream, the journal's reserved cash and the
      reserved lots equal the sums of the per-order holds after every input exactly when every input
      met its guard. */
  lemma EveryRunConservesReserves(master: map<nat, Instrument>, risk: RiskState, inputs: seq<Input>)
    requires forall i :: i in master ==> master[i].Valid()
    requires InWidth(NewEngine(master, risk), inputs)
    ensures ConservedRun(NewEngine(master, risk), inputs) <==> GuardedRun(NewEngine(master, risk), inputs)
    ensures GuardedRun(NewEngine(master, risk), inputs) ==>
      Sane(After(NewEngine(master, risk), inputs)) && Conserved(After(NewEngine(master, risk), inputs))
  {
    NewEngineConserved(master, risk);
    RunConservesIff(NewEngine(master, risk), inputs);
  }
}

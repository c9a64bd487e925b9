/** A concrete run in which a second top-up leaves the reserves short. */
module TopUpExample {
  import opened Base
  import opened Ledger
  import opened Orders
  import opened OrderStores
  import opened PaperBooks
  import opened Instruments
  import opened Execution
  import opened Risk
  import opened Notionals
  import opened Delivery
  import opened Engine
  import opened Reserves
  import opened ReserveSteps
  import opened ReserveRuns
  import opened RepeatedTopUp

  // ----- the run: fund, buy 10 lots, accept, ask for more, ask for more still while that is pending

  const CENT_STOCK := Instrument(1, true, USD, TickTable([TickBand(0, None, 1)], 2), LotSpec(0, 1, 1, None, 1), 1)
  const WIDE_LIMITS := RiskState(Limits(1000, 1000000, 1000, 0, None, 0, false, 0, 0), false, {}, {}, {})
  const START := NewEngine(map[1 := CENT_STOCK], WIDE_LIMITS)

  const FUND := DepositInput(1, Money(10000, USD), "d")
  const BUY := SubmitInput(SubmitRequest(1, "c", 1, Buy, 10, 100, Limit, Gtc), Some(RiskInputs(0, 0, 0)))

  function Accept(venueOrderId: string, session: nat): Input { ReportInput(Report(1, venueOrderId, None, NewExec, 0, 0, session, 1)) }

  function Ask(qty: int): Input { ReplaceInput(ReplaceRequest(1, qty, 100)) }

  /** The order once created; its status and asked terms change along the run. */
  const BOUGHT := Order(1, 1, "c", 1, Buy, Limit, Gtc, PendingNew, 10, 100, 0, 10, None, None, None, [], None, None)

  function Working(venueOrderId: string): Order { BOUGHT.(status := New, venueOrderId := Some(venueOrderId)) }

  /** The order asking for qty lots at the same price. */
  function Asking(o: Order, qty: int): Order { o.(pendingQty := Some(qty), pendingPrice := Some(100), status := PendingReplace) }

  // ----- postings inside their widths

  lemma TwoLinesPost(signed: map<LedgerAccount, int>, p: Posting, q: Posting)
    requires p.account != q.account && FitsI128(p.Delta()) && FitsI128(q.Delta())
    requires FitsI128(BalanceIn(signed, p.account) + p.Delta()) && FitsI128(BalanceIn(signed, q.account) + q.Delta())
    ensures PostLines(signed, [p, q]).1
  {
    var m := signed[p.account := BalanceIn(signed, p.account) + p.Delta()];
    assert [p, q][1..] == [q] && [q][1..] == [];
    assert PostLines(m, [q]).1;
  }

  lemma PairGoesThrough(b: Book, key: Key, p: Posting, q: Posting)
    requires !key.IsEmpty() && p.amount == q.amount && 0 < p.amount.minor <= I64_MAX && p.direction != q.direction
    requires p.account != q.account && b.journal.nextId < U64_MAX && !b.HasKey(key)
    requires FitsI128(b.journal.Balance(p.account) + p.Delta()) && FitsI128(b.journal.Balance(q.account) + q.Delta())
    ensures var (n, r) := PostNew(b, key, [p, q]); r.Ok? && n.journal.nextId == b.journal.nextId + 1
  {
    TwoLinesPost(b.journal.signed, p, q);
    PairBuilds(key, p, q);
  }

  /** What the account has, and how many postings were made under which keys. */
  predicate BookIs(b: Book, available: int, reserved: int, posts: nat, keys: set<Key>) {
    && b.Available(1, USD) == available && b.Reserved(1, USD) == reserved
    && b.journal.nextId == posts && b.journal.byKey.Keys == keys && b.positions == map[] && b.reservedLots == map[]
  }

  lemma DrawGoesThrough(b: Book, available: int, reserved: int, posts: nat, keys: set<Key>, amount: int, key: Key)
    requires BookIs(b, available, reserved, posts, keys) && 0 < amount <= available <= 10000 && 0 <= reserved <= 10000
    requires posts < 10 && key !in keys && !key.IsEmpty()
    ensures var (n, r) := ReserveForOrder(b, 1, Money(amount, USD), key);
      r.Ok? && BookIs(n, available - amount, reserved + amount, posts + 1, keys + {key})
  {
    var lines := ReserveLines(1, Money(amount, USD));
    PairGoesThrough(Open(b, 1), key, lines[0], lines[1]);
    ReserveEffect(b, 1, Money(amount, USD), key);
  }

  // ----- the steps

  /** The engine with the one order, what it holds, and its account's cash. */
  predicate Holding(e: EngineState, o: Order, held: int, available: int, keys: set<Key>) {
    && e.master == START.master && e.lots == map[] && e.orders.orders == map[1 := o]
    && e.cash == map[1 := Money(held, USD)]
    && BookIs(e.book, available, held, |keys|, keys)
  }

  lemma StepFund()
    ensures var (e, r) := Act(START, FUND);
      GoesThrough(START, FUND) && e == START.(book := e.book) && BookIs(e.book, 10000, 0, 1, {ClientKey("d")})
  {
    var lines := DepositLines(1, Money(10000, USD));
    PairGoesThrough(Open(EMPTY_BOOK, 1), ClientKey("d"), lines[0], lines[1]);
    DepositEffect(EMPTY_BOOK, 1, Money(10000, USD), ClientKey("d"));
  }

  lemma StockValue(qty: int)
    requires 0 < qty <= 1000
    ensures CENT_STOCK.Valid() && Notional(CENT_STOCK, 100, qty) == Ok(Money(100 * qty, USD))
    ensures AssertOrderGrid(CENT_STOCK, 100, qty) == Ok(())
  {
  }

  lemma BuyHolds(e: EngineState)
    requires e.book.journal.nextId == 1 && BookIs(e.book, 10000, 0, 1, {ClientKey("d")}) && e.cash == map[] && e.lots == map[]
    requires e.master == START.master && e.orders.orders == map[1 := BOUGHT]
    ensures var (n, r) := HoldForOrder(e, BOUGHT, Money(1000, USD));
      r.Ok? && n.cursor == e.cursor && Holding(n, BOUGHT, 1000, 9000, {ClientKey("d"), ReserveKey(1, 1)})
  {
    DrawGoesThrough(e.book, 10000, 0, 1, {ClientKey("d")}, 1000, ReserveKey(1, 1));
    assert {ClientKey("d")} + {ReserveKey(1, 1)} == {ClientKey("d"), ReserveKey(1, 1)};
  }

  lemma StepBuy(e: EngineState)
    requires e == START.(book := e.book) && BookIs(e.book, 10000, 0, 1, {ClientKey("d")})
    ensures var (n, r) := Act(e, BUY);
      GoesThrough(e, BUY) && n.cursor == e.cursor && Holding(n, BOUGHT, 1000, 9000, {ClientKey("d"), ReserveKey(1, 1)})
  {
    var req := BUY.submit;
    StockValue(10);
    assert Quote(e, 1, 100, 10) == Ok((CENT_STOCK, Money(1000, USD)));
    assert Check(e.risk, IntentOf(req), RiskContextOf(e, req, CENT_STOCK, Money(1000, USD), BUY.inputs.value)) == Approved;
    var (orders, created) := SubmitTo(e.orders, CreateOf(req));
    assert created == Ok(CreatedOrder(BOUGHT)) && orders.orders == map[1 := BOUGHT];
    BuyHolds(e.(orders := orders));
  }

  lemma AcceptIsApplied(e: EngineState, r: Report, o: Order)
    requires e.orders.orders == map[1 := o] && o.status.PendingNew? && o.leavesQty == o.orderQty > 0 && o.cumQty == 0
    requires r.order == 1 && r.execType.NewExec? && Judge(e.cursor, r).Offer?
    ensures Taken(e, r) == Some((o.(status := New, venueOrderId := Some(r.venueOrderId)), AcceptedEffect(r.venueOrderId)))
    ensures var (n, out) := ApplyReport(e, r);
      && out.Ok? && n == e.(orders := n.orders, cursor := n.cursor)
      && n.orders.orders == map[1 := o.(status := New, venueOrderId := Some(r.venueOrderId))]
  {
    assert Apply(o, Accepted(r.venueOrderId)).Ok?;
  }

  lemma StepAccept(e: EngineState, keys: set<Key>, venueOrderId: string, session: nat)
    requires Holding(e, BOUGHT, 1000, 9000, keys) && e.cursor == Cursor(None, 1)
    ensures GoesThrough(e, Accept(venueOrderId, session))
    ensures Holding(Act(e, Accept(venueOrderId, session)).0, Working(venueOrderId), 1000, 9000, keys)
  {
    AcceptIsApplied(e, Accept(venueOrderId, session).report, BOUGHT);
  }

  /** Asking for more lots than are held for draws the difference. */
  lemma AskDraws(e: EngineState, o: Order, qty: int, held: int, available: int, keys: set<Key>)
    requires Holding(e, o, held, available, keys) && o.id == 1 && o.account == 1 && o.instrument == 1 && o.side.Buy? && o.cumQty == 0
    requires 0 < qty <= 30 && 0 <= held < 100 * qty <= held + available
    ensures DrawsCash(e, ReplaceRequest(1, qty, 100))
    ensures TopUp(e, o, CENT_STOCK, ReplaceRequest(1, qty, 100)) == Draw(e, o, Money(100 * qty, USD))
  {
    StockValue(qty);
    TopUpBuyUnfolds(e, o, CENT_STOCK, ReplaceRequest(1, qty, 100));
  }

  lemma AskHolds(e: EngineState, o: Order, target: int, held: int, available: int, keys: set<Key>)
    requires Holding(e, o, held, available, keys) && o.id == 1 && o.account == 1
    requires 0 <= held < target <= held + available <= 10000 && |keys| < 10 && ReplaceReserveKey(1, 1) !in keys
    ensures var (n, r) := Draw(e, o, Money(target, USD));
      r.Ok? && Holding(n, o, target, available - (target - held), keys + {ReplaceReserveKey(1, 1)})
  {
    DrawGoesThrough(e.book, available, held, |keys|, keys, target - held, ReplaceReserveKey(1, 1));
  }

  lemma AskPends(s: Store, o: Order, qty: int)
    requires s.orders == map[1 := o] && o.status.New? && o.leavesQty == o.orderQty > 0 && o.cumQty == 0 && 0 < qty
    ensures var (n, r) := ApplyTo(s, 1, ReplaceRequested(qty, 100));
      r.Ok? && n.orders == map[1 := Asking(o, qty)]
  {
    assert Apply(o, ReplaceRequested(qty, 100)).Ok?;
  }

  lemma StepAsk(e: EngineState, o: Order, qty: int, held: int, available: int, keys: set<Key>)
    requires Holding(e, o, held, available, keys) && o.id == 1 && o.account == 1 && o.instrument == 1 && o.side.Buy? && o.cumQty == 0
    requires 0 < qty <= 30 && 0 <= held < 100 * qty <= held + available <= 10000 && |keys| < 10
    requires o.status.New? && o.leavesQty == o.orderQty > 0 && ReplaceReserveKey(1, 1) !in keys
    ensures GoesThrough(e, Ask(qty))
    ensures Holding(Act(e, Ask(qty)).0, Asking(o, qty), 100 * qty, available - (100 * qty - held), keys + {ReplaceReserveKey(1, 1)})
  {
    AskDraws(e, o, qty, held, available, keys);
    StageReplaceUnfolds(e, ReplaceRequest(1, qty, 100));
    AskHolds(e, o, 100 * qty, held, available, keys);
    AskPends(Draw(e, o, Money(100 * qty, USD)).0.orders, o, qty);
  }

  lemma DrawAgain(b: Book, available: int, reserved: int, posts: nat, keys: set<Key>, amount: int, key: Key)
    requires BookIs(b, available, reserved, posts, keys) && 0 < amount <= available <= 10000 && key in keys && !key.IsEmpty()
    ensures var (n, r) := ReserveForOrder(b, 1, Money(amount, USD), key); r.Ok? && n.Reserved(1, USD) == reserved
  {
    var lines := ReserveLines(1, Money(amount, USD));
    PairBuilds(key, lines[0], lines[1]);
  }

  lemma AskIsRefused(s: Store, o: Order, qty: int)
    requires s.orders == map[1 := o] && o.status.PendingReplace?
    ensures ApplyTo(s, 1, ReplaceRequested(qty, 100)).1 == Err(IllegalTransition(PendingReplace, ReplaceRequested(qty, 100)))
  {
  }

  /** Asking again while the first ask is pending draws under the used key, then is refused. */
  lemma StepAskAgain(e: EngineState, o: Order, qty: int, held: int, available: int, keys: set<Key>)
    requires Holding(e, o, held, available, keys) && o.id == 1 && o.account == 1 && o.instrument == 1 && o.side.Buy? && o.cumQty == 0
    requires 0 < qty <= 30 && 0 <= held < 100 * qty <= held + available <= 10000
    requires o.status.PendingReplace? && ReplaceReserveKey(1, 1) in keys
    ensures var (n, r) := Act(e, Ask(qty));
      && r == Err(OrderFailed(IllegalTransition(PendingReplace, ReplaceRequested(qty, 100))))
      && HeldCash(n, 1) == 100 * qty && n.book.Reserved(1, USD) == held
  {
    AskDraws(e, o, qty, held, available, keys);
    StageReplaceUnfolds(e, ReplaceRequest(1, qty, 100));
    DrawAgain(e.book, available, held, |keys|, keys, 100 * qty - held, ReplaceReserveKey(1, 1));
    AskIsRefused(Draw(e, o, Money(100 * qty, USD)).0.orders, o, qty);
  }

  lemma AskAgainBreaks(e: EngineState, o: Order, qty: int, held: int, available: int, keys: set<Key>)
    requires Holding(e, o, held, available, keys) && o.id == 1 && o.account == 1 && o.instrument == 1 && o.side.Buy? && o.cumQty == 0
    requires 0 < qty <= 30 && 0 <= held < 100 * qty <= held + available <= 10000
    requires o.status.PendingReplace? && ReplaceReserveKey(1, 1) in keys && Sane(e) && Conserved(e)
    ensures !Conserved(Act(e, Ask(qty)).0)
  {
    AskDraws(e, o, qty, held, available, keys);
    StepAskAgain(e, o, qty, held, available, keys);
    assert TopUpKeyUsed(e, 1);
    UsedKeyBreaks(e, ReplaceRequest(1, qty, 100));
  }

  // ----- the run

  function Opening(venueOrderId: string, session: nat): seq<Input> { [FUND, BUY, Accept(venueOrderId, session)] }

  lemma OpeningRuns(venueOrderId: string, session: nat)
    ensures var opening := Opening(venueOrderId, session);
      && InWidth(START, opening) && GuardedRun(START, opening)
      && Holding(After(START, opening), Working(venueOrderId), 1000, 9000, {ClientKey("d"), ReserveKey(1, 1)})
  {
    var accept := Accept(venueOrderId, session);
    assert [] + [FUND] == [FUND] && [FUND] + [BUY] == [FUND, BUY] && [FUND, BUY] + [accept] == Opening(venueOrderId, session);
    StepFund();
    RunExtends(START, [], FUND);
    StepBuy(After(START, [FUND]));
    RunExtends(START, [FUND], BUY);
    StepAccept(After(START, [FUND, BUY]), {ClientKey("d"), ReserveKey(1, 1)}, venueOrderId, session);
    RunExtends(START, [FUND, BUY], accept);
  }

  lemma FirstAskRuns(venueOrderId: string, session: nat, qty: int)
    requires 10 < qty <= 30
    ensures var run := Opening(venueOrderId, session) + [Ask(qty)]; var keys := {ClientKey("d"), ReserveKey(1, 1)};
      && InWidth(START, run) && GuardedRun(START, run)
      && Holding(After(START, run), Asking(Working(venueOrderId), qty), 100 * qty, 10000 - 100 * qty, keys + {ReplaceReserveKey(1, 1)})
  {
    var opening := Opening(venueOrderId, session);
    OpeningRuns(venueOrderId, session);
    StepAsk(After(START, opening), Working(venueOrderId), qty, 1000, 9000, {ClientKey("d"), ReserveKey(1, 1)});
    RunExtends(START, opening, Ask(qty));
  }

  /** Fund, buy 10 lots, have them accepted and ask for more: the reserves add up throughout. Asking for
      more still while that is pending is refused, and leaves more held for the order than is reserved. */
  lemma SecondAskBreaksReserves(venueOrderId: string, session: nat, first: int, second: int)
    requires 10 < first < second <= 30
    ensures var run := Opening(venueOrderId, session) + [Ask(first)];
      && InWidth(START, run + [Ask(second)])
      && ConservedRun(START, run) && !Conserved(After(START, run + [Ask(second)]))
      && HeldCash(After(START, run + [Ask(second)]), 1) == 100 * second
      && After(START, run + [Ask(second)]).book.Reserved(1, USD) == 100 * first
  {
    var run := Opening(venueOrderId, session) + [Ask(first)];
    var keys := {ClientKey("d"), ReserveKey(1, 1)} + {ReplaceReserveKey(1, 1)};
    FirstAskRuns(venueOrderId, session, first);
    StockValue(1);
    EveryRunConservesReserves(START.master, WIDE_LIMITS, run);
    var o := Asking(Working(venueOrderId), first);
    StepAskAgain(After(START, run), o, second, 100 * first, 10000 - 100 * first, keys);
    AskAgainBreaks(After(START, run), o, second, 100 * first, 10000 - 100 * first, keys);
    RunSnoc(START, run, Ask(second));
  }
}

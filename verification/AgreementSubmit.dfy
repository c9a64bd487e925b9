/** The submit command keeps orders, venue and ledger in agreement. */
module AgreementSubmit {
  import opened Base
  import opened Ledger
  import opened Orders
  import opened OrderStores
  import opened PaperBooks
  import opened Instruments
  import opened Execution
  import opened Risk
  import opened Notionals
  import opened Sandbox
  import opened Delivery
  import opened Engine
  import opened Reserves
  import opened ReserveRuns
  import opened ReserveSafety
  import opened QuietBooks
  import opened Agreement
  import opened AgreementSteps

  // ----- a fill is recorded once

  /** The book after exactly one more fill key. */
  ghost predicate FillStep(b: Book, n: Book, exec: string) {
    && BookOk(n)
    && (forall x: string :: n.HasKey(FillKey(x)) <==> b.HasKey(FillKey(x)) || x == exec)
    && (forall a: nat, id: nat :: n.HasKey(ReserveKey(a, id)) <==> b.HasKey(ReserveKey(a, id)))
  }

  lemma FillThenQuiet(b: Book, m: Book, n: Book, exec: string)
    requires FillStep(b, m, exec) && QuietStep(m, n)
    ensures FillStep(b, n, exec)
  {
  }

  lemma FillFromKeys(b: Book, n: Book, exec: string)
    requires KeysAfter(b, n, FillKey(exec), true) && BookOk(n)
    ensures FillStep(b, n, exec)
  {
  }

  /** What a just created order holds for its full quantity. */
  ghost predicate Held(e: EngineState, o: Order, value: Money) {
    && value.minor > 0 && o.orderQty > 0
    && (o.side.Buy? ==> o.id in e.cash && e.cash[o.id] == value && value.minor <= e.book.Reserved(o.account, value.currency))
    && (o.side.Sell? ==> o.id in e.lots && e.lots[o.id] == o.orderQty && o.orderQty <= e.book.ReservedPosition(o.account, o.instrument))
  }

  lemma BuyFillRecords(e: EngineState, o: Order, exec: string, value: Money)
    requires BookOk(e.book) && Held(e, o, value) && o.side.Buy? && !e.book.HasKey(FillKey(exec))
    requires !Overflowed(SettleBuyFill(e, o, exec, o.orderQty, value).1)
    ensures var (n, r) := SettleBuyFill(e, o, exec, o.orderQty, value);
      r.Ok? && LedgerSide(e, n) && FillStep(e.book, n.book, exec)
  {
    var fee, key := Money(0, value.currency), FillKey(exec);
    BuyOutcome(e.book, o.account, o.instrument, o.orderQty, value, key);
    SettleBuyEffect(e.book, o.account, o.instrument, o.orderQty, value, fee, key);
    BuyKeepsIndexed(e.book, o.account, o.instrument, o.orderQty, value, fee, key);
    BuyKeepsSound(e.book, o.account, o.instrument, o.orderQty, value, fee, key);
    FillFromKeys(e.book, SettleBuy(e.book, o.account, o.instrument, o.orderQty, value, fee, key).0, exec);
  }

  lemma SellFillRecords(e: EngineState, o: Order, exec: string, value: Money)
    requires BookOk(e.book) && Held(e, o, value) && o.side.Sell? && !e.book.HasKey(FillKey(exec))
    requires !Overflowed(SettleSellFill(e, o, exec, o.orderQty, value).1)
    ensures var (n, r) := SettleSellFill(e, o, exec, o.orderQty, value);
      r.Ok? && LedgerSide(e, n) && FillStep(e.book, n.book, exec)
  {
    var fee, key := Money(0, value.currency), FillKey(exec);
    SellOutcome(e.book, o.account, o.instrument, o.orderQty, value, key);
    SettleSellEffect(e.book, o.account, o.instrument, o.orderQty, value, fee, key);
    SellKeepsIndexed(e.book, o.account, o.instrument, o.orderQty, value, fee, key);
    SellKeepsSound(e.book, o.account, o.instrument, o.orderQty, value, fee, key);
    FillFromKeys(e.book, SettleSell(e.book, o.account, o.instrument, o.orderQty, value, fee, key).0, exec);
  }

  lemma FillRecords(e: EngineState, o: Order, exec: string, value: Money, filled: bool)
    requires BookOk(e.book) && Held(e, o, value) && !e.book.HasKey(FillKey(exec))
    requires !Overflowed(SettleAndRelease(e, o, exec, o.orderQty, value, filled).1)
    ensures var n := SettleAndRelease(e, o, exec, o.orderQty, value, filled).0;
      LedgerSide(e, n) && FillStep(e.book, n.book, exec)
  {
    if o.side.Buy? { BuyFillRecords(e, o, exec, value); } else { SellFillRecords(e, o, exec, value); }
    var m := SettleFill(e, o, exec, o.orderQty, value).0;
    if filled {
      ReleaseRemainingQuiet(m, o);
      FillThenQuiet(e.book, m.book, ReleaseRemaining(m, o).0.book, exec);
    }
  }

  lemma TradeRecords(e: EngineState, o: Order, exec: string, price: int, value: Money)
    requires BookOk(e.book) && Held(e, o, value) && !e.book.HasKey(FillKey(exec))
    requires o.instrument in e.master && Notional(e.master[o.instrument], price, o.orderQty) == Ok(value)
    requires !Overflowed(TradeEffects(e, o, exec, o.orderQty, price, true).1)
    ensures var n := TradeEffects(e, o, exec, o.orderQty, price, true).0;
      && FillStep(e.book, n.book, exec) && n.orders == e.orders && n.master == e.master && n.cursor == e.cursor
  {
    var e1 := e.(trades := e.trades + [TradeSnapshot(o.id, exec, o.orderQty, price, e.cursor.session.GetOr(0), e.cursor.next)]);
    TradeUnfolds(e, o, exec, price, value);
    FillRecords(e1, o, exec, value, true);
  }

  lemma TradeUnfolds(e: EngineState, o: Order, exec: string, price: int, value: Money)
    requires o.instrument in e.master && Notional(e.master[o.instrument], price, o.orderQty) == Ok(value)
    ensures var e1 := e.(trades := e.trades + [TradeSnapshot(o.id, exec, o.orderQty, price, e.cursor.session.GetOr(0), e.cursor.next)]);
      var (m, r) := SettleAndRelease(e1, o, exec, o.orderQty, value, true);
      var (n, out) := TradeEffects(e, o, exec, o.orderQty, price, true);
      out == r && n == m.(marks := n.marks)
  {
  }

  // ----- agreement after order k moved, with any ledger step

  lemma AgreedAfterMove(d: Desk, n: Desk, k: nat, o: Order)
    requires Agreed(d) && LedgerOk(n.engine)
    requires n.engine.orders.orders == d.engine.orders.orders[k := o] && d.engine.orders.nextId <= n.engine.orders.nextId
    requires OrderOk(o, k, n.engine.orders.nextId) && RowFor(n.venue, k, o) && RowsElsewhere(d.venue, n.venue, k)
    requires k !in d.engine.orders.orders
    requires d.venue.history <= n.venue.history && NewReportsOk(d.venue, n.venue, k, o)
    requires NewExecsOk(d.venue, n.venue, [], o)
    requires Numbered(n.venue) && n.venue.outbox == [] && CursorOk(n.engine.cursor, n.venue)
    requires n.venue.connected == d.venue.connected && (n.venue.connected ==> Settled(o))
    ensures Agreed(n)
  {
    MatchedAfter(d.engine.orders.orders, d.engine.orders.nextId, d.venue, n.venue, n.engine.orders.nextId, k, o);
  }

  /** h is an engine where only order o was added, with any ledger step for it. */
  ghost predicate Added(d: Desk, h: EngineState, o: Order) {
    && o.id !in d.engine.orders.orders && h.orders.orders == d.engine.orders.orders[o.id := o]
    && d.engine.orders.nextId <= h.orders.nextId && OrderOk(o, o.id, h.orders.nextId) && LedgerOk(h)
  }

  /** Right after the creation, nothing filled and the cursor untouched. */
  ghost predicate Fresh(d: Desk, h: EngineState, o: Order) {
    Added(d, h, o) && o.seenExecs == [] && o.cumQty == 0 && h.cursor == d.engine.cursor
  }

  lemma NotAtVenue(d: Desk, id: nat)
    requires Agreed(d) && id !in d.engine.orders.orders
    ensures id !in d.venue.inflight
  {
  }

  /** The order never reached the venue: it stays pending or was rejected for want of funds. */
  lemma UnsentAgrees(d: Desk, h: EngineState, o: Order)
    requires Agreed(d) && Fresh(d, h, o) && (o.status.PendingNew? || o.status.Rejected?)
    ensures Agreed(Desk(h, d.venue))
  {
    NotAtVenue(d, o.id);
    AgreedAfterMove(d, Desk(h, d.venue), o.id, o);
  }

  // ----- creation and hold

  /** No fill was recorded, and no reserve key but those of the order appeared. */
  ghost predicate HoldStep(b: Book, n: Book, id: nat) {
    && BookOk(n)
    && (forall x: string :: n.HasKey(FillKey(x)) <==> b.HasKey(FillKey(x)))
    && (forall a: nat, i: nat :: n.HasKey(ReserveKey(a, i)) ==> b.HasKey(ReserveKey(a, i)) || i == id)
  }

  lemma BuyHoldStep(m: EngineState, o: Order, value: Money)
    requires BookOk(m.book) && o.side.Buy? && value.minor > 0 && o.orderQty > 0 && !m.book.HasKey(ReserveKey(o.account, o.id))
    requires !Overflowed(HoldForOrder(m, o, value).1)
    ensures var key := ReserveKey(o.account, o.id); var (book, r) := ReserveForOrder(m.book, o.account, value, key);
      HoldStep(m.book, book, o.id) && (r.Ok? ==> value.minor <= book.Reserved(o.account, value.currency))
  {
    var key := ReserveKey(o.account, o.id);
    ReserveEffect(m.book, o.account, value, key);
    CashKeepsIndexed(m.book, o.account, value, key);
    var (book, r) := ReserveForOrder(m.book, o.account, value, key);
    var d := if r.Ok? then value.minor else 0;
    SoundAfterCash(m.book, book, o.account, value.currency, -d, d);
    assert m.book.Reserved(o.account, value.currency) >= 0;
  }

  lemma SellHoldStep(m: EngineState, o: Order)
    requires BookOk(m.book) && o.side.Sell? && o.orderQty > 0
    ensures var (book, r) := ReservePositionForOrder(m.book, o.account, o.instrument, o.orderQty);
      HoldStep(m.book, book, o.id) && (r.Ok? ==> o.orderQty <= book.ReservedPosition(o.account, o.instrument))
  {
    ReserveLotsQuiet(m.book, o.account, o.instrument, o.orderQty);
    ReserveLotsEffect(m.book, o.account, o.instrument, o.orderQty);
    assert m.book.ReservedPosition(o.account, o.instrument) >= 0;
  }

  function RejectedFrom(o: Order, reason: string): Order { o.(status := Rejected, rejectReason := Some(reason)) }

  lemma BuyHoldUnfolds(m: EngineState, o: Order, value: Money)
    requires o.side.Buy?
    ensures var (n, r) := HoldForOrder(m, o, value);
      var (book, out) := ReserveForOrder(m.book, o.account, value, ReserveKey(o.account, o.id));
      && n.book == book && n.master == m.master && n.cursor == m.cursor
      && (out.Ok? ==> r.Ok? && o.id in n.cash && n.cash[o.id] == value && n.orders == m.orders)
      && (out.Err? ==> r == Err(LedgerFailed(out.error))
                       && (n.orders == m.orders || n.orders == ApplyTo(m.orders, o.id, Reject("insufficient funds")).0))
  {
  }

  lemma SellHoldUnfolds(m: EngineState, o: Order, value: Money)
    requires o.side.Sell?
    ensures var (n, r) := HoldForOrder(m, o, value);
      var (book, out) := ReservePositionForOrder(m.book, o.account, o.instrument, o.orderQty);
      && n.book == book && n.master == m.master && n.cursor == m.cursor
      && (out.Ok? ==> r.Ok? && o.id in n.lots && n.lots[o.id] == o.orderQty && n.orders == m.orders)
      && (out.Err? ==> r == Err(LedgerFailed(out.error))
                       && (n.orders == m.orders || n.orders == ApplyTo(m.orders, o.id, Reject("insufficient position")).0))
  {
  }

  lemma RejectStores(s: Store, o: Order, reason: string)
    requires o.id in s.orders && s.orders[o.id] == o && o.status.PendingNew? && WellFormed(o)
    ensures var n := ApplyTo(s, o.id, Reject(reason)).0;
      && n.nextId == s.nextId && n.orders == s.orders[o.id := RejectedFrom(o, reason)]
      && (forall top: nat :: OrderOk(o, o.id, top) ==> OrderOk(RejectedFrom(o, reason), o.id, top))
  {
  }

  lemma CreatedFacts(e: EngineState, req: SubmitRequest, inputs: Option<RiskInputs>)
    requires MasterOk(e) && RequestFits(req) && Creates(e, req, inputs).Some?
    ensures var (o, value) := Creates(e, req, inputs).value; var s := SubmitTo(e.orders, CreateOf(req)).0;
      && o.id == e.orders.nextId + 1 && s.nextId == o.id && s.orders == e.orders.orders[o.id := o]
      && WellFormed(o) && o.status.PendingNew? && o.seenExecs == [] && o.cumQty == 0
      && o.instrument == req.instrument && o.side == req.side && o.orderQty == req.qty && o.price == req.price
      && o.instrument in e.master && Notional(e.master[o.instrument], o.price, o.orderQty) == Ok(value)
      && value.minor > 0 && o.orderQty > 0
  {
    QuoteMeans(e, req.instrument, req.price, req.qty);
  }

  lemma NextIdUnused(d: Desk, account: nat)
    requires Agreed(d)
    ensures d.engine.orders.nextId + 1 !in d.engine.orders.orders
    ensures !d.engine.book.HasKey(ReserveKey(account, d.engine.orders.nextId + 1))
  {
    forall id | id in d.engine.orders.orders ensures id <= d.engine.orders.nextId {
      assert OrderOk(d.engine.orders.orders[id], id, d.engine.orders.nextId);
    }
  }

  /** A state where o was added to the orders and the ledger moved for its hold at most. */
  lemma AddedIsFresh(d: Desk, h: EngineState, o: Order)
    requires Agreed(d) && o.id == d.engine.orders.nextId + 1 && h.orders.orders == d.engine.orders.orders[o.id := o]
    requires h.orders.nextId == o.id && h.master == d.engine.master && h.cursor == d.engine.cursor
    requires o.seenExecs == [] && OrderOk(o, o.id, o.id) && o.cumQty == 0
    requires HoldStep(d.engine.book, h.book, o.id)
    ensures Fresh(d, h, o)
  {
    NextIdUnused(d, o.account);
    forall x ensures h.book.HasKey(FillKey(x)) <==> Seen(h.orders.orders, x) {
      SeenAfter(d.engine.orders.orders, o.id, o, x);
    }
  }

  /** m is the state right after o was created. */
  ghost predicate JustCreated(d: Desk, m: EngineState, o: Order, value: Money) {
    && m == d.engine.(orders := m.orders) && o.id == d.engine.orders.nextId + 1
    && m.orders.orders == d.engine.orders.orders[o.id := o] && m.orders.nextId == o.id
    && WellFormed(o) && o.status.PendingNew? && o.seenExecs == [] && o.cumQty == 0 && value.minor > 0
  }

  lemma HeldBuyIsFresh(d: Desk, m: EngineState, o: Order, value: Money)
    requires Agreed(d) && JustCreated(d, m, o, value) && o.side.Buy? && !Overflowed(HoldForOrder(m, o, value).1)
    ensures var (n, r) := HoldForOrder(m, o, value);
      && (r.Ok? ==> Fresh(d, n, o) && Held(n, o, value) && n.master == d.engine.master)
      && (r.Err? ==> Fresh(d, n, o) || Fresh(d, n, RejectedFrom(o, "insufficient funds")))
  {
    var (n, r) := HoldForOrder(m, o, value);
    NextIdUnused(d, o.account);
    BuyHoldUnfolds(m, o, value);
    BuyHoldStep(m, o, value);
    RejectStores(m.orders, o, "insufficient funds");
    var rejected := RejectedFrom(o, "insufficient funds");
    assert m.orders.orders[o.id := rejected] == d.engine.orders.orders[o.id := rejected];
    if n.orders == m.orders { AddedIsFresh(d, n, o); } else { AddedIsFresh(d, n, rejected); }
  }

  lemma HeldSellIsFresh(d: Desk, m: EngineState, o: Order, value: Money)
    requires Agreed(d) && JustCreated(d, m, o, value) && o.side.Sell?
    ensures var (n, r) := HoldForOrder(m, o, value);
      && (r.Ok? ==> Fresh(d, n, o) && Held(n, o, value) && n.master == d.engine.master)
      && (r.Err? ==> Fresh(d, n, o) || Fresh(d, n, RejectedFrom(o, "insufficient position")))
  {
    var (n, r) := HoldForOrder(m, o, value);
    SellHoldUnfolds(m, o, value);
    SellHoldStep(m, o);
    RejectStores(m.orders, o, "insufficient position");
    var rejected := RejectedFrom(o, "insufficient position");
    assert m.orders.orders[o.id := rejected] == d.engine.orders.orders[o.id := rejected];
    if n.orders == m.orders { AddedIsFresh(d, n, o); } else { AddedIsFresh(d, n, rejected); }
  }

  // ----- what the sandbox pushes for a new order

  /** The sandbox's answers to a submission: refused, accepted, accepted and filled, accepted and expired. */
  datatype Answer = AnswerRejected | AnswerAccepted | AnswerFilled | AnswerExpired

  function AnswerOf(v: Venue, tif: TimeInForce): Answer {
    if tif.Fok? && !v.autoFill then AnswerRejected
    else if v.autoFill then AnswerFilled
    else if tif.Ioc? then AnswerExpired
    else AnswerAccepted
  }

  function ReportTo(v: Venue, o: NewVenueOrder, exec: Option<string>, t: ExecType, i: nat): Report {
    Report(o.id, VenueIdText(v.nextVenue), exec, t, o.qty, o.price, v.session, |v.history| + 1 + i)
  }

  function NewReports(v: Venue, o: NewVenueOrder): seq<Report> {
    match AnswerOf(v, o.tif)
    case AnswerRejected => [ReportTo(v, o, None, RejectedExec("fok"), 0)]
    case AnswerAccepted => [ReportTo(v, o, None, NewExec, 0)]
    case AnswerFilled => [ReportTo(v, o, None, NewExec, 0), ReportTo(v, o, Some(ExecIdText(v.nextExec)), TradeExec, 1)]
    case AnswerExpired => [ReportTo(v, o, None, NewExec, 0), ReportTo(v, o, None, ExpiredExec, 1)]
  }

  function NewRow(v: Venue, o: NewVenueOrder): Inflight {
    var answer := AnswerOf(v, o.tif);
    Inflight(VenueIdText(v.nextVenue), o.qty, if answer.AnswerFilled? then o.qty else 0, o.price, answer.AnswerExpired?)
  }

  lemma TwoMore(history: seq<Report>, a: Report, b: Report)
    ensures history + [a] + [b] == history + [a, b]
  {
  }

  lemma SubmitAnswers(v: Venue, o: NewVenueOrder)
    requires Numbered(v) && v.outbox == [] && v.connected && o.qty > 0 && o.price > 0
    ensures var (n, r) := VenueSubmit(v, o); var answer := AnswerOf(v, o.tif);
      && r.Ok? && Pushed(v, n) && n.history == v.history + NewReports(v, o)
      && n.inflight == (if answer.AnswerRejected? then v.inflight else v.inflight[o.id := NewRow(v, o)])
      && n.nextExec == v.nextExec + (if answer.AnswerFilled? then 1 else 0)
  {
    SubmitExtends(v, o);
    var reports := NewReports(v, o);
    if |reports| == 2 { TwoMore(v.history, reports[0], reports[1]); }
  }

  // ----- the order's reports are taken

  function AcceptedFrom(o: Order, venueOrderId: string): Order { o.(status := New, venueOrderId := Some(venueOrderId)) }

  /** Old reports say nothing new about settled orders, and nothing about the fresh one. */
  lemma SpentWhileFresh(d: Desk, h: EngineState, o: Order)
    requires Agreed(d) && d.venue.connected && Fresh(d, h, o)
    ensures forall i :: 0 <= i < |d.venue.history| ==> Spent(h, d.venue.history[i])
  {
    forall i | 0 <= i < |d.venue.history| ensures Spent(h, d.venue.history[i]) {
      var r := d.venue.history[i];
      assert r.order in d.engine.orders.orders && Settled(d.engine.orders.orders[r.order]);
      ReportIsSpent(h, r);
    }
  }

  lemma AcceptedReport(h: EngineState, o: Order, r: Report)
    requires h.cursor == Cursor(Some(r.session), r.seqNo) && r.execType.NewExec? && r.order == o.id
    requires o.id in h.orders.orders && h.orders.orders[o.id] == o && o.status.PendingNew? && WellFormed(o)
    ensures var (n, out) := ApplyReport(h, r);
      && out == Ok(()) && n == h.(orders := n.orders, cursor := Cursor(Some(r.session), r.seqNo + 1))
      && n.orders.orders == h.orders.orders[o.id := AcceptedFrom(o, r.venueOrderId)] && n.orders.nextId == h.orders.nextId
      && WellFormed(AcceptedFrom(o, r.venueOrderId))
  {
  }

  /** What the venue's answer leaves true of the order in its last state. */
  ghost predicate AnsweredFor(d: Desk, n: Venue, o: Order) {
    && RowFor(n, o.id, o) && RowsElsewhere(d.venue, n, o.id) && Pushed(d.venue, n)
    && NewReportsOk(d.venue, n, o.id, o) && NewExecsOk(d.venue, n, [], o) && Settled(o)
  }

  lemma AnsweredAgrees(d: Desk, f: EngineState, n: Venue, o: Order)
    requires Agreed(d) && Added(d, f, o) && AnsweredFor(d, n, o)
    requires f.cursor.session == Some(n.session) && 1 <= f.cursor.next <= |n.history| + 1
    ensures Agreed(Desk(f, n.(outbox := [])))
  {
    PrintsAlike(n);
    AgreedAfterMove(d, Desk(f, n.(outbox := [])), o.id, o);
  }

  lemma PrintsAlike(n: Venue)
    ensures Numbered(n) ==> Numbered(n.(outbox := []))
  {
  }

  /** The last report of the answer, when it is no trade. */
  lemma QuietAnswer(d: Desk, h: EngineState, o: Order, r: Report, event: OrderEvent, o2: Order, effect: DomainEffect)
    requires Added(d, h, o) && h.cursor == Cursor(Some(r.session), r.seqNo) && r.order == o.id
    requires ToOrderEvent(r) == Ok(Some(event)) && Apply(o, event) == Ok((o2, effect)) && !effect.TradeEffect?
    requires o2.seenExecs == o.seenExecs && o2.id == o.id && OrderOk(o2, o.id, h.orders.nextId)
    requires !Overflowed(ApplyReport(h, r).1)
    ensures var n := ApplyReport(h, r).0;
      Added(d, n, o2) && n.cursor.session == Some(r.session) && r.seqNo <= n.cursor.next <= r.seqNo + 1
  {
    QuietReport(h, r, event, o2, effect);
    var n := ApplyReport(h, r).0;
    QuietLedgerOk(h, n, o.id, o2);
    assert h.orders.orders[o.id := o2] == d.engine.orders.orders[o.id := o2];
  }

  lemma RejectedAnswer(d: Desk, h: EngineState, o: Order, r: Report)
    requires Agreed(d) && Added(d, h, o) && o.status.PendingNew? && h.cursor == Cursor(Some(r.session), r.seqNo)
    requires r.order == o.id && r.execType == RejectedExec("fok") && !Overflowed(ApplyReport(h, r).1)
    ensures var n := ApplyReport(h, r).0;
      Added(d, n, RejectedFrom(o, "fok")) && n.cursor.session == Some(r.session) && r.seqNo <= n.cursor.next <= r.seqNo + 1
  {
    QuietAnswer(d, h, o, r, Reject("fok"), RejectedFrom(o, "fok"), RejectedEffect("fok"));
  }

  lemma AcceptedAnswer(d: Desk, h: EngineState, o: Order, r: Report)
    requires Agreed(d) && Added(d, h, o) && o.status.PendingNew? && h.cursor == Cursor(Some(r.session), r.seqNo)
    requires r.order == o.id && r.execType.NewExec?
    ensures var (n, out) := ApplyReport(h, r);
      && out == Ok(()) && Added(d, n, AcceptedFrom(o, r.venueOrderId)) && n.cursor == Cursor(Some(r.session), r.seqNo + 1)
      && n == h.(orders := n.orders, cursor := n.cursor)
  {
    AcceptedReport(h, o, r);
    var a := AcceptedFrom(o, r.venueOrderId);
    var n := ApplyReport(h, r).0;
    SameBookIsQuiet(h.book);
    QuietLedgerOk(h, n, o.id, a);
    assert h.orders.orders[o.id := a] == d.engine.orders.orders[o.id := a];
  }

  lemma ExpiredAnswer(d: Desk, h: EngineState, o: Order, r: Report)
    requires Agreed(d) && Added(d, h, o) && o.status.New? && h.cursor == Cursor(Some(r.session), r.seqNo)
    requires r.order == o.id && r.execType.ExpiredExec? && !Overflowed(ApplyReport(h, r).1)
    ensures var n := ApplyReport(h, r).0;
      Added(d, n, o.(status := Expired)) && n.cursor.session == Some(r.session) && r.seqNo <= n.cursor.next <= r.seqNo + 1
  {
    QuietAnswer(d, h, o, r, Expire, o.(status := Expired), ExpiredEffect);
  }

  // ----- the fill

  function FilledBy(o: Order, exec: string): Order {
    o.(cumQty := o.orderQty, leavesQty := 0, avgPx := Some(o.price), seenExecs := [exec], status := Filled)
  }

  lemma FillShape(o: Order, exec: string)
    requires WellFormed(o) && o.status.New?
    ensures Apply(o, Trade(exec, o.orderQty, o.price)) == Ok((FilledBy(o, exec), TradeEffect(exec, o.orderQty, o.price, true)))
    ensures WellFormed(FilledBy(o, exec))
  {
    assert o.cumQty == 0 && o.leavesQty == o.orderQty && o.seenExecs == [];
    assert o.seenExecs + [exec] == [exec];
    TradeNeverOverflows(o, exec, o.orderQty, o.price);
    TradeKeepsWellFormed(o, exec, o.orderQty, o.price);
  }

  lemma FillLedgerOk(d: Desk, h: EngineState, n: EngineState, o: Order, f: Order, exec: string)
    requires Added(d, h, o) && o.seenExecs == [] && f.id == o.id && f.seenExecs == [exec]
    requires FillStep(h.book, n.book, exec) && n.master == h.master && n.orders.nextId == h.orders.nextId
    requires n.orders.orders == h.orders.orders[o.id := f] && OrderOk(f, o.id, n.orders.nextId)
    ensures Added(d, n, f)
  {
    forall x ensures n.book.HasKey(FillKey(x)) <==> Seen(n.orders.orders, x) { SeenAfter(h.orders.orders, o.id, f, x); }
    assert h.orders.orders[o.id := f] == d.engine.orders.orders[o.id := f];
  }

  lemma TradeReportUnfolds(h: EngineState, o: Order, r: Report, exec: string)
    requires h.cursor == Cursor(Some(r.session), r.seqNo) && r.order == o.id && r.execType.TradeExec? && r.exec == Some(exec)
    requires r.qty == o.orderQty && r.price == o.price
    requires o.id in h.orders.orders && h.orders.orders[o.id] == o && WellFormed(o) && o.status.New?
    ensures var stored := h.(orders := ApplyTo(h.orders, o.id, Trade(exec, o.orderQty, o.price)).0);
      var (m, out) := TradeEffects(stored, FilledBy(o, exec), exec, o.orderQty, o.price, true);
      && stored.orders.orders == h.orders.orders[o.id := FilledBy(o, exec)] && stored.orders.nextId == h.orders.nextId
      && ApplyReport(h, r) == if out.Err? then (m, out) else (Advance(m, r.seqNo), Ok(()))
  {
    FillShape(o, exec);
  }

  lemma FilledAnswer(d: Desk, h: EngineState, o: Order, r: Report, exec: string, value: Money)
    requires Agreed(d) && Added(d, h, o) && o.status.New? && h.cursor == Cursor(Some(r.session), r.seqNo)
    requires r.order == o.id && r.execType.TradeExec? && r.exec == Some(exec) && r.qty == o.orderQty && r.price == o.price
    requires Held(h, o, value) && !h.book.HasKey(FillKey(exec))
    requires o.instrument in h.master && Notional(h.master[o.instrument], o.price, o.orderQty) == Ok(value)
    requires !Overflowed(ApplyReport(h, r).1)
    ensures var n := ApplyReport(h, r).0;
      Added(d, n, FilledBy(o, exec)) && n.cursor.session == Some(r.session) && r.seqNo <= n.cursor.next <= r.seqNo + 1
  {
    TradeReportUnfolds(h, o, r, exec);
    FillShape(o, exec);
    var f := FilledBy(o, exec);
    var stored := h.(orders := ApplyTo(h.orders, o.id, Trade(exec, o.orderQty, o.price)).0);
    TradeRecords(stored, f, exec, o.price, value);
    FillLedgerOk(d, h, ApplyReport(h, r).0, o, f, exec);
  }

  // ----- the venue side of each answer

  lemma FreshExec(d: Desk, h: EngineState, o: Order)
    requires Agreed(d) && Fresh(d, h, o)
    ensures !h.book.HasKey(FillKey(ExecIdText(d.venue.nextExec)))
  {
    var exec := ExecIdText(d.venue.nextExec);
    SeenAfter(d.engine.orders.orders, o.id, o, exec);
    if Printed(d.venue, exec) {
      var k: nat :| k < d.venue.nextExec && exec == ExecIdText(k);
      ExecIdsDistinct(k, d.venue.nextExec);
    }
  }

  /** vo is what the engine sends for o. */
  predicate Sends(o: Order, vo: NewVenueOrder) { vo.id == o.id && vo.qty == o.orderQty && vo.price == o.price }

  /** The order as the venue's answer leaves it. */
  predicate AnswerFits(v: Venue, vo: NewVenueOrder, o2: Order) {
    && 0 < vo.qty <= I64_MAX && FitsI64(vo.price) && Settled(o2) && !o2.status.PendingNew?
    && match AnswerOf(v, vo.tif)
       case AnswerRejected => o2.status.Rejected? && o2.seenExecs == []
       case AnswerAccepted => o2.status.New? && o2.seenExecs == [] && o2.cumQty == 0
       case AnswerFilled => o2.status.Filled? && o2.seenExecs == [ExecIdText(v.nextExec)] && o2.cumQty == vo.qty
       case AnswerExpired => o2.status.Expired? && o2.seenExecs == [] && o2.cumQty == 0
  }

  /** The venue after answering: its journal, rows and execution counter. */
  predicate Answered(v: Venue, n: Venue, vo: NewVenueOrder) {
    && n.history == v.history + NewReports(v, vo)
    && n.inflight == (if AnswerOf(v, vo.tif).AnswerRejected? then v.inflight else v.inflight[vo.id := NewRow(v, vo)])
    && n.nextExec == v.nextExec + (if AnswerOf(v, vo.tif).AnswerFilled? then 1 else 0)
  }

  lemma AnsweredRows(v: Venue, n: Venue, o: Order, vo: NewVenueOrder, o2: Order)
    requires Sends(o, vo) && o2.id == o.id && Answered(v, n, vo) && AnswerFits(v, vo, o2) && o.id !in v.inflight
    ensures RowFor(n, o2.id, o2) && RowsElsewhere(v, n, o2.id)
  {
  }

  lemma AnsweredReports(v: Venue, n: Venue, o: Order, vo: NewVenueOrder, o2: Order)
    requires Sends(o, vo) && o2.id == o.id && Answered(v, n, vo) && AnswerFits(v, vo, o2)
    ensures NewReportsOk(v, n, o2.id, o2)
  {
    var reports := NewReports(v, vo);
    forall i | |v.history| <= i < |n.history| ensures n.history[i].order == o2.id && ReportOk(n.history[i], o2) {
      assert n.history[i] == reports[i - |v.history|];
    }
  }

  lemma AnsweredExecs(v: Venue, n: Venue, o: Order, vo: NewVenueOrder, o2: Order)
    requires Sends(o, vo) && o2.id == o.id && Answered(v, n, vo) && AnswerFits(v, vo, o2)
    ensures NewExecsOk(v, n, [], o2)
  {
    var reports := NewReports(v, vo);
    forall i | |v.history| <= i < |n.history| ensures n.history[i] == reports[i - |v.history|] {}
    if AnswerOf(v, vo.tif).AnswerFilled? {
      assert IsTradeOf(n.history[|v.history| + 1], ExecIdText(v.nextExec));
    }
  }

  lemma AnsweredShape(d: Desk, n: Venue, o: Order, vo: NewVenueOrder, o2: Order)
    requires Agreed(d) && o.id !in d.engine.orders.orders && Sends(o, vo) && o2.id == o.id
    requires Pushed(d.venue, n) && Answered(d.venue, n, vo) && AnswerFits(d.venue, vo, o2)
    ensures AnsweredFor(d, n, o2)
  {
    NotAtVenue(d, o.id);
    AnsweredRows(d.venue, n, o, vo, o2);
    AnsweredReports(d.venue, n, o, vo, o2);
    AnsweredExecs(d.venue, n, o, vo, o2);
  }

  /** Draining the whole answer. */
  lemma AnswerDrains(d: Desk, h: EngineState, o: Order, n: Venue, reports: seq<Report>)
    requires Agreed(d) && d.venue.connected && Fresh(d, h, o) && Pushed(d.venue, n) && n.history == d.venue.history + reports
    ensures var (f, r) := ApplyReports(At(h, d.venue.session, |d.venue.history| + 1), reports);
      Drain(Desk(h, n)) == (Desk(f, n.(outbox := [])), r)
  {
    SpentWhileFresh(d, h, o);
    DrainNewOnly(h, d.venue, n);
    assert n.history[|d.venue.history|..] == reports;
  }

  lemma AddedAt(d: Desk, h: EngineState, o: Order, session: nat, n: nat)
    requires Added(d, h, o)
    ensures Added(d, At(h, session, n), o)
  {
  }

  /** The engine and the venue after the answer to a fresh order. */
  lemma RejectedDrainAgrees(d: Desk, h: EngineState, o: Order, vo: NewVenueOrder, n: Venue)
    requires Agreed(d) && d.venue.connected && Fresh(d, h, o) && o.status.PendingNew? && Sends(o, vo)
    requires (n, Ok(())) == VenueSubmit(d.venue, vo) && AnswerOf(d.venue, vo.tif).AnswerRejected?
    requires !Overflowed(Drain(Desk(h, n)).1)
    ensures Agreed(Drain(Desk(h, n)).0)
  {
    SubmitAnswers(d.venue, vo);
    var reports := NewReports(d.venue, vo);
    AnswerDrains(d, h, o, n, reports);
    var ready := At(h, d.venue.session, |d.venue.history| + 1);
    AddedAt(d, h, o, d.venue.session, |d.venue.history| + 1);
    ApplyOne(ready, reports[0]);
    RejectedAnswer(d, ready, o, reports[0]);
    AnsweredShape(d, n, o, vo, RejectedFrom(o, "fok"));
    AnsweredAgrees(d, ApplyReport(ready, reports[0]).0, n, RejectedFrom(o, "fok"));
  }

  lemma AcceptedDrainAgrees(d: Desk, h: EngineState, o: Order, vo: NewVenueOrder, n: Venue)
    requires Agreed(d) && d.venue.connected && Fresh(d, h, o) && o.status.PendingNew? && Sends(o, vo)
    requires (n, Ok(())) == VenueSubmit(d.venue, vo) && AnswerOf(d.venue, vo.tif).AnswerAccepted?
    ensures Agreed(Drain(Desk(h, n)).0)
  {
    SubmitAnswers(d.venue, vo);
    var reports := NewReports(d.venue, vo);
    AnswerDrains(d, h, o, n, reports);
    var ready := At(h, d.venue.session, |d.venue.history| + 1);
    AddedAt(d, h, o, d.venue.session, |d.venue.history| + 1);
    ApplyOne(ready, reports[0]);
    AcceptedAnswer(d, ready, o, reports[0]);
    var a := AcceptedFrom(o, reports[0].venueOrderId);
    AnsweredShape(d, n, o, vo, a);
    AnsweredAgrees(d, ApplyReport(ready, reports[0]).0, n, a);
  }

  lemma ExpiredDrainAgrees(d: Desk, h: EngineState, o: Order, vo: NewVenueOrder, n: Venue)
    requires Agreed(d) && d.venue.connected && Fresh(d, h, o) && o.status.PendingNew? && Sends(o, vo)
    requires (n, Ok(())) == VenueSubmit(d.venue, vo) && AnswerOf(d.venue, vo.tif).AnswerExpired?
    requires !Overflowed(Drain(Desk(h, n)).1)
    ensures Agreed(Drain(Desk(h, n)).0)
  {
    SubmitAnswers(d.venue, vo);
    var reports := NewReports(d.venue, vo);
    AnswerDrains(d, h, o, n, reports);
    var ready := At(h, d.venue.session, |d.venue.history| + 1);
    AddedAt(d, h, o, d.venue.session, |d.venue.history| + 1);
    ApplyTwo(ready, reports[0], reports[1]);
    AcceptedAnswer(d, ready, o, reports[0]);
    var h1 := ApplyReport(ready, reports[0]).0;
    var a := AcceptedFrom(o, reports[0].venueOrderId);
    ExpiredAnswer(d, h1, a, reports[1]);
    AnsweredShape(d, n, o, vo, a.(status := Expired));
    AnsweredAgrees(d, ApplyReport(h1, reports[1]).0, n, a.(status := Expired));
  }

  lemma StillHeld(h: EngineState, n: EngineState, o: Order, a: Order, value: Money)
    requires Held(h, o, value) && n.book == h.book && n.cash == h.cash && n.lots == h.lots
    requires a.id == o.id && a.side == o.side && a.account == o.account && a.instrument == o.instrument && a.orderQty == o.orderQty
    ensures Held(n, a, value)
  {
  }

  lemma FilledDrainAgrees(d: Desk, h: EngineState, o: Order, vo: NewVenueOrder, n: Venue, value: Money)
    requires Agreed(d) && d.venue.connected && Fresh(d, h, o) && o.status.PendingNew? && Sends(o, vo)
    requires (n, Ok(())) == VenueSubmit(d.venue, vo) && AnswerOf(d.venue, vo.tif).AnswerFilled?
    requires Held(h, o, value) && o.instrument in h.master && Notional(h.master[o.instrument], o.price, o.orderQty) == Ok(value)
    requires !Overflowed(Drain(Desk(h, n)).1)
    ensures Agreed(Drain(Desk(h, n)).0)
  {
    var exec := ExecIdText(d.venue.nextExec);
    SubmitAnswers(d.venue, vo);
    var reports := NewReports(d.venue, vo);
    AnswerDrains(d, h, o, n, reports);
    FreshExec(d, h, o);
    var ready := At(h, d.venue.session, |d.venue.history| + 1);
    AddedAt(d, h, o, d.venue.session, |d.venue.history| + 1);
    ApplyTwo(ready, reports[0], reports[1]);
    AcceptedAnswer(d, ready, o, reports[0]);
    var h1 := ApplyReport(ready, reports[0]).0;
    var a := AcceptedFrom(o, reports[0].venueOrderId);
    StillHeld(h, h1, o, a, value);
    FilledAnswer(d, h1, a, reports[1], exec, value);
    AnsweredShape(d, n, o, vo, FilledBy(a, exec));
    AnsweredAgrees(d, ApplyReport(h1, reports[1]).0, n, FilledBy(a, exec));
  }

  lemma SentAgrees(d: Desk, h: EngineState, o: Order, vo: NewVenueOrder, value: Money)
    requires Agreed(d) && Fresh(d, h, o) && o.status.PendingNew? && Sends(o, vo)
    requires Held(h, o, value) && o.instrument in h.master && Notional(h.master[o.instrument], o.price, o.orderQty) == Ok(value)
    requires !Overflowed(AfterVenue(h, VenueSubmit(d.venue, vo)).1)
    ensures Agreed(AfterVenue(h, VenueSubmit(d.venue, vo)).0)
  {
    var (n, r) := VenueSubmit(d.venue, vo);
    if d.venue.connected {
      SubmitAnswers(d.venue, vo);
      assert r == Ok(()) by { assert r.value == (); }
      match AnswerOf(d.venue, vo.tif)
      case AnswerRejected => RejectedDrainAgrees(d, h, o, vo, n);
      case AnswerAccepted => AcceptedDrainAgrees(d, h, o, vo, n);
      case AnswerFilled => FilledDrainAgrees(d, h, o, vo, n, value);
      case AnswerExpired => ExpiredDrainAgrees(d, h, o, vo, n);
    } else {
      UnsentAgrees(d, VenueRefused(h, Disconnected), o);
    }
  }

  lemma DeskSubmitUnfolds(d: Desk, req: SubmitRequest, inputs: Option<RiskInputs>)
    ensures var (e, staged) := StageSubmit(d.engine, req, inputs); var n := DeskSubmit(d, req, inputs).0;
      && (staged.Err? || staged.value.Known? ==> n == Desk(e, d.venue))
      && (staged.Err? ==> DeskSubmit(d, req, inputs).1 == Err(staged.error))
      && (staged.Ok? && staged.value.Staged? ==>
            var called := AfterVenue(e, VenueSubmit(d.venue, VenueOrderOf(staged.value.order, req)));
            n == called.0 && (CleanCommand(DeskSubmit(d, req, inputs).1) ==> !Overflowed(called.1)))
  {
  }

  /** The hold after creation and what follows it. */
  lemma HeldAgrees(d: Desk, m: EngineState, o: Order, value: Money, vo: NewVenueOrder, n: Desk)
    requires Agreed(d) && JustCreated(d, m, o, value) && Sends(o, vo) && !Overflowed(HoldForOrder(m, o, value).1)
    requires o.instrument in m.master && Notional(m.master[o.instrument], o.price, o.orderQty) == Ok(value)
    requires var (h, r) := HoldForOrder(m, o, value); var called := AfterVenue(h, VenueSubmit(d.venue, vo));
      if r.Err? then n == Desk(h, d.venue) else n == called.0 && !Overflowed(called.1)
    ensures Agreed(n)
  {
    var (h, r) := HoldForOrder(m, o, value);
    if o.side.Buy? { HeldBuyIsFresh(d, m, o, value); } else { HeldSellIsFresh(d, m, o, value); }
    if r.Err? {
      if Fresh(d, h, o) { UnsentAgrees(d, h, o); }
      else { UnsentAgrees(d, h, RejectedFrom(o, if o.side.Buy? then "insufficient funds" else "insufficient position")); }
    } else {
      SentAgrees(d, h, o, vo, value);
    }
  }

  lemma CreatedIsJustCreated(d: Desk, req: SubmitRequest, inputs: Option<RiskInputs>, o: Order, value: Money)
    requires Agreed(d) && RequestFits(req) && Creates(d.engine, req, inputs) == Some((o, value))
    ensures var m := d.engine.(orders := SubmitTo(d.engine.orders, CreateOf(req)).0);
      && JustCreated(d, m, o, value) && Sends(o, VenueOrderOf(o, req))
      && o.instrument in m.master && Notional(m.master[o.instrument], o.price, o.orderQty) == Ok(value)
  {
    CreatedFacts(d.engine, req, inputs);
  }

  lemma CreatedUnfolds(d: Desk, req: SubmitRequest, inputs: Option<RiskInputs>, o: Order, value: Money)
    requires Creates(d.engine, req, inputs) == Some((o, value))
    ensures var m := d.engine.(orders := SubmitTo(d.engine.orders, CreateOf(req)).0);
      var (h, r) := HoldForOrder(m, o, value);
      var called := AfterVenue(h, VenueSubmit(d.venue, VenueOrderOf(o, req)));
      && (r.Err? ==> DeskSubmit(d, req, inputs).0 == Desk(h, d.venue) && (CleanCommand(DeskSubmit(d, req, inputs).1) ==> !Overflowed(r)))
      && (r.Ok? ==> DeskSubmit(d, req, inputs).0 == called.0 && (CleanCommand(DeskSubmit(d, req, inputs).1) ==> !Overflowed(called.1)))
  {
    DeskSubmitUnfolds(d, req, inputs);
    SubmitUnfolds(d.engine, req, inputs);
  }

  lemma CreatedAgrees(d: Desk, req: SubmitRequest, inputs: Option<RiskInputs>, o: Order, value: Money, n: Desk)
    requires Agreed(d) && RequestFits(req) && Creates(d.engine, req, inputs) == Some((o, value))
    requires CleanCommand(DeskSubmit(d, req, inputs).1) && n == DeskSubmit(d, req, inputs).0
    ensures Agreed(n)
  {
    CreatedUnfolds(d, req, inputs, o, value);
    CreatedIsJustCreated(d, req, inputs, o, value);
    HeldAgrees(d, d.engine.(orders := SubmitTo(d.engine.orders, CreateOf(req)).0), o, value, VenueOrderOf(o, req), n);
  }

  lemma SubmitAgrees(d: Desk, req: SubmitRequest, inputs: Option<RiskInputs>)
    requires Agreed(d) && RequestFits(req) && CleanCommand(DeskSubmit(d, req, inputs).1)
    ensures Agreed(DeskSubmit(d, req, inputs).0)
  {
    match Creates(d.engine, req, inputs)
    case Some((o, value)) => CreatedAgrees(d, req, inputs, o, value, DeskSubmit(d, req, inputs).0);
    case None => NothingCreatedAgrees(d, req, inputs);
  }

  lemma NothingCreatedAgrees(d: Desk, req: SubmitRequest, inputs: Option<RiskInputs>)
    requires Agreed(d) && Creates(d.engine, req, inputs).None?
    ensures Agreed(DeskSubmit(d, req, inputs).0)
  {
    DeskSubmitUnfolds(d, req, inputs);
    NotStaged(d.engine, req, inputs);
  }

  lemma NotStaged(e: EngineState, req: SubmitRequest, inputs: Option<RiskInputs>)
    requires Creates(e, req, inputs).None?
    ensures var (n, staged) := StageSubmit(e, req, inputs);
      && (staged.Err? || staged.value.Known?)
      && n == e.(orders := n.orders) && n.orders.orders == e.orders.orders && e.orders.nextId <= n.orders.nextId
  {
  }
}

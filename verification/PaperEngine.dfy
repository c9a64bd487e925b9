/** The paper engine as the source runs it: one object that owns the ledger book, the order store and
    the risk engine, drives the sandbox venue and updates its reserve maps in place. Each method is
    tied to the transition of the same name in Engine. */
module PaperEngines {
  import opened Base
  import opened Ledger
  import opened Orders
  import opened OrderStores
  import opened PaperBooks
  import opened Instruments
  import opened Execution
  import opened Risk
  import opened Notionals
  import opened Sandbox
  import opened Delivery
  import opened Hydration
  import Engine

  class PaperEngine {
    const master: map<nat, Instrument>
    const book: PaperBook
    const orders: OrderStore
    const venue: SandboxBroker
    const risk: RiskEngine
    var cash: map<nat, Money>
    var lots: map<nat, int>
    var marks: map<nat, int>
    var cursor: Cursor
    var trades: seq<TradeSnapshot>

    ghost function View(): Engine.EngineState
      reads this, book, book.journal, orders, risk
    {
      Engine.EngineState(master, book.View(), orders.View(), cash, lots, risk.View(), marks, cursor, trades)
    }

    /** The engine together with its venue. */
    ghost function DeskView(): Engine.Desk
      reads this, book, book.journal, orders, risk, venue
    {
      Engine.Desk(View(), venue.View())
    }

    constructor (master: map<nat, Instrument>, limits: RiskState, autoFill: bool)
      ensures DeskView() == Engine.NewDesk(master, limits, autoFill)
    {
      this.master := master;
      book := new PaperBook();
      orders := new OrderStore();
      venue := new SandboxBroker(autoFill);
      risk := new RiskEngine(limits);
      cash, lots, marks, cursor, trades := map[], map[], map[], Cursor(None, 1), [];
    }

    method DepositFunds(account: nat, amount: Money, key: string) returns (r: Engine.Outcome)
      modifies book, book.journal
      ensures (View(), r) == Engine.EngineDeposit(old(View()), account, amount, key)
    {
      var posted := book.TakeDeposit(account, amount, ClientKey(key));
      return if posted.Ok? then Ok(()) else Err(LedgerFailed(posted.error));
    }

    method WithdrawFunds(account: nat, amount: Money, key: string) returns (r: Engine.Outcome)
      modifies book, book.journal
      ensures (View(), r) == Engine.EngineWithdraw(old(View()), account, amount, key)
    {
      var posted := book.TakeWithdrawal(account, amount, ClientKey(key));
      return if posted.Ok? then Ok(()) else Err(LedgerFailed(posted.error));
    }

    // ----- effects

    method ReleaseCash(o: Order) returns (r: Engine.Outcome)
      modifies this, book, book.journal
      ensures (View(), r) == Engine.ReleaseCash(old(View()), o)
    {
      if o.id !in cash { return Ok(()); }
      var amount := cash[o.id];
      cash := cash - {o.id};
      if amount.minor == 0 { return Ok(()); }
      var released := book.Release(o.account, amount, ReleaseKey(o.account, o.id));
      return if released.Ok? then Ok(()) else Err(LedgerFailed(released.error));
    }

    method ReleaseLots(o: Order) returns (r: Engine.Outcome)
      modifies this, book
      ensures (View(), r) == Engine.ReleaseLots(old(View()), o)
    {
      if o.id !in lots { return Ok(()); }
      var qty := lots[o.id];
      lots := lots - {o.id};
      if qty <= 0 { return Ok(()); }
      var released := book.ReleaseLots(o.account, o.instrument, qty);
      return if released.Ok? then Ok(()) else Err(LedgerFailed(released.error));
    }

    method ReleaseRemaining(o: Order) returns (r: Engine.Outcome)
      modifies this, book, book.journal
      ensures (View(), r) == Engine.ReleaseRemaining(old(View()), o)
    {
      r := ReleaseCash(o);
      if r.Ok? { r := ReleaseLots(o); }
    }

    method SettleBuyFill(o: Order, exec: string, qty: int, value: Money) returns (r: Engine.Outcome)
      modifies this, book, book.journal
      ensures (View(), r) == Engine.SettleBuyFill(old(View()), o, exec, qty, value)
    {
      if o.id !in cash { return Err(ReservationShortfall(o.id)); }
      var remaining := cash[o.id];
      if remaining.minor < value.minor { return Err(ReservationShortfall(o.id)); }
      var settled := book.Buy(o.account, o.instrument, qty, value, Money(0, value.currency), FillKey(exec));
      if settled.Err? { return Err(LedgerFailed(settled.error)); }
      if remaining.currency != value.currency { return Err(MoneyMismatch); }
      var leftover := Money(remaining.minor - value.minor, remaining.currency);
      if leftover.minor == 0 { cash := cash - {o.id}; } else { cash := cash[o.id := leftover]; }
      return Ok(());
    }

    method SettleSellFill(o: Order, exec: string, qty: int, value: Money) returns (r: Engine.Outcome)
      modifies this, book, book.journal
      ensures (View(), r) == Engine.SettleSellFill(old(View()), o, exec, qty, value)
    {
      if o.id !in lots { return Err(ReservationShortfall(o.id)); }
      var remaining := lots[o.id];
      if remaining < qty { return Err(ReservationShortfall(o.id)); }
      var settled := book.Sell(o.account, o.instrument, qty, value, Money(0, value.currency), FillKey(exec));
      if settled.Err? { return Err(LedgerFailed(settled.error)); }
      if remaining == qty { lots := lots - {o.id}; } else { lots := lots[o.id := remaining - qty]; }
      return Ok(());
    }

    method SettleAndRelease(o: Order, exec: string, qty: int, value: Money, filled: bool) returns (r: Engine.Outcome)
      modifies this, book, book.journal
      ensures (View(), r) == Engine.SettleAndRelease(old(View()), o, exec, qty, value, filled)
    {
      if o.side.Buy? { r := SettleBuyFill(o, exec, qty, value); } else { r := SettleSellFill(o, exec, qty, value); }
      if r.Ok? && filled { r := ReleaseRemaining(o); }
    }

    method TradeEffects(o: Order, exec: string, qty: int, price: int, filled: bool) returns (r: Engine.Outcome)
      modifies this, book, book.journal
      ensures (View(), r) == Engine.TradeEffects(old(View()), o, exec, qty, price, filled)
    {
      trades := trades + [TradeSnapshot(o.id, exec, qty, price, cursor.session.GetOr(0), cursor.next)];
      if o.instrument !in master { return Err(InstrumentFailed(UnknownInstrument(o.instrument))); }
      var value := Notional(master[o.instrument], price, qty);
      if value.Err? { return Err(value.error); }
      r := SettleAndRelease(o, exec, qty, value.value, filled);
      if r.Ok? && price > 0 { marks := marks[o.instrument := price]; }
    }

    method ReplacedBuy(o: Order, i: Instrument, price: int) returns (r: Engine.Outcome)
      modifies this, book, book.journal
      ensures (View(), r) == Engine.ReplacedBuy(old(View()), o, i, price)
    {
      var quoted := Notional(i, price, o.leavesQty);
      if quoted.Err? { return Err(quoted.error); }
      var target := quoted.value;
      var current := if o.id in cash then cash[o.id] else Money(0, target.currency);
      cash := cash - {o.id};
      if current.minor > target.minor {
        if current.currency != target.currency { return Err(MoneyMismatch); }
        var surplus := Money(current.minor - target.minor, target.currency);
        var released := book.Release(o.account, surplus, ReplaceReleaseKey(o.account, o.id));
        if released.Err? { return Err(LedgerFailed(released.error)); }
      }
      if target.minor == 0 { cash := cash - {o.id}; } else { cash := cash[o.id := target]; }
      return Ok(());
    }

    method ReplacedSell(o: Order) returns (r: Engine.Outcome)
      modifies this, book
      ensures (View(), r) == Engine.ReplacedSell(old(View()), o)
    {
      var target := o.leavesQty;
      var current := if o.id in lots then lots[o.id] else 0;
      lots := lots - {o.id};
      if current > target {
        var released := book.ReleaseLots(o.account, o.instrument, current - target);
        if released.Err? { return Err(LedgerFailed(released.error)); }
      }
      if target == 0 { lots := lots - {o.id}; } else { lots := lots[o.id := target]; }
      return Ok(());
    }

    method ApplyEffects(o: Order, effect: DomainEffect) returns (r: Engine.Outcome)
      modifies this, book, book.journal
      ensures (View(), r) == Engine.ApplyEffect(old(View()), o, effect)
    {
      match effect
      case TradeEffect(exec, qty, price, filled) => r := TradeEffects(o, exec, qty, price, filled);
      case RejectedEffect(_) => r := ReleaseRemaining(o);
      case CanceledEffect => r := ReleaseRemaining(o);
      case ExpiredEffect => r := ReleaseRemaining(o);
      case ReplacedEffect(_, price) =>
        if o.instrument !in master { return Err(InstrumentFailed(UnknownInstrument(o.instrument))); }
        if o.side.Buy? { r := ReplacedBuy(o, master[o.instrument], price); } else { r := ReplacedSell(o); }
      case AcceptedEffect(_) => r := Ok(());
      case CancelPendingEffect => r := Ok(());
      case ReplacePendingEffect => r := Ok(());
    }

    // ----- reports

    method ApplyReport(report: Report) returns (r: Engine.Outcome)
      modifies this, book, book.journal, orders, risk
      ensures (View(), r) == Engine.ApplyReport(old(View()), report)
    {
      if cursor.session != Some(report.session) { cursor := Cursor(Some(report.session), 1); }
      if report.seqNo < cursor.next { return Ok(()); }
      if report.seqNo > cursor.next {
        risk.SetGlobalKill(true);
        return Err(VenueFailed(InvalidState("seq gap")));
      }
      r := TakeReport(report);
    }

    method TakeReport(report: Report) returns (r: Engine.Outcome)
      modifies this, book, book.journal, orders
      ensures (View(), r) == Engine.HandleReport(old(View()), report)
    {
      var event := ToOrderEvent(report);
      if event.Err? { return Err(VenueFailed(event.error)); }
      if event.value.None? {
        cursor := cursor.(next := report.seqNo + 1);
        return Ok(());
      }
      var applied := orders.ApplyEvent(report.order, event.value.value);
      if applied.Err? {
        if applied.error.IllegalTransition? || applied.error.DuplicateExec? {
          cursor := cursor.(next := report.seqNo + 1);
          return Ok(());
        }
        return Err(OrderFailed(applied.error));
      }
      r := FinishReport(applied.value.0, applied.value.1, report.seqNo);
    }

    /** The effect of an applied event; only a success moves the cursor past the report. */
    method FinishReport(o: Order, effect: DomainEffect, seqNo: nat) returns (r: Engine.Outcome)
      modifies this, book, book.journal
      ensures var (e1, out) := Engine.ApplyEffect(old(View()), o, effect);
        (View(), r) == if out.Err? then (e1, out) else (Engine.Advance(e1, seqNo), Ok(()))
    {
      r := ApplyEffects(o, effect);
      if r.Ok? {
        assert r.value == ();
        cursor := cursor.(next := seqNo + 1);
      }
    }

    method EnsureContiguous(reports: seq<Report>) returns (r: Result<seq<Report>, ExecutionError>)
      modifies this`cursor
      ensures (cursor, r) == Delivery.EnsureContiguous(old(cursor), venue.View(), reports)
    {
      if reports == [] { return Ok(reports); }
      var first := reports[0];
      if cursor.session != Some(first.session) { cursor := Cursor(Some(first.session), 1); }
      if first.seqNo > cursor.next {
        var recovered := venue.Recover(cursor.next);
        if recovered.Err? { return Err(recovered.error); }
        var merged := DedupeReports(recovered.value + reports);
        return Ok(merged);
      } else if first.seqNo < cursor.next {
        var kept := RetainFrom(reports, first.session, cursor.next);
        return Ok(kept);
      }
      return Ok(reports);
    }

    method Drain() returns (r: Engine.Outcome)
      modifies this, book, book.journal, orders, risk, venue
      ensures (DeskView(), r) == Engine.Drain(old(DeskView()))
    {
      var polled := venue.TakeReports();
      var batch := EnsureContiguous(polled);
      if batch.Err? { return Err(VenueFailed(batch.error)); }
      var reports := batch.value;
      ghost var start := View();
      assert start == old(View()).(cursor := cursor);
      r := Ok(());
      var i := 0;
      while i < |reports| && r.Ok?
        invariant 0 <= i <= |reports|
        invariant venue.View() == Poll(old(venue.View())).0
        invariant if r.Ok? then Engine.ApplyReports(start, reports) == Engine.ApplyReports(View(), reports[i..])
                  else Engine.ApplyReports(start, reports) == (View(), r)
        decreases |reports| - i
      {
        assert reports[i..][0] == reports[i] && reports[i..][1..] == reports[i + 1..];
        r := ApplyReport(reports[i]);
        i := i + 1;
      }
      if r.Ok? { assert reports[i..] == [] && r.value == (); }
      assert Engine.ApplyReports(start, reports) == (View(), r);
    }

    // ----- client commands

    method HoldForOrder(o: Order, value: Money) returns (r: Engine.Outcome)
      modifies this, book, book.journal, orders
      ensures (View(), r) == Engine.HoldForOrder(old(View()), o, value)
    {
      match o.side
      case Buy =>
        var held := book.Reserve(o.account, value, ReserveKey(o.account, o.id));
        if held.Err? {
          if held.error.InsufficientFunds? { var _ := orders.ApplyEvent(o.id, Reject("insufficient funds")); }
          return Err(LedgerFailed(held.error));
        }
        cash := cash[o.id := value];
        return Ok(());
      case Sell =>
        var held := book.ReserveLots(o.account, o.instrument, o.orderQty);
        if held.Err? {
          if held.error.InsufficientPosition? { var _ := orders.ApplyEvent(o.id, Reject("insufficient position")); }
          return Err(LedgerFailed(held.error));
        }
        lots := lots[o.id := o.orderQty];
        return Ok(());
    }

    method RiskContextOf(req: Engine.SubmitRequest, i: Instrument, value: Money, inputs: Engine.RiskInputs) returns (c: Context)
      ensures c == Engine.RiskContextOf(View(), req, i, value, inputs)
    {
      var available := book.CashAvailable(req.account, i.quote);
      var at := (req.account, req.instrument);
      var lots := if at in book.positions then book.positions[at] else 0;
      var held := if at in book.reservedLots then book.reservedLots[at] else 0;
      c := Context(Money(available, i.quote), Saturate(lots - held), value,
                   Some(if req.instrument in marks then marks[req.instrument] else req.price),
                   inputs.now, inputs.dayPnl, inputs.exposure);
    }

    method QuoteFor(instrument: nat, price: int, qty: int) returns (r: Result<(Instrument, Money), PaperError>)
      ensures r == Engine.Quote(View(), instrument, price, qty)
    {
      if instrument !in master { return Err(InstrumentFailed(UnknownInstrument(instrument))); }
      var i := master[instrument];
      var tradable := AssertTradable(i);
      if tradable.Err? { return Err(InstrumentFailed(tradable.error)); }
      var grid := AssertOrderGrid(i, price, qty);
      if grid.Err? { return Err(InstrumentFailed(grid.error)); }
      var value := Notional(i, price, qty);
      if value.Err? { return Err(value.error); }
      return Ok((i, value.value));
    }

    method StageSubmit(req: Engine.SubmitRequest, inputs: Option<Engine.RiskInputs>) returns (r: Result<Engine.Staging, PaperError>)
      modifies this, book, book.journal, orders
      ensures (View(), r) == Engine.StageSubmit(old(View()), req, inputs)
    {
      var quoted := QuoteFor(req.instrument, req.price, req.qty);
      if quoted.Err? { return Err(quoted.error); }
      var (i, value) := quoted.value;
      var key := (req.account, req.client);
      if key in orders.byClient && orders.byClient[key] in orders.orders {
        return Ok(Engine.Known(orders.orders[orders.byClient[key]]));
      }
      if inputs.None? { return Err(ContextFailed); }
      var context := RiskContextOf(req, i, value, inputs.value);
      var decision := risk.Decide(Engine.IntentOf(req), context);
      if decision.RiskRejected? { return Err(RiskFailed(decision.reason)); }
      var created := orders.Submit(Engine.CreateOf(req));
      if created.Err? { return Err(OrderFailed(created.error)); }
      if created.value.DuplicateOrder? { return Ok(Engine.Known(created.value.order)); }
      var held := HoldForOrder(created.value.order, value);
      if held.Err? { return Err(held.error); }
      return Ok(Engine.Staged(created.value.order));
    }

    /** What follows every venue call: a refusal, with the kill switch on a disconnect, or a drain. */
    method AfterVenue(called: Result<(), ExecutionError>) returns (r: Engine.Outcome)
      modifies this, book, book.journal, orders, risk, venue
      ensures (DeskView(), r) == Engine.AfterVenue(old(View()), (old(venue.View()), called))
    {
      if called.Err? {
        if called.error.Disconnected? { risk.SetGlobalKill(true); }
        return Err(VenueFailed(called.error));
      }
      r := Drain();
    }

    method Lookup(id: nat) returns (r: Result<Order, PaperError>)
      ensures r == Engine.StoredOrder(DeskView(), id)
    {
      return if id in orders.orders then Ok(orders.orders[id]) else Err(OrderFailed(UnknownOrder(id)));
    }

    method Submit(req: Engine.SubmitRequest, inputs: Option<Engine.RiskInputs>) returns (r: Result<SubmitOutcome, PaperError>)
      modifies this, book, book.journal, orders, risk, venue
      ensures (DeskView(), r) == Engine.DeskSubmit(old(DeskView()), req, inputs)
    {
      var staged := StageSubmit(req, inputs);
      if staged.Err? { return Err(staged.error); }
      if staged.value.Known? { return Ok(DuplicateOrder(staged.value.order)); }
      var o := staged.value.order;
      var called := venue.Submit(Engine.VenueOrderOf(o, req));
      var drained := AfterVenue(called);
      if drained.Err? { return Err(drained.error); }
      var stored := Lookup(o.id);
      if stored.Err? { return Err(stored.error); }
      return Ok(CreatedOrder(stored.value));
    }

    method Cancel(id: nat) returns (r: Result<Order, PaperError>)
      modifies this, book, book.journal, orders, risk, venue
      ensures (DeskView(), r) == Engine.DeskCancel(old(DeskView()), id)
    {
      var asked := orders.ApplyEvent(id, CancelRequested);
      if asked.Err? { return Err(OrderFailed(asked.error)); }
      var called := venue.Cancel(id);
      var drained := AfterVenue(called);
      if drained.Err? { return Err(drained.error); }
      r := Lookup(id);
    }

    method TopUp(o: Order, i: Instrument, req: Engine.ReplaceRequest) returns (r: Engine.Outcome)
      modifies this, book, book.journal
      ensures (View(), r) == Engine.TopUp(old(View()), o, i, req)
    {
      var leaves := req.qty - o.cumQty;
      match o.side
      case Buy =>
        var quoted := Notional(i, req.price, leaves);
        if quoted.Err? { return Err(quoted.error); }
        var target := quoted.value;
        var current := if o.id in cash then cash[o.id] else Money(0, i.quote);
        if target.minor > current.minor {
          if target.currency != current.currency { return Err(MoneyMismatch); }
          var delta := Money(target.minor - current.minor, target.currency);
          var held := book.Reserve(o.account, delta, ReplaceReserveKey(o.account, o.id));
          if held.Err? { return Err(LedgerFailed(held.error)); }
          cash := cash[o.id := target];
        }
        return Ok(());
      case Sell =>
        var current := if o.id in lots then lots[o.id] else 0;
        if leaves > current {
          var held := book.ReserveLots(o.account, o.instrument, leaves - current);
          if held.Err? { return Err(LedgerFailed(held.error)); }
          lots := lots[o.id := leaves];
        }
        return Ok(());
    }

    method StageReplace(req: Engine.ReplaceRequest) returns (r: Engine.Outcome)
      modifies this, book, book.journal, orders
      ensures (View(), r) == Engine.StageReplace(old(View()), req)
    {
      if req.order !in orders.orders { return Err(OrderFailed(UnknownOrder(req.order))); }
      var o := orders.orders[req.order];
      if o.instrument !in master { return Err(InstrumentFailed(UnknownInstrument(o.instrument))); }
      var i := master[o.instrument];
      var grid := AssertOrderGrid(i, req.price, req.qty);
      if grid.Err? { return Err(InstrumentFailed(grid.error)); }
      if req.qty < o.cumQty { return Err(OrderFailed(ReplaceBelowFilled(req.qty, o.cumQty))); }
      r := TopUp(o, i, req);
      if r.Err? { return; }
      var asked := orders.ApplyEvent(req.order, ReplaceRequested(req.qty, req.price));
      if asked.Err? { return Err(OrderFailed(asked.error)); }
    }

    method Replace(req: Engine.ReplaceRequest) returns (r: Result<Order, PaperError>)
      modifies this, book, book.journal, orders, risk, venue
      ensures (DeskView(), r) == Engine.DeskReplace(old(DeskView()), req)
    {
      var staged := StageReplace(req);
      if staged.Err? { return Err(staged.error); }
      var called := venue.Replace(req.order, req.qty, req.price);
      var drained := AfterVenue(called);
      if drained.Err? { return Err(drained.error); }
      r := Lookup(req.order);
    }

    // ----- restart

    /** An open buy's hold and its share of the cash needed. */
    method CollectOpenBuy(id: nat, buyCash: map<(nat, Currency), int>, ghost ids: set<nat>)
      returns (r: Engine.Outcome, buyCash': map<(nat, Currency), int>)
      requires id in orders.orders && id !in ids && OpenBuy(orders.orders[id])
      requires HoldsCollected(master, orders.orders, ids, cash, lots) && BuysCollected(master, orders.orders, ids, buyCash)
      modifies this`cash
      ensures r.Ok? ==>
        HoldsCollected(master, orders.orders, ids + {id}, cash, lots) && BuysCollected(master, orders.orders, ids + {id}, buyCash')
    {
      var o := orders.orders[id];
      var quoted := QuoteOpen(master, o);
      if quoted.Err? { return Err(quoted.error), buyCash; }
      var value := quoted.value;
      QuoteOpenMeans(master, o);
      var k := (o.account, value.currency);
      HoldOpenBuy(master, orders.orders, ids, id, cash, lots, value);
      cash := cash[id := value];
      CollectBuy(master, orders.orders, ids, id, buyCash, value);
      return Ok(()), Grown(buyCash, k, value.minor);
    }

    /** Takes one restored order: its hold and its share of the totals. */
    method CollectHold(id: nat, buyCash: map<(nat, Currency), int>, sellLots: map<(nat, nat), int>, ghost ids: set<nat>)
      returns (r: Engine.Outcome, buyCash': map<(nat, Currency), int>, sellLots': map<(nat, nat), int>)
      requires id in orders.orders && id !in ids
      requires HoldsCollected(master, orders.orders, ids, cash, lots)
      requires BuysCollected(master, orders.orders, ids, buyCash) && SellsCollected(orders.orders, ids, sellLots)
      modifies this`cash, this`lots
      ensures r.Ok? ==>
        && HoldsCollected(master, orders.orders, ids + {id}, cash, lots)
        && BuysCollected(master, orders.orders, ids + {id}, buyCash') && SellsCollected(orders.orders, ids + {id}, sellLots')
    {
      var o := orders.orders[id];
      r, buyCash', sellLots' := Ok(()), buyCash, sellLots;
      if OpenBuy(o) {
        r, buyCash' := CollectOpenBuy(id, buyCash, ids);
        CollectNoSell(orders.orders, ids, id, sellLots);
      } else {
        CollectNoBuy(master, orders.orders, ids, id, buyCash);
        if OpenSell(o) {
          var k := (o.account, o.instrument);
          HoldOpenSell(master, orders.orders, ids, id, cash, lots);
          lots := lots[id := o.leavesQty];
          sellLots' := Grown(sellLots, k, o.leavesQty);
          CollectSell(orders.orders, ids, id, sellLots);
        } else {
          HoldNothing(master, orders.orders, ids, id, cash, lots);
          CollectNoSell(orders.orders, ids, id, sellLots);
        }
      }
    }

    /** The venue row of a restored order that had, or should have had, one. */
    method ReinstateRow(id: nat) returns (r: Engine.Outcome)
      requires id in orders.orders
      modifies venue
      ensures r.Ok? ==> RowReinstated(orders.orders[id], id, old(venue.View()), venue.View())
    {
      var o := orders.orders[id];
      if HadRow(o) {
        var row := venue.Reinstate(id, o.orderQty, o.price, o.cumQty, o.venueOrderId);
        if row.Err? { return Err(VenueFailed(row.error)); }
      }
      return Ok(());
    }

    method CollectOne(id: nat, buyCash: map<(nat, Currency), int>, sellLots: map<(nat, nat), int>, pending: bool,
                      ghost ids: set<nat>, ghost start: Venue)
      returns (r: Engine.Outcome, buyCash': map<(nat, Currency), int>, sellLots': map<(nat, nat), int>, pending': bool)
      requires id in orders.orders && id !in ids && Collected(master, orders.orders, ids, cash, lots, buyCash, sellLots, pending)
      requires RowsReinstated(orders.orders, ids, start, venue.View())
      modifies this`cash, this`lots, venue
      ensures r.Ok? ==> Collected(master, orders.orders, ids + {id}, cash, lots, buyCash', sellLots', pending')
      ensures r.Ok? ==> RowsReinstated(orders.orders, ids + {id}, start, venue.View())
    {
      AnyPendingTakes(orders.orders, ids, id);
      pending' := pending || Pending(orders.orders[id]);
      r, buyCash', sellLots' := CollectHold(id, buyCash, sellLots, ids);
      if r.Ok? {
        r := ReinstateRow(id);
        if r.Ok? { RowsTake(orders.orders, ids, id, start, old(venue.View()), venue.View()); }
      }
    }

    /** Walks the restored orders in any order. */
    method CollectAll() returns (r: Engine.Outcome, buyCash: map<(nat, Currency), int>, sellLots: map<(nat, nat), int>, pending: bool)
      requires cash == map[] && lots == map[]
      modifies this`cash, this`lots, venue
      ensures r.Ok? ==> Collected(master, orders.orders, orders.orders.Keys, cash, lots, buyCash, sellLots, pending)
      ensures r.Ok? ==> RowsReinstated(orders.orders, orders.orders.Keys, old(venue.View()), venue.View())
    {
      r, buyCash, sellLots, pending := Ok(()), map[], map[], false;
      var all := orders.orders.Keys;
      var todo := all;
      NothingCollected(master, orders.orders);
      assert all - todo == {};
      while todo != {}
        invariant todo <= all && r.Ok?
        invariant Collected(master, orders.orders, all - todo, cash, lots, buyCash, sellLots, pending)
        invariant RowsReinstated(orders.orders, all - todo, old(venue.View()), venue.View())
        decreases |todo|
      {
        var id :| id in todo;
        WalkStep(all, todo, id);
        r, buyCash, sellLots, pending := CollectOne(id, buyCash, sellLots, pending, all - todo, old(venue.View()));
        if r.Err? { return; }
        todo := todo - {id};
      }
      assert all - todo == all;
    }

    /** Reserved lots are set to what the open sells need. */
    method AlignLots(needed: map<(nat, nat), int>)
      requires forall k :: k in needed ==> needed[k] > 0
      modifies book
      ensures LotsAligned(book.View(), needed, {}) && book.View().journal == old(book.View().journal)
    {
      var todo := needed.Keys;
      while todo != {}
        invariant todo <= needed.Keys && LotsAligned(book.View(), needed, todo)
        decreases |todo|
      {
        var k :| k in todo;
        var held := if k in book.positions then book.positions[k] else 0;
        LotsAlignStep(book.View(), needed, todo, k);
        book.PutPosition(k.0, k.1, held, needed[k]);
        todo := todo - {k};
      }
    }

    method AlignOne(k: (nat, Currency), needed: int) returns (r: Result<bool, LedgerError>)
      modifies book, book.journal
      ensures (book.View(), r) == AlignCash(old(book.View()), k, needed)
    {
      var current := book.CashReserved(k.0, k.1);
      if needed > current {
        var available := book.CashAvailable(k.0, k.1);
        if available < needed - current { return Ok(false); }
        var held := book.Reserve(k.0, Money(needed - current, k.1), AlignReserveKey(k.0, k.1.code));
        return if held.Ok? then Ok(true) else Err(held.error);
      } else if current > needed {
        var released := book.Release(k.0, Money(current - needed, k.1), AlignReleaseKey(k.0, k.1.code));
        return if released.Ok? then Ok(true) else Err(released.error);
      }
      return Ok(true);
    }

    /** Reserved cash is brought to what the open buys need; an account that cannot pay turns the kill
        switch on. */
    method AlignAllCash(needed: map<(nat, Currency), int>) returns (r: Engine.Outcome)
      modifies book, book.journal, risk
      ensures SameLots(old(book.View()), book.View())
      ensures old(risk.globalKill) ==> risk.globalKill
      ensures r.Ok? && old(NoAlignKeyUsed(book.View())) && CodesIdentify(needed.Keys) ==>
        risk.globalKill || AlignedUpTo(book.View(), needed, {})
    {
      r := Ok(());
      var todo := needed.Keys;
      while todo != {}
        invariant todo <= needed.Keys && r.Ok?
        invariant SameLots(old(book.View()), book.View())
        invariant old(risk.globalKill) ==> risk.globalKill
        invariant old(NoAlignKeyUsed(book.View())) && CodesIdentify(needed.Keys) ==>
          risk.globalKill || AlignedUpTo(book.View(), needed, todo)
        decreases |todo|
      {
        var k :| k in todo;
        ghost var before := book.View();
        var done := AlignOne(k, needed[k]);
        if done.Err? { return Err(LedgerFailed(done.error)); }
        AlignCashElsewhere(before, k, needed[k]);
        if !done.value {
          risk.SetGlobalKill(true);
        } else if AlignedUpTo(before, needed, todo) && CodesIdentify(needed.Keys) {
          AlignStep(before, book.View(), needed, todo, k);
        }
        todo := todo - {k};
      }
    }

    method LoadEntries(entries: seq<Entry>) returns (r: Engine.Outcome)
      requires book.View() == EMPTY_BOOK
      modifies book, book.journal
      ensures NoAlignKeys(entries) ==> NoAlignKeyUsed(book.View())
    {
      var i := 0;
      while i < |entries|
        invariant 0 <= i <= |entries|
        invariant NoAlignKeys(entries) ==> NoAlignKeyUsed(book.View())
      {
        var posted := book.Restore(entries[i]);
        if posted.Err? { return Err(LedgerFailed(posted.error)); }
        i := i + 1;
      }
      return Ok(());
    }

    method LoadOrders(restored: seq<Order>)
      requires orders.View() == EMPTY_STORE
      modifies orders
      ensures orders.View() == RestoreAll(EMPTY_STORE, restored)
    {
      var i := 0;
      while i < |restored|
        invariant 0 <= i <= |restored|
        invariant orders.View() == RestoreAll(EMPTY_STORE, restored[..i])
      {
        assert restored[..i + 1][..i] == restored[..i];
        orders.RestoreOrder(restored[i]);
        i := i + 1;
      }
      assert restored[..i] == restored;
    }

    /** Brings the book in line with what the orders need. */
    method AlignReserves(buyCash: map<(nat, Currency), int>, sellLots: map<(nat, nat), int>) returns (r: Engine.Outcome)
      requires BuysCollected(master, orders.orders, orders.orders.Keys, buyCash)
      requires SellsCollected(orders.orders, orders.orders.Keys, sellLots)
      modifies book, book.journal, risk
      ensures r.Ok? ==> LotsRealigned(orders.orders, book.View())
      ensures r.Ok? && old(NoAlignKeyUsed(book.View())) && OpenCodesIdentify(master, orders.orders) ==>
        risk.globalKill || CashRealigned(master, orders.orders, book.View())
    {
      AlignLots(sellLots);
      ghost var b := book.View();
      r := AlignAllCash(buyCash);
      if r.Err? { return; }
      LotsStayAligned(b, book.View(), orders.orders, sellLots);
      if OpenCodesIdentify(master, orders.orders) { KeysIdentify(master, orders.orders, buyCash); }
      if AlignedUpTo(book.View(), buyCash, {}) { CashStaysAligned(master, orders.orders, book.View(), buyCash); }
    }

    /** Rebuilds holds, venue rows and reserves from the restored orders. */
    method ReinflateWorkingState() returns (r: Engine.Outcome)
      requires cash == map[] && lots == map[]
      modifies this`cash, this`lots, book, book.journal, venue, risk
      ensures r.Ok? ==> HoldsCollected(master, orders.orders, orders.orders.Keys, cash, lots)
      ensures r.Ok? ==> RowsReinstated(orders.orders, orders.orders.Keys, old(venue.View()), venue.View())
      ensures r.Ok? ==> LotsRealigned(orders.orders, book.View())
      ensures r.Ok? && old(NoAlignKeyUsed(book.View())) && OpenCodesIdentify(master, orders.orders) ==>
        risk.globalKill || CashRealigned(master, orders.orders, book.View())
      ensures r.Ok? && AnyPending(orders.orders, orders.orders.Keys) ==> risk.globalKill
    {
      var buyCash, sellLots, pending;
      r, buyCash, sellLots, pending := CollectAll();
      if r.Err? { return; }
      r := AlignReserves(buyCash, sellLots);
      if r.Ok? && pending { risk.SetGlobalKill(true); }
    }

    /** Replaces ledger, positions and orders by durable snapshots and rebuilds what depends on them.
        A success leaves every open order holding its own value and its venue row, marks and trades as
        the fills of the orders give them, the reserved lots equal to the open sells, and the reserved cash equal to the open buys unless the kill switch is on; the cash part
        needs a journal without earlier alignment keys and codes that identify currencies. */
    method Hydrate(entries: seq<Entry>, restored: seq<Order>, positions: seq<(nat, nat, int, int)>) returns (r: Engine.Outcome)
      modifies this, book, book.journal, orders, venue, risk
      ensures r.Ok? ==> cursor == Cursor(None, 1) && orders.View() == RestoreAll(EMPTY_STORE, restored)
      ensures r.Ok? ==> HoldsCollected(master, orders.orders, orders.orders.Keys, cash, lots)
      ensures r.Ok? ==> RowsReinstated(orders.orders, orders.orders.Keys, old(venue.View()), venue.View())
      ensures r.Ok? ==> LotsRealigned(orders.orders, book.View())
      ensures r.Ok? ==>
        MarksSeeded(orders.orders, orders.orders.Keys, marks) && TradesSeeded(orders.orders, orders.orders.Keys, trades)
      ensures r.Ok? && NoAlignKeys(entries) && OpenCodesIdentify(master, orders.orders) ==>
        risk.globalKill || CashRealigned(master, orders.orders, book.View())
      ensures r.Ok? && AnyPending(orders.orders, orders.orders.Keys) ==> risk.globalKill
    {
      book.Clear();
      orders.Clear();
      cash, lots := map[], map[];
      r := LoadEntries(entries);
      if r.Err? { return; }
      LoadPositions(positions);
      LoadOrders(restored);
      SeedMarks();
      cursor := Cursor(None, 1);
      r := ReinflateWorkingState();
    }

    method LoadPositions(positions: seq<(nat, nat, int, int)>)
      modifies book
      ensures book.View().journal == old(book.View().journal)
    {
      var i := 0;
      while i < |positions|
        invariant 0 <= i <= |positions|
      {
        book.PutPosition(positions[i].0, positions[i].1, positions[i].2, positions[i].3);
        i := i + 1;
      }
    }

    /** Marks from average fill prices, and the durable trade log from the executions the orders know. */
    method SeedMarks()
      modifies this`marks, this`trades
      ensures MarksSeeded(orders.orders, orders.orders.Keys, marks) && TradesSeeded(orders.orders, orders.orders.Keys, trades)
    {
      marks, trades := map[], [];
      var all := orders.orders.Keys;
      var todo := all;
      while todo != {}
        invariant todo <= all
        invariant MarksSeeded(orders.orders, all - todo, marks) && TradesSeeded(orders.orders, all - todo, trades)
        decreases |todo|
      {
        var id :| id in todo;
        WalkStep(all, todo, id);
        SeedOne(id, all - todo);
        todo := todo - {id};
      }
      assert all - todo == all;
    }

    method SeedOne(id: nat, ghost ids: set<nat>)
      requires id in orders.orders && id !in ids
      requires MarksSeeded(orders.orders, ids, marks) && TradesSeeded(orders.orders, ids, trades)
      modifies this`marks, this`trades
      ensures MarksSeeded(orders.orders, ids + {id}, marks) && TradesSeeded(orders.orders, ids + {id}, trades)
    {
      TradesTake(orders.orders, ids, id, trades);
      SeedTrades(id);
      SeedMark(id, ids);
    }

    method SeedMark(id: nat, ghost ids: set<nat>)
      requires id in orders.orders && MarksSeeded(orders.orders, ids, marks)
      modifies this`marks
      ensures MarksSeeded(orders.orders, ids + {id}, marks)
    {
      var o := orders.orders[id];
      var px := o.avgPx.GetOr(o.price);
      ghost var before := marks;
      if o.cumQty > 0 && px > 0 { marks := marks[o.instrument := px]; }
      MarksTake(orders.orders, ids, id, before, marks);
    }

    method SeedTrades(id: nat)
      requires id in orders.orders
      modifies this`trades
      ensures trades == old(trades) + TradesOf(orders.orders[id], id)
    {
      var o := orders.orders[id];
      var px := o.avgPx.GetOr(o.price);
      ghost var log := TradesOf(o, id);
      for i := 0 to |o.seenExecs|
        invariant trades == old(trades) + log[..i]
      {
        assert log[..i + 1] == log[..i] + [log[i]];
        trades := trades + [TradeSnapshot(id, o.seenExecs[i], o.cumQty, px, 0, 0)];
      }
      assert log[..|o.seenExecs|] == log;
    }
  }
}

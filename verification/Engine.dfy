/** The paper-trading loop as state transitions: orders, ledger, per-order reserves, report handling. */
module Engine {
  import opened Base
  import opened Ledger
  import opened Orders
  import opened OrderStores
  import opened PaperBooks
  import opened Instruments
  import opened Execution
  import opened Risk
  import opened Notionals
  import opened Sandbox
  import opened Delivery

  datatype SubmitRequest = SubmitRequest(
    account: nat, client: string, instrument: nat, side: Side, qty: int, price: int, orderType: OrderType, tif: TimeInForce)

  datatype ReplaceRequest = ReplaceRequest(order: nat, qty: int, price: int)

  /** Inputs of the risk context that come from elsewhere: the clock, day P&L and exposure. */
  datatype RiskInputs = RiskInputs(now: nat, dayPnl: int, exposure: int)

  datatype EngineState = EngineState(
    master: map<nat, Instrument>,
    book: Book,
    orders: Store,
    cash: map<nat, Money>,
    lots: map<nat, int>,
    risk: RiskState,
    marks: map<nat, int>,
    cursor: Cursor,
    trades: seq<TradeSnapshot>)

  type Outcome = Result<(), PaperError>

  function GetInstrument(e: EngineState, id: nat): Result<Instrument, PaperError> {
    if id in e.master then Ok(e.master[id]) else Err(InstrumentFailed(UnknownInstrument(id)))
  }

  function KillSwitchOn(e: EngineState): EngineState { e.(risk := e.risk.(globalKill := true)) }

  // ----- effects of order events on cash, lots and reserves

  function WithReserve(e: EngineState, id: nat, amount: Money): EngineState {
    e.(cash := if amount.minor == 0 then e.cash - {id} else e.cash[id := amount])
  }

  function WithLots(e: EngineState, id: nat, lots: int): EngineState {
    e.(lots := if lots == 0 then e.lots - {id} else e.lots[id := lots])
  }

  function SettleBuyFill(e: EngineState, o: Order, exec: string, qty: int, value: Money): (EngineState, Outcome) {
    if o.id !in e.cash || e.cash[o.id].minor < value.minor then (e, Err(ReservationShortfall(o.id)))
    else
      var remaining := e.cash[o.id];
      var (book, r) := SettleBuy(e.book, o.account, o.instrument, qty, value, Money(0, value.currency), FillKey(exec));
      var e := e.(book := book);
      if r.Err? then (e, Err(LedgerFailed(r.error)))
      else if remaining.currency != value.currency then (e, Err(MoneyMismatch))
      else (WithReserve(e, o.id, Money(remaining.minor - value.minor, remaining.currency)), Ok(()))
  }

  function SettleSellFill(e: EngineState, o: Order, exec: string, qty: int, value: Money): (EngineState, Outcome) {
    if o.id !in e.lots || e.lots[o.id] < qty then (e, Err(ReservationShortfall(o.id)))
    else
      var (book, r) := SettleSell(e.book, o.account, o.instrument, qty, value, Money(0, value.currency), FillKey(exec));
      var e := e.(book := book);
      if r.Err? then (e, Err(LedgerFailed(r.error)))
      else (WithLots(e, o.id, e.lots[o.id] - qty), Ok(()))
  }

  function ReleaseCash(e: EngineState, o: Order): (EngineState, Outcome) {
    if o.id !in e.cash then (e, Ok(()))
    else
      var amount := e.cash[o.id];
      var e := e.(cash := e.cash - {o.id});
      if amount.minor == 0 then (e, Ok(()))
      else
        var (book, r) := ReleaseReserve(e.book, o.account, amount, ReleaseKey(o.account, o.id));
        (e.(book := book), if r.Ok? then Ok(()) else Err(LedgerFailed(r.error)))
  }

  function ReleaseLots(e: EngineState, o: Order): (EngineState, Outcome) {
    if o.id !in e.lots then (e, Ok(()))
    else
      var qty := e.lots[o.id];
      var e := e.(lots := e.lots - {o.id});
      if qty <= 0 then (e, Ok(()))
      else
        var (book, r) := ReleasePositionReserve(e.book, o.account, o.instrument, qty);
        (e.(book := book), if r.Ok? then Ok(()) else Err(LedgerFailed(r.error)))
  }

  /** Returns whatever the order still holds. */
  function ReleaseRemaining(e: EngineState, o: Order): (EngineState, Outcome) {
    var (e1, r) := ReleaseCash(e, o);
    if r.Err? then (e1, r) else ReleaseLots(e1, o)
  }

  function TradeEffects(e: EngineState, o: Order, exec: string, qty: int, price: int, filled: bool): (EngineState, Outcome) {
    var e := e.(trades := e.trades + [TradeSnapshot(o.id, exec, qty, price, e.cursor.session.GetOr(0), e.cursor.next)]);
    match GetInstrument(e, o.instrument)
    case Err(err) => (e, Err(err))
    case Ok(i) =>
      match Notional(i, price, qty)
      case Err(err) => (e, Err(err))
      case Ok(value) =>
        var (e1, r) := SettleAndRelease(e, o, exec, qty, value, filled);
        if r.Err? then (e1, r)
        else (if price > 0 then e1.(marks := e1.marks[o.instrument := price]) else e1, Ok(()))
  }

  function SettleFill(e: EngineState, o: Order, exec: string, qty: int, value: Money): (EngineState, Outcome) {
    if o.side.Buy? then SettleBuyFill(e, o, exec, qty, value) else SettleSellFill(e, o, exec, qty, value)
  }

  /** The fill, then for a filled order the release of what is left. */
  function SettleAndRelease(e: EngineState, o: Order, exec: string, qty: int, value: Money, filled: bool): (EngineState, Outcome) {
    var (e1, r) := SettleFill(e, o, exec, qty, value);
    if r.Err? || !filled then (e1, r) else ReleaseRemaining(e1, o)
  }

  function ReplacedBuy(e: EngineState, o: Order, i: Instrument, price: int): (EngineState, Outcome) {
    match Notional(i, price, o.leavesQty)
    case Err(err) => (e, Err(err))
    case Ok(target) =>
      var current := if o.id in e.cash then e.cash[o.id] else Money(0, target.currency);
      var e := e.(cash := e.cash - {o.id});
      if current.minor > target.minor then
        if current.currency != target.currency then (e, Err(MoneyMismatch))
        else
          var surplus := Money(current.minor - target.minor, target.currency);
          var (book, r) := ReleaseReserve(e.book, o.account, surplus, ReplaceReleaseKey(o.account, o.id));
          var e := e.(book := book);
          if r.Err? then (e, Err(LedgerFailed(r.error))) else (WithReserve(e, o.id, target), Ok(()))
      else (WithReserve(e, o.id, target), Ok(()))
  }

  function ReplacedSell(e: EngineState, o: Order): (EngineState, Outcome) {
    var target := o.leavesQty;
    var current := if o.id in e.lots then e.lots[o.id] else 0;
    var e := e.(lots := e.lots - {o.id});
    if current > target then
      var (book, r) := ReleasePositionReserve(e.book, o.account, o.instrument, current - target);
      var e := e.(book := book);
      if r.Err? then (e, Err(LedgerFailed(r.error))) else (WithLots(e, o.id, target), Ok(()))
    else (WithLots(e, o.id, target), Ok(()))
  }

  /** The ledger side of a domain effect; o is the order after the event. */
  function ApplyEffect(e: EngineState, o: Order, effect: DomainEffect): (EngineState, Outcome) {
    match effect
    case TradeEffect(exec, qty, price, filled) => TradeEffects(e, o, exec, qty, price, filled)
    case RejectedEffect(_) => ReleaseRemaining(e, o)
    case CanceledEffect => ReleaseRemaining(e, o)
    case ExpiredEffect => ReleaseRemaining(e, o)
    case ReplacedEffect(_, price) =>
      (match GetInstrument(e, o.instrument)
       case Err(err) => (e, Err(err))
       case Ok(i) => if o.side.Buy? then ReplacedBuy(e, o, i, price) else ReplacedSell(e, o))
    case AcceptedEffect(_) => (e, Ok(()))
    case CancelPendingEffect => (e, Ok(()))
    case ReplacePendingEffect => (e, Ok(()))
  }

  // ----- reports

  function Advance(e: EngineState, seqNo: nat): EngineState { e.(cursor := e.cursor.(next := seqNo + 1)) }

  /** A report the cursor lets through: order event, then its effect; a report whose event is illegal
      or already seen only moves the cursor, any other failure leaves the cursor where it is. */
  function HandleReport(e: EngineState, r: Report): (EngineState, Outcome) {
    match ToOrderEvent(r)
    case Err(err) => (e, Err(VenueFailed(err)))
    case Ok(None) => (Advance(e, r.seqNo), Ok(()))
    case Ok(Some(event)) =>
      var (orders, applied) := ApplyTo(e.orders, r.order, event);
      match applied
      case Err(err) =>
        if err.IllegalTransition? || err.DuplicateExec? then (Advance(e, r.seqNo), Ok(()))
        else (e, Err(OrderFailed(err)))
      case Ok(next) =>
        var (e1, out) := ApplyEffect(e.(orders := orders), next.0, next.1);
        if out.Err? then (e1, out) else (Advance(e1, r.seqNo), Ok(()))
  }

  function ApplyReport(e: EngineState, r: Report): (EngineState, Outcome) {
    var entered := e.(cursor := Enter(e.cursor, r.session));
    match Judge(e.cursor, r)
    case Stale => (entered, Ok(()))
    case Gap => (KillSwitchOn(entered), Err(VenueFailed(InvalidState("seq gap"))))
    case Offer => HandleReport(entered, r)
  }

  /** Takes the reports one by one and stops at the first failure. */
  function TakeInOrder<S>(take: (S, Report) -> (S, Outcome), s: S, reports: seq<Report>): (S, Outcome)
    decreases |reports|
  {
    if reports == [] then (s, Ok(()))
    else
      var (n, r) := take(s, reports[0]);
      if r.Err? then (n, r) else TakeInOrder(take, n, reports[1..])
  }

  function ApplyReports(e: EngineState, reports: seq<Report>): (EngineState, Outcome) { TakeInOrder(ApplyReport, e, reports) }

  /** Reports that only lead through the given states can be skipped. */
  lemma {:induction false} SkipAlong<S>(take: (S, Report) -> (S, Outcome), at: nat -> S, from: nat, reports: seq<Report>, j: nat)
    requires j <= |reports| && forall i: nat :: i < j ==> take(at(from + i), reports[i]) == (at(from + i + 1), Ok(()))
    ensures TakeInOrder(take, at(from), reports) == TakeInOrder(take, at(from + j), reports[j..])
    decreases j
  {
    if j == 0 {
      assert reports[0..] == reports;
    } else {
      var tail := reports[1..];
      assert take(at(from + 0), reports[0]) == (at(from + 0 + 1), Ok(()));
      forall i: nat | i < j - 1 ensures take(at(from + 1 + i), tail[i]) == (at(from + 1 + i + 1), Ok(())) {
        assert take(at(from + (i + 1)), reports[i + 1]) == (at(from + (i + 1) + 1), Ok(()));
      }
      SkipAlong(take, at, from + 1, tail, j - 1);
      assert tail[j - 1..] == reports[j..];
    }
  }

  // ----- client commands up to the venue call

  function RiskContextOf(e: EngineState, req: SubmitRequest, i: Instrument, value: Money, inputs: RiskInputs): Context {
    Context(Money(e.book.Available(req.account, i.quote), i.quote),
            e.book.AvailablePosition(req.account, req.instrument),
            value,
            Some(if req.instrument in e.marks then e.marks[req.instrument] else req.price),
            inputs.now, inputs.dayPnl, inputs.exposure)
  }

  function IntentOf(req: SubmitRequest): Intent { Intent(req.account, req.instrument, req.side, req.qty, req.price) }

  function CreateOf(req: SubmitRequest): CreateOrder {
    CreateOrder(req.account, req.client, req.instrument, req.side, req.qty, req.price, req.orderType, req.tif)
  }

  /** Tradable, on grid, and worth an exact amount. */
  function Quote(e: EngineState, instrument: nat, price: int, qty: int): Result<(Instrument, Money), PaperError> {
    match GetInstrument(e, instrument)
    case Err(err) => Err(err)
    case Ok(i) =>
      match AssertTradable(i)
      case Err(err) => Err(InstrumentFailed(err))
      case Ok(_) =>
        match AssertOrderGrid(i, price, qty)
        case Err(err) => Err(InstrumentFailed(err))
        case Ok(_) =>
          match Notional(i, price, qty)
          case Err(err) => Err(err)
          case Ok(value) => Ok((i, value))
  }

  /** Holds cash or lots for a created order; insufficient means reject the order again. */
  function HoldForOrder(e: EngineState, o: Order, value: Money): (EngineState, Outcome) {
    match o.side
    case Buy =>
      var (book, r) := ReserveForOrder(e.book, o.account, value, ReserveKey(o.account, o.id));
      var e := e.(book := book);
      if r.Ok? then (e.(cash := e.cash[o.id := value]), Ok(()))
      else if r.error.InsufficientFunds? then (RejectUnfunded(e, o.id, "insufficient funds"), Err(LedgerFailed(r.error)))
      else (e, Err(LedgerFailed(r.error)))
    case Sell =>
      var (book, r) := ReservePositionForOrder(e.book, o.account, o.instrument, o.orderQty);
      var e := e.(book := book);
      if r.Ok? then (e.(lots := e.lots[o.id := o.orderQty]), Ok(()))
      else if r.error.InsufficientPosition? then (RejectUnfunded(e, o.id, "insufficient position"), Err(LedgerFailed(r.error)))
      else (e, Err(LedgerFailed(r.error)))
  }

  function RejectUnfunded(e: EngineState, id: nat, reason: string): EngineState {
    e.(orders := ApplyTo(e.orders, id, Reject(reason)).0)
  }

  datatype Staging = Known(order: Order) | Staged(order: Order)

  /** Submission up to the venue call: validate, deduplicate, risk, create, hold. */
  function StageSubmit(e: EngineState, req: SubmitRequest, inputs: Option<RiskInputs>): (EngineState, Result<Staging, PaperError>) {
    match Quote(e, req.instrument, req.price, req.qty)
    case Err(err) => (e, Err(err))
    case Ok(q) =>
      var key := (req.account, req.client);
      if key in e.orders.byClient && e.orders.byClient[key] in e.orders.orders then
        (e, Ok(Known(e.orders.orders[e.orders.byClient[key]])))
      else
        match inputs
        case None => (e, Err(ContextFailed))
        case Some(given) =>
          match Check(e.risk, IntentOf(req), RiskContextOf(e, req, q.0, q.1, given))
          case RiskRejected(reason) => (e, Err(RiskFailed(reason)))
          case Approved =>
            var (orders, created) := SubmitTo(e.orders, CreateOf(req));
            var e := e.(orders := orders);
            match created
            case Err(err) => (e, Err(OrderFailed(err)))
            case Ok(DuplicateOrder(o)) => (e, Ok(Known(o)))
            case Ok(CreatedOrder(o)) =>
              var (e1, r) := HoldForOrder(e, o, q.1);
              (e1, if r.Ok? then Ok(Staged(o)) else Err(r.error))
  }

  function StageCancel(e: EngineState, id: nat): (EngineState, Outcome) {
    var (orders, r) := ApplyTo(e.orders, id, CancelRequested);
    (e.(orders := orders), if r.Ok? then Ok(()) else Err(OrderFailed(r.error)))
  }

  /** Tops up what the replaced order will need; runs before the order's status is looked at. */
  function TopUp(e: EngineState, o: Order, i: Instrument, req: ReplaceRequest): (EngineState, Outcome) {
    var leaves := req.qty - o.cumQty;
    match o.side
    case Buy =>
      (match Notional(i, req.price, leaves)
       case Err(err) => (e, Err(err))
       case Ok(target) =>
         var current := if o.id in e.cash then e.cash[o.id] else Money(0, i.quote);
         if target.minor <= current.minor then (e, Ok(()))
         else if target.currency != current.currency then (e, Err(MoneyMismatch))
         else
           var delta := Money(target.minor - current.minor, target.currency);
           var (book, r) := ReserveForOrder(e.book, o.account, delta, ReplaceReserveKey(o.account, o.id));
           var e := e.(book := book);
           if r.Err? then (e, Err(LedgerFailed(r.error))) else (e.(cash := e.cash[o.id := target]), Ok(())))
    case Sell =>
      var current := if o.id in e.lots then e.lots[o.id] else 0;
      if leaves <= current then (e, Ok(()))
      else
        var (book, r) := ReservePositionForOrder(e.book, o.account, o.instrument, leaves - current);
        var e := e.(book := book);
        if r.Err? then (e, Err(LedgerFailed(r.error))) else (e.(lots := e.lots[o.id := leaves]), Ok(()))
  }

  function StageReplace(e: EngineState, req: ReplaceRequest): (EngineState, Outcome) {
    if req.order !in e.orders.orders then (e, Err(OrderFailed(UnknownOrder(req.order))))
    else
      var o := e.orders.orders[req.order];
      match GetInstrument(e, o.instrument)
      case Err(err) => (e, Err(err))
      case Ok(i) =>
        match AssertOrderGrid(i, req.price, req.qty)
        case Err(err) => (e, Err(InstrumentFailed(err)))
        case Ok(_) =>
          if req.qty < o.cumQty then (e, Err(OrderFailed(ReplaceBelowFilled(req.qty, o.cumQty))))
          else
            var (e1, r) := TopUp(e, o, i, req);
            if r.Err? then (e1, r)
            else
              var (orders, asked) := ApplyTo(e1.orders, req.order, ReplaceRequested(req.qty, req.price));
              (e1.(orders := orders), if asked.Ok? then Ok(()) else Err(OrderFailed(asked.error)))
  }

  /** A refused venue call: a disconnect turns the kill switch on. */
  function VenueRefused(e: EngineState, err: ExecutionError): EngineState {
    if err.Disconnected? then KillSwitchOn(e) else e
  }

  function EngineDeposit(e: EngineState, account: nat, amount: Money, key: string): (EngineState, Outcome) {
    var (book, r) := Deposit(e.book, account, amount, ClientKey(key));
    (e.(book := book), if r.Ok? then Ok(()) else Err(LedgerFailed(r.error)))
  }

  function EngineWithdraw(e: EngineState, account: nat, amount: Money, key: string): (EngineState, Outcome) {
    var (book, r) := Withdraw(e.book, account, amount, ClientKey(key));
    (e.(book := book), if r.Ok? then Ok(()) else Err(LedgerFailed(r.error)))
  }

  // ----- the engine wired to the sandbox venue

  datatype Desk = Desk(engine: EngineState, venue: Venue)

  function Drain(d: Desk): (Desk, Outcome) {
    var (venue, polled) := Poll(d.venue);
    var (cursor, batch) := EnsureContiguous(d.engine.cursor, venue, polled);
    var e := d.engine.(cursor := cursor);
    match batch
    case Err(err) => (Desk(e, venue), Err(VenueFailed(err)))
    case Ok(reports) =>
      var (e1, r) := ApplyReports(e, reports);
      (Desk(e1, venue), r)
  }

  function AfterVenue(e: EngineState, called: (Venue, Result<(), ExecutionError>)): (Desk, Outcome) {
    match called.1
    case Err(err) => (Desk(VenueRefused(e, err), called.0), Err(VenueFailed(err)))
    case Ok(_) => Drain(Desk(e, called.0))
  }

  function VenueOrderOf(o: Order, req: SubmitRequest): NewVenueOrder {
    NewVenueOrder(o.id, req.instrument, req.side, req.qty, req.price, req.tif)
  }

  function StoredOrder(d: Desk, id: nat): Result<Order, PaperError> {
    if id in d.engine.orders.orders then Ok(d.engine.orders.orders[id]) else Err(OrderFailed(UnknownOrder(id)))
  }

  function DeskSubmit(d: Desk, req: SubmitRequest, inputs: Option<RiskInputs>): (Desk, Result<SubmitOutcome, PaperError>) {
    var (e, staged) := StageSubmit(d.engine, req, inputs);
    match staged
    case Err(err) => (Desk(e, d.venue), Err(err))
    case Ok(Known(o)) => (Desk(e, d.venue), Ok(DuplicateOrder(o)))
    case Ok(Staged(o)) =>
      var (d1, r) := AfterVenue(e, VenueSubmit(d.venue, VenueOrderOf(o, req)));
      (d1, match r
           case Err(err) => Err(err)
           case Ok(_) => match StoredOrder(d1, o.id) case Ok(n) => Ok(CreatedOrder(n)) case Err(err) => Err(err))
  }

  function DeskCancel(d: Desk, id: nat): (Desk, Result<Order, PaperError>) {
    var (e, staged) := StageCancel(d.engine, id);
    if staged.Err? then (Desk(e, d.venue), Err(staged.error))
    else
      var (d1, r) := AfterVenue(e, VenueCancel(d.venue, id));
      (d1, if r.Err? then Err(r.error) else StoredOrder(d1, id))
  }

  function DeskReplace(d: Desk, req: ReplaceRequest): (Desk, Result<Order, PaperError>) {
    var (e, staged) := StageReplace(d.engine, req);
    if staged.Err? then (Desk(e, d.venue), Err(staged.error))
    else
      var (d1, r) := AfterVenue(e, VenueReplace(d.venue, req.order, req.qty, req.price));
      (d1, if r.Err? then Err(r.error) else StoredOrder(d1, req.order))
  }

  /** A fresh engine over a fresh sandbox. */
  function NewDesk(master: map<nat, Instrument>, risk: RiskState, autoFill: bool): Desk {
    Desk(NewEngine(master, risk), NewVenue(autoFill))
  }

  function NewEngine(master: map<nat, Instrument>, risk: RiskState): EngineState {
    EngineState(master, EMPTY_BOOK, EMPTY_STORE, map[], map[], risk, map[], Cursor(None, 1), [])
  }
}

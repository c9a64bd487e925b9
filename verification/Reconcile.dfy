/** Reconciliation of orders, venue and ledger, and the proof that it never has anything to report over
    the sandbox. */
module Reconciliation {
  import opened Base
  import opened Ledger
  import opened Orders
  import opened OrderStores
  import opened PaperBooks
  import opened Instruments
  import opened Execution
  import opened Risk
  import opened Notionals
  import opened Sandbox
  import opened Delivery
  import opened Engine
  import opened Reserves
  import opened ReserveRuns
  import opened QuietBooks
  import opened Agreement
  import opened AgreementSteps
  import opened AgreementReplace
  import opened AgreementSubmit
  import PaperEngines

  datatype Mismatch =
    | FillQtyMismatch(order: nat)
    | VenueCanceledOmsWorking(order: nat)
    | OmsWorkingNotAtVenue(order: nat)
    | VenueOrderUnknownToOms(order: nat)
    | VenueExecMissingInOms(order: nat, exec: string)
    | OmsExecMissingAtVenue(order: nat, exec: string)
    | OmsExecMissingInLedger(order: nat, exec: string)
    | LedgerFillWithoutOmsExec(exec: string)

  // ----- what each mismatch means

  predicate WorkingOrCanceling(s: OrderStatus) { s.IsWorking() || s.PendingCancel? }

  predicate TradePrinted(v: Venue, i: nat)
    requires i < |v.history|
  {
    v.history[i].execType.TradeExec? && v.history[i].exec.Some?
  }

  ghost predicate AnyTrade(v: Venue) { exists i: nat :: i < |v.history| && TradePrinted(v, i) }

  /** The differences that exist between the three sides of a desk. */
  ghost predicate Exists(d: Desk, m: Mismatch) {
    var orders, v := d.engine.orders.orders, d.venue;
    match m
    case FillQtyMismatch(id) => id in orders && id in v.inflight && v.inflight[id].cumQty != orders[id].cumQty
    case VenueCanceledOmsWorking(id) =>
      id in orders && id in v.inflight && v.inflight[id].canceled && orders[id].status.IsWorking()
    case OmsWorkingNotAtVenue(id) =>
      id in orders && id !in v.inflight && orders[id].venueOrderId.Some? && WorkingOrCanceling(orders[id].status)
    case VenueOrderUnknownToOms(id) => id in v.inflight && id !in orders
    case VenueExecMissingInOms(id, x) =>
      exists i: nat :: i < |v.history| && TradePrinted(v, i) && v.history[i].order == id && v.history[i].exec.value == x
                       && !(id in orders && x in orders[id].seenExecs)
    case OmsExecMissingAtVenue(id, x) => AnyTrade(v) && id in orders && x in orders[id].seenExecs && !Printed(v, x)
    case OmsExecMissingInLedger(id, x) => id in orders && x in orders[id].seenExecs && !d.engine.book.HasKey(FillKey(x))
    case LedgerFillWithoutOmsExec(x) => d.engine.book.HasKey(FillKey(x)) && !Seen(orders, x)
  }

  /** In agreement there is nothing to report. */
  lemma AgreedHasNoMismatch(d: Desk, m: Mismatch)
    requires Agreed(d)
    ensures !Exists(d, m)
  {
    var orders, v := d.engine.orders.orders, d.venue;
    match m
    case VenueExecMissingInOms(id, x) =>
      forall i: nat | i < |v.history| && TradePrinted(v, i) && v.history[i].order == id && v.history[i].exec.value == x
        ensures id in orders && x in orders[id].seenExecs
      {
        assert ReportOk(v.history[i], orders[id]);
      }
    case OmsExecMissingAtVenue(id, x) => if id in orders && x in orders[id].seenExecs { assert Seen(orders, x); }
    case OmsExecMissingInLedger(id, x) => if id in orders && x in orders[id].seenExecs { assert Seen(orders, x); }
    case OmsWorkingNotAtVenue(id) => if id in orders { assert RowFor(v, id, orders[id]); }
    case FillQtyMismatch(id) => if id in orders { assert RowFor(v, id, orders[id]); }
    case VenueCanceledOmsWorking(id) => if id in orders { assert RowFor(v, id, orders[id]); }
    case VenueOrderUnknownToOms(_) =>
    case LedgerFillWithoutOmsExec(_) =>
  }

  // ----- whole runs

  datatype Command =
    | DepositCommand(account: nat, amount: Money, key: string)
    | WithdrawCommand(account: nat, amount: Money, key: string)
    | SubmitCommand(submit: SubmitRequest, inputs: Option<RiskInputs>)
    | CancelCommand(order: nat)
    | ReplaceCommand(replace: ReplaceRequest)
    | DrainCommand
    | DisconnectCommand
    | RiskCommand(risk: RiskState)

  function Unit<T>(r: Result<T, PaperError>): Outcome { match r case Ok(_) => Ok(()) case Err(e) => Err(e) }

  function Perform(d: Desk, c: Command): (Desk, Outcome) {
    match c
    case DepositCommand(account, amount, key) =>
      var (e, r) := EngineDeposit(d.engine, account, amount, key); (Desk(e, d.venue), r)
    case WithdrawCommand(account, amount, key) =>
      var (e, r) := EngineWithdraw(d.engine, account, amount, key); (Desk(e, d.venue), r)
    case SubmitCommand(req, inputs) => var (n, r) := DeskSubmit(d, req, inputs); (n, Unit(r))
    case CancelCommand(id) => var (n, r) := DeskCancel(d, id); (n, Unit(r))
    case ReplaceCommand(req) => var (n, r) := DeskReplace(d, req); (n, Unit(r))
    case DrainCommand => Drain(d)
    case DisconnectCommand => (Desk(d.engine, Disconnect(d.venue)), Ok(()))
    case RiskCommand(risk) => (Desk(d.engine.(risk := risk), d.venue), Ok(()))
  }

  /** Quantities and prices are 64-bit, as their types are in the source. */
  predicate CommandFits(c: Command) {
    match c
    case SubmitCommand(req, _) => RequestFits(req)
    case ReplaceCommand(req) => FitsI64(req.qty) && FitsI64(req.price)
    case _ => true
  }

  lemma CashAgrees(d: Desk, account: nat, amount: Money, key: string)
    requires Agreed(d)
    ensures !Overflowed(EngineDeposit(d.engine, account, amount, key).1) ==> Agreed(Desk(EngineDeposit(d.engine, account, amount, key).0, d.venue))
    ensures !Overflowed(EngineWithdraw(d.engine, account, amount, key).1) ==> Agreed(Desk(EngineWithdraw(d.engine, account, amount, key).0, d.venue))
  {
    if !Overflowed(EngineDeposit(d.engine, account, amount, key).1) {
      DepositQuiet(d.engine.book, account, amount, key);
      EngineOnlyAgrees(d, EngineDeposit(d.engine, account, amount, key).0);
    }
    if !Overflowed(EngineWithdraw(d.engine, account, amount, key).1) {
      WithdrawQuiet(d.engine.book, account, amount, key);
      EngineOnlyAgrees(d, EngineWithdraw(d.engine, account, amount, key).0);
    }
  }

  lemma DisconnectAgrees(d: Desk)
    requires Agreed(d)
    ensures Agreed(Desk(d.engine, Disconnect(d.venue)))
  {
    var v, n := d.venue, Disconnect(d.venue);
    forall x ensures Printed(n, x) <==> Printed(v, x) {
      PrintedAfter(v, n, x);
      PrintedAfter(n, v, x);
    }
  }

  lemma PerformAgrees(d: Desk, c: Command)
    requires Agreed(d) && CommandFits(c) && !Overflowed(Perform(d, c).1)
    ensures Agreed(Perform(d, c).0)
  {
    match c
    case DepositCommand(account, amount, key) => CashAgrees(d, account, amount, key);
    case WithdrawCommand(account, amount, key) => CashAgrees(d, account, amount, key);
    case SubmitCommand(req, inputs) => SubmitAgrees(d, req, inputs);
    case CancelCommand(id) => CancelAgrees(d, id);
    case ReplaceCommand(req) => ReplaceAgrees(d, req);
    case DrainCommand => EmptyDrain(d);
    case DisconnectCommand => DisconnectAgrees(d);
    case RiskCommand(risk) =>
      SameBookIsQuiet(d.engine.book);
      EngineOnlyAgrees(d, d.engine.(risk := risk));
  }

  function After(d: Desk, commands: seq<Command>): Desk {
    if commands == [] then d else Perform(After(d, commands[..|commands| - 1]), commands[|commands| - 1]).0
  }

  /** No command of the run ended in a ledger overflow. */
  predicate NoOverflow(d: Desk, commands: seq<Command>) {
    commands == [] ||
    (NoOverflow(d, commands[..|commands| - 1])
     && CommandFits(commands[|commands| - 1])
     && !Overflowed(Perform(After(d, commands[..|commands| - 1]), commands[|commands| - 1]).1))
  }

  lemma NewDeskAgrees(master: map<nat, Instrument>, risk: RiskState, autoFill: bool)
    requires forall i :: i in master ==> master[i].Valid()
    ensures Agreed(NewDesk(master, risk, autoFill))
  {
  }

  /** In every state reached by deposits, withdrawals, submits, cancels, replaces, drains, disconnects
      and risk changes, whether the calls were accepted or refused, there is nothing to report. */
  lemma {:induction false} EveryRunAgrees(master: map<nat, Instrument>, risk: RiskState, autoFill: bool, commands: seq<Command>)
    requires forall i :: i in master ==> master[i].Valid()
    requires NoOverflow(NewDesk(master, risk, autoFill), commands)
    ensures Agreed(After(NewDesk(master, risk, autoFill), commands))
    ensures forall m :: !Exists(After(NewDesk(master, risk, autoFill), commands), m)
  {
    var d := NewDesk(master, risk, autoFill);
    if commands == [] {
      NewDeskAgrees(master, risk, autoFill);
    } else {
      EveryRunAgrees(master, risk, autoFill, commands[..|commands| - 1]);
      PerformAgrees(After(d, commands[..|commands| - 1]), commands[|commands| - 1]);
    }
    forall m ensures !Exists(After(d, commands), m) { AgreedHasNoMismatch(After(d, commands), m); }
  }

  // ----- reconciliation as the engine runs it, in whatever order the tables are walked

  /** The mismatches of one order against its venue row. */
  method OrderMismatches(engine: PaperEngines.PaperEngine, id: nat) returns (out: seq<Mismatch>)
    requires id in engine.orders.orders
    ensures forall m :: m in out <==> OrderKind(m) && m.order == id && Exists(engine.DeskView(), m)
  {
    out := [];
    var o := engine.orders.orders[id];
    if id in engine.venue.inflight {
      var row := engine.venue.inflight[id];
      if row.cumQty != o.cumQty { out := out + [FillQtyMismatch(id)]; }
      if row.canceled && o.status.IsWorking() { out := out + [VenueCanceledOmsWorking(id)]; }
    } else if o.venueOrderId.Some? && WorkingOrCanceling(o.status) {
      out := [OmsWorkingNotAtVenue(id)];
    }
  }

  predicate OrderKind(m: Mismatch) { m.FillQtyMismatch? || m.VenueCanceledOmsWorking? || m.OmsWorkingNotAtVenue? }

  method OrdersAgainstVenue(engine: PaperEngines.PaperEngine) returns (out: seq<Mismatch>)
    ensures forall m :: m in out <==> OrderKind(m) && Exists(engine.DeskView(), m)
  {
    out := [];
    var todo := engine.orders.orders.Keys;
    while todo != {}
      invariant todo <= engine.orders.orders.Keys
      invariant forall m :: m in out <==>
        OrderKind(m) && m.order in engine.orders.orders.Keys - todo && Exists(engine.DeskView(), m)
      decreases |todo|
    {
      var id :| id in todo;
      var found := OrderMismatches(engine, id);
      out := out + found;
      todo := todo - {id};
    }
  }

  method VenueAgainstOrders(engine: PaperEngines.PaperEngine) returns (out: seq<Mismatch>)
    ensures forall m :: m in out <==> m.VenueOrderUnknownToOms? && Exists(engine.DeskView(), m)
  {
    out := [];
    var todo := engine.venue.inflight.Keys;
    while todo != {}
      invariant todo <= engine.venue.inflight.Keys
      invariant forall m :: m in out <==>
        m.VenueOrderUnknownToOms? && m.order !in todo && Exists(engine.DeskView(), m)
      decreases |todo|
    {
      var id :| id in todo;
      if id !in engine.orders.orders { out := out + [VenueOrderUnknownToOms(id)]; }
      todo := todo - {id};
    }
  }

  /** The venue's printed executions, and the printed ones no order has taken. */
  method DropCopyAgainstOrders(engine: PaperEngines.PaperEngine) returns (out: seq<Mismatch>, printed: set<string>, any: bool)
    ensures forall m :: m in out <==> m.VenueExecMissingInOms? && Exists(engine.DeskView(), m)
    ensures forall x :: x in printed <==> Printed(engine.venue.View(), x)
    ensures any <==> AnyTrade(engine.venue.View())
  {
    out, printed, any := [], {}, false;
    ghost var v := engine.venue.View();
    ghost var orders := engine.orders.orders;
    var i := 0;
    while i < |engine.venue.history|
      invariant 0 <= i <= |engine.venue.history|
      invariant forall m :: m in out <==> m.VenueExecMissingInOms? && MissingBefore(v, orders, m.order, m.exec, i)
      invariant forall x :: x in printed <==> exists j :: 0 <= j < i && IsTradeOf(v.history[j], x)
      invariant any <==> exists j: nat :: j < i && TradePrinted(v, j)
    {
      var r := engine.venue.history[i];
      if r.execType.TradeExec? && r.exec.Some? {
        assert TradePrinted(v, i) && IsTradeOf(v.history[i], r.exec.value);
        printed := printed + {r.exec.value};
        any := true;
        if !(r.order in engine.orders.orders && r.exec.value in engine.orders.orders[r.order].seenExecs) {
          out := out + [VenueExecMissingInOms(r.order, r.exec.value)];
        }
      }
      i := i + 1;
    }
  }

  ghost predicate MissingBefore(v: Venue, orders: map<nat, Order>, id: nat, x: string, n: nat)
    requires n <= |v.history|
  {
    exists i: nat :: i < n && TradePrinted(v, i) && v.history[i].order == id && v.history[i].exec.value == x
                     && !(id in orders && x in orders[id].seenExecs)
  }

  /** The executions of one order that are not among the known ones. */
  method OneOrderExecsNotIn(o: Order, id: nat, known: set<string>) returns (missing: seq<(nat, string)>)
    ensures forall p :: p in missing <==> p.0 == id && p.1 in o.seenExecs && p.1 !in known
  {
    missing := [];
    var i := 0;
    while i < |o.seenExecs|
      invariant 0 <= i <= |o.seenExecs|
      invariant forall p :: p in missing <==> p.0 == id && p.1 in o.seenExecs[..i] && p.1 !in known
    {
      if o.seenExecs[i] !in known { missing := missing + [(id, o.seenExecs[i])]; }
      i := i + 1;
    }
    assert o.seenExecs[..i] == o.seenExecs;
  }

  ghost predicate TakenBy(orders: map<nat, Order>, p: (nat, string)) { p.0 in orders && p.1 in orders[p.0].seenExecs }

  method ExecsNotIn(orders: map<nat, Order>, known: set<string>) returns (missing: seq<(nat, string)>)
    ensures forall p :: p in missing <==> TakenBy(orders, p) && p.1 !in known
  {
    missing := [];
    var todo := orders.Keys;
    while todo != {}
      invariant todo <= orders.Keys
      invariant forall p :: p in missing <==> TakenBy(orders, p) && p.0 !in todo && p.1 !in known
      decreases |todo|
    {
      var id :| id in todo;
      var found := OneOrderExecsNotIn(orders[id], id, known);
      missing := missing + found;
      todo := todo - {id};
    }
  }

  method SeenExecs(orders: map<nat, Order>) returns (seen: set<string>)
    ensures forall x :: x in seen <==> Seen(orders, x)
  {
    var all := ExecsNotIn(orders, {});
    seen := set i | 0 <= i < |all| :: all[i].1;
    forall x ensures x in seen <==> Seen(orders, x) {
      if Seen(orders, x) {
        var id :| id in orders && x in orders[id].seenExecs;
        assert TakenBy(orders, (id, x)) && (id, x) in all;
      }
      if x in seen {
        var i :| 0 <= i < |all| && all[i].1 == x;
        assert all[i] in all;
      }
    }
  }

  method LedgerFills(journal: Journal) returns (fills: set<string>)
    requires Indexed(journal.View())
    ensures forall x :: x in fills <==> FillKey(x) in journal.byKey
  {
    fills := {};
    var i := 0;
    while i < |journal.entries|
      invariant 0 <= i <= |journal.entries|
      invariant forall x :: x in fills <==> exists j :: 0 <= j < i && journal.entries[j].entry.key == FillKey(x)
    {
      var key := journal.entries[i].entry.key;
      if key.FillKey? { fills := fills + {key.exec}; }
      i := i + 1;
    }
    KeyIndexHasStoredKeys(journal.entries);
  }

  method OrdersAgainstDropCopy(engine: PaperEngines.PaperEngine, printed: set<string>, any: bool) returns (out: seq<Mismatch>)
    requires forall x :: x in printed <==> Printed(engine.venue.View(), x)
    requires any <==> AnyTrade(engine.venue.View())
    ensures forall m :: m in out <==> m.OmsExecMissingAtVenue? && Exists(engine.DeskView(), m)
  {
    out := [];
    if !any { return; }
    var missing := ExecsNotIn(engine.orders.orders, printed);
    var i := 0;
    while i < |missing|
      invariant 0 <= i <= |missing|
      invariant forall m :: m in out <==> m.OmsExecMissingAtVenue? && (m.order, m.exec) in missing[..i]
    {
      out := out + [OmsExecMissingAtVenue(missing[i].0, missing[i].1)];
      i := i + 1;
    }
    assert missing[..i] == missing;
    forall m ensures m in out <==> m.OmsExecMissingAtVenue? && Exists(engine.DeskView(), m) {
      if m.OmsExecMissingAtVenue? { assert (m.order, m.exec) in missing <==> TakenBy(engine.orders.orders, (m.order, m.exec)) && m.exec !in printed; }
    }
  }

  method OrdersAgainstLedger(engine: PaperEngines.PaperEngine, fills: set<string>) returns (out: seq<Mismatch>)
    requires forall x :: x in fills <==> FillKey(x) in engine.book.journal.byKey
    ensures forall m :: m in out <==> m.OmsExecMissingInLedger? && Exists(engine.DeskView(), m)
  {
    out := [];
    var missing := ExecsNotIn(engine.orders.orders, fills);
    var i := 0;
    while i < |missing|
      invariant 0 <= i <= |missing|
      invariant forall m :: m in out <==> m.OmsExecMissingInLedger? && (m.order, m.exec) in missing[..i]
    {
      out := out + [OmsExecMissingInLedger(missing[i].0, missing[i].1)];
      i := i + 1;
    }
    assert missing[..i] == missing;
    forall m ensures m in out <==> m.OmsExecMissingInLedger? && Exists(engine.DeskView(), m) {
      if m.OmsExecMissingInLedger? { assert (m.order, m.exec) in missing <==> TakenBy(engine.orders.orders, (m.order, m.exec)) && m.exec !in fills; }
    }
  }

  method LedgerAgainstOrders(engine: PaperEngines.PaperEngine, fills: set<string>) returns (out: seq<Mismatch>)
    requires forall x :: x in fills <==> FillKey(x) in engine.book.journal.byKey
    ensures forall m :: m in out <==> m.LedgerFillWithoutOmsExec? && Exists(engine.DeskView(), m)
  {
    out := [];
    var seen := SeenExecs(engine.orders.orders);
    var todo := fills;
    while todo != {}
      invariant todo <= fills
      invariant forall m :: m in out <==> m.LedgerFillWithoutOmsExec? && m.exec in fills - todo && m.exec !in seen
      decreases |todo|
    {
      var x :| x in todo;
      if x !in seen { out := out + [LedgerFillWithoutOmsExec(x)]; }
      todo := todo - {x};
    }
  }

  /** The whole comparison reports exactly the mismatches that exist. */
  method Reconcile(engine: PaperEngines.PaperEngine) returns (out: seq<Mismatch>)
    requires Indexed(engine.book.journal.View())
    ensures forall m :: m in out <==> Exists(engine.DeskView(), m)
  {
    var orders := OrdersAgainstVenue(engine);
    var rows := VenueAgainstOrders(engine);
    var unseen, printed, any := DropCopyAgainstOrders(engine);
    var unprinted := OrdersAgainstDropCopy(engine, printed, any);
    var fills := LedgerFills(engine.book.journal);
    var unposted := OrdersAgainstLedger(engine, fills);
    var unowned := LedgerAgainstOrders(engine, fills);
    out := orders + rows + unseen + unprinted + unposted + unowned;
  }

  /** Hence over the sandbox the comparison comes out empty whenever the desk is in agreement. */
  method ReconcileAgreed(engine: PaperEngines.PaperEngine) returns (out: seq<Mismatch>)
    requires Agreed(engine.DeskView())
    ensures out == []
  {
    out := Reconcile(engine);
    if out != [] {
      assert out[0] in out;
      AgreedHasNoMismatch(engine.DeskView(), out[0]);
    }
  }
}

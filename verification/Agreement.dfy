/** Orders, sandbox venue and ledger fills tell the same story after every command. */
module Agreement {
  import opened Base
  import opened Ledger
  import opened Orders
  import opened OrderStores
  import opened PaperBooks
  import opened Instruments
  import opened Execution
  import opened Risk
  import opened Notionals
  import opened Sandbox
  import opened Delivery
  import opened Engine
  import opened Reserves
  import opened QuietBooks

  // ----- what the three sides must agree on

  predicate IsTradeOf(r: Report, x: string) { r.execType.TradeExec? && r.exec == Some(x) }

  /** The venue's journal has a trade under the execution id. */
  ghost predicate Printed(v: Venue, x: string) { exists i :: 0 <= i < |v.history| && IsTradeOf(v.history[i], x) }

  /** Some order has taken the execution id. */
  ghost predicate Seen(orders: map<nat, Order>, x: string) { exists id :: id in orders && x in orders[id].seenExecs }

  /** Statuses of orders the venue has accepted. */
  predicate AtVenue(s: OrderStatus) { !s.PendingNew? && !s.Rejected? }

  /** The sandbox fills all or nothing. */
  ghost predicate OrderOk(o: Order, id: nat, top: nat) {
    1 <= id <= top && o.id == id && WellFormed(o) && (o.cumQty == 0 || o.status.Filled?)
  }

  predicate RowOk(row: Inflight, o: Order) {
    row.cumQty == o.cumQty && 0 < row.orderQty <= I64_MAX && FitsI64(row.price) && (row.canceled ==> o.status.IsTerminal())
  }

  /** What a journaled report leaves true of its order for good. */
  predicate ReportOk(r: Report, o: Order) {
    && ReportFits(r) && !o.status.PendingNew?
    && match r.execType
       case NewExec => true
       case TradeExec => r.exec.Some? && r.exec.value in o.seenExecs
       case RejectedExec(_) => o.status.IsTerminal()
       case CanceledExec => o.status.IsTerminal()
       case ExpiredExec => o.status.IsTerminal()
       case ReplacedExec => r.qty > 0 && r.price > 0
       case CancelRejectExec(_) => false
  }

  predicate RowFor(v: Venue, id: nat, o: Order) {
    (AtVenue(o.status) <==> id in v.inflight) && (id in v.inflight ==> RowOk(v.inflight[id], o))
  }

  ghost predicate ExecIdsUsed(v: Venue) {
    forall x :: Printed(v, x) ==> exists k: nat :: k < v.nextExec && x == ExecIdText(k)
  }

  /** Orders and venue match. */
  ghost predicate Matched(orders: map<nat, Order>, top: nat, v: Venue) {
    && (forall id :: id in orders ==> OrderOk(orders[id], id, top) && RowFor(v, id, orders[id]))
    && (forall id :: id in v.inflight ==> id in orders)
    && (forall i :: 0 <= i < |v.history| ==> v.history[i].order in orders && ReportOk(v.history[i], orders[v.history[i].order]))
    && (forall x :: Printed(v, x) <==> Seen(orders, x))
    && ExecIdsUsed(v)
  }

  /** Ledger fills are exactly the fills the orders have taken. */
  ghost predicate Recorded(b: Book, orders: map<nat, Order>) {
    forall x :: b.HasKey(FillKey(x)) <==> Seen(orders, x)
  }

  ghost predicate ReserveKeysBounded(b: Book, top: nat) {
    forall a: nat, id: nat :: b.HasKey(ReserveKey(a, id)) ==> id <= top
  }

  predicate CursorOk(c: Cursor, v: Venue) {
    c.session == None || (c.session == Some(v.session) && 1 <= c.next <= |v.history| + 1)
  }

  predicate Settled(o: Order) { !o.status.PendingCancel? && !o.status.PendingReplace? }

  ghost predicate LedgerOk(e: EngineState) {
    BookOk(e.book) && Recorded(e.book, e.orders.orders) && ReserveKeysBounded(e.book, e.orders.nextId) && MasterOk(e)
  }

  /** What holds between commands. */
  ghost predicate Agreed(d: Desk) {
    var e, v := d.engine, d.venue;
    && Matched(e.orders.orders, e.orders.nextId, v)
    && LedgerOk(e)
    && Numbered(v) && v.outbox == [] && CursorOk(e.cursor, v)
    && (v.connected ==> forall id :: id in e.orders.orders ==> Settled(e.orders.orders[id]))
  }

  // ----- one order and its venue row change

  /** n continues o: what held of o's old reports holds of n. */
  predicate Continues(o: Order, n: Order) {
    && o.seenExecs <= n.seenExecs
    && (o.status.IsTerminal() ==> n.status.IsTerminal())
    && (!o.status.PendingNew? ==> !n.status.PendingNew?)
  }

  ghost predicate RowsElsewhere(v: Venue, n: Venue, k: nat) {
    forall id: nat :: id != k ==> (id in n.inflight <==> id in v.inflight) && (id in v.inflight ==> n.inflight[id] == v.inflight[id])
  }

  lemma SeenAfter(orders: map<nat, Order>, k: nat, n: Order, x: string)
    requires k in orders ==> orders[k].seenExecs <= n.seenExecs
    ensures Seen(orders[k := n], x) <==> Seen(orders, x) || x in n.seenExecs
  {
    var after := orders[k := n];
    if Seen(orders, x) {
      var id :| id in orders && x in orders[id].seenExecs;
      assert id in after && x in after[id].seenExecs;
    }
    if x in n.seenExecs { assert k in after && x in after[k].seenExecs; }
  }

  lemma PrintedAfter(v: Venue, n: Venue, x: string)
    requires v.history <= n.history
    ensures Printed(n, x) <==> Printed(v, x) || exists i :: |v.history| <= i < |n.history| && IsTradeOf(n.history[i], x)
  {
    if Printed(v, x) {
      var i :| 0 <= i < |v.history| && IsTradeOf(v.history[i], x);
      assert n.history[i] == v.history[i];
    }
    if Printed(n, x) {
      var i :| 0 <= i < |n.history| && IsTradeOf(n.history[i], x);
      if i < |v.history| { assert v.history[i] == n.history[i]; }
    }
  }

  ghost predicate NewReportsOk(v: Venue, n: Venue, k: nat, o: Order) {
    forall i :: |v.history| <= i < |n.history| ==> n.history[i].order == k && ReportOk(n.history[i], o)
  }

  /** Execution ids the order took since are printed in the new part of the journal, and fresh. */
  ghost predicate NewExecsOk(v: Venue, n: Venue, before: seq<string>, o: Order) {
    && v.nextExec <= n.nextExec
    && (forall x :: x in o.seenExecs && x !in before ==> exists i :: |v.history| <= i < |n.history| && IsTradeOf(n.history[i], x))
    && (forall i, x :: |v.history| <= i < |n.history| && IsTradeOf(n.history[i], x) ==>
          exists k: nat :: k < n.nextExec && x == ExecIdText(k))
  }

  lemma ExecsAfter(orders: map<nat, Order>, v: Venue, n: Venue, k: nat, o: Order)
    requires forall x :: Printed(v, x) <==> Seen(orders, x)
    requires ExecIdsUsed(v) && v.history <= n.history
    requires k in orders ==> orders[k].seenExecs <= o.seenExecs
    requires NewReportsOk(v, n, k, o) && NewExecsOk(v, n, if k in orders then orders[k].seenExecs else [], o)
    ensures (forall x :: Printed(n, x) <==> Seen(orders[k := o], x)) && ExecIdsUsed(n)
  {
    forall x ensures Printed(n, x) <==> Seen(orders[k := o], x) {
      PrintedAfter(v, n, x);
      SeenAfter(orders, k, o, x);
      if x in o.seenExecs && k in orders && x in orders[k].seenExecs { assert Seen(orders, x); }
    }
    forall x | Printed(n, x) ensures exists j: nat :: j < n.nextExec && x == ExecIdText(j) {
      PrintedAfter(v, n, x);
      if Printed(v, x) {
        var j: nat :| j < v.nextExec && x == ExecIdText(j);
        assert j < n.nextExec;
      }
    }
  }

  lemma MatchedAfter(orders: map<nat, Order>, top: nat, v: Venue, n: Venue, top': nat, k: nat, o: Order)
    requires Matched(orders, top, v) && top <= top'
    requires OrderOk(o, k, top') && RowFor(n, k, o) && RowsElsewhere(v, n, k)
    requires k in orders ==> Continues(orders[k], o)
    requires v.history <= n.history && NewReportsOk(v, n, k, o)
    requires NewExecsOk(v, n, if k in orders then orders[k].seenExecs else [], o)
    ensures Matched(orders[k := o], top', n)
  {
    var after := orders[k := o];
    ExecsAfter(orders, v, n, k, o);
    forall i | 0 <= i < |n.history| ensures n.history[i].order in after && ReportOk(n.history[i], after[n.history[i].order]) {
      if i < |v.history| { assert n.history[i] == v.history[i]; }
    }
  }

  // ----- reports the orders have already taken

  /** Offered again, the report only moves the cursor. */
  predicate Spent(e: EngineState, r: Report) {
    match ToOrderEvent(r)
    case Err(_) => false
    case Ok(None) => true
    case Ok(Some(event)) =>
      r.order in e.orders.orders
      && match Apply(e.orders.orders[r.order], event)
         case Ok(_) => false
         case Err(err) => err.IllegalTransition? || err.DuplicateExec?
  }

  lemma ReportIsSpent(e: EngineState, r: Report)
    requires r.order in e.orders.orders && ReportOk(r, e.orders.orders[r.order])
    requires !(r.execType.ReplacedExec? && e.orders.orders[r.order].status.PendingReplace?)
    requires !(r.execType.CanceledExec? && !e.orders.orders[r.order].status.IsTerminal())
    ensures Spent(e, r)
  {
  }

  /** Reports numbered from n on in the session. */
  ghost predicate NumberedFrom(reports: seq<Report>, session: nat, n: nat) {
    forall i :: 0 <= i < |reports| ==> reports[i].session == session && reports[i].seqNo == n + i
  }

  function At(e: EngineState, session: nat, n: nat): EngineState { e.(cursor := Cursor(Some(session), n)) }

  lemma SpentReport(e: EngineState, r: Report)
    requires e.cursor == Cursor(Some(r.session), r.seqNo) && Spent(e, r)
    ensures ApplyReport(e, r) == (At(e, r.session, r.seqNo + 1), Ok(()))
  {
  }

  lemma SpentAt(e: EngineState, r: Report, session: nat, k: nat)
    requires Spent(e, r) && r.session == session && r.seqNo == k
    ensures ApplyReport(At(e, session, k), r) == (At(e, session, k + 1), Ok(()))
  {
    assert Spent(At(e, session, k), r);
    SpentReport(At(e, session, k), r);
  }

  ghost predicate StepsAlong(e: EngineState, batch: seq<Report>, j: nat, session: nat, n: nat)
    requires j <= |batch|
  {
    forall i: nat :: i < j ==> ApplyReport(At(e, session, n + i), batch[i]) == (At(e, session, n + i + 1), Ok(()))
  }

  lemma SpentStepsAlong(e: EngineState, batch: seq<Report>, j: nat, session: nat, n: nat)
    requires NumberedFrom(batch, session, n) && j <= |batch| && forall i :: 0 <= i < j ==> Spent(e, batch[i])
    ensures StepsAlong(e, batch, j, session, n)
  {
    forall i: nat | i < j ensures ApplyReport(At(e, session, n + i), batch[i]) == (At(e, session, n + i + 1), Ok(())) {
      SpentAt(e, batch[i], session, n + i);
    }
  }

  lemma CursorsSkip(take: (EngineState, Report) -> (EngineState, Outcome), e: EngineState, batch: seq<Report>, j: nat, session: nat, n: nat)
    requires j <= |batch| && forall i: nat :: i < j ==> take(At(e, session, n + i), batch[i]) == (At(e, session, n + i + 1), Ok(()))
    ensures TakeInOrder(take, At(e, session, n), batch) == TakeInOrder(take, At(e, session, n + j), batch[j..])
  {
    SkipAlong(take, (k: nat) => At(e, session, k), n, batch, j);
  }

  lemma StepsSkip(e: EngineState, batch: seq<Report>, j: nat, session: nat, n: nat)
    requires j <= |batch| && StepsAlong(e, batch, j, session, n)
    ensures ApplyReports(At(e, session, n), batch) == ApplyReports(At(e, session, n + j), batch[j..])
  {
    CursorsSkip(ApplyReport, e, batch, j, session, n);
  }

  /** A batch whose first j reports are spent acts from report j on. */
  lemma SpentSkips(e: EngineState, batch: seq<Report>, j: nat, session: nat, n: nat)
    requires e.cursor == Cursor(Some(session), n) && NumberedFrom(batch, session, n) && j <= |batch|
    requires forall i :: 0 <= i < j ==> Spent(e, batch[i])
    ensures ApplyReports(e, batch) == ApplyReports(At(e, session, n + j), batch[j..])
  {
    SpentStepsAlong(e, batch, j, session, n);
    StepsSkip(e, batch, j, session, n);
    assert At(e, session, n) == e;
  }

  // ----- draining after the venue pushed

  /** The position the consumer will read the session from. */
  function ReadFrom(c: Cursor, v: Venue): nat { if c.session == Some(v.session) then c.next else 1 }

  /** The venue after one or more pushes on a quiet one. */
  ghost predicate Pushed(v: Venue, n: Venue) {
    Numbered(v) && Numbered(n) && v.outbox == [] && Extends(v, n) && |v.history| < |n.history| && v.connected
  }

  /** What is read from position k on: old reports, then the new ones. */
  lemma ReadBatch(v: Venue, n: Venue, k: nat)
    requires Pushed(v, n) && 1 <= k <= |v.history| + 1
    ensures var batch := n.history[k - 1..]; var j := |v.history| - (k - 1);
      && batch == v.history[k - 1..] + n.history[|v.history|..] && batch[j..] == n.history[|v.history|..]
      && NumberedFrom(batch, v.session, k) && (forall i :: 0 <= i < j ==> batch[i] == v.history[k - 1 + i])
  {
    var batch := n.history[k - 1..];
    forall i | 0 <= i < |batch| ensures batch[i].session == v.session && batch[i].seqNo == k + i { assert batch[i] == n.history[k - 1 + i]; }
  }

  lemma OutboxIsNew(v: Venue, n: Venue)
    requires Pushed(v, n)
    ensures n.outbox == n.history[|v.history|..]
  {
    assert n.outbox[0..] == n.outbox;
  }

  /** What a poll after the pushes hands to the engine: everything from where it stopped reading. */
  lemma PolledBatch(c: Cursor, v: Venue, n: Venue)
    requires Pushed(v, n) && CursorOk(c, v)
    ensures var k := ReadFrom(c, v);
      EnsureContiguous(c, Poll(n).0, n.outbox) == (Cursor(Some(v.session), k), Ok(n.history[k - 1..]))
  {
    OutboxIsNew(v, n);
    DeliversFromCursor(c, Poll(n).0, |v.history|);
  }

  lemma DrainOf(e: EngineState, n: Venue, session: nat, k: nat, batch: seq<Report>)
    requires EnsureContiguous(e.cursor, Poll(n).0, n.outbox) == (Cursor(Some(session), k), Ok(batch))
    ensures var (e1, r) := ApplyReports(At(e, session, k), batch); Drain(Desk(e, n)) == (Desk(e1, n.(outbox := [])), r)
  {
  }

  lemma DrainUnfolds(e: EngineState, v: Venue, n: Venue)
    requires Pushed(v, n) && CursorOk(e.cursor, v)
    ensures var k := ReadFrom(e.cursor, v);
      var (e1, r) := ApplyReports(At(e, v.session, k), n.history[k - 1..]);
      Drain(Desk(e, n)) == (Desk(e1, n.(outbox := [])), r)
  {
    var k := ReadFrom(e.cursor, v);
    PolledBatch(e.cursor, v, n);
    DrainOf(e, n, v.session, k, n.history[k - 1..]);
  }

  /** When every earlier report is spent, only the new ones matter. */
  lemma SpentAlike(e: EngineState, session: nat, k: nat, r: Report)
    requires Spent(e, r)
    ensures Spent(At(e, session, k), r)
  {
  }

  lemma DrainNewOnly(e: EngineState, v: Venue, n: Venue)
    requires Pushed(v, n) && CursorOk(e.cursor, v)
    requires forall i :: 0 <= i < |v.history| ==> Spent(e, v.history[i])
    ensures var (e1, r) := ApplyReports(At(e, v.session, |v.history| + 1), n.history[|v.history|..]);
      Drain(Desk(e, n)) == (Desk(e1, n.(outbox := [])), r)
  {
    var k := ReadFrom(e.cursor, v);
    var j := |v.history| - (k - 1);
    DrainUnfolds(e, v, n);
    ReadBatch(v, n, k);
    var batch := n.history[k - 1..];
    forall i | 0 <= i < j ensures Spent(At(e, v.session, k), batch[i]) { SpentAlike(e, v.session, k, v.history[k - 1 + i]); }
    SpentSkips(At(e, v.session, k), batch, j, v.session, k);
    AtTwice(e, v.session, k, k + j);
  }

  lemma AtTwice(e: EngineState, session: nat, k: nat, l: nat)
    ensures At(At(e, session, k), session, l) == At(e, session, l)
  {
  }

  lemma ApplyOne(e: EngineState, r: Report)
    ensures var (e1, out) := ApplyReport(e, r); ApplyReports(e, [r]) == (e1, out)
  {
    var (e1, out) := ApplyReport(e, r);
    assert [r][0] == r && [r][1..] == [];
    if out.Ok? {
      assert out.value == ();
      assert TakeInOrder(ApplyReport, e1, []) == (e1, Ok(()));
    }
  }

  lemma ApplyTwo(e: EngineState, r: Report, q: Report)
    ensures var (e1, out) := ApplyReport(e, r);
      ApplyReports(e, [r, q]) == if out.Err? then (e1, out) else ApplyReport(e1, q)
  {
    var e1 := ApplyReport(e, r).0;
    assert [r, q][1..] == [q];
    ApplyOne(e1, q);
  }

  lemma EmptyDrain(d: Desk)
    requires d.venue.outbox == []
    ensures Drain(d) == (d, Ok(()))
  {
  }
}

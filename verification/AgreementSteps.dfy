/** Quiet moves of one order keep orders, venue and ledger in agreement; the cancel command. */
module AgreementSteps {
  import opened Base
  import opened Ledger
  import opened Orders
  import opened OrderStores
  import opened PaperBooks
  import opened Instruments
  import opened Execution
  import opened Risk
  import opened Notionals
  import opened Sandbox
  import opened Delivery
  import opened Engine
  import opened Reserves
  import opened QuietBooks
  import opened Agreement

  // ----- steps that record no fill

  /** Order k became o, at most one other thing moved on the ledger side, and no fill was recorded. */
  ghost predicate QuietMove(e: EngineState, n: EngineState, k: nat, o: Order) {
    && n.orders.orders == e.orders.orders[k := o] && e.orders.nextId <= n.orders.nextId && n.master == e.master
    && QuietStep(e.book, n.book)
    && o.seenExecs == (if k in e.orders.orders then e.orders.orders[k].seenExecs else [])
  }

  lemma QuietLedgerOk(e: EngineState, n: EngineState, k: nat, o: Order)
    requires LedgerOk(e) && QuietMove(e, n, k, o)
    ensures LedgerOk(n)
  {
    forall x ensures n.book.HasKey(FillKey(x)) <==> Seen(n.orders.orders, x) {
      SeenAfter(e.orders.orders, k, o, x);
      if x in o.seenExecs { assert Seen(e.orders.orders, x); }
    }
  }

  lemma SameBookIsQuiet(b: Book)
    requires BookOk(b)
    ensures QuietStep(b, b)
  {
  }

  /** The report at the cursor, when its event is legal and is no trade. */
  lemma QuietReport(e: EngineState, r: Report, event: OrderEvent, o: Order, effect: DomainEffect)
    requires e.cursor == Cursor(Some(r.session), r.seqNo) && ToOrderEvent(r) == Ok(Some(event))
    requires r.order in e.orders.orders && Apply(e.orders.orders[r.order], event) == Ok((o, effect)) && !effect.TradeEffect?
    requires BookOk(e.book) && !Overflowed(ApplyReport(e, r).1)
    requires o.seenExecs == e.orders.orders[r.order].seenExecs
    ensures var (n, out) := ApplyReport(e, r);
      && QuietMove(e, n, r.order, o) && n.orders.nextId == e.orders.nextId
      && n.cursor.session == Some(r.session) && r.seqNo <= n.cursor.next <= r.seqNo + 1
      && (out.Ok? ==> n.cursor.next == r.seqNo + 1)
  {
    var stored := e.(orders := ApplyTo(e.orders, r.order, event).0);
    QuietReportUnfolds(e, r, event, o, effect);
    EffectQuiet(stored, o, effect);
  }

  lemma QuietReportUnfolds(e: EngineState, r: Report, event: OrderEvent, o: Order, effect: DomainEffect)
    requires e.cursor == Cursor(Some(r.session), r.seqNo) && ToOrderEvent(r) == Ok(Some(event))
    requires r.order in e.orders.orders && Apply(e.orders.orders[r.order], event) == Ok((o, effect))
    ensures var stored := e.(orders := ApplyTo(e.orders, r.order, event).0);
      && stored.orders.orders == e.orders.orders[r.order := o] && stored.orders.nextId == e.orders.nextId
      && ApplyReport(e, r) == (var (n, out) := ApplyEffect(stored, o, effect);
                               if out.Err? then (n, out) else (Advance(n, r.seqNo), Ok(())))
  {
  }

  /** Agreement after a quiet move of order k with its row and new reports. */
  lemma AgreedAfterQuiet(d: Desk, n: Desk, k: nat, o: Order)
    requires Agreed(d) && QuietMove(d.engine, n.engine, k, o)
    requires OrderOk(o, k, n.engine.orders.nextId) && RowFor(n.venue, k, o) && RowsElsewhere(d.venue, n.venue, k)
    requires k in d.engine.orders.orders ==> Continues(d.engine.orders.orders[k], o)
    requires d.venue.history <= n.venue.history && NewReportsOk(d.venue, n.venue, k, o)
    requires NewExecsOk(d.venue, n.venue, o.seenExecs, o)
    requires Numbered(n.venue) && n.venue.outbox == [] && CursorOk(n.engine.cursor, n.venue)
    requires n.venue.connected == d.venue.connected && (n.venue.connected ==> Settled(o))
    ensures Agreed(n)
  {
    MatchedAfter(d.engine.orders.orders, d.engine.orders.nextId, d.venue, n.venue, n.engine.orders.nextId, k, o);
    QuietLedgerOk(d.engine, n.engine, k, o);
  }

  // ----- cancel

  lemma CancelStages(e: EngineState, id: nat)
    requires id in e.orders.orders && StageCancel(e, id).1.Ok?
    ensures var o := e.orders.orders[id]; var n := StageCancel(e, id).0;
      && o.status.IsWorking() && n == e.(orders := n.orders) && n.orders.nextId == e.orders.nextId
      && n.orders.orders == e.orders.orders[id := o.(status := PendingCancel)]
  {
  }

  /** Everything journaled is spent once k is the only order not settled and is pending cancel. */
  lemma SpentWhilePendingCancel(d: Desk, m: EngineState, k: nat)
    requires Agreed(d) && d.venue.connected && k in d.engine.orders.orders
    requires var o := d.engine.orders.orders[k];
      !o.status.IsTerminal() && m.orders.orders == d.engine.orders.orders[k := o.(status := PendingCancel)]
    ensures forall i :: 0 <= i < |d.venue.history| ==> Spent(m, d.venue.history[i])
  {
    forall i | 0 <= i < |d.venue.history| ensures Spent(m, d.venue.history[i]) {
      var r := d.venue.history[i];
      assert ReportOk(r, d.engine.orders.orders[r.order]);
      ReportIsSpent(m, r);
    }
  }

  predicate CleanCommand<T>(r: Result<T, PaperError>) {
    r.Err? ==> r.error != LedgerFailed(MoneyOverflow) && r.error != LedgerFailed(LedgerError.InvalidQuantity)
  }

  lemma RefusedCancelAgrees(d: Desk, id: nat, n: Desk)
    requires Agreed(d) && StageCancel(d.engine, id).1.Ok? && !d.venue.connected && n == DeskCancel(d, id).0
    ensures Agreed(n)
  {
    CancelStages(d.engine, id);
    SameBookIsQuiet(d.engine.book);
    AgreedAfterQuiet(d, n, id, d.engine.orders.orders[id].(status := PendingCancel));
  }

  lemma DeskCancelUnfolds(d: Desk, id: nat)
    requires StageCancel(d.engine, id).1.Ok? && VenueCancel(d.venue, id).1.Ok?
    ensures var drained := Drain(Desk(StageCancel(d.engine, id).0, VenueCancel(d.venue, id).0));
      && DeskCancel(d, id).0 == drained.0
      && (CleanCommand(DeskCancel(d, id).1) ==> !Overflowed(drained.1))
  {
  }

  /** n is the venue after pushing exactly this report about order k. */
  ghost predicate PushedOne(v: Venue, n: Venue, k: nat, rep: Report) {
    && Pushed(v, n) && RowsElsewhere(v, n, k) && n.nextExec == v.nextExec
    && n.history == v.history + [rep] && rep.order == k && rep.session == v.session && rep.seqNo == |v.history| + 1
    && !rep.execType.TradeExec?
  }

  /** m is e with order k already moved to p and the cursor where the session ends. */
  ghost predicate MovedFirst(d: Desk, m: EngineState, k: nat, p: Order) {
    var e := d.engine;
    && m == e.(orders := m.orders, cursor := m.cursor)
    && e.orders.nextId <= m.orders.nextId && m.orders.orders == e.orders.orders[k := p]
    && p.seenExecs == (if k in e.orders.orders then e.orders.orders[k].seenExecs else [])
    && m.cursor == Cursor(Some(d.venue.session), |d.venue.history| + 1)
  }

  lemma OneReportMoves(d: Desk, m: EngineState, k: nat, p: Order, rep: Report, event: OrderEvent, o: Order, effect: DomainEffect)
    requires Agreed(d) && MovedFirst(d, m, k, p)
    requires rep.order == k && rep.session == d.venue.session && rep.seqNo == |d.venue.history| + 1
    requires ToOrderEvent(rep) == Ok(Some(event)) && Apply(p, event) == Ok((o, effect)) && !effect.TradeEffect?
    requires o.seenExecs == p.seenExecs && !Overflowed(ApplyReport(m, rep).1)
    ensures var n := ApplyReport(m, rep).0;
      && QuietMove(d.engine, n, k, o) && n.orders.nextId == m.orders.nextId
      && n.cursor.session == Some(d.venue.session) && |d.venue.history| + 1 <= n.cursor.next <= |d.venue.history| + 2
  {
    QuietReport(m, rep, event, o, effect);
    assert m.orders.orders[k := o] == d.engine.orders.orders[k := o];
  }

  lemma OneReportAgrees(d: Desk, n: Desk, k: nat, o: Order, rep: Report)
    requires Agreed(d) && QuietMove(d.engine, n.engine, k, o) && PushedOne(d.venue, n.venue.(outbox := [rep]), k, rep)
    requires n.venue.outbox == []
    requires n.engine.cursor.session == Some(d.venue.session) && 1 <= n.engine.cursor.next <= |d.venue.history| + 2
    requires OrderOk(o, k, n.engine.orders.nextId) && Settled(o) && RowFor(n.venue, k, o) && ReportOk(rep, o)
    requires k in d.engine.orders.orders ==> Continues(d.engine.orders.orders[k], o)
    ensures Agreed(n)
  {
    AgreedAfterQuiet(d, n, k, o);
  }

  function CanceledFrom(o: Order): Order { o.(status := Canceled, pendingQty := None, pendingPrice := None) }

  lemma CanceledShape(o: Order, id: nat, top: nat)
    requires OrderOk(o, id, top) && o.status.IsWorking()
    ensures var p := o.(status := PendingCancel); var c := CanceledFrom(o);
      && Apply(p, CancelConfirmed) == Ok((c, CanceledEffect)) && OrderOk(c, id, top) && Settled(c) && Continues(o, c)
      && c.seenExecs == p.seenExecs == o.seenExecs && AtVenue(o.status) && AtVenue(c.status) && c.cumQty == o.cumQty && c.status.IsTerminal()
  {
  }

  lemma CancelPushes(d: Desk, id: nat)
    requires Agreed(d) && d.venue.connected && id in d.engine.orders.orders && d.engine.orders.orders[id].status.IsWorking()
    ensures var v := d.venue; var (n, r) := VenueCancel(v, id);
      && r.Ok? && |n.history| == |v.history| + 1 && PushedOne(v, n, id, n.history[|v.history|])
      && id in v.inflight && id in n.inflight && n.inflight[id] == v.inflight[id].(canceled := true)
      && n.history[|v.history|].execType == CanceledExec && ReportFits(n.history[|v.history|])
  {
    CancelExtends(d.venue, id);
  }

  lemma ServedCancelAgrees(d: Desk, id: nat)
    requires Agreed(d) && StageCancel(d.engine, id).1.Ok? && d.venue.connected && id in d.engine.orders.orders
    requires CleanCommand(DeskCancel(d, id).1)
    ensures Agreed(DeskCancel(d, id).0)
  {
    CancelStages(d.engine, id);
    CancelPushes(d, id);
    var m, n := StageCancel(d.engine, id).0, VenueCancel(d.venue, id).0;
    DeskCancelUnfolds(d, id);
    SpentWhilePendingCancel(d, m, id);
    CancelDrains(d, m, n, id);
  }

  lemma CancelDrains(d: Desk, m: EngineState, n: Venue, id: nat)
    requires Agreed(d) && id in d.engine.orders.orders && d.engine.orders.orders[id].status.IsWorking()
    requires m == d.engine.(orders := m.orders) && m.orders.nextId == d.engine.orders.nextId
    requires m.orders.orders == d.engine.orders.orders[id := d.engine.orders.orders[id].(status := PendingCancel)]
    requires |n.history| == |d.venue.history| + 1 && PushedOne(d.venue, n, id, n.history[|d.venue.history|])
    requires n.history[|d.venue.history|].execType == CanceledExec && ReportFits(n.history[|d.venue.history|])
    requires id in d.venue.inflight && id in n.inflight && n.inflight[id] == d.venue.inflight[id].(canceled := true)
    requires forall i :: 0 <= i < |d.venue.history| ==> Spent(m, d.venue.history[i])
    requires !Overflowed(Drain(Desk(m, n)).1)
    ensures Agreed(Drain(Desk(m, n)).0)
  {
    var o := d.engine.orders.orders[id];
    var rep := n.history[|d.venue.history|];
    var ready := At(m, d.venue.session, |d.venue.history| + 1);
    DrainOne(m, d.venue, n, rep);
    CanceledShape(o, id, d.engine.orders.nextId);
    OneReportMoves(d, ready, id, o.(status := PendingCancel), rep, CancelConfirmed, CanceledFrom(o), CanceledEffect);
    StillPushed(d.venue, n, id, rep);
    OneReportAgrees(d, Drain(Desk(m, n)).0, id, CanceledFrom(o), rep);
  }

  lemma StillPushed(v: Venue, n: Venue, k: nat, rep: Report)
    requires PushedOne(v, n, k, rep)
    ensures n.(outbox := []).(outbox := [rep]) == n
  {
    assert n.outbox == n.outbox[|v.outbox|..] == n.history[|v.history|..] == [rep];
  }

  lemma DrainOne(m: EngineState, v: Venue, n: Venue, rep: Report)
    requires Pushed(v, n) && CursorOk(m.cursor, v) && n.history == v.history + [rep]
    requires forall i :: 0 <= i < |v.history| ==> Spent(m, v.history[i])
    ensures var (e1, r) := ApplyReport(At(m, v.session, |v.history| + 1), rep);
      Drain(Desk(m, n)) == (Desk(e1, n.(outbox := [])), r)
  {
    DrainNewOnly(m, v, n);
    assert n.history[|v.history|..] == [rep];
    ApplyOne(At(m, v.session, |v.history| + 1), rep);
  }

  lemma CancelAgrees(d: Desk, id: nat)
    requires Agreed(d) && CleanCommand(DeskCancel(d, id).1)
    ensures Agreed(DeskCancel(d, id).0)
  {
    if StageCancel(d.engine, id).1.Ok? {
      if d.venue.connected { ServedCancelAgrees(d, id); } else { RefusedCancelAgrees(d, id, DeskCancel(d, id).0); }
    } else {
      assert DeskCancel(d, id).0 == d;
    }
  }
}

/** Draining a numbered session never meets a sequence gap, whatever the reports do to the orders. */
module Draining {
  import opened Base
  import opened Ledger
  import opened Orders
  import opened OrderStores
  import opened PaperBooks
  import opened Instruments
  import opened Execution
  import opened Risk
  import opened Notionals
  import opened Sandbox
  import opened Delivery
  import opened Engine
  import opened Agreement

  const SEQ_GAP := VenueFailed(InvalidState("seq gap"))

  /** Effects leave the cursor and the risk state alone, and fail for no venue reason. */
  predicate Aside(e: EngineState, out: (EngineState, Outcome)) {
    out.0.cursor == e.cursor && out.0.risk == e.risk && (out.1.Err? ==> !out.1.error.VenueFailed?)
  }

  lemma ReleaseAside(e: EngineState, o: Order)
    ensures Aside(e, ReleaseRemaining(e, o))
  {
    assert Aside(e, ReleaseCash(e, o));
  }

  lemma SettleAside(e: EngineState, o: Order, exec: string, qty: int, value: Money, filled: bool)
    ensures Aside(e, SettleAndRelease(e, o, exec, qty, value, filled))
  {
    var m := SettleFill(e, o, exec, qty, value).0;
    if o.side.Buy? { BuyAside(e, o, exec, qty, value); } else { SellAside(e, o, exec, qty, value); }
    ReleaseAside(m, o);
  }

  lemma BuyAside(e: EngineState, o: Order, exec: string, qty: int, value: Money)
    ensures Aside(e, SettleBuyFill(e, o, exec, qty, value))
  {
  }

  lemma SellAside(e: EngineState, o: Order, exec: string, qty: int, value: Money)
    ensures Aside(e, SettleSellFill(e, o, exec, qty, value))
  {
  }

  lemma NotionalAside(i: Instrument, price: int, qty: int)
    ensures Notional(i, price, qty).Err? ==> !Notional(i, price, qty).error.VenueFailed?
  {
  }

  lemma TradeAside(e: EngineState, o: Order, exec: string, qty: int, price: int, filled: bool)
    ensures Aside(e, TradeEffects(e, o, exec, qty, price, filled))
  {
    if o.instrument in e.master {
      NotionalAside(e.master[o.instrument], price, qty);
      match Notional(e.master[o.instrument], price, qty)
      case Err(_) =>
      case Ok(value) =>
        var e1 := e.(trades := e.trades + [TradeSnapshot(o.id, exec, qty, price, e.cursor.session.GetOr(0), e.cursor.next)]);
        SettleAside(e1, o, exec, qty, value, filled);
    }
  }

  lemma ReplacedBuyAside(e: EngineState, o: Order, i: Instrument, price: int)
    ensures Aside(e, ReplacedBuy(e, o, i, price))
  {
    NotionalAside(i, price, o.leavesQty);
  }

  lemma ReplacedSellAside(e: EngineState, o: Order)
    ensures Aside(e, ReplacedSell(e, o))
  {
  }

  lemma EffectAside(e: EngineState, o: Order, effect: DomainEffect)
    ensures Aside(e, ApplyEffect(e, o, effect))
  {
    match effect
    case TradeEffect(exec, qty, price, filled) => TradeAside(e, o, exec, qty, price, filled);
    case RejectedEffect(_) => ReleaseAside(e, o);
    case CanceledEffect => ReleaseAside(e, o);
    case ExpiredEffect => ReleaseAside(e, o);
    case ReplacedEffect(_, price) =>
      if o.instrument in e.master {
        if o.side.Buy? { ReplacedBuyAside(e, o, e.master[o.instrument], price); } else { ReplacedSellAside(e, o); }
      }
    case _ =>
  }

  /** A report at the cursor: a success moves the cursor by one, a failure leaves it, and neither is a gap. */
  predicate StepsOne(e: EngineState, r: Report, out: (EngineState, Outcome)) {
    && out.0.risk == e.risk && out.1 != Err(SEQ_GAP)
    && out.0.cursor == (if out.1.Ok? then Cursor(Some(r.session), r.seqNo + 1) else e.cursor)
  }

  lemma ReportStepsOne(e: EngineState, r: Report)
    requires e.cursor == Cursor(Some(r.session), r.seqNo)
    ensures StepsOne(e, r, ApplyReport(e, r))
  {
    match ToOrderEvent(r)
    case Ok(Some(event)) =>
      var (orders, applied) := ApplyTo(e.orders, r.order, event);
      if applied.Ok? { EffectAside(e.(orders := orders), applied.value.0, applied.value.1); }
    case _ =>
  }

  lemma {:induction false} StepsThrough(take: (EngineState, Report) -> (EngineState, Outcome), e: EngineState, reports: seq<Report>, session: nat)
    requires e.cursor.session == Some(session) && NumberedFrom(reports, session, e.cursor.next)
    requires forall s: EngineState, r: Report :: s.cursor == Cursor(Some(r.session), r.seqNo) ==> StepsOne(s, r, take(s, r))
    ensures var (f, out) := TakeInOrder(take, e, reports);
      && f.risk == e.risk && out != Err(SEQ_GAP)
      && f.cursor.session == Some(session) && e.cursor.next <= f.cursor.next <= e.cursor.next + |reports|
      && (out.Ok? ==> f.cursor.next == e.cursor.next + |reports|)
    decreases |reports|
  {
    if reports != [] {
      assert reports[0].session == session && reports[0].seqNo == e.cursor.next;
      var (m, out) := take(e, reports[0]);
      assert StepsOne(e, reports[0], (m, out));
      if out.Ok? {
        var rest := reports[1..];
        forall i | 0 <= i < |rest| ensures rest[i].session == session && rest[i].seqNo == m.cursor.next + i { assert rest[i] == reports[i + 1]; }
        StepsThrough(take, m, rest, session);
      }
    }
  }

  lemma DrainLost(d: Desk, k: nat)
    requires Numbered(d.venue) && !d.venue.connected && k < |d.venue.history| && d.venue.outbox == d.venue.history[k..]
    requires CursorOk(d.engine.cursor, d.venue) && ReadFrom(d.engine.cursor, d.venue) <= k
    ensures Drain(d) == (Desk(At(d.engine, d.venue.session, ReadFrom(d.engine.cursor, d.venue)), d.venue.(outbox := [])),
                         Err(VenueFailed(Disconnected)))
  {
    DeliversFromCursor(d.engine.cursor, Poll(d.venue).0, k);
  }

  lemma DrainRead(d: Desk, k: nat)
    requires Numbered(d.venue) && k < |d.venue.history| && d.venue.outbox == d.venue.history[k..]
    requires CursorOk(d.engine.cursor, d.venue) && (d.venue.connected || k + 1 <= ReadFrom(d.engine.cursor, d.venue))
    ensures var at := ReadFrom(d.engine.cursor, d.venue);
      var (e, r) := ApplyReports(At(d.engine, d.venue.session, at), d.venue.history[at - 1..]);
      Drain(d) == (Desk(e, d.venue.(outbox := [])), r)
  {
    var v, at := d.venue, ReadFrom(d.engine.cursor, d.venue);
    DeliversFromCursor(d.engine.cursor, Poll(v).0, k);
    DrainOf(d.engine, v, v.session, at, v.history[at - 1..]);
  }

  lemma ReportsStepThrough(e: EngineState, batch: seq<Report>, session: nat)
    requires e.cursor.session == Some(session) && NumberedFrom(batch, session, e.cursor.next)
    ensures var (f, out) := ApplyReports(e, batch);
      f.risk == e.risk && out != Err(SEQ_GAP) && (out.Ok? ==> f.cursor == Cursor(Some(session), e.cursor.next + |batch|))
  {
    forall s: EngineState, r: Report | s.cursor == Cursor(Some(r.session), r.seqNo) ensures StepsOne(s, r, ApplyReport(s, r)) {
      ReportStepsOne(s, r);
    }
    StepsThrough(ApplyReport, e, batch, session);
  }

  /** What a drain does after a poll that returned a nonempty suffix of the session's journal: it applies
      the reports from its cursor on, unless earlier ones are missing and the venue is offline. */
  lemma DrainAppliesFromCursor(d: Desk, k: nat)
    requires Numbered(d.venue) && k < |d.venue.history| && d.venue.outbox == d.venue.history[k..]
    requires CursorOk(d.engine.cursor, d.venue)
    ensures var at := ReadFrom(d.engine.cursor, d.venue); var v := d.venue.(outbox := []);
      Drain(d) == if d.venue.connected || k + 1 <= at
        then (var (e, r) := ApplyReports(At(d.engine, d.venue.session, at), d.venue.history[at - 1..]); (Desk(e, v), r))
        else (Desk(At(d.engine, d.venue.session, at), v), Err(VenueFailed(Disconnected)))
  {
    if d.venue.connected || k + 1 <= ReadFrom(d.engine.cursor, d.venue) { DrainRead(d, k); } else { DrainLost(d, k); }
  }

  /** Whatever suffix the poll returned and whether or not the venue is connected, draining never turns
      the kill switch on for a gap, and when nothing fails it ends just past the journal. */
  lemma DrainNeverSeesGap(d: Desk, k: nat)
    requires Numbered(d.venue) && k < |d.venue.history| && d.venue.outbox == d.venue.history[k..]
    requires CursorOk(d.engine.cursor, d.venue)
    ensures var (n, r) := Drain(d);
      && r != Err(SEQ_GAP) && n.engine.risk == d.engine.risk
      && (r.Ok? ==> n.engine.cursor == Cursor(Some(d.venue.session), |d.venue.history| + 1))
  {
    DrainAppliesFromCursor(d, k);
    var v, at := d.venue, ReadFrom(d.engine.cursor, d.venue);
    var batch := v.history[at - 1..];
    forall i | 0 <= i < |batch| ensures batch[i].session == v.session && batch[i].seqNo == at + i { assert batch[i] == v.history[at - 1 + i]; }
    ReportsStepThrough(At(d.engine, v.session, at), batch, v.session);
  }
}

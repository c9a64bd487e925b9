/** The replace command keeps orders, venue and ledger in agreement. */
module AgreementReplace {
  import opened Base
  import opened Ledger
  import opened Orders
  import opened OrderStores
  import opened PaperBooks
  import opened Instruments
  import opened Execution
  import opened Risk
  import opened Notionals
  import opened Sandbox
  import opened Delivery
  import opened Engine
  import opened Reserves
  import opened ReserveRuns
  import opened QuietBooks
  import opened Agreement
  import opened AgreementSteps

  predicate IsReplacedOf(r: Report, id: nat) { r.order == id && r.execType.ReplacedExec? }

  /** The first confirmed replace of the order in the batch, or the batch's length. */
  function FirstReplaced(reports: seq<Report>, id: nat): (j: nat)
    ensures j <= |reports| && (forall i :: 0 <= i < j ==> !IsReplacedOf(reports[i], id))
    ensures j < |reports| ==> IsReplacedOf(reports[j], id)
  {
    if reports == [] then 0
    else if IsReplacedOf(reports[0], id) then 0
    else
      var j := FirstReplaced(reports[1..], id);
      assert forall i :: 1 <= i < j + 1 ==> reports[i] == reports[1..][i - 1];
      j + 1
  }

  /** Every order but k is settled, and each report of the batch is one its order has taken. */
  ghost predicate OnlyPending(m: EngineState, batch: seq<Report>, k: nat) {
    && (forall id :: id in m.orders.orders && id != k ==> Settled(m.orders.orders[id]))
    && (forall i :: 0 <= i < |batch| ==>
          batch[i].order in m.orders.orders && ReportOk(batch[i], m.orders.orders[batch[i].order]))
  }

  function ReplacedFrom(p: Order, r: Report): Order {
    p.(orderQty := r.qty, price := r.price, leavesQty := r.qty - p.cumQty, pendingQty := None, pendingPrice := None, status := New)
  }

  lemma ReplacedShape(p: Order, id: nat, top: nat, r: Report)
    requires OrderOk(p, id, top) && p.status.PendingReplace? && IsReplacedOf(r, id) && ReportOk(r, p)
    ensures var o := ReplacedFrom(p, r);
      && Apply(p, Replaced(r.qty, r.price)) == Ok((o, ReplacedEffect(r.qty, r.price)))
      && OrderOk(o, id, top) && Settled(o) && o.seenExecs == p.seenExecs && o.cumQty == p.cumQty && AtVenue(o.status)
      && ToOrderEvent(r) == Ok(Some(Replaced(r.qty, r.price)))
  {
  }

  lemma SpentPrefix(m: EngineState, batch: seq<Report>, k: nat, upto: nat)
    requires OnlyPending(m, batch, k) && k in m.orders.orders && upto <= |batch|
    requires !m.orders.orders[k].status.IsTerminal() && !m.orders.orders[k].status.PendingCancel?
    requires forall i :: 0 <= i < upto ==> !IsReplacedOf(batch[i], k)
    ensures forall i :: 0 <= i < upto ==> Spent(m, batch[i])
  {
    forall i | 0 <= i < upto ensures Spent(m, batch[i]) { ReportIsSpent(m, batch[i]); }
  }

  lemma SpentRest(e: EngineState, m: EngineState, batch: seq<Report>, k: nat, o: Order, start: nat)
    requires OnlyPending(m, batch, k) && k in m.orders.orders && e.orders.orders == m.orders.orders[k := o]
    requires Settled(o) && Continues(m.orders.orders[k], o) && start <= |batch|
    ensures forall i :: start <= i < |batch| ==> Spent(e, batch[i])
  {
    forall i | start <= i < |batch| ensures Spent(e, batch[i]) { ReportIsSpent(e, batch[i]); }
  }

  lemma ApplyAt(e: EngineState, batch: seq<Report>, j: nat)
    requires j < |batch|
    ensures var (e1, out) := ApplyReport(e, batch[j]);
      ApplyReports(e, batch[j..]) == if out.Err? then (e1, out) else ApplyReports(e1, batch[j + 1..])
  {
    assert batch[j..][0] == batch[j] && batch[j..][1..] == batch[j + 1..];
  }

  lemma AllSpent(e: EngineState, batch: seq<Report>, session: nat, n: nat)
    requires e.cursor == Cursor(Some(session), n) && NumberedFrom(batch, session, n)
    requires forall i :: 0 <= i < |batch| ==> Spent(e, batch[i])
    ensures ApplyReports(e, batch) == (At(e, session, n + |batch|), Ok(()))
  {
    SpentSkips(e, batch, |batch|, session, n);
    assert batch[|batch|..] == [];
  }

  lemma FirstReplacedApplies(m: EngineState, r: Report, k: nat, out: Outcome)
    requires m.cursor == Cursor(Some(r.session), r.seqNo) && IsReplacedOf(r, k) && BookOk(m.book)
    requires k in m.orders.orders && OrderOk(m.orders.orders[k], k, m.orders.nextId) && m.orders.orders[k].status.PendingReplace?
    requires ReportOk(r, m.orders.orders[k]) && out == ApplyReport(m, r).1 && !Overflowed(out)
    ensures var e1 := ApplyReport(m, r).0;
      && QuietMove(m, e1, k, ReplacedFrom(m.orders.orders[k], r)) && e1.orders.nextId == m.orders.nextId
      && e1.cursor.session == Some(r.session) && r.seqNo <= e1.cursor.next <= r.seqNo + 1
      && (out.Ok? ==> e1.cursor.next == r.seqNo + 1)
  {
    ReplacedShape(m.orders.orders[k], k, m.orders.nextId, r);
    QuietReport(m, r, Replaced(r.qty, r.price), ReplacedFrom(m.orders.orders[k], r), ReplacedEffect(r.qty, r.price));
  }

  lemma RestOfBatch(m: EngineState, e1: EngineState, batch: seq<Report>, start: nat, k: nat, o: Order, session: nat, n: nat)
    requires OnlyPending(m, batch, k) && k in m.orders.orders && QuietMove(m, e1, k, o) && e1.orders.nextId == m.orders.nextId
    requires Settled(o) && Continues(m.orders.orders[k], o) && start <= |batch|
    requires e1.cursor == Cursor(Some(session), n + start) && NumberedFrom(batch, session, n)
    ensures var f := ApplyReports(e1, batch[start..]).0;
      && QuietMove(m, f, k, o) && f.orders.nextId == m.orders.nextId && f.cursor == Cursor(Some(session), n + |batch|)
  {
    SpentRest(e1, m, batch, k, o, start);
    AllSpent(e1, batch[start..], session, n + start);
  }

  /** What the batch comes to: the first confirmed replace of k takes effect, everything else is spent. */
  lemma ReplaceBatch(m: EngineState, batch: seq<Report>, k: nat, session: nat, n: nat)
    requires m.cursor == Cursor(Some(session), n) && NumberedFrom(batch, session, n)
    requires OnlyPending(m, batch, k) && k in m.orders.orders && m.orders.orders[k].status.PendingReplace?
    requires OrderOk(m.orders.orders[k], k, m.orders.nextId) && BookOk(m.book)
    requires FirstReplaced(batch, k) < |batch| && !Overflowed(ApplyReports(m, batch).1)
    ensures var o := ReplacedFrom(m.orders.orders[k], batch[FirstReplaced(batch, k)]);
      var e1 := ApplyReports(m, batch).0;
      && QuietMove(m, e1, k, o) && e1.orders.nextId == m.orders.nextId
      && e1.cursor.session == Some(session) && n <= e1.cursor.next <= n + |batch|
  {
    var j := FirstReplaced(batch, k);
    SpentPrefix(m, batch, k, j);
    SpentSkips(m, batch, j, session, n);
    var ready := At(m, session, n + j);
    var (e1, out) := ApplyReport(ready, batch[j]);
    ApplyAt(ready, batch, j);
    FirstReplacedApplies(ready, batch[j], k, out);
    ReplacedShape(m.orders.orders[k], k, m.orders.nextId, batch[j]);
    if out.Ok? { RestOfBatch(m, e1, batch, j + 1, k, ReplacedFrom(m.orders.orders[k], batch[j]), session, n); }
  }

  // ----- the command

  /** The engine's ledger side moved quietly and nothing else did. */
  lemma EngineOnlyAgrees(d: Desk, n: EngineState)
    requires Agreed(d) && n.orders.orders == d.engine.orders.orders && d.engine.orders.nextId <= n.orders.nextId
    requires QuietStep(d.engine.book, n.book) && n.master == d.engine.master && n.cursor == d.engine.cursor
    ensures Agreed(Desk(n, d.venue))
  {
  }

  function AskedFrom(o: Order, req: ReplaceRequest): Order {
    o.(pendingQty := Some(req.qty), pendingPrice := Some(req.price), status := PendingReplace)
  }

  lemma AskShape(s: Store, o: Order, id: nat, req: ReplaceRequest, top: nat)
    requires id in s.orders && s.orders[id] == o && OrderOk(o, id, top) && FitsI64(req.qty) && FitsI64(req.price)
    ensures var (n, asked) := ApplyTo(s, id, ReplaceRequested(req.qty, req.price));
      && n.nextId == s.nextId
      && (asked.Err? ==> n == s)
      && (asked.Ok? ==>
            && n.orders == s.orders[id := AskedFrom(o, req)] && OrderOk(AskedFrom(o, req), id, top)
            && o.status.IsWorking() && o.cumQty == 0 && req.qty > 0 && req.price > 0)
  {
  }

  lemma ReplaceStages(e: EngineState, req: ReplaceRequest)
    requires BookOk(e.book) && !Overflowed(StageReplace(e, req).1)
    requires req.order in e.orders.orders ==> OrderOk(e.orders.orders[req.order], req.order, e.orders.nextId)
    requires FitsI64(req.qty) && FitsI64(req.price)
    ensures var (m, r) := StageReplace(e, req);
      && QuietStep(e.book, m.book) && m.master == e.master && m.cursor == e.cursor && m.orders.nextId == e.orders.nextId
      && (r.Err? ==> m.orders == e.orders)
      && (r.Ok? ==>
            && req.order in e.orders.orders && req.qty > 0 && req.price > 0
            && var o := e.orders.orders[req.order];
               && o.status.IsWorking() && o.cumQty == 0 && m.orders.orders == e.orders.orders[req.order := AskedFrom(o, req)]
               && OrderOk(AskedFrom(o, req), req.order, e.orders.nextId))
  {
    StageReplaceUnfolds(e, req);
    if ReachesTopUp(e, req) {
      var o := e.orders.orders[req.order];
      TopUpQuiet(e, o, e.master[o.instrument], req);
      AskShape(e.orders, o, req.order, req, e.orders.nextId);
    } else {
      SameBookIsQuiet(e.book);
    }
  }

  lemma ReplacePushes(d: Desk, req: ReplaceRequest)
    requires Agreed(d) && d.venue.connected && req.order in d.engine.orders.orders
    requires d.engine.orders.orders[req.order].status.IsWorking() && d.engine.orders.orders[req.order].cumQty == 0
    requires 0 < req.qty <= I64_MAX && 0 < req.price <= I64_MAX
    ensures var v := d.venue; var id := req.order; var (n, r) := VenueReplace(v, id, req.qty, req.price);
      && r.Ok? && |n.history| == |v.history| + 1 && PushedOne(v, n, id, n.history[|v.history|])
      && id in v.inflight && id in n.inflight && n.inflight[id] == v.inflight[id].(orderQty := req.qty, price := req.price)
      && IsReplacedOf(n.history[|v.history|], id) && ReportFits(n.history[|v.history|])
      && n.history[|v.history|].qty == req.qty && n.history[|v.history|].price == req.price
  {
    ReplaceExtends(d.venue, req.order, req.qty, req.price);
  }

  lemma DeskReplaceUnfolds(d: Desk, req: ReplaceRequest)
    ensures var (m, r) := StageReplace(d.engine, req);
      var called := VenueReplace(d.venue, req.order, req.qty, req.price);
      var drained := Drain(Desk(m, called.0));
      && (r.Err? ==> DeskReplace(d, req).0 == Desk(m, d.venue) && DeskReplace(d, req).1 == Err(r.error))
      && (r.Ok? && called.1.Err? ==> DeskReplace(d, req).0 == Desk(VenueRefused(m, called.1.error), called.0))
      && (r.Ok? && called.1.Ok? ==>
            DeskReplace(d, req).0 == drained.0 && (CleanCommand(DeskReplace(d, req).1) ==> !Overflowed(drained.1)))
  {
  }

  /** m is the engine of d after a replace was asked for. */
  ghost predicate AskedIn(d: Desk, m: EngineState, req: ReplaceRequest) {
    && QuietStep(d.engine.book, m.book) && m.master == d.engine.master && m.cursor == d.engine.cursor
    && m.orders.nextId == d.engine.orders.nextId && req.order in d.engine.orders.orders && req.qty > 0 && req.price > 0
    && var o := d.engine.orders.orders[req.order];
       && o.status.IsWorking() && o.cumQty == 0 && m.orders.orders == d.engine.orders.orders[req.order := AskedFrom(o, req)]
       && OrderOk(AskedFrom(o, req), req.order, d.engine.orders.nextId)
  }

  lemma AskedOfflineAgrees(d: Desk, m: EngineState, req: ReplaceRequest)
    requires Agreed(d) && !d.venue.connected && AskedIn(d, m, req)
    ensures Agreed(Desk(KillSwitchOn(m), d.venue))
  {
    AgreedAfterQuiet(d, Desk(KillSwitchOn(m), d.venue), req.order, AskedFrom(d.engine.orders.orders[req.order], req));
  }

  lemma RefusedReplaceAgrees(d: Desk, req: ReplaceRequest, n: Desk)
    requires Agreed(d) && !d.venue.connected && FitsI64(req.qty) && FitsI64(req.price)
    requires StageReplace(d.engine, req).1.Ok? && n == DeskReplace(d, req).0
    ensures Agreed(n)
  {
    var m := StageReplace(d.engine, req).0;
    ReplaceStages(d.engine, req);
    assert AskedIn(d, m, req);
    AskedOfflineAgrees(d, m, req);
    DeskReplaceUnfolds(d, req);
  }

  lemma BatchNumbered(v: Venue, c: Cursor, n: Venue, id: nat, rep: Report)
    requires Numbered(v) && CursorOk(c, v) && PushedOne(v, n, id, rep)
    ensures var k := ReadFrom(c, v);
      var batch := v.history[k - 1..] + n.history[|v.history|..];
      && batch == n.history[k - 1..] && NumberedFrom(batch, v.session, k)
      && batch != [] && batch[|batch| - 1] == rep && k + |batch| == |v.history| + 2
  {
    var k := ReadFrom(c, v);
    var batch := v.history[k - 1..] + n.history[|v.history|..];
    assert batch == n.history[k - 1..];
    forall i | 0 <= i < |batch| ensures batch[i].session == v.session && batch[i].seqNo == k + i {
      assert batch[i] == n.history[k - 1 + i];
    }
  }

  lemma HistoryOnlyPending(d: Desk, m: EngineState, history: seq<Report>, from: nat, id: nat, p: Order, rep: Report)
    requires Agreed(d) && d.venue.connected && id in d.engine.orders.orders && m.orders.orders == d.engine.orders.orders[id := p]
    requires Continues(d.engine.orders.orders[id], p) && rep.order == id && ReportOk(rep, p)
    requires history == d.venue.history + [rep] && from <= |history|
    ensures OnlyPending(m, history[from..], id)
  {
    forall i | from <= i < |history| ensures history[i].order in m.orders.orders && ReportOk(history[i], m.orders.orders[history[i].order]) {
      if i < |d.venue.history| {
        var r := d.venue.history[i];
        assert history[i] == r && ReportOk(r, d.engine.orders.orders[r.order]);
      }
    }
  }

  lemma SomeReplaced(batch: seq<Report>, id: nat)
    requires batch != [] && IsReplacedOf(batch[|batch| - 1], id)
    ensures FirstReplaced(batch, id) < |batch|
  {
  }

  ghost predicate DrainedTo(v: Venue, f: EngineState, m: EngineState, id: nat, o: Order) {
    && QuietMove(m, f, id, o) && f.orders.nextId == m.orders.nextId
    && f.cursor.session == Some(v.session) && 1 <= f.cursor.next <= |v.history| + 2
  }

  lemma DrainedFromAt(v: Venue, f: EngineState, m: EngineState, session: nat, k: nat, id: nat, o: Order)
    requires DrainedTo(v, f, At(m, session, k), id, o)
    ensures DrainedTo(v, f, m, id, o)
  {
  }

  /** Draining after the venue confirmed the replace: the first confirmation not yet read is the one
      that takes effect. */
  lemma ReplaceDrains(m: EngineState, v: Venue, n: Venue, id: nat, p: Order, rep: Report) returns (first: Report)
    requires PushedOne(v, n, id, rep) && CursorOk(m.cursor, v)
    requires OnlyPending(m, n.history[ReadFrom(m.cursor, v) - 1..], id) && IsReplacedOf(rep, id)
    requires id in m.orders.orders && m.orders.orders[id] == p && OrderOk(p, id, m.orders.nextId) && p.status.PendingReplace?
    requires BookOk(m.book) && !Overflowed(Drain(Desk(m, n)).1)
    ensures IsReplacedOf(first, id) && ReportOk(first, p)
    ensures DrainedTo(v, Drain(Desk(m, n)).0.engine, m, id, ReplacedFrom(p, first))
    ensures Drain(Desk(m, n)).0.venue == n.(outbox := [])
  {
    var k := ReadFrom(m.cursor, v);
    DrainUnfolds(m, v, n);
    BatchNumbered(v, m.cursor, n, id, rep);
    first := BatchDrains(m, v, n.history[k - 1..], id, p, rep, k);
    DrainedFromAt(v, ApplyReports(At(m, v.session, k), n.history[k - 1..]).0, m, v.session, k, id, ReplacedFrom(p, first));
  }

  lemma BatchDrains(m: EngineState, v: Venue, batch: seq<Report>, id: nat, p: Order, rep: Report, k: nat) returns (first: Report)
    requires OnlyPending(m, batch, id) && IsReplacedOf(rep, id) && NumberedFrom(batch, v.session, k)
    requires batch != [] && batch[|batch| - 1] == rep && k >= 1 && k + |batch| == |v.history| + 2
    requires id in m.orders.orders && m.orders.orders[id] == p && OrderOk(p, id, m.orders.nextId) && p.status.PendingReplace?
    requires BookOk(m.book) && !Overflowed(ApplyReports(At(m, v.session, k), batch).1)
    ensures IsReplacedOf(first, id) && ReportOk(first, p)
    ensures DrainedTo(v, ApplyReports(At(m, v.session, k), batch).0, At(m, v.session, k), id, ReplacedFrom(p, first))
  {
    SomeReplaced(batch, id);
    ReplaceBatch(At(m, v.session, k), batch, id, v.session, k);
    first := batch[FirstReplaced(batch, id)];
  }

  lemma QuietMoveAfter(e: EngineState, m: EngineState, f: EngineState, id: nat, o: Order)
    requires id in e.orders.orders && id in m.orders.orders && m.orders.orders == e.orders.orders[id := m.orders.orders[id]]
    requires m.orders.orders[id].seenExecs == e.orders.orders[id].seenExecs && m.orders.nextId == e.orders.nextId
    requires m.master == e.master && QuietStep(e.book, m.book) && QuietMove(m, f, id, o)
    ensures QuietMove(e, f, id, o)
  {
    assert m.orders.orders[id := o] == e.orders.orders[id := o];
    QuietThen(e.book, m.book, f.book);
  }

  /** What the venue did for the replace. */
  ghost predicate VenueReplaced(v: Venue, n: Venue, req: ReplaceRequest, rep: Report) {
    && PushedOne(v, n, req.order, rep) && IsReplacedOf(rep, req.order) && ReportFits(rep) && rep.qty > 0 && rep.price > 0
    && req.order in v.inflight && req.order in n.inflight && 0 < req.qty <= I64_MAX && FitsI64(req.price)
    && n.inflight[req.order] == v.inflight[req.order].(orderQty := req.qty, price := req.price)
  }

  /** What the engine did before the venue call. */
  ghost predicate EngineAsked(e: EngineState, m: EngineState, req: ReplaceRequest) {
    && req.order in e.orders.orders && m.orders.nextId == e.orders.nextId
    && QuietStep(e.book, m.book) && m.master == e.master && m.cursor == e.cursor
    && var o := e.orders.orders[req.order];
       && o.status.IsWorking() && o.cumQty == 0 && OrderOk(AskedFrom(o, req), req.order, e.orders.nextId)
       && m.orders.orders == e.orders.orders[req.order := AskedFrom(o, req)]
  }

  lemma ReplacedAgrees(d: Desk, m: EngineState, f: EngineState, n: Venue, req: ReplaceRequest, rep: Report, first: Report)
    requires Agreed(d) && EngineAsked(d.engine, m, req) && VenueReplaced(d.venue, n, req, rep)
    requires var p := AskedFrom(d.engine.orders.orders[req.order], req);
      IsReplacedOf(first, req.order) && ReportOk(first, p) && DrainedTo(d.venue, f, m, req.order, ReplacedFrom(p, first))
    ensures Agreed(Desk(f, n.(outbox := [])))
  {
    var id, o := req.order, d.engine.orders.orders[req.order];
    var p := AskedFrom(o, req);
    ReplacedShape(p, id, d.engine.orders.nextId, first);
    QuietMoveAfter(d.engine, m, f, id, ReplacedFrom(p, first));
    StillPushed(d.venue, n, id, rep);
    OneReportAgrees(d, Desk(f, n.(outbox := [])), id, ReplacedFrom(p, first), rep);
  }

  lemma AskedOnlyPending(d: Desk, m: EngineState, n: Venue, req: ReplaceRequest, rep: Report)
    requires Agreed(d) && d.venue.connected && EngineAsked(d.engine, m, req) && VenueReplaced(d.venue, n, req, rep)
    ensures OnlyPending(m, n.history[ReadFrom(m.cursor, d.venue) - 1..], req.order)
  {
    HistoryOnlyPending(d, m, n.history, ReadFrom(m.cursor, d.venue) - 1, req.order, AskedFrom(d.engine.orders.orders[req.order], req), rep);
  }

  lemma AskedDrainAgrees(d: Desk, m: EngineState, n: Venue, req: ReplaceRequest, rep: Report)
    requires Agreed(d) && d.venue.connected && EngineAsked(d.engine, m, req) && VenueReplaced(d.venue, n, req, rep)
    requires !Overflowed(Drain(Desk(m, n)).1)
    ensures Agreed(Drain(Desk(m, n)).0)
  {
    AskedOnlyPending(d, m, n, req, rep);
    var first := ReplaceDrains(m, d.venue, n, req.order, AskedFrom(d.engine.orders.orders[req.order], req), rep);
    ReplacedAgrees(d, m, Drain(Desk(m, n)).0.engine, n, req, rep, first);
  }

  /** Engine and venue both moved for the replace. */
  lemma AskedAndReplaced(d: Desk, req: ReplaceRequest) returns (m: EngineState, n: Venue, rep: Report)
    requires Agreed(d) && d.venue.connected && FitsI64(req.qty) && FitsI64(req.price)
    requires StageReplace(d.engine, req).1.Ok?
    ensures m == StageReplace(d.engine, req).0 && VenueReplace(d.venue, req.order, req.qty, req.price).1.Ok?
    ensures n == VenueReplace(d.venue, req.order, req.qty, req.price).0
    ensures EngineAsked(d.engine, m, req) && VenueReplaced(d.venue, n, req, rep)
  {
    ReplaceStages(d.engine, req);
    ReplacePushes(d, req);
    m, n := StageReplace(d.engine, req).0, VenueReplace(d.venue, req.order, req.qty, req.price).0;
    rep := n.history[|d.venue.history|];
  }

  lemma ServedReplaceAgrees(d: Desk, req: ReplaceRequest)
    requires Agreed(d) && d.venue.connected && FitsI64(req.qty) && FitsI64(req.price)
    requires StageReplace(d.engine, req).1.Ok? && CleanCommand(DeskReplace(d, req).1)
    ensures Agreed(DeskReplace(d, req).0)
  {
    var m, n, rep := AskedAndReplaced(d, req);
    DeskReplaceUnfolds(d, req);
    AskedDrainAgrees(d, m, n, req, rep);
  }

  lemma ReplaceAgrees(d: Desk, req: ReplaceRequest)
    requires Agreed(d) && FitsI64(req.qty) && FitsI64(req.price) && CleanCommand(DeskReplace(d, req).1)
    ensures Agreed(DeskReplace(d, req).0)
  {
    if StageReplace(d.engine, req).1.Err? {
      DeskReplaceUnfolds(d, req);
      ReplaceStages(d.engine, req);
      EngineOnlyAgrees(d, StageReplace(d.engine, req).0);
    } else if d.venue.connected {
      ServedReplaceAgrees(d, req);
    } else {
      RefusedReplaceAgrees(d, req, DeskReplace(d, req).0);
    }
  }
}

/** Where the one top-up key of an order bites: a second draw moves no cash. */
module RepeatedTopUp {
  import opened Base
  import opened Ledger
  import opened Orders
  import opened OrderStores
  import opened PaperBooks
  import opened Instruments
  import opened Execution
  import opened Risk
  import opened Notionals
  import opened Delivery
  import opened Engine
  import opened Reserves
  import opened ReserveSteps
  import opened ReserveRuns

  /** The replace will draw cash: it needs more than is held and the account can pay. */
  predicate DrawsCash(e: EngineState, req: ReplaceRequest) {
    && ReachesTopUp(e, req)
    && var o := e.orders.orders[req.order]; var i := e.master[o.instrument];
       && o.side.Buy? && Notional(i, req.price, req.qty - o.cumQty).Ok?
       && 0 < Notional(i, req.price, req.qty - o.cumQty).value.minor - HeldCash(e, o.id) <= e.book.Available(o.account, i.quote)
  }

  predicate TopUpKeyUsed(e: EngineState, id: nat) {
    id in e.orders.orders && e.book.HasKey(ReplaceReserveKey(e.orders.orders[id].account, id))
  }

  lemma DrawUsesKey(e: EngineState, o: Order, target: Money)
    requires Sane(e) && 0 < target.minor - HeldCash(e, o.id) <= e.book.Available(o.account, target.currency)
    requires !Overflowed(Draw(e, o, target).1)
    ensures var (n, r) := Draw(e, o, target);
      r.Ok? && n.book.HasKey(ReplaceReserveKey(o.account, o.id)) && n.orders == e.orders
  {
    var delta := Money(target.minor - HeldCash(e, o.id), target.currency);
    ReserveEffect(e.book, o.account, delta, ReplaceReserveKey(o.account, o.id));
    DrawMoves(e, o, delta, ReplaceReserveKey(o.account, o.id));
  }

  lemma AskKeepsIdentity(s: Store, id: nat, qty: int, price: int)
    requires id in s.orders && s.orders[id].id == id
    ensures var n := ApplyTo(s, id, ReplaceRequested(qty, price)).0;
      id in n.orders && n.orders[id].account == s.orders[id].account
  {
  }

  lemma TopUpUsesKey(e: EngineState, req: ReplaceRequest)
    requires Sane(e) && DrawsCash(e, req)
    requires !Overflowed(TopUp(e, e.orders.orders[req.order], e.master[e.orders.orders[req.order].instrument], req).1)
    ensures var (m, r) := TopUp(e, e.orders.orders[req.order], e.master[e.orders.orders[req.order].instrument], req);
      r.Ok? && TopUpKeyUsed(m, req.order) && m.orders == e.orders
  {
    var o := e.orders.orders[req.order];
    assert HoldOk(e, o.id);
    TopUpBuyUnfolds(e, o, e.master[o.instrument], req);
    DrawUsesKey(e, o, Notional(e.master[o.instrument], req.price, req.qty - o.cumQty).value);
  }

  lemma DrawingReplaceUsesKey(e: EngineState, req: ReplaceRequest)
    requires Sane(e) && DrawsCash(e, req) && !Overflowed(StageReplace(e, req).1)
    ensures TopUpKeyUsed(StageReplace(e, req).0, req.order)
  {
    StageReplaceUnfolds(e, req);
    TopUpUsesKey(e, req);
    AskKeepsIdentity(e.orders, req.order, req.qty, req.price);
  }

  lemma UsedKeyFailsGuard(e: EngineState, req: ReplaceRequest)
    requires OrdersOk(e) && DrawsCash(e, req) && TopUpKeyUsed(e, req.order)
    ensures !ReplaceGuard(e, req)
  {
  }

  /** A replace that draws under a used key breaks the sums. */
  lemma UsedKeyBreaks(e: EngineState, req: ReplaceRequest)
    requires Sane(e) && Conserved(e) && FitsI64(req.qty) && FitsI64(req.price) && !Overflowed(StageReplace(e, req).1)
    requires DrawsCash(e, req) && TopUpKeyUsed(e, req.order)
    ensures !Conserved(StageReplace(e, req).0)
  {
    UsedKeyFailsGuard(e, req);
    ReplaceConservesIff(e, req);
  }

  lemma TwoInputs(e: EngineState, first: Input, second: Input)
    ensures After(e, [first, second]) == Act(Act(e, first).0, second).0
    ensures GuardedRun(e, [first, second]) <==> Guarded(e, first) && Guarded(Act(e, first).0, second)
    ensures InWidth(e, [first, second]) <==>
      && InputFits(first) && !Overflowed(Act(e, first).1)
      && InputFits(second) && !Overflowed(Act(Act(e, first).0, second).1)
  {
    assert [] + [first] == [first] && [first] + [second] == [first, second];
    RunSnoc(e, [], first);
    RunSnoc(e, [first], second);
  }

  /** Two replaces in a row that both draw cash, for instance a second one while the first is still
      pending and will be refused: the second draw moves no cash, so the reserves no longer add up. */
  lemma RepeatedTopUpBreaks(e: EngineState, first: ReplaceRequest, second: ReplaceRequest)
    requires Sane(e) && Conserved(e) && first.order == second.order
    requires InWidth(e, [ReplaceInput(first), ReplaceInput(second)])
    requires DrawsCash(e, first) && DrawsCash(StageReplace(e, first).0, second)
    ensures !ConservedRun(e, [ReplaceInput(first), ReplaceInput(second)])
  {
    TwoInputs(e, ReplaceInput(first), ReplaceInput(second));
    RunConservesIff(e, [ReplaceInput(first), ReplaceInput(second)]);
    DrawingReplaceUsesKey(e, first);
    if ReplaceGuard(e, first) {
      ReplaceConservesIff(e, first);
      UsedKeyFailsGuard(StageReplace(e, first).0, second);
    }
  }
}

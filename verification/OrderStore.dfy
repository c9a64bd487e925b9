/** The idempotent order store: id allocation, client index and append-only event log. */
module OrderStores {
  import opened Base
  import opened Orders

  datatype LoggedEvent = Created | Applied(event: OrderEvent)

  datatype LogLine = LogLine(id: nat, entry: LoggedEvent)

  datatype SubmitOutcome = CreatedOrder(order: Order) | DuplicateOrder(order: Order)

  datatype Store = Store(
    nextId: nat,
    orders: map<nat, Order>,
    byClient: map<(nat, string), nat>,
    log: seq<LogLine>)

  const EMPTY_STORE := Store(0, map[], map[], [])

  function SubmitTo(s: Store, req: CreateOrder): (Store, Result<SubmitOutcome, OrderError>) {
    var key := (req.account, req.client);
    if key in s.byClient then
      var id := s.byClient[key];
      if id in s.orders then (s, Ok(DuplicateOrder(s.orders[id]))) else (s, Err(UnknownOrder(id)))
    else if s.nextId >= U64_MAX then (s, Err(InvalidQuantity))
    else
      var id := s.nextId + 1;
      match NewPending(id, req)
      case Err(e) => (s.(nextId := id), Err(e))
      case Ok(o) =>
        (Store(id, s.orders[id := o], s.byClient[key := id], s.log + [LogLine(id, Created)]),
         Ok(CreatedOrder(o)))
  }

  function ApplyTo(s: Store, id: nat, event: OrderEvent): (Store, Result<(Order, DomainEffect), OrderError>) {
    if id !in s.orders then (s, Err(UnknownOrder(id)))
    else
      match Apply(s.orders[id], event)
      case Err(e) => (s, Err(e))
      case Ok(next) =>
        (s.(orders := s.orders[id := next.0], log := s.log + [LogLine(id, Applied(event))]), Ok(next))
  }

  function Restore(s: Store, o: Order): Store {
    var key := (o.account, o.client);
    var kept := if key in s.byClient && s.byClient[key] != o.id then s.orders - {s.byClient[key]} else s.orders;
    s.(nextId := Max(s.nextId, o.id), orders := kept[o.id := o], byClient := s.byClient[key := o.id])
  }

  function BumpPast(s: Store, minId: nat): Store {
    s.(nextId := Max(s.nextId, minId))
  }

  // ----- what the log says about one order

  /** The events logged for an order since its creation marker. */
  function History(log: seq<LogLine>, id: nat): seq<OrderEvent> {
    if log == [] then []
    else
      var last := log[|log| - 1];
      if last.id != id then History(log[..|log| - 1], id)
      else match last.entry
        case Created => []
        case Applied(e) => History(log[..|log| - 1], id) + [e]
  }

  function Creations(log: seq<LogLine>, id: nat): nat {
    if log == [] then 0
    else Creations(log[..|log| - 1], id) + (if log[|log| - 1] == LogLine(id, Created) then 1 else 0)
  }

  lemma HistoryOfAppend(log: seq<LogLine>, line: LogLine, id: nat)
    ensures History(log + [line], id) ==
            if line.id != id then History(log, id)
            else match line.entry case Created => [] case Applied(e) => History(log, id) + [e]
    ensures Creations(log + [line], id) == Creations(log, id) + (if line == LogLine(id, Created) then 1 else 0)
  {
    assert (log + [line])[..|log|] == log;
  }

  /** The store together with the orders as they were born. */
  datatype Traced = Traced(store: Store, births: map<nat, Order>)

  datatype StoreCommand = SubmitOrder(req: CreateOrder) | OrderEventFor(id: nat, event: OrderEvent) | Bump(minId: nat)

  predicate CommandFits(c: StoreCommand) {
    match c
    case SubmitOrder(req) => FitsI64(req.orderQty) && FitsI64(req.price)
    case OrderEventFor(_, e) => EventFits(e)
    case Bump(_) => true
  }

  function Execute(t: Traced, c: StoreCommand): Traced {
    match c
    case SubmitOrder(req) =>
      var (s, r) := SubmitTo(t.store, req);
      Traced(s, if r.Ok? && r.value.CreatedOrder? then t.births[r.value.order.id := r.value.order] else t.births)
    case OrderEventFor(id, e) => t.(store := ApplyTo(t.store, id, e).0)
    case Bump(minId) => t.(store := BumpPast(t.store, minId))
  }

  function Run(cs: seq<StoreCommand>): Traced {
    if cs == [] then Traced(EMPTY_STORE, map[])
    else Execute(Run(cs[..|cs| - 1]), cs[|cs| - 1])
  }

  ghost predicate OrderMatchesLog(t: Traced, id: nat)
    requires id in t.store.orders && id in t.births
  {
    && t.births[id].id == id && WellFormed(t.births[id]) && t.births[id].status.PendingNew?
    && AllFit(History(t.store.log, id))
    && Creations(t.store.log, id) == 1
    && Replay(t.births[id], History(t.store.log, id)) == Some(t.store.orders[id])
  }

  /** The client index and the order table name each other one to one. */
  ghost predicate IndexExact(s: Store) {
    && (forall id :: id in s.orders ==>
          var key := (s.orders[id].account, s.orders[id].client);
          key in s.byClient && s.byClient[key] == id)
    && (forall key :: key in s.byClient ==>
          var id := s.byClient[key];
          id in s.orders && s.orders[id].account == key.0 && s.orders[id].client == key.1)
  }

  ghost predicate IdsExact(t: Traced) {
    && t.births.Keys == t.store.orders.Keys
    && (forall id :: id in t.store.orders ==> 1 <= id <= t.store.nextId && t.store.orders[id].id == id)
    && (forall id :: id !in t.store.orders ==> Creations(t.store.log, id) == 0 && History(t.store.log, id) == [])
  }

  ghost predicate TraceOk(t: Traced) {
    IdsExact(t) && OrdersMatch(t) && IndexExact(t.store)
  }

  /** Every order is the replay of its log from its birth. */
  ghost predicate OrdersMatch(t: Traced) {
    forall id :: id in t.store.orders ==> id in t.births && OrderMatchesLog(t, id)
  }

  lemma OtherOrderMatches(t: Traced, t': Traced, line: LogLine, id: nat)
    requires id in t.store.orders && id in t.births && OrderMatchesLog(t, id)
    requires t'.store.log == t.store.log + [line] && line.id != id
    requires id in t'.store.orders && t'.store.orders[id] == t.store.orders[id]
    requires id in t'.births && t'.births[id] == t.births[id]
    ensures OrderMatchesLog(t', id)
  {
    HistoryOfAppend(t.store.log, line, id);
  }

  /** t' is t with the order o created. */
  predicate CreatedIn(t: Traced, t': Traced, o: Order) {
    && o.id == t.store.nextId + 1 && t'.store.nextId == o.id
    && t'.store.orders == t.store.orders[o.id := o] && t'.births == t.births[o.id := o]
    && t'.store.byClient == t.store.byClient[(o.account, o.client) := o.id]
    && t'.store.log == t.store.log + [LogLine(o.id, Created)]
  }

  lemma CreationMatches(t: Traced, t': Traced, o: Order)
    requires IdsExact(t) && OrdersMatch(t) && CreatedIn(t, t', o) && WellFormed(o) && o.status.PendingNew?
    ensures OrdersMatch(t')
  {
    var line := LogLine(o.id, Created);
    assert o.id !in t.store.orders;
    forall id | id in t'.store.orders ensures id in t'.births && OrderMatchesLog(t', id) {
      if id == o.id { HistoryOfAppend(t.store.log, line, id); } else { OtherOrderMatches(t, t', line, id); }
    }
  }

  lemma CreationIds(t: Traced, t': Traced, o: Order)
    requires IdsExact(t) && CreatedIn(t, t', o)
    ensures IdsExact(t')
  {
    forall id | id !in t'.store.orders ensures Creations(t'.store.log, id) == 0 && History(t'.store.log, id) == [] {
      HistoryOfAppend(t.store.log, LogLine(o.id, Created), id);
    }
  }

  lemma CreationIndex(s: Store, s': Store, o: Order)
    requires IndexExact(s) && o.id !in s.orders && (o.account, o.client) !in s.byClient
    requires s'.orders == s.orders[o.id := o] && s'.byClient == s.byClient[(o.account, o.client) := o.id]
    ensures IndexExact(s')
  {
  }

  lemma CreationKeepsTrace(t: Traced, t': Traced, o: Order)
    requires TraceOk(t) && CreatedIn(t, t', o)
    requires WellFormed(o) && o.status.PendingNew? && (o.account, o.client) !in t.store.byClient
    ensures TraceOk(t')
  {
    CreationMatches(t, t', o);
    CreationIds(t, t', o);
    CreationIndex(t.store, t'.store, o);
  }

  /** Only the id counter moved. */
  lemma BumpKeepsTrace(t: Traced, t': Traced)
    requires TraceOk(t) && t.store.nextId <= t'.store.nextId && t' == t.(store := t.store.(nextId := t'.store.nextId))
    ensures TraceOk(t')
  {
    assert IndexExact(t'.store);
    forall id | id in t'.store.orders ensures id in t'.births && OrderMatchesLog(t', id) { assert OrderMatchesLog(t, id); }
  }

  lemma StoreSubmitUnfolds(s: Store, req: CreateOrder)
    ensures var (s', r) := SubmitTo(s, req);
      if r.Ok? && r.value.CreatedOrder? then
        var o := r.value.order;
        && NewPending(s.nextId + 1, req) == Ok(o) && (req.account, req.client) !in s.byClient
        && s' == Store(s.nextId + 1, s.orders[s.nextId + 1 := o], s.byClient[(req.account, req.client) := s.nextId + 1],
                       s.log + [LogLine(s.nextId + 1, Created)])
      else s' == s.(nextId := s'.nextId) && s.nextId <= s'.nextId
  {
  }

  lemma SubmitKeepsTrace(t: Traced, req: CreateOrder)
    requires TraceOk(t) && FitsI64(req.orderQty) && FitsI64(req.price)
    ensures TraceOk(Execute(t, SubmitOrder(req)))
  {
    StoreSubmitUnfolds(t.store, req);
    var (s', r) := SubmitTo(t.store, req);
    var t' := Execute(t, SubmitOrder(req));
    if r.Ok? && r.value.CreatedOrder? {
      CreationKeepsTrace(t, t', r.value.order);
    } else {
      BumpKeepsTrace(t, t');
    }
  }

  lemma ReplayExtends(o: Order, events: seq<OrderEvent>, e: OrderEvent)
    requires Replay(o, events).Some?
    ensures Replay(o, events + [e]) ==
            match Apply(Replay(o, events).value, e) case Ok(n) => Some(n.0) case Err(_) => None
  {
    assert (events + [e])[..|events|] == events;
  }

  lemma EventMatchesLog(t: Traced, id: nat, e: OrderEvent)
    requires id in t.store.orders && id in t.births && OrderMatchesLog(t, id) && EventFits(e)
    requires Apply(t.store.orders[id], e).Ok?
    ensures OrderMatchesLog(Execute(t, OrderEventFor(id, e)), id)
  {
    HistoryOfAppend(t.store.log, LogLine(id, Applied(e)), id);
    ReplayExtends(t.births[id], History(t.store.log, id), e);
  }

  /** t' is t with its order of n's id replaced by n, and the line logged. */
  predicate UpdatedIn(t: Traced, t': Traced, n: Order, line: LogLine) {
    && line.id == n.id && n.id in t.store.orders && t'.births == t.births
    && n.account == t.store.orders[n.id].account && n.client == t.store.orders[n.id].client
    && t'.store.orders == t.store.orders[n.id := n] && t'.store.nextId == t.store.nextId
    && t'.store.byClient == t.store.byClient && t'.store.log == t.store.log + [line]
  }

  lemma IndexAfterUpdate(t: Traced, t': Traced, n: Order, line: LogLine)
    requires IndexExact(t.store) && UpdatedIn(t, t', n, line)
    ensures IndexExact(t'.store)
  {
  }

  lemma IdsAfterUpdate(t: Traced, t': Traced, n: Order, line: LogLine)
    requires IdsExact(t) && UpdatedIn(t, t', n, line)
    ensures IdsExact(t')
  {
    forall k | k !in t'.store.orders ensures Creations(t'.store.log, k) == 0 && History(t'.store.log, k) == [] {
      HistoryOfAppend(t.store.log, line, k);
    }
  }

  lemma OthersMatch(t: Traced, t': Traced, n: Order, line: LogLine)
    requires OrdersMatch(t) && UpdatedIn(t, t', n, line) && n.id in t'.births && OrderMatchesLog(t', n.id)
    ensures OrdersMatch(t')
  {
    forall k | k in t'.store.orders ensures k in t'.births && OrderMatchesLog(t', k) {
      if k != n.id { OtherOrderMatches(t, t', line, k); }
    }
  }

  lemma UpdateKeepsTrace(t: Traced, t': Traced, n: Order, line: LogLine)
    requires TraceOk(t) && UpdatedIn(t, t', n, line) && n.id in t'.births && OrderMatchesLog(t', n.id)
    ensures TraceOk(t')
  {
    OthersMatch(t, t', n, line);
    IndexAfterUpdate(t, t', n, line);
    IdsAfterUpdate(t, t', n, line);
  }

  lemma EventKeepsTrace(t: Traced, id: nat, e: OrderEvent)
    requires TraceOk(t) && EventFits(e)
    ensures TraceOk(Execute(t, OrderEventFor(id, e)))
  {
    if id in t.store.orders && Apply(t.store.orders[id], e).Ok? {
      ApplyFollowsGraph(t.store.orders[id], e);
      EventMatchesLog(t, id, e);
      UpdateKeepsTrace(t, Execute(t, OrderEventFor(id, e)), Apply(t.store.orders[id], e).value.0, LogLine(id, Applied(e)));
    }
  }

  /** In every run of submissions, events and id bumps each order equals the replay of its logged
      events from its birth, was created exactly once, and is named exactly once by the client index. */
  lemma {:induction false} EveryRunReplays(cs: seq<StoreCommand>)
    requires forall i :: 0 <= i < |cs| ==> CommandFits(cs[i])
    ensures TraceOk(Run(cs))
  {
    if cs != [] {
      var init, last := cs[..|cs| - 1], cs[|cs| - 1];
      EveryRunReplays(init);
      var t := Run(init);
      match last
      case SubmitOrder(req) => SubmitKeepsTrace(t, req);
      case OrderEventFor(id, e) => EventKeepsTrace(t, id, e);
      case Bump(m) =>
        BumpKeepsTrace(t, Run(cs));
    } else {
      assert forall id :: History([], id) == [];
    }
  }

  /** Hence every stored order is well formed and its filled quantity is the sum of its logged trades. */
  lemma EveryRunAccountsForFills(cs: seq<StoreCommand>, id: nat)
    requires forall i :: 0 <= i < |cs| ==> CommandFits(cs[i])
    requires id in Run(cs).store.orders
    ensures var s := Run(cs).store; var fills := Fills(History(s.log, id));
      && WellFormed(s.orders[id])
      && s.orders[id].cumQty == FillQty(fills)
      && s.orders[id].seenExecs == FillExecs(fills)
  {
    EveryRunReplays(cs);
    var t := Run(cs);
    assert OrderMatchesLog(t, id);
    ReplayAccountsForFills(t.births[id], History(t.store.log, id));
  }

  /** Submitting the same client id again creates nothing and returns the stored order. */
  lemma ResubmitIsDuplicate(cs: seq<StoreCommand>, req: CreateOrder, again: CreateOrder)
    requires forall i :: 0 <= i < |cs| ==> CommandFits(cs[i])
    requires SubmitTo(Run(cs).store, req).1.Ok?
    requires again.account == req.account && again.client == req.client
    ensures var (s, r) := SubmitTo(Run(cs).store, req);
      SubmitTo(s, again) == (s, Ok(DuplicateOrder(r.value.order)))
  {
    EveryRunReplays(cs);
  }

  class OrderStore {
    var nextId: nat
    var orders: map<nat, Order>
    var byClient: map<(nat, string), nat>
    var log: seq<LogLine>

    ghost function View(): Store
      reads this
    {
      Store(nextId, orders, byClient, log)
    }

    constructor ()
      ensures View() == EMPTY_STORE
    {
      nextId, orders, byClient, log := 0, map[], map[], [];
    }

    method Clear()
      modifies this
      ensures View() == EMPTY_STORE
    {
      nextId, orders, byClient, log := 0, map[], map[], [];
    }

    method Submit(req: CreateOrder) returns (r: Result<SubmitOutcome, OrderError>)
      modifies this
      ensures (View(), r) == SubmitTo(old(View()), req)
    {
      var key := (req.account, req.client);
      if key in byClient {
        var id := byClient[key];
        if id !in orders { return Err(UnknownOrder(id)); }
        return Ok(DuplicateOrder(orders[id]));
      }
      if nextId >= U64_MAX { return Err(InvalidQuantity); }
      nextId := nextId + 1;
      var order := NewPending(nextId, req);
      if order.Err? { return Err(order.error); }
      log := log + [LogLine(nextId, Created)];
      byClient := byClient[key := nextId];
      orders := orders[nextId := order.value];
      return Ok(CreatedOrder(order.value));
    }

    method ApplyEvent(id: nat, event: OrderEvent) returns (r: Result<(Order, DomainEffect), OrderError>)
      modifies this
      ensures (View(), r) == ApplyTo(old(View()), id, event)
    {
      if id !in orders { return Err(UnknownOrder(id)); }
      r := Orders.ApplyEvent(orders[id], event);
      if r.Ok? {
        log := log + [LogLine(id, Applied(event))];
        orders := orders[id := r.value.0];
      }
    }

    method RestoreOrder(o: Order)
      modifies this
      ensures View() == Restore(old(View()), o)
    {
      var key := (o.account, o.client);
      if key in byClient && byClient[key] != o.id {
        orders := orders - {byClient[key]};
      }
      byClient := byClient[key := o.id];
      nextId := Max(nextId, o.id);
      orders := orders[o.id := o];
    }

    method BumpNextIdPast(minId: nat)
      modifies this
      ensures View() == BumpPast(old(View()), minId)
    {
      nextId := Max(nextId, minId);
    }
  }
}

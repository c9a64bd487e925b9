/** What a restart must rebuild: per-order holds, and reserves that match them. */
module Hydration {
  import opened Base
  import opened Ledger
  import opened Orders
  import opened OrderStores
  import opened PaperBooks
  import opened Instruments
  import opened Notionals
  import opened Execution
  import opened Sandbox

  predicate OpenBuy(o: Order) { !o.status.IsTerminal() && o.leavesQty > 0 && o.side.Buy? }

  predicate OpenSell(o: Order) { !o.status.IsTerminal() && o.leavesQty > 0 && o.side.Sell? }

  predicate Pending(o: Order) { o.status.PendingNew? || o.status.PendingCancel? || o.status.PendingReplace? }

  /** The value of an open buy at its own price. */
  function OpenValue(master: map<nat, Instrument>, o: Order): Option<Money> {
    if OpenBuy(o) && o.instrument in master && Notional(master[o.instrument], o.price, o.leavesQty).Ok?
    then Some(Notional(master[o.instrument], o.price, o.leavesQty).value) else None
  }

  /** The total under a key grown by an amount. */
  function Grown<K>(totals: map<K, int>, k: K, amount: int): map<K, int> {
    totals[k := (if k in totals then totals[k] else 0) + amount]
  }

  /** The value of an open buy as the restart asks for it. */
  function QuoteOpen(master: map<nat, Instrument>, o: Order): Result<Money, PaperError> {
    if o.instrument !in master then Err(InstrumentFailed(UnknownInstrument(o.instrument)))
    else Notional(master[o.instrument], o.price, o.leavesQty)
  }

  lemma QuoteOpenMeans(master: map<nat, Instrument>, o: Order)
    requires OpenBuy(o)
    ensures OpenValue(master, o) == match QuoteOpen(master, o) case Ok(value) => Some(value) case Err(_) => None
  {
  }

  function BuyNeed(master: map<nat, Instrument>, o: Order, account: nat, c: Currency): int {
    match OpenValue(master, o)
    case Some(value) => if o.account == account && value.currency == c then value.minor else 0
    case None => 0
  }

  function SellNeed(o: Order, account: nat, instrument: nat): int {
    if OpenSell(o) && o.account == account && o.instrument == instrument then o.leavesQty else 0
  }

  /** Cash the open buys among these orders of an account need in a currency. */
  ghost function CashNeeded(master: map<nat, Instrument>, orders: map<nat, Order>, ids: set<nat>, account: nat, c: Currency): int {
    SetSum(ids, (id: nat) => if id in orders then BuyNeed(master, orders[id], account, c) else 0)
  }

  /** Lots the open sells among these orders of an account need in an instrument. */
  ghost function LotsNeeded(orders: map<nat, Order>, ids: set<nat>, account: nat, instrument: nat): int {
    SetSum(ids, (id: nat) => if id in orders then SellNeed(orders[id], account, instrument) else 0)
  }

  lemma CashNeededTakes(master: map<nat, Instrument>, orders: map<nat, Order>, ids: set<nat>, id: nat, account: nat, c: Currency)
    requires id in orders && id !in ids
    ensures CashNeeded(master, orders, ids + {id}, account, c) == CashNeeded(master, orders, ids, account, c) + BuyNeed(master, orders[id], account, c)
  {
    SetSumTake(ids + {id}, (k: nat) => if k in orders then BuyNeed(master, orders[k], account, c) else 0, id);
    assert ids + {id} - {id} == ids;
  }

  lemma LotsNeededTakes(orders: map<nat, Order>, ids: set<nat>, id: nat, account: nat, instrument: nat)
    requires id in orders && id !in ids
    ensures LotsNeeded(orders, ids + {id}, account, instrument) == LotsNeeded(orders, ids, account, instrument) + SellNeed(orders[id], account, instrument)
  {
    SetSumTake(ids + {id}, (k: nat) => if k in orders then SellNeed(orders[k], account, instrument) else 0, id);
    assert ids + {id} - {id} == ids;
  }

  ghost predicate AnyPending(orders: map<nat, Order>, ids: set<nat>) { exists id :: id in ids && id in orders && Pending(orders[id]) }

  lemma AnyPendingTakes(orders: map<nat, Order>, ids: set<nat>, id: nat)
    requires id in orders
    ensures AnyPending(orders, ids + {id}) <==> AnyPending(orders, ids) || Pending(orders[id])
  {
    if AnyPending(orders, ids) {
      var i :| i in ids && i in orders && Pending(orders[i]);
      assert i in ids + {id};
    }
    if Pending(orders[id]) { assert id in ids + {id}; }
  }

  /** The holds collected from the orders in ids. */
  ghost predicate HoldsCollected(master: map<nat, Instrument>, orders: map<nat, Order>, ids: set<nat>, cash: map<nat, Money>, lots: map<nat, int>) {
    && (forall id :: id in cash <==> id in ids && id in orders && OpenValue(master, orders[id]).Some?)
    && (forall id :: id in cash ==> OpenValue(master, orders[id]) == Some(cash[id]))
    && (forall id :: id in lots <==> id in ids && id in orders && OpenSell(orders[id]))
    && (forall id :: id in lots ==> lots[id] == orders[id].leavesQty)
  }

  /** The cash collected per account and currency. */
  ghost predicate BuysCollected(master: map<nat, Instrument>, orders: map<nat, Order>, ids: set<nat>, buyCash: map<(nat, Currency), int>) {
    && (forall k :: k in buyCash <==> BuyKey(master, orders, ids, k))
    && (forall k :: k in buyCash ==> buyCash[k] == CashNeeded(master, orders, ids, k.0, k.1))
  }

  /** The lots collected per account and instrument. */
  ghost predicate SellsCollected(orders: map<nat, Order>, ids: set<nat>, sellLots: map<(nat, nat), int>) {
    && (forall k :: k in sellLots <==> SellKey(orders, ids, k))
    && (forall k :: k in sellLots ==> sellLots[k] == LotsNeeded(orders, ids, k.0, k.1) > 0)
  }

  ghost predicate BuyKey(master: map<nat, Instrument>, orders: map<nat, Order>, ids: set<nat>, k: (nat, Currency)) {
    exists id :: id in ids && id in orders && BuysFor(master, orders[id], k)
  }

  predicate BuysFor(master: map<nat, Instrument>, o: Order, k: (nat, Currency)) {
    OpenValue(master, o).Some? && (o.account, OpenValue(master, o).value.currency) == k
  }

  ghost predicate SellKey(orders: map<nat, Order>, ids: set<nat>, k: (nat, nat)) {
    exists id :: id in ids && id in orders && SellsFor(orders[id], k)
  }

  predicate SellsFor(o: Order, k: (nat, nat)) { OpenSell(o) && (o.account, o.instrument) == k }

  lemma BuyKeyTakes(master: map<nat, Instrument>, orders: map<nat, Order>, ids: set<nat>, id: nat, k: (nat, Currency))
    requires id in orders
    ensures BuyKey(master, orders, ids + {id}, k) <==> BuyKey(master, orders, ids, k) || BuysFor(master, orders[id], k)
  {
    if BuyKey(master, orders, ids, k) {
      var i :| i in ids && i in orders && BuysFor(master, orders[i], k);
      assert i in ids + {id};
    }
    if BuysFor(master, orders[id], k) { assert id in ids + {id}; }
  }

  lemma SellKeyTakes(orders: map<nat, Order>, ids: set<nat>, id: nat, k: (nat, nat))
    requires id in orders
    ensures SellKey(orders, ids + {id}, k) <==> SellKey(orders, ids, k) || SellsFor(orders[id], k)
  {
    if SellKey(orders, ids, k) {
      var i :| i in ids && i in orders && SellsFor(orders[i], k);
      assert i in ids + {id};
    }
    if SellsFor(orders[id], k) { assert id in ids + {id}; }
  }

  lemma {:induction false} NothingNeeded(master: map<nat, Instrument>, orders: map<nat, Order>, ids: set<nat>, account: nat, c: Currency)
    requires !BuyKey(master, orders, ids, (account, c))
    ensures CashNeeded(master, orders, ids, account, c) == 0
    decreases ids
  {
    if ids != {} {
      var f := (id: nat) => if id in orders then BuyNeed(master, orders[id], account, c) else 0;
      var id :| id in ids;
      SetSumTake(ids, f, id);
      NothingNeeded(master, orders, ids - {id}, account, c);
    }
  }

  lemma {:induction false} NoLotsNeeded(orders: map<nat, Order>, ids: set<nat>, account: nat, instrument: nat)
    requires !SellKey(orders, ids, (account, instrument))
    ensures LotsNeeded(orders, ids, account, instrument) == 0
    decreases ids
  {
    if ids != {} {
      var f := (id: nat) => if id in orders then SellNeed(orders[id], account, instrument) else 0;
      var id :| id in ids;
      SetSumTake(ids, f, id);
      NoLotsNeeded(orders, ids - {id}, account, instrument);
    }
  }

  lemma HoldOpenBuy(master: map<nat, Instrument>, orders: map<nat, Order>, ids: set<nat>, id: nat, cash: map<nat, Money>, lots: map<nat, int>, value: Money)
    requires HoldsCollected(master, orders, ids, cash, lots) && id in orders && id !in ids && OpenValue(master, orders[id]) == Some(value)
    ensures HoldsCollected(master, orders, ids + {id}, cash[id := value], lots)
  {
    assert !OpenSell(orders[id]);
  }

  lemma HoldOpenSell(master: map<nat, Instrument>, orders: map<nat, Order>, ids: set<nat>, id: nat, cash: map<nat, Money>, lots: map<nat, int>)
    requires HoldsCollected(master, orders, ids, cash, lots) && id in orders && id !in ids && OpenSell(orders[id])
    ensures HoldsCollected(master, orders, ids + {id}, cash, lots[id := orders[id].leavesQty])
  {
    assert OpenValue(master, orders[id]).None?;
  }

  lemma HoldNothing(master: map<nat, Instrument>, orders: map<nat, Order>, ids: set<nat>, id: nat, cash: map<nat, Money>, lots: map<nat, int>)
    requires HoldsCollected(master, orders, ids, cash, lots) && id in orders && id !in ids && !OpenSell(orders[id]) && !OpenBuy(orders[id])
    ensures HoldsCollected(master, orders, ids + {id}, cash, lots)
  {
    assert OpenValue(master, orders[id]).None?;
  }

  /** Collecting one more open buy. */
  lemma CollectBuy(master: map<nat, Instrument>, orders: map<nat, Order>, ids: set<nat>, id: nat, buyCash: map<(nat, Currency), int>, value: Money)
    requires BuysCollected(master, orders, ids, buyCash) && id in orders && id !in ids
    requires OpenValue(master, orders[id]) == Some(value)
    ensures var k := (orders[id].account, value.currency);
      BuysCollected(master, orders, ids + {id}, Grown(buyCash, k, value.minor))
  {
    var k := (orders[id].account, value.currency);
    var after := Grown(buyCash, k, value.minor);
    if k !in buyCash { NothingNeeded(master, orders, ids, k.0, k.1); }
    forall j: (nat, Currency)
      ensures j in after <==> BuyKey(master, orders, ids + {id}, j)
      ensures j in after ==> after[j] == CashNeeded(master, orders, ids + {id}, j.0, j.1)
    {
      BuyKeyTakes(master, orders, ids, id, j);
      CashNeededTakes(master, orders, ids, id, j.0, j.1);
    }
  }

  lemma CollectNoBuy(master: map<nat, Instrument>, orders: map<nat, Order>, ids: set<nat>, id: nat, buyCash: map<(nat, Currency), int>)
    requires BuysCollected(master, orders, ids, buyCash) && id in orders && id !in ids && OpenValue(master, orders[id]).None?
    ensures BuysCollected(master, orders, ids + {id}, buyCash)
  {
    forall j: (nat, Currency)
      ensures j in buyCash <==> BuyKey(master, orders, ids + {id}, j)
      ensures j in buyCash ==> buyCash[j] == CashNeeded(master, orders, ids + {id}, j.0, j.1)
    {
      BuyKeyTakes(master, orders, ids, id, j);
      CashNeededTakes(master, orders, ids, id, j.0, j.1);
    }
  }

  /** Collecting one more open sell. */
  lemma CollectSell(orders: map<nat, Order>, ids: set<nat>, id: nat, sellLots: map<(nat, nat), int>)
    requires SellsCollected(orders, ids, sellLots) && id in orders && id !in ids && OpenSell(orders[id])
    ensures var o := orders[id]; var k := (o.account, o.instrument);
      SellsCollected(orders, ids + {id}, Grown(sellLots, k, o.leavesQty))
  {
    var o := orders[id];
    var k := (o.account, o.instrument);
    var after := Grown(sellLots, k, o.leavesQty);
    if k !in sellLots { NoLotsNeeded(orders, ids, k.0, k.1); }
    forall j: (nat, nat)
      ensures j in after <==> SellKey(orders, ids + {id}, j)
      ensures j in after ==> after[j] == LotsNeeded(orders, ids + {id}, j.0, j.1) > 0
    {
      SellKeyTakes(orders, ids, id, j);
      LotsNeededTakes(orders, ids, id, j.0, j.1);
    }
  }

  lemma CollectNoSell(orders: map<nat, Order>, ids: set<nat>, id: nat, sellLots: map<(nat, nat), int>)
    requires SellsCollected(orders, ids, sellLots) && id in orders && id !in ids && !OpenSell(orders[id])
    ensures SellsCollected(orders, ids + {id}, sellLots)
  {
    forall j: (nat, nat)
      ensures j in sellLots <==> SellKey(orders, ids + {id}, j)
      ensures j in sellLots ==> sellLots[j] == LotsNeeded(orders, ids + {id}, j.0, j.1) > 0
    {
      SellKeyTakes(orders, ids, id, j);
      LotsNeededTakes(orders, ids, id, j.0, j.1);
    }
  }

  /** Everything that is collected from the orders in ids. */
  ghost predicate Collected(master: map<nat, Instrument>, orders: map<nat, Order>, ids: set<nat>, cash: map<nat, Money>, lots: map<nat, int>,
                            buyCash: map<(nat, Currency), int>, sellLots: map<(nat, nat), int>, pending: bool) {
    && HoldsCollected(master, orders, ids, cash, lots) && BuysCollected(master, orders, ids, buyCash)
    && SellsCollected(orders, ids, sellLots) && (pending <==> AnyPending(orders, ids))
  }

  lemma NothingCollected(master: map<nat, Instrument>, orders: map<nat, Order>)
    ensures Collected(master, orders, {}, map[], map[], map[], map[], false)
  {
  }

  // ----- aligning one account and currency

  predicate IsAlignKey(key: Key) { key.AlignReserveKey? || key.AlignReleaseKey? }

  /** Neither alignment key of the account and currency code has been used. */
  predicate CanAlign(b: Book, k: (nat, Currency)) {
    !b.HasKey(AlignReserveKey(k.0, k.1.code)) && !b.HasKey(AlignReleaseKey(k.0, k.1.code))
  }

  /** Brings reserved cash to what is needed; false means the account cannot pay for it. */
  function AlignCash(b: Book, k: (nat, Currency), needed: int): (Book, Result<bool, LedgerError>) {
    var current := b.Reserved(k.0, k.1);
    if needed > current then
      if b.Available(k.0, k.1) >= needed - current then
        var (n, r) := ReserveForOrder(b, k.0, Money(needed - current, k.1), AlignReserveKey(k.0, k.1.code));
        (n, if r.Ok? then Ok(true) else Err(r.error))
      else (b, Ok(false))
    else if current > needed then
      var (n, r) := ReleaseReserve(b, k.0, Money(current - needed, k.1), AlignReleaseKey(k.0, k.1.code));
      (n, if r.Ok? then Ok(true) else Err(r.error))
    else (b, Ok(true))
  }

  /** An alignment that reports success leaves exactly what is needed reserved, if and only if the key
      it uses had not been used before. */
  lemma AlignCashIff(b: Book, k: (nat, Currency), needed: int)
    requires AlignCash(b, k, needed).1 == Ok(true)
    ensures var n := AlignCash(b, k, needed).0; var current := b.Reserved(k.0, k.1);
      n.Reserved(k.0, k.1) == needed <==>
        (needed > current ==> !b.HasKey(AlignReserveKey(k.0, k.1.code))) && (needed < current ==> !b.HasKey(AlignReleaseKey(k.0, k.1.code)))
  {
    var current := b.Reserved(k.0, k.1);
    if needed > current {
      ReserveEffect(b, k.0, Money(needed - current, k.1), AlignReserveKey(k.0, k.1.code));
    } else if current > needed {
      ReleaseEffect(b, k.0, Money(current - needed, k.1), AlignReleaseKey(k.0, k.1.code));
    }
  }

  /** Aligning one pair disturbs no other reserved balance, no lots and no other key. */
  lemma AlignCashElsewhere(b: Book, k: (nat, Currency), needed: int)
    requires AlignCash(b, k, needed).1.Ok?
    ensures var n := AlignCash(b, k, needed).0;
      && SameLots(b, n)
      && (forall a: nat, c: Currency :: (a, c) != k ==> n.Reserved(a, c) == b.Reserved(a, c))
      && b.journal.byKey.Keys <= n.journal.byKey.Keys
            <= b.journal.byKey.Keys + {AlignReserveKey(k.0, k.1.code), AlignReleaseKey(k.0, k.1.code)}
      && (AlignCash(b, k, needed).1.value == false ==> n == b)
  {
    var current := b.Reserved(k.0, k.1);
    if needed > current && b.Available(k.0, k.1) >= needed - current {
      ReserveEffect(b, k.0, Money(needed - current, k.1), AlignReserveKey(k.0, k.1.code));
    } else if current > needed {
      ReleaseEffect(b, k.0, Money(current - needed, k.1), AlignReleaseKey(k.0, k.1.code));
    }
  }

  /** An account's pairs are told apart by their currency codes, as the alignment keys assume. */
  ghost predicate CodesIdentify(ks: set<(nat, Currency)>) {
    forall j, k :: j in ks && k in ks && j.0 == k.0 && j.1.code == k.1.code ==> j == k
  }

  /** Every collected pair is aligned or can still be. */
  ghost predicate AlignedUpTo(b: Book, needed: map<(nat, Currency), int>, todo: set<(nat, Currency)>) {
    && (forall k :: k in needed && k !in todo ==> b.Reserved(k.0, k.1) == needed[k])
    && (forall k :: k in needed && k in todo ==> CanAlign(b, k))
  }

  lemma AlignStep(b: Book, n: Book, needed: map<(nat, Currency), int>, todo: set<(nat, Currency)>, k: (nat, Currency))
    requires AlignedUpTo(b, needed, todo) && k in todo && k in needed && todo <= needed.Keys && CodesIdentify(needed.Keys)
    requires AlignCash(b, k, needed[k]) == (n, Ok(true))
    ensures AlignedUpTo(n, needed, todo - {k})
  {
    assert CanAlign(b, k);
    AlignCashIff(b, k, needed[k]);
    AlignCashElsewhere(b, k, needed[k]);
    forall j | j in needed && j in todo - {k} ensures CanAlign(n, j) { assert CanAlign(b, j); }
  }

  ghost predicate LotsAligned(b: Book, needed: map<(nat, nat), int>, todo: set<(nat, nat)>) {
    forall k :: k in needed && k !in todo ==> b.ReservedPosition(k.0, k.1) == needed[k]
  }

  lemma LotsAlignStep(b: Book, needed: map<(nat, nat), int>, todo: set<(nat, nat)>, k: (nat, nat))
    requires LotsAligned(b, needed, todo) && k in todo && k in needed && needed[k] > 0
    ensures LotsAligned(SetPosition(b, k.0, k.1, b.Position(k.0, k.1), needed[k]), needed, todo - {k})
  {
  }

  predicate NoAlignKeys(entries: seq<Entry>) { forall i :: 0 <= i < |entries| ==> !IsAlignKey(entries[i].key) }

  ghost predicate NoAlignKeyUsed(b: Book) { forall key :: b.HasKey(key) ==> !IsAlignKey(key) }

  /** The orders a restart puts back, later ones replacing earlier ones under the same id or client key. */
  function RestoreAll(s: Store, restored: seq<Order>): Store {
    if restored == [] then s else Restore(RestoreAll(s, restored[..|restored| - 1]), restored[|restored| - 1])
  }

  /** The cash side of a restart: the kill switch is on, or the reserved cash of every account and
      currency with an open buy equals what its open buys need. */
  ghost predicate CashRealigned(master: map<nat, Instrument>, orders: map<nat, Order>, b: Book) {
    forall account: nat, c: Currency :: BuyKey(master, orders, orders.Keys, (account, c)) ==>
      b.Reserved(account, c) == CashNeeded(master, orders, orders.Keys, account, c)
  }

  ghost predicate LotsRealigned(orders: map<nat, Order>, b: Book) {
    forall account: nat, instrument: nat :: SellKey(orders, orders.Keys, (account, instrument)) ==>
      b.ReservedPosition(account, instrument) == LotsNeeded(orders, orders.Keys, account, instrument)
  }

  /** Open buys of one account whose currencies share a code share the currency. */
  ghost predicate OpenCodesIdentify(master: map<nat, Instrument>, orders: map<nat, Order>) {
    forall account: nat, c: Currency, d: Currency ::
      BuyKey(master, orders, orders.Keys, (account, c)) && BuyKey(master, orders, orders.Keys, (account, d)) && c.code == d.code ==> c == d
  }

  lemma LotsStayAligned(b: Book, n: Book, orders: map<nat, Order>, needed: map<(nat, nat), int>)
    requires LotsAligned(b, needed, {}) && SameLots(b, n) && SellsCollected(orders, orders.Keys, needed)
    ensures LotsRealigned(orders, n)
  {
    forall account: nat, instrument: nat | SellKey(orders, orders.Keys, (account, instrument))
      ensures n.ReservedPosition(account, instrument) == LotsNeeded(orders, orders.Keys, account, instrument)
    {
      assert (account, instrument) in needed;
    }
  }

  lemma KeysIdentify(master: map<nat, Instrument>, orders: map<nat, Order>, needed: map<(nat, Currency), int>)
    requires OpenCodesIdentify(master, orders) && BuysCollected(master, orders, orders.Keys, needed)
    ensures CodesIdentify(needed.Keys)
  {
    forall j, k | j in needed.Keys && k in needed.Keys && j.0 == k.0 && j.1.code == k.1.code ensures j == k {
      assert BuyKey(master, orders, orders.Keys, (j.0, j.1)) && BuyKey(master, orders, orders.Keys, (k.0, k.1));
    }
  }

  lemma CashStaysAligned(master: map<nat, Instrument>, orders: map<nat, Order>, b: Book, needed: map<(nat, Currency), int>)
    requires AlignedUpTo(b, needed, {}) && BuysCollected(master, orders, orders.Keys, needed)
    ensures CashRealigned(master, orders, b)
  {
    forall account: nat, c: Currency | BuyKey(master, orders, orders.Keys, (account, c))
      ensures b.Reserved(account, c) == CashNeeded(master, orders, orders.Keys, account, c)
    {
      assert (account, c) in needed;
    }
  }

  // ----- venue rows

  /** The order had, or should have had, a row at the venue. */
  predicate HadRow(o: Order) {
    (o.status.IsWorking() || o.status.PendingCancel? || o.status.PendingReplace? || (o.status.PendingNew? && o.venueOrderId.Some?))
    && (o.leavesQty > 0 || o.cumQty > 0)
  }

  /** A live row with the order's terms and, when it has one, its venue id. */
  predicate RowOf(o: Order, row: Inflight) {
    && row.orderQty == o.orderQty && row.cumQty == o.cumQty && row.price == o.price && !row.canceled
    && (o.venueOrderId.Some? ==> row.venueOrderId == o.venueOrderId.value)
  }

  /** One more element of a walk over a finite set is done. */
  lemma WalkStep<T>(all: set<T>, todo: set<T>, x: T)
    requires x in todo && todo <= all
    ensures all - (todo - {x}) == (all - todo) + {x} && x !in all - todo && todo - {x} <= all
  {
  }

  /** The venue got back exactly the rows of the orders in ids that had one; its stream did not move. */
  ghost predicate RowsReinstated(orders: map<nat, Order>, ids: set<nat>, v: Venue, n: Venue) {
    && n == v.(inflight := n.inflight, nextVenue := n.nextVenue)
    && (forall id :: id in n.inflight <==> id in v.inflight || (id in ids && id in orders && HadRow(orders[id])))
    && (forall id :: id in n.inflight ==>
          if id in ids && id in orders && HadRow(orders[id]) then RowOf(orders[id], n.inflight[id])
          else n.inflight[id] == v.inflight[id])
  }

  /** One order's row came back, or it had none. */
  predicate RowReinstated(o: Order, id: nat, v: Venue, n: Venue) {
    if HadRow(o) then
      n == v.(inflight := n.inflight, nextVenue := n.nextVenue) && id in n.inflight && RowOf(o, n.inflight[id])
      && n.inflight == v.inflight[id := n.inflight[id]]
    else n == v
  }

  lemma RowsTake(orders: map<nat, Order>, ids: set<nat>, id: nat, v: Venue, m: Venue, n: Venue)
    requires RowsReinstated(orders, ids, v, m) && id in orders && id !in ids && RowReinstated(orders[id], id, m, n)
    ensures RowsReinstated(orders, ids + {id}, v, n)
  {
    if HadRow(orders[id]) {
      forall k ensures k in n.inflight <==> k == id || k in m.inflight {}
      forall k | k in n.inflight && k != id ensures n.inflight[k] == m.inflight[k] {}
    }
  }

  // ----- marks and the durable trade log

  /** The mark a filled order leaves for its instrument. */
  function MarkOf(o: Order): Option<int> {
    if o.cumQty > 0 && o.avgPx.GetOr(o.price) > 0 then Some(o.avgPx.GetOr(o.price)) else None
  }

  ghost predicate MarkFrom(orders: map<nat, Order>, ids: set<nat>, instrument: nat, mark: int) {
    exists id :: id in ids && id in orders && orders[id].instrument == instrument && MarkOf(orders[id]) == Some(mark)
  }

  /** Every mark is that of an order on the instrument, and every instrument with such an order has one. */
  ghost predicate MarksSeeded(orders: map<nat, Order>, ids: set<nat>, marks: map<nat, int>) {
    && (forall i :: i in marks ==> MarkFrom(orders, ids, i, marks[i]))
    && (forall id :: id in ids && id in orders && MarkOf(orders[id]).Some? ==> orders[id].instrument in marks)
  }

  /** The durable trades of one order: each execution it knows, at the order's quantity and average. */
  function TradesOf(o: Order, id: nat): seq<TradeSnapshot> {
    seq(|o.seenExecs|, k requires 0 <= k < |o.seenExecs| => TradeSnapshot(id, o.seenExecs[k], o.cumQty, o.avgPx.GetOr(o.price), 0, 0))
  }

  /** The trades of an order in the log, in their order. */
  function TradesWith(trades: seq<TradeSnapshot>, id: nat): seq<TradeSnapshot> {
    if trades == [] then []
    else TradesWith(trades[..|trades| - 1], id) + (if trades[|trades| - 1].order == id then [trades[|trades| - 1]] else [])
  }

  /** The log holds exactly the trades of the orders in ids. */
  ghost predicate TradesSeeded(orders: map<nat, Order>, ids: set<nat>, trades: seq<TradeSnapshot>) {
    forall id :: TradesWith(trades, id) == if id in ids && id in orders then TradesOf(orders[id], id) else []
  }

  lemma {:induction false} TradesWithMore(trades: seq<TradeSnapshot>, more: seq<TradeSnapshot>, id: nat)
    ensures TradesWith(trades + more, id) == TradesWith(trades, id) + TradesWith(more, id)
  {
    if more == [] {
      assert trades + more == trades;
    } else {
      var init := more[..|more| - 1];
      TradesWithMore(trades, init, id);
      assert (trades + more)[..|trades + more| - 1] == trades + init;
    }
  }

  lemma {:induction false} TradesOfOne(trades: seq<TradeSnapshot>, owner: nat, id: nat)
    requires forall k :: 0 <= k < |trades| ==> trades[k].order == owner
    ensures TradesWith(trades, id) == if id == owner then trades else []
  {
    if trades != [] { TradesOfOne(trades[..|trades| - 1], owner, id); }
  }

  lemma TradesTake(orders: map<nat, Order>, ids: set<nat>, id: nat, trades: seq<TradeSnapshot>)
    requires TradesSeeded(orders, ids, trades) && id in orders && id !in ids
    ensures TradesSeeded(orders, ids + {id}, trades + TradesOf(orders[id], id))
  {
    var more := TradesOf(orders[id], id);
    forall k ensures TradesWith(trades + more, k) == if k in ids + {id} && k in orders then TradesOf(orders[k], k) else [] {
      TradesWithMore(trades, more, k);
      TradesOfOne(more, id, k);
    }
  }

  lemma MarksTake(orders: map<nat, Order>, ids: set<nat>, id: nat, marks: map<nat, int>, marks': map<nat, int>)
    requires MarksSeeded(orders, ids, marks) && id in orders
    requires marks' == match MarkOf(orders[id]) case Some(px) => marks[orders[id].instrument := px] case None => marks
    ensures MarksSeeded(orders, ids + {id}, marks')
  {
    forall i | i in marks' ensures MarkFrom(orders, ids + {id}, i, marks'[i]) {
      if MarkOf(orders[id]).Some? && i == orders[id].instrument {
        assert id in ids + {id};
      } else {
        var k :| k in ids && k in orders && orders[k].instrument == i && MarkOf(orders[k]) == Some(marks[i]);
        assert k in ids + {id};
      }
    }
  }
}

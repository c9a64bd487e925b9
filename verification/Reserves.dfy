/** Conservation of reserves: the journal's reserved cash and the book's reserved lots equal the sums
    of what the engine holds per order. */
module Reserves {
  import opened Base
  import opened Ledger
  import opened Orders
  import opened OrderStores
  import opened PaperBooks
  import opened Instruments
  import opened Execution
  import opened Risk
  import opened Notionals
  import opened Sandbox
  import opened Delivery
  import opened Engine

  // ----- totals

  function HeldCash(e: EngineState, id: nat): int { if id in e.cash then e.cash[id].minor else 0 }

  function HeldLots(e: EngineState, id: nat): int { if id in e.lots then e.lots[id] else 0 }

  function CashFor(e: EngineState, id: nat, account: nat, c: Currency): int {
    if id in e.cash && id in e.orders.orders && e.orders.orders[id].account == account && e.cash[id].currency == c
    then e.cash[id].minor else 0
  }

  function LotsFor(e: EngineState, id: nat, account: nat, instrument: nat): int {
    if id in e.lots && id in e.orders.orders && e.orders.orders[id].account == account && e.orders.orders[id].instrument == instrument
    then e.lots[id] else 0
  }

  /** Cash held for the orders of an account in a currency. */
  ghost function CashTotal(e: EngineState, account: nat, c: Currency): int {
    Sum(e.orders.nextId, (id: nat) => CashFor(e, id, account, c))
  }

  /** Lots held for the orders of an account in an instrument. */
  ghost function LotsTotal(e: EngineState, account: nat, instrument: nat): int {
    Sum(e.orders.nextId, (id: nat) => LotsFor(e, id, account, instrument))
  }

  ghost predicate Conserved(e: EngineState) {
    && (forall a: nat, c: Currency :: e.book.Reserved(a, c) == CashTotal(e, a, c))
    && (forall a: nat, i: nat :: e.book.ReservedPosition(a, i) == LotsTotal(e, a, i))
  }

  // ----- what holds in every run without ledger overflow

  ghost predicate OrdersOk(e: EngineState) {
    forall id :: id in e.orders.orders ==>
      var o := e.orders.orders[id];
      && 1 <= id <= e.orders.nextId && o.id == id && WellFormed(o)
      && o.instrument in e.master && e.master[o.instrument].Valid()
  }

  ghost predicate HoldOk(e: EngineState, id: nat) {
    && (id in e.cash ==>
          && id in e.orders.orders && e.orders.orders[id].side.Buy? && e.cash[id].minor > 0
          && e.orders.orders[id].instrument in e.master
          && e.cash[id].currency == e.master[e.orders.orders[id].instrument].quote)
    && (id in e.lots ==> id in e.orders.orders && e.orders.orders[id].side.Sell? && e.lots[id] > 0)
  }

  ghost predicate HoldsOk(e: EngineState) { forall id: nat :: HoldOk(e, id) }

  /** Reserve keys name allocated orders, release keys only terminal ones. */
  ghost predicate KeysOk(e: EngineState) {
    && (forall a: nat, id: nat :: e.book.HasKey(ReserveKey(a, id)) ==> id <= e.orders.nextId)
    && (forall a: nat, id: nat :: e.book.HasKey(ReleaseKey(a, id)) ==>
          id in e.orders.orders && e.orders.orders[id].status.IsTerminal())
  }

  ghost predicate MasterOk(e: EngineState) { forall i :: i in e.master ==> e.master[i].Valid() }

  ghost predicate Sane(e: EngineState) {
    MasterOk(e) && OrdersOk(e) && HoldsOk(e) && KeysOk(e) && BookSound(e.book)
  }

  /** The one ledger condition the statements exclude: a balance or position left its width. */
  predicate Overflowed(r: Outcome) {
    r == Err(LedgerFailed(MoneyOverflow)) || r == Err(LedgerFailed(LedgerError.InvalidQuantity))
  }

  // ----- how one order's hold moves the totals

  /** Everything about other orders is the same in both states. */
  ghost predicate OthersSame(e: EngineState, n: EngineState, k: nat) {
    && n.master == e.master
    && (forall id: nat :: id != k ==> (id in n.cash <==> id in e.cash) && (id in e.cash ==> n.cash[id] == e.cash[id]))
    && (forall id: nat :: id != k ==> (id in n.lots <==> id in e.lots) && (id in e.lots ==> n.lots[id] == e.lots[id]))
    && (forall id: nat :: id != k ==>
          (id in n.orders.orders <==> id in e.orders.orders)
          && (id in e.orders.orders ==> n.orders.orders[id] == e.orders.orders[id]))
  }

  ghost predicate IdsBounded(e: EngineState) {
    forall id :: id in e.orders.orders ==> 1 <= id <= e.orders.nextId
  }

  lemma {:induction false} SumExtends(m: nat, n: nat, f: nat -> int)
    requires m <= n && forall i: nat :: m < i <= n ==> f(i) == 0
    ensures Sum(n, f) == Sum(m, f)
  {
    if m < n { SumExtends(m, n - 1, f); }
  }

  lemma TotalsChange(e: EngineState, n: EngineState, k: nat, a: nat, c: Currency, i: nat)
    requires OthersSame(e, n, k) && IdsBounded(e) && IdsBounded(n) && e.orders.nextId <= n.orders.nextId
    ensures CashTotal(n, a, c) == CashTotal(e, a, c) + CashFor(n, k, a, c) - CashFor(e, k, a, c)
    ensures LotsTotal(n, a, i) == LotsTotal(e, a, i) + LotsFor(n, k, a, i) - LotsFor(e, k, a, i)
  {
    var top := n.orders.nextId;
    SumExtends(e.orders.nextId, top, (id: nat) => CashFor(e, id, a, c));
    SumExtends(e.orders.nextId, top, (id: nat) => LotsFor(e, id, a, i));
    SumChange(top, (id: nat) => CashFor(e, id, a, c), (id: nat) => CashFor(n, id, a, c), k);
    SumChange(top, (id: nat) => LotsFor(e, id, a, i), (id: nat) => LotsFor(n, id, a, i), k);
  }

  /** The reserved buckets moved by dCash in (account, c) and dLots in (account, instrument) only. */
  ghost predicate ReservesMove(b: Book, n: Book, account: nat, c: Currency, dCash: int, instrument: nat, dLots: int) {
    && (forall a: nat, d: Currency :: n.Reserved(a, d) == b.Reserved(a, d) + (if a == account && d == c then dCash else 0))
    && (forall a: nat, i: nat ::
          n.ReservedPosition(a, i) == b.ReservedPosition(a, i) + (if a == account && i == instrument then dLots else 0))
  }

  /** The order k belongs to the account and instrument, and what it holds is in the currency. */
  ghost predicate Owns(e: EngineState, k: nat, account: nat, c: Currency, instrument: nat) {
    && (k in e.orders.orders ==> e.orders.orders[k].account == account && e.orders.orders[k].instrument == instrument)
    && (k in e.cash ==> k in e.orders.orders && e.cash[k].currency == c)
    && (k in e.lots ==> k in e.orders.orders)
  }

  /** One order changed: conservation survives exactly when the buckets moved by what its hold moved. */
  lemma ConservedIff(e: EngineState, n: EngineState, k: nat, account: nat, c: Currency, instrument: nat, dCash: int, dLots: int)
    requires Conserved(e)
    requires OthersSame(e, n, k) && IdsBounded(e) && IdsBounded(n) && e.orders.nextId <= n.orders.nextId
    requires Owns(e, k, account, c, instrument) && Owns(n, k, account, c, instrument)
    requires ReservesMove(e.book, n.book, account, c, dCash, instrument, dLots)
    ensures Conserved(n) <==> dCash == HeldCash(n, k) - HeldCash(e, k) && dLots == HeldLots(n, k) - HeldLots(e, k)
  {
    forall a: nat, d: Currency
      ensures n.book.Reserved(a, d) - CashTotal(n, a, d)
              == if a == account && d == c then dCash - (HeldCash(n, k) - HeldCash(e, k)) else 0
    {
      TotalsChange(e, n, k, a, d, 0);
      assert e.book.Reserved(a, d) == CashTotal(e, a, d);
    }
    forall a: nat, i: nat
      ensures n.book.ReservedPosition(a, i) - LotsTotal(n, a, i)
              == if a == account && i == instrument then dLots - (HeldLots(n, k) - HeldLots(e, k)) else 0
    {
      TotalsChange(e, n, k, a, c, i);
      assert e.book.ReservedPosition(a, i) == LotsTotal(e, a, i);
    }
    if Conserved(n) {
      assert n.book.Reserved(account, c) == CashTotal(n, account, c);
      assert n.book.ReservedPosition(account, instrument) == LotsTotal(n, account, instrument);
    }
  }

  /** What one order holds is inside its account's reserved bucket. */
  lemma HoldWithinBucket(e: EngineState, k: nat)
    requires Conserved(e) && Sane(e)
    ensures k in e.cash ==>
      k in e.orders.orders && e.cash[k].minor <= e.book.Reserved(e.orders.orders[k].account, e.cash[k].currency)
    ensures k in e.lots ==>
      k in e.orders.orders && e.lots[k] <= e.book.ReservedPosition(e.orders.orders[k].account, e.orders.orders[k].instrument)
  {
    assert HoldOk(e, k);
    if k in e.cash {
      var a, c := e.orders.orders[k].account, e.cash[k].currency;
      forall id: nat ensures CashFor(e, id, a, c) >= 0 { assert HoldOk(e, id); }
      SumNonNegative(e.orders.nextId, (id: nat) => CashFor(e, id, a, c), k);
    }
    if k in e.lots {
      var a, i := e.orders.orders[k].account, e.orders.orders[k].instrument;
      forall id: nat ensures LotsFor(e, id, a, i) >= 0 { assert HoldOk(e, id); }
      SumNonNegative(e.orders.nextId, (id: nat) => LotsFor(e, id, a, i), k);
    }
  }

  // ----- steps of the ledger side, with the orders already updated

  /** A ledger-side step for order o: only its hold and its buckets moved. */
  ghost predicate Shift(e: EngineState, n: EngineState, o: Order, c: Currency, dCash: int, dLots: int) {
    && n.orders == e.orders && OthersSame(e, n, o.id)
    && ReservesMove(e.book, n.book, o.account, c, dCash, o.instrument, dLots)
    && BookSound(n.book)
  }

  lemma ShiftThen(e: EngineState, m: EngineState, n: EngineState, o: Order, c: Currency, d1: int, l1: int, d2: int, l2: int)
    requires Shift(e, m, o, c, d1, l1) && Shift(m, n, o, c, d2, l2)
    ensures Shift(e, n, o, c, d1 + d2, l1 + l2)
  {
    forall a: nat, d: Currency
      ensures n.book.Reserved(a, d) == e.book.Reserved(a, d) + (if a == o.account && d == c then d1 + d2 else 0)
    {
      assert m.book.Reserved(a, d) == e.book.Reserved(a, d) + (if a == o.account && d == c then d1 else 0);
    }
    forall a: nat, i: nat
      ensures n.book.ReservedPosition(a, i) == e.book.ReservedPosition(a, i) + (if a == o.account && i == o.instrument then l1 + l2 else 0)
    {
      assert m.book.ReservedPosition(a, i) == e.book.ReservedPosition(a, i) + (if a == o.account && i == o.instrument then l1 else 0);
    }
  }

  /** Keys of the book after a step: the old ones and possibly one more. */
  ghost predicate KeysGrow(b: Book, n: Book, key: Key) {
    b.journal.byKey.Keys <= n.journal.byKey.Keys <= b.journal.byKey.Keys + {key}
  }

  lemma MovesFromCash(b: Book, n: Book, account: nat, c: Currency, available: int, reserved: int, instrument: nat)
    requires CashMoves(b, n, account, c, available, reserved) && SameLots(b, n)
    ensures ReservesMove(b, n, account, c, reserved, instrument, 0)
  {
  }

  lemma MovesFromLots(b: Book, n: Book, account: nat, instrument: nat, position: int, reserved: int, c: Currency)
    requires LotsMove(b, n, account, instrument, position, reserved) && n.journal == b.journal
    ensures ReservesMove(b, n, account, c, 0, instrument, reserved)
  {
  }

  lemma MovesFromBoth(b: Book, n: Book, account: nat, c: Currency, available: int, reserved: int, instrument: nat, position: int, lots: int)
    requires CashMoves(b, n, account, c, available, reserved) && LotsMove(b, n, account, instrument, position, lots)
    ensures ReservesMove(b, n, account, c, reserved, instrument, lots)
  {
  }

  lemma ReleaseCashShifts(e: EngineState, o: Order, c: Currency)
    requires BookSound(e.book)
    requires o.id in e.cash ==> e.cash[o.id].currency == c && 0 < e.cash[o.id].minor <= e.book.Reserved(o.account, c)
    requires !e.book.HasKey(ReleaseKey(o.account, o.id))
    requires !Overflowed(ReleaseCash(e, o).1)
    ensures var (n, r) := ReleaseCash(e, o);
      && r.Ok? && n.cash == e.cash - {o.id} && n.lots == e.lots
      && Shift(e, n, o, c, -HeldCash(e, o.id), 0)
      && KeysGrow(e.book, n.book, ReleaseKey(o.account, o.id))
  {
    if o.id in e.cash {
      var amount := e.cash[o.id];
      var key := ReleaseKey(o.account, o.id);
      ReleaseOutcome(e.book, o.account, amount, key);
      ReleaseEffect(e.book, o.account, amount, key);
      var book := ReleaseReserve(e.book, o.account, amount, key).0;
      MovesFromCash(e.book, book, o.account, c, amount.minor, -amount.minor, o.instrument);
      SoundAfterCash(e.book, book, o.account, c, amount.minor, -amount.minor);
    }
  }

  lemma ReleaseLotsShifts(e: EngineState, o: Order, c: Currency)
    requires BookSound(e.book)
    requires o.id in e.lots ==> 0 < e.lots[o.id] <= e.book.ReservedPosition(o.account, o.instrument)
    ensures var (n, r) := Engine.ReleaseLots(e, o);
      && r.Ok? && n.lots == e.lots - {o.id} && n.cash == e.cash
      && Shift(e, n, o, c, 0, -HeldLots(e, o.id))
      && n.book.journal == e.book.journal
  {
    if o.id in e.lots {
      var qty := e.lots[o.id];
      ReleaseLotsOutcome(e.book, o.account, o.instrument, qty);
      ReleaseLotsEffect(e.book, o.account, o.instrument, qty);
      var book := ReleasePositionReserve(e.book, o.account, o.instrument, qty).0;
      MovesFromLots(e.book, book, o.account, o.instrument, 0, -qty, c);
      SameCash(e.book, book);
      SoundAfterLots(e.book, book, o.account, o.instrument, 0, -qty);
    }
  }

  /** Releasing what is left always succeeds and takes exactly the hold out of the buckets. */
  lemma ReleaseRemainingShifts(e: EngineState, o: Order, c: Currency)
    requires BookSound(e.book)
    requires o.id in e.cash ==> e.cash[o.id].currency == c && 0 < e.cash[o.id].minor <= e.book.Reserved(o.account, c)
    requires o.id in e.lots ==> 0 < e.lots[o.id] <= e.book.ReservedPosition(o.account, o.instrument)
    requires !e.book.HasKey(ReleaseKey(o.account, o.id))
    requires !Overflowed(ReleaseRemaining(e, o).1)
    ensures var (n, r) := ReleaseRemaining(e, o);
      && r.Ok? && n.cash == e.cash - {o.id} && n.lots == e.lots - {o.id}
      && Shift(e, n, o, c, -HeldCash(e, o.id), -HeldLots(e, o.id))
      && KeysGrow(e.book, n.book, ReleaseKey(o.account, o.id))
  {
    ReleaseCashShifts(e, o, c);
    var m := ReleaseCash(e, o).0;
    assert m.book.ReservedPosition(o.account, o.instrument) == e.book.ReservedPosition(o.account, o.instrument);
    ReleaseLotsShifts(m, o, c);
    ShiftThen(e, m, ReleaseRemaining(e, o).0, o, c, -HeldCash(e, o.id), 0, 0, -HeldLots(e, o.id));
  }

  /** A buy fill: refused without any change when the hold is too small, otherwise the hold shrinks by
      the value and the bucket by the value too, unless the fill key was already used. */
  lemma BuyFillShifts(e: EngineState, o: Order, exec: string, qty: int, value: Money)
    requires BookSound(e.book) && qty > 0 && value.minor > 0
    requires o.id in e.cash ==> e.cash[o.id].currency == value.currency && 0 < e.cash[o.id].minor <= e.book.Reserved(o.account, value.currency)
    requires !Overflowed(SettleBuyFill(e, o, exec, qty, value).1)
    ensures var (n, r) := SettleBuyFill(e, o, exec, qty, value); var key := FillKey(exec);
      && n.lots == e.lots && (r.Ok? <==> HeldCash(e, o.id) >= value.minor)
      && (r.Err? ==> n == e && r == Err(ReservationShortfall(o.id)))
      && (r.Ok? ==>
            && n == WithReserve(e.(book := n.book), o.id, Money(HeldCash(e, o.id) - value.minor, value.currency))
            && n.book.journal.byKey.Keys == e.book.journal.byKey.Keys + {key}
            && Shift(e, n, o, value.currency, if e.book.HasKey(key) then 0 else -value.minor, 0))
  {
    if HeldCash(e, o.id) >= value.minor {
      var fee, key := Money(0, value.currency), FillKey(exec);
      BuyOutcome(e.book, o.account, o.instrument, qty, value, key);
      SettleBuyEffect(e.book, o.account, o.instrument, qty, value, fee, key);
      BuyKeepsSound(e.book, o.account, o.instrument, qty, value, fee, key);
      var book := SettleBuy(e.book, o.account, o.instrument, qty, value, fee, key).0;
      var isNew := !e.book.HasKey(key);
      MovesFromBoth(e.book, book, o.account, value.currency, 0, if isNew then -value.minor else 0, o.instrument, if isNew then qty else 0, 0);
    }
  }

  lemma SellFillShifts(e: EngineState, o: Order, exec: string, qty: int, value: Money)
    requires BookSound(e.book) && qty > 0 && value.minor > 0
    requires o.id in e.lots ==> 0 < e.lots[o.id] <= e.book.ReservedPosition(o.account, o.instrument)
    requires !Overflowed(SettleSellFill(e, o, exec, qty, value).1)
    ensures var (n, r) := SettleSellFill(e, o, exec, qty, value); var key := FillKey(exec);
      && n.cash == e.cash && (r.Ok? <==> HeldLots(e, o.id) >= qty)
      && (r.Err? ==> n == e && r == Err(ReservationShortfall(o.id)))
      && (r.Ok? ==>
            && n == WithLots(e.(book := n.book), o.id, HeldLots(e, o.id) - qty)
            && n.book.journal.byKey.Keys == e.book.journal.byKey.Keys + {key}
            && Shift(e, n, o, value.currency, 0, if e.book.HasKey(key) then 0 else -qty))
  {
    if HeldLots(e, o.id) >= qty {
      var fee, key := Money(0, value.currency), FillKey(exec);
      SellOutcome(e.book, o.account, o.instrument, qty, value, key);
      SettleSellEffect(e.book, o.account, o.instrument, qty, value, fee, key);
      SellKeepsSound(e.book, o.account, o.instrument, qty, value, fee, key);
      var book := SettleSell(e.book, o.account, o.instrument, qty, value, fee, key).0;
      var moved := if e.book.HasKey(key) then 0 else -qty;
      MovesFromBoth(e.book, book, o.account, value.currency, if e.book.HasKey(key) then 0 else value.minor, 0, o.instrument, moved, moved);
    }
  }
}

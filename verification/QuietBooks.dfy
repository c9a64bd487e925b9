/** Engine steps that record no fill: whatever the reserves look like, they keep the book sound and
    touch no fill key. */
module QuietBooks {
  import opened Base
  import opened Ledger
  import opened Orders
  import opened OrderStores
  import opened PaperBooks
  import opened Instruments
  import opened Execution
  import opened Risk
  import opened Notionals
  import opened Sandbox
  import opened Delivery
  import opened Engine
  import opened Reserves

  /** The book is sound and its journal's key index exact. */
  ghost predicate BookOk(b: Book) { BookSound(b) && Indexed(b.journal) }

  /** No fill key and no reserve key appeared, and the book stayed sound. */
  ghost predicate QuietStep(b: Book, n: Book) {
    && BookOk(n)
    && (forall x: string :: n.HasKey(FillKey(x)) <==> b.HasKey(FillKey(x)))
    && (forall a: nat, id: nat :: n.HasKey(ReserveKey(a, id)) <==> b.HasKey(ReserveKey(a, id)))
  }

  lemma QuietThen(b: Book, m: Book, n: Book)
    requires QuietStep(b, m) && QuietStep(m, n)
    ensures QuietStep(b, n)
  {
  }

  predicate QuietKey(key: Key) { !key.FillKey? && !key.ReserveKey? }

  lemma QuietFromKeys(b: Book, n: Book, key: Key, posted: bool)
    requires KeysAfter(b, n, key, posted) && QuietKey(key) && BookOk(n)
    ensures QuietStep(b, n)
  {
  }

  lemma ReleaseQuiet(b: Book, account: nat, amount: Money, key: Key)
    requires BookOk(b) && QuietKey(key) && ReleaseReserve(b, account, amount, key).1 != Err(MoneyOverflow)
    ensures QuietStep(b, ReleaseReserve(b, account, amount, key).0)
  {
    ReleaseEffect(b, account, amount, key);
    CashKeepsIndexed(b, account, amount, key);
    var (n, r) := ReleaseReserve(b, account, amount, key);
    var d := if r.Ok? && !b.HasKey(key) then amount.minor else 0;
    SoundAfterCash(b, n, account, amount.currency, d, -d);
    QuietFromKeys(b, n, key, r.Ok? && !b.HasKey(key));
  }

  lemma DrawQuiet(b: Book, account: nat, amount: Money, key: Key)
    requires BookOk(b) && QuietKey(key) && ReserveForOrder(b, account, amount, key).1 != Err(MoneyOverflow)
    ensures QuietStep(b, ReserveForOrder(b, account, amount, key).0)
  {
    ReserveEffect(b, account, amount, key);
    CashKeepsIndexed(b, account, amount, key);
    var (n, r) := ReserveForOrder(b, account, amount, key);
    var d := if r.Ok? && !b.HasKey(key) then amount.minor else 0;
    SoundAfterCash(b, n, account, amount.currency, -d, d);
    QuietFromKeys(b, n, key, r.Ok? && !b.HasKey(key));
  }

  lemma ReleaseLotsQuiet(b: Book, account: nat, instrument: nat, qty: int)
    requires BookOk(b)
    ensures QuietStep(b, ReleasePositionReserve(b, account, instrument, qty).0)
  {
    ReleaseLotsEffect(b, account, instrument, qty);
    var (n, r) := ReleasePositionReserve(b, account, instrument, qty);
    SameCash(b, n);
    SoundAfterLots(b, n, account, instrument, 0, if r.Ok? then -qty else 0);
  }

  lemma ReserveLotsQuiet(b: Book, account: nat, instrument: nat, qty: int)
    requires BookOk(b)
    ensures QuietStep(b, ReservePositionForOrder(b, account, instrument, qty).0)
  {
    ReserveLotsEffect(b, account, instrument, qty);
    var (n, r) := ReservePositionForOrder(b, account, instrument, qty);
    SameCash(b, n);
    SoundAfterLots(b, n, account, instrument, 0, if r.Ok? then qty else 0);
  }

  lemma DepositQuiet(b: Book, account: nat, amount: Money, key: string)
    requires BookOk(b) && Deposit(b, account, amount, ClientKey(key)).1 != Err(MoneyOverflow)
    ensures QuietStep(b, Deposit(b, account, amount, ClientKey(key)).0)
  {
    DepositEffect(b, account, amount, ClientKey(key));
    CashKeepsIndexed(b, account, amount, ClientKey(key));
    var (n, r) := Deposit(b, account, amount, ClientKey(key));
    var d := if r.Ok? && !b.HasKey(ClientKey(key)) then amount.minor else 0;
    SoundAfterCash(b, n, account, amount.currency, d, 0);
    QuietFromKeys(b, n, ClientKey(key), r.Ok? && !b.HasKey(ClientKey(key)));
  }

  lemma WithdrawQuiet(b: Book, account: nat, amount: Money, key: string)
    requires BookOk(b) && Withdraw(b, account, amount, ClientKey(key)).1 != Err(MoneyOverflow)
    ensures QuietStep(b, Withdraw(b, account, amount, ClientKey(key)).0)
  {
    WithdrawEffect(b, account, amount, ClientKey(key));
    CashKeepsIndexed(b, account, amount, ClientKey(key));
    var (n, r) := Withdraw(b, account, amount, ClientKey(key));
    var d := if r.Ok? && !b.HasKey(ClientKey(key)) then amount.minor else 0;
    SoundAfterCash(b, n, account, amount.currency, -d, 0);
    QuietFromKeys(b, n, ClientKey(key), r.Ok? && !b.HasKey(ClientKey(key)));
  }

  // ----- engine steps

  /** Only the ledger book and the reserve maps may differ. */
  predicate LedgerSide(e: EngineState, n: EngineState) { n == e.(book := n.book, cash := n.cash, lots := n.lots) }

  lemma ReleaseCashQuiet(e: EngineState, o: Order)
    requires BookOk(e.book) && !Overflowed(ReleaseCash(e, o).1)
    ensures LedgerSide(e, ReleaseCash(e, o).0) && QuietStep(e.book, ReleaseCash(e, o).0.book)
  {
    if o.id in e.cash && e.cash[o.id].minor != 0 {
      ReleaseQuiet(e.book, o.account, e.cash[o.id], ReleaseKey(o.account, o.id));
    }
  }

  lemma ReleaseRemainingQuiet(e: EngineState, o: Order)
    requires BookOk(e.book) && !Overflowed(ReleaseRemaining(e, o).1)
    ensures LedgerSide(e, ReleaseRemaining(e, o).0) && QuietStep(e.book, ReleaseRemaining(e, o).0.book)
  {
    var (m, r) := ReleaseCash(e, o);
    ReleaseCashQuiet(e, o);
    if r.Ok? && o.id in m.lots && m.lots[o.id] > 0 {
      ReleaseLotsQuiet(m.book, o.account, o.instrument, m.lots[o.id]);
      QuietThen(e.book, m.book, ReleaseRemaining(e, o).0.book);
    }
  }

  lemma ReplacedBuyQuiet(e: EngineState, o: Order, i: Instrument, price: int)
    requires BookOk(e.book) && !Overflowed(ReplacedBuy(e, o, i, price).1)
    ensures LedgerSide(e, ReplacedBuy(e, o, i, price).0) && QuietStep(e.book, ReplacedBuy(e, o, i, price).0.book)
  {
    match Notional(i, price, o.leavesQty)
    case Err(_) =>
    case Ok(target) =>
      var current := if o.id in e.cash then e.cash[o.id] else Money(0, target.currency);
      if current.minor > target.minor && current.currency == target.currency {
        ReleaseQuiet(e.book, o.account, Money(current.minor - target.minor, target.currency), ReplaceReleaseKey(o.account, o.id));
      }
  }

  lemma ReplacedSellQuiet(e: EngineState, o: Order)
    requires BookOk(e.book)
    ensures LedgerSide(e, ReplacedSell(e, o).0) && QuietStep(e.book, ReplacedSell(e, o).0.book)
  {
    var current := if o.id in e.lots then e.lots[o.id] else 0;
    if current > o.leavesQty { ReleaseLotsQuiet(e.book, o.account, o.instrument, current - o.leavesQty); }
  }

  /** Every effect but a trade records no fill. */
  lemma EffectQuiet(e: EngineState, o: Order, effect: DomainEffect)
    requires BookOk(e.book) && !effect.TradeEffect? && !Overflowed(ApplyEffect(e, o, effect).1)
    ensures LedgerSide(e, ApplyEffect(e, o, effect).0) && QuietStep(e.book, ApplyEffect(e, o, effect).0.book)
  {
    match effect
    case RejectedEffect(_) => ReleaseRemainingQuiet(e, o);
    case CanceledEffect => ReleaseRemainingQuiet(e, o);
    case ExpiredEffect => ReleaseRemainingQuiet(e, o);
    case ReplacedEffect(_, price) =>
      if o.instrument in e.master {
        if o.side.Buy? { ReplacedBuyQuiet(e, o, e.master[o.instrument], price); } else { ReplacedSellQuiet(e, o); }
      }
    case _ =>
  }

  lemma BuyTopUpQuiet(e: EngineState, o: Order, i: Instrument, req: ReplaceRequest)
    requires BookOk(e.book) && o.side.Buy? && !Overflowed(TopUp(e, o, i, req).1)
    ensures LedgerSide(e, TopUp(e, o, i, req).0) && QuietStep(e.book, TopUp(e, o, i, req).0.book)
  {
    match Notional(i, req.price, req.qty - o.cumQty)
    case Err(_) =>
    case Ok(target) =>
      var current := if o.id in e.cash then e.cash[o.id] else Money(0, i.quote);
      if target.minor > current.minor && target.currency == current.currency {
        DrawQuiet(e.book, o.account, Money(target.minor - current.minor, target.currency), ReplaceReserveKey(o.account, o.id));
      }
  }

  lemma TopUpQuiet(e: EngineState, o: Order, i: Instrument, req: ReplaceRequest)
    requires BookOk(e.book) && !Overflowed(TopUp(e, o, i, req).1)
    ensures LedgerSide(e, TopUp(e, o, i, req).0) && QuietStep(e.book, TopUp(e, o, i, req).0.book)
  {
    if o.side.Buy? {
      BuyTopUpQuiet(e, o, i, req);
    } else {
      var current := if o.id in e.lots then e.lots[o.id] else 0;
      var leaves := req.qty - o.cumQty;
      if leaves > current { ReserveLotsQuiet(e.book, o.account, o.instrument, leaves - current); }
    }
  }
}

/** Paper accounts: available and reserved cash on the journal, positions and sell-reserved lots beside it. */
module PaperBooks {
  import opened Base
  import opened Ledger

  datatype Book = Book(
    journal: JournalState,
    accounts: set<nat>,
    positions: map<(nat, nat), int>,
    reservedLots: map<(nat, nat), int>)
  {
    function Available(account: nat, c: Currency): int { journal.Balance(CustomerCash(account, c)) }

    function Reserved(account: nat, c: Currency): int { journal.Balance(CustomerCashReserved(account, c)) }

    function Position(account: nat, instrument: nat): int {
      if (account, instrument) in positions then positions[(account, instrument)] else 0
    }

    function ReservedPosition(account: nat, instrument: nat): int {
      if (account, instrument) in reservedLots then reservedLots[(account, instrument)] else 0
    }

    function AvailablePosition(account: nat, instrument: nat): int {
      Saturate(Position(account, instrument) - ReservedPosition(account, instrument))
    }

    predicate HasKey(k: Key) { k in journal.byKey }
  }

  /** 64-bit saturation, as saturating_sub. */
  function Saturate(x: int): int { Max(I64_MIN, Min(I64_MAX, x)) }

  const EMPTY_BOOK := Book(EMPTY_JOURNAL, {}, map[], map[])

  function Open(b: Book, account: nat): Book { b.(accounts := b.accounts + {account}) }

  function CheckFunds(have: Money, need: Money): Result<(), LedgerError> {
    if have.currency != need.currency then Err(CurrencyMismatch)
    else if have.minor < need.minor then Err(InsufficientFunds)
    else Ok(())
  }

  function PostNew(b: Book, key: Key, lines: seq<Posting>): (Book, Result<PostOutcome, LedgerError>) {
    match Build(key, None, None, lines)
    case Err(e) => (b, Err(e))
    case Ok(entry) =>
      var (j, r) := Post(b.journal, entry);
      (b.(journal := j), r)
  }

  function PostForId(b: Book, key: Key, lines: seq<Posting>): (Book, Result<nat, LedgerError>) {
    var (next, r) := PostNew(b, key, lines);
    (next, IdOf(r))
  }

  function DepositLines(account: nat, amount: Money): seq<Posting> {
    [Posting(CustomerCash(account, amount.currency), Debit, amount), Posting(PaperFunding(amount.currency), Credit, amount)]
  }

  function WithdrawLines(account: nat, amount: Money): seq<Posting> {
    [Posting(PaperFunding(amount.currency), Debit, amount), Posting(CustomerCash(account, amount.currency), Credit, amount)]
  }

  function ReserveLines(account: nat, amount: Money): seq<Posting> {
    [Posting(CustomerCashReserved(account, amount.currency), Debit, amount), Posting(CustomerCash(account, amount.currency), Credit, amount)]
  }

  function ReleaseLines(account: nat, amount: Money): seq<Posting> {
    [Posting(CustomerCash(account, amount.currency), Debit, amount), Posting(CustomerCashReserved(account, amount.currency), Credit, amount)]
  }

  function BuyLines(account: nat, notional: Money, fee: Money): seq<Posting> {
    [Posting(CustomerCashReserved(account, notional.currency), Credit, notional),
     Posting(BrokerSettlement(notional.currency), Debit, notional)]
    + (if fee.minor > 0 then
         [Posting(CustomerCash(account, notional.currency), Credit, fee),
          Posting(FeesRevenue(notional.currency), Debit, fee)]
       else [])
  }

  function SellLines(account: nat, proceeds: Money, net: Money, fee: Money): seq<Posting> {
    [Posting(BrokerSettlement(proceeds.currency), Credit, proceeds),
     Posting(CustomerCash(account, proceeds.currency), Debit, net)]
    + (if fee.minor > 0 then [Posting(FeesRevenue(proceeds.currency), Credit, fee)] else [])
  }

  function Deposit(b: Book, account: nat, amount: Money, key: Key): (Book, Result<nat, LedgerError>) {
    var b := Open(b, account);
    if amount.minor <= 0 then (b, Err(ZeroAmount))
    else PostForId(b, key, DepositLines(account, amount))
  }

  function Withdraw(b: Book, account: nat, amount: Money, key: Key): (Book, Result<nat, LedgerError>) {
    var b := Open(b, account);
    if amount.minor <= 0 then (b, Err(ZeroAmount))
    else match CheckFunds(Money(b.Available(account, amount.currency), amount.currency), amount)
      case Err(e) => (b, Err(e))
      case Ok(_) => PostForId(b, key, WithdrawLines(account, amount))
  }

  function ReserveForOrder(b: Book, account: nat, amount: Money, key: Key): (Book, Result<nat, LedgerError>) {
    var b := Open(b, account);
    if amount.minor <= 0 then (b, Err(ZeroAmount))
    else match CheckFunds(Money(b.Available(account, amount.currency), amount.currency), amount)
      case Err(e) => (b, Err(e))
      case Ok(_) => PostForId(b, key, ReserveLines(account, amount))
  }

  function ReleaseReserve(b: Book, account: nat, amount: Money, key: Key): (Book, Result<nat, LedgerError>) {
    var b := Open(b, account);
    if amount.minor <= 0 then (b, Err(ZeroAmount))
    else if b.Reserved(account, amount.currency) < amount.minor then (b, Err(InsufficientReserved))
    else PostForId(b, key, ReleaseLines(account, amount))
  }

  /** The checks of a buy settlement, in order. */
  function SettleBuyRefusal(b: Book, account: nat, qty: int, notional: Money, fee: Money): Option<LedgerError> {
    if qty <= 0 then Some(InvalidQuantity)
    else if notional.minor <= 0 then Some(ZeroAmount)
    else if fee.minor < 0 then Some(ZeroAmount)
    else if notional.currency != fee.currency then Some(MixedCurrency)
    else if b.Reserved(account, notional.currency) < notional.minor then Some(InsufficientReserved)
    else if fee.minor > 0 then
      match CheckFunds(Money(b.Available(account, notional.currency), notional.currency), fee)
      case Err(e) => Some(e)
      case Ok(_) => None
    else None
  }

  function SettleBuy(b: Book, account: nat, instrument: nat, qty: int, notional: Money, fee: Money, key: Key): (Book, Result<nat, LedgerError>) {
    var b := Open(b, account);
    match SettleBuyRefusal(b, account, qty, notional, fee)
    case Some(e) => (b, Err(e))
    case None => ThenAddLots(PostNew(b, key, BuyLines(account, notional, fee)), account, instrument, qty)
  }

  /** A newly posted buy adds its lots; a duplicate or a refused posting changes no position. */
  function ThenAddLots(posted: (Book, Result<PostOutcome, LedgerError>), account: nat, instrument: nat, qty: int): (Book, Result<nat, LedgerError>) {
    var (b, r) := posted;
    if r.Ok? && r.value.Posted? then
      var (b, fits) := AddLots(b, account, instrument, qty);
      (b, if fits then Ok(r.value.id) else Err(InvalidQuantity))
    else (b, IdOf(r))
  }

  function IdOf(r: Result<PostOutcome, LedgerError>): Result<nat, LedgerError> {
    match r case Ok(outcome) => Ok(outcome.id) case Err(e) => Err(e)
  }

  function AddLots(b: Book, account: nat, instrument: nat, qty: int): (Book, bool) {
    var lots := b.Position(account, instrument);
    if !FitsI64(lots + qty) then (b.(positions := b.positions[(account, instrument) := lots]), false)
    else (b.(positions := b.positions[(account, instrument) := lots + qty]), true)
  }

  function ReservePositionForOrder(b: Book, account: nat, instrument: nat, qty: int): (Book, Result<(), LedgerError>) {
    var b := Open(b, account);
    if qty <= 0 then (b, Err(InvalidQuantity))
    else if b.AvailablePosition(account, instrument) < qty then (b, Err(InsufficientPosition))
    else
      var held := b.ReservedPosition(account, instrument);
      if !FitsI64(held + qty) then (b.(reservedLots := b.reservedLots[(account, instrument) := held]), Err(InvalidQuantity))
      else (b.(reservedLots := b.reservedLots[(account, instrument) := held + qty]), Ok(()))
  }

  function ReleasePositionReserve(b: Book, account: nat, instrument: nat, qty: int): (Book, Result<(), LedgerError>) {
    var key := (account, instrument);
    if qty <= 0 then (b, Err(InvalidQuantity))
    else if key !in b.reservedLots || b.reservedLots[key] < qty then (b, Err(InsufficientPosition))
    else if b.reservedLots[key] == qty then (b.(reservedLots := b.reservedLots - {key}), Ok(()))
    else (b.(reservedLots := b.reservedLots[key := b.reservedLots[key] - qty]), Ok(()))
  }

  function SettleSellRefusal(b: Book, account: nat, instrument: nat, qty: int, proceeds: Money, fee: Money): Option<LedgerError> {
    if qty <= 0 then Some(InvalidQuantity)
    else if proceeds.minor <= 0 then Some(ZeroAmount)
    else if fee.minor < 0 then Some(ZeroAmount)
    else if proceeds.currency != fee.currency then Some(MixedCurrency)
    else if b.ReservedPosition(account, instrument) < qty then Some(InsufficientPosition)
    else if b.Position(account, instrument) < qty then Some(InvalidQuantity)
    else if !FitsI128(proceeds.minor - fee.minor) then Some(MoneyOverflow)
    else None
  }

  function SettleSell(b: Book, account: nat, instrument: nat, qty: int, proceeds: Money, fee: Money, key: Key): (Book, Result<nat, LedgerError>) {
    var b := Open(b, account);
    match SettleSellRefusal(b, account, instrument, qty, proceeds, fee)
    case Some(e) => (b, Err(e))
    case None =>
      var net := Money(proceeds.minor - fee.minor, proceeds.currency);
      ThenTakeLots(PostNew(b, key, SellLines(account, proceeds, net, fee)), account, instrument, qty)
  }

  function ThenTakeLots(posted: (Book, Result<PostOutcome, LedgerError>), account: nat, instrument: nat, qty: int): (Book, Result<nat, LedgerError>) {
    var (b, r) := posted;
    if r.Ok? && r.value.Posted? then
      var (b, fits) := TakeLots(b, account, instrument, qty);
      (b, if fits then Ok(r.value.id) else Err(InvalidQuantity))
    else (b, IdOf(r))
  }

  function TakeLots(b: Book, account: nat, instrument: nat, qty: int): (Book, bool) {
    var at := (account, instrument);
    var held := b.ReservedPosition(account, instrument) - qty;
    var b := b.(reservedLots := if held == 0 then b.reservedLots - {at} else b.reservedLots[at := held]);
    var lots := b.Position(account, instrument) - qty;
    if !FitsI64(lots) then (b.(positions := b.positions[at := b.Position(account, instrument)]), false)
    else (b.(positions := if lots == 0 then b.positions - {at} else b.positions[at := lots]), true)
  }

  function SetPosition(b: Book, account: nat, instrument: nat, lots: int, reserved: int): Book {
    var key := (account, instrument);
    Open(b, account).(
      positions := if lots == 0 then b.positions - {key} else b.positions[key := lots],
      reservedLots := if reserved <= 0 then b.reservedLots - {key} else b.reservedLots[key := reserved])
  }

  /** The accounts whose own ledger accounts the lines touch. */
  function Owners(lines: seq<Posting>): set<nat> {
    set i | 0 <= i < |lines| && (lines[i].account.CustomerCash? || lines[i].account.CustomerCashReserved? || lines[i].account.CustomerPosition?)
      :: lines[i].account.account
  }

  function RestoreEntry(b: Book, e: Entry): (Book, Result<PostOutcome, LedgerError>) {
    var (j, r) := Post(b.journal, e);
    (b.(journal := j, accounts := b.accounts + Owners(e.postings)), r)
  }

  // ----- the journal's key index

  lemma PostNewKeepsIndexed(b: Book, key: Key, lines: seq<Posting>)
    requires Indexed(b.journal)
    ensures Indexed(PostNew(b, key, lines).0.journal)
  {
    match Build(key, None, None, lines)
    case Err(_) =>
    case Ok(e) => PostKeepsIndexed(b.journal, e);
  }

  /** Whatever a cash command does, it keeps the key index exact. */
  lemma CashKeepsIndexed(b: Book, account: nat, amount: Money, key: Key)
    requires Indexed(b.journal)
    ensures Indexed(Deposit(b, account, amount, key).0.journal)
    ensures Indexed(Withdraw(b, account, amount, key).0.journal)
    ensures Indexed(ReserveForOrder(b, account, amount, key).0.journal)
    ensures Indexed(ReleaseReserve(b, account, amount, key).0.journal)
  {
    PostNewKeepsIndexed(Open(b, account), key, DepositLines(account, amount));
    PostNewKeepsIndexed(Open(b, account), key, WithdrawLines(account, amount));
    PostNewKeepsIndexed(Open(b, account), key, ReserveLines(account, amount));
    PostNewKeepsIndexed(Open(b, account), key, ReleaseLines(account, amount));
  }

  lemma LotsKeepJournal(posted: (Book, Result<PostOutcome, LedgerError>), account: nat, instrument: nat, qty: int)
    ensures ThenAddLots(posted, account, instrument, qty).0.journal == posted.0.journal
    ensures ThenTakeLots(posted, account, instrument, qty).0.journal == posted.0.journal
  {
  }

  lemma BuyKeepsIndexed(b: Book, account: nat, instrument: nat, qty: int, value: Money, fee: Money, key: Key)
    requires Indexed(b.journal)
    ensures Indexed(SettleBuy(b, account, instrument, qty, value, fee, key).0.journal)
  {
    var lines := BuyLines(account, value, fee);
    PostNewKeepsIndexed(Open(b, account), key, lines);
    LotsKeepJournal(PostNew(Open(b, account), key, lines), account, instrument, qty);
  }

  /** The journal of a sell is the old one or the one its posting made. */
  lemma SellJournal(b: Book, account: nat, instrument: nat, qty: int, value: Money, fee: Money, key: Key, lines: seq<Posting>,
                    posted: (Book, Result<PostOutcome, LedgerError>))
    requires lines == SellLines(account, value, Money(value.minor - fee.minor, value.currency), fee)
    requires posted == PostNew(Open(b, account), key, lines)
    ensures SettleSell(b, account, instrument, qty, value, fee, key).0.journal in {b.journal, posted.0.journal}
  {
    LotsKeepJournal(posted, account, instrument, qty);
  }

  lemma SellKeepsIndexed(b: Book, account: nat, instrument: nat, qty: int, value: Money, fee: Money, key: Key)
    requires Indexed(b.journal)
    ensures Indexed(SettleSell(b, account, instrument, qty, value, fee, key).0.journal)
  {
    var lines := SellLines(account, value, Money(value.minor - fee.minor, value.currency), fee);
    PostNewKeepsIndexed(Open(b, account), key, lines);
    SellJournal(b, account, instrument, qty, value, fee, key, lines, PostNew(Open(b, account), key, lines));
  }

  // ----- how each command moves money and lots

  ghost predicate CashMoves(b: Book, n: Book, account: nat, c: Currency, available: int, reserved: int) {
    forall a: nat, d: Currency ::
      && n.Available(a, d) == b.Available(a, d) + (if a == account && d == c then available else 0)
      && n.Reserved(a, d) == b.Reserved(a, d) + (if a == account && d == c then reserved else 0)
  }

  ghost predicate LotsMove(b: Book, n: Book, account: nat, instrument: nat, position: int, reserved: int) {
    forall a: nat, i: nat ::
      && n.Position(a, i) == b.Position(a, i) + (if a == account && i == instrument then position else 0)
      && n.ReservedPosition(a, i) == b.ReservedPosition(a, i) + (if a == account && i == instrument then reserved else 0)
  }

  ghost predicate SameLots(b: Book, n: Book) {
    n.positions == b.positions && n.reservedLots == b.reservedLots
  }

  function Hits(p: Posting, a: LedgerAccount): int { if p.account == a then p.Delta() else 0 }

  lemma NetOfTwo(p: Posting, q: Posting, a: LedgerAccount)
    ensures Net([p, q], a) == Hits(p, a) + Hits(q, a)
  {
    assert [p, q][1..] == [q];
    assert [q][1..] == [];
    assert Net([q], a) == Hits(q, a) + Net([], a);
  }

  lemma {:induction false} NetOfConcat(s: seq<Posting>, t: seq<Posting>, a: LedgerAccount)
    ensures Net(s + t, a) == Net(s, a) + Net(t, a)
    decreases |s|
  {
    if s == [] { assert s + t == t; } else {
      NetOfConcat(s[1..], t, a);
      assert (s + t)[1..] == s[1..] + t;
    }
  }

  /** What a successful posting of fresh lines does to every balance and to the key index. */
  lemma PostNewEffect(b: Book, key: Key, lines: seq<Posting>)
    requires PostNew(b, key, lines).1.Ok?
    ensures var (n, r) := PostNew(b, key, lines);
      && n == b.(journal := n.journal)
      && (b.HasKey(key) ==> n == b && r.value.Duplicate?)
      && (!b.HasKey(key) ==>
            && r.value.Posted?
            && n.journal.byKey.Keys == b.journal.byKey.Keys + {key}
            && forall a :: n.journal.Balance(a) == b.journal.Balance(a) + Net(lines, a))
  {
    BuildExactlyBalanced(key, None, None, lines);
    if !b.HasKey(key) {
      PostLinesNet(b.journal.signed, lines);
      var n := PostNew(b, key, lines).0;
      forall a ensures n.journal.Balance(a) == b.journal.Balance(a) + Net(lines, a) {
        assert n.journal.Balance(a) == BalanceIn(n.journal.signed, a);
        assert b.journal.Balance(a) == BalanceIn(b.journal.signed, a);
      }
    }
  }

  lemma PairEffect(b: Book, key: Key, p: Posting, q: Posting)
    requires PostNew(b, key, [p, q]).1.Ok?
    ensures var (n, r) := PostNew(b, key, [p, q]);
      && n == b.(journal := n.journal)
      && (b.HasKey(key) ==> n == b)
      && (!b.HasKey(key) ==>
            && n.journal.byKey.Keys == b.journal.byKey.Keys + {key}
            && forall a :: n.journal.Balance(a) == b.journal.Balance(a) + Hits(p, a) + Hits(q, a))
  {
    PostNewEffect(b, key, [p, q]);
    if !b.HasKey(key) {
      var n := PostNew(b, key, [p, q]).0;
      forall a ensures n.journal.Balance(a) == b.journal.Balance(a) + Hits(p, a) + Hits(q, a) { NetOfTwo(p, q, a); }
    }
  }

  /** Keys after a command: the fresh key is recorded exactly when the posting went through. */
  ghost predicate KeysAfter(b: Book, n: Book, key: Key, posted: bool) {
    n.journal.byKey.Keys == if posted then b.journal.byKey.Keys + {key} else b.journal.byKey.Keys
  }

  lemma DepositEffect(b: Book, account: nat, amount: Money, key: Key)
    requires Deposit(b, account, amount, key).1 != Err(MoneyOverflow)
    ensures var (n, r) := Deposit(b, account, amount, key); var isNew := r.Ok? && !b.HasKey(key);
      && SameLots(b, n) && KeysAfter(b, n, key, isNew)
      && CashMoves(b, n, account, amount.currency, if isNew then amount.minor else 0, 0)
  {
    var (n, r) := Deposit(b, account, amount, key);
    if r.Ok? {
      var lines := DepositLines(account, amount);
      PairEffect(Open(b, account), key, lines[0], lines[1]);
    } else {
      RefusedPostingChangesNothing(Open(b, account), key, DepositLines(account, amount));
    }
  }

  /** A posting that is refused without overflow leaves the book as it was. */
  lemma RefusedPostingChangesNothing(b: Book, key: Key, lines: seq<Posting>)
    ensures var (n, r) := PostNew(b, key, lines); r.Err? && r.error != MoneyOverflow ==> n == b
  {
  }

  lemma WithdrawEffect(b: Book, account: nat, amount: Money, key: Key)
    requires Withdraw(b, account, amount, key).1 != Err(MoneyOverflow)
    ensures var (n, r) := Withdraw(b, account, amount, key); var isNew := r.Ok? && !b.HasKey(key);
      && SameLots(b, n) && KeysAfter(b, n, key, isNew)
      && (r.Ok? ==> 0 < amount.minor <= b.Available(account, amount.currency))
      && CashMoves(b, n, account, amount.currency, if isNew then -amount.minor else 0, 0)
  {
    var (n, r) := Withdraw(b, account, amount, key);
    if r.Ok? {
      var lines := WithdrawLines(account, amount);
      PairEffect(Open(b, account), key, lines[0], lines[1]);
    } else {
      RefusedPostingChangesNothing(Open(b, account), key, WithdrawLines(account, amount));
    }
  }

  lemma ReserveEffect(b: Book, account: nat, amount: Money, key: Key)
    requires ReserveForOrder(b, account, amount, key).1 != Err(MoneyOverflow)
    ensures var (n, r) := ReserveForOrder(b, account, amount, key); var isNew := r.Ok? && !b.HasKey(key);
      && SameLots(b, n) && KeysAfter(b, n, key, isNew)
      && (r.Ok? ==> 0 < amount.minor <= b.Available(account, amount.currency))
      && CashMoves(b, n, account, amount.currency, if isNew then -amount.minor else 0, if isNew then amount.minor else 0)
  {
    var (n, r) := ReserveForOrder(b, account, amount, key);
    if r.Ok? {
      var lines := ReserveLines(account, amount);
      PairEffect(Open(b, account), key, lines[0], lines[1]);
    } else {
      RefusedPostingChangesNothing(Open(b, account), key, ReserveLines(account, amount));
    }
  }

  lemma ReleaseEffect(b: Book, account: nat, amount: Money, key: Key)
    requires ReleaseReserve(b, account, amount, key).1 != Err(MoneyOverflow)
    ensures var (n, r) := ReleaseReserve(b, account, amount, key); var isNew := r.Ok? && !b.HasKey(key);
      && SameLots(b, n) && KeysAfter(b, n, key, isNew)
      && (r.Ok? ==> 0 < amount.minor <= b.Reserved(account, amount.currency))
      && CashMoves(b, n, account, amount.currency, if isNew then amount.minor else 0, if isNew then -amount.minor else 0)
  {
    var (n, r) := ReleaseReserve(b, account, amount, key);
    if r.Ok? {
      var lines := ReleaseLines(account, amount);
      PairEffect(Open(b, account), key, lines[0], lines[1]);
    } else {
      RefusedPostingChangesNothing(Open(b, account), key, ReleaseLines(account, amount));
    }
  }

  /** Neither a balance overflow nor, after the posting, a position overflow. */
  predicate BuyClean(qty: int, r: Result<nat, LedgerError>) {
    r != Err(MoneyOverflow) && (qty > 0 ==> r != Err(InvalidQuantity))
  }

  lemma NetOfBuy(account: nat, notional: Money, fee: Money, a: nat, c: Currency)
    requires fee.currency == notional.currency
    ensures Net(BuyLines(account, notional, fee), CustomerCash(a, c))
            == if a == account && c == notional.currency && fee.minor > 0 then -fee.minor else 0
    ensures Net(BuyLines(account, notional, fee), CustomerCashReserved(a, c))
            == if a == account && c == notional.currency then -notional.minor else 0
  {
    var p, q := Posting(CustomerCashReserved(account, notional.currency), Credit, notional), Posting(BrokerSettlement(notional.currency), Debit, notional);
    var f, g := Posting(CustomerCash(account, notional.currency), Credit, fee), Posting(FeesRevenue(notional.currency), Debit, fee);
    BuyNet(p, q, f, g, fee.minor > 0, CustomerCash(a, c));
    BuyNet(p, q, f, g, fee.minor > 0, CustomerCashReserved(a, c));
  }

  lemma BuyNet(p: Posting, q: Posting, f: Posting, g: Posting, charged: bool, a: LedgerAccount)
    ensures Net([p, q] + (if charged then [f, g] else []), a)
            == Hits(p, a) + Hits(q, a) + (if charged then Hits(f, a) + Hits(g, a) else 0)
  {
    NetOfTwo(p, q, a);
    NetOfTwo(f, g, a);
    NetOfConcat([p, q], if charged then [f, g] else [], a);
  }

  /** A posting that moves only cash, seen on the two cash buckets. */
  lemma PostedBuyEffect(b: Book, account: nat, notional: Money, fee: Money, key: Key)
    requires fee.currency == notional.currency && fee.minor >= 0
    requires PostNew(b, key, BuyLines(account, notional, fee)).1.Ok?
    ensures var (n, r) := PostNew(b, key, BuyLines(account, notional, fee)); var isNew := !b.HasKey(key);
      && r.value.Posted? == isNew && SameLots(b, n) && KeysAfter(b, n, key, isNew)
      && CashMoves(b, n, account, notional.currency, if isNew then -fee.minor else 0, if isNew then -notional.minor else 0)
  {
    PostNewEffect(b, key, BuyLines(account, notional, fee));
    forall a: nat, c: Currency { NetOfBuy(account, notional, fee, a, c); }
  }

  lemma AddLotsEffect(b: Book, account: nat, instrument: nat, qty: int)
    requires FitsI64(b.Position(account, instrument) + qty)
    ensures var (n, fits) := AddLots(b, account, instrument, qty);
      fits && n.journal == b.journal && LotsMove(b, n, account, instrument, qty, 0)
  {
  }

  /** Opening an account, or changing lots, before or after a cash movement does not disturb it. */
  lemma CashMovesThrough(b: Book, o: Book, m: Book, n: Book, account: nat, c: Currency, available: int, reserved: int)
    requires CashMoves(o, m, account, c, available, reserved)
    requires o.journal == b.journal && n.journal == m.journal
    ensures CashMoves(b, n, account, c, available, reserved)
  {
    forall a: nat, d: Currency
      ensures b.Available(a, d) == o.Available(a, d) && b.Reserved(a, d) == o.Reserved(a, d)
      ensures n.Available(a, d) == m.Available(a, d) && n.Reserved(a, d) == m.Reserved(a, d)
    {
    }
  }

  lemma LotsMoveThrough(b: Book, m: Book, n: Book, account: nat, instrument: nat, position: int, reserved: int)
    requires LotsMove(m, n, account, instrument, position, reserved) && SameLots(b, m)
    ensures LotsMove(b, n, account, instrument, position, reserved)
  {
  }

  lemma BuyAfterPosting(b: Book, m: Book, r: Result<PostOutcome, LedgerError>, account: nat, c: Currency, instrument: nat, qty: int, available: int, reserved: int)
    requires r.Ok? && SameLots(b, m) && CashMoves(b, m, account, c, available, reserved)
    requires ThenAddLots((m, r), account, instrument, qty).1 != Err(InvalidQuantity)
    ensures var (n, out) := ThenAddLots((m, r), account, instrument, qty);
      && out.Ok? && n.journal == m.journal
      && CashMoves(b, n, account, c, available, reserved)
      && LotsMove(b, n, account, instrument, if r.value.Posted? then qty else 0, 0)
  {
    var n := ThenAddLots((m, r), account, instrument, qty).0;
    if r.value.Posted? {
      AddLotsEffect(m, account, instrument, qty);
      LotsMoveThrough(b, m, n, account, instrument, qty, 0);
    }
    CashMovesThrough(b, b, m, n, account, c, available, reserved);
  }

  lemma SettleBuyEffect(b: Book, account: nat, instrument: nat, qty: int, notional: Money, fee: Money, key: Key)
    requires BuyClean(qty, SettleBuy(b, account, instrument, qty, notional, fee, key).1)
    ensures var (n, r) := SettleBuy(b, account, instrument, qty, notional, fee, key); var isNew := r.Ok? && !b.HasKey(key);
      && KeysAfter(b, n, key, isNew)
      && (r.Ok? ==>
            && qty > 0 && 0 < notional.minor <= b.Reserved(account, notional.currency)
            && 0 <= fee.minor && (fee.minor > 0 ==> fee.minor <= b.Available(account, notional.currency)))
      && CashMoves(b, n, account, notional.currency, if isNew then -fee.minor else 0, if isNew then -notional.minor else 0)
      && LotsMove(b, n, account, instrument, if isNew then qty else 0, 0)
  {
    var o := Open(b, account);
    if SettleBuyRefusal(o, account, qty, notional, fee).None? {
      var (m, r) := PostNew(o, key, BuyLines(account, notional, fee));
      if r.Ok? {
        var isNew := !b.HasKey(key);
        var available, reserved := if isNew then -fee.minor else 0, if isNew then -notional.minor else 0;
        PostedBuyEffect(o, account, notional, fee, key);
        CashMovesThrough(b, o, m, m, account, notional.currency, available, reserved);
        BuyAfterPosting(b, m, r, account, notional.currency, instrument, qty, available, reserved);
      } else {
        RefusedPostingChangesNothing(o, key, BuyLines(account, notional, fee));
      }
    }
  }

  lemma ReserveLotsEffect(b: Book, account: nat, instrument: nat, qty: int)
    ensures var (n, r) := ReservePositionForOrder(b, account, instrument, qty);
      && n.journal == b.journal && n.positions == b.positions
      && (r.Ok? ==> qty > 0 && b.ReservedPosition(account, instrument) + qty <= b.Position(account, instrument))
      && LotsMove(b, n, account, instrument, 0, if r.Ok? then qty else 0)
  {
  }

  lemma ReleaseLotsEffect(b: Book, account: nat, instrument: nat, qty: int)
    ensures var (n, r) := ReleasePositionReserve(b, account, instrument, qty);
      && n.journal == b.journal && n.positions == b.positions
      && (r.Ok? ==> 0 < qty <= b.ReservedPosition(account, instrument))
      && LotsMove(b, n, account, instrument, 0, if r.Ok? then -qty else 0)
  {
  }

  /** The entry of a sell with a positive fee has credits without matching debits, so such a sell is
      always refused and moves nothing. */
  lemma SellWithFeeIsRefused(b: Book, account: nat, instrument: nat, qty: int, proceeds: Money, fee: Money, key: Key)
    requires fee.minor > 0
    ensures SettleSell(b, account, instrument, qty, proceeds, fee, key).1.Err?
    ensures SettleSell(b, account, instrument, qty, proceeds, fee, key).1 != Err(MoneyOverflow) ==>
            SettleSell(b, account, instrument, qty, proceeds, fee, key).0 == Open(b, account)
  {
    var net := Money(proceeds.minor - fee.minor, proceeds.currency);
    var lines := SellLines(account, proceeds, net, fee);
    var broker, cash, revenue := lines[0], lines[1], lines[2];
    assert revenue == Posting(FeesRevenue(proceeds.currency), Credit, fee);
    assert lines == [broker, cash, revenue];
    assert lines[1..] == [cash, revenue];
    assert [cash, revenue][1..] == [revenue];
    assert [revenue][1..] == [];
    assert DebitTotal([revenue]) == 0 + DebitTotal([]);
    assert CreditTotal([revenue]) == fee.minor + CreditTotal([]);
    assert DebitTotal([cash, revenue]) == net.minor && CreditTotal([cash, revenue]) == fee.minor;
    assert DebitTotal(lines) == net.minor && CreditTotal(lines) == proceeds.minor + fee.minor;
    BuildExactlyBalanced(key, None, None, lines);
    assert Build(key, None, None, lines).Err?;
  }

  lemma NetOfSell(account: nat, proceeds: Money, fee: Money, a: nat, c: Currency)
    requires fee.minor == 0
    ensures Net(SellLines(account, proceeds, proceeds, fee), CustomerCash(a, c))
            == if a == account && c == proceeds.currency then proceeds.minor else 0
    ensures Net(SellLines(account, proceeds, proceeds, fee), CustomerCashReserved(a, c)) == 0
  {
    var lines := SellLines(account, proceeds, proceeds, fee);
    assert lines == [lines[0], lines[1]];
    NetOfTwo(lines[0], lines[1], CustomerCash(a, c));
    NetOfTwo(lines[0], lines[1], CustomerCashReserved(a, c));
  }

  lemma PostedSellEffect(b: Book, account: nat, proceeds: Money, fee: Money, key: Key)
    requires fee.minor == 0
    requires PostNew(b, key, SellLines(account, proceeds, proceeds, fee)).1.Ok?
    ensures var (n, r) := PostNew(b, key, SellLines(account, proceeds, proceeds, fee)); var isNew := !b.HasKey(key);
      && r.value.Posted? == isNew && SameLots(b, n) && KeysAfter(b, n, key, isNew)
      && CashMoves(b, n, account, proceeds.currency, if isNew then proceeds.minor else 0, 0)
  {
    PostNewEffect(b, key, SellLines(account, proceeds, proceeds, fee));
    forall a: nat, c: Currency { NetOfSell(account, proceeds, fee, a, c); }
  }

  lemma TakeLotsEffect(b: Book, account: nat, instrument: nat, qty: int)
    requires 0 < qty <= b.Position(account, instrument) <= I64_MAX
    ensures var (n, fits) := TakeLots(b, account, instrument, qty);
      fits && n.journal == b.journal && LotsMove(b, n, account, instrument, -qty, -qty)
  {
  }

  lemma SellAfterPosting(b: Book, m: Book, r: Result<PostOutcome, LedgerError>, account: nat, c: Currency, instrument: nat, qty: int, available: int)
    requires r.Ok? && SameLots(b, m) && CashMoves(b, m, account, c, available, 0)
    requires 0 < qty <= b.Position(account, instrument) <= I64_MAX
    ensures var (n, out) := ThenTakeLots((m, r), account, instrument, qty); var moved := if r.value.Posted? then -qty else 0;
      && out.Ok? && n.journal == m.journal
      && CashMoves(b, n, account, c, available, 0) && LotsMove(b, n, account, instrument, moved, moved)
  {
    var n := ThenTakeLots((m, r), account, instrument, qty).0;
    assert m.Position(account, instrument) == b.Position(account, instrument);
    if r.value.Posted? {
      TakeLotsEffect(m, account, instrument, qty);
      LotsMoveThrough(b, m, n, account, instrument, -qty, -qty);
    }
    CashMovesThrough(b, b, m, n, account, c, available, 0);
  }

  lemma SettleSellEffect(b: Book, account: nat, instrument: nat, qty: int, proceeds: Money, fee: Money, key: Key)
    requires SettleSell(b, account, instrument, qty, proceeds, fee, key).1 != Err(MoneyOverflow)
    requires b.Position(account, instrument) <= I64_MAX
    ensures var (n, r) := SettleSell(b, account, instrument, qty, proceeds, fee, key); var isNew := r.Ok? && !b.HasKey(key);
      && KeysAfter(b, n, key, isNew)
      && (r.Ok? ==>
            && fee.minor == 0 && proceeds.minor > 0
            && 0 < qty <= b.ReservedPosition(account, instrument) && qty <= b.Position(account, instrument))
      && CashMoves(b, n, account, proceeds.currency, if isNew then proceeds.minor else 0, 0)
      && LotsMove(b, n, account, instrument, if isNew then -qty else 0, if isNew then -qty else 0)
  {
    var o := Open(b, account);
    if fee.minor > 0 {
      SellWithFeeIsRefused(b, account, instrument, qty, proceeds, fee, key);
    } else if SettleSellRefusal(o, account, instrument, qty, proceeds, fee).None? {
      assert Money(proceeds.minor - fee.minor, proceeds.currency) == proceeds;
      var lines := SellLines(account, proceeds, proceeds, fee);
      var (m, r) := PostNew(o, key, lines);
      if r.Ok? {
        var available := if b.HasKey(key) then 0 else proceeds.minor;
        PostedSellEffect(o, account, proceeds, fee, key);
        CashMovesThrough(b, o, m, m, account, proceeds.currency, available, 0);
        SellAfterPosting(b, m, r, account, proceeds.currency, instrument, qty, available);
      } else {
        RefusedPostingChangesNothing(o, key, lines);
      }
    }
  }

  // ----- when commands go through

  /** Two opposite lines of one positive amount always balance; only an overflow can refuse them. */
  lemma PairBuilds(key: Key, p: Posting, q: Posting)
    requires !key.IsEmpty() && p.amount == q.amount && p.amount.minor > 0 && p.direction != q.direction
    ensures Build(key, None, None, [p, q])
            == if FitsI128(p.amount.minor) then Ok(Entry(key, None, None, [p, q])) else Err(MoneyOverflow)
  {
    var lines := [p, q];
    assert lines[1..] == [q];
    assert [q][1..] == [];
    assert DebitTotal([q]) == (if q.direction.Debit? then q.amount.minor else 0) + DebitTotal([]);
    assert CreditTotal([q]) == (if q.direction.Credit? then q.amount.minor else 0) + CreditTotal([]);
    assert DebitTotal(lines) == p.amount.minor && CreditTotal(lines) == p.amount.minor;
    assert BalancedLines(lines);
    BuildExactlyBalanced(key, None, None, lines);
    if !FitsI128(p.amount.minor) {
      assert Tally(lines, 0, 0, None) == Err(MoneyOverflow);
    }
  }

  lemma PairPosts(b: Book, key: Key, p: Posting, q: Posting)
    requires !key.IsEmpty() && p.amount == q.amount && p.amount.minor > 0 && p.direction != q.direction
    ensures PostNew(b, key, [p, q]).1.Ok? || PostNew(b, key, [p, q]).1 == Err(MoneyOverflow)
  {
    PairBuilds(key, p, q);
  }

  lemma ReserveOutcome(b: Book, account: nat, amount: Money, key: Key)
    requires amount.minor > 0 && !key.IsEmpty()
    ensures var r := ReserveForOrder(b, account, amount, key).1;
      r == Err(MoneyOverflow) || (if amount.minor <= b.Available(account, amount.currency) then r.Ok? else r == Err(InsufficientFunds))
  {
    var lines := ReserveLines(account, amount);
    PairPosts(Open(b, account), key, lines[0], lines[1]);
  }

  lemma ReleaseOutcome(b: Book, account: nat, amount: Money, key: Key)
    requires amount.minor > 0 && !key.IsEmpty()
    ensures var r := ReleaseReserve(b, account, amount, key).1;
      r == Err(MoneyOverflow) || (if amount.minor <= b.Reserved(account, amount.currency) then r.Ok? else r == Err(InsufficientReserved))
  {
    var lines := ReleaseLines(account, amount);
    PairPosts(Open(b, account), key, lines[0], lines[1]);
  }

  lemma BuyOutcome(b: Book, account: nat, instrument: nat, qty: int, notional: Money, key: Key)
    requires qty > 0 && notional.minor > 0 && !key.IsEmpty()
    ensures var r := SettleBuy(b, account, instrument, qty, notional, Money(0, notional.currency), key).1;
      !BuyClean(qty, r) || (if notional.minor <= b.Reserved(account, notional.currency) then r.Ok? else r == Err(InsufficientReserved))
  {
    var fee := Money(0, notional.currency);
    var lines := BuyLines(account, notional, fee);
    assert lines == [lines[0], lines[1]];
    PairPosts(Open(b, account), key, lines[0], lines[1]);
  }

  lemma SellOutcome(b: Book, account: nat, instrument: nat, qty: int, proceeds: Money, key: Key)
    requires qty > 0 && proceeds.minor > 0 && !key.IsEmpty()
    requires b.ReservedPosition(account, instrument) <= b.Position(account, instrument) <= I64_MAX
    ensures var r := SettleSell(b, account, instrument, qty, proceeds, Money(0, proceeds.currency), key).1;
      r == Err(MoneyOverflow) || (if qty <= b.ReservedPosition(account, instrument) then r.Ok? else r == Err(InsufficientPosition))
  {
    var fee := Money(0, proceeds.currency);
    var lines := SellLines(account, proceeds, proceeds, fee);
    assert lines == [lines[0], lines[1]];
    assert Money(proceeds.minor - fee.minor, proceeds.currency) == proceeds;
    PairPosts(Open(b, account), key, lines[0], lines[1]);
    var o := Open(b, account);
    if SettleSellRefusal(o, account, instrument, qty, proceeds, fee).None? {
      var (m, r) := PostNew(o, key, lines);
      if r.Ok? {
        PostedSellEffect(o, account, proceeds, fee, key);
        if r.value.Posted? {
          assert m.Position(account, instrument) == b.Position(account, instrument);
          TakeLotsEffect(m, account, instrument, qty);
        }
      }
    }
  }

  lemma ReserveLotsOutcome(b: Book, account: nat, instrument: nat, qty: int)
    requires qty > 0
    requires 0 <= b.ReservedPosition(account, instrument) <= b.Position(account, instrument) <= I64_MAX
    ensures ReservePositionForOrder(b, account, instrument, qty).1
            == if qty <= b.Position(account, instrument) - b.ReservedPosition(account, instrument) then Ok(()) else Err(InsufficientPosition)
  {
  }

  lemma ReleaseLotsOutcome(b: Book, account: nat, instrument: nat, qty: int)
    requires 0 < qty <= b.ReservedPosition(account, instrument)
    ensures ReleasePositionReserve(b, account, instrument, qty).1.Ok?
  {
  }

  // ----- whole runs

  datatype BookCommand =
    | DoDeposit(account: nat, amount: Money, key: Key)
    | DoWithdraw(account: nat, amount: Money, key: Key)
    | DoReserve(account: nat, amount: Money, key: Key)
    | DoRelease(account: nat, amount: Money, key: Key)
    | DoBuy(account: nat, instrument: nat, qty: int, notional: Money, fee: Money, key: Key)
    | DoSell(account: nat, instrument: nat, qty: int, proceeds: Money, fee: Money, key: Key)
    | DoReserveLots(account: nat, instrument: nat, qty: int)
    | DoReleaseLots(account: nat, instrument: nat, qty: int)

  function Execute(b: Book, c: BookCommand): (Book, Result<nat, LedgerError>) {
    match c
    case DoDeposit(a, m, k) => Deposit(b, a, m, k)
    case DoWithdraw(a, m, k) => Withdraw(b, a, m, k)
    case DoReserve(a, m, k) => ReserveForOrder(b, a, m, k)
    case DoRelease(a, m, k) => ReleaseReserve(b, a, m, k)
    case DoBuy(a, i, q, m, f, k) => SettleBuy(b, a, i, q, m, f, k)
    case DoSell(a, i, q, m, f, k) => SettleSell(b, a, i, q, m, f, k)
    case DoReserveLots(a, i, q) =>
      (var (n, r) := ReservePositionForOrder(b, a, i, q); (n, match r case Ok(_) => Ok(0) case Err(e) => Err(e)))
    case DoReleaseLots(a, i, q) =>
      (var (n, r) := ReleasePositionReserve(b, a, i, q); (n, match r case Ok(_) => Ok(0) case Err(e) => Err(e)))
  }

  /** The command neither overflowed a balance nor, after posting, a position. */
  predicate Clean(b: Book, c: BookCommand) {
    var r := Execute(b, c).1;
    r != Err(MoneyOverflow) && (c.DoBuy? && c.qty > 0 ==> r != Err(InvalidQuantity))
  }

  /** Money entering the customer's cash from outside, counted only for a fresh key that went through. */
  function CashFlow(b: Book, c: BookCommand, account: nat, ccy: Currency): int {
    if Execute(b, c).1.Err? then 0
    else match c
      case DoDeposit(a, m, k) => if a == account && m.currency == ccy && !b.HasKey(k) then m.minor else 0
      case DoWithdraw(a, m, k) => if a == account && m.currency == ccy && !b.HasKey(k) then -m.minor else 0
      case DoBuy(a, _, _, m, f, k) => if a == account && m.currency == ccy && !b.HasKey(k) then -m.minor - f.minor else 0
      case DoSell(a, _, _, m, _, k) => if a == account && m.currency == ccy && !b.HasKey(k) then m.minor else 0
      case _ => 0
  }

  function LotFlow(b: Book, c: BookCommand, account: nat, instrument: nat): int {
    if Execute(b, c).1.Err? then 0
    else match c
      case DoBuy(a, i, q, _, _, k) => if a == account && i == instrument && !b.HasKey(k) then q else 0
      case DoSell(a, i, q, _, _, k) => if a == account && i == instrument && !b.HasKey(k) then -q else 0
      case _ => 0
  }

  function RunBook(cs: seq<BookCommand>): Book {
    if cs == [] then EMPTY_BOOK else Execute(RunBook(cs[..|cs| - 1]), cs[|cs| - 1]).0
  }

  function TotalCashFlow(cs: seq<BookCommand>, account: nat, ccy: Currency): int {
    if cs == [] then 0
    else TotalCashFlow(cs[..|cs| - 1], account, ccy) + CashFlow(RunBook(cs[..|cs| - 1]), cs[|cs| - 1], account, ccy)
  }

  function TotalLotFlow(cs: seq<BookCommand>, account: nat, instrument: nat): int {
    if cs == [] then 0
    else TotalLotFlow(cs[..|cs| - 1], account, instrument) + LotFlow(RunBook(cs[..|cs| - 1]), cs[|cs| - 1], account, instrument)
  }

  ghost predicate AllClean(cs: seq<BookCommand>) {
    forall k :: 0 <= k < |cs| ==> Clean(RunBook(cs[..k]), cs[k])
  }

  /** Cash buckets are never negative, and sell-reserved lots never exceed the position. */
  ghost predicate BookSound(b: Book) {
    && (forall a: nat, c: Currency :: b.Available(a, c) >= 0 && b.Reserved(a, c) >= 0)
    && (forall a: nat, i: nat :: 0 <= b.ReservedPosition(a, i) <= b.Position(a, i) <= I64_MAX)
  }

  lemma SoundAfterCash(b: Book, n: Book, account: nat, c: Currency, available: int, reserved: int)
    requires BookSound(b) && SameLots(b, n) && CashMoves(b, n, account, c, available, reserved)
    requires b.Available(account, c) + available >= 0 && b.Reserved(account, c) + reserved >= 0
    ensures BookSound(n)
  {
    forall a: nat, i: nat ensures 0 <= n.ReservedPosition(a, i) <= n.Position(a, i) <= I64_MAX {
      assert n.ReservedPosition(a, i) == b.ReservedPosition(a, i) && n.Position(a, i) == b.Position(a, i);
    }
  }

  lemma SoundAfterLots(b: Book, n: Book, account: nat, instrument: nat, position: int, reserved: int)
    requires BookSound(b) && LotsMove(b, n, account, instrument, position, reserved)
    requires forall a: nat, c: Currency :: n.Available(a, c) >= 0 && n.Reserved(a, c) >= 0
    requires 0 <= b.ReservedPosition(account, instrument) + reserved <= b.Position(account, instrument) + position <= I64_MAX
    ensures BookSound(n)
  {
  }

  lemma SameCash(b: Book, n: Book)
    requires n.journal == b.journal
    ensures forall a: nat, c: Currency :: n.Available(a, c) == b.Available(a, c) && n.Reserved(a, c) == b.Reserved(a, c)
  {
  }

  lemma BuyKeepsSound(b: Book, account: nat, instrument: nat, qty: int, notional: Money, fee: Money, key: Key)
    requires BookSound(b) && BuyClean(qty, SettleBuy(b, account, instrument, qty, notional, fee, key).1)
    ensures BookSound(SettleBuy(b, account, instrument, qty, notional, fee, key).0)
  {
    SettleBuyEffect(b, account, instrument, qty, notional, fee, key);
    var (n, r) := SettleBuy(b, account, instrument, qty, notional, fee, key);
    var isNew := r.Ok? && !b.HasKey(key);
    if isNew { assert n.Position(account, instrument) <= I64_MAX; }
    SoundAfterLots(b, n, account, instrument, if isNew then qty else 0, 0);
  }

  lemma SellKeepsSound(b: Book, account: nat, instrument: nat, qty: int, proceeds: Money, fee: Money, key: Key)
    requires BookSound(b) && SettleSell(b, account, instrument, qty, proceeds, fee, key).1 != Err(MoneyOverflow)
    ensures BookSound(SettleSell(b, account, instrument, qty, proceeds, fee, key).0)
  {
    SettleSellEffect(b, account, instrument, qty, proceeds, fee, key);
    var (n, r) := SettleSell(b, account, instrument, qty, proceeds, fee, key);
    var moved := if r.Ok? && !b.HasKey(key) then -qty else 0;
    SoundAfterLots(b, n, account, instrument, moved, moved);
  }

  lemma ExecuteKeepsSound(b: Book, c: BookCommand)
    requires BookSound(b) && Clean(b, c)
    ensures BookSound(Execute(b, c).0)
  {
    var (n, r) := Execute(b, c);
    match c
    case DoDeposit(a, m, k) =>
      DepositEffect(b, a, m, k);
      SoundAfterCash(b, n, a, m.currency, if r.Ok? && !b.HasKey(k) then m.minor else 0, 0);
    case DoWithdraw(a, m, k) =>
      WithdrawEffect(b, a, m, k);
      SoundAfterCash(b, n, a, m.currency, if r.Ok? && !b.HasKey(k) then -m.minor else 0, 0);
    case DoReserve(a, m, k) =>
      ReserveEffect(b, a, m, k);
      var d := if r.Ok? && !b.HasKey(k) then m.minor else 0;
      SoundAfterCash(b, n, a, m.currency, -d, d);
    case DoRelease(a, m, k) =>
      ReleaseEffect(b, a, m, k);
      var d := if r.Ok? && !b.HasKey(k) then m.minor else 0;
      SoundAfterCash(b, n, a, m.currency, d, -d);
    case DoBuy(a, i, q, m, f, k) => BuyKeepsSound(b, a, i, q, m, f, k);
    case DoSell(a, i, q, m, f, k) => SellKeepsSound(b, a, i, q, m, f, k);
    case DoReserveLots(a, i, q) =>
      ReserveLotsEffect(b, a, i, q);
      SameCash(b, n);
      SoundAfterLots(b, n, a, i, 0, if r.Ok? then q else 0);
    case DoReleaseLots(a, i, q) =>
      ReleaseLotsEffect(b, a, i, q);
      SameCash(b, n);
      SoundAfterLots(b, n, a, i, 0, if r.Ok? then -q else 0);
  }

  lemma ExecuteFlows(b: Book, c: BookCommand, account: nat, ccy: Currency, instrument: nat)
    requires BookSound(b) && Clean(b, c)
    ensures var n := Execute(b, c).0;
      && n.Available(account, ccy) + n.Reserved(account, ccy)
         == b.Available(account, ccy) + b.Reserved(account, ccy) + CashFlow(b, c, account, ccy)
      && n.Position(account, instrument) == b.Position(account, instrument) + LotFlow(b, c, account, instrument)
  {
    match c
    case DoDeposit(a, m, k) => DepositEffect(b, a, m, k);
    case DoWithdraw(a, m, k) => WithdrawEffect(b, a, m, k);
    case DoReserve(a, m, k) => ReserveEffect(b, a, m, k);
    case DoRelease(a, m, k) => ReleaseEffect(b, a, m, k);
    case DoBuy(a, i, q, m, f, k) => SettleBuyEffect(b, a, i, q, m, f, k);
    case DoSell(a, i, q, m, f, k) => SettleSellEffect(b, a, i, q, m, f, k);
    case DoReserveLots(a, i, q) => ReserveLotsEffect(b, a, i, q);
    case DoReleaseLots(a, i, q) => ReleaseLotsEffect(b, a, i, q);
  }

  /** Every overflow-free run from an empty book: cash and lots are conserved (each key counted once),
      cash buckets never go negative, and reserved lots stay between zero and the position. */
  lemma {:induction false} EveryRunConserves(cs: seq<BookCommand>, account: nat, ccy: Currency, instrument: nat)
    requires AllClean(cs)
    ensures var b := RunBook(cs);
      && b.Available(account, ccy) + b.Reserved(account, ccy) == TotalCashFlow(cs, account, ccy)
      && b.Position(account, instrument) == TotalLotFlow(cs, account, instrument)
      && BookSound(b)
  {
    if cs != [] {
      var init := cs[..|cs| - 1];
      assert AllClean(init) by {
        forall k | 0 <= k < |init| ensures Clean(RunBook(init[..k]), init[k]) {
          assert init[..k] == cs[..k] && Clean(RunBook(cs[..k]), cs[k]);
        }
      }
      EveryRunConserves(init, account, ccy, instrument);
      assert Clean(RunBook(cs[..|cs| - 1]), cs[|cs| - 1]);
      ExecuteFlows(RunBook(init), cs[|cs| - 1], account, ccy, instrument);
      ExecuteKeepsSound(RunBook(init), cs[|cs| - 1]);
    }
  }

  class PaperBook {
    const journal: Journal
    var accounts: set<nat>
    var positions: map<(nat, nat), int>
    var reservedLots: map<(nat, nat), int>

    ghost function View(): Book
      reads this, journal
    {
      Book(journal.View(), accounts, positions, reservedLots)
    }

    constructor ()
      ensures View() == EMPTY_BOOK
      ensures fresh(journal)
    {
      journal := new Journal();
      accounts, positions, reservedLots := {}, map[], map[];
    }

    method Clear()
      modifies this, journal
      ensures View() == EMPTY_BOOK
    {
      journal.Clear();
      accounts, positions, reservedLots := {}, map[], map[];
    }

    method Restore(entry: Entry) returns (r: Result<PostOutcome, LedgerError>)
      modifies this, journal
      ensures (View(), r) == RestoreEntry(old(View()), entry)
    {
      var i := 0;
      while i < |entry.postings|
        modifies this`accounts
        invariant 0 <= i <= |entry.postings|
        invariant accounts == old(accounts) + Owners(entry.postings[..i])
      {
        assert entry.postings[..i + 1] == entry.postings[..i] + [entry.postings[i]];
        var account := entry.postings[i].account;
        if account.CustomerCash? || account.CustomerCashReserved? || account.CustomerPosition? {
          accounts := accounts + {account.account};
        }
        i := i + 1;
      }
      assert entry.postings[..i] == entry.postings;
      r := journal.Append(entry);
    }

    method PostLinesUnder(key: Key, lines: seq<Posting>) returns (r: Result<PostOutcome, LedgerError>)
      modifies journal
      ensures (View(), r) == PostNew(old(View()), key, lines)
    {
      var entry := BuildEntry(key, None, None, lines);
      if entry.Err? { return Err(entry.error); }
      r := journal.Append(entry.value);
    }

    method PostLinesForId(key: Key, lines: seq<Posting>) returns (r: Result<nat, LedgerError>)
      modifies journal
      ensures (View(), r) == PostForId(old(View()), key, lines)
    {
      var outcome := PostLinesUnder(key, lines);
      r := match outcome case Ok(o) => Ok(o.id) case Err(e) => Err(e);
    }

    method CashAvailable(account: nat, c: Currency) returns (m: int)
      ensures m == View().Available(account, c)
    {
      m := journal.SignedBalance(CustomerCash(account, c));
    }

    method CashReserved(account: nat, c: Currency) returns (m: int)
      ensures m == View().Reserved(account, c)
    {
      m := journal.SignedBalance(CustomerCashReserved(account, c));
    }

    method TakeDeposit(account: nat, amount: Money, key: Key) returns (r: Result<nat, LedgerError>)
      modifies this, journal
      ensures (View(), r) == Deposit(old(View()), account, amount, key)
    {
      accounts := accounts + {account};
      if amount.minor <= 0 { return Err(ZeroAmount); }
      r := PostLinesForId(key, DepositLines(account, amount));
    }

    method TakeWithdrawal(account: nat, amount: Money, key: Key) returns (r: Result<nat, LedgerError>)
      modifies this, journal
      ensures (View(), r) == Withdraw(old(View()), account, amount, key)
    {
      accounts := accounts + {account};
      if amount.minor <= 0 { return Err(ZeroAmount); }
      var have := CashAvailable(account, amount.currency);
      if have < amount.minor { return Err(InsufficientFunds); }
      r := PostLinesForId(key, WithdrawLines(account, amount));
    }

    method Reserve(account: nat, amount: Money, key: Key) returns (r: Result<nat, LedgerError>)
      modifies this, journal
      ensures (View(), r) == ReserveForOrder(old(View()), account, amount, key)
    {
      accounts := accounts + {account};
      if amount.minor <= 0 { return Err(ZeroAmount); }
      var have := CashAvailable(account, amount.currency);
      if have < amount.minor { return Err(InsufficientFunds); }
      r := PostLinesForId(key, ReserveLines(account, amount));
    }

    method Release(account: nat, amount: Money, key: Key) returns (r: Result<nat, LedgerError>)
      modifies this, journal
      ensures (View(), r) == ReleaseReserve(old(View()), account, amount, key)
    {
      accounts := accounts + {account};
      if amount.minor <= 0 { return Err(ZeroAmount); }
      var have := CashReserved(account, amount.currency);
      if have < amount.minor { return Err(InsufficientReserved); }
      r := PostLinesForId(key, ReleaseLines(account, amount));
    }

    method CheckBuy(account: nat, qty: int, notional: Money, fee: Money) returns (refusal: Option<LedgerError>)
      ensures refusal == SettleBuyRefusal(View(), account, qty, notional, fee)
    {
      if qty <= 0 { return Some(InvalidQuantity); }
      if notional.minor <= 0 || fee.minor < 0 { return Some(ZeroAmount); }
      if notional.currency != fee.currency { return Some(MixedCurrency); }
      var reserved := CashReserved(account, notional.currency);
      if reserved < notional.minor { return Some(InsufficientReserved); }
      if fee.minor > 0 {
        var have := CashAvailable(account, notional.currency);
        if have < fee.minor { return Some(InsufficientFunds); }
      }
      return None;
    }

    method GainLots(account: nat, instrument: nat, qty: int) returns (fits: bool)
      modifies this
      ensures (View(), fits) == AddLots(old(View()), account, instrument, qty)
    {
      var at := (account, instrument);
      var lots := if at in positions then positions[at] else 0;
      fits := FitsI64(lots + qty);
      positions := positions[at := if fits then lots + qty else lots];
    }

    method LoseLots(account: nat, instrument: nat, qty: int) returns (fits: bool)
      modifies this
      ensures (View(), fits) == TakeLots(old(View()), account, instrument, qty)
    {
      var at := (account, instrument);
      var held := (if at in reservedLots then reservedLots[at] else 0) - qty;
      if held == 0 { reservedLots := reservedLots - {at}; } else { reservedLots := reservedLots[at := held]; }
      var lots := if at in positions then positions[at] else 0;
      fits := FitsI64(lots - qty);
      if !fits {
        positions := positions[at := lots];
      } else if lots == qty {
        positions := positions - {at};
      } else {
        positions := positions[at := lots - qty];
      }
    }

    method Buy(account: nat, instrument: nat, qty: int, notional: Money, fee: Money, key: Key) returns (r: Result<nat, LedgerError>)
      modifies this, journal
      ensures (View(), r) == SettleBuy(old(View()), account, instrument, qty, notional, fee, key)
    {
      accounts := accounts + {account};
      var refusal := CheckBuy(account, qty, notional, fee);
      if refusal.Some? { return Err(refusal.value); }
      var outcome := PostLinesUnder(key, BuyLines(account, notional, fee));
      if outcome.Ok? && outcome.value.Posted? {
        var fits := GainLots(account, instrument, qty);
        return if fits then Ok(outcome.value.id) else Err(InvalidQuantity);
      }
      return IdOf(outcome);
    }

    method ReserveLots(account: nat, instrument: nat, qty: int) returns (r: Result<(), LedgerError>)
      modifies this
      ensures (View(), r) == ReservePositionForOrder(old(View()), account, instrument, qty)
    {
      accounts := accounts + {account};
      if qty <= 0 { return Err(InvalidQuantity); }
      var at := (account, instrument);
      var held := if at in reservedLots then reservedLots[at] else 0;
      var lots := if at in positions then positions[at] else 0;
      if Saturate(lots - held) < qty { return Err(InsufficientPosition); }
      if !FitsI64(held + qty) {
        reservedLots := reservedLots[at := held];
        return Err(InvalidQuantity);
      }
      reservedLots := reservedLots[at := held + qty];
      return Ok(());
    }

    method ReleaseLots(account: nat, instrument: nat, qty: int) returns (r: Result<(), LedgerError>)
      modifies this
      ensures (View(), r) == ReleasePositionReserve(old(View()), account, instrument, qty)
    {
      if qty <= 0 { return Err(InvalidQuantity); }
      var at := (account, instrument);
      if at !in reservedLots || reservedLots[at] < qty { return Err(InsufficientPosition); }
      if reservedLots[at] == qty {
        reservedLots := reservedLots - {at};
      } else {
        reservedLots := reservedLots[at := reservedLots[at] - qty];
      }
      return Ok(());
    }

    method CheckSell(account: nat, instrument: nat, qty: int, proceeds: Money, fee: Money) returns (refusal: Option<LedgerError>)
      ensures refusal == SettleSellRefusal(View(), account, instrument, qty, proceeds, fee)
    {
      if qty <= 0 { return Some(InvalidQuantity); }
      if proceeds.minor <= 0 || fee.minor < 0 { return Some(ZeroAmount); }
      if proceeds.currency != fee.currency { return Some(MixedCurrency); }
      var at := (account, instrument);
      if (if at in reservedLots then reservedLots[at] else 0) < qty { return Some(InsufficientPosition); }
      if (if at in positions then positions[at] else 0) < qty { return Some(InvalidQuantity); }
      if !FitsI128(proceeds.minor - fee.minor) { return Some(MoneyOverflow); }
      return None;
    }

    method Sell(account: nat, instrument: nat, qty: int, proceeds: Money, fee: Money, key: Key) returns (r: Result<nat, LedgerError>)
      modifies this, journal
      ensures (View(), r) == SettleSell(old(View()), account, instrument, qty, proceeds, fee, key)
    {
      accounts := accounts + {account};
      var refusal := CheckSell(account, instrument, qty, proceeds, fee);
      if refusal.Some? { return Err(refusal.value); }
      var net := Money(proceeds.minor - fee.minor, proceeds.currency);
      var outcome := PostLinesUnder(key, SellLines(account, proceeds, net, fee));
      if outcome.Ok? && outcome.value.Posted? {
        var fits := LoseLots(account, instrument, qty);
        return if fits then Ok(outcome.value.id) else Err(InvalidQuantity);
      }
      return IdOf(outcome);
    }

    method PutPosition(account: nat, instrument: nat, lots: int, reserved: int)
      modifies this
      ensures View() == SetPosition(old(View()), account, instrument, lots, reserved)
    {
      accounts := accounts + {account};
      var at := (account, instrument);
      if lots == 0 { positions := positions - {at}; } else { positions := positions[at := lots]; }
      if reserved <= 0 { reservedLots := reservedLots - {at}; } else { reservedLots := reservedLots[at := reserved]; }
    }
  }
}

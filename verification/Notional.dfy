/** Integer notional with an exact rescale to the quote currency, and the paper loop's error type. */
module Notionals {
  import opened Base
  import opened Ledger
  import opened Orders
  import opened Instruments
  import opened Execution
  import opened Risk

  datatype PaperError =
    | ArithmeticOverflow
    | MoneyMismatch
    | InstrumentFailed(instrument: InstrumentError)
    | OrderFailed(order: OrderError)
    | LedgerFailed(ledger: LedgerError)
    | VenueFailed(venue: ExecutionError)
    | InexactNotional
    | ReservationShortfall(orderId: nat)
    | RiskFailed(reason: RejectReason)
    | ContextFailed

  function RescaleExact(amount: int, from: nat, to: nat): Result<int, PaperError> {
    if to == from then Ok(amount)
    else if to > from then
      var factor := Pow10(to - from);
      if !FitsI128(factor) || !FitsI128(amount * factor) then Err(ArithmeticOverflow) else Ok(amount * factor)
    else
      var factor := Pow10(from - to);
      if !FitsI128(factor) then Err(ArithmeticOverflow)
      else if amount % factor != 0 then Err(InexactNotional)
      else Ok(TruncDiv(amount, factor))
  }

  function Notional(i: Instrument, price: int, qty: int): Result<Money, PaperError> {
    if qty <= 0 then Err(OrderFailed(OrderError.InvalidQuantity))
    else if price <= 0 then Err(OrderFailed(InvalidPrice))
    else if !FitsI128(price * qty) || !FitsI128(price * qty * i.multiplier) then Err(ArithmeticOverflow)
    else match RescaleExact(price * qty * i.multiplier, i.table.priceScale, i.quote.scale)
      case Err(e) => Err(e)
      case Ok(minor) => Ok(Money(minor, i.quote))
  }

  lemma RescaleUp(amount: int, from: nat, to: nat)
    requires amount > 0 && to > from
    ensures amount * Pow10(to - from) > 0
    ensures amount * Pow10(to - from) * Pow10(from) == amount * Pow10(to)
  {
    Pow10Adds(to - from, from);
    Regroup(amount, Pow10(to - from), Pow10(from));
    ScaleOrder(0, amount, Pow10(to - from));
  }

  lemma RescaleDown(m: int, from: nat, to: nat)
    requires to < from && m * Pow10(from - to) > 0
    ensures m > 0 && m * Pow10(from) == m * Pow10(from - to) * Pow10(to)
  {
    Pow10Adds(from - to, to);
    Regroup(m, Pow10(from - to), Pow10(to));
    ScaleOrder(0, m, Pow10(from - to));
  }

  lemma ExactQuotient(a: int, f: int)
    requires a > 0 && f > 0 && a % f == 0
    ensures TruncDiv(a, f) * f == a
  {
  }

  lemma RescaleIsExact(amount: int, from: nat, to: nat)
    requires amount > 0 && RescaleExact(amount, from, to).Ok?
    ensures var m := RescaleExact(amount, from, to).value; m > 0 && m * Pow10(from) == amount * Pow10(to)
  {
    if to > from {
      RescaleUp(amount, from, to);
    } else if to < from {
      var m := RescaleExact(amount, from, to).value;
      ExactQuotient(amount, Pow10(from - to));
      RescaleDown(m, from, to);
    }
  }

  /** A successful notional loses nothing: scaled back up it is exactly price x lots x multiplier. */
  lemma NotionalIsExact(i: Instrument, price: int, qty: int)
    requires i.Valid() && Notional(i, price, qty).Ok?
    ensures var m := Notional(i, price, qty).value;
      && m.currency == i.quote && m.minor > 0
      && m.minor * Pow10(i.table.priceScale) == price * qty * i.multiplier * Pow10(i.quote.scale)
  {
    assert price * qty > 0;
    assert price * qty * i.multiplier > 0;
    RescaleIsExact(price * qty * i.multiplier, i.table.priceScale, i.quote.scale);
  }

  /** The quote currency is at least as fine as the price, so rescaling only multiplies. */
  predicate FineQuote(i: Instrument) { i.table.priceScale <= i.quote.scale }

  /** Every price step of one lot is a whole number of the quote's minor units. */
  predicate ExactSteps(i: Instrument) {
    FineQuote(i) || i.multiplier % Pow10(i.table.priceScale - i.quote.scale) == 0
  }

  /** What one price step of one lot is worth in minor units. */
  function StepWorth(i: Instrument): int
    requires ExactSteps(i)
  {
    if FineQuote(i) then i.multiplier * Pow10(i.quote.scale - i.table.priceScale)
    else i.multiplier / Pow10(i.table.priceScale - i.quote.scale)
  }

  /** The value of lots at a price, before any width check. */
  function Worth(i: Instrument, price: int, qty: int): int
    requires ExactSteps(i)
  {
    price * qty * StepWorth(i)
  }

  predicate WorthFits(i: Instrument, price: int, qty: int)
    requires ExactSteps(i)
  {
    FitsI128(price * qty) && FitsI128(price * qty * i.multiplier) && FitsI128(Worth(i, price, qty))
  }

  lemma Pow10Small(n: nat)
    requires n <= MAX_SCALE
    ensures Pow10(n) <= I64_MAX
  {
    Pow10Grows(n, 18);
    assert Pow10(18) == 1000000000000000000 by { PowersUpTo18(); }
  }

  lemma FineWorth(i: Instrument, price: int, qty: int)
    requires i.Valid() && FineQuote(i) && price > 0 && qty > 0
    ensures Worth(i, price, qty) == price * qty * i.multiplier * Pow10(i.quote.scale - i.table.priceScale) > 0
    ensures FitsI128(Pow10(i.quote.scale - i.table.priceScale))
  {
    var k := i.quote.scale - i.table.priceScale;
    Pow10Small(k);
    Regroup(price * qty, i.multiplier, Pow10(k));
    assert price * qty > 0;
    assert price * qty * i.multiplier > 0;
    assert price * qty * i.multiplier * Pow10(k) > 0;
  }

  lemma ScaledPositive(n: int, unit: int, f: int)
    requires n > 0 && unit > 0 && f >= 1
    ensures 0 < n * unit <= n * unit * f
  {
    ScaleOrder(0, n, unit);
    AtMostScaled(n * unit, f);
  }

  lemma CoarseWorth(i: Instrument, price: int, qty: int)
    requires i.Valid() && ExactSteps(i) && !FineQuote(i) && price > 0 && qty > 0
    ensures var f := Pow10(i.table.priceScale - i.quote.scale); var raw := price * qty * i.multiplier;
      && FitsI128(f) && raw % f == 0 && TruncDiv(raw, f) == Worth(i, price, qty) && 0 < Worth(i, price, qty) <= raw
  {
    var f, unit, lots := Pow10(i.table.priceScale - i.quote.scale), StepWorth(i), price * qty;
    Pow10Small(i.table.priceScale - i.quote.scale);
    assert i.multiplier == unit * f by { QuotientTimes(i.multiplier, f); }
    ScaleOrder(0, price, qty);
    assert unit > 0 by { ScaleOrder(0, unit, f); }
    assert lots * i.multiplier == lots * unit * f by { Regroup(lots, unit, f); }
    ScaledPositive(lots, unit, f);
    QuotientIs(lots * unit * f, f, lots * unit);
  }

  lemma QuotientTimes(a: int, f: int)
    requires f > 0 && a % f == 0
    ensures a == a / f * f
  {
  }

  lemma NotionalWhenExact(i: Instrument, price: int, qty: int)
    requires i.Valid() && ExactSteps(i) && price > 0 && qty > 0
    ensures Notional(i, price, qty) == if WorthFits(i, price, qty) then Ok(Money(Worth(i, price, qty), i.quote)) else Err(ArithmeticOverflow)
    ensures Worth(i, price, qty) > 0
  {
    if FineQuote(i) { FineWorth(i, price, qty); } else { CoarseWorth(i, price, qty); }
  }

  lemma WorthAdds(i: Instrument, price: int, q: int, r: int)
    requires ExactSteps(i)
    ensures Worth(i, price, q + r) == Worth(i, price, q) + Worth(i, price, r)
  {
    var w := StepWorth(i);
    assert price * (q + r) == price * q + price * r;
    assert (price * q + price * r) * w == price * q * w + price * r * w;
  }

  lemma WorthMonotone(i: Instrument, price: int, qty: int, limit: int, leaves: int)
    requires i.Valid() && ExactSteps(i)
    requires 0 <= price <= limit && 0 <= qty <= leaves
    ensures 0 <= price * qty <= limit * leaves
    ensures 0 <= price * qty * i.multiplier <= limit * leaves * i.multiplier
    ensures 0 <= Worth(i, price, qty) <= Worth(i, limit, leaves)
  {
    ScaledLess(price, limit, qty);
    ScaledLess(qty, leaves, limit);
    ScaledLess(price * qty, limit * leaves, i.multiplier);
    assert StepWorth(i) >= 0;
    ScaledLess(price * qty, limit * leaves, StepWorth(i));
  }

  /** With exact steps, a fill at or below the limit for at most the leaves always has a notional,
      and the limit value left after it is at most what remains of the reserve. */
  lemma FillFitsReserve(i: Instrument, price: int, qty: int, limit: int, leaves: int)
    requires i.Valid() && ExactSteps(i)
    requires 0 < price <= limit && 0 < qty <= leaves
    requires Notional(i, limit, leaves).Ok?
    ensures Notional(i, price, qty).Ok?
    ensures 0 < Notional(i, price, qty).value.minor <= Notional(i, limit, leaves).value.minor
    ensures qty < leaves ==>
      && Notional(i, limit, leaves - qty).Ok?
      && Notional(i, limit, leaves - qty).value.minor
         <= Notional(i, limit, leaves).value.minor - Notional(i, price, qty).value.minor
  {
    NotionalWhenExact(i, limit, leaves);
    NotionalWhenExact(i, price, qty);
    WorthMonotone(i, price, qty, limit, leaves);
    if qty < leaves {
      NotionalWhenExact(i, limit, leaves - qty);
      WorthMonotone(i, limit, leaves - qty, limit, leaves);
      WorthMonotone(i, price, qty, limit, qty);
      WorthAdds(i, limit, qty, leaves - qty);
    }
  }

  lemma SmallerOrderFits(i: Instrument, price: int, q: int, qty: int)
    requires i.multiplier > 0 && price > 0 && 1 <= q <= qty
    requires FitsI128(price * qty) && FitsI128(price * qty * i.multiplier)
    ensures FitsI128(price * q) && FitsI128(price * q * i.multiplier)
    ensures price * q * i.multiplier == q * (price * i.multiplier) > 0
  {
    assert price * (qty - q) >= 0 && price * q > 0;
    assert (price * qty - price * q) * i.multiplier >= 0;
    assert (price * q) * i.multiplier == q * (price * i.multiplier);
    assert (price * q) * i.multiplier > 0;
  }

  lemma CoarseNotional(i: Instrument, price: int, q: int, qty: int)
    requires i.Valid() && !FineQuote(i) && price > 0 && 1 <= q <= qty
    requires FitsI128(price * qty) && FitsI128(price * qty * i.multiplier)
    ensures Notional(i, price, q).Ok? <==> (q * (price * i.multiplier)) % Pow10(i.table.priceScale - i.quote.scale) == 0
  {
    SmallerOrderFits(i, price, q, qty);
    Pow10Small(i.table.priceScale - i.quote.scale);
  }

  /** When the price is finer than the quote, the fills at one price are all exact exactly when one
      lot at that price already is. */
  lemma FillsAtPriceExactIff(i: Instrument, price: int, qty: int)
    requires i.Valid() && !FineQuote(i) && price > 0 && qty > 0
    requires FitsI128(price * qty) && FitsI128(price * qty * i.multiplier)
    ensures price * i.multiplier % Pow10(i.table.priceScale - i.quote.scale) == 0
            <==> forall q :: 1 <= q <= qty ==> Notional(i, price, q).Ok?
  {
    var f := Pow10(i.table.priceScale - i.quote.scale);
    var unit := price * i.multiplier;
    CoarseNotional(i, price, 1, qty);
    assert 1 * unit == unit;
    if unit % f == 0 {
      forall q | 1 <= q <= qty ensures Notional(i, price, q).Ok? {
        CoarseNotional(i, price, q, qty);
        ScaledMultiple(unit, q, f);
      }
    }
  }

  lemma OneStepIsExactIff(i: Instrument)
    requires i.Valid()
    ensures !FineQuote(i) ==> (Notional(i, 1, 1).Ok? <==> ExactSteps(i))
  {
    if !FineQuote(i) { CoarseNotional(i, 1, 1, 1); }
  }

  /** An order's fills, at any price up to its limit and for any quantity up to its own, all have a
      value exactly when every price step of one lot does; the value of the order itself does not tell. */
  lemma EveryFillExactIff(i: Instrument, limit: int, qty: int)
    requires i.Valid() && limit > 0 && qty > 0 && Notional(i, limit, qty) != Err(ArithmeticOverflow)
    ensures ExactSteps(i) <==> forall p, q :: 1 <= p <= limit && 1 <= q <= qty ==> Notional(i, p, q).Ok?
  {
    OneStepIsExactIff(i);
    if ExactSteps(i) {
      NotionalWhenExact(i, limit, qty);
      forall p, q | 1 <= p <= limit && 1 <= q <= qty ensures Notional(i, p, q).Ok? {
        NotionalWhenExact(i, p, q);
        WorthMonotone(i, p, q, limit, qty);
      }
    }
  }

  lemma ScaledMultiple(unit: int, q: int, f: int)
    requires f > 0 && unit % f == 0
    ensures (q * unit) % f == 0
  {
    var n := q * (unit / f);
    assert unit == (unit / f) * f;
    assert q * unit == n * f;
    QuotientIs(n * f, f, n);
  }

  lemma QuotientIs(a: int, f: int, q: int)
    requires f > 0 && q * f <= a < (q + 1) * f
    ensures a / f == q && a % f == a - q * f
  {
    var d := a / f;
    assert d * f <= a < (d + 1) * f;
    ScaleOrder(q, d + 1, f);
    ScaleOrder(d, q + 1, f);
  }

  const USD := Currency("USD", 2)

  /** Prices in hundredths of a cent, one lot one unit. */
  const CENTICENT_STOCK := Instrument(1, true, USD, TickTable([TickBand(0, None, 1)], 4), LotSpec(0, 1, 1, None, 1), 1)

  /** A concrete instrument whose 100-lot order has a notional while one of its lots has none, and
      whose order at a round limit is exact for every quantity but not one tick below that limit. */
  lemma PartialFillCanBeInexact()
    ensures CENTICENT_STOCK.Valid() && !ExactSteps(CENTICENT_STOCK)
    ensures Notional(CENTICENT_STOCK, 12345, 100) == Ok(Money(12345, USD))
    ensures Notional(CENTICENT_STOCK, 12345, 1) == Err(InexactNotional)
    ensures forall q :: 1 <= q <= 100 ==> Notional(CENTICENT_STOCK, 12300, q).Ok?
    ensures Notional(CENTICENT_STOCK, 12299, 1) == Err(InexactNotional)
  {
    assert Pow10(2) == 100 by { assert Pow10(1) == 10; }
    FillsAtPriceExactIff(CENTICENT_STOCK, 12300, 100);
  }
}

/** Pre-trade risk checks. */
module Risk {
  import opened Base
  import opened Ledger
  import opened Orders

  datatype RejectReason =
    | KillSwitch | RestrictedInstrument | MaxQuantity | MaxNotional | MaxPosition
    | InsufficientBuyingPower | PositionTooSmall | PriceCollar | MarketClosed
    | DailyLossLimit | MaxShort | MaxAssetClassExposure

  datatype Decision = Approved | RiskRejected(reason: RejectReason)

  datatype Limits = Limits(
    maxOrderQty: int, maxOrderNotional: int, maxPosition: int, collarBps: int,
    session: Option<(nat, nat)>, maxDailyLoss: int, allowShort: bool, maxShort: int, maxAssetClassNotional: int)

  datatype RiskState = RiskState(
    limits: Limits, globalKill: bool, accountKills: set<nat>, restricted: set<nat>, overrides: set<(nat, nat)>)

  datatype Intent = Intent(account: nat, instrument: nat, side: Side, qty: int, price: int)

  datatype Context = Context(
    availableCash: Money, positionLots: int, notional: Money, refPrice: Option<int>,
    now: nat, dayPnl: int, exposure: int)

  function Abs(x: int): int { if x < 0 then -x else x }

  /** Saturating 128-bit addition. */
  function SatAdd128(a: int, b: int): int { Max(I128_MIN, Min(I128_MAX, a + b)) }

  predicate InSession(session: Option<(nat, nat)>, now: nat) {
    match session
    case None => true
    case Some((open, close)) =>
      var tod := now % 86400;
      if open <= close then open <= tod < close else open <= tod || tod < close
  }

  predicate CollarBreached(l: Limits, refPrice: Option<int>, price: int) {
    l.collarBps > 0 &&
    match refPrice
    case None => true
    case Some(mark) => mark <= 0 || Abs(price - mark) > TruncDiv(mark * l.collarBps, 10000)
  }

  function Check(s: RiskState, i: Intent, c: Context): Decision {
    var l := s.limits;
    if s.globalKill || i.account in s.accountKills then RiskRejected(KillSwitch)
    else if i.instrument in s.restricted && (i.account, i.instrument) !in s.overrides then RiskRejected(RestrictedInstrument)
    else if !InSession(l.session, c.now) then RiskRejected(MarketClosed)
    else if l.maxDailyLoss > 0 && c.dayPnl <= -l.maxDailyLoss then RiskRejected(DailyLossLimit)
    else if i.qty <= 0 || i.qty > l.maxOrderQty then RiskRejected(MaxQuantity)
    else if c.notional.minor <= 0 || c.notional.minor > l.maxOrderNotional then RiskRejected(MaxNotional)
    else if CollarBreached(l, c.refPrice, i.price) then RiskRejected(PriceCollar)
    else if l.maxAssetClassNotional > 0 && SatAdd128(c.exposure, Abs(c.notional.minor)) > l.maxAssetClassNotional then
      RiskRejected(MaxAssetClassExposure)
    else match i.side
      case Buy =>
        if c.availableCash.currency != c.notional.currency || c.availableCash.minor < c.notional.minor then
          RiskRejected(InsufficientBuyingPower)
        else if Max(I64_MIN, Min(I64_MAX, c.positionLots + i.qty)) > l.maxPosition then RiskRejected(MaxPosition)
        else Approved
      case Sell =>
        if c.positionLots < i.qty then
          if !l.allowShort then RiskRejected(PositionTooSmall)
          else if i.qty - c.positionLots > l.maxShort then RiskRejected(MaxShort)
          else Approved
        else Approved
  }

  /** The price is within the collar's basis points of a positive mark. */
  predicate InCollar(l: Limits, refPrice: Option<int>, price: int) {
    refPrice.Some? && refPrice.value > 0 && Abs(price - refPrice.value) * 10000 <= refPrice.value * l.collarBps
  }

  lemma CollarExact(l: Limits, refPrice: Option<int>, price: int)
    ensures CollarBreached(l, refPrice, price) <==> l.collarBps > 0 && !InCollar(l, refPrice, price)
  {
    if l.collarBps > 0 && refPrice.Some? && refPrice.value > 0 {
      var m, d := refPrice.value * l.collarBps, Abs(price - refPrice.value);
      assert m >= 0;
    }
  }

  /** An order is approved exactly when no kill switch and no unlifted restriction is on, the market is
      open, and it is inside every limit that is switched on and covered by what the account has. */
  lemma ApprovedMeans(s: RiskState, i: Intent, c: Context)
    ensures var l := s.limits;
      Check(s, i, c) == Approved <==>
        && !s.globalKill && i.account !in s.accountKills
        && (i.instrument in s.restricted ==> (i.account, i.instrument) in s.overrides)
        && InSession(l.session, c.now)
        && (l.maxDailyLoss > 0 ==> c.dayPnl > -l.maxDailyLoss)
        && 0 < i.qty <= l.maxOrderQty && 0 < c.notional.minor <= l.maxOrderNotional
        && (l.collarBps > 0 ==> InCollar(l, c.refPrice, i.price))
        && (l.maxAssetClassNotional > 0 ==> SatAdd128(c.exposure, c.notional.minor) <= l.maxAssetClassNotional)
        && (i.side.Buy? ==>
              && c.availableCash.currency == c.notional.currency && c.notional.minor <= c.availableCash.minor
              && Max(I64_MIN, Min(I64_MAX, c.positionLots + i.qty)) <= l.maxPosition)
        && (i.side.Sell? ==> i.qty <= c.positionLots || (l.allowShort && i.qty - c.positionLots <= l.maxShort))
  {
    CollarExact(s.limits, c.refPrice, i.price);
  }

  class RiskEngine {
    var limits: Limits
    var globalKill: bool
    var accountKills: set<nat>
    var restricted: set<nat>
    var overrides: set<(nat, nat)>

    function View(): RiskState
      reads this
    {
      RiskState(limits, globalKill, accountKills, restricted, overrides)
    }

    constructor (s: RiskState)
      ensures View() == s
    {
      limits, globalKill, accountKills, restricted, overrides :=
        s.limits, s.globalKill, s.accountKills, s.restricted, s.overrides;
    }

    method SetGlobalKill(on: bool)
      modifies this
      ensures View() == old(View()).(globalKill := on)
    {
      globalKill := on;
    }

    method Decide(i: Intent, c: Context) returns (d: Decision)
      ensures d == Check(View(), i, c)
    {
      d := Check(View(), i, c);
    }
  }
}

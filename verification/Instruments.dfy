/** Instruments: tick ladders, lot specifications and the order grid. */
module Instruments {
  import opened Base
  import opened Ledger

  const MAX_SCALE: nat := 18

  datatype InstrumentError =
    | ScaleOutOfRange(scale: nat)
    | InvalidGrid
    | GridOverflow
    | PriceOffGrid(scaled: int, tick: int)
    | QuantityOffGrid(scaled: int, step: int)
    | QuantityBelowMin(scaled: int, min: int)
    | QuantityAboveMax(scaled: int, max: int)
    | PriceOutOfBands(scaled: int)
    | NotTradable(id: nat)
    | UnknownInstrument(id: nat)

  /** A half-open price band [min, max) with its tick; no max means unbounded. */
  datatype TickBand = TickBand(min: int, max: Option<int>, tick: int) {
    predicate Contains(scaled: int) { min <= scaled && (max.Some? ==> scaled < max.value) }

    predicate Valid() { tick > 0 && (max.Some? ==> min < max.value) }
  }

  datatype TickTable = TickTable(bands: seq<TickBand>, priceScale: nat)

  function Contiguous(bands: seq<TickBand>): bool {
    |bands| < 2 ||
    (bands[0].max.Some? && bands[0].max.value == bands[1].min && bands[0].min <= bands[1].min && Contiguous(bands[1..]))
  }

  function NewTable(priceScale: nat, bands: seq<TickBand>): Result<TickTable, InstrumentError> {
    if priceScale > MAX_SCALE then Err(ScaleOutOfRange(priceScale))
    else if bands == [] || !Contiguous(bands) then Err(InvalidGrid)
    else Ok(TickTable(bands, priceScale))
  }

  function BandFor(bands: seq<TickBand>, scaled: int): Option<TickBand> {
    if bands == [] then None
    else if bands[0].Contains(scaled) then Some(bands[0])
    else BandFor(bands[1..], scaled)
  }

  function ValidatePrice(t: TickTable, scaled: int): Result<int, InstrumentError> {
    match BandFor(t.bands, scaled)
    case None => Err(PriceOutOfBands(scaled))
    case Some(band) =>
      if band.tick <= 0 then Err(InvalidGrid)
      else if scaled % band.tick != 0 then Err(PriceOffGrid(scaled, band.tick))
      else Ok(scaled)
  }

  ghost predicate Covers(bands: seq<TickBand>, scaled: int)
    requires bands != []
  {
    bands[0].min <= scaled && (bands[|bands| - 1].max.Some? ==> scaled < bands[|bands| - 1].max.value)
  }

  lemma {:induction false} ContiguousBands(bands: seq<TickBand>, scaled: int)
    requires bands != [] && Contiguous(bands)
    requires forall i :: 0 <= i < |bands| ==> bands[i].Valid()
    ensures bands[|bands| - 1].max.Some? ==> bands[0].min < bands[|bands| - 1].max.value
    ensures BandFor(bands, scaled).Some? <==> Covers(bands, scaled)
    ensures forall i :: 0 <= i < |bands| && bands[i].Contains(scaled) ==> BandFor(bands, scaled) == Some(bands[i])
    ensures forall i, j :: 0 <= i < |bands| && 0 <= j < |bands| && bands[i].Contains(scaled) && bands[j].Contains(scaled) ==> i == j
    decreases |bands|
  {
    if |bands| > 1 {
      var rest := bands[1..];
      ContiguousBands(rest, scaled);
      forall i | 1 <= i < |bands| && bands[i].Contains(scaled)
        ensures BandFor(bands, scaled) == Some(bands[i]) && !bands[0].Contains(scaled)
      {
        assert rest[i - 1].Contains(scaled);
      }
      forall i, j | 1 <= i < |bands| && 1 <= j < |bands| && bands[i].Contains(scaled) && bands[j].Contains(scaled)
        ensures i == j
      {
        assert rest[i - 1].Contains(scaled) && rest[j - 1].Contains(scaled);
      }
    } else {
      assert bands[1..] == [];
    }
  }

  lemma {:induction false} FoundBandContains(bands: seq<TickBand>, scaled: int)
    ensures BandFor(bands, scaled).Some? ==>
      exists i :: 0 <= i < |bands| && bands[i].Contains(scaled) && BandFor(bands, scaled) == Some(bands[i])
    decreases |bands|
  {
    if bands != [] {
      if bands[0].Contains(scaled) {
        assert BandFor(bands, scaled) == Some(bands[0]);
      } else {
        FoundBandContains(bands[1..], scaled);
        if BandFor(bands, scaled).Some? {
          var i :| 0 <= i < |bands[1..]| && bands[1..][i].Contains(scaled) && BandFor(bands[1..], scaled) == Some(bands[1..][i]);
          assert bands[i + 1].Contains(scaled);
        }
      }
    }
  }

  /** In an accepted ladder of accepted bands a price between the two ends lies in exactly one band, the
      one that lookup returns, and a price outside lies in none. */
  lemma ExactlyOneBand(priceScale: nat, bands: seq<TickBand>, scaled: int)
    requires NewTable(priceScale, bands).Ok?
    requires forall i :: 0 <= i < |bands| ==> bands[i].Valid()
    ensures BandFor(bands, scaled).Some? <==> Covers(bands, scaled)
    ensures Covers(bands, scaled) <==> exists i :: 0 <= i < |bands| && bands[i].Contains(scaled)
    ensures forall i :: 0 <= i < |bands| && bands[i].Contains(scaled) ==> BandFor(bands, scaled) == Some(bands[i])
    ensures forall i, j :: 0 <= i < |bands| && 0 <= j < |bands| && bands[i].Contains(scaled) && bands[j].Contains(scaled) ==> i == j
  {
    ContiguousBands(bands, scaled);
    FoundBandContains(bands, scaled);
  }

  datatype LotSpec = LotSpec(qtyScale: nat, lotSize: int, minQty: int, maxQty: Option<int>, step: int) {
    predicate Valid() {
      && lotSize > 0 && step > 0 && minQty > 0 && minQty % step == 0
      && (maxQty.Some? ==> minQty <= maxQty.value && maxQty.value % step == 0)
    }
  }

  function ValidateQuantity(l: LotSpec, scaled: int): Result<int, InstrumentError> {
    if scaled < l.minQty then Err(QuantityBelowMin(scaled, l.minQty))
    else if l.maxQty.Some? && scaled > l.maxQty.value then Err(QuantityAboveMax(scaled, l.maxQty.value))
    else if l.step <= 0 then Err(InvalidGrid)
    else if scaled % l.step != 0 then Err(QuantityOffGrid(scaled, l.step))
    else Ok(scaled / l.step)
  }

  datatype Instrument = Instrument(id: nat, tradable: bool, quote: Currency, table: TickTable, lot: LotSpec, multiplier: int) {
    /** What the constructors of the source guarantee. */
    predicate Valid() {
      && multiplier > 0 && FitsI64(multiplier)
      && table.priceScale <= MAX_SCALE && quote.scale <= MAX_SCALE
      && lot.Valid()
    }
  }

  function AssertTradable(i: Instrument): Result<(), InstrumentError> {
    if i.tradable then Ok(()) else Err(NotTradable(i.id))
  }

  function AssertOrderGrid(i: Instrument, price: int, lots: int): Result<(), InstrumentError> {
    if !i.tradable then Err(NotTradable(i.id))
    else match ValidatePrice(i.table, price)
      case Err(e) => Err(e)
      case Ok(_) =>
        if !FitsI64(lots * i.lot.step) then Err(GridOverflow)
        else match ValidateQuantity(i.lot, lots * i.lot.step)
          case Err(e) => Err(e)
          case Ok(_) => Ok(())
  }
}

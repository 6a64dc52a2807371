/** The price snapshot a batch image job is accepted with (`batchPrice`). */
module BatchPricing {
  import opened Outcomes
  import opened Money

  /** A decimal as written in configuration; `plain` says its text has at most ten whole and ten fraction
      digits and nothing else. */
  datatype Decimal = Decimal(value: real, plain: bool)

  datatype GroupPricing = GroupPricing(
    allowBatch: bool, imagePrice: Option<Decimal>, groupRate: real,
    independent: bool, imageRate: real, discount: real, holdRate: real)

  /** The catalogue price used when the group sets none: present only for per-image or per-request billing. */
  type CataloguePrice = Option<Decimal>

  datatype Price = Price(holdRate: real, unit: int, holdUnit: int, estimated: int, held: int)

  datatype PriceError = Denied | NotConfigured | InvalidPricing | ExceedsPrecision

  predicate Fits(n: int) {
    0 <= n < DECIMAL_10_10
  }

  function Max(x: real, y: real): real {
    if x < y then y else x
  }

  function Standard(base: real, rate: real, accountRate: real): real {
    base * rate * accountRate
  }

  function UnitPrice(standard: real, multiplier: real): int {
    To10(standard * multiplier)
  }

  /** The total of `n` items at a ten-place price. The source rounds the exact product to ten places again;
      TotalIsRounded shows that this changes nothing, so the product itself is stored. */
  function Total(unit: int, n: int): int {
    unit * n
  }

  lemma TotalIsRounded(unit: int, n: int)
    ensures Total(unit, n) == To10(Value10(unit) * n as real)
  {
    To10Exact(unit, n);
  }

  /** The amounts for `n` items at the standard price of one item; totals start from the rounded unit prices. */
  function Snapshot(standard: real, discount: real, holdRate: real, n: nat): Price {
    var unit := UnitPrice(standard, discount);
    var holdUnit := UnitPrice(standard, holdRate);
    Price(holdRate, unit, holdUnit, Total(unit, n), Total(holdUnit, n))
  }

  function BatchPrice(g: GroupPricing, catalogue: CataloguePrice, accountRate: real, n: nat):
    Result<Price, PriceError> {
    if !g.allowBatch then Err(Denied)
    else if g.imagePrice.None? && catalogue.None? then Err(NotConfigured)
    else
      var base := if g.imagePrice.Some? then g.imagePrice.value else catalogue.value;
      var rate := if g.independent then g.imageRate else g.groupRate;
      if base.value < 0.0 || rate < 0.0 || accountRate < 0.0 || g.discount < 0.0
      || g.holdRate < 0.0 then Err(InvalidPricing)
      else
        var p := Snapshot(Standard(base.value, rate, accountRate), g.discount, Max(g.holdRate, g.discount), n);
        if !base.plain || !Fits(p.unit) || !Fits(p.holdUnit) || !Fits(p.estimated)
        || !Fits(p.held) then Err(ExceedsPrecision)
        else Ok(p)
  }

  /** Whatever the configured rates, an accepted snapshot freezes enough for every possible outcome: any number
      of successes up to the item count costs at most the amount held, in both stored precisions. */
  lemma HoldCoversEveryOutcome(g: GroupPricing, catalogue: CataloguePrice, accountRate: real, n: nat, success: nat)
    requires BatchPrice(g, catalogue, accountRate, n).Ok?
    requires success <= n
    ensures var p := BatchPrice(g, catalogue, accountRate, n).value;
      && g.discount <= p.holdRate
      && 0 <= p.unit <= p.holdUnit
      && 0 <= Total(p.unit, success) <= p.estimated <= p.held
      && 0 <= To8(Total(p.unit, success)) <= To8(p.held)
  {
    var base := if g.imagePrice.Some? then g.imagePrice.value else catalogue.value;
    var rate := if g.independent then g.imageRate else g.groupRate;
    StandardNonnegative(base.value, rate, accountRate);
    SnapshotCovers(Standard(base.value, rate, accountRate), g.discount, Max(g.holdRate, g.discount), n, success);
  }

  lemma SnapshotCovers(standard: real, discount: real, holdRate: real, n: nat, success: nat)
    requires standard >= 0.0 && discount <= holdRate && success <= n
    requires Snapshot(standard, discount, holdRate, n).unit >= 0
    ensures var p := Snapshot(standard, discount, holdRate, n);
      && p.unit <= p.holdUnit
      && 0 <= Total(p.unit, success) <= p.estimated <= p.held
      && 0 <= To8(Total(p.unit, success)) <= To8(p.held)
  {
    var p := Snapshot(standard, discount, holdRate, n);
    UnitPriceMonotone(standard, discount, holdRate);
    CountsOrdered(p.unit, p.holdUnit, success, n);
    To8Monotone(p.unit * success, p.held);
  }

  lemma UnitPriceMonotone(standard: real, low: real, high: real)
    requires standard >= 0.0 && low <= high
    ensures UnitPrice(standard, low) <= UnitPrice(standard, high)
  {
    assert standard * low <= standard * high;
    FixedMonotone(standard * low, standard * high, UNITS_10);
  }

  lemma StandardNonnegative(base: real, rate: real, accountRate: real)
    requires base >= 0.0 && rate >= 0.0 && accountRate >= 0.0
    ensures Standard(base, rate, accountRate) >= 0.0
  {
    assert base * rate >= 0.0;
  }

  lemma CountsOrdered(unit: int, holdUnit: int, success: nat, n: nat)
    requires 0 <= unit <= holdUnit && success <= n
    ensures 0 <= unit * success <= unit * n <= holdUnit * n
  {
  }
}

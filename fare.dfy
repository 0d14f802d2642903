/**
 * The price preview of rides/views.py (`get_ride_estimate_view`): the active
 * pricing row's formula, or a fixed fallback when no row is active, rounded
 * half to even as Python's `round` does on a Decimal.
 */
module Fare {
  import opened Wrappers
  import opened Pricing
  import opened Directions
  import Decimal

  /** Unrounded cost with the active configuration. */
  function ConfiguredCost(m: Metrics, c: PricingConfig): (r: real) {
    c.baseFare + m.distanceKm * c.pricePerKm + m.durationMin * c.pricePerMinute
  }

  /** Unrounded cost without a configuration: 2000 plus 1000 per km, no per-minute term. */
  function FallbackCost(m: Metrics): real {
    2000.0 + m.distanceKm * 1000.0
  }

  /** The estimated price: the configured cost or the fallback cost, rounded half to even. */
  function EstimatedPrice(m: Metrics, config: Option<PricingConfig>): (price: int)
    ensures config.Some? ==> Decimal.IsHalfEvenRounding(ConfiguredCost(m, config.value), price)
    ensures config.None? ==> Decimal.IsHalfEvenRounding(FallbackCost(m), price)
  {
    match config
    case Some(c) => Decimal.RoundHalfEven(ConfiguredCost(m, c))
    case None => Decimal.RoundHalfEven(FallbackCost(m))
  }

  /** Without a configuration the trip's duration does not affect the price. */
  lemma FallbackIgnoresDuration(km: real, min1: real, min2: real)
    ensures EstimatedPrice(Metrics(km, min1), None) == EstimatedPrice(Metrics(km, min2), None)
  {
    Decimal.RoundHalfEvenUnique(FallbackCost(Metrics(km, min1)), EstimatedPrice(Metrics(km, min2), None));
  }

  lemma ScaleMonotone(a: real, b: real, k: real)
    requires a <= b && k >= 0.0
    ensures a * k <= b * k
  {
    assert b * k - a * k == (b - a) * k;
  }

  lemma SumMonotone(base: real, a1: real, a2: real, b1: real, b2: real)
    requires a1 <= a2 && b1 <= b2
    ensures base + a1 + b1 <= base + a2 + b2
  {
  }

  /** With non-negative rates a longer or slower trip never costs less. */
  lemma EstimateMonotone(m1: Metrics, m2: Metrics, config: Option<PricingConfig>)
    requires m1.distanceKm <= m2.distanceKm && m1.durationMin <= m2.durationMin
    requires config.Some? ==> config.value.pricePerKm >= 0.0 && config.value.pricePerMinute >= 0.0
    ensures EstimatedPrice(m1, config) <= EstimatedPrice(m2, config)
  {
    if config.Some? {
      var c := config.value;
      ScaleMonotone(m1.distanceKm, m2.distanceKm, c.pricePerKm);
      ScaleMonotone(m1.durationMin, m2.durationMin, c.pricePerMinute);
      SumMonotone(c.baseFare, m1.distanceKm * c.pricePerKm, m2.distanceKm * c.pricePerKm,
        m1.durationMin * c.pricePerMinute, m2.durationMin * c.pricePerMinute);
      Decimal.RoundHalfEvenMonotone(ConfiguredCost(m1, c), ConfiguredCost(m2, c));
    } else {
      Decimal.RoundHalfEvenMonotone(FallbackCost(m1), FallbackCost(m2));
    }
  }

  /** Base 2000, 1000 per km, 100 per minute; 5 km in 12 minutes costs 8200. */
  lemma WorkedExample()
    ensures EstimatedPrice(Metrics(5.0, 12.0), Some(PricingConfig("Standard", 2000.0, 1000.0, 100.0, 0.2, true))) == 8200
  {
    Decimal.RoundHalfEvenOfInt(8200);
  }

  /** A cost exactly halfway between two integers rounds to the even one (0.0005 km and 0.0015 km without a configuration). */
  lemma HalfwayRoundsToEven()
    ensures EstimatedPrice(Metrics(0.0005, 0.0), None) == 2000
    ensures EstimatedPrice(Metrics(0.0015, 0.0), None) == 2002
  {
    Decimal.RoundHalfEvenUnique(2000.5, 2000);
    Decimal.RoundHalfEvenUnique(2001.5, 2002);
  }

  /** Python `round(d, 1)` on a Decimal. */
  function Round1(x: real): (r: real)
    ensures Decimal.IsHalfEvenAtScale(x, 10.0, r)
    ensures x - 0.05 <= r <= x + 0.05
  {
    var n := Decimal.RoundHalfEven(x * 10.0);
    assert n as real - 0.5 <= x * 10.0 <= n as real + 0.5;
    var r := n as real / 10.0;
    assert r * 10.0 == n as real;
    assert (r * 10.0).Floor == n;
    assert x - 0.05 <= r by {
      assert (x - 0.05) * 10.0 == x * 10.0 - 0.5;
    }
    assert r <= x + 0.05 by {
      assert (x + 0.05) * 10.0 == x * 10.0 + 0.5;
    }
    r
  }

  /** The JSON reply of a successful estimate. */
  datatype Estimate = Estimate(distanceKm: real, durationMin: int, price: int)

  datatype EstimateError = MissingCoordinates | NoRoute

  /**
   * get_ride_estimate_view once the request is read: `coordinatesGiven` says
   * whether all four coordinates were present, `metrics` is the directions
   * result and `configs` the pricing table.
   */
  function EstimateView(coordinatesGiven: bool, metrics: Option<Metrics>, configs: seq<PricingConfig>): (r: Result<Estimate, EstimateError>)
    ensures !coordinatesGiven ==> r == Err(MissingCoordinates)
    ensures coordinatesGiven && metrics.None? ==> r == Err(NoRoute)
    ensures coordinatesGiven && metrics.Some? ==> r.Ok?
    ensures r.Ok? ==> metrics.Some? && r.value.price == EstimatedPrice(metrics.value, FirstActive(configs))
    ensures r.Ok? ==> Decimal.IsHalfEvenRounding(metrics.value.durationMin, r.value.durationMin)
    ensures r.Ok? ==> metrics.value.distanceKm - 0.05 <= r.value.distanceKm <= metrics.value.distanceKm + 0.05
    ensures r.Ok? ==> Decimal.IsHalfEvenAtScale(metrics.value.distanceKm, 10.0, r.value.distanceKm)
  {
    if !coordinatesGiven then Err(MissingCoordinates)
    else if metrics.None? then Err(NoRoute)
    else
      var m := metrics.value;
      Ok(Estimate(Round1(m.distanceKm), Decimal.RoundHalfEven(m.durationMin), EstimatedPrice(m, FirstActive(configs))))
  }
}

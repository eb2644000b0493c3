/**
 * Ticket yields of the revenue modeller: the business yield is the adult
 * price, and the leisure yield is the average of the four demographic
 * prices weighted by the leisure mix, normalised by the mix total.
 */
module Yield {

  /** One amount per demographic: a price table or a set of mix weights. */
  datatype Tiers = Tiers(adult: real, pensioner: real, youth: real, child: real)

  /** Single-ticket prices per demographic. */
  type PriceTable = Tiers

  /** Leisure demographic weights (nominally percentages summing to 100). */
  type LeisureMix = Tiers

  function Total(mix: Tiers): real {
    mix.adult + mix.pensioner + mix.youth + mix.child
  }

  /** Sum of price times weight over the four demographics. */
  function WeightedSum(prices: PriceTable, mix: LeisureMix): real {
    prices.adult * mix.adult + prices.pensioner * mix.pensioner
    + prices.youth * mix.youth + prices.child * mix.child
  }

  /** Every weight multiplied by k. */
  function Scaled(mix: LeisureMix, k: real): LeisureMix {
    Tiers(k * mix.adult, k * mix.pensioner, k * mix.youth, k * mix.child)
  }

  predicate NonNegative(mix: LeisureMix) {
    mix.adult >= 0.0 && mix.pensioner >= 0.0 && mix.youth >= 0.0 && mix.child >= 0.0
  }

  function Min(a: real, b: real): real { if a <= b then a else b }

  function Max(a: real, b: real): real { if a >= b then a else b }

  function LowestPrice(prices: PriceTable): real {
    Min(Min(prices.adult, prices.pensioner), Min(prices.youth, prices.child))
  }

  function HighestPrice(prices: PriceTable): real {
    Max(Max(prices.adult, prices.pensioner), Max(prices.youth, prices.child))
  }

  /**
   * The leisure yield as the source computes it: each weight is rescaled by
   * 100 / total (a zero total gives the factor 0) and read as a percentage.
   * The result is the weighted average of the prices, and 0 for a zero total.
   */
  function LeisureYield(prices: PriceTable, mix: LeisureMix): (y: real)
    ensures Total(mix) == 0.0 ==> y == 0.0
    ensures Total(mix) != 0.0 ==> y == WeightedSum(prices, mix) / Total(mix)
  {
    var total := Total(mix);
    var factor := if total == 0.0 then 0.0 else 100.0 / total;
    prices.adult * (mix.adult * factor) / 100.0
    + prices.pensioner * (mix.pensioner * factor) / 100.0
    + prices.youth * (mix.youth * factor) / 100.0
    + prices.child * (mix.child * factor) / 100.0
  }

  /**
   * The business yield: business travellers pay the adult price. It is the
   * leisure yield of an all-adult mix and lies within the price table's range.
   */
  function BusinessYield(prices: PriceTable): (y: real)
    ensures y == LeisureYield(prices, Tiers(100.0, 0.0, 0.0, 0.0))
    ensures LowestPrice(prices) <= y <= HighestPrice(prices)
  {
    prices.adult
  }

  /** Multiplying every weight by the same positive constant leaves the yield unchanged. */
  lemma LeisureYieldScaleInvariant(prices: PriceTable, mix: LeisureMix, k: real)
    requires k > 0.0
    ensures LeisureYield(prices, Scaled(mix, k)) == LeisureYield(prices, mix)
  {
  }

  /** With non-negative weights and a positive total the yield is a true average. */
  lemma LeisureYieldBetweenPrices(prices: PriceTable, mix: LeisureMix)
    requires NonNegative(mix) && Total(mix) > 0.0
    ensures LowestPrice(prices) <= LeisureYield(prices, mix) <= HighestPrice(prices)
  {
    var lo, hi := LowestPrice(prices), HighestPrice(prices);
    WeightedSumAtLeast(prices, mix, lo);
    WeightedSumAtMost(prices, mix, hi);
    QuotientBounds(WeightedSum(prices, mix), Total(mix), lo, hi);
  }

  /** A weighted sum with non-negative weights is at least the lowest price times the total... */
  lemma WeightedSumAtLeast(prices: PriceTable, mix: LeisureMix, lo: real)
    requires NonNegative(mix)
    requires lo <= prices.adult && lo <= prices.pensioner && lo <= prices.youth && lo <= prices.child
    ensures lo * Total(mix) <= WeightedSum(prices, mix)
  {
  }

  /** ... and at most the highest price times the total. */
  lemma WeightedSumAtMost(prices: PriceTable, mix: LeisureMix, hi: real)
    requires NonNegative(mix)
    requires prices.adult <= hi && prices.pensioner <= hi && prices.youth <= hi && prices.child <= hi
    ensures WeightedSum(prices, mix) <= hi * Total(mix)
  {
  }

  lemma QuotientBounds(s: real, t: real, lo: real, hi: real)
    requires t > 0.0 && lo * t <= s <= hi * t
    ensures lo <= s / t <= hi
  {
  }

  /** When all four prices are equal, any mix with a non-zero total yields that price. */
  lemma LeisureYieldUniformPrices(p: real, mix: LeisureMix)
    requires Total(mix) != 0.0
    ensures LeisureYield(Tiers(p, p, p, p), mix) == p
  {
  }
}

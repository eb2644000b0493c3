/**
 * Per-channel metrics of the revenue modeller: transactions, passengers,
 * revenue and effective conversion rate of one sales channel, with or
 * without the analyst's scenario applied.
 */
module Channels {

  /** One sales channel; all percentages are read as numbers out of 100. */
  datatype Channel = Channel(
    id: string,
    name: string,
    traffic: real,
    cr: real,
    bizShare: real,
    returnMix: real,
    avgGroupSize: real)

  /**
   * The segment a scenario targets. The source compares a free string with
   * "business", "leisure" and "both"; every other string is Other and makes
   * the scenario touch neither segment.
   */
  datatype Segment = Business | Leisure | Both | Other

  /** A what-if shock: yield and conversion-rate changes in percent. */
  datatype Scenario = Scenario(
    active: bool,
    name: string,
    targetChannel: string,
    targetSegment: Segment,
    yieldImpact: real,
    crImpact: real)

  datatype Metrics = Metrics(transactions: real, totalPax: real, revenue: real, effectiveCR: real)

  /** Conversion rate and the two yields after the scenario (if any) is applied. */
  datatype Rates = Rates(cr: real, yieldBiz: real, yieldLei: real)

  /** The channel wildcard of a scenario. */
  const AllChannels: string := "all"

  /** The scenario reaches this channel in this evaluation. */
  predicate Applies(ch: Channel, sc: Scenario, applyScenario: bool) {
    applyScenario && sc.active && (sc.targetChannel == AllChannels || sc.targetChannel == ch.id)
  }

  predicate HitsBusiness(seg: Segment) { seg == Business || seg == Both }

  predicate HitsLeisure(seg: Segment) { seg == Leisure || seg == Both }

  /** Business share of the channel as a fraction. */
  function BizFraction(ch: Channel): real { ch.bizShare / 100.0 }

  /** Scenario conversion change as a fraction. */
  function CrDelta(sc: Scenario): real { sc.crImpact / 100.0 }

  /** Factor by which a targeted segment's yield is multiplied. */
  function YieldFactor(sc: Scenario): real { 1.0 + sc.yieldImpact / 100.0 }

  /** Factor of the business conversion step: its uplift is weighted by the business share. */
  function BusinessStep(ch: Channel, sc: Scenario): real {
    1.0 + BizFraction(ch) * CrDelta(sc)
  }

  /** Factor of the leisure conversion step: its uplift is weighted by the leisure share. */
  function LeisureStep(ch: Channel, sc: Scenario): real {
    1.0 + (1.0 - BizFraction(ch)) * CrDelta(sc)
  }

  /**
   * The rates a channel is evaluated with. A scenario that does not apply
   * leaves the channel's conversion rate and both yields as they are; one
   * that applies scales each targeted yield and multiplies the conversion
   * rate by the business step and then the leisure step.
   */
  function ScenarioRates(ch: Channel, sc: Scenario, yieldBiz: real, yieldLei: real, applyScenario: bool): Rates {
    if !Applies(ch, sc, applyScenario) then Rates(ch.cr, yieldBiz, yieldLei)
    else
      var seg := sc.targetSegment;
      var afterBusiness := if HitsBusiness(seg) then ch.cr * BusinessStep(ch, sc) else ch.cr;
      var afterLeisure := if HitsLeisure(seg) then afterBusiness * LeisureStep(ch, sc) else afterBusiness;
      Rates(afterLeisure,
            if HitsBusiness(seg) then yieldBiz * YieldFactor(sc) else yieldBiz,
            if HitsLeisure(seg) then yieldLei * YieldFactor(sc) else yieldLei)
  }

  /** Boardings per ticket: a return ticket counts twice. */
  function TripsPerTicket(ch: Channel): real { 1.0 + ch.returnMix / 100.0 }

  /**
   * The outputs for given rates: transactions are traffic times conversion,
   * passengers are tickets times trips per ticket, and revenue is passengers
   * times the share-weighted blend of the two yields.
   */
  function Outputs(ch: Channel, r: Rates): Metrics {
    var transactions := ch.traffic * (r.cr / 100.0);
    var pax := transactions * ch.avgGroupSize * TripsPerTicket(ch);
    var b := BizFraction(ch);
    Metrics(transactions, pax, pax * (b * r.yieldBiz + (1.0 - b) * r.yieldLei), r.cr)
  }

  function ChannelMetrics(ch: Channel, sc: Scenario, yieldBiz: real, yieldLei: real, applyScenario: bool): Metrics {
    Outputs(ch, ScenarioRates(ch, sc, yieldBiz, yieldLei, applyScenario))
  }

  /**
   * The scenario half of the source's computation, step by step: the
   * business step updates the conversion rate before the leisure step
   * reads it.
   */
  method AdjustRates(ch: Channel, sc: Scenario, yieldBiz: real, yieldLei: real, applyScenario: bool)
    returns (r: Rates)
    ensures r == ScenarioRates(ch, sc, yieldBiz, yieldLei, applyScenario)
  {
    var cr := ch.cr;
    var channelYieldBiz := yieldBiz;
    var channelYieldLei := yieldLei;

    if applyScenario && sc.active {
      var isTargetChannel := sc.targetChannel == AllChannels || sc.targetChannel == ch.id;
      if isTargetChannel {
        var impactYield := 1.0 + sc.yieldImpact / 100.0;
        var impactCR := 1.0 + sc.crImpact / 100.0;
        assert impactCR - 1.0 == CrDelta(sc);

        if sc.targetSegment == Business || sc.targetSegment == Both {
          channelYieldBiz := channelYieldBiz * impactYield;
          var crUplift := cr * (ch.bizShare / 100.0) * (impactCR - 1.0);
          StepFactor(cr, BizFraction(ch), CrDelta(sc));
          cr := cr + crUplift;
        }
        assert cr == if HitsBusiness(sc.targetSegment) then ch.cr * BusinessStep(ch, sc) else ch.cr;
        if sc.targetSegment == Leisure || sc.targetSegment == Both {
          channelYieldLei := channelYieldLei * impactYield;
          assert (100.0 - ch.bizShare) / 100.0 == 1.0 - BizFraction(ch);
          var crUplift := cr * ((100.0 - ch.bizShare) / 100.0) * (impactCR - 1.0);
          StepFactor(cr, 1.0 - BizFraction(ch), CrDelta(sc));
          cr := cr + crUplift;
        }
      }
    }
    r := Rates(cr, channelYieldBiz, channelYieldLei);
  }

  /**
   * The source's computation of one channel's metrics: the scenario
   * adjustment, then transactions, tickets, passengers and the business and
   * leisure revenue.
   */
  method CalculateChannelMetrics(ch: Channel, sc: Scenario, yieldBiz: real, yieldLei: real, applyScenario: bool)
    returns (m: Metrics)
    ensures m == ChannelMetrics(ch, sc, yieldBiz, yieldLei, applyScenario)
  {
    var rates := AdjustRates(ch, sc, yieldBiz, yieldLei, applyScenario);
    var cr, channelYieldBiz, channelYieldLei := rates.cr, rates.yieldBiz, rates.yieldLei;

    var transactions := ch.traffic * (cr / 100.0);
    var totalTickets := transactions * ch.avgGroupSize;
    var tripsPerTicket := ((100.0 - ch.returnMix) / 100.0 * 1.0) + (ch.returnMix / 100.0 * 2.0);
    var totalPax := totalTickets * tripsPerTicket;
    var ticketsBiz := totalTickets * (ch.bizShare / 100.0);
    var ticketsLei := totalTickets * ((100.0 - ch.bizShare) / 100.0);
    var revenueBiz := ticketsBiz * channelYieldBiz * tripsPerTicket;
    var revenueLei := ticketsLei * channelYieldLei * tripsPerTicket;
    OutputsStepwise(ch, rates);

    m := Metrics(transactions, totalPax, revenueBiz + revenueLei, cr);
  }

  /** The source's output arithmetic, step by step, agrees with Outputs. */
  lemma OutputsStepwise(ch: Channel, r: Rates)
    ensures
      var transactions := ch.traffic * (r.cr / 100.0);
      var totalTickets := transactions * ch.avgGroupSize;
      var tripsPerTicket := ((100.0 - ch.returnMix) / 100.0 * 1.0) + (ch.returnMix / 100.0 * 2.0);
      var totalPax := totalTickets * tripsPerTicket;
      var ticketsBiz := totalTickets * (ch.bizShare / 100.0);
      var ticketsLei := totalTickets * ((100.0 - ch.bizShare) / 100.0);
      var revenueBiz := ticketsBiz * r.yieldBiz * tripsPerTicket;
      var revenueLei := ticketsLei * r.yieldLei * tripsPerTicket;
      Outputs(ch, r) == Metrics(transactions, totalPax, revenueBiz + revenueLei, r.cr)
  {
  }

  /** Adding an uplift of x * s * d to x is multiplying x by 1 + s * d. */
  lemma StepFactor(x: real, s: real, d: real)
    ensures x + x * s * d == x * (1.0 + s * d)
  {
  }

  // ---------------------------------------------------------------------
  // Properties of one channel's metrics
  // ---------------------------------------------------------------------

  /**
   * When the scenario is not applied, is inactive, targets another channel
   * or names no known segment, the channel keeps its own conversion rate
   * and the plain yields, so its metrics are the baseline ones.
   */
  lemma BaselinePassthrough(ch: Channel, sc: Scenario, yieldBiz: real, yieldLei: real, applyScenario: bool)
    requires || !applyScenario
             || !sc.active
             || (sc.targetChannel != AllChannels && sc.targetChannel != ch.id)
             || sc.targetSegment == Other
    ensures ScenarioRates(ch, sc, yieldBiz, yieldLei, applyScenario) == Rates(ch.cr, yieldBiz, yieldLei)
    ensures ChannelMetrics(ch, sc, yieldBiz, yieldLei, applyScenario).effectiveCR == ch.cr
    ensures ChannelMetrics(ch, sc, yieldBiz, yieldLei, applyScenario)
         == ChannelMetrics(ch, sc, yieldBiz, yieldLei, false)
  {
  }

  /**
   * What an applied scenario does per segment, with b the business share and
   * d the conversion change as fractions, and g the yield factor: business
   * multiplies the rate by 1 + b*d, leisure by 1 + (1-b)*d, and both by
   * the two factors in turn; each targeted yield is multiplied by g.
   */
  lemma SegmentUplift(ch: Channel, sc: Scenario, yieldBiz: real, yieldLei: real)
    requires Applies(ch, sc, true)
    ensures
      var b, d, g := ch.bizShare / 100.0, sc.crImpact / 100.0, 1.0 + sc.yieldImpact / 100.0;
      var r := ScenarioRates(ch, sc, yieldBiz, yieldLei, true);
      && (sc.targetSegment == Business ==> r == Rates(ch.cr * (1.0 + b * d), yieldBiz * g, yieldLei))
      && (sc.targetSegment == Leisure ==> r == Rates(ch.cr * (1.0 + (1.0 - b) * d), yieldBiz, yieldLei * g))
      && (sc.targetSegment == Both
          ==> r == Rates(ch.cr * (1.0 + b * d) * (1.0 + (1.0 - b) * d), yieldBiz * g, yieldLei * g))
  {
  }

  /**
   * Targeting both segments is the business adjustment followed by the
   * leisure adjustment evaluated on the already-raised conversion rate.
   */
  lemma BothIsBusinessThenLeisure(ch: Channel, sc: Scenario, yieldBiz: real, yieldLei: real)
    requires Applies(ch, sc, true) && sc.targetSegment == Both
    ensures
      var biz := ScenarioRates(ch, sc.(targetSegment := Business), yieldBiz, yieldLei, true);
      ScenarioRates(ch.(cr := biz.cr), sc.(targetSegment := Leisure), biz.yieldBiz, biz.yieldLei, true)
      == ScenarioRates(ch, sc, yieldBiz, yieldLei, true)
  {
  }

  /**
   * The two conversion steps compound: against adding both uplifts to the
   * original rate (which gives cr * (1 + d)), the sequential result carries
   * the extra cross term cr * b * (1 - b) * d * d. Over the reals the order
   * of the two steps does not change the result.
   */
  lemma BothCompounds(ch: Channel, sc: Scenario, yieldBiz: real, yieldLei: real)
    requires Applies(ch, sc, true) && sc.targetSegment == Both
    ensures
      var b, d := ch.bizShare / 100.0, sc.crImpact / 100.0;
      var cr := ScenarioRates(ch, sc, yieldBiz, yieldLei, true).cr;
      && cr == ch.cr * (1.0 + d) + ch.cr * b * (1.0 - b) * d * d
      && cr == ch.cr * LeisureStep(ch, sc) * BusinessStep(ch, sc)
  {
  }

  /** (1 + b*d) * (1 + (1-b)*d) expanded. */
  lemma TwoStepProduct(b: real, d: real)
    ensures (1.0 + b * d) * (1.0 + (1.0 - b) * d) == 1.0 + d + b * (1.0 - b) * d * d
  {
  }

  /** With zero traffic nothing converts: no transactions, passengers or revenue. */
  lemma ZeroTraffic(ch: Channel, sc: Scenario, yieldBiz: real, yieldLei: real, applyScenario: bool)
    requires ch.traffic == 0.0
    ensures
      var m := ChannelMetrics(ch, sc, yieldBiz, yieldLei, applyScenario);
      m.transactions == 0.0 && m.totalPax == 0.0 && m.revenue == 0.0
  {
  }

  /**
   * A channel whose traffic is all business earns passengers times the
   * (possibly adjusted) business yield; the leisure yield plays no part.
   */
  lemma FullBusinessShare(ch: Channel, sc: Scenario, yieldBiz: real, yieldLei: real, otherLei: real, applyScenario: bool)
    requires ch.bizShare == 100.0
    ensures
      var m := ChannelMetrics(ch, sc, yieldBiz, yieldLei, applyScenario);
      && m.revenue == m.totalPax * ScenarioRates(ch, sc, yieldBiz, yieldLei, applyScenario).yieldBiz
      && m.revenue == ChannelMetrics(ch, sc, yieldBiz, otherLei, applyScenario).revenue
  {
  }

  /** A scenario with zero yield impact and zero conversion impact changes nothing. */
  lemma NoOpScenario(ch: Channel, sc: Scenario, yieldBiz: real, yieldLei: real)
    requires sc.yieldImpact == 0.0 && sc.crImpact == 0.0
    ensures ChannelMetrics(ch, sc, yieldBiz, yieldLei, true) == ChannelMetrics(ch, sc, yieldBiz, yieldLei, false)
  {
  }

  /**
   * Raising the conversion impact never lowers the effective conversion rate
   * or the passengers of a channel, as long as the shares are genuine
   * percentages, the quantities are non-negative and the lower impact does
   * not cut conversion by more than 100%.
   */
  lemma PaxMonotoneInCrImpact(ch: Channel, sc: Scenario, higher: real, yieldBiz: real, yieldLei: real, applyScenario: bool)
    requires -100.0 <= sc.crImpact <= higher
    requires 0.0 <= ch.bizShare <= 100.0
    requires ch.traffic >= 0.0 && ch.cr >= 0.0 && ch.avgGroupSize >= 0.0 && ch.returnMix >= -100.0
    ensures
      var low := ChannelMetrics(ch, sc, yieldBiz, yieldLei, applyScenario);
      var high := ChannelMetrics(ch, sc.(crImpact := higher), yieldBiz, yieldLei, applyScenario);
      low.effectiveCR <= high.effectiveCR && low.totalPax <= high.totalPax
  {
    var r1 := ScenarioRates(ch, sc, yieldBiz, yieldLei, applyScenario);
    var r2 := ScenarioRates(ch, sc.(crImpact := higher), yieldBiz, yieldLei, applyScenario);
    CrMonotoneInCrImpact(ch, sc, higher, yieldBiz, yieldLei, applyScenario);
    PaxMonotoneInCr(ch, r1.cr, r2.cr);
  }

  /** The effective conversion rate alone grows with the conversion impact. */
  lemma CrMonotoneInCrImpact(ch: Channel, sc: Scenario, higher: real, yieldBiz: real, yieldLei: real, applyScenario: bool)
    requires -100.0 <= sc.crImpact <= higher
    requires 0.0 <= ch.bizShare <= 100.0 && ch.cr >= 0.0
    ensures ScenarioRates(ch, sc, yieldBiz, yieldLei, applyScenario).cr
         <= ScenarioRates(ch, sc.(crImpact := higher), yieldBiz, yieldLei, applyScenario).cr
  {
    var sc' := sc.(crImpact := higher);
    if Applies(ch, sc, applyScenario) {
      match sc.targetSegment
      case Business =>
        BusinessStepMonotone(ch, sc, higher);
        ScaleMonotone(ch.cr, BusinessStep(ch, sc), BusinessStep(ch, sc'));
      case Leisure =>
        LeisureStepMonotone(ch, sc, higher);
        ScaleMonotone(ch.cr, LeisureStep(ch, sc), LeisureStep(ch, sc'));
      case Both =>
        BothStepsMonotone(ch, sc, higher);
        var m1, m2 := BusinessStep(ch, sc) * LeisureStep(ch, sc), BusinessStep(ch, sc') * LeisureStep(ch, sc');
        ScaleMonotone(ch.cr, m1, m2);
        assert ch.cr * BusinessStep(ch, sc) * LeisureStep(ch, sc) == ch.cr * m1;
        assert ch.cr * BusinessStep(ch, sc') * LeisureStep(ch, sc') == ch.cr * m2;
      case Other =>
    }
  }

  lemma BusinessStepMonotone(ch: Channel, sc: Scenario, higher: real)
    requires sc.crImpact <= higher && ch.bizShare >= 0.0
    ensures BusinessStep(ch, sc) <= BusinessStep(ch, sc.(crImpact := higher))
  {
  }

  lemma LeisureStepMonotone(ch: Channel, sc: Scenario, higher: real)
    requires sc.crImpact <= higher && ch.bizShare <= 100.0
    ensures LeisureStep(ch, sc) <= LeisureStep(ch, sc.(crImpact := higher))
  {
  }

  lemma BothStepsMonotone(ch: Channel, sc: Scenario, higher: real)
    requires -100.0 <= sc.crImpact <= higher && 0.0 <= ch.bizShare <= 100.0
    ensures BusinessStep(ch, sc) * LeisureStep(ch, sc)
         <= BusinessStep(ch, sc.(crImpact := higher)) * LeisureStep(ch, sc.(crImpact := higher))
  {
    var b, d1, d2 := BizFraction(ch), CrDelta(sc), CrDelta(sc.(crImpact := higher));
    TwoStepMonotone(b, d1, d2);
    TwoStepProduct(b, d1);
    TwoStepProduct(b, d2);
  }

  /** Passengers grow with the conversion rate when the other factors are non-negative. */
  lemma PaxMonotoneInCr(ch: Channel, cr1: real, cr2: real)
    requires cr1 <= cr2
    requires ch.traffic >= 0.0 && ch.avgGroupSize >= 0.0 && ch.returnMix >= -100.0
    ensures ch.traffic * (cr1 / 100.0) * ch.avgGroupSize * TripsPerTicket(ch)
         <= ch.traffic * (cr2 / 100.0) * ch.avgGroupSize * TripsPerTicket(ch)
  {
  }

  lemma ScaleMonotone(k: real, x: real, y: real)
    requires k >= 0.0 && x <= y
    ensures k * x <= k * y
  {
  }

  lemma SquareNonNegative(x: real)
    ensures x * x >= 0.0
  {
  }

  lemma MulNonNegative(x: real, y: real)
    requires x >= 0.0 && y >= 0.0
    ensures x * y >= 0.0
  {
  }

  /** The compounded factor 1 + d + b(1-b)d^2 grows with d on d >= -1 when 0 <= b <= 1. */
  lemma TwoStepMonotone(b: real, d1: real, d2: real)
    requires 0.0 <= b <= 1.0 && -1.0 <= d1 <= d2
    ensures 1.0 + d1 + b * (1.0 - b) * d1 * d1 <= 1.0 + d2 + b * (1.0 - b) * d2 * d2
  {
    var q := b * (1.0 - b);
    CrossTermBounds(b);
    ScaleMonotone(q, -2.0, d1 + d2);
    assert 1.0 + q * (d1 + d2) >= 0.0;
    DifferenceOfSquares(q, d1, d2);
    MulNonNegative(d2 - d1, 1.0 + q * (d1 + d2));
  }

  lemma CrossTermBounds(b: real)
    requires 0.0 <= b <= 1.0
    ensures 0.0 <= b * (1.0 - b) <= 0.25
  {
    MulNonNegative(b, 1.0 - b);
    assert b * (1.0 - b) == 0.25 - (b - 0.5) * (b - 0.5);
    SquareNonNegative(b - 0.5);
  }

  lemma DifferenceOfSquares(q: real, d1: real, d2: real)
    ensures (1.0 + d2 + q * d2 * d2) - (1.0 + d1 + q * d1 * d1) == (d2 - d1) * (1.0 + q * (d1 + d2))
  {
  }
}

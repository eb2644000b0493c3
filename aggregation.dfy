/**
 * The results of the revenue modeller: every channel is evaluated without
 * and with the scenario, passengers and revenue are summed into a baseline
 * and a simulated total, and each channel's pair of metrics is recorded
 * under its id.
 */
module Aggregation {
  import opened Yield
  import opened Channels

  datatype Totals = Totals(pax: real, revenue: real)

  /** One channel's metrics without (base) and with (sim) the scenario. */
  datatype Detail = Detail(base: Metrics, sim: Metrics)

  datatype Results = Results(baseline: Totals, simulated: Totals, channelDetails: map<string, Detail>)

  /** Passengers summed over the channels, in order. */
  function SumPax(chs: seq<Channel>, sc: Scenario, yieldBiz: real, yieldLei: real, applyScenario: bool): real
    decreases |chs|
  {
    if chs == [] then 0.0
    else SumPax(chs[..|chs| - 1], sc, yieldBiz, yieldLei, applyScenario)
         + ChannelMetrics(chs[|chs| - 1], sc, yieldBiz, yieldLei, applyScenario).totalPax
  }

  /** Revenue summed over the channels, in order. */
  function SumRevenue(chs: seq<Channel>, sc: Scenario, yieldBiz: real, yieldLei: real, applyScenario: bool): real
    decreases |chs|
  {
    if chs == [] then 0.0
    else SumRevenue(chs[..|chs| - 1], sc, yieldBiz, yieldLei, applyScenario)
         + ChannelMetrics(chs[|chs| - 1], sc, yieldBiz, yieldLei, applyScenario).revenue
  }

  function TotalsOf(chs: seq<Channel>, sc: Scenario, yieldBiz: real, yieldLei: real, applyScenario: bool): Totals {
    Totals(SumPax(chs, sc, yieldBiz, yieldLei, applyScenario), SumRevenue(chs, sc, yieldBiz, yieldLei, applyScenario))
  }

  function DetailOf(ch: Channel, sc: Scenario, yieldBiz: real, yieldLei: real): Detail {
    Detail(ChannelMetrics(ch, sc, yieldBiz, yieldLei, false), ChannelMetrics(ch, sc, yieldBiz, yieldLei, true))
  }

  function Ids(chs: seq<Channel>): set<string> {
    set c | c in chs :: c.id
  }

  /** No later channel carries the id of channel i, so its entry is the one kept. */
  predicate LastWithId(chs: seq<Channel>, i: int)
    requires 0 <= i < |chs|
  {
    forall j :: i < j < |chs| ==> chs[j].id != chs[i].id
  }

  /**
   * The source's results loop. The baseline and simulated totals are the
   * sums of every channel's base and simulated passengers and revenue; the
   * details hold one entry per channel id, that of the last channel with
   * that id.
   */
  method ComputeResults(channels: seq<Channel>, scenario: Scenario, prices: PriceTable, leisureMix: LeisureMix)
    returns (res: Results)
    ensures res.baseline
         == TotalsOf(channels, scenario, BusinessYield(prices), LeisureYield(prices, leisureMix), false)
    ensures res.simulated
         == TotalsOf(channels, scenario, BusinessYield(prices), LeisureYield(prices, leisureMix), true)
    ensures res.channelDetails.Keys == Ids(channels)
    ensures forall i :: 0 <= i < |channels| && LastWithId(channels, i) ==>
              res.channelDetails[channels[i].id]
              == DetailOf(channels[i], scenario, BusinessYield(prices), LeisureYield(prices, leisureMix))
  {
    var yieldBiz := BusinessYield(prices);
    var yieldLei := LeisureYield(prices, leisureMix);

    var baseline := Totals(0.0, 0.0);
    var simulated := Totals(0.0, 0.0);
    var channelDetails: map<string, Detail> := map[];

    for i := 0 to |channels|
      invariant baseline == TotalsOf(channels[..i], scenario, yieldBiz, yieldLei, false)
      invariant simulated == TotalsOf(channels[..i], scenario, yieldBiz, yieldLei, true)
      invariant channelDetails.Keys == Ids(channels[..i])
      invariant forall k :: 0 <= k < i && LastWithId(channels[..i], k) ==>
                  channelDetails[channels[k].id] == DetailOf(channels[k], scenario, yieldBiz, yieldLei)
    {
      var ch := channels[i];
      var base := CalculateChannelMetrics(ch, scenario, yieldBiz, yieldLei, false);
      var sim := CalculateChannelMetrics(ch, scenario, yieldBiz, yieldLei, true);
      baseline := Totals(baseline.pax + base.totalPax, baseline.revenue + base.revenue);
      simulated := Totals(simulated.pax + sim.totalPax, simulated.revenue + sim.revenue);
      DetailsExtend(channels, i, channelDetails, scenario, yieldBiz, yieldLei);
      channelDetails := channelDetails[ch.id := Detail(base, sim)];
      TotalsExtend(channels, i, scenario, yieldBiz, yieldLei, false);
      TotalsExtend(channels, i, scenario, yieldBiz, yieldLei, true);
    }
    assert channels[..|channels|] == channels;
    res := Results(baseline, simulated, channelDetails);
  }

  /** The totals over one more channel add that channel's passengers and revenue. */
  lemma TotalsExtend(chs: seq<Channel>, i: int, sc: Scenario, yieldBiz: real, yieldLei: real, applyScenario: bool)
    requires 0 <= i < |chs|
    ensures
      TotalsOf(chs[..i + 1], sc, yieldBiz, yieldLei, applyScenario)
      == Totals(TotalsOf(chs[..i], sc, yieldBiz, yieldLei, applyScenario).pax
                + ChannelMetrics(chs[i], sc, yieldBiz, yieldLei, applyScenario).totalPax,
                TotalsOf(chs[..i], sc, yieldBiz, yieldLei, applyScenario).revenue
                + ChannelMetrics(chs[i], sc, yieldBiz, yieldLei, applyScenario).revenue)
  {
    assert chs[..i + 1][..i] == chs[..i];
  }

  /**
   * Recording channel i's entry keeps the details map keyed by the ids seen
   * so far, each holding the entry of the last channel with that id.
   */
  lemma DetailsExtend(chs: seq<Channel>, i: int, details: map<string, Detail>, sc: Scenario, yieldBiz: real, yieldLei: real)
    requires 0 <= i < |chs|
    requires details.Keys == Ids(chs[..i])
    requires forall k :: 0 <= k < i && LastWithId(chs[..i], k) ==>
               details[chs[k].id] == DetailOf(chs[k], sc, yieldBiz, yieldLei)
    ensures
      var details' := details[chs[i].id := DetailOf(chs[i], sc, yieldBiz, yieldLei)];
      && details'.Keys == Ids(chs[..i + 1])
      && forall k :: 0 <= k < i + 1 && LastWithId(chs[..i + 1], k) ==>
           details'[chs[k].id] == DetailOf(chs[k], sc, yieldBiz, yieldLei)
  {
    var details' := details[chs[i].id := DetailOf(chs[i], sc, yieldBiz, yieldLei)];
    assert chs[..i + 1] == chs[..i] + [chs[i]];
    forall k | 0 <= k < i + 1 && LastWithId(chs[..i + 1], k)
      ensures details'[chs[k].id] == DetailOf(chs[k], sc, yieldBiz, yieldLei)
    {
      if k < i {
        assert chs[..i + 1][i].id != chs[k].id;
        assert LastWithId(chs[..i], k);
      }
    }
  }

  // ---------------------------------------------------------------------
  // Properties of the totals
  // ---------------------------------------------------------------------

  /** Totals over two runs of channels are the sums of the totals of each run. */
  lemma {:induction false} TotalsConcat(a: seq<Channel>, b: seq<Channel>, sc: Scenario, yieldBiz: real, yieldLei: real, applyScenario: bool)
    ensures SumPax(a + b, sc, yieldBiz, yieldLei, applyScenario)
         == SumPax(a, sc, yieldBiz, yieldLei, applyScenario) + SumPax(b, sc, yieldBiz, yieldLei, applyScenario)
    ensures SumRevenue(a + b, sc, yieldBiz, yieldLei, applyScenario)
         == SumRevenue(a, sc, yieldBiz, yieldLei, applyScenario) + SumRevenue(b, sc, yieldBiz, yieldLei, applyScenario)
    decreases |b|
  {
    if b == [] {
      assert a + b == a;
    } else {
      var last := |b| - 1;
      assert (a + b)[..|a + b| - 1] == a + b[..last];
      TotalsConcat(a, b[..last], sc, yieldBiz, yieldLei, applyScenario);
    }
  }

  /** If the scenario leaves every channel's metrics unchanged, the simulated totals are the baseline totals. */
  lemma {:induction false} UnchangedChannelsUnchangedTotals(chs: seq<Channel>, sc: Scenario, yieldBiz: real, yieldLei: real)
    requires forall i :: 0 <= i < |chs| ==>
               ChannelMetrics(chs[i], sc, yieldBiz, yieldLei, true) == ChannelMetrics(chs[i], sc, yieldBiz, yieldLei, false)
    ensures TotalsOf(chs, sc, yieldBiz, yieldLei, true) == TotalsOf(chs, sc, yieldBiz, yieldLei, false)
    decreases |chs|
  {
    if chs != [] {
      var init := chs[..|chs| - 1];
      assert forall i :: 0 <= i < |init| ==> init[i] == chs[i];
      UnchangedChannelsUnchangedTotals(init, sc, yieldBiz, yieldLei);
    }
  }

  /**
   * The simulated totals equal the baseline totals when the scenario is a
   * no-op (zero yield and conversion impact), is inactive, names no known
   * segment, or targets a channel id that no channel has.
   */
  lemma SimulatedEqualsBaseline(chs: seq<Channel>, sc: Scenario, yieldBiz: real, yieldLei: real)
    requires || (sc.yieldImpact == 0.0 && sc.crImpact == 0.0)
             || !sc.active
             || sc.targetSegment == Other
             || (sc.targetChannel != AllChannels && sc.targetChannel !in Ids(chs))
    ensures TotalsOf(chs, sc, yieldBiz, yieldLei, true) == TotalsOf(chs, sc, yieldBiz, yieldLei, false)
  {
    forall i | 0 <= i < |chs|
      ensures ChannelMetrics(chs[i], sc, yieldBiz, yieldLei, true) == ChannelMetrics(chs[i], sc, yieldBiz, yieldLei, false)
    {
      if sc.yieldImpact == 0.0 && sc.crImpact == 0.0 {
        NoOpScenario(chs[i], sc, yieldBiz, yieldLei);
      } else {
        assert chs[i] in chs;
        BaselinePassthrough(chs[i], sc, yieldBiz, yieldLei, true);
      }
    }
    UnchangedChannelsUnchangedTotals(chs, sc, yieldBiz, yieldLei);
  }

  /**
   * Raising the conversion impact never lowers total simulated passengers,
   * for channels with genuine business shares and non-negative traffic,
   * conversion rate and group size, and a lower impact of at least -100%.
   */
  lemma {:induction false} SimulatedPaxMonotone(chs: seq<Channel>, sc: Scenario, higher: real, yieldBiz: real, yieldLei: real)
    requires -100.0 <= sc.crImpact <= higher
    requires forall i :: 0 <= i < |chs| ==>
               && 0.0 <= chs[i].bizShare <= 100.0
               && chs[i].traffic >= 0.0 && chs[i].cr >= 0.0
               && chs[i].avgGroupSize >= 0.0 && chs[i].returnMix >= -100.0
    ensures SumPax(chs, sc, yieldBiz, yieldLei, true) <= SumPax(chs, sc.(crImpact := higher), yieldBiz, yieldLei, true)
    decreases |chs|
  {
    if chs != [] {
      var init := chs[..|chs| - 1];
      assert forall i :: 0 <= i < |init| ==> init[i] == chs[i];
      SimulatedPaxMonotone(init, sc, higher, yieldBiz, yieldLei);
      PaxMonotoneInCrImpact(chs[|chs| - 1], sc, higher, yieldBiz, yieldLei, true);
    }
  }
}

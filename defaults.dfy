/**
 * The modeller's initial configuration (three channels, the default price
 * table and leisure mix, and the initial scenario) with the figures it
 * produces.
 */
module Defaults {
  import opened Yield
  import opened Channels
  import opened Aggregation

  const DefaultTicketPrices: PriceTable := Tiers(340.0, 210.0, 160.0, 160.0)

  const DefaultLeisureMix: LeisureMix := Tiers(60.0, 20.0, 10.0, 10.0)

  const Web: Channel := Channel("web", "Website", 150000.0, 15.0, 50.0, 40.0, 1.2)

  const App: Channel := Channel("app", "App", 30000.0, 50.0, 50.0, 30.0, 1.0)

  const Kiosk: Channel := Channel("kiosk", "Kiosks", 15000.0, 90.0, 50.0, 50.0, 1.5)

  const InitialChannels: seq<Channel> := [Web, App, Kiosk]

  const InitialScenario: Scenario := Scenario(true, "New Campaign", "web", Leisure, 0.0, 0.0)

  /** The default prices and mix give a business yield of 340 and a leisure yield of 278. */
  lemma DefaultYields()
    ensures BusinessYield(DefaultTicketPrices) == 340.0
    ensures LeisureYield(DefaultTicketPrices, DefaultLeisureMix) == 278.0
  {
  }

  /**
   * The web channel without a scenario: 22500 transactions, 37800
   * passengers and 6426000 + 5254200 = 11680200 in revenue.
   */
  lemma WebBaseline(sc: Scenario)
    ensures ChannelMetrics(Web, sc, 340.0, 278.0, false) == Metrics(22500.0, 37800.0, 11680200.0, 15.0)
    ensures 11680200.0 == 13500.0 * 340.0 * 1.4 + 13500.0 * 278.0 * 1.4
  {
  }

  /** Baseline totals of the three initial channels under any scenario. */
  lemma InitialBaselineTotals(sc: Scenario)
    ensures TotalsOf(InitialChannels, sc, 340.0, 278.0, false) == Totals(87675.0, 27091575.0)
  {
    WebBaseline(sc);
    assert ChannelMetrics(App, sc, 340.0, 278.0, false) == Metrics(15000.0, 19500.0, 6025500.0, 50.0);
    assert ChannelMetrics(Kiosk, sc, 340.0, 278.0, false) == Metrics(13500.0, 30375.0, 9385875.0, 90.0);
    assert [Web][..0] == [] && [Web][0] == Web;
    assert SumPax([Web], sc, 340.0, 278.0, false) == 37800.0;
    assert SumRevenue([Web], sc, 340.0, 278.0, false) == 11680200.0;
    assert [Web, App][..1] == [Web];
    assert TotalsOf([Web, App], sc, 340.0, 278.0, false) == Totals(57300.0, 17705700.0);
    assert InitialChannels[..2] == [Web, App];
  }

  /** The initial scenario has zero impacts, so its simulated totals are the baseline totals. */
  lemma InitialScenarioIsNoOp()
    ensures TotalsOf(InitialChannels, InitialScenario, 340.0, 278.0, true)
         == Totals(87675.0, 27091575.0)
  {
    SimulatedEqualsBaseline(InitialChannels, InitialScenario, 340.0, 278.0);
    InitialBaselineTotals(InitialScenario);
  }

  /**
   * A 20% conversion uplift on both segments of the web channel (half of it
   * business) compounds to 15 * 1.1 * 1.1 = 18.15%, not the 18% of adding
   * the two uplifts independently.
   */
  lemma WebBothSegmentsCompound()
    ensures ChannelMetrics(Web, Scenario(true, "Uplift", "web", Both, 0.0, 20.0), 340.0, 278.0, true).effectiveCR
         == 18.15
  {
  }
}

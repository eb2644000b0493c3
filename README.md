# Revenue modeller calculation engine in Dafny

This project models the calculation engine of the revenue strategy lab (`RevenueModeler` in
`script.js`). The lab is a what-if calculator for a transit-ticketing business. Each sales
channel has traffic, a conversion rate, a business share, a return-ticket mix and an average
group size. From these it computes transactions, passengers and revenue. It does this twice:
once as the baseline, and once with an analyst's scenario applied. The scenario shifts yield
and conversion for one channel (or all) and one segment (or both). All arithmetic is over
Dafny `real`.

The model has four modules:

- `Yield` (`yield.dfy`, pure). The leisure yield is the average of the four demographic ticket
  prices (adult, pensioner, youth, child), weighted by the leisure mix and normalised by the
  mix total. A zero total gives 0. The business yield (`BusinessYield`) is the adult price.
- `Channels` (`channels.dfy`). Specification functions state each channel's metrics in closed
  form:
  - `ScenarioRates` gives the conversion rate and the two yields after the scenario.
  - `Outputs` gives transactions, passengers and revenue.
  - `ChannelMetrics` composes the two.

  The source's straight-line code is modelled by two methods with the same sequence of
  assignments: `AdjustRates` (the scenario half) and `CalculateChannelMetrics` (the whole
  computation). Each is proved equal to the closed form. The source has the two halves in one
  function; they are separate methods here only to keep each proof small.
- `Aggregation` (`aggregation.dfy`). `ComputeResults` is the source's loop over the channels.
  It accumulates the baseline and simulated totals and fills the per-channel details map. Its
  invariants tie the accumulators to recursive sums over the processed prefix.
- `Defaults` (`defaults.dfy`). The initial three channels, the default prices and mix, the
  initial scenario, and the figures they produce.

A scenario's `targetSegment` is a free string in the source. Here it is the datatype
`Business | Leisure | Both | Other`, where `Other` stands for every string except "business",
"leisure" and "both". The channel wildcard is the string "all". The channels object becomes a
sequence in the order the loop visits it. The details map is keyed by channel id. When two
channels share an id, the entry written last is the one kept, as with the source's object
assignment.

For the web channel without a scenario, the leisure revenue is 13500 · 278 · 1.4 = 5254200 and
the total is 11680200 (`Defaults.WebBaseline`).

When the scenario targets both segments, the leisure step reads the conversion rate that the
business step has already raised. This makes the two uplifts compound: compared with adding
them independently, the result gains the cross term cr · b · (1 − b) · d². Over the reals the
order of the two steps does not change the product (`Channels.BothCompounds`).

## Model

| member | source | states |
|---|---|---|
| `Yield.LeisureYield` | script.js:112-121 | A zero mix total gives yield 0. Otherwise the source's per-weight rescaling by 100/total gives Σ price·weight / total. |
| `Yield.BusinessYield` | script.js:123 | The business yield is the adult price: it equals the leisure yield of an all-adult mix, and lies between the lowest and highest price. |
| `Yield.LeisureYieldScaleInvariant` | script.js:112-121 | Multiplying all four mix weights by the same positive constant leaves the leisure yield unchanged. |
| `Yield.LeisureYieldBetweenPrices` | script.js:112-121 | With non-negative weights and a positive total, the leisure yield lies between the lowest and the highest of the four prices. |
| `Yield.LeisureYieldUniformPrices` | script.js:112-121 | If all four prices equal p, any mix with a non-zero total yields p. |
| `Channels.AdjustRates` | script.js:127-148 | The source's step-by-step scenario adjustment equals the closed form. The targeted yields are scaled by 1 + yieldImpact/100. The conversion rate is multiplied by the business step and then by the leisure step. |
| `Channels.CalculateChannelMetrics` | script.js:126-160 | The whole per-channel computation returns exactly `ChannelMetrics`: the closed-form rates fed into the output formulas. |
| `Channels.OutputsStepwise` | script.js:150-159 | The source's output arithmetic matches the closed form. Transactions = traffic·cr/100. Trips per ticket = 1 + returnMix/100. Passengers = transactions·groupSize·trips. Revenue = passengers × (b·yieldBiz + (1−b)·yieldLei). |
| `Channels.BaselinePassthrough` | script.js:131-147 | The channel keeps its own cr and the plain yields, so its metrics equal the baseline, in each of four cases: the scenario is not applied, it is inactive, it targets another channel, or it names no known segment. |
| `Channels.SegmentUplift` | script.js:134-146 | With b = bizShare/100, d = crImpact/100 and g = 1 + yieldImpact/100: business gives cr·(1+b·d) and scales only the business yield by g. Leisure gives cr·(1+(1−b)·d) and scales only the leisure yield. Both gives cr·(1+b·d)·(1+(1−b)·d) and scales both yields. |
| `Channels.BothIsBusinessThenLeisure` | script.js:137-146 | Targeting both segments equals the business adjustment followed by the leisure adjustment applied to the already-raised cr. |
| `Channels.BothCompounds` | script.js:137-146 | For both segments, the effective cr is cr·(1+d) + cr·b·(1−b)·d², which is the independent sum plus the compounding cross term. The two steps commute. |
| `Channels.ZeroTraffic` | script.js:150-159 | Zero traffic gives zero transactions, passengers and revenue, with or without a scenario. |
| `Channels.FullBusinessShare` | script.js:154-159 | With bizShare = 100, revenue is passengers times the (possibly adjusted) business yield. The leisure yield has no effect on it. |
| `Channels.NoOpScenario` | script.js:134-146 | A scenario with zero yield impact and zero conversion impact leaves a channel's simulated metrics equal to its baseline metrics. |
| `Channels.PaxMonotoneInCrImpact` | script.js:135-153 | Raising crImpact never lowers a channel's effective cr or passengers. This needs genuine shares, non-negative inputs and a lower impact of at least −100%. |
| `Aggregation.ComputeResults` | script.js:162-177 | Baseline and simulated totals are the sums of every channel's base and sim passengers and revenue. The yields are the adult price and the leisure yield. The details map has exactly the channel ids as keys, and each id holds the {base, sim} pair of the last channel with that id. |
| `Aggregation.TotalsConcat` | script.js:167-173 | Passenger and revenue totals over two runs of channels are the sums of the totals of each run. |
| `Aggregation.SimulatedEqualsBaseline` | script.js:131-175 | Simulated totals equal baseline totals in each of these cases: the scenario is a no-op (zero impacts), it is inactive, it names no known segment, or it targets an id that no channel has. |
| `Aggregation.SimulatedPaxMonotone` | script.js:162-177 | Raising crImpact never lowers total simulated passengers, under the same conditions on every channel as for a single channel. |
| `Defaults.DefaultYields` | script.js:38-50 | With the default prices and mix, the business yield is 340 and the leisure yield is 278. |
| `Defaults.WebBaseline` | script.js:8-17 | The default web channel without a scenario gives 22500 transactions, 37800 passengers and revenue 6426000 + 5254200 = 11680200. |
| `Defaults.InitialBaselineTotals` | script.js:8-50 | The three initial channels give baseline totals of 87675 passengers and 27091575 in revenue. |
| `Defaults.InitialScenarioIsNoOp` | script.js:102-109 | The initial scenario (active, web, leisure, zero impacts) gives simulated totals equal to the baseline totals. |
| `Defaults.WebBothSegmentsCompound` | script.js:137-146 | A +20% conversion impact on both segments of the web channel compounds to 15 · 1.1 · 1.1 = 18.15%, not 18%. |

## Left out

- React rendering is not modelled because it is presentation only. This covers `Card`, `SliderInput`, `NumberInput`, the element tree and the root mount (script.js:53-93, script.js:189-569).
- The state hooks and setters (`useState`, `useMemo`, `updateChannel`, `updateMix`, `setScenario`) are not modelled because they only supply inputs. The model takes channels, prices, leisure mix and scenario as explicit parameters.
- Display formatting (`fmtNum`, `fmtSEK`, `fmtDiff`, `fmtDiffSEK`) is not modelled because it calls `Math.round`, `toLocaleString` and `Intl.NumberFormat`.
- The week and year projections (×0.25 and ×12) and the colour choices are not modelled because they are display-only scaling of the totals.
- Input parsing with `parseFloat` is not modelled. Non-numeric input and NaN cannot occur in the model.
- IEEE-754 double arithmetic is not modelled: all quantities are exact reals. Rounding, the order of floating-point accumulation, and the UI's exact-equality checks on effective cr are therefore not captured.
- The scenario's `name` and the channels' `name` are carried but play no part in any computation.
- The fare-mix comparison engine (fare products, challenger structure, flex and return discounts, share-sum validation) is not part of this model. The calculation code shown in `script.js` contains no such engine.
- Channels.PaxMonotoneInCrImpact: the source promises no monotonicity. The lemma holds only under its stated hypotheses: shares in 0..100, non-negative traffic, cr and group size, returnMix ≥ −100, and the lower crImpact ≥ −100.

# ROAS calculator: the metrics effect

A model of the computation in the `ROASCalculator` component of the
return-on-ad-spend calculator. The component keeps its inputs (ad spend,
ROAS target, selling price, cost of goods, average order value), the gross
margin and the derived figures (revenue, COGS, profit, break-even ROAS, ad
spend per order, profit per order) in state. One effect recomputes them.
The framework runs the effect again whenever one of its dependencies
changed. The margin is one of those dependencies, and the effect writes it.

Two modules:

- `Metrics` (metrics.dfy) holds the pure arithmetic, over `real`.
  `EffectRun(i, storedMargin)` is one run of the effect. The margin is
  computed afresh from `i`. COGS, the break-even ROAS and the per-order COGS
  use `storedMargin`, the margin already in state when the run starts, as
  the source does. `Compute(i)` is the pure map: a run whose stored margin
  is already the inputs' margin. The lemmas cover:
  - the margin's range;
  - the accounting identity;
  - scaling the ad spend;
  - the break-even threshold;
  - agreement between per-order figures and totals, and the "Profitable" badge;
  - the effect of a stale margin;
  - repeated runs (`Runs`): two runs reach the pure map whatever the
    stored margin, and further runs keep it;
  - the seeded figures.
  JavaScript's `1 / 0` for the break-even ROAS at a zero margin is the
  `Infinite` case of `Ratio`. The other divisors (selling price, average
  order value and the order count, which is ad spend times ROAS over order
  value) are kept nonzero by the predicate `Defined`.
- `Calculator` (calculator.dfy) holds the component's state as the class
  `RoasCalculator`, with one field per state variable. It has the four
  input setters, `Effect` (one run), and `Settle`, a loop that runs the
  effect while the run changed its own dependency. `Settle` proves the
  loop reaches the pure map of the inputs in at most two runs, and exactly
  two when the stored margin was stale. `Effect` proves that a run at the
  fixpoint changes nothing. The average order value is in no method's
  `modifies` clause, so it keeps its initial 100: the constructor
  establishes `Valid` and every method preserves it.

After an edit of the selling price or the cost of goods, the first run
stores COGS, profit, break-even ROAS and per-order profit computed from
the previous margin. The margin change starts a second run, which corrects
them. `StaleMarginShows` states this in general: each of the four agrees
with the pure map exactly when the stored margin is current. `StaleAfterPriceEdit`
shows it for the price going from 100 to 200: COGS is 19500 after the first
run and 9750 after the second.

The seeded state has the exact figures of its inputs except the per-order
ones. The seeded 33.33 and 16.67 are roundings of 100/3 and 50/3. So the
seeded state is not a fixpoint, and the effect's first run on mount
replaces those two values (`Mount`).

The margin is exactly 100 at zero cost, so its range is [0, 100], closed at
both ends (`MarginInRange`).

## Model

| member | source | states |
|---|---|---|
| `Metrics.GrossMargin` | src/App.js:23 | the margin in percent times the selling price is the price less the cost of goods, times 100 |
| `Metrics.BreakEvenRoas` | src/App.js:30 | the break-even ROAS is infinite exactly at a zero margin; otherwise it times the margin is 100 |
| `Metrics.Seeded` | src/App.js:6-16 | the seeded inputs (ad spend 13000, ROAS 3, price 100, cost 50, order value 100) are positive, so every figure is defined for them; `SeededFigures` gives their exact figures |
| `Metrics.EffectRun` | src/App.js:22-36 | one run: the margin it yields is the inputs' own, the order count times the order value is revenue, and the break-even ROAS comes from the stored margin; its lemmas give the accounting identity, the per-order agreement, the break-even threshold and the stale-margin iff |
| `Metrics.Compute` | src/App.js:22-36 | the pure map: the margin is the inputs' own, and COGS, per-order COGS and break-even ROAS are all computed from that same margin; repeated runs reach it (`RunsReachFixpoint`) |
| `Metrics.Runs` | src/App.js:21-45 | consecutive runs on fixed inputs, each started from the margin the previous one stored (lines 24 and 45); the stored margin after any number of runs is the inputs' own |
| `Metrics.MarginInRange` | src/App.js:23 | for a positive price and a cost in [0, price], the margin is in [0, 100]; it is 100 iff the cost is 0, 0 iff the cost equals the price, and positive when the cost is below the price |
| `Metrics.Accounting` | src/App.js:27-29 | in every run, revenue is ad spend times ROAS; COGS plus profit plus ad spend is revenue; profit is revenue times margin/100 less ad spend |
| `Metrics.ScaleAdSpend` | src/App.js:27-36 | scaling the ad spend by k scales revenue, COGS, profit and the order count by k, and leaves ad spend per order and profit per order unchanged |
| `Metrics.PerOrder` | src/App.js:33-36 | order count times order value is revenue; ad spend per order is order value over ROAS; per-order COGS and per-order profit times the order count are total COGS and total profit |
| `Metrics.ProfitableBadge` | src/App.js:246 | with positive inputs, profit per order is positive iff total profit is, and zero iff total profit is |
| `Metrics.BreakEvenThreshold` | src/App.js:29-30 | with positive ad spend and margin, break-even ROAS is 100 over the margin; profit is non-negative iff the ROAS target reaches it, and zero iff it equals it |
| `Metrics.ZeroMarginNeverBreaksEven` | src/App.js:28-30 | at a zero margin the break-even ROAS is infinite and the profit is minus the ad spend |
| `Metrics.NegativeMarginNeverProfitable` | src/App.js:28-30 | at a negative margin the break-even ROAS is a finite negative number and the profit is negative for every positive input |
| `Metrics.StaleMarginShows` | src/App.js:28-36 | a run's COGS, profit, break-even ROAS and profit per order each equal the pure map's iff the stored margin is the inputs' margin |
| `Metrics.RunsAppend` | src/App.js:24-45 | one more run of the effect starts from the margin the previous runs stored |
| `Metrics.RunsReachFixpoint` | src/App.js:21-45 | two or more consecutive runs on fixed inputs always show the pure map, whatever margin the first run started from |
| `Metrics.RunsStayAtFixpoint` | src/App.js:21-45 | starting from the inputs' own margin, any number of runs shows the pure map |
| `Metrics.SeededFigures` | src/App.js:5-18 | the seeded inputs map to margin 50, revenue 39000, COGS 19500, profit 6500, break-even 2, 390 orders, 100/3 and 50/3 per order; 33.33 and 16.67 differ from the last two |
| `Calculator.RoasCalculator.constructor` | src/App.js:5-18 | the seeded state: order value 100, margin already that of the inputs, state not settled because of the rounded per-order figures |
| `Calculator.RoasCalculator.SetAdSpend` | src/App.js:109 | stores the new ad spend and changes nothing else; preserves `Valid` |
| `Calculator.RoasCalculator.SetRoasTarget` | src/App.js:131 | stores the new ROAS target and changes nothing else; preserves `Valid` |
| `Calculator.RoasCalculator.SetSellingPrice` | src/App.js:283 | stores the new selling price and changes nothing else; preserves `Valid` |
| `Calculator.RoasCalculator.SetCostOfGoods` | src/App.js:293 | stores the new cost of goods and changes nothing else; preserves `Valid` |
| `Calculator.RoasCalculator.Effect` | src/App.js:21-45 | leaves the inputs unchanged; stores the run's figures computed from the old stored margin; the new margin is the inputs' margin; asks for a rerun iff the margin changed; no rerun means settled; a run from a settled state changes nothing; preserves `Valid` |
| `Calculator.RoasCalculator.Settle` | src/App.js:21-45 | rerunning the effect while the margin changes leaves the inputs unchanged and shows what that many consecutive runs (`Runs`) compute, which is the pure map, after 1 run when the stored margin was current and 2 otherwise; preserves `Valid` |
| `Calculator.Mount` | src/App.js:5-45 | a fresh component whose first effect run, from the seeded state, settles it with 100/3 and 50/3 per order |
| `Calculator.StaleAfterPriceEdit` | src/App.js:24-30 | after mounting and editing the price from 100 to 200, the first run stores COGS 19500 and asks for a rerun; the second stores 9750 and asks for none |

## Left out

- Rendering, layout, styling, the bar chart and its data array (src/App.js:56-300): user interface and a foreign charting library.
- Currency and number formatting (`Intl.NumberFormat`, `Math.round`, `toFixed`, `toLocaleString`): display only, and host-dependent.
- Parsing of the input events (`parseInt`, `parseFloat`, `Number`): each setter takes the parsed value as a `real`.
- The input attributes `min`, `max` and `step`: the code itself does no clamping. The ranges appear only as preconditions of the lemmas that need them.
- IEEE-754 arithmetic: the model uses exact reals. Rounding error is not modelled. Neither are the NaN or infinite results of a zero selling price, ad spend, ROAS target or order value, which `Defined` excludes. Only the infinite break-even ROAS of a zero margin is modelled, and without its sign.
- React's scheduling beyond "run the effect again while a dependency changed", including batching of renders and StrictMode's double invocation. Which intermediate state is painted is not modelled.
- The "Save Results" button (src/App.js:259-261), which has no handler.
- The bootstrap in src/index.js: DOM and framework set-up.

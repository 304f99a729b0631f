/** The arithmetic of the ROAS calculator's effect: the figures one run of the
    effect computes from the inputs and the gross margin held in state, the
    pure map that uses the freshly computed margin, and the identities between
    totals, per-order figures and the break-even threshold. */
module Metrics {

  /** The figures the effect reads besides the stored margin: the form inputs
      (ad spend, ROAS target, selling price, cost of goods) and the average
      order value. */
  datatype Inputs = Inputs(
    adSpend: real,
    roasTarget: real,
    sellingPrice: real,
    costOfGoods: real,
    avgOrderValue: real)

  /** A quotient as JavaScript division yields it: a finite value, or the
      infinity that `1 / 0` produces. */
  datatype Ratio = Finite(value: real) | Infinite

  /** Everything one run of the effect computes, the per-order cost of goods
      and the order count included (those two are not kept in state). */
  datatype Figures = Figures(
    grossMargin: real,
    revenue: real,
    cogs: real,
    profit: real,
    breakEvenRoas: Ratio,
    totalOrders: real,
    adSpendPerOrder: real,
    cogsPerOrder: real,
    profitPerOrder: real)

  /** No divisor of the effect other than the margin is zero: the selling
      price, the order value and the order count (ad spend times ROAS). */
  predicate Defined(i: Inputs)
  {
    i.sellingPrice != 0.0 && i.adSpend != 0.0 && i.roasTarget != 0.0 && i.avgOrderValue != 0.0
  }

  /** The inputs are all positive, as the form's ranges ask. */
  predicate Positive(i: Inputs)
  {
    i.sellingPrice > 0.0 && i.adSpend > 0.0 && i.roasTarget > 0.0 && i.avgOrderValue > 0.0
  }

  /** The component's initial inputs; they are positive, so every figure
      of the effect is defined for them. */
  function Seeded(): (i: Inputs)
    ensures Defined(i) && Positive(i)
  {
    Inputs(13000.0, 3.0, 100.0, 50.0, 100.0)
  }

  /** Gross margin in percent: the share of the selling price left after the
      cost of goods. */
  function GrossMargin(sellingPrice: real, costOfGoods: real): (m: real)
    requires sellingPrice != 0.0
    ensures m * sellingPrice == (sellingPrice - costOfGoods) * 100.0
  {
    ((sellingPrice - costOfGoods) / sellingPrice) * 100.0
  }

  /** Break-even ROAS for a margin in percent; infinite at a zero margin. */
  function BreakEvenRoas(margin: real): (r: Ratio)
    ensures r.Infinite? <==> margin == 0.0
    ensures r.Finite? ==> r.value * margin == 100.0
  {
    if margin == 0.0 then Infinite else Finite(1.0 / (margin / 100.0))
  }

  /** One run of the effect: the margin is computed afresh from the inputs, but
      COGS, break-even ROAS and per-order COGS use `storedMargin`, the margin
      held in state when the run started. */
  function EffectRun(i: Inputs, storedMargin: real): (f: Figures)
    requires Defined(i)
    ensures f.grossMargin == GrossMargin(i.sellingPrice, i.costOfGoods)
    ensures f.totalOrders * i.avgOrderValue == f.revenue
    ensures f.breakEvenRoas == BreakEvenRoas(storedMargin)
  {
    var revenue := i.adSpend * i.roasTarget;
    var cogs := revenue * (1.0 - storedMargin / 100.0);
    var profit := revenue - cogs - i.adSpend;
    var totalOrders := revenue / i.avgOrderValue;
    assert totalOrders * i.avgOrderValue == revenue != 0.0;
    var adSpendPerOrder := i.adSpend / totalOrders;
    var cogsPerOrder := i.avgOrderValue * (1.0 - storedMargin / 100.0);
    Figures(
      GrossMargin(i.sellingPrice, i.costOfGoods),
      revenue,
      cogs,
      profit,
      BreakEvenRoas(storedMargin),
      totalOrders,
      adSpendPerOrder,
      cogsPerOrder,
      i.avgOrderValue - cogsPerOrder - adSpendPerOrder)
  }

  /** The pure map from inputs to figures: a run whose stored margin is
      already the margin of the current inputs. */
  function Compute(i: Inputs): (f: Figures)
    requires Defined(i)
    ensures f.grossMargin == GrossMargin(i.sellingPrice, i.costOfGoods)
    ensures f.cogs == f.revenue * (1.0 - f.grossMargin / 100.0)
    ensures f.cogsPerOrder == i.avgOrderValue * (1.0 - f.grossMargin / 100.0)
    ensures f.breakEvenRoas == BreakEvenRoas(f.grossMargin)
  {
    EffectRun(i, GrossMargin(i.sellingPrice, i.costOfGoods))
  }

  /** With a positive price and a cost between zero and the price, the margin
      lies in [0, 100]; it is 100 exactly at zero cost, 0 exactly when the cost
      equals the price, and positive whenever the cost is below the price. */
  lemma MarginInRange(sellingPrice: real, costOfGoods: real)
    requires sellingPrice > 0.0 && 0.0 <= costOfGoods <= sellingPrice
    ensures var m := GrossMargin(sellingPrice, costOfGoods);
      && 0.0 <= m <= 100.0
      && (m == 100.0 <==> costOfGoods == 0.0)
      && (m == 0.0 <==> costOfGoods == sellingPrice)
      && (costOfGoods < sellingPrice ==> m > 0.0)
  {
  }

  /** The accounting identity of every run: COGS, profit and ad spend add up
      to revenue, revenue is ad spend times ROAS, and the profit is the margin
      share of revenue less the ad spend. */
  lemma Accounting(i: Inputs, storedMargin: real)
    requires Defined(i)
    ensures var f := EffectRun(i, storedMargin);
      && f.revenue == i.adSpend * i.roasTarget
      && f.cogs + f.profit + i.adSpend == f.revenue
      && f.profit == f.revenue * storedMargin / 100.0 - i.adSpend
  {
  }

  /** Scaling the ad spend by a nonzero factor scales revenue, COGS, profit and
      the order count by that factor and leaves the per-order figures as they
      were. */
  lemma ScaleAdSpend(i: Inputs, storedMargin: real, k: real)
    requires Defined(i) && k != 0.0
    ensures Defined(i.(adSpend := k * i.adSpend))
    ensures var f, g := EffectRun(i, storedMargin), EffectRun(i.(adSpend := k * i.adSpend), storedMargin);
      && g.revenue == k * f.revenue
      && g.cogs == k * f.cogs
      && g.profit == k * f.profit
      && g.totalOrders == k * f.totalOrders
      && g.adSpendPerOrder == f.adSpendPerOrder
      && g.profitPerOrder == f.profitPerOrder
  {
  }

  /** The order-level figures agree with the totals: ad spend per order is the
      order value over the ROAS target, and per-order COGS and profit times the
      order count give the total COGS and profit. */
  lemma PerOrder(i: Inputs, storedMargin: real)
    requires Defined(i)
    ensures var f := EffectRun(i, storedMargin);
      && f.totalOrders * i.avgOrderValue == f.revenue
      && f.adSpendPerOrder == i.avgOrderValue / i.roasTarget
      && f.cogsPerOrder * f.totalOrders == f.cogs
      && f.profitPerOrder * f.totalOrders == f.profit
  {
  }

  /** The "Profitable" badge, which looks at profit per order, shows exactly
      when the total profit is positive, and the break-even of the two is the
      same: per-order profit is zero exactly when total profit is. */
  lemma ProfitableBadge(i: Inputs, storedMargin: real)
    requires Defined(i) && Positive(i)
    ensures var f := EffectRun(i, storedMargin);
      && (f.profitPerOrder > 0.0 <==> f.profit > 0.0)
      && (f.profitPerOrder == 0.0 <==> f.profit == 0.0)
  {
  }

  /** Break-even ROAS is the "minimum ROAS to be profitable": with a positive
      margin it is 100 over the margin, the profit is non-negative exactly when
      the ROAS target reaches it, and zero exactly at it. Profit factors as
      adSpend * storedMargin * (roasTarget - 100 / storedMargin) / 100. */
  lemma BreakEvenThreshold(i: Inputs, storedMargin: real)
    requires Defined(i) && i.adSpend > 0.0 && storedMargin > 0.0
    ensures var f := EffectRun(i, storedMargin);
      && f.breakEvenRoas == Finite(100.0 / storedMargin)
      && (f.profit >= 0.0 <==> i.roasTarget >= 100.0 / storedMargin)
      && (f.profit == 0.0 <==> i.roasTarget == 100.0 / storedMargin)
  {
  }

  /** At a zero margin the break-even ROAS is infinite and the profit is the
      negated ad spend, whatever the ROAS target. */
  lemma ZeroMarginNeverBreaksEven(i: Inputs)
    requires Defined(i)
    ensures var f := EffectRun(i, 0.0);
      && f.breakEvenRoas == Infinite
      && f.profit == -i.adSpend
  {
  }

  /** With a negative margin (cost above price) the break-even ROAS is a
      finite negative number, yet no positive ROAS target makes a profit. */
  lemma NegativeMarginNeverProfitable(i: Inputs, storedMargin: real)
    requires Defined(i) && Positive(i) && storedMargin < 0.0
    ensures var f := EffectRun(i, storedMargin);
      && f.breakEvenRoas.Finite? && f.breakEvenRoas.value < 0.0
      && f.profit < 0.0
  {
  }

  /** COGS, profit, break-even ROAS and profit per order of a run each agree
      with the pure map exactly when the stored margin is the current inputs'
      margin: a run that starts from a stale margin shows all four stale. */
  lemma StaleMarginShows(i: Inputs, storedMargin: real)
    requires Defined(i)
    ensures var f, g, m := EffectRun(i, storedMargin), Compute(i), GrossMargin(i.sellingPrice, i.costOfGoods);
      && (f.cogs == g.cogs <==> storedMargin == m)
      && (f.profit == g.profit <==> storedMargin == m)
      && (f.breakEvenRoas == g.breakEvenRoas <==> storedMargin == m)
      && (f.profitPerOrder == g.profitPerOrder <==> storedMargin == m)
  {
  }

  /** The figures shown after `n` consecutive runs of the effect on fixed
      inputs, the first starting from stored margin `m`; each run starts from
      the margin the previous one stored. After any number of runs the
      stored margin is the inputs' own. */
  function Runs(i: Inputs, m: real, n: nat): (f: Figures)
    requires Defined(i) && n >= 1
    ensures f.grossMargin == GrossMargin(i.sellingPrice, i.costOfGoods)
    decreases n
  {
    var f := EffectRun(i, m);
    if n == 1 then f else Runs(i, f.grossMargin, n - 1)
  }

  /** Adding a run at the end: it starts from the margin the previous runs
      stored. */
  lemma {:induction false} RunsAppend(i: Inputs, m: real, n: nat)
    requires Defined(i) && n >= 1
    ensures Runs(i, m, n + 1) == EffectRun(i, Runs(i, m, n).grossMargin)
    decreases n
  {
    if n > 1 {
      RunsAppend(i, EffectRun(i, m).grossMargin, n - 1);
    }
  }

  /** Two or more runs always end at the pure map, whatever margin the first
      one started from. */
  lemma {:induction false} RunsReachFixpoint(i: Inputs, m: real, n: nat)
    requires Defined(i) && n >= 2
    ensures Runs(i, m, n) == Compute(i)
    decreases n
  {
    if n > 2 {
      RunsReachFixpoint(i, EffectRun(i, m).grossMargin, n - 1);
    }
  }

  /** Starting from the inputs' own margin, every number of runs shows the
      pure map: the fixpoint is stable. */
  lemma {:induction false} RunsStayAtFixpoint(i: Inputs, n: nat)
    requires Defined(i) && n >= 1
    ensures Runs(i, GrossMargin(i.sellingPrice, i.costOfGoods), n) == Compute(i)
    decreases n
  {
    if n > 1 {
      RunsStayAtFixpoint(i, n - 1);
    }
  }

  /** The seeded inputs give margin 50, revenue 39000, COGS 19500, profit
      6500, break-even 2, 390 orders, ad spend 100/3 and profit 50/3 per
      order; the seeded 33.33 and 16.67 are only roundings of the last two. */
  lemma SeededFigures()
    ensures Defined(Seeded())
    ensures Compute(Seeded()) ==
      Figures(50.0, 39000.0, 19500.0, 6500.0, Finite(2.0), 390.0, 100.0 / 3.0, 50.0, 50.0 / 3.0)
    ensures Compute(Seeded()).adSpendPerOrder != 33.33
    ensures Compute(Seeded()).profitPerOrder != 16.67
  {
  }
}
